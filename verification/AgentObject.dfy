/** The agent as an object whose methods update its fields (integrity/agent.py). Each method
    computes the function of the same name in module `Agent`. */
module AgentObject {
  import opened Prelude
  import opened Chain
  import opened Trust
  import opened Agent
  import Ewma
  import Quorum
  import Rates

  class IntegrityAgent {
    const k: Keys
    const cid: string
    const t0: real
    const chain: HashChain<Snapshot>
    const engine: Ewma.AnomalyEngine
    var switches: nat
    var packets: nat
    var flows: nat
    var alerts: nat
    var macTable: MacTable
    var packetTimes: seq<real>
    var flowTimes: seq<real>
    var lastIdx: map<string, int>
    var trust: Dict<int>
    ghost var log: Log

    ghost predicate Valid()
      reads this, chain, engine
    {
      && chain.k == k && chain.cid == cid
      && engine.Valid()
    }

    ghost function Repr(): set<object>
      reads this, engine
    {
      {this, chain} + engine.Repr()
    }

    ghost function View(): Agent
      reads this, chain, engine, engine.detectors.Values
    {
      Agent(cid, t0, chain.View(), switches, packets, flows, alerts, macTable, packetTimes, flowTimes,
            lastIdx, trust, engine.View(), log)
    }

    constructor (k: Keys, cid: string, t0: real)
      ensures Valid() && fresh(Repr())
      ensures this.k == k && View() == Start(k, cid, t0)
    {
      this.k, this.cid, this.t0 := k, cid, t0;
      chain := new HashChain(k, cid);
      engine := new Ewma.AnomalyEngine();
      switches, packets, flows, alerts := 0, 0, 0, 0;
      macTable, packetTimes, flowTimes, lastIdx, trust := map[], [], [], map[], EmptyDict();
      log := Log([], [], [], [], [], 0, 0);
      new;
      var _ := DoFlush(t0, Boot);
    }

    /** `_flush`: adds a block and hands over the record to publish. Module `StateFile` says how
        records reach the shared file. */
    method DoFlush(now: real, event: Event) returns (record: Record)
      requires Valid()
      modifies this`log, chain
      ensures Valid() && View() == Flush(k, old(View()), now, event)
      ensures log.published == old(log.published) + [record]
    {
      hide MacCount, Accepted, Intact, NextBlock, Extend;
      var snap := Snapshot(cid, now, now - t0, switches, packets, flows, alerts, MacCount(macTable), event,
                           chain.height);
      var block := chain.Add(snap, now);
      var intact := chain.VerifyAll();
      record := Record(alerts < 2 && intact, block.hash, Signed(cid, block.hash), block.idx, switches,
                                 packets, flows, alerts, now, event, trust, true);
      log := log.(published := log.published + [record]);
    }

    /** `_alert`. */
    method DoRaise(now: real, kind: AlertKind, source: string, severity: Severity)
      requires Valid()
      modifies this`log, this`alerts, chain
      ensures Valid() && View() == Raise(k, old(View()), now, kind, source, severity)
    {
      hide Flush, HashChain.View, Ewma.AnomalyEngine.View;
      var sev := severity;
      if now < t0 + BOOT_GRACE && kind != Flood && kind != UnauthSwitch {
        sev := MEDIUM;
      }
      if sev == HIGH && source == cid {
        alerts := alerts + 1;
      }
      log := log.(alerts := log.alerts + [Alert(kind, source, sev, now, cid)]);
      var _ := DoFlush(now, Alerted(kind));
    }

    method SwitchUpEvent(now: real, dpid: int)
      requires Valid()
      modifies this, chain
      ensures Valid() && View() == OnSwitchUp(k, old(View()), now, dpid)
    {
      hide Flush, Row;
      switches := switches + 1;
      macTable := macTable[dpid := Row(macTable, dpid)];
      var _ := DoFlush(now, SwitchUp(dpid));
    }

    method SwitchDownEvent(now: real, dpid: int)
      requires Valid()
      modifies this, chain
      ensures Valid() && View() == OnSwitchDown(k, old(View()), now, dpid)
    {
      hide Flush;
      switches := if switches == 0 then 0 else switches - 1;
      var _ := DoFlush(now, SwitchDown(dpid));
    }

    method PacketInEvent(now: real, dpid: int, src: string, port: int)
      requires Valid()
      modifies Repr()
      ensures Valid() && fresh(Repr() - old(Repr()))
      ensures View() == OnPacketIn(k, old(View()), now, dpid, src, port)
    {
      hide Flush, Raise, CountPacket, FloodCheck, AnomalyCheck;
      CountPart(now, dpid, src, port);
      FloodPart(now);
      AnomalyPart(now);
      if packets % 10 == 0 {
        var _ := DoFlush(now, PacketCount(packets));
      }
    }

    method CountPart(now: real, dpid: int, src: string, port: int)
      requires Valid()
      modifies this
      ensures Valid() && View() == CountPacket(old(View()), now, dpid, src, port)
    {
      hide Rates.Recent, Row, HashChain.View, Ewma.AnomalyEngine.View;
      packets := packets + 1;
      packetTimes := Rates.FilterRecent(packetTimes + [now], now);
      macTable := macTable[dpid := Row(macTable, dpid)[src := port]];
      log := log.(packets := log.packets + [now]);
    }

    method FloodPart(now: real)
      requires Valid()
      modifies this, chain
      ensures Valid() && View() == FloodCheck(k, old(View()), now)
    {
      hide Raise;
      if |packetTimes| > FLOOD_LIMIT {
        DoRaise(now, Flood, cid, HIGH);
      }
    }

    method AnomalyPart(now: real)
      requires Valid()
      modifies Repr()
      ensures Valid() && fresh(Repr() - old(Repr()))
      ensures View() == AnomalyCheck(k, old(View()), now)
    {
      hide Raise, Ewma.Feed, Ewma.Score, HashChain.View, Ewma.AnomalyEngine.View;
      if now - t0 > ANOMALY_GRACE {
        var outcome := engine.CheckSample(PACKET_RATE, |packetTimes| as real);
        if outcome.Anomaly? {
          DoRaise(now, Flood, cid, MEDIUM);
        }
      }
    }

    method FlowAddEvent(now: real, dpid: int, priority: int)
      requires Valid()
      modifies this, chain
      ensures Valid() && View() == OnFlowAdd(k, old(View()), now, dpid, priority)
    {
      hide Flush, Raise, CountFlow;
      CountFlowPart(now);
      if |flowTimes| > FLOW_LIMIT {
        DoRaise(now, FlowInject, cid, HIGH);
      }
      var _ := DoFlush(now, FlowAdd(dpid, priority));
    }

    method CountFlowPart(now: real)
      requires Valid()
      modifies this
      ensures Valid() && View() == CountFlow(old(View()), now)
    {
      hide Rates.Recent;
      flows := flows + 1;
      flowTimes := Rates.FilterRecent(flowTimes + [now], now);
      log := log.(flows := log.flows + [now]);
    }

    method Recover(now: real)
      requires Valid()
      modifies this, chain
      ensures Valid() && View() == ResetAlerts(k, old(View()), now)
    {
      hide Flush, Fill, HashChain.View, Ewma.AnomalyEngine.View;
      alerts := 0;
      trust := Fill(trust, FULL_TRUST);
      log := log.(trust := [], resetAlerts := |log.alerts|, resetPublished := |log.published|);
      var _ := DoFlush(now, Recovery);
    }

    method GetSignedState(now: real) returns (m: Message)
      requires Valid()
      ensures m == SignedState(View(), now)
    {
      m := Message(cid, chain.head, Signed(cid, chain.head), now, chain.height);
    }

    method DoJudge(pid: string, e: TrustEvent)
      requires Valid()
      modifies this`trust, this`log
      ensures Valid() && View() == Judge(old(View()), pid, e)
    {
      hide HashChain.View, Ewma.AnomalyEngine.View;
      var score := Lookup(trust, pid, FULL_TRUST);
      match e {
        case BadSignature => trust := Put(trust, pid, Max(0, score - 30));
        case NoResponse => trust := Put(trust, pid, Max(0, score - 25));
        case Boost => trust := Put(trust, pid, Min(FULL_TRUST, score + 2));
      }
      log := log.(trust := log.trust + [(pid, e)]);
    }

    method DoVerifyPeer(now: real, m: Message) returns (ok: bool)
      requires Valid()
      modifies this, chain
      ensures Valid() && View() == VerifyPeer(k, old(View()), now, m)
      ensures ok == Accepts(old(View()), now, m)
    {
      hide Raise, Judge;
      if now - m.ts > REPLAY_WINDOW {
        DoRaise(now, Replay, m.cid, MEDIUM);
        return false;
      }
      var last := if m.cid in lastIdx then lastIdx[m.cid] else -1;
      if m.idx < last {
        DoRaise(now, Replay, m.cid, HIGH);
        return false;
      }
      lastIdx := lastIdx[m.cid := m.idx];
      if !Verifies(m.hash, m.sig, m.cid) {
        DoJudge(m.cid, BadSignature);
        DoRaise(now, SigInvalid, m.cid, HIGH);
        return false;
      }
      DoJudge(m.cid, Boost);
      return true;
    }

    method DoConsensus(now: real, peers: Dict<string>) returns (v: Verdict)
      requires Valid()
      modifies this, chain
      ensures Valid() && View() == Consensus(k, old(View()), now, peers).0
      ensures v == Consensus(k, old(View()), now, peers).1
    {
      hide Raise, PollPeers, ScanTrust, Accepted;
      var total := |peers.order| + 1;
      var healthy, silent := PollPart(now, peers);
      var chainOk := chain.VerifyAll();
      if !chainOk {
        DoRaise(now, HashMismatch, cid, HIGH);
        return LocalChainInvalid;
      }
      var active := |healthy| + 1;
      var suspicious := ScanPart(now, healthy, silent);
      v := Verdict(Quorum.Reached(active, total), healthy, Elements(suspicious), trust, active, total);
    }

    method PollPart(now: real, peers: Dict<string>) returns (healthy: seq<string>, suspicious: seq<string>)
      requires Valid()
      modifies this, chain
      ensures Valid()
      ensures Poll(View(), healthy, suspicious) == PollPeers(k, old(View()), now, peers, |peers.order|)
    {
      hide Raise, Judge;
      healthy, suspicious := [], [];
      for i := 0 to |peers.order|
        invariant Valid()
        invariant Poll(View(), healthy, suspicious) == PollPeers(k, old(View()), now, peers, i)
      {
        var pid := peers.order[i];
        assert pid in peers.order;
        if peers.at[pid] == "" {
          DoJudge(pid, NoResponse);
          suspicious := suspicious + [pid];
          DoRaise(now, ConsensusFail, pid, MEDIUM);
        } else {
          DoJudge(pid, Boost);
          healthy := healthy + [pid];
        }
      }
    }

    method ScanPart(now: real, ghost healthy: seq<string>, silent: seq<string>) returns (suspicious: seq<string>)
      requires Valid()
      modifies this, chain
      ensures Valid()
      ensures Poll(View(), healthy, suspicious)
              == ScanTrust(k, Poll(old(View()), healthy, silent), now, old(trust), |old(trust).order|)
    {
      hide Raise;
      suspicious := silent;
      var scores := trust;
      for i := 0 to |scores.order|
        invariant Valid()
        invariant Poll(View(), healthy, suspicious)
                  == ScanTrust(k, Poll(old(View()), healthy, silent), now, scores, i)
      {
        var pid := scores.order[i];
        assert pid in scores.order;
        if scores.at[pid] < LOW_TRUST && pid !in suspicious {
          suspicious := suspicious + [pid];
          DoRaise(now, HashMismatch, pid, HIGH);
        }
      }
    }
  }
}
