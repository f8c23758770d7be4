/** What every operation of the agent keeps, and what its operations decide. */
module AgentLaws {
  import opened Prelude
  import opened Links
  import opened Chain
  import opened Trust
  import opened Agent
  import Ewma
  import Rates

  // ---------------------------------------------------------------- the invariant

  /** `verify_all` holds of the window after n blocks. */
  predicate Verifiable(history: seq<Block<Snapshot>>, n: nat)
    requires n <= |history|
  {
    n <= 1000 || history[n - 1001].hash == GENESIS
  }

  /** The record describes block i and was signed by the controller. Health is what it should be. */
  predicate Describes(cid: string, history: seq<Block<Snapshot>>, r: Record, i: nat)
    requires i < |history|
  {
    var state := history[i].state;
    && r.idx == i && r.hash == history[i].hash && r.sig == Signed(cid, r.hash) && r.chainOk
    && r.switches == state.switches && r.packets == state.packets && r.flows == state.flows
    && r.alerts == state.alerts && r.ts == state.ts && r.event == state.event
    && state.cid == cid && state.height == i
    && (r.healthy <==> r.alerts < 2 && Verifiable(history, i + 1))
  }

  /** One signed record per block, in order. */
  predicate Published(k: Keys, cid: string, l: Ledger<Snapshot>, published: seq<Record>) {
    && Intact(k, cid, l)
    && |published| == l.height
    && forall i :: 0 <= i < |published| ==> Describes(cid, l.history, published[i], i)
  }

  function CountHigh(alerts: seq<Alert>, cid: string): nat {
    if alerts == [] then 0
    else
      var a := alerts[|alerts| - 1];
      CountHigh(alerts[..|alerts| - 1], cid) + if a.severity == HIGH && a.source == cid then 1 else 0
  }

  /** The counter is the number of HIGH alerts about this controller since the last reset. */
  predicate Counted(cid: string, count: nat, alerts: seq<Alert>, since: nat) {
    since <= |alerts| && count == CountHigh(alerts[since..], cid)
  }

  /** Since the last reset published alert counts never fall, up to the current one. */
  predicate Rising(count: nat, published: seq<Record>, since: nat) {
    && since <= |published|
    && (forall i :: since <= i < |published| ==> published[i].alerts <= count)
    && (forall i, j :: since <= i <= j < |published| ==> published[i].alerts <= published[j].alerts)
  }

  function EventsOf(log: seq<(string, TrustEvent)>, pid: string): seq<TrustEvent> {
    if log == [] then []
    else
      var (p, e) := log[|log| - 1];
      EventsOf(log[..|log| - 1], pid) + if p == pid then [e] else []
  }

  /** Every peer's score is the one its history since the last reset gives it. */
  ghost predicate Scored(trust: Dict<int>, log: seq<(string, TrustEvent)>) {
    forall pid :: Lookup(trust, pid, FULL_TRUST) == Score(EventsOf(log, pid))
  }

  /** The detector has only seen packet rates, so it cannot divide by zero. */
  predicate Sane(detectors: map<string, Ewma.Detector>) {
    var d := Ewma.Known(detectors, PACKET_RATE);
    d.mean.Some? ==> d.mean.value >= 0.0
  }

  ghost predicate Sound(k: Keys, s: Agent) {
    && Published(k, s.cid, s.ledger, s.log.published)
    && Counted(s.cid, s.alerts, s.log.alerts, s.log.resetAlerts)
    && Rising(s.alerts, s.log.published, s.log.resetPublished)
    && Scored(s.trust, s.log.trust)
    && s.packetTimes == Rates.Rolling(s.log.packets)
    && s.flowTimes == Rates.Rolling(s.log.flows)
    && Sane(s.detectors)
  }

  // ---------------------------------------------------------------- single steps

  lemma DescribesStable(cid: string, h: seq<Block<Snapshot>>, b: Block<Snapshot>, r: Record, i: nat)
    requires i < |h| && Describes(cid, h, r, i)
    ensures Describes(cid, h + [b], r, i)
  {
    assert Verifiable(h, i + 1) <==> Verifiable(h + [b], i + 1);
  }

  lemma NewRecordDescribes(k: Keys, s: Agent, now: real, event: Event)
    requires Intact(k, s.cid, s.ledger)
    ensures var s' := Flush(k, s, now, event);
      && Intact(k, s.cid, s'.ledger)
      && |s'.log.published| == |s.log.published| + 1
      && Describes(s.cid, s'.ledger.history, s'.log.published[|s.log.published|], s.ledger.height)
  {
    hide MacCount, Accepted, Window, Evict, PrevAt;
    ExtendIntact(k, s.cid, s.ledger, Snap(s, now, event), now);
    UntamperedAcceptedIff(k, s.cid, Flush(k, s, now, event).ledger);
  }

  lemma FlushPublishes(k: Keys, s: Agent, now: real, event: Event)
    requires Published(k, s.cid, s.ledger, s.log.published)
    ensures var s' := Flush(k, s, now, event);
      Published(k, s'.cid, s'.ledger, s'.log.published)
  {
    hide MacCount, Accepted, Describes;
    var s' := Flush(k, s, now, event);
    NewRecordDescribes(k, s, now, event);
    var n := |s.log.published|;
    forall i | 0 <= i <= n ensures Describes(s.cid, s'.ledger.history, s'.log.published[i], i) {
      if i < n {
        DescribesStable(s.cid, s.ledger.history, s'.ledger.history[n], s.log.published[i], i);
      }
    }
  }

  lemma FlushSound(k: Keys, s: Agent, now: real, event: Event)
    requires Sound(k, s)
    ensures Sound(k, Flush(k, s, now, event))
  {
    hide Published, Counted, Scored, Sane;
    FlushPublishes(k, s, now, event);
  }

  lemma CountHighAppend(alerts: seq<Alert>, a: Alert, since: nat, cid: string)
    requires since <= |alerts|
    ensures CountHigh((alerts + [a])[since..], cid)
            == CountHigh(alerts[since..], cid) + if a.severity == HIGH && a.source == cid then 1 else 0
  {
    var tail := (alerts + [a])[since..];
    assert tail[..|tail| - 1] == alerts[since..];
  }

  lemma RaiseSound(k: Keys, s: Agent, now: real, kind: AlertKind, source: string, severity: Severity)
    requires Sound(k, s)
    ensures Sound(k, Raise(k, s, now, kind, source, severity))
  {
    hide Published, Scored, Sane, Flush;
    var sev := EffectiveSeverity(s, now, kind, severity);
    var alert := Alert(kind, source, sev, now, s.cid);
    CountHighAppend(s.log.alerts, alert, s.log.resetAlerts, s.cid);
    var counted := s.(alerts := if sev == HIGH && source == s.cid then s.alerts + 1 else s.alerts,
                      log := s.log.(alerts := s.log.alerts + [alert]));
    FlushSound(k, counted, now, Alerted(kind));
  }

  lemma EventsAppend(log: seq<(string, TrustEvent)>, pid: string, e: TrustEvent, q: string)
    ensures EventsOf(log + [(pid, e)], q) == EventsOf(log, q) + if q == pid then [e] else []
  {
    var log' := log + [(pid, e)];
    assert log'[..|log'| - 1] == log;
  }

  lemma ScoreAppend(es: seq<TrustEvent>, e: TrustEvent)
    ensures Score(es + [e]) == Adjusted(Score(es), e)
  {
    var es' := es + [e];
    assert es'[..|es'| - 1] == es;
  }

  /** The score of one peer q after an event about pid. */
  lemma JudgeScoredFor(trust: Dict<int>, log: seq<(string, TrustEvent)>, pid: string, e: TrustEvent, q: string)
    requires Lookup(trust, q, FULL_TRUST) == Score(EventsOf(log, q))
    ensures Lookup(Put(trust, pid, Adjusted(Lookup(trust, pid, FULL_TRUST), e)), q, FULL_TRUST)
            == Score(EventsOf(log + [(pid, e)], q))
  {
    hide Score, Adjusted, EventsOf, RawDict.Valid;
    EventsAppend(log, pid, e, q);
    if q == pid {
      ScoreAppend(EventsOf(log, q), e);
    } else {
      assert EventsOf(log, q) + [] == EventsOf(log, q);
    }
  }

  lemma JudgeScored(trust: Dict<int>, log: seq<(string, TrustEvent)>, pid: string, e: TrustEvent)
    requires Scored(trust, log)
    ensures Scored(Put(trust, pid, Adjusted(Lookup(trust, pid, FULL_TRUST), e)), log + [(pid, e)])
  {
    hide Score, Adjusted, EventsOf, Lookup, Put, RawDict.Valid;
    var trust' := Put(trust, pid, Adjusted(Lookup(trust, pid, FULL_TRUST), e));
    forall q ensures Lookup(trust', q, FULL_TRUST) == Score(EventsOf(log + [(pid, e)], q)) {
      assert Lookup(trust, q, FULL_TRUST) == Score(EventsOf(log, q));
      JudgeScoredFor(trust, log, pid, e, q);
    }
  }

  lemma JudgeSound(k: Keys, s: Agent, pid: string, e: TrustEvent)
    requires Sound(k, s)
    ensures Sound(k, Judge(s, pid, e))
  {
    hide Published, Counted, Rising, Scored, Sane;
    JudgeScored(s.trust, s.log.trust, pid, e);
  }

  // ---------------------------------------------------------------- whole operations

  lemma StartSound(k: Keys, cid: string, t0: real)
    ensures Sound(k, Start(k, cid, t0))
  {
    hide Flush;
    var s := Agent(cid, t0, EmptyLedger(), 0, 0, 0, 0, map[], [], [], map[], EmptyDict(), map[],
                   Log([], [], [], [], [], 0, 0));
    FlushSound(k, s, t0, Boot);
  }

  lemma SwitchSound(k: Keys, s: Agent, now: real, dpid: int)
    requires Sound(k, s)
    ensures Sound(k, OnSwitchUp(k, s, now, dpid)) && Sound(k, OnSwitchDown(k, s, now, dpid))
  {
    hide Flush, Published, Counted, Rising, Scored, Sane;
    FlushSound(k, s.(switches := s.switches + 1, macTable := s.macTable[dpid := Row(s.macTable, dpid)]), now,
               SwitchUp(dpid));
    FlushSound(k, s.(switches := if s.switches == 0 then 0 else s.switches - 1), now, SwitchDown(dpid));
  }

  lemma RollingStep(ts: seq<real>, t: real)
    ensures Rates.Rolling(ts + [t]) == Rates.Recent(Rates.Rolling(ts) + [t], t)
  {
    assert (ts + [t])[..|ts|] == ts;
  }

  lemma CountPacketSound(k: Keys, s: Agent, now: real, dpid: int, src: string, port: int)
    requires Sound(k, s)
    ensures Sound(k, CountPacket(s, now, dpid, src, port))
  {
    hide Published, Counted, Rising, Scored, Sane;
    RollingStep(s.log.packets, now);
  }

  lemma FloodCheckSound(k: Keys, s: Agent, now: real)
    requires Sound(k, s)
    ensures Sound(k, FloodCheck(k, s, now))
  {
    hide Raise, Sound;
    RaiseSound(k, s, now, Flood, s.cid, HIGH);
  }

  lemma SaneFeed(d: Ewma.Detector, x: real)
    requires d.mean.Some? ==> d.mean.value >= 0.0
    requires x >= 0.0
    ensures Ewma.Feed(Ewma.DEFAULT, d, x).mean.Some? && Ewma.Feed(Ewma.DEFAULT, d, x).mean.value >= 0.0
    ensures Ewma.Score(Ewma.DEFAULT, d, x) != Ewma.ZeroDivision
  {
    if d.mean.Some? {
      Ewma.DefaultBlend(x, d.mean.value);
    }
  }

  lemma AnomalyCheckSound(k: Keys, s: Agent, now: real)
    requires Sound(k, s)
    ensures Sound(k, AnomalyCheck(k, s, now))
  {
    hide Raise, Published, Counted, Rising, Scored, Ewma.Feed, Ewma.Score;
    if now - s.t0 > ANOMALY_GRACE {
      var d, x := Ewma.Known(s.detectors, PACKET_RATE), |s.packetTimes| as real;
      SaneFeed(d, x);
      var s' := s.(detectors := s.detectors[PACKET_RATE := Ewma.Feed(Ewma.DEFAULT, d, x)]);
      assert Sound(k, s');
      RaiseSound(k, s', now, Flood, s.cid, MEDIUM);
    }
  }

  lemma OnPacketInSound(k: Keys, s: Agent, now: real, dpid: int, src: string, port: int)
    requires Sound(k, s)
    ensures Sound(k, OnPacketIn(k, s, now, dpid, src, port))
  {
    hide Sound, Flush, CountPacket, FloodCheck, AnomalyCheck;
    var s1 := CountPacket(s, now, dpid, src, port);
    CountPacketSound(k, s, now, dpid, src, port);
    FloodCheckSound(k, s1, now);
    AnomalyCheckSound(k, FloodCheck(k, s1, now), now);
    var s2 := AnomalyCheck(k, FloodCheck(k, s1, now), now);
    FlushSound(k, s2, now, PacketCount(s2.packets));
  }

  lemma CountFlowSound(k: Keys, s: Agent, now: real)
    requires Sound(k, s)
    ensures Sound(k, CountFlow(s, now))
  {
    hide Published, Counted, Rising, Scored, Sane;
    RollingStep(s.log.flows, now);
  }

  lemma OnFlowAddSound(k: Keys, s: Agent, now: real, dpid: int, priority: int)
    requires Sound(k, s)
    ensures Sound(k, OnFlowAdd(k, s, now, dpid, priority))
  {
    hide Sound, Flush, Raise, CountFlow;
    var s1 := CountFlow(s, now);
    CountFlowSound(k, s, now);
    RaiseSound(k, s1, now, FlowInject, s.cid, HIGH);
    FlushSound(k, s1, now, FlowAdd(dpid, priority));
    FlushSound(k, Raise(k, s1, now, FlowInject, s.cid, HIGH), now, FlowAdd(dpid, priority));
  }

  lemma ResetSound(k: Keys, s: Agent, now: real)
    requires Sound(k, s)
    ensures Sound(k, ResetAlerts(k, s, now))
  {
    hide Flush, Published, Sane;
    var s' := s.(alerts := 0, trust := Fill(s.trust, FULL_TRUST),
                 log := s.log.(trust := [], resetAlerts := |s.log.alerts|, resetPublished := |s.log.published|));
    assert s.log.alerts[|s.log.alerts|..] == [];
    FlushSound(k, s', now, Recovery);
  }

  lemma VerifyPeerSound(k: Keys, s: Agent, now: real, m: Message)
    requires Sound(k, s)
    ensures Sound(k, VerifyPeer(k, s, now, m))
  {
    hide Raise, Judge, Published, Counted, Rising, Scored, Sane;
    RaiseSound(k, s, now, Replay, m.cid, MEDIUM);
    RaiseSound(k, s, now, Replay, m.cid, HIGH);
    var s1 := s.(lastIdx := s.lastIdx[m.cid := m.idx]);
    assert Sound(k, s1);
    JudgeSound(k, s1, m.cid, BadSignature);
    JudgeSound(k, s1, m.cid, Boost);
    RaiseSound(k, Judge(s1, m.cid, BadSignature), now, SigInvalid, m.cid, HIGH);
  }

  lemma {:induction false} PollPeersSound(k: Keys, s: Agent, now: real, peers: Dict<string>, n: nat)
    requires Sound(k, s) && n <= |peers.order|
    ensures Sound(k, PollPeers(k, s, now, peers, n).agent)
  {
    hide Sound, Raise, Judge;
    if n > 0 {
      var p, pid := PollPeers(k, s, now, peers, n - 1), peers.order[n - 1];
      PollPeersSound(k, s, now, peers, n - 1);
      JudgeSound(k, p.agent, pid, NoResponse);
      JudgeSound(k, p.agent, pid, Boost);
      RaiseSound(k, Judge(p.agent, pid, NoResponse), now, ConsensusFail, pid, MEDIUM);
    }
  }

  lemma {:induction false} ScanTrustSound(k: Keys, p: Poll, now: real, trust: Dict<int>, n: nat)
    requires Sound(k, p.agent) && n <= |trust.order|
    ensures Sound(k, ScanTrust(k, p, now, trust, n).agent)
  {
    hide Sound, Raise;
    if n > 0 {
      ScanTrustSound(k, p, now, trust, n - 1);
      RaiseSound(k, ScanTrust(k, p, now, trust, n - 1).agent, now, HashMismatch, trust.order[n - 1], HIGH);
    }
  }

  lemma ConsensusSound(k: Keys, s: Agent, now: real, peers: Dict<string>)
    requires Sound(k, s)
    ensures Sound(k, Consensus(k, s, now, peers).0)
  {
    hide Sound, Raise, PollPeers, ScanTrust, Accepted;
    var p := PollPeers(k, s, now, peers, |peers.order|);
    PollPeersSound(k, s, now, peers, |peers.order|);
    RaiseSound(k, p.agent, now, HashMismatch, s.cid, HIGH);
    ScanTrustSound(k, p, now, p.agent.trust, |p.agent.trust.order|);
  }

  // ---------------------------------------------------------------- what consensus leaves alone

  /** Nothing about the peers' indices changes and the chain only grows. */
  predicate Grows(s: Agent, s': Agent) {
    s'.cid == s.cid && s.ledger.history <= s'.ledger.history && s'.lastIdx == s.lastIdx
  }

  lemma RaiseGrows(k: Keys, s: Agent, now: real, kind: AlertKind, source: string, severity: Severity)
    ensures Grows(s, Raise(k, s, now, kind, source, severity))
  {
    hide MacCount, Accepted;
  }

  lemma PollPeerGrows(k: Keys, p: Poll, now: real, pid: string, hash: string)
    ensures Grows(p.agent, PollPeer(k, p, now, pid, hash).agent)
  {
    hide Raise;
    RaiseGrows(k, Judge(p.agent, pid, NoResponse), now, ConsensusFail, pid, MEDIUM);
  }

  lemma {:induction false} PollPeersGrows(k: Keys, s: Agent, now: real, peers: Dict<string>, n: nat)
    requires n <= |peers.order|
    ensures Grows(s, PollPeers(k, s, now, peers, n).agent)
  {
    hide PollPeer;
    if n > 0 {
      PollPeersGrows(k, s, now, peers, n - 1);
      PollPeerGrows(k, PollPeers(k, s, now, peers, n - 1), now, peers.order[n - 1], peers.at[peers.order[n - 1]]);
    }
  }

  lemma {:induction false} ScanTrustGrows(k: Keys, p: Poll, now: real, trust: Dict<int>, n: nat)
    requires n <= |trust.order|
    ensures Grows(p.agent, ScanTrust(k, p, now, trust, n).agent)
  {
    hide Raise;
    if n > 0 {
      ScanTrustGrows(k, p, now, trust, n - 1);
      RaiseGrows(k, ScanTrust(k, p, now, trust, n - 1).agent, now, HashMismatch, trust.order[n - 1], HIGH);
    }
  }

  lemma ConsensusGrows(k: Keys, s: Agent, now: real, peers: Dict<string>)
    ensures Grows(s, Consensus(k, s, now, peers).0)
  {
    hide Raise, PollPeers, ScanTrust, Accepted;
    var p := PollPeers(k, s, now, peers, |peers.order|);
    PollPeersGrows(k, s, now, peers, |peers.order|);
    RaiseGrows(k, p.agent, now, HashMismatch, s.cid, HIGH);
    ScanTrustGrows(k, p, now, p.agent.trust, |p.agent.trust.order|);
  }
}
