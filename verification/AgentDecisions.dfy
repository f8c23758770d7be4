/** What the agent's operations decide, in terms of what it has seen and put out. */
module AgentDecisions {
  import opened Prelude
  import opened Links
  import opened Chain
  import opened Trust
  import opened Agent
  import opened AgentLaws
  import Ewma
  import Rates

  // ---------------------------------------------------------------- health

  /** Health is absorbing between resets: once a published record is unhealthy, so are all later
      ones, provided no block has hashed to 64 zeros. */
  lemma UnhealthyStays(k: Keys, s: Agent, i: nat, j: nat)
    requires Sound(k, s) && s.log.resetPublished <= i <= j < |s.log.published|
    requires NeverGenesis(s.ledger.history) && !s.log.published[i].healthy
    ensures !s.log.published[j].healthy
  {
    var h, p := s.ledger.history, s.log.published;
    assert Describes(s.cid, h, p[i], i) && Describes(s.cid, h, p[j], j);
  }

  /** No reset helps after 1000 blocks: every later record is unhealthy. */
  lemma LongChainUnhealthy(k: Keys, s: Agent, i: nat)
    requires Sound(k, s) && 1000 <= i < |s.log.published| && NeverGenesis(s.ledger.history)
    ensures !s.log.published[i].healthy
  {
    assert Describes(s.cid, s.ledger.history, s.log.published[i], i);
  }

  /** `reset_alerts` promises to return the controller to HEALTHY. The record it publishes is
      healthy exactly when the block it adds is among the first 1000, or the last evicted hash
      happens to be GENESIS. */
  lemma ResetRestoresHealthIff(k: Keys, s: Agent, now: real)
    requires Sound(k, s)
    ensures var s' := ResetAlerts(k, s, now);
      && s'.alerts == 0
      && (forall pid :: pid in s.trust.at <==> pid in s'.trust.at)
      && (forall pid :: pid in s'.trust.at ==> s'.trust.at[pid] == 100)
      && |s'.log.published| == s.ledger.height + 1
      && (s'.log.published[s.ledger.height].healthy <==>
            s.ledger.height < 1000 || s.ledger.history[s.ledger.height - 1000].hash == GENESIS)
  {
    hide Counted, Rising, Scored, Sane;
    var s' := ResetAlerts(k, s, now);
    ResetSound(k, s, now);
    var n := s.ledger.height;
    assert Describes(s'.cid, s'.ledger.history, s'.log.published[n], n);
    assert s'.log.published[n].alerts == 0;
    if n >= 1000 {
      assert s'.ledger.history[n - 1000] == s.ledger.history[n - 1000];
    }
  }

  /** The size reported of the MAC table is the sum of the sizes of its rows. */
  lemma MacCountIsSum(t: MacTable, d: int)
    requires d in t
    ensures MacCount(t) == MacCount(t - {d}) + |t[d]|
    ensures MacCount(map[]) == 0
  {
    var rest := t - {d};
    var row := set m | m in t[d] :: (d, m);
    assert (set e, m | e in t && m in t[e] :: (e, m)) == (set e, m | e in rest && m in rest[e] :: (e, m)) + row;
    PairsSize(t[d], d);
  }

  lemma {:induction false} PairsSize(row: map<string, int>, d: int)
    ensures |set m | m in row :: (d, m)| == |row|
    decreases |row|
  {
    if row != map[] {
      var m :| m in row;
      PairsSize(row - {m}, d);
      assert (set x | x in row :: (d, x)) == (set x | x in row - {m} :: (d, x)) + {(d, m)};
      assert |row - {m}| == |row| - 1 by {
        assert (row - {m}).Keys == row.Keys - {m};
      }
    }
  }

  /** Every flush adds a block of the agent's state and reports the agent's counters, the new head
      and its own height, signed; and it reports health exactly when fewer than two alerts count and
      the chain has at most 1000 blocks, or the last evicted hash is GENESIS. */
  lemma FlushReports(k: Keys, s: Agent, now: real, event: Event)
    requires Sound(k, s)
    ensures var s' := Flush(k, s, now, event);
      && |s'.log.published| == |s.log.published| + 1 && s'.ledger.height == |s'.ledger.history|
      && var r := s'.log.published[|s.log.published|];
         && r.switches == s.switches && r.packets == s.packets && r.flows == s.flows && r.alerts == s.alerts
         && r.trust == s.trust && r.ts == now && r.event == event
         && r.hash == s'.ledger.head && r.idx == s.ledger.height && Verifies(r.hash, r.sig, s.cid)
         && (r.healthy <==> s.alerts < 2 && Verifiable(s'.ledger.history, s'.ledger.height))
    ensures var s' := Flush(k, s, now, event);
      && s.ledger.history <= s'.ledger.history && |s'.ledger.history| == |s.ledger.history| + 1
      && var b := s'.ledger.history[|s.ledger.history|];
         && b.ts == b.state.ts == now && b.state.uptime == now - s.t0
         && b.state.event == event && b.state.macs == MacCount(s.macTable)
  {
    hide Counted, Rising, Scored, Sane, MacCount, Accepted;
    FlushSound(k, s, now, event);
    UntamperedAcceptedIff(k, s.cid, Flush(k, s, now, event).ledger);
  }

  // ---------------------------------------------------------------- trust

  /** A peer whose trust is critically low has earned it: since the last reset some stretch of its
      events lost more than 0.70 in net, with at least three penalties in it. */
  lemma LowTrustHasCause(k: Keys, s: Agent, pid: string) returns (i: nat)
    requires Sound(k, s) && pid in s.trust.at && s.trust.at[pid] < 30
    ensures var es := EventsOf(s.log.trust, pid);
      && i <= |es|
      && 30 * Count(es[i..], BadSignature) + 25 * Count(es[i..], NoResponse) - 2 * Count(es[i..], Boost) > 70
      && Count(es[i..], BadSignature) + Count(es[i..], NoResponse) >= 3
  {
    assert Lookup(s.trust, pid, 100) == Score(EventsOf(s.log.trust, pid));
    i := LowScoreHasCause(EventsOf(s.log.trust, pid));
  }

  lemma TrustInRange(k: Keys, s: Agent, pid: string)
    requires Sound(k, s) && pid in s.trust.at
    ensures 0 <= s.trust.at[pid] <= 100
  {
    assert Lookup(s.trust, pid, 100) == Score(EventsOf(s.log.trust, pid));
    ScoreInRange(EventsOf(s.log.trust, pid));
  }

  // ---------------------------------------------------------------- rates

  /** The event `limit` positions before the last one is less than a second older. */
  predicate Burst(times: seq<real>, limit: nat) {
    |times| > limit && times[|times| - 1] - times[|times| - 1 - limit] < 1.0
  }

  lemma RaiseCounts(k: Keys, s: Agent, now: real, kind: AlertKind, source: string, severity: Severity)
    ensures var s' := Raise(k, s, now, kind, source, severity);
      && s'.alerts == s.alerts + (if EffectiveSeverity(s, now, kind, severity) == HIGH && source == s.cid then 1 else 0)
      && s'.cid == s.cid && s'.log.packets == s.log.packets && s'.log.flows == s.log.flows
  {
    hide Accepted, MacCount;
  }

  lemma OnPacketInCounts(k: Keys, s: Agent, now: real, dpid: int, src: string, port: int)
    ensures var s1, s' := CountPacket(s, now, dpid, src, port), OnPacketIn(k, s, now, dpid, src, port);
      && s'.log.packets == s1.log.packets
      && s'.alerts == s1.alerts + if |s1.packetTimes| > 500 then 1 else 0
  {
    hide Raise, CountPacket, MacCount, Accepted, Ewma.Feed, Ewma.Score;
    var s1 := CountPacket(s, now, dpid, src, port);
    RaiseCounts(k, s1, now, Flood, s1.cid, HIGH);
    var s2 := FloodCheck(k, s1, now);
    var d := Ewma.Known(s2.detectors, PACKET_RATE);
    var s3 := s2.(detectors := s2.detectors[PACKET_RATE := Ewma.Feed(Ewma.DEFAULT, d, |s2.packetTimes| as real)]);
    RaiseCounts(k, s3, now, Flood, s2.cid, MEDIUM);
  }

  /** With a clock that never goes back, a packet adds to the alert counter exactly when the packet
      500 positions earlier is less than one second old. The statistical alarm never counts. */
  lemma PacketCountsIffFlood(k: Keys, s: Agent, now: real, dpid: int, src: string, port: int)
    requires Sound(k, s) && Rates.Nondecreasing(s.log.packets + [now])
    ensures var s' := OnPacketIn(k, s, now, dpid, src, port);
      && s'.log.packets == s.log.packets + [now]
      && s'.alerts == s.alerts + if Burst(s'.log.packets, 500) then 1 else 0
  {
    hide OnPacketIn, Published, Counted, Rising, Scored, Sane;
    OnPacketInCounts(k, s, now, dpid, src, port);
    RollingStep(s.log.packets, now);
    Rates.RateExceeds(s.log.packets + [now], 500);
  }

  /** Likewise for flow additions and 50 positions, except during the 90 s of boot grace. */
  lemma FlowCountsIffBurst(k: Keys, s: Agent, now: real, dpid: int, priority: int)
    requires Sound(k, s) && Rates.Nondecreasing(s.log.flows + [now])
    ensures var s' := OnFlowAdd(k, s, now, dpid, priority);
      && s'.log.flows == s.log.flows + [now]
      && s'.alerts == s.alerts + if Burst(s'.log.flows, 50) && now >= s.t0 + 90.0 then 1 else 0
  {
    hide Published, Counted, Rising, Scored, Sane, Accepted, MacCount;
    RollingStep(s.log.flows, now);
    Rates.RateExceeds(s.log.flows + [now], 50);
  }

  /** The packet-rate detector never divides by zero. */
  lemma PacketRateScored(k: Keys, s: Agent, x: real)
    requires Sound(k, s) && x >= 0.0
    ensures Ewma.Score(Ewma.DEFAULT, Ewma.Known(s.detectors, PACKET_RATE), x) != Ewma.ZeroDivision
  {
    SaneFeed(Ewma.Known(s.detectors, PACKET_RATE), x);
  }

  // ---------------------------------------------------------------- gossip

  lemma RaiseEffect(k: Keys, s: Agent, now: real, kind: AlertKind, source: string, severity: Severity)
    ensures var s' := Raise(k, s, now, kind, source, severity);
      && s'.trust == s.trust && s'.lastIdx == s.lastIdx && s'.ledger.height == s.ledger.height + 1
      && s'.log.alerts == s.log.alerts + [Alert(kind, source, EffectiveSeverity(s, now, kind, severity), now, s.cid)]
  {
    hide MacCount, Accepted;
  }

  /** An accepted message (fresh, no regression, properly signed) raises no alert and adds no block.
      It moves the sender's index to the message's and raises its trust by 0.02, up to 1.0. */
  lemma AcceptedMessageEffect(k: Keys, s: Agent, now: real, m: Message)
    requires Accepts(s, now, m)
    ensures var s' := VerifyPeer(k, s, now, m);
      && s'.cid == s.cid && s'.log.alerts == s.log.alerts && s'.ledger == s.ledger
      && s'.lastIdx == s.lastIdx[m.cid := m.idx]
      && s'.trust.at == s.trust.at[m.cid := Min(100, Lookup(s.trust, m.cid, 100) + 2)]
  {
    hide Raise;
  }

  /** Any other message raises exactly one alert, about its sender, and adds exactly one block. A
      stale or regressing one changes neither index nor trust; one with a bad signature moves the
      index and costs 0.30 trust, down to 0. */
  lemma RejectedMessageEffect(k: Keys, s: Agent, now: real, m: Message)
    requires !Accepts(s, now, m)
    ensures var s' := VerifyPeer(k, s, now, m);
      var outdated := now - m.ts > 60.0 || m.idx < LastIdx(s, m.cid);
      && |s'.log.alerts| == |s.log.alerts| + 1 && s'.ledger.height == s.ledger.height + 1
      && s'.log.alerts[|s.log.alerts|].source == m.cid
      && s'.log.alerts[|s.log.alerts|].kind == (if outdated then Replay else SigInvalid)
      && s'.log.alerts[|s.log.alerts|].severity
         == (if now - m.ts > 60.0 || now < s.t0 + 90.0 then MEDIUM else HIGH)
      && s'.lastIdx == (if outdated then s.lastIdx else s.lastIdx[m.cid := m.idx])
      && s'.trust.at == (if outdated then s.trust.at
                         else s.trust.at[m.cid := Max(0, Lookup(s.trust, m.cid, 100) - 30)])
  {
    hide Raise;
    if now - m.ts > 60.0 {
      RaiseEffect(k, s, now, Replay, m.cid, MEDIUM);
    } else if m.idx < LastIdx(s, m.cid) {
      RaiseEffect(k, s, now, Replay, m.cid, HIGH);
    } else {
      RaiseEffect(k, Judge(s.(lastIdx := s.lastIdx[m.cid := m.idx]), m.cid, BadSignature), now, SigInvalid,
                  m.cid, HIGH);
    }
  }

  // ---------------------------------------------------------------- consensus

  /** The peers among the first n that have, or have not, an empty hash. */
  function Having(peers: Dict<string>, n: nat, empty: bool): seq<string>
    requires n <= |peers.order|
  {
    if n == 0 then []
    else
      var pid := peers.order[n - 1];
      Having(peers, n - 1, empty) + if (peers.at[pid] == "") == empty then [pid] else []
  }

  lemma {:induction false} HavingSplits(peers: Dict<string>, n: nat)
    requires n <= |peers.order|
    ensures |Having(peers, n, true)| + |Having(peers, n, false)| == n
  {
    if n > 0 {
      HavingSplits(peers, n - 1);
    }
  }

  lemma RaiseAddsBlock(k: Keys, s: Agent, now: real, kind: AlertKind, source: string, severity: Severity)
    ensures var s' := Raise(k, s, now, kind, source, severity);
      s'.ledger.height == s.ledger.height + 1 && s'.cid == s.cid
  {
    hide Accepted, MacCount;
  }

  lemma PollPeerSplits(k: Keys, p: Poll, now: real, pid: string, hash: string)
    ensures var q := PollPeer(k, p, now, pid, hash);
      && q.healthy == p.healthy + (if hash == "" then [] else [pid])
      && q.suspicious == p.suspicious + (if hash == "" then [pid] else [])
      && q.agent.cid == p.agent.cid
      && q.agent.ledger.height == p.agent.ledger.height + (if hash == "" then 1 else 0)
      && (hash != "" ==> q.agent.ledger == p.agent.ledger && q.agent.log.alerts == p.agent.log.alerts)
  {
    hide Raise;
    RaiseAddsBlock(k, Judge(p.agent, pid, NoResponse), now, ConsensusFail, pid, MEDIUM);
  }

  lemma {:induction false} PollPeersSplits(k: Keys, s: Agent, now: real, peers: Dict<string>, n: nat)
    requires n <= |peers.order|
    ensures var p := PollPeers(k, s, now, peers, n);
      && p.healthy == Having(peers, n, false)
      && p.suspicious == Having(peers, n, true)
      && p.agent.ledger.height == s.ledger.height + |p.suspicious|
      && p.agent.cid == s.cid
      && (p.suspicious == [] ==> p.agent.ledger == s.ledger && p.agent.log.alerts == s.log.alerts)
  {
    hide PollPeer;
    if n > 0 {
      PollPeersSplits(k, s, now, peers, n - 1);
      var pid := peers.order[n - 1];
      PollPeerSplits(k, PollPeers(k, s, now, peers, n - 1), now, pid, peers.at[pid]);
    }
  }

  /** The peers among the first n of the table with critically low trust. */
  function LowTrust(trust: Dict<int>, n: nat): set<string>
    requires n <= |trust.order|
  {
    set pid | pid in trust.order[..n] && pid in trust.at && trust.at[pid] < 30
  }

  lemma LowTrustExtends(trust: Dict<int>, n: nat)
    requires 0 < n <= |trust.order|
    ensures var pid := trust.order[n - 1];
      && pid in trust.at
      && LowTrust(trust, n) == LowTrust(trust, n - 1) + if trust.at[pid] < 30 then {pid} else {}
  {
    assert trust.order[n - 1] in trust.order;
    assert trust.order[..n] == trust.order[..n - 1] + [trust.order[n - 1]];
  }

  lemma ScanPeerFinds(k: Keys, p: Poll, now: real, pid: string, score: int)
    ensures var q := ScanPeer(k, p, now, pid, score);
      && q.healthy == p.healthy
      && Elements(q.suspicious) == Elements(p.suspicious) + if score < 30 then {pid} else {}
  {
    hide Raise;
    assert Elements(p.suspicious + [pid]) == Elements(p.suspicious) + {pid};
  }

  lemma {:induction false} ScanTrustFinds(k: Keys, p: Poll, now: real, trust: Dict<int>, n: nat)
    requires n <= |trust.order|
    ensures var q := ScanTrust(k, p, now, trust, n);
      q.healthy == p.healthy && Elements(q.suspicious) == Elements(p.suspicious) + LowTrust(trust, n)
  {
    hide ScanPeer, Elements, RawDict.Valid;
    if n > 0 {
      var pid := trust.order[n - 1];
      ScanTrustFinds(k, p, now, trust, n - 1);
      LowTrustExtends(trust, n);
      ScanPeerFinds(k, ScanTrust(k, p, now, trust, n - 1), now, pid, trust.at[pid]);
    }
  }

  /** When does a consensus run say ok? Exactly when the chain, after the one block added for each
      silent peer, still verifies, and at most 33% of the nodes are silent. The chain verifies while
      it has at most 1000 blocks, or when its last evicted hash is GENESIS. The run then reports the
      responsive peers in order, and as suspicious the silent peers and everyone whose trust is
      critically low. */
  lemma ConsensusVerdict(k: Keys, s: Agent, now: real, peers: Dict<string>)
    requires Sound(k, s)
    ensures var (s', v) := Consensus(k, s, now, peers);
      var n := |peers.order|;
      var silent := Having(peers, n, true);
      var height := s.ledger.height + |silent|;
      && s.ledger.history <= s'.ledger.history && height <= |s'.ledger.history|
      && (v.Verdict? <==> Verifiable(s'.ledger.history, height))
      && (v.Verdict? ==>
            && (v.ok <==> 100 * |silent| <= 33 * (n + 1))
            && v.healthy == Having(peers, n, false)
            && v.suspicious == Elements(silent) + LowTrust(v.trust, |v.trust.order|)
            && v.trust == s'.trust && v.total == n + 1 && v.active == n + 1 - |silent|)
  {
    hide Sound, Raise, PollPeers, ScanTrust, Accepted, Having, Elements, LowTrust, Verifiable, RawDict.Valid;
    var n := |peers.order|;
    var p := PollPeers(k, s, now, peers, n);
    var trust := p.agent.trust;
    PollPeersSplits(k, s, now, peers, n);
    HavingSplits(peers, n);
    ConsensusGrows(k, s, now, peers);
    ChainVerdict(k, s, now, peers);
    ScanTrustFinds(k, p, now, trust, |trust.order|);
    ScanKeepsTrust(k, p, now, trust, |trust.order|);
  }

  /** The local check looks at the chain as the polling of the peers has left it. */
  lemma ChainVerdict(k: Keys, s: Agent, now: real, peers: Dict<string>)
    requires Sound(k, s)
    ensures var p := PollPeers(k, s, now, peers, |peers.order|);
      var history := Consensus(k, s, now, peers).0.ledger.history;
      && p.agent.ledger.height <= |history|
      && (Accepted(k, p.agent.ledger.blocks) <==> Verifiable(history, p.agent.ledger.height))
  {
    hide Counted, Rising, Scored, Sane, Raise, PollPeers, ScanTrust, Accepted;
    var p := PollPeers(k, s, now, peers, |peers.order|);
    PollPeersSound(k, s, now, peers, |peers.order|);
    UntamperedAcceptedIff(k, p.agent.cid, p.agent.ledger);
    RaiseGrows(k, p.agent, now, HashMismatch, s.cid, HIGH);
    ScanTrustGrows(k, p, now, p.agent.trust, |p.agent.trust.order|);
  }

  lemma {:induction false} ScanKeepsTrust(k: Keys, p: Poll, now: real, trust: Dict<int>, n: nat)
    requires n <= |trust.order|
    ensures ScanTrust(k, p, now, trust, n).agent.trust == p.agent.trust
  {
    hide MacCount, Accepted;
    if n > 0 {
      ScanKeepsTrust(k, p, now, trust, n - 1);
    }
  }
}
