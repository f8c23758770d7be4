/** All that each operation of the agent puts out: alerts, records and trust events, in order, and
    what it leaves alone. */
module AgentEffects {
  import opened Prelude
  import opened Chain
  import opened Trust
  import opened Agent
  import opened AgentLaws
  import opened AgentDecisions
  import Ewma
  import Rates

  // ---------------------------------------------------------------- what is put out

  function Titles(records: seq<Record>): (ts: seq<Event>)
    ensures |ts| == |records|
    ensures forall i :: 0 <= i < |records| ==> ts[i] == records[i].event
  {
    seq(|records|, i requires 0 <= i < |records| => records[i].event)
  }

  function AlertTitles(alerts: seq<Alert>): (ts: seq<Event>)
    ensures |ts| == |alerts|
    ensures forall i :: 0 <= i < |alerts| ==> ts[i] == Alerted(alerts[i].kind)
  {
    seq(|alerts|, i requires 0 <= i < |alerts| => Alerted(alerts[i].kind))
  }

  /** From s to s' the agent raised exactly these alerts, published one record for each of them and
      then one for each of the other events, with one block per record, and judged peers so. */
  predicate Gains(s: Agent, s': Agent, alerts: seq<Alert>, events: seq<Event>, judged: seq<(string, TrustEvent)>) {
    && s'.log.alerts == s.log.alerts + alerts
    && s.log.published <= s'.log.published
    && Titles(s'.log.published) == Titles(s.log.published) + AlertTitles(alerts) + events
    && s.ledger.history <= s'.ledger.history
    && s'.ledger.height == s.ledger.height + |alerts| + |events|
    && s'.log.trust == s.log.trust + judged
    && s'.log.resetAlerts == s.log.resetAlerts && s'.log.resetPublished == s.log.resetPublished
  }

  /** Only the chain, alerts and trust, and the indices of peers, may differ. */
  predicate SameTraffic(s: Agent, s': Agent) {
    && s'.cid == s.cid && s'.t0 == s.t0 && s'.switches == s.switches
    && s'.packets == s.packets && s'.flows == s.flows && s'.macTable == s.macTable
    && s'.packetTimes == s.packetTimes && s'.flowTimes == s.flowTimes && s'.detectors == s.detectors
    && s'.log.packets == s.log.packets && s'.log.flows == s.log.flows
  }

  /** The newest record shows the agent's present counter and trust table. */
  predicate ShownLast(s: Agent) {
    && s.log.published != []
    && var r := s.log.published[|s.log.published| - 1];
       r.alerts == s.alerts && r.trust == s.trust
  }

  /** Severity of a HIGH alert that is not about a flood: downgraded in the first 90 s. */
  function Graded(t0: real, now: real): Severity {
    if now < t0 + 90.0 then MEDIUM else HIGH
  }

  /** One alert about each of the peers, in order. */
  function About(pids: seq<string>, kind: AlertKind, severity: Severity, now: real, cid: string): (r: seq<Alert>)
    ensures |r| == |pids|
    ensures forall i :: 0 <= i < |pids| ==> r[i] == Alert(kind, pids[i], severity, now, cid)
  {
    seq(|pids|, i requires 0 <= i < |pids| => Alert(kind, pids[i], severity, now, cid))
  }

  lemma GainsThen(s: Agent, t: Agent, u: Agent, a: seq<Alert>, b: seq<Alert>, events: seq<Event>,
                  j: seq<(string, TrustEvent)>, l: seq<(string, TrustEvent)>)
    requires Gains(s, t, a, [], j) && Gains(t, u, b, events, l)
    ensures Gains(s, u, a + b, events, j + l)
  {
    assert AlertTitles(a + b) == AlertTitles(a) + AlertTitles(b);
  }

  lemma JudgedThenRaised(s: Agent, t: Agent, u: Agent, a: Alert, j: (string, TrustEvent))
    requires Gains(s, t, [], [], [j]) && Gains(t, u, [a], [], [])
    ensures Gains(s, u, [a], [], [j])
  {
    GainsThen(s, t, u, [], [a], [], [j], []);
    assert [] + [a] == [a] && [j] + [] == [j];
  }

  lemma NoGains(s: Agent, s': Agent)
    requires s'.ledger == s.ledger && s'.log.alerts == s.log.alerts && s'.log.published == s.log.published
    requires s'.log.trust == s.log.trust
    requires s'.log.resetAlerts == s.log.resetAlerts && s'.log.resetPublished == s.log.resetPublished
    ensures Gains(s, s', [], [], [])
  {
  }

  lemma FlushGains(k: Keys, s: Agent, now: real, event: Event)
    ensures var s' := Flush(k, s, now, event);
      && Gains(s, s', [], [event], []) && SameTraffic(s, s') && ShownLast(s')
      && s'.lastIdx == s.lastIdx && s'.trust == s.trust && s'.alerts == s.alerts
  {
    hide MacCount, Accepted;
  }

  lemma RaiseGains(k: Keys, s: Agent, now: real, kind: AlertKind, source: string, severity: Severity)
    ensures var s' := Raise(k, s, now, kind, source, severity);
      var graded := if kind == Flood || kind == UnauthSwitch || severity == MEDIUM then severity else Graded(s.t0, now);
      && Gains(s, s', [Alert(kind, source, graded, now, s.cid)], [], []) && SameTraffic(s, s') && ShownLast(s')
      && s'.lastIdx == s.lastIdx && s'.trust == s.trust
  {
    hide Flush;
    var graded := EffectiveSeverity(s, now, kind, severity);
    var alert := Alert(kind, source, graded, now, s.cid);
    var counted := s.(alerts := if graded == HIGH && source == s.cid then s.alerts + 1 else s.alerts,
                      log := s.log.(alerts := s.log.alerts + [alert]));
    FlushGains(k, counted, now, Alerted(kind));
    assert AlertTitles([alert]) == [Alerted(kind)];
  }

  lemma JudgeGains(s: Agent, pid: string, e: TrustEvent)
    ensures Gains(s, Judge(s, pid, e), [], [], [(pid, e)]) && SameTraffic(s, Judge(s, pid, e))
  {
  }

  // ---------------------------------------------------------------- peer messages

  /** A message that is refused raises exactly one alert, about its sender: MEDIUM if it is stale,
      otherwise HIGH (after boot grace) if it regresses or its signature is bad. Only the bad
      signature costs trust, and the record of the alert already shows that. */
  lemma RefusedGains(k: Keys, s: Agent, now: real, m: Message)
    requires !Accepts(s, now, m)
    ensures var s' := VerifyPeer(k, s, now, m);
      var stale, back := now - m.ts > 60.0, m.idx < LastIdx(s, m.cid);
      && Gains(s, s',
               [Alert(if stale || back then Replay else SigInvalid, m.cid,
                      if stale then MEDIUM else Graded(s.t0, now), now, s.cid)],
               [],
               if stale || back then [] else [(m.cid, BadSignature)])
      && SameTraffic(s, s') && ShownLast(s')
  {
    hide Raise, Judge, SameTraffic, ShownLast, Gains;
    if now - m.ts > 60.0 {
      RaiseGains(k, s, now, Replay, m.cid, MEDIUM);
    } else if m.idx < LastIdx(s, m.cid) {
      RaiseGains(k, s, now, Replay, m.cid, HIGH);
    } else {
      BadSignatureGains(k, s, now, m);
    }
  }

  lemma BadSignatureGains(k: Keys, s: Agent, now: real, m: Message)
    ensures var s1 := s.(lastIdx := s.lastIdx[m.cid := m.idx]);
      var s' := Raise(k, Judge(s1, m.cid, BadSignature), now, SigInvalid, m.cid, HIGH);
      && Gains(s, s', [Alert(SigInvalid, m.cid, Graded(s.t0, now), now, s.cid)], [], [(m.cid, BadSignature)])
      && SameTraffic(s, s') && ShownLast(s')
  {
    hide Raise, Judge, ShownLast, Gains;
    var s1 := s.(lastIdx := s.lastIdx[m.cid := m.idx]);
    var s2 := Judge(s1, m.cid, BadSignature);
    JudgeGains(s1, m.cid, BadSignature);
    RaiseGains(k, s2, now, SigInvalid, m.cid, HIGH);
    var alert := Alert(SigInvalid, m.cid, Graded(s.t0, now), now, s.cid);
    JudgedThenRaised(s1, s2, Raise(k, s2, now, SigInvalid, m.cid, HIGH), alert, (m.cid, BadSignature));
    SameLogGains(s, s1, Raise(k, s2, now, SigInvalid, m.cid, HIGH), [alert], [], [(m.cid, BadSignature)]);
  }

  lemma AcceptedGains(k: Keys, s: Agent, now: real, m: Message)
    requires Accepts(s, now, m)
    ensures var s' := VerifyPeer(k, s, now, m);
      Gains(s, s', [], [], [(m.cid, Boost)]) && SameTraffic(s, s')
  {
    hide Raise;
  }

  // ---------------------------------------------------------------- consensus

  /** Silent peers are penalised, the others boosted. */
  function Judgements(peers: Dict<string>, n: nat): (r: seq<(string, TrustEvent)>)
    requires n <= |peers.order|
    ensures |r| == n
    ensures forall i :: 0 <= i < n ==>
              r[i] == (peers.order[i], if peers.at[peers.order[i]] == "" then NoResponse else Boost)
  {
    if n == 0 then []
    else
      Judgements(peers, n - 1)
      + [(peers.order[n - 1], if peers.at[peers.order[n - 1]] == "" then NoResponse else Boost)]
  }

  /** Those among the first n of the table whose trust is below 0.30 and who are not excepted. */
  function Critical(trust: Dict<int>, n: nat, except: seq<string>): seq<string>
    requires n <= |trust.order|
  {
    if n == 0 then []
    else
      var pid := trust.order[n - 1];
      Critical(trust, n - 1, except) + if trust.at[pid] < 30 && pid !in except then [pid] else []
  }

  lemma AboutNobody(kind: AlertKind, severity: Severity, now: real, cid: string)
    ensures About([], kind, severity, now, cid) == []
  {
  }

  lemma AboutMore(pids: seq<string>, pid: string, kind: AlertKind, severity: Severity, now: real, cid: string)
    ensures About(pids + [pid], kind, severity, now, cid)
            == About(pids, kind, severity, now, cid) + [Alert(kind, pid, severity, now, cid)]
  {
  }

  lemma PollPeerGains(k: Keys, p: Poll, now: real, pid: string, hash: string)
    ensures var q := PollPeer(k, p, now, pid, hash).agent;
      && Gains(p.agent, q, if hash == "" then [Alert(ConsensusFail, pid, MEDIUM, now, p.agent.cid)] else [], [],
               [(pid, if hash == "" then NoResponse else Boost)])
      && SameTraffic(p.agent, q)
      && (hash == "" ==> ShownLast(q))
  {
    hide Raise, Judge, ShownLast, Gains;
    if hash == "" {
      var judged := Judge(p.agent, pid, NoResponse);
      JudgeGains(p.agent, pid, NoResponse);
      RaiseGains(k, judged, now, ConsensusFail, pid, MEDIUM);
      JudgedThenRaised(p.agent, judged, PollPeer(k, p, now, pid, hash).agent,
                       Alert(ConsensusFail, pid, MEDIUM, now, p.agent.cid), (pid, NoResponse));
    } else {
      JudgeGains(p.agent, pid, Boost);
    }
  }

  lemma HavingNone(peers: Dict<string>)
    ensures Having(peers, 0, true) == [] && Having(peers, 0, false) == []
  {
  }

  lemma HavingMore(peers: Dict<string>, n: nat, empty: bool)
    requires 0 < n <= |peers.order|
    ensures peers.order[n - 1] in peers.at
    ensures var pid := peers.order[n - 1];
      Having(peers, n, empty) == Having(peers, n - 1, empty) + if (peers.at[pid] == "") == empty then [pid] else []
  {
    assert peers.order[n - 1] in peers.order;
  }

  lemma {:induction false} PollPeersGain(k: Keys, s: Agent, now: real, peers: Dict<string>, n: nat)
    requires n <= |peers.order|
    ensures var p := PollPeers(k, s, now, peers, n);
      && Gains(s, p.agent, About(Having(peers, n, true), ConsensusFail, MEDIUM, now, s.cid), [],
               Judgements(peers, n))
      && SameTraffic(s, p.agent)
  {
    hide PollPeer, Gains, Having, About;
    if n == 0 {
      HavingNone(peers);
      AboutNobody(ConsensusFail, MEDIUM, now, s.cid);
      NoGains(s, s);
    } else {
      var p, pid := PollPeers(k, s, now, peers, n - 1), peers.order[n - 1];
      var silent := Having(peers, n - 1, true);
      PollPeersGain(k, s, now, peers, n - 1);
      HavingMore(peers, n, true);
      PollPeerGains(k, p, now, pid, peers.at[pid]);
      var alerts := if peers.at[pid] == "" then [Alert(ConsensusFail, pid, MEDIUM, now, s.cid)] else [];
      var judged := [(pid, if peers.at[pid] == "" then NoResponse else Boost)];
      GainsThen(s, p.agent, PollPeer(k, p, now, pid, peers.at[pid]).agent,
                About(silent, ConsensusFail, MEDIUM, now, s.cid), alerts, [], Judgements(peers, n - 1), judged);
      AboutMore(silent, pid, ConsensusFail, MEDIUM, now, s.cid);
      assert silent + [] == silent;
      assert About(silent, ConsensusFail, MEDIUM, now, s.cid) + alerts
             == About(Having(peers, n, true), ConsensusFail, MEDIUM, now, s.cid);
      assert Judgements(peers, n - 1) + judged == Judgements(peers, n);
    }
  }

  lemma PollPeerTrust(k: Keys, p: Poll, now: real, pid: string, hash: string, q: string)
    ensures var trust := PollPeer(k, p, now, pid, hash).agent.trust;
      && (q != pid ==> Lookup(trust, q, 100) == Lookup(p.agent.trust, q, 100))
      && (q == pid && hash == "" ==> Lookup(trust, q, 100) == Max(0, Lookup(p.agent.trust, q, 100) - 25))
  {
    hide Raise;
    RaiseGains(k, Judge(p.agent, pid, NoResponse), now, ConsensusFail, pid, MEDIUM);
  }

  lemma {:induction false} PollPeersTrust(k: Keys, s: Agent, now: real, peers: Dict<string>, n: nat, q: string)
    requires n <= |peers.order| && q !in peers.order[..n]
    ensures Lookup(PollPeers(k, s, now, peers, n).agent.trust, q, 100) == Lookup(s.trust, q, 100)
  {
    hide PollPeer, Lookup;
    if n > 0 {
      assert peers.order[..n] == peers.order[..n - 1] + [peers.order[n - 1]];
      PollPeersTrust(k, s, now, peers, n - 1, q);
      PollPeerTrust(k, PollPeers(k, s, now, peers, n - 1), now, peers.order[n - 1], peers.at[peers.order[n - 1]], q);
    }
  }

  /** The record shows a trust of this peer that is 0.25 below the one given, or 0. */
  predicate ShowsPenalty(r: Record, trust: Dict<int>, pid: string) {
    Lookup(r.trust, pid, 100) == Max(0, Lookup(trust, pid, 100) - 25)
  }

  /** The record published for a silent peer already shows its penalty. */
  lemma {:induction false} PenaltyShown(k: Keys, s: Agent, now: real, peers: Dict<string>, n: nat, i: nat)
    requires n <= |peers.order| && i < |Having(peers, n, true)|
    ensures var published := PollPeers(k, s, now, peers, n).agent.log.published;
      && |s.log.published| + i < |published|
      && ShowsPenalty(published[|s.log.published| + i], s.trust, Having(peers, n, true)[i])
  {
    hide PollPeer, Lookup, Having, Gains, About, ShowsPenalty, RawDict.Valid;
    HavingNone(peers);
    if n > 0 {
      var p, pid := PollPeers(k, s, now, peers, n - 1), peers.order[n - 1];
      HavingMore(peers, n, true);
      PollPeersLength(k, s, now, peers, n - 1);
      if i < |Having(peers, n - 1, true)| {
        PollPeersLength(k, s, now, peers, n);
        PollPeerLength(k, p, now, pid, peers.at[pid]);
        PenaltyShown(k, s, now, peers, n - 1, i);
      } else {
        OrderDistinct(peers, n);
        PollPeersTrust(k, s, now, peers, n - 1, pid);
        NewPenaltyShown(k, s, p, now, pid);
      }
    }
  }

  lemma OrderDistinct(peers: Dict<string>, n: nat)
    requires 0 < n <= |peers.order|
    ensures peers.order[n - 1] !in peers.order[..n - 1]
  {
  }

  lemma PollPeersLength(k: Keys, s: Agent, now: real, peers: Dict<string>, n: nat)
    requires n <= |peers.order|
    ensures |PollPeers(k, s, now, peers, n).agent.log.published| == |s.log.published| + |Having(peers, n, true)|
  {
    hide PollPeers, Having, Gains, RawDict.Valid;
    PollPeersGain(k, s, now, peers, n);
    GainsLength(s, PollPeers(k, s, now, peers, n).agent,
                About(Having(peers, n, true), ConsensusFail, MEDIUM, now, s.cid), [], Judgements(peers, n));
  }

  lemma PollPeerLength(k: Keys, p: Poll, now: real, pid: string, hash: string)
    ensures var q := PollPeer(k, p, now, pid, hash).agent;
      && p.agent.log.published <= q.log.published
      && |q.log.published| == |p.agent.log.published| + if hash == "" then 1 else 0
  {
    hide PollPeer, Gains, SameTraffic, ShownLast;
    PollPeerGains(k, p, now, pid, hash);
    GainsLength(p.agent, PollPeer(k, p, now, pid, hash).agent,
                if hash == "" then [Alert(ConsensusFail, pid, MEDIUM, now, p.agent.cid)] else [], [],
                [(pid, if hash == "" then NoResponse else Boost)]);
  }

  /** A peer not polled before is found silent. */
  lemma NewPenaltyShown(k: Keys, s: Agent, p: Poll, now: real, pid: string)
    requires Lookup(p.agent.trust, pid, 100) == Lookup(s.trust, pid, 100)
    ensures var published := PollPeer(k, p, now, pid, "").agent.log.published;
      && |published| == |p.agent.log.published| + 1
      && ShowsPenalty(published[|p.agent.log.published|], s.trust, pid)
  {
    hide PollPeer, Gains, SameTraffic, Lookup;
    PollPeerGains(k, p, now, pid, "");
    PollPeerLength(k, p, now, pid, "");
    PollPeerTrust(k, p, now, pid, "", pid);
  }

  /** The first records after those of s show the penalties of these peers. */
  predicate PenaltiesShown(s: Agent, published: seq<Record>, pids: seq<string>) {
    && |s.log.published| + |pids| <= |published|
    && forall i :: 0 <= i < |pids| ==> ShowsPenalty(published[|s.log.published| + i], s.trust, pids[i])
  }

  lemma PenaltiesAreShown(k: Keys, s: Agent, now: real, peers: Dict<string>, published: seq<Record>)
    requires PollPeers(k, s, now, peers, |peers.order|).agent.log.published <= published
    ensures PenaltiesShown(s, published, Having(peers, |peers.order|, true))
  {
    hide PollPeers, ShowsPenalty, Having, Gains;
    var n := |peers.order|;
    var silent := Having(peers, n, true);
    PollPeersGain(k, s, now, peers, n);
    GainsLength(s, PollPeers(k, s, now, peers, n).agent, About(silent, ConsensusFail, MEDIUM, now, s.cid), [],
                Judgements(peers, n));
    forall i | 0 <= i < |silent| ensures ShowsPenalty(published[|s.log.published| + i], s.trust, silent[i]) {
      PenaltyShown(k, s, now, peers, n, i);
    }
  }

  lemma GainsLength(s: Agent, s': Agent, alerts: seq<Alert>, events: seq<Event>, judged: seq<(string, TrustEvent)>)
    requires Gains(s, s', alerts, events, judged)
    ensures s.log.published <= s'.log.published
    ensures |s'.log.published| == |s.log.published| + |alerts| + |events|
  {
    assert |Titles(s'.log.published)| == |Titles(s.log.published) + AlertTitles(alerts) + events|;
  }

  lemma CriticalNone(trust: Dict<int>, except: seq<string>)
    ensures Critical(trust, 0, except) == []
  {
  }

  lemma CriticalMore(trust: Dict<int>, n: nat, except: seq<string>)
    requires 0 < n <= |trust.order|
    ensures var pid := trust.order[n - 1];
      && pid in trust.at && pid !in Critical(trust, n - 1, except)
      && Critical(trust, n, except)
         == Critical(trust, n - 1, except) + if trust.at[pid] < 30 && pid !in except then [pid] else []
  {
    var pid := trust.order[n - 1];
    assert pid in trust.order;
    if pid in Critical(trust, n - 1, except) {
      CriticalInTable(trust, n - 1, except, pid);
    }
  }

  lemma {:induction false} CriticalInTable(trust: Dict<int>, n: nat, except: seq<string>, pid: string)
    requires n <= |trust.order| && pid in Critical(trust, n, except)
    ensures pid in trust.order[..n]
  {
    assert trust.order[..n] == trust.order[..n - 1] + [trust.order[n - 1]];
    if pid in Critical(trust, n - 1, except) {
      CriticalInTable(trust, n - 1, except, pid);
    }
  }

  lemma ScanPeerGains(k: Keys, p: Poll, now: real, pid: string, score: int)
    ensures var q := ScanPeer(k, p, now, pid, score);
      var low := score < 30 && pid !in p.suspicious;
      && q.suspicious == p.suspicious + (if low then [pid] else [])
      && Gains(p.agent, q.agent,
               if low then [Alert(HashMismatch, pid, Graded(p.agent.t0, now), now, p.agent.cid)] else [], [], [])
      && SameTraffic(p.agent, q.agent) && q.agent.trust == p.agent.trust
  {
    hide Raise, ShownLast, Gains;
    RaiseGains(k, p.agent, now, HashMismatch, pid, HIGH);
    NoGains(p.agent, p.agent);
  }

  lemma {:induction false} ScanTrustGains(k: Keys, p: Poll, now: real, trust: Dict<int>, n: nat)
    requires n <= |trust.order|
    ensures var q := ScanTrust(k, p, now, trust, n);
      var low := Critical(trust, n, p.suspicious);
      && q.suspicious == p.suspicious + low
      && Gains(p.agent, q.agent, About(low, HashMismatch, Graded(p.agent.t0, now), now, p.agent.cid), [], [])
      && SameTraffic(p.agent, q.agent) && q.agent.trust == p.agent.trust
  {
    hide ScanPeer, Gains, Critical, About;
    if n == 0 {
      CriticalNone(trust, p.suspicious);
      AboutNobody(HashMismatch, Graded(p.agent.t0, now), now, p.agent.cid);
      NoGains(p.agent, p.agent);
    } else {
      var q, pid := ScanTrust(k, p, now, trust, n - 1), trust.order[n - 1];
      var low, sev, cid := Critical(trust, n - 1, p.suspicious), Graded(p.agent.t0, now), p.agent.cid;
      ScanTrustGains(k, p, now, trust, n - 1);
      CriticalMore(trust, n, p.suspicious);
      ScanPeerGains(k, q, now, pid, trust.at[pid]);
      var also := trust.at[pid] < 30 && pid !in p.suspicious;
      var alerts := if also then [Alert(HashMismatch, pid, sev, now, cid)] else [];
      GainsThen(p.agent, q.agent, ScanPeer(k, q, now, pid, trust.at[pid]).agent,
                About(low, HashMismatch, sev, now, cid), alerts, [], [], []);
      AboutMore(low, pid, HashMismatch, sev, now, cid);
      assert low + [] == low;
      assert About(low, HashMismatch, sev, now, cid) + alerts
             == About(Critical(trust, n, p.suspicious), HashMismatch, sev, now, cid);
    }
  }

  /** Everything a consensus run puts out: one MEDIUM alert for each silent peer, in order, with its
      penalty already in the record; then, if the polled chain does not verify, one alert about the
      controller itself and nothing more; otherwise one for every other peer whose trust is below
      0.30, in table order. Every silent peer is penalised once and every other one boosted once. */
  lemma ConsensusGains(k: Keys, s: Agent, now: real, peers: Dict<string>)
    requires Sound(k, s)
    ensures var (s', v) := Consensus(k, s, now, peers);
      var silent := Having(peers, |peers.order|, true);
      var height := s.ledger.height + |silent|;
      var offline := About(silent, ConsensusFail, MEDIUM, now, s.cid);
      && height <= |s'.ledger.history|
      && (Verifiable(s'.ledger.history, height) ==>
            Gains(s, s',
                  offline + About(Critical(s'.trust, |s'.trust.order|, silent), HashMismatch, Graded(s.t0, now), now,
                                  s.cid),
                  [], Judgements(peers, |peers.order|)))
      && (!Verifiable(s'.ledger.history, height) ==>
            && Gains(s, s', offline + [Alert(HashMismatch, s.cid, Graded(s.t0, now), now, s.cid)], [],
                     Judgements(peers, |peers.order|))
            && ShownLast(s'))
      && SameTraffic(s, s')
      && PenaltiesShown(s, s'.log.published, silent)
  {
    hide Sound, Raise, PollPeers, ScanTrust, Accepted, Having, Verifiable, RawDict.Valid, Gains, About, Critical;
    hide ShownLast, PenaltiesShown, Graded, Judgements;
    var n := |peers.order|;
    var s' := Consensus(k, s, now, peers).0;
    var p := PollPeers(k, s, now, peers, n);
    var silent := Having(peers, n, true);
    var offline := About(silent, ConsensusFail, MEDIUM, now, s.cid);
    PollPeersSplits(k, s, now, peers, n);
    PollPeersGain(k, s, now, peers, n);
    ChainVerdict(k, s, now, peers);
    RaiseGains(k, p.agent, now, HashMismatch, s.cid, HIGH);
    ScanTrustGains(k, p, now, p.agent.trust, |p.agent.trust.order|);
    var own := [Alert(HashMismatch, s.cid, Graded(s.t0, now), now, s.cid)];
    var low := About(Critical(p.agent.trust, |p.agent.trust.order|, silent), HashMismatch, Graded(s.t0, now), now,
                     s.cid);
    var more := if Accepted(k, p.agent.ledger.blocks) then low else own;
    GainsThen(s, p.agent, s', offline, more, [], Judgements(peers, n), []);
    assert Judgements(peers, n) + [] == Judgements(peers, n);
    GainsLength(p.agent, s', more, [], []);
    PenaltiesAreShown(k, s, now, peers, s'.log.published);
  }

  /** Whatever a consensus run does, counters, MAC table, windows and detectors stay. */
  lemma ConsensusTraffic(k: Keys, s: Agent, now: real, peers: Dict<string>)
    ensures SameTraffic(s, Consensus(k, s, now, peers).0)
  {
    hide Raise, PollPeers, ScanTrust, Accepted, Gains, Having, About, Critical, ShownLast;
    var p := PollPeers(k, s, now, peers, |peers.order|);
    PollPeersGain(k, s, now, peers, |peers.order|);
    RaiseGains(k, p.agent, now, HashMismatch, s.cid, HIGH);
    ScanTrustGains(k, p, now, p.agent.trust, |p.agent.trust.order|);
  }

  lemma VerifyPeerTraffic(k: Keys, s: Agent, now: real, m: Message)
    ensures SameTraffic(s, VerifyPeer(k, s, now, m))
  {
    hide VerifyPeer, Accepts, Gains, ShownLast;
    if Accepts(s, now, m) {
      AcceptedGains(k, s, now, m);
    } else {
      RefusedGains(k, s, now, m);
    }
  }

  // ---------------------------------------------------------------- controller events

  lemma SwitchGains(k: Keys, s: Agent, now: real, dpid: int)
    ensures var s' := OnSwitchUp(k, s, now, dpid);
      && Gains(s, s', [], [SwitchUp(dpid)], []) && ShownLast(s')
      && SameTraffic(s.(switches := s.switches + 1, macTable := s.macTable[dpid := Row(s.macTable, dpid)]), s')
      && s'.trust == s.trust
    ensures var s' := OnSwitchDown(k, s, now, dpid);
      && Gains(s, s', [], [SwitchDown(dpid)], []) && ShownLast(s')
      && SameTraffic(s.(switches := if s.switches == 0 then 0 else s.switches - 1), s') && s'.trust == s.trust
  {
    hide Flush;
    FlushGains(k, s.(switches := s.switches + 1, macTable := s.macTable[dpid := Row(s.macTable, dpid)]), now,
               SwitchUp(dpid));
    FlushGains(k, s.(switches := if s.switches == 0 then 0 else s.switches - 1), now, SwitchDown(dpid));
  }

  /** The alerts of a packet: HIGH for more than 500 packets in the last second, MEDIUM for a rate
      that is an anomaly for the packet-rate detector. */
  function PacketAlerts(cid: string, now: real, flood: bool, odd: bool): seq<Alert> {
    (if flood then [Alert(Flood, cid, HIGH, now, cid)] else [])
    + if odd then [Alert(Flood, cid, MEDIUM, now, cid)] else []
  }

  lemma FloodCheckGains(k: Keys, s: Agent, now: real)
    ensures var s' := FloodCheck(k, s, now);
      && Gains(s, s', if |s.packetTimes| > 500 then [Alert(Flood, s.cid, HIGH, now, s.cid)] else [], [], [])
      && SameTraffic(s, s') && s'.lastIdx == s.lastIdx && s'.trust == s.trust
  {
    hide Raise, Gains, ShownLast;
    RaiseGains(k, s, now, Flood, s.cid, HIGH);
    NoGains(s, s);
  }

  /** The detector is asked about, and then fed, the number of packets in the last second. */
  lemma AnomalyCheckGains(k: Keys, s: Agent, now: real)
    ensures var s' := AnomalyCheck(k, s, now);
      var d, x := Ewma.Known(s.detectors, PACKET_RATE), |s.packetTimes| as real;
      var odd := now - s.t0 > 30.0 && Ewma.Score(Ewma.DEFAULT, d, x).Anomaly?;
      && Gains(s, s', if odd then [Alert(Flood, s.cid, MEDIUM, now, s.cid)] else [], [], [])
      && SameTraffic(s.(detectors := s'.detectors), s') && s'.lastIdx == s.lastIdx && s'.trust == s.trust
      && Ewma.Known(s'.detectors, PACKET_RATE) == if now - s.t0 > 30.0 then Ewma.Feed(Ewma.DEFAULT, d, x) else d
  {
    hide Raise, Gains, ShownLast, Ewma.Feed, Ewma.Score;
    var d, x := Ewma.Known(s.detectors, PACKET_RATE), |s.packetTimes| as real;
    var fed := s.(detectors := s.detectors[PACKET_RATE := Ewma.Feed(Ewma.DEFAULT, d, x)]);
    RaiseGains(k, fed, now, Flood, s.cid, MEDIUM);
    NoGains(s, s);
    NoGains(s, fed);
    SameLogGains(s, fed, Raise(k, fed, now, Flood, s.cid, MEDIUM), [Alert(Flood, s.cid, MEDIUM, now, s.cid)], [], []);
  }

  lemma SameLogGains(s: Agent, t: Agent, u: Agent, alerts: seq<Alert>, events: seq<Event>,
                     judged: seq<(string, TrustEvent)>)
    requires Gains(t, u, alerts, events, judged) && t.ledger == s.ledger
    requires t.log.alerts == s.log.alerts && t.log.published == s.log.published && t.log.trust == s.log.trust
    requires t.log.resetAlerts == s.log.resetAlerts && t.log.resetPublished == s.log.resetPublished
    ensures Gains(s, u, alerts, events, judged)
  {
  }

  /** A packet: its alerts, and a record of the count after every tenth packet. */
  lemma PacketGains(k: Keys, s: Agent, now: real, dpid: int, src: string, port: int)
    ensures var s1, s' := CountPacket(s, now, dpid, src, port), OnPacketIn(k, s, now, dpid, src, port);
      var d, x := Ewma.Known(s.detectors, PACKET_RATE), |s1.packetTimes| as real;
      && Gains(s, s',
               PacketAlerts(s.cid, now, |s1.packetTimes| > 500,
                            now - s.t0 > 30.0 && Ewma.Score(Ewma.DEFAULT, d, x).Anomaly?),
               if (s.packets + 1) % 10 == 0 then [PacketCount(s.packets + 1)] else [], [])
      && SameTraffic(s1.(detectors := s'.detectors), s') && s'.lastIdx == s.lastIdx && s'.trust == s.trust
      && Ewma.Known(s'.detectors, PACKET_RATE) == if now - s.t0 > 30.0 then Ewma.Feed(Ewma.DEFAULT, d, x) else d
  {
    hide Gains, FloodCheck, AnomalyCheck, Flush, ShownLast, Ewma.Feed, Ewma.Score, Ewma.Known, Rates.Recent;
    var s1 := CountPacket(s, now, dpid, src, port);
    var s2 := FloodCheck(k, s1, now);
    var s3 := AnomalyCheck(k, s2, now);
    FloodCheckGains(k, s1, now);
    AnomalyCheckGains(k, s2, now);
    FlushGains(k, s3, now, PacketCount(s3.packets));
    NoGains(s3, s3);
    var flood := if |s1.packetTimes| > 500 then [Alert(Flood, s.cid, HIGH, now, s.cid)] else [];
    var d, x := Ewma.Known(s.detectors, PACKET_RATE), |s1.packetTimes| as real;
    var odd := if now - s.t0 > 30.0 && Ewma.Score(Ewma.DEFAULT, d, x).Anomaly?
               then [Alert(Flood, s.cid, MEDIUM, now, s.cid)] else [];
    var events := if (s.packets + 1) % 10 == 0 then [PacketCount(s.packets + 1)] else [];
    ThreeGains(s1, s2, s3, OnPacketIn(k, s, now, dpid, src, port), flood, odd, events);
    SameLogGains(s, s1, OnPacketIn(k, s, now, dpid, src, port), flood + odd, events, []);
  }

  lemma ThreeGains(s: Agent, t: Agent, u: Agent, v: Agent, a: seq<Alert>, b: seq<Alert>, events: seq<Event>)
    requires Gains(s, t, a, [], []) && Gains(t, u, b, [], []) && Gains(u, v, [], events, [])
    ensures Gains(s, v, a + b, events, [])
  {
    GainsThen(s, t, u, a, b, [], [], []);
    assert Gains(s, u, a + b, [], []);
    GainsThen(s, u, v, a + b, [], events, [], []);
    assert (a + b) + [] == a + b;
  }

  /** A flow addition: an alert for more than 50 in the last second, then a record of the flow. */
  lemma FlowGains(k: Keys, s: Agent, now: real, dpid: int, priority: int)
    ensures var s1, s' := CountFlow(s, now), OnFlowAdd(k, s, now, dpid, priority);
      && Gains(s, s', if |s1.flowTimes| > 50 then [Alert(FlowInject, s.cid, Graded(s.t0, now), now, s.cid)] else [],
               [FlowAdd(dpid, priority)], [])
      && SameTraffic(s1, s') && s'.lastIdx == s.lastIdx && s'.trust == s.trust
  {
    hide Gains, Raise, Flush, ShownLast, Rates.Recent, Graded;
    var s1, s' := CountFlow(s, now), OnFlowAdd(k, s, now, dpid, priority);
    var raised := Raise(k, s1, now, FlowInject, s.cid, HIGH);
    var alert := Alert(FlowInject, s.cid, Graded(s.t0, now), now, s.cid);
    if |s1.flowTimes| > 50 {
      RaiseGains(k, s1, now, FlowInject, s.cid, HIGH);
      FlushGains(k, raised, now, FlowAdd(dpid, priority));
      GainsThen(s1, raised, s', [alert], [], [FlowAdd(dpid, priority)], [], []);
      assert [alert] + [] == [alert];
      SameLogGains(s, s1, s', [alert], [FlowAdd(dpid, priority)], []);
    } else {
      FlushGains(k, s1, now, FlowAdd(dpid, priority));
      SameLogGains(s, s1, s', [], [FlowAdd(dpid, priority)], []);
    }
  }

  /** A reset: one record of the recovery, nothing counted, full trust in everybody known, and all
      else as it was. */
  lemma ResetGains(k: Keys, s: Agent, now: real)
    ensures var s' := ResetAlerts(k, s, now);
      && Gains(s.(log := s.log.(trust := [], resetAlerts := |s.log.alerts|, resetPublished := |s.log.published|)),
               s', [], [Recovery], [])
      && ShownLast(s') && SameTraffic(s, s')
      && s'.alerts == 0 && s'.trust.order == s.trust.order
      && (forall pid :: pid in s'.trust.at ==> s'.trust.at[pid] == 100)
      && s'.lastIdx == s.lastIdx
  {
    hide Flush;
    var t := s.(alerts := 0, trust := Fill(s.trust, 100),
                log := s.log.(trust := [], resetAlerts := |s.log.alerts|, resetPublished := |s.log.published|));
    FlushGains(k, t, now, Recovery);
  }

  /** A fresh agent has put out its boot record and nothing else. */
  lemma StartGains(k: Keys, cid: string, t0: real)
    ensures var s := Start(k, cid, t0);
      && s.cid == cid && s.t0 == t0 && s.alerts == 0 && s.switches == 0 && s.packets == 0 && s.flows == 0
      && s.log.alerts == [] && Titles(s.log.published) == [Boot] && s.ledger.height == 1
      && s.trust == EmptyDict() && s.log.trust == [] && s.log.packets == [] && s.log.flows == []
      && s.lastIdx == map[] && s.macTable == map[] && s.detectors == map[]
      && s.packetTimes == [] && s.flowTimes == []
  {
    hide MacCount, Accepted;
  }
}
