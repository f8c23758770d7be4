/** What each thing that can happen to a controller makes it put out, after any run, in terms of what
    has happened to it before. */
module RunLaws {
  import opened Prelude
  import opened Chain
  import opened Trust
  import opened Agent
  import opened AgentLaws
  import opened AgentDecisions
  import opened AgentEffects
  import opened Gossip
  import Ewma
  import Rates

  /** The controller's node after this has happened to it since boot. */
  function After(k: Keys, cid: string, t0: real, ops: seq<(real, Op)>): Node {
    Run(k, StartNode(k, cid, t0), ops)
  }

  lemma AfterMore(k: Keys, cid: string, t0: real, ops: seq<(real, Op)>, now: real, op: Op)
    ensures After(k, cid, t0, ops + [(now, op)]) == Apply(k, After(k, cid, t0, ops), now, op)
  {
    RunMore(k, StartNode(k, cid, t0), ops, now, op);
  }

  lemma AfterSound(k: Keys, cid: string, t0: real, ops: seq<(real, Op)>)
    ensures Sound(k, After(k, cid, t0, ops).agent) && Counts(After(k, cid, t0, ops).agent, cid, t0, ops)
  {
    hide Sound, Counts;
    RunSound(k, cid, t0, ops);
    RunCounts(k, cid, t0, ops);
  }

  // ---------------------------------------------------------------- packets and flows

  /** For each packet more than 30 s after boot: how many packets were less than one second old. */
  function SeenRates(t0: real, times: seq<real>): seq<real> {
    if times == [] then []
    else
      var n := |times| - 1;
      SeenRates(t0, times[..n]) + if times[n] - t0 > 30.0 then [Rates.InLastSecond(times) as real] else []
  }

  /** The packet-rate detector after a run. */
  function DetectorAfter(t0: real, ops: seq<(real, Op)>): Ewma.Detector {
    Ewma.FeedAll(Ewma.DEFAULT, Ewma.FRESH, SeenRates(t0, PacketTimes(ops)))
  }

  lemma SeenRatesMore(t0: real, times: seq<real>, now: real)
    ensures SeenRates(t0, times + [now])
            == SeenRates(t0, times) + if now - t0 > 30.0 then [Rates.InLastSecond(times + [now]) as real] else []
  {
    assert (times + [now])[..|times|] == times;
  }

  lemma FeedMore(s: Ewma.Detector, xs: seq<real>, x: real)
    ensures Ewma.FeedAll(Ewma.DEFAULT, s, xs + [x]) == Ewma.Feed(Ewma.DEFAULT, Ewma.FeedAll(Ewma.DEFAULT, s, xs), x)
  {
    assert (xs + [x])[..|xs|] == xs;
  }

  lemma Earlier(times: seq<real>, now: real)
    requires Rates.Nondecreasing(times + [now])
    ensures Rates.Nondecreasing(times)
  {
    var all := times + [now];
    forall i, j | 0 <= i <= j < |times| ensures times[i] <= times[j] {
      assert all[i] <= all[j];
    }
  }

  /** The window after a packet has one entry per packet of the last second. */
  lemma WindowAfterPacket(k: Keys, s: Agent, now: real, dpid: int, src: string, port: int)
    requires Sound(k, s) && Rates.Nondecreasing(s.log.packets + [now])
    ensures |CountPacket(s, now, dpid, src, port).packetTimes| == Rates.InLastSecond(s.log.packets + [now])
  {
    hide Published, Counted, Rising, Scored, Sane, Rates.Recent, Rates.InLastSecond, Rates.Nondecreasing;
    RollingStep(s.log.packets, now);
    Rates.RollingCounts(s.log.packets + [now]);
  }

  lemma PacketStep(k: Keys, cid: string, t0: real, ops: seq<(real, Op)>, n: Node, now: real,
                   dpid: int, src: string, port: int)
    requires Sound(k, n.agent) && Counts(n.agent, cid, t0, ops)
    requires Rates.Nondecreasing(PacketTimes(ops) + [now])
    requires Ewma.Known(n.agent.detectors, PACKET_RATE) == DetectorAfter(t0, ops)
    ensures Apply(k, n, now, Packet(dpid, src, port))
            == n.(agent := Apply(k, n, now, Packet(dpid, src, port)).agent)
    ensures var s, s' := n.agent, Apply(k, n, now, Packet(dpid, src, port)).agent;
      var times := PacketTimes(ops) + [now];
      var rate := Rates.InLastSecond(times);
      && Gains(s, s',
               PacketAlerts(cid, now, rate > 500,
                            now - t0 > 30.0
                            && Ewma.Score(Ewma.DEFAULT, DetectorAfter(t0, ops), rate as real).Anomaly?),
               if |times| % 10 == 0 then [PacketCount(|times|)] else [], [])
      && Ewma.Known(s'.detectors, PACKET_RATE)
         == Ewma.FeedAll(Ewma.DEFAULT, Ewma.FRESH, SeenRates(t0, times))
      && s'.lastIdx == s.lastIdx && s'.trust == s.trust
      && s'.switches == s.switches && s'.flows == s.flows && s'.flowTimes == s.flowTimes && s'.packets == |times|
      && s'.macTable == s.macTable[dpid := Row(s.macTable, dpid)[src := port]]
  {
    hide Sound, Gains, OnPacketIn, Rates.Recent, Rates.InLastSecond, Ewma.Known, Ewma.Feed, Ewma.FeedAll, Ewma.Score;
    hide PacketAlerts, SeenRates, Rates.Nondecreasing;
    WindowAfterPacket(k, n.agent, now, dpid, src, port);
    PacketGains(k, n.agent, now, dpid, src, port);
    SeenRatesMore(t0, PacketTimes(ops), now);
    FeedMore(Ewma.FRESH, SeenRates(t0, PacketTimes(ops)), Rates.InLastSecond(PacketTimes(ops) + [now]) as real);
    assert SeenRates(t0, PacketTimes(ops)) + [] == SeenRates(t0, PacketTimes(ops));
  }

  lemma DetectorStays(k: Keys, n: Node, now: real, op: Op)
    requires !op.Packet?
    ensures Apply(k, n, now, op).agent.detectors == n.agent.detectors
  {
    hide Gains, OnFlowAdd, OnSwitchUp, OnSwitchDown, ShownLast, Rates.Recent;
    match op
    case Flow(dpid, priority) => FlowGains(k, n.agent, now, dpid, priority);
    case SwitchJoins(dpid) => SwitchGains(k, n.agent, now, dpid);
    case SwitchLeaves(dpid) => SwitchGains(k, n.agent, now, dpid);
    case _ =>
      hide Apply;
      OtherTraffic(k, n, now, op);
  }

  /** In every run under a clock that never goes back, the packet-rate detector has been fed, for
      each packet more than 30 s after boot, the number of packets in the second before it, and
      nothing else. */
  lemma {:induction false} DetectorSawRates(k: Keys, cid: string, t0: real, ops: seq<(real, Op)>)
    requires Rates.Nondecreasing(PacketTimes(ops))
    ensures Ewma.Known(After(k, cid, t0, ops).agent.detectors, PACKET_RATE) == DetectorAfter(t0, ops)
  {
    if ops == [] {
      hide Start;
      StartGains(k, cid, t0);
    } else {
      hide Sound, Apply, Start, Counts, Ewma.FeedAll, SeenRates;
      var c := |ops| - 1;
      var n, now := After(k, cid, t0, ops[..c]), ops[c].0;
      assert PacketTimes(ops) == PacketTimes(ops[..c]) + if ops[c].1.Packet? then [now] else [];
      assert PacketTimes(ops[..c]) + [] == PacketTimes(ops[..c]);
      if ops[c].1.Packet? {
        Earlier(PacketTimes(ops[..c]), now);
      }
      DetectorSawRates(k, cid, t0, ops[..c]);
      RunSound(k, cid, t0, ops[..c]);
      RunCounts(k, cid, t0, ops[..c]);
      match ops[c].1
      case Packet(dpid, src, port) =>
        PacketStep(k, cid, t0, ops[..c], n, now, dpid, src, port);
      case op => DetectorStays(k, n, now, op);
    }
  }

  /** A packet: a HIGH flood alert exactly when more than 500 packets came in the last second, grace
      or not; a MEDIUM one exactly when, more than 30 s after boot, that number is an anomaly for a
      detector fed with the earlier ones; and a record of the count exactly at every tenth packet. */
  lemma PacketLaw(k: Keys, cid: string, t0: real, ops: seq<(real, Op)>, now: real, dpid: int, src: string, port: int)
    requires Rates.Nondecreasing(PacketTimes(ops) + [now])
    ensures var n, n' := After(k, cid, t0, ops), After(k, cid, t0, ops + [(now, Packet(dpid, src, port))]);
      var s, s' := n.agent, n'.agent;
      var times := PacketTimes(ops) + [now];
      var rate := Rates.InLastSecond(times);
      && Gains(s, s',
               PacketAlerts(cid, now, rate > 500,
                            now - t0 > 30.0
                            && Ewma.Score(Ewma.DEFAULT, DetectorAfter(t0, ops), rate as real).Anomaly?),
               if |times| % 10 == 0 then [PacketCount(|times|)] else [], [])
      && s'.lastIdx == s.lastIdx && s'.trust == s.trust
      && s'.switches == s.switches && s'.flows == s.flows && s'.flowTimes == s.flowTimes && s'.packets == |times|
      && s'.macTable == s.macTable[dpid := Row(s.macTable, dpid)[src := port]]
      && n' == n.(agent := s')
  {
    hide *;
    AfterMore(k, cid, t0, ops, now, Packet(dpid, src, port));
    Earlier(PacketTimes(ops), now);
    DetectorSawRates(k, cid, t0, ops);
    AfterSound(k, cid, t0, ops);
    PacketStep(k, cid, t0, ops, After(k, cid, t0, ops), now, dpid, src, port);
  }

  /** So traffic whose rates stay in a band no wider than 3 + 3% of its lower end never raises the
      statistical alarm, whatever else happens. */
  lemma SteadyTrafficIsNormal(t0: real, ops: seq<(real, Op)>, rate: real, lo: real, hi: real)
    requires 0.0 <= lo <= rate <= hi && Ewma.AllIn(SeenRates(t0, PacketTimes(ops)), lo, hi)
    requires hi - lo <= 3.0 * (1.0 + lo / 100.0)
    ensures Ewma.Score(Ewma.DEFAULT, DetectorAfter(t0, ops), rate) == Ewma.Normal
  {
    hide Ewma.AllIn, Ewma.InBand, Ewma.Score, Ewma.FeedAll;
    Ewma.FreshInBand(lo, hi);
    Ewma.StreamInBand(Ewma.DEFAULT, Ewma.FRESH, SeenRates(t0, PacketTimes(ops)), lo, hi);
    Ewma.NarrowSampleIsNormal(Ewma.DEFAULT, DetectorAfter(t0, ops), rate, lo, hi);
  }

  lemma WindowAfterFlow(k: Keys, s: Agent, now: real)
    requires Sound(k, s) && Rates.Nondecreasing(s.log.flows + [now])
    ensures |CountFlow(s, now).flowTimes| == Rates.InLastSecond(s.log.flows + [now])
  {
    hide Published, Counted, Rising, Scored, Sane, Rates.Recent, Rates.InLastSecond, Rates.Nondecreasing;
    RollingStep(s.log.flows, now);
    Rates.RollingCounts(s.log.flows + [now]);
  }

  /** A flow addition: an alert exactly when more than 50 flows were added in the last second, HIGH
      after boot grace; and always a record that names the flow. */
  lemma FlowLaw(k: Keys, cid: string, t0: real, ops: seq<(real, Op)>, now: real, dpid: int, priority: int)
    requires Rates.Nondecreasing(FlowTimes(ops) + [now])
    ensures var n, n' := After(k, cid, t0, ops), After(k, cid, t0, ops + [(now, Flow(dpid, priority))]);
      var s, s' := n.agent, n'.agent;
      var times := FlowTimes(ops) + [now];
      && Gains(s, s',
               if Rates.InLastSecond(times) > 50 then [Alert(FlowInject, cid, Graded(t0, now), now, cid)] else [],
               [FlowAdd(dpid, priority)], [])
      && s'.lastIdx == s.lastIdx && s'.trust == s.trust && s'.detectors == s.detectors
      && s'.switches == s.switches && s'.packets == s.packets && s'.packetTimes == s.packetTimes
      && s'.macTable == s.macTable && s'.flows == |times|
      && n' == n.(agent := s')
  {
    hide Sound, Gains, OnFlowAdd, Run, StartNode, Graded, Rates.Recent, Rates.InLastSecond;
    var s := After(k, cid, t0, ops).agent;
    AfterMore(k, cid, t0, ops, now, Flow(dpid, priority));
    RunSound(k, cid, t0, ops);
    RunCounts(k, cid, t0, ops);
    WindowAfterFlow(k, s, now);
    FlowGains(k, s, now, dpid, priority);
  }

  // ---------------------------------------------------------------- peer messages

  predicate AllFields(m: Message) {
    m.cid != "" && m.hash != "" && m.sig != NoSignature
  }

  /** The message is complete, fresh, properly signed, and not older than any ever claimed. */
  predicate Taken(ops: seq<(real, Op)>, now: real, op: Op) {
    && op.Deliver? && AllFields(op.m) && now - op.m.ts <= 60.0
    && op.m.sig == Signed(op.m.cid, op.m.hash) && op.m.idx >= MaxClaimed(ops, op.m.cid)
  }

  /** The senders of such messages, in the order of their first one. */
  function Heard(ops: seq<(real, Op)>): seq<string> {
    if ops == [] then []
    else
      var c := |ops| - 1;
      var (now, op) := ops[c];
      var before := Heard(ops[..c]);
      if Taken(ops[..c], now, op) && op.m.cid !in before then before + [op.m.cid] else before
  }

  /** The hash in the last such message of pid. */
  function LastTaken(ops: seq<(real, Op)>, pid: string): Option<string> {
    if ops == [] then None
    else
      var c := |ops| - 1;
      var (now, op) := ops[c];
      if Taken(ops[..c], now, op) && op.m.cid == pid then Some(op.m.hash) else LastTaken(ops[..c], pid)
  }

  lemma OnlyDeliveriesTaken(ops: seq<(real, Op)>, now: real, op: Op)
    requires !op.Deliver?
    ensures !Taken(ops, now, op)
  {
  }

  lemma TakenIsAccepted(k: Keys, cid: string, t0: real, ops: seq<(real, Op)>, now: real, m: Message)
    ensures Taken(ops, now, Deliver(m)) <==> Complete(m) && Accepts(After(k, cid, t0, ops).agent, now, m)
  {
    hide Run, StartNode, Accepts, MaxClaimed;
    AcceptanceLaw(k, cid, t0, ops, now, m);
  }

  /** The table of peer hashes holds what the run says. */
  ghost predicate TableOf(hashes: Dict<string>, ops: seq<(real, Op)>) {
    && hashes.order == Heard(ops)
    && forall pid :: LastTaken(ops, pid) == if pid in hashes.at then Some(hashes.at[pid]) else None
  }

  lemma TableStep(k: Keys, n: Node, now: real, op: Op)
    ensures Apply(k, n, now, op).peerHashes
            == if op.Deliver? && Complete(op.m) && Accepts(n.agent, now, op.m)
               then Put(n.peerHashes, op.m.cid, op.m.hash) else n.peerHashes
  {
    hide VerifyPeer, Consensus, Accepts, Complete, Flush, ReportSilent;
    hide OnSwitchUp, OnSwitchDown, OnPacketIn, OnFlowAdd, ResetAlerts;
  }

  lemma TableMore(hashes: Dict<string>, ops: seq<(real, Op)>)
    requires ops != [] && TableOf(hashes, ops[..|ops| - 1])
    ensures var c := |ops| - 1;
      var (now, op) := ops[c];
      TableOf(if Taken(ops[..c], now, op) then Put(hashes, op.m.cid, op.m.hash) else hashes, ops)
  {
    var c := |ops| - 1;
    var (now, op) := ops[c];
    if Taken(ops[..c], now, op) {
      assert op.m.cid in Heard(ops[..c]) <==> op.m.cid in hashes.at;
    }
  }

  /** In every run a node's table of peers holds, in the order in which they were first heard, the
      hash of each peer's last accepted message. */
  lemma {:induction false} PeerTable(k: Keys, cid: string, t0: real, ops: seq<(real, Op)>)
    ensures TableOf(After(k, cid, t0, ops).peerHashes, ops)
  {
    if ops == [] {
      hide StartNode;
      StartEmpty(k, cid, t0);
    } else {
      hide TableOf, Apply, Taken, Complete, Accepts;
      var c := |ops| - 1;
      var (now, op) := ops[c];
      PeerTable(k, cid, t0, ops[..c]);
      TableStep(k, After(k, cid, t0, ops[..c]), now, op);
      TableMore(After(k, cid, t0, ops[..c]).peerHashes, ops);
      if op.Deliver? {
        TakenIsAccepted(k, cid, t0, ops[..c], now, op.m);
      } else {
        OnlyDeliveriesTaken(ops[..c], now, op);
      }
    }
  }

  function Boosts(pids: seq<string>): (r: seq<(string, TrustEvent)>)
    ensures |r| == |pids|
    ensures forall i :: 0 <= i < |pids| ==> r[i] == (pids[i], Boost)
  {
    seq(|pids|, i requires 0 <= i < |pids| => (pids[i], Boost))
  }

  lemma AnsweredJudgements(peers: Dict<string>)
    requires AllAnswered(peers)
    ensures Judgements(peers, |peers.order|) == Boosts(peers.order)
    ensures Having(peers, |peers.order|, true) == []
  {
    NobodySilent(peers, |peers.order|);
    forall i | 0 <= i < |peers.order| ensures peers.at[peers.order[i]] != "" {
      assert peers.order[i] in peers.order;
    }
  }

  lemma VerifiableBefore(h: seq<Block<Snapshot>>, h': seq<Block<Snapshot>>, n: nat)
    requires h <= h' && n <= |h|
    ensures Verifiable(h', n) <==> Verifiable(h, n)
  {
  }

  /** Verifying and then running consensus over peers that have all answered. */
  lemma DeliveryGains(k: Keys, s: Agent, now: real, m: Message, peers: Dict<string>)
    requires Sound(k, s) && Accepts(s, now, m) && AllAnswered(peers)
    ensures var s' := Consensus(k, VerifyPeer(k, s, now, m), now, peers).0;
      var judged := [(m.cid, Boost)] + Boosts(peers.order);
      && s.ledger.height == |s.ledger.history|
      && (Verifiable(s.ledger.history, s.ledger.height) ==>
            Gains(s, s', About(Critical(s'.trust, |s'.trust.order|, []), HashMismatch, Graded(s.t0, now), now, s.cid),
                  [], judged))
      && (!Verifiable(s.ledger.history, s.ledger.height) ==>
            Gains(s, s', [Alert(HashMismatch, s.cid, Graded(s.t0, now), now, s.cid)], [], judged) && ShownLast(s'))
      && SameTraffic(s, s') && s'.lastIdx == s.lastIdx[m.cid := m.idx]
  {
    hide VerifyPeer, Consensus, Accepts, Gains, Critical, About, Graded, Boosts, Judgements, AllAnswered, Having;
    hide Sound, Verifiable, PenaltiesShown, ShownLast, RawDict.Valid;
    var t := VerifyPeer(k, s, now, m);
    var s' := Consensus(k, t, now, peers).0;
    VerifyPeerSound(k, s, now, m);
    AcceptedMessageEffect(k, s, now, m);
    AcceptedGains(k, s, now, m);
    ConsensusGains(k, t, now, peers);
    ConsensusGrows(k, t, now, peers);
    AnsweredJudgements(peers);
    SoundVerifiable(k, s);
    VerifiableBefore(s.ledger.history, s'.ledger.history, s.ledger.height);
    var own := [Alert(HashMismatch, s.cid, Graded(s.t0, now), now, s.cid)];
    var low := About(Critical(s'.trust, |s'.trust.order|, []), HashMismatch, Graded(s.t0, now), now, s.cid);
    AboutNobody(ConsensusFail, MEDIUM, now, s.cid);
    assert [] + own == own && [] + low == low;
    if Verifiable(s.ledger.history, s.ledger.height) {
      GainsThen(s, t, s', [], low, [], [(m.cid, Boost)], Boosts(peers.order));
    } else {
      GainsThen(s, t, s', [], own, [], [(m.cid, Boost)], Boosts(peers.order));
    }
  }

  /** An accepted message starts a consensus run. The sender is boosted, then every peer heard so far
      once. If the controller's own chain verifies there is one HIGH alert (MEDIUM in boot grace)
      about each peer whose trust is below 0.30, in table order, and none otherwise. If it does not
      verify there is exactly one such alert, about the controller itself. One block per alert. */
  lemma AcceptedDelivery(k: Keys, cid: string, t0: real, ops: seq<(real, Op)>, now: real, m: Message)
    requires Taken(ops, now, Deliver(m))
    ensures var ops' := ops + [(now, Deliver(m))];
      var s, s' := After(k, cid, t0, ops).agent, After(k, cid, t0, ops').agent;
      var judged := [(m.cid, Boost)] + Boosts(Heard(ops'));
      && s.ledger.height == |s.ledger.history|
      && (Verifiable(s.ledger.history, s.ledger.height) ==>
            Gains(s, s', About(Critical(s'.trust, |s'.trust.order|, []), HashMismatch, Graded(t0, now), now, cid),
                  [], judged))
      && (!Verifiable(s.ledger.history, s.ledger.height) ==>
            Gains(s, s', [Alert(HashMismatch, cid, Graded(t0, now), now, cid)], [], judged) && ShownLast(s'))
      && SameTraffic(s, s') && s'.lastIdx == s.lastIdx[m.cid := m.idx]
  {
    hide Sound, Run, StartNode, Taken, VerifyPeer, Consensus, Accepts, Gains, Critical, About, Graded, Boosts, Heard;
    hide ShownLast, Complete, AllAnswered, SameTraffic, Verifiable;
    var ops' := ops + [(now, Deliver(m))];
    var n := After(k, cid, t0, ops);
    AfterMore(k, cid, t0, ops, now, Deliver(m));
    TakenIsAccepted(k, cid, t0, ops, now, m);
    RunSound(k, cid, t0, ops);
    RunCounts(k, cid, t0, ops);
    PeerTable(k, cid, t0, ops');
    TableAnswered(k, cid, t0, ops');
    DeliveryGains(k, n.agent, now, m, Put(n.peerHashes, m.cid, m.hash));
  }

  lemma TableAnswered(k: Keys, cid: string, t0: real, ops: seq<(real, Op)>)
    ensures AllAnswered(After(k, cid, t0, ops).peerHashes)
  {
    hide Run;
    StartEmpty(k, cid, t0);
    forall pid | pid in After(k, cid, t0, ops).peerHashes.at
      ensures After(k, cid, t0, ops).peerHashes.at[pid] != ""
    {
      RecordedHashesWereSigned(k, StartNode(k, cid, t0), ops, pid);
    }
  }

  /** A complete message that is refused raises exactly one alert, about its claimed sender: MEDIUM
      if it is stale; else HIGH (MEDIUM in boot grace), for a replay if some fresh message claimed a
      larger index before, else for its signature. Only then it costs trust, and the record of the
      alert already shows that. Nothing is recorded of its hash. */
  lemma RefusedDelivery(k: Keys, cid: string, t0: real, ops: seq<(real, Op)>, now: real, m: Message)
    requires AllFields(m) && !Taken(ops, now, Deliver(m))
    ensures var n, n' := After(k, cid, t0, ops), After(k, cid, t0, ops + [(now, Deliver(m))]);
      var s, s' := n.agent, n'.agent;
      var stale, back := now - m.ts > 60.0, m.idx < MaxClaimed(ops, m.cid);
      && Gains(s, s',
               [Alert(if stale || back then Replay else SigInvalid, m.cid, if stale then MEDIUM else Graded(t0, now),
                      now, cid)],
               [],
               if stale || back then [] else [(m.cid, BadSignature)])
      && SameTraffic(s, s') && ShownLast(s') && n'.peerHashes == n.peerHashes
  {
    hide Sound, Run, StartNode, Taken, VerifyPeer, Consensus, Accepts, Gains, Graded, ShownLast, LastIdx;
    AfterMore(k, cid, t0, ops, now, Deliver(m));
    TakenIsAccepted(k, cid, t0, ops, now, m);
    RunCounts(k, cid, t0, ops);
    IndexIsMaxClaimed(k, cid, t0, ops, m.cid);
    RefusedGains(k, After(k, cid, t0, ops).agent, now, m);
  }

  /** A message in which one of the fields is missing is ignored. */
  lemma IncompleteDelivery(k: Keys, cid: string, t0: real, ops: seq<(real, Op)>, now: real, m: Message)
    requires m.cid == "" || m.hash == "" || m.sig == NoSignature
    ensures After(k, cid, t0, ops + [(now, Deliver(m))]) == After(k, cid, t0, ops)
  {
    AfterMore(k, cid, t0, ops, now, Deliver(m));
  }

  // ---------------------------------------------------------------- switches, heartbeats and resets

  /** Switches that joined minus switches that left. */
  function Surplus(ops: seq<(real, Op)>): int {
    if ops == [] then 0
    else
      var op := ops[|ops| - 1].1;
      Surplus(ops[..|ops| - 1]) + if op.SwitchJoins? then 1 else if op.SwitchLeaves? then -1 else 0
  }

  lemma SwitchStep(k: Keys, n: Node, now: real, op: Op)
    ensures var c, c' := n.agent.switches, Apply(k, n, now, op).agent.switches;
      c' == if op.SwitchJoins? then c + 1 else if op.SwitchLeaves? then Max(0, c - 1) else c
  {
    hide Gains, OnPacketIn, OnFlowAdd, OnSwitchUp, OnSwitchDown, ShownLast, Rates.Recent, Ewma.Known, Ewma.Score;
    match op
    case Packet(dpid, src, port) => PacketGains(k, n.agent, now, dpid, src, port);
    case Flow(dpid, priority) => FlowGains(k, n.agent, now, dpid, priority);
    case SwitchJoins(dpid) => SwitchGains(k, n.agent, now, dpid);
    case SwitchLeaves(dpid) => SwitchGains(k, n.agent, now, dpid);
    case _ =>
      hide Apply;
      OtherTraffic(k, n, now, op);
  }

  /** In every run the switch counter is the largest surplus of joins over leaves in any final
      stretch of the run: leaves beyond zero are forgotten, not owed. */
  lemma {:induction false} SwitchCounter(k: Keys, cid: string, t0: real, ops: seq<(real, Op)>) returns (i: nat)
    ensures i <= |ops| && After(k, cid, t0, ops).agent.switches == Surplus(ops[i..])
    ensures forall j :: 0 <= j <= |ops| ==> Surplus(ops[j..]) <= After(k, cid, t0, ops).agent.switches
  {
    hide Apply, Start;
    if ops == [] {
      i := 0;
      StartGains(k, cid, t0);
    } else {
      var c := |ops| - 1;
      i := SwitchCounter(k, cid, t0, ops[..c]);
      SwitchStep(k, After(k, cid, t0, ops[..c]), ops[c].0, ops[c].1);
      forall j | 0 <= j <= c
        ensures Surplus(ops[j..])
                == Surplus(ops[..c][j..])
                   + if ops[c].1.SwitchJoins? then 1 else if ops[c].1.SwitchLeaves? then -1 else 0
      {
        var tail := ops[j..];
        assert tail[..|tail| - 1] == ops[..c][j..];
      }
      if Surplus(ops[i..]) < 0 {
        i := |ops|;
      }
    }
  }

  /** A switch that joins or leaves, and the regular heartbeat, are recorded and alarm nobody. */
  lemma RoutineLaw(k: Keys, cid: string, t0: real, ops: seq<(real, Op)>, now: real, dpid: int)
    ensures var n := After(k, cid, t0, ops);
      var up := After(k, cid, t0, ops + [(now, SwitchJoins(dpid))]);
      var down := After(k, cid, t0, ops + [(now, SwitchLeaves(dpid))]);
      var tick := After(k, cid, t0, ops + [(now, Tick)]);
      && Gains(n.agent, up.agent, [], [SwitchUp(dpid)], []) && ShownLast(up.agent) && up.agent.trust == n.agent.trust
      && SameTraffic(n.agent.(switches := up.agent.switches,
                              macTable := n.agent.macTable[dpid := Row(n.agent.macTable, dpid)]), up.agent)
      && Gains(n.agent, down.agent, [], [SwitchDown(dpid)], []) && ShownLast(down.agent)
      && down.agent.trust == n.agent.trust && SameTraffic(n.agent.(switches := down.agent.switches), down.agent)
      && Gains(n.agent, tick.agent, [], [Heartbeat], []) && ShownLast(tick.agent) && tick.agent.trust == n.agent.trust
      && SameTraffic(n.agent, tick.agent)
  {
    hide Run, StartNode, Gains, ShownLast, OnSwitchUp, OnSwitchDown, Flush;
    var s := After(k, cid, t0, ops).agent;
    AfterMore(k, cid, t0, ops, now, SwitchJoins(dpid));
    AfterMore(k, cid, t0, ops, now, SwitchLeaves(dpid));
    AfterMore(k, cid, t0, ops, now, Tick);
    SwitchGains(k, s, now, dpid);
    FlushGains(k, s, now, Heartbeat);
  }
}
