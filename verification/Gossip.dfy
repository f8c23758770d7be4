/** The gossip node around an agent (gossip/node.py), and runs of one controller under arbitrary
    input. */
module Gossip {
  import opened Prelude
  import opened Chain
  import opened Trust
  import opened Agent
  import opened AgentLaws
  import opened AgentDecisions
  import opened AgentEffects
  import Ewma
  import Rates

  datatype Node = Node(agent: Agent, peerHashes: Dict<string>, lastSeen: map<string, real>, started: real)

  const HEARTBEAT_TTL := 30.0
  const HEARTBEAT_GRACE := 75.0

  function StartNode(k: Keys, cid: string, t0: real): Node {
    Node(Start(k, cid, t0), EmptyDict(), map[], t0)
  }

  /** `not all([pid, phash, sig])` is false. */
  predicate Complete(m: Message) {
    m.cid != "" && m.hash != "" && m.sig != NoSignature
  }

  function Receive(k: Keys, n: Node, now: real, m: Message): Node {
    if !Complete(m) then n
    else
      var verified := VerifyPeer(k, n.agent, now, m);
      var seen := n.lastSeen[m.cid := now];
      if !Accepts(n.agent, now, m) then n.(agent := verified, lastSeen := seen)
      else
        var hashes := Put(n.peerHashes, m.cid, m.hash);
        n.(agent := Consensus(k, verified, now, hashes).0, peerHashes := hashes, lastSeen := seen)
  }

  predicate Silent(n: Node, now: real, pid: string) {
    pid in n.lastSeen && n.lastSeen[pid] > 0.0 && now - n.lastSeen[pid] > HEARTBEAT_TTL
  }

  /** One alert for each of the first c peers that has been silent for too long. */
  function ReportSilent(k: Keys, n: Node, now: real, peers: seq<string>, c: nat): Agent
    requires c <= |peers|
  {
    if c == 0 then n.agent
    else
      var a := ReportSilent(k, n, now, peers, c - 1);
      if Silent(n, now, peers[c - 1]) then Raise(k, a, now, CtrlOffline, peers[c - 1], HIGH) else a
  }

  function CheckHeartbeats(k: Keys, n: Node, now: real, peers: seq<string>): Node {
    if now - n.started < HEARTBEAT_GRACE then n
    else n.(agent := ReportSilent(k, n, now, peers, |peers|))
  }

  /** Everything that can happen to a controller. `Consensus` is a direct call with any peer table. */
  datatype Op =
    | Deliver(m: Message)
    | RunConsensus(peers: Dict<string>)
    | HeartbeatCheck(pids: seq<string>)
    | Tick
    | SwitchJoins(dpid: int)
    | SwitchLeaves(dpid: int)
    | Packet(dpid: int, src: string, port: int)
    | Flow(dpid: int, priority: int)
    | Reset

  function Apply(k: Keys, n: Node, now: real, op: Op): Node {
    match op
    case Deliver(m) => Receive(k, n, now, m)
    case RunConsensus(peers) => n.(agent := Consensus(k, n.agent, now, peers).0)
    case HeartbeatCheck(pids) => CheckHeartbeats(k, n, now, pids)
    case Tick => n.(agent := Flush(k, n.agent, now, Heartbeat))
    case SwitchJoins(dpid) => n.(agent := OnSwitchUp(k, n.agent, now, dpid))
    case SwitchLeaves(dpid) => n.(agent := OnSwitchDown(k, n.agent, now, dpid))
    case Packet(dpid, src, port) => n.(agent := OnPacketIn(k, n.agent, now, dpid, src, port))
    case Flow(dpid, priority) => n.(agent := OnFlowAdd(k, n.agent, now, dpid, priority))
    case Reset => n.(agent := ResetAlerts(k, n.agent, now))
  }

  function Run(k: Keys, n: Node, ops: seq<(real, Op)>): Node {
    if ops == [] then n
    else
      var (now, op) := ops[|ops| - 1];
      Apply(k, Run(k, n, ops[..|ops| - 1]), now, op)
  }

  // ---------------------------------------------------------------- the traffic a node has seen

  /** When packets came in, and when flows were added. */
  function PacketTimes(ops: seq<(real, Op)>): seq<real> {
    if ops == [] then []
    else
      var (now, op) := ops[|ops| - 1];
      PacketTimes(ops[..|ops| - 1]) + if op.Packet? then [now] else []
  }

  function FlowTimes(ops: seq<(real, Op)>): seq<real> {
    if ops == [] then []
    else
      var (now, op) := ops[|ops| - 1];
      FlowTimes(ops[..|ops| - 1]) + if op.Flow? then [now] else []
  }

  /** Everything but packets, flows and switches leaves the counters, the MAC table, the windows and
      the detectors alone. */
  lemma OtherTraffic(k: Keys, n: Node, now: real, op: Op)
    requires !op.Packet? && !op.Flow? && !op.SwitchJoins? && !op.SwitchLeaves?
    ensures SameTraffic(n.agent, Apply(k, n, now, op).agent)
  {
    hide VerifyPeer, Consensus, Accepts, ReportSilent, Flush, ResetAlerts, Gains, ShownLast;
    match op
    case Deliver(m) =>
      VerifyPeerTraffic(k, n.agent, now, m);
      ConsensusTraffic(k, VerifyPeer(k, n.agent, now, m), now, Put(n.peerHashes, m.cid, m.hash));
    case RunConsensus(peers) => ConsensusTraffic(k, n.agent, now, peers);
    case HeartbeatCheck(pids) => ReportSilentTraffic(k, n, now, pids, |pids|);
    case Tick => FlushGains(k, n.agent, now, Heartbeat);
    case Reset => ResetGains(k, n.agent, now);
  }

  lemma {:induction false} ReportSilentTraffic(k: Keys, n: Node, now: real, pids: seq<string>, c: nat)
    requires c <= |pids|
    ensures SameTraffic(n.agent, ReportSilent(k, n, now, pids, c))
  {
    hide Raise, Gains, ShownLast;
    if c > 0 {
      ReportSilentTraffic(k, n, now, pids, c - 1);
      RaiseGains(k, ReportSilent(k, n, now, pids, c - 1), now, CtrlOffline, pids[c - 1], HIGH);
    }
  }

  /** Name, boot time, counters and history of an agent are those of the run. */
  predicate Counts(s: Agent, cid: string, t0: real, ops: seq<(real, Op)>) {
    && s.cid == cid && s.t0 == t0
    && s.log.packets == PacketTimes(ops) && s.packets == |PacketTimes(ops)|
    && s.log.flows == FlowTimes(ops) && s.flows == |FlowTimes(ops)|
  }

  lemma {:induction false} RunCounts(k: Keys, cid: string, t0: real, ops: seq<(real, Op)>)
    ensures Counts(Run(k, StartNode(k, cid, t0), ops).agent, cid, t0, ops)
  {
    hide Apply, Start;
    if ops == [] {
      StartGains(k, cid, t0);
    } else {
      var c := |ops| - 1;
      RunCounts(k, cid, t0, ops[..c]);
      CountStep(k, Run(k, StartNode(k, cid, t0), ops[..c]), ops[c].0, ops[c].1);
    }
  }

  lemma CountStep(k: Keys, n: Node, now: real, op: Op)
    ensures var s, s' := n.agent, Apply(k, n, now, op).agent;
      && s'.cid == s.cid && s'.t0 == s.t0
      && s'.log.packets == s.log.packets + (if op.Packet? then [now] else [])
      && s'.packets == s.packets + (if op.Packet? then 1 else 0)
      && s'.log.flows == s.log.flows + (if op.Flow? then [now] else [])
      && s'.flows == s.flows + (if op.Flow? then 1 else 0)
  {
    hide Gains, OnPacketIn, OnFlowAdd, OnSwitchUp, OnSwitchDown, ShownLast, Rates.Recent, Ewma.Known, Ewma.Score;
    match op
    case Packet(dpid, src, port) => PacketGains(k, n.agent, now, dpid, src, port);
    case Flow(dpid, priority) => FlowGains(k, n.agent, now, dpid, priority);
    case SwitchJoins(dpid) => SwitchGains(k, n.agent, now, dpid);
    case SwitchLeaves(dpid) => SwitchGains(k, n.agent, now, dpid);
    case _ =>
      hide Apply;
      OtherTraffic(k, n, now, op);
  }

  // ---------------------------------------------------------------- soundness of every run

  lemma ReceiveSound(k: Keys, n: Node, now: real, m: Message)
    requires Sound(k, n.agent)
    ensures Sound(k, Receive(k, n, now, m).agent)
  {
    hide Sound, VerifyPeer, Consensus, Accepts;
    VerifyPeerSound(k, n.agent, now, m);
    ConsensusSound(k, VerifyPeer(k, n.agent, now, m), now, Put(n.peerHashes, m.cid, m.hash));
  }

  lemma {:induction false} ReportSilentSound(k: Keys, n: Node, now: real, peers: seq<string>, c: nat)
    requires Sound(k, n.agent) && c <= |peers|
    ensures Sound(k, ReportSilent(k, n, now, peers, c))
  {
    hide Sound, Raise;
    if c > 0 {
      ReportSilentSound(k, n, now, peers, c - 1);
      RaiseSound(k, ReportSilent(k, n, now, peers, c - 1), now, CtrlOffline, peers[c - 1], HIGH);
    }
  }

  lemma ApplySound(k: Keys, n: Node, now: real, op: Op)
    requires Sound(k, n.agent)
    ensures Sound(k, Apply(k, n, now, op).agent)
  {
    hide Sound, Receive, Consensus, ReportSilent, Flush, OnSwitchUp, OnSwitchDown, OnPacketIn, OnFlowAdd, ResetAlerts;
    match op
    case Deliver(m) => ReceiveSound(k, n, now, m);
    case RunConsensus(peers) => ConsensusSound(k, n.agent, now, peers);
    case HeartbeatCheck(pids) => ReportSilentSound(k, n, now, pids, |pids|);
    case Tick => FlushSound(k, n.agent, now, Heartbeat);
    case SwitchJoins(dpid) => SwitchSound(k, n.agent, now, dpid);
    case SwitchLeaves(dpid) => SwitchSound(k, n.agent, now, dpid);
    case Packet(dpid, src, port) => OnPacketInSound(k, n.agent, now, dpid, src, port);
    case Flow(dpid, priority) => OnFlowAddSound(k, n.agent, now, dpid, priority);
    case Reset => ResetSound(k, n.agent, now);
  }

  /** In every run, whatever arrives: there is one signed, truthful record per block, the alert
      counter is the number of HIGH alerts about the controller itself since the last reset, every
      trust score is the one the peer's history gives it, and the rate windows are right. */
  lemma {:induction false} RunSound(k: Keys, cid: string, t0: real, ops: seq<(real, Op)>)
    ensures Sound(k, Run(k, StartNode(k, cid, t0), ops).agent)
  {
    hide Sound, Apply, Start;
    if ops == [] {
      StartSound(k, cid, t0);
    } else {
      var n := |ops| - 1;
      RunSound(k, cid, t0, ops[..n]);
      ApplySound(k, Run(k, StartNode(k, cid, t0), ops[..n]), ops[n].0, ops[n].1);
    }
  }

  // ---------------------------------------------------------------- steps that leave gossip state alone

  /** No peer was accused of a bad signature or of critically low trust. */
  predicate Benign(a: Alert, cid: string) {
    a.kind != SigInvalid && (a.kind == HashMismatch ==> a.source == cid)
  }

  /** Full trust in everybody, and no accusation so far. */
  predicate Clean(s: Agent) {
    && (forall pid :: pid in s.trust.at ==> s.trust.at[pid] == FULL_TRUST)
    && (forall i :: 0 <= i < |s.log.alerts| ==> Benign(s.log.alerts[i], s.cid))
  }

  /** The chain grows, the peers' indices stay, and a clean agent stays clean. */
  predicate Quiet(s: Agent, s': Agent) {
    && s'.cid == s.cid
    && s.ledger.history <= s'.ledger.history
    && s'.lastIdx == s.lastIdx
    && (Clean(s) ==> Clean(s'))
  }

  lemma FlushQuiet(k: Keys, s: Agent, now: real, event: Event)
    ensures Quiet(s, Flush(k, s, now, event))
  {
    hide MacCount, Accepted;
  }

  lemma RaiseQuiet(k: Keys, s: Agent, now: real, kind: AlertKind, source: string, severity: Severity)
    requires kind != SigInvalid && (kind == HashMismatch ==> source == s.cid)
    ensures Quiet(s, Raise(k, s, now, kind, source, severity))
  {
    hide Flush;
    var sev := EffectiveSeverity(s, now, kind, severity);
    var counted := s.(alerts := if sev == HIGH && source == s.cid then s.alerts + 1 else s.alerts,
                      log := s.log.(alerts := s.log.alerts + [Alert(kind, source, sev, now, s.cid)]));
    assert Quiet(s, counted);
    FlushQuiet(k, counted, now, Alerted(kind));
  }

  lemma RaiseQuietFrom(k: Keys, s: Agent, t: Agent, now: real, kind: AlertKind, source: string, severity: Severity)
    requires kind != SigInvalid && (kind == HashMismatch ==> source == s.cid) && Quiet(s, t)
    ensures Quiet(s, Raise(k, t, now, kind, source, severity))
  {
    hide Raise, Clean;
    RaiseQuiet(k, t, now, kind, source, severity);
  }

  lemma FlushQuietFrom(k: Keys, s: Agent, t: Agent, now: real, event: Event)
    requires Quiet(s, t)
    ensures Quiet(s, Flush(k, t, now, event))
  {
    hide Flush, Clean;
    FlushQuiet(k, t, now, event);
  }

  lemma SwitchQuiet(k: Keys, s: Agent, now: real, dpid: int)
    ensures Quiet(s, OnSwitchUp(k, s, now, dpid)) && Quiet(s, OnSwitchDown(k, s, now, dpid))
  {
    hide Flush;
    FlushQuietFrom(k, s, s.(switches := s.switches + 1, macTable := s.macTable[dpid := Row(s.macTable, dpid)]), now,
                   SwitchUp(dpid));
    FlushQuietFrom(k, s, s.(switches := if s.switches == 0 then 0 else s.switches - 1), now, SwitchDown(dpid));
  }

  lemma OnPacketInQuiet(k: Keys, s: Agent, now: real, dpid: int, src: string, port: int)
    ensures Quiet(s, OnPacketIn(k, s, now, dpid, src, port))
  {
    hide Flush, Raise, Ewma.Feed, Ewma.Score;
    var s1 := CountPacket(s, now, dpid, src, port);
    assert Quiet(s, s1);
    RaiseQuietFrom(k, s, s1, now, Flood, s.cid, HIGH);
    var s2 := FloodCheck(k, s1, now);
    assert Quiet(s, s2);
    var d := Ewma.Known(s2.detectors, PACKET_RATE);
    var s3 := s2.(detectors := s2.detectors[PACKET_RATE := Ewma.Feed(Ewma.DEFAULT, d, |s2.packetTimes| as real)]);
    assert Quiet(s, s3);
    RaiseQuietFrom(k, s, s3, now, Flood, s.cid, MEDIUM);
    var s4 := AnomalyCheck(k, s2, now);
    assert Quiet(s, s4);
    FlushQuietFrom(k, s, s4, now, PacketCount(s4.packets));
  }

  lemma OnFlowAddQuiet(k: Keys, s: Agent, now: real, dpid: int, priority: int)
    ensures Quiet(s, OnFlowAdd(k, s, now, dpid, priority))
  {
    hide Flush, Raise;
    var s1 := CountFlow(s, now);
    RaiseQuietFrom(k, s, s1, now, FlowInject, s.cid, HIGH);
    FlushQuietFrom(k, s, s1, now, FlowAdd(dpid, priority));
    FlushQuietFrom(k, s, Raise(k, s1, now, FlowInject, s.cid, HIGH), now, FlowAdd(dpid, priority));
  }

  lemma ResetQuiet(k: Keys, s: Agent, now: real)
    ensures Quiet(s, ResetAlerts(k, s, now))
  {
    hide Flush;
    var s1 := s.(alerts := 0, trust := Fill(s.trust, FULL_TRUST),
                 log := s.log.(trust := [], resetAlerts := |s.log.alerts|, resetPublished := |s.log.published|));
    assert Quiet(s, s1);
    FlushQuietFrom(k, s, s1, now, Recovery);
  }

  lemma {:induction false} ReportSilentQuiet(k: Keys, n: Node, now: real, peers: seq<string>, c: nat)
    requires c <= |peers|
    ensures Quiet(n.agent, ReportSilent(k, n, now, peers, c))
  {
    hide Raise;
    if c > 0 {
      ReportSilentQuiet(k, n, now, peers, c - 1);
      RaiseQuietFrom(k, n.agent, ReportSilent(k, n, now, peers, c - 1), now, CtrlOffline, peers[c - 1], HIGH);
    }
  }

  /** Everything but deliveries and direct consensus calls. */
  lemma LocalQuiet(k: Keys, n: Node, now: real, op: Op)
    requires !op.Deliver? && !op.RunConsensus?
    ensures var n' := Apply(k, n, now, op);
      Quiet(n.agent, n'.agent) && n'.peerHashes == n.peerHashes
  {
    hide Flush, OnSwitchUp, OnSwitchDown, OnPacketIn, OnFlowAdd, ResetAlerts, ReportSilent, Clean;
    match op
    case HeartbeatCheck(pids) => ReportSilentQuiet(k, n, now, pids, |pids|);
    case Tick => FlushQuiet(k, n.agent, now, Heartbeat);
    case SwitchJoins(dpid) => SwitchQuiet(k, n.agent, now, dpid);
    case SwitchLeaves(dpid) => SwitchQuiet(k, n.agent, now, dpid);
    case Packet(dpid, src, port) => OnPacketInQuiet(k, n.agent, now, dpid, src, port);
    case Flow(dpid, priority) => OnFlowAddQuiet(k, n.agent, now, dpid, priority);
    case Reset => ResetQuiet(k, n.agent, now);
  }

  // ---------------------------------------------------------------- consensus inside a delivery

  predicate AllAnswered(peers: Dict<string>) {
    forall pid :: pid in peers.at ==> peers.at[pid] != ""
  }

  lemma BoostClean(s: Agent, pid: string)
    requires Clean(s)
    ensures Clean(Judge(s, pid, Boost))
  {
  }

  lemma {:induction false} PollPeersClean(k: Keys, s: Agent, now: real, peers: Dict<string>, n: nat)
    requires n <= |peers.order| && AllAnswered(peers) && Clean(s)
    ensures Clean(PollPeers(k, s, now, peers, n).agent)
  {
    hide Raise, Judge, Clean;
    if n > 0 {
      PollPeersClean(k, s, now, peers, n - 1);
      assert peers.order[n - 1] in peers.order;
      BoostClean(PollPeers(k, s, now, peers, n - 1).agent, peers.order[n - 1]);
    }
  }

  lemma {:induction false} ScanTrustIdle(k: Keys, p: Poll, now: real, trust: Dict<int>, n: nat)
    requires n <= |trust.order|
    requires forall pid :: pid in trust.at ==> trust.at[pid] == FULL_TRUST
    ensures ScanTrust(k, p, now, trust, n) == p
  {
    hide Raise;
    if n > 0 {
      ScanTrustIdle(k, p, now, trust, n - 1);
      assert trust.order[n - 1] in trust.order;
    }
  }

  lemma ConsensusClean(k: Keys, s: Agent, now: real, peers: Dict<string>)
    requires AllAnswered(peers) && Clean(s)
    ensures Clean(Consensus(k, s, now, peers).0)
  {
    hide Raise, PollPeers, ScanTrust, Accepted;
    var p := PollPeers(k, s, now, peers, |peers.order|);
    PollPeersClean(k, s, now, peers, |peers.order|);
    PollPeersGrows(k, s, now, peers, |peers.order|);
    RaiseQuiet(k, p.agent, now, HashMismatch, s.cid, HIGH);
    ScanTrustIdle(k, p, now, p.agent.trust, |p.agent.trust.order|);
  }

  lemma {:induction false} NobodySilent(peers: Dict<string>, n: nat)
    requires AllAnswered(peers) && n <= |peers.order|
    ensures Having(peers, n, true) == []
  {
    if n > 0 {
      assert peers.order[n - 1] in peers.order;
      NobodySilent(peers, n - 1);
    }
  }

  /** Every consensus run started by a delivery counts all recorded peers as healthy, so its
      outcome says nothing but whether the local chain verifies: the branch that penalises silent
      peers is never taken from there. */
  lemma ConsensusIsLocalCheck(k: Keys, n: Node, now: real, m: Message)
    requires Complete(m) && AllAnswered(n.peerHashes)
    ensures var hashes, s := Put(n.peerHashes, m.cid, m.hash), VerifyPeer(k, n.agent, now, m);
      var v := Consensus(k, s, now, hashes).1;
      && AllAnswered(hashes)
      && ((v.Verdict? && v.ok) <==> Accepted(k, s.ledger.blocks))
      && (v.Verdict? ==> v.active == v.total && v.healthy == Having(hashes, |hashes.order|, false))
  {
    hide VerifyPeer, PollPeers, ScanTrust, Accepted, Raise, Having;
    var hashes, s := Put(n.peerHashes, m.cid, m.hash), VerifyPeer(k, n.agent, now, m);
    PollPeersSplits(k, s, now, hashes, |hashes.order|);
    NobodySilent(hashes, |hashes.order|);
    HavingSplits(hashes, |hashes.order|);
  }

  /** A delivery from an honest sender, whether it arrives late, twice or out of order. */
  lemma HonestDelivery(k: Keys, n: Node, now: real, m: Message)
    requires Clean(n.agent) && AllAnswered(n.peerHashes)
    requires Complete(m) && Verifies(m.hash, m.sig, m.cid)
    ensures var n' := Receive(k, n, now, m);
      && Clean(n'.agent) && AllAnswered(n'.peerHashes) && n'.agent.cid == n.agent.cid
      && n.agent.ledger.history <= n'.agent.ledger.history
      && (if Accepts(n.agent, now, m)
          then && n'.agent.lastIdx == n.agent.lastIdx[m.cid := m.idx]
               && n'.peerHashes.at == n.peerHashes.at[m.cid := m.hash]
          else n'.agent.lastIdx == n.agent.lastIdx && n'.peerHashes == n.peerHashes)
  {
    hide Raise, Judge, Consensus, Clean;
    RaiseQuiet(k, n.agent, now, Replay, m.cid, MEDIUM);
    RaiseQuiet(k, n.agent, now, Replay, m.cid, HIGH);
    if Accepts(n.agent, now, m) {
      var s := VerifyPeer(k, n.agent, now, m);
      AcceptedMessageEffect(k, n.agent, now, m);
      AcceptedKeepsClean(k, n.agent, now, m);
      ConsensusClean(k, s, now, Put(n.peerHashes, m.cid, m.hash));
      ConsensusGrows(k, s, now, Put(n.peerHashes, m.cid, m.hash));
    }
  }

  lemma AcceptedKeepsClean(k: Keys, s: Agent, now: real, m: Message)
    requires Accepts(s, now, m) && Clean(s)
    ensures Clean(VerifyPeer(k, s, now, m))
  {
    hide Raise, Judge, Clean;
    var s1 := s.(lastIdx := s.lastIdx[m.cid := m.idx]);
    assert Clean(s1) by {
      SameAlertsClean(s, s1);
    }
    BoostClean(s1, m.cid);
  }

  lemma SameAlertsClean(s: Agent, s': Agent)
    requires Clean(s) && s'.cid == s.cid && s'.trust == s.trust && s'.log.alerts == s.log.alerts
    ensures Clean(s')
  {
  }

  // ---------------------------------------------------------------- runs under arbitrary input

  /** The message counts towards its claimed sender's index: complete and fresh, signed or not. */
  predicate Claims(now: real, op: Op, pid: string) {
    && op.Deliver? && op.m.cid == pid && now - op.m.ts <= 60.0
    && pid != "" && op.m.hash != "" && op.m.sig != NoSignature
  }

  /** The largest index in any such message, or -1. */
  function MaxClaimed(ops: seq<(real, Op)>, pid: string): int {
    if ops == [] then -1
    else
      var (now, op) := ops[|ops| - 1];
      var before := MaxClaimed(ops[..|ops| - 1], pid);
      if Claims(now, op, pid) then Max(before, op.m.idx) else before
  }

  lemma VerifyPeerIndex(k: Keys, s: Agent, now: real, m: Message)
    ensures VerifyPeer(k, s, now, m).lastIdx
            == if now - m.ts <= REPLAY_WINDOW && m.idx >= LastIdx(s, m.cid) then s.lastIdx[m.cid := m.idx]
               else s.lastIdx
  {
    hide Raise;
    RaiseGrows(k, s, now, Replay, m.cid, MEDIUM);
    RaiseGrows(k, s, now, Replay, m.cid, HIGH);
    var s1 := s.(lastIdx := s.lastIdx[m.cid := m.idx]);
    RaiseGrows(k, Judge(s1, m.cid, BadSignature), now, SigInvalid, m.cid, HIGH);
  }

  lemma IndexStep(k: Keys, n: Node, now: real, op: Op, pid: string)
    ensures LastIdx(Apply(k, n, now, op).agent, pid)
            == if Claims(now, op, pid) then Max(LastIdx(n.agent, pid), op.m.idx) else LastIdx(n.agent, pid)
  {
    hide VerifyPeer, Consensus, Flush, ReportSilent, Clean;
    hide OnSwitchUp, OnSwitchDown, OnPacketIn, OnFlowAdd, ResetAlerts;
    match op
    case Deliver(m) =>
      VerifyPeerIndex(k, n.agent, now, m);
      ConsensusGrows(k, VerifyPeer(k, n.agent, now, m), now, Put(n.peerHashes, m.cid, m.hash));
    case RunConsensus(peers) => ConsensusGrows(k, n.agent, now, peers);
    case _ => LocalQuiet(k, n, now, op);
  }

  /** In every run the index held for a peer is the largest one in any complete and fresh message
      that claimed to come from it, whether or not the signature was good. */
  lemma {:induction false} IndexIsMaxClaimed(k: Keys, cid: string, t0: real, ops: seq<(real, Op)>, pid: string)
    ensures LastIdx(Run(k, StartNode(k, cid, t0), ops).agent, pid) == MaxClaimed(ops, pid)
  {
    hide Apply, Claims, LastIdx;
    if ops == [] {
      StartIndex(k, cid, t0, pid);
    } else {
      var n := |ops| - 1;
      IndexIsMaxClaimed(k, cid, t0, ops[..n], pid);
      IndexStep(k, Run(k, StartNode(k, cid, t0), ops[..n]), ops[n].0, ops[n].1, pid);
    }
  }

  lemma StartIndex(k: Keys, cid: string, t0: real, pid: string)
    ensures LastIdx(StartNode(k, cid, t0).agent, pid) == -1
  {
    hide MacCount, Accepted;
  }

  /** After any run a message is accepted exactly when it is fresh, carries its sender's signature,
      and its index is at least every index ever claimed for that sender. */
  lemma AcceptanceLaw(k: Keys, cid: string, t0: real, ops: seq<(real, Op)>, now: real, m: Message)
    ensures Accepts(Run(k, StartNode(k, cid, t0), ops).agent, now, m) <==>
            now - m.ts <= 60.0 && m.sig == Signed(m.cid, m.hash) && m.idx >= MaxClaimed(ops, m.cid)
  {
    hide Run, StartNode, MaxClaimed, LastIdx;
    IndexIsMaxClaimed(k, cid, t0, ops, m.cid);
  }

  lemma {:induction false} ClaimBounds(ops: seq<(real, Op)>, pid: string, i: nat)
    requires i < |ops| && Claims(ops[i].0, ops[i].1, pid)
    ensures ops[i].1.m.idx <= MaxClaimed(ops, pid)
  {
    if i < |ops| - 1 {
      ClaimBounds(ops[..|ops| - 1], pid, i);
    }
  }

  /** So the check meant to stop rollbacks also stops the peer itself: the index is recorded before
      the signature is checked, and one fresh message with a larger index, however signed, makes
      every later message of that peer with a smaller index be refused. */
  lemma ClaimedIndexLocksOut(k: Keys, cid: string, t0: real, ops: seq<(real, Op)>, i: nat, now: real, m: Message)
    requires i < |ops| && Claims(ops[i].0, ops[i].1, m.cid) && m.idx < ops[i].1.m.idx
    ensures !Accepts(Run(k, StartNode(k, cid, t0), ops).agent, now, m)
  {
    hide Run, StartNode, Accepts, Claims;
    ClaimBounds(ops, m.cid, i);
    AcceptanceLaw(k, cid, t0, ops, now, m);
  }

  /** The index recorded for a peer never decreases, whatever arrives and in whatever order. */
  lemma IndexNeverDecreases(k: Keys, n: Node, now: real, op: Op, pid: string)
    ensures LastIdx(n.agent, pid) <= LastIdx(Apply(k, n, now, op).agent, pid)
  {
    hide Apply, Claims, LastIdx;
    IndexStep(k, n, now, op, pid);
  }

  /** Some delivered message carried pid's own signature of this hash. */
  ghost predicate WasSigned(ops: seq<(real, Op)>, pid: string, hash: string) {
    exists i :: 0 <= i < |ops| && DeliversSigned(ops[i].1, pid, hash)
  }

  predicate DeliversSigned(op: Op, pid: string, hash: string) {
    op.Deliver? && op.m.cid == pid && op.m.hash == hash && op.m.sig == Signed(pid, hash)
  }

  /** In every run every recorded peer hash was signed with that peer's key, and none is empty. */
  lemma {:induction false} RecordedHashesWereSigned(k: Keys, start: Node, ops: seq<(real, Op)>, pid: string)
    requires start.peerHashes.at == map[]
    ensures var hashes := Run(k, start, ops).peerHashes.at;
      pid in hashes ==> hashes[pid] != "" && WasSigned(ops, pid, hashes[pid])
  {
    hide VerifyPeer, Consensus, Flush, OnSwitchUp, OnSwitchDown, OnPacketIn, OnFlowAdd, ResetAlerts, ReportSilent;
    if ops != [] {
      var c := |ops| - 1;
      var op, before, after := ops[c].1, Run(k, start, ops[..c]).peerHashes.at, Run(k, start, ops).peerHashes.at;
      RecordedHashesWereSigned(k, start, ops[..c], pid);
      if pid in after {
        if pid in before && before[pid] == after[pid] {
          var i :| 0 <= i < |ops[..c]| && DeliversSigned(ops[..c][i].1, pid, before[pid]);
          assert DeliversSigned(ops[i].1, pid, after[pid]);
        } else {
          assert DeliversSigned(ops[c].1, pid, after[pid]);
        }
      }
    }
  }

  /** In every run, whenever a message is accepted, the consensus run it starts counts every recorded
      peer as responsive, and says ok exactly when the controller's own chain still verifies. */
  lemma EveryGossipConsensus(k: Keys, cid: string, t0: real, ops: seq<(real, Op)>, now: real, m: Message)
    requires Complete(m) && Accepts(Run(k, StartNode(k, cid, t0), ops).agent, now, m)
    ensures var n := Run(k, StartNode(k, cid, t0), ops);
      var hashes := Put(n.peerHashes, m.cid, m.hash);
      var v := Consensus(k, VerifyPeer(k, n.agent, now, m), now, hashes).1;
      var l := n.agent.ledger;
      && Receive(k, n, now, m).agent == Consensus(k, VerifyPeer(k, n.agent, now, m), now, hashes).0
      && l.height == |l.history|
      && ((v.Verdict? && v.ok) <==> Verifiable(l.history, l.height))
      && (v.Verdict? ==> v.ok && v.active == v.total == |hashes.order| + 1)
  {
    hide Run, StartNode, VerifyPeer, Consensus, Accepts, Complete, Put;
    hide Published, Counted, Rising, Scored, Sane;
    var start := StartNode(k, cid, t0);
    var n := Run(k, start, ops);
    RunSound(k, cid, t0, ops);
    StartEmpty(k, cid, t0);
    forall pid | pid in n.peerHashes.at ensures n.peerHashes.at[pid] != "" {
      RecordedHashesWereSigned(k, start, ops, pid);
    }
    ConsensusIsLocalCheck(k, n, now, m);
    AcceptedMessageEffect(k, n.agent, now, m);
    SoundVerifiable(k, n.agent);
    ConsensusTotal(k, VerifyPeer(k, n.agent, now, m), now, Put(n.peerHashes, m.cid, m.hash));
  }

  lemma StartEmpty(k: Keys, cid: string, t0: real)
    ensures StartNode(k, cid, t0).peerHashes.at == map[] && StartNode(k, cid, t0).lastSeen == map[]
  {
  }

  lemma SoundVerifiable(k: Keys, s: Agent)
    requires Sound(k, s)
    ensures s.ledger.height == |s.ledger.history|
    ensures Accepted(k, s.ledger.blocks) <==> Verifiable(s.ledger.history, s.ledger.height)
  {
    hide Counted, Rising, Scored, Sane;
    UntamperedAcceptedIff(k, s.cid, s.ledger);
  }

  lemma ConsensusTotal(k: Keys, s: Agent, now: real, peers: Dict<string>)
    ensures var v := Consensus(k, s, now, peers).1;
      v.Verdict? ==> v.total == |peers.order| + 1 && (v.active == v.total ==> v.ok)
  {
    hide Raise, PollPeers, ScanTrust, Accepted;
  }

  // ---------------------------------------------------------------- silent peers

  /** When the last complete message claiming to come from pid was delivered. */
  function LastDelivery(ops: seq<(real, Op)>, pid: string): Option<real> {
    if ops == [] then None
    else
      var (now, op) := ops[|ops| - 1];
      if op.Deliver? && op.m.cid == pid != "" && op.m.hash != "" && op.m.sig != NoSignature then Some(now)
      else LastDelivery(ops[..|ops| - 1], pid)
  }

  lemma {:induction false} LastSeenIsLastDelivery(k: Keys, start: Node, ops: seq<(real, Op)>, pid: string)
    requires start.lastSeen == map[]
    ensures var seen := Run(k, start, ops).lastSeen;
      LastDelivery(ops, pid) == if pid in seen then Some(seen[pid]) else None
    ensures Run(k, start, ops).started == start.started
  {
    hide Apply;
    if ops != [] {
      var c := |ops| - 1;
      LastSeenIsLastDelivery(k, start, ops[..c], pid);
      SeenStep(k, Run(k, start, ops[..c]), ops[c].0, ops[c].1);
    }
  }

  lemma SeenStep(k: Keys, n: Node, now: real, op: Op)
    ensures var n' := Apply(k, n, now, op);
      && n'.started == n.started
      && n'.lastSeen == if op.Deliver? && Complete(op.m) then n.lastSeen[op.m.cid := now] else n.lastSeen
  {
    hide VerifyPeer, Consensus, Accepts, ReportSilent, Flush, Complete;
    hide OnSwitchUp, OnSwitchDown, OnPacketIn, OnFlowAdd, ResetAlerts;
  }

  /** The peers, in order, whose last delivery is more than 30 s old. */
  function Overdue(ops: seq<(real, Op)>, now: real, pids: seq<string>): seq<string> {
    if pids == [] then []
    else
      var last := LastDelivery(ops, pids[|pids| - 1]);
      Overdue(ops, now, pids[..|pids| - 1])
      + if last.Some? && last.value > 0.0 && now - last.value > 30.0 then [pids[|pids| - 1]] else []
  }

  lemma {:induction false} ReportSilentReports(k: Keys, n: Node, ops: seq<(real, Op)>, now: real,
                                               pids: seq<string>, c: nat)
    requires c <= |pids|
    requires forall pid :: LastDelivery(ops, pid) == if pid in n.lastSeen then Some(n.lastSeen[pid]) else None
    ensures var s := ReportSilent(k, n, now, pids, c);
      && Gains(n.agent, s, About(Overdue(ops, now, pids[..c]), CtrlOffline, Graded(n.agent.t0, now), now, n.agent.cid),
               [], [])
      && SameTraffic(n.agent, s) && s.lastIdx == n.agent.lastIdx && s.trust == n.agent.trust
  {
    hide Raise, LastDelivery, Gains, About, Graded, ShownLast;
    if c == 0 {
      AboutNobody(CtrlOffline, Graded(n.agent.t0, now), now, n.agent.cid);
      NoGains(n.agent, n.agent);
    } else {
      ReportSilentReports(k, n, ops, now, pids, c - 1);
      var sofar, pid := ReportSilent(k, n, now, pids, c - 1), pids[c - 1];
      var sev, cid := Graded(n.agent.t0, now), n.agent.cid;
      var earlier := Overdue(ops, now, pids[..c - 1]);
      assert pids[..c][..c - 1] == pids[..c - 1];
      RaiseGains(k, sofar, now, CtrlOffline, pid, HIGH);
      var alert := Alert(CtrlOffline, pid, sev, now, cid);
      if Silent(n, now, pid) {
        GainsThen(n.agent, sofar, Raise(k, sofar, now, CtrlOffline, pid, HIGH),
                  About(earlier, CtrlOffline, sev, now, cid), [alert], [], [], []);
        AboutMore(earlier, pid, CtrlOffline, sev, now, cid);
        assert Overdue(ops, now, pids[..c]) == earlier + [pid];
      } else {
        assert Overdue(ops, now, pids[..c]) == earlier;
      }
    }
  }

  /** In every run a heartbeat check raises, in order, one HIGH alert (MEDIUM in boot grace) about
      each peer that was heard once and from which nothing was delivered for more than 30 s; and
      about nobody in the first 75 s. It changes nothing else. */
  lemma HeartbeatReportsOverdue(k: Keys, cid: string, t0: real, ops: seq<(real, Op)>, now: real, pids: seq<string>)
    ensures var n := Run(k, StartNode(k, cid, t0), ops);
      var n' := Run(k, StartNode(k, cid, t0), ops + [(now, HeartbeatCheck(pids))]);
      && Gains(n.agent, n'.agent,
               About(if now - t0 < 75.0 then [] else Overdue(ops, now, pids), CtrlOffline, Graded(t0, now), now, cid),
               [], [])
      && SameTraffic(n.agent, n'.agent) && n'.agent.lastIdx == n.agent.lastIdx && n'.agent.trust == n.agent.trust
      && n' == n.(agent := n'.agent)
  {
    hide ReportSilent, LastDelivery, Start, Run, Gains, About, Graded;
    var n := Run(k, StartNode(k, cid, t0), ops);
    forall pid ensures LastDelivery(ops, pid) == if pid in n.lastSeen then Some(n.lastSeen[pid]) else None {
      LastSeenIsLastDelivery(k, StartNode(k, cid, t0), ops, pid);
    }
    LastSeenIsLastDelivery(k, StartNode(k, cid, t0), ops, "");
    ReportSilentReports(k, n, ops, now, pids, |pids|);
    assert pids[..|pids|] == pids;
    RunMore(k, StartNode(k, cid, t0), ops, now, HeartbeatCheck(pids));
    RunCounts(k, cid, t0, ops);
    NoGains(n.agent, n.agent);
    AboutNobody(CtrlOffline, Graded(t0, now), now, cid);
  }

  lemma RunMore(k: Keys, n: Node, ops: seq<(real, Op)>, now: real, op: Op)
    ensures Run(k, n, ops + [(now, op)]) == Apply(k, Run(k, n, ops), now, op)
  {
    assert (ops + [(now, op)])[..|ops|] == ops;
  }
}
