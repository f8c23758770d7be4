/** The gossip protocol of N controllers as a transition system. A controller may put its signed
    state on the network at any time; the network may drop, duplicate, delay and reorder what it
    carries. Steps are atomic and controllers do not restart. */
module Protocol {
  import opened Prelude
  import opened Chain
  import opened Trust
  import opened Agent
  import opened AgentLaws
  import opened AgentDecisions
  import opened AgentEffects
  import opened Gossip
  import opened RunLaws

  /** `net` is every message ever sent; delivering one does not remove it. */
  datatype System = System(nodes: map<string, Node>, net: set<Message>)

  datatype Step =
    | Send(from: string, now: real)
    | Act(at: string, now: real, op: Op)
    | Inject(m: Message)

  /** The head controller j's chain had when it was i blocks high. */
  function HeadOf(n: Node, i: nat): string
    requires i <= |n.agent.ledger.history|
  {
    PrevAt(n.agent.ledger.history, i)
  }

  /** The hash was the head of this controller's chain at some time. */
  ghost predicate EverHead(n: Node, hash: string) {
    exists i: nat :: i <= |n.agent.ledger.history| && HeadOf(n, i) == hash
  }

  /** Consensus runs only inside deliveries, and nobody pushes to itself. */
  predicate Honest(y: System, s: Step) {
    match s
    case Send(from, _) => from in y.nodes
    case Act(at, _, op) =>
      at in y.nodes && !op.RunConsensus? && (op.Deliver? ==> op.m in y.net && op.m.cid != at)
    case Inject(_) => false
  }

  /** Signatures by controllers are on hashes their chains have had as heads. */
  ghost predicate Unforged(y: System, m: Message) {
    m.sig.Signed? && m.sig.signer in y.nodes ==> EverHead(y.nodes[m.sig.signer], m.sig.data)
  }

  /** An intruder may also put any message on the network, except signatures by a controller's key
      on something that controller never signed. */
  ghost predicate Possible(y: System, s: Step) {
    match s
    case Inject(m) => Unforged(y, m)
    case Act(at, _, op) => at in y.nodes && (op.Deliver? ==> op.m in y.net)
    case Send(from, _) => from in y.nodes
  }

  function Next(k: Keys, y: System, s: Step): System {
    match s
    case Send(from, now) =>
      if from in y.nodes then y.(net := y.net + {SignedState(y.nodes[from].agent, now)}) else y
    case Act(at, now, op) =>
      if at in y.nodes then y.(nodes := y.nodes[at := Apply(k, y.nodes[at], now, op)]) else y
    case Inject(m) => y.(net := y.net + {m})
  }

  predicate Initial(k: Keys, y: System) {
    && y.net == {}
    && forall c :: c in y.nodes ==> y.nodes[c] == StartNode(k, c, y.nodes[c].started)
  }

  ghost predicate Allowed(y: System, s: Step, honest: bool) {
    if honest then Honest(y, s) else Possible(y, s)
  }

  ghost predicate StepOk(k: Keys, y: System, s: Step, y': System, honest: bool) {
    Allowed(y, s, honest) && y' == Next(k, y, s)
  }

  /** A run: a sequence of systems, each the result of an allowed step. */
  ghost predicate IsRun(k: Keys, ys: seq<System>, steps: seq<Step>, honest: bool) {
    && |ys| == |steps| + 1
    && Initial(k, ys[0])
    && forall i :: 0 <= i < |steps| ==> StepOk(k, ys[i], steps[i], ys[i + 1], honest)
  }

  // ---------------------------------------------------------------- honest runs

  /** The message is the signed state its sender had at some time. */
  predicate Truthful(y: System, m: Message) {
    && m.cid in y.nodes
    && 0 <= m.idx <= |y.nodes[m.cid].agent.ledger.history|
    && m.hash == HeadOf(y.nodes[m.cid], m.idx)
    && m.sig == Signed(m.cid, m.hash)
    && m.hash != ""
  }

  /** What node a has recorded about node b is b's head at the recorded height. */
  predicate Knows(y: System, a: string, b: string)
    requires a in y.nodes
  {
    var n := y.nodes[a];
    b in n.peerHashes.at ==>
      && b in y.nodes && b in n.agent.lastIdx
      && 0 <= n.agent.lastIdx[b] <= |y.nodes[b].agent.ledger.history|
      && n.peerHashes.at[b] == HeadOf(y.nodes[b], n.agent.lastIdx[b])
      && n.peerHashes.at[b] != ""
  }

  ghost predicate NodeOk(k: Keys, c: string, n: Node) {
    && n.agent.cid == c
    && Sound(k, n.agent)
    && Clean(n.agent)
  }

  ghost predicate Consistent(k: Keys, y: System) {
    && (forall c :: c in y.nodes ==> NodeOk(k, c, y.nodes[c]))
    && (forall m :: m in y.net ==> Truthful(y, m))
    && (forall a, b :: a in y.nodes ==> Knows(y, a, b))
  }

  lemma HeadStable(n: Node, n': Node, i: nat)
    requires i <= |n.agent.ledger.history| && n.agent.ledger.history <= n'.agent.ledger.history
    ensures HeadOf(n', i) == HeadOf(n, i)
  {
  }

  lemma TruthfulStable(y: System, at: string, n': Node, m: Message)
    requires at in y.nodes && y.nodes[at].agent.ledger.history <= n'.agent.ledger.history && Truthful(y, m)
    ensures Truthful(y.(nodes := y.nodes[at := n']), m)
  {
    if m.cid == at {
      HeadStable(y.nodes[at], n', m.idx);
    }
  }

  lemma KnowsStable(y: System, at: string, n': Node, a: string, b: string)
    requires at in y.nodes && y.nodes[at].agent.ledger.history <= n'.agent.ledger.history
    requires a in y.nodes && Knows(y, a, b)
    requires a == at ==> n'.peerHashes.at == y.nodes[a].peerHashes.at && n'.agent.lastIdx == y.nodes[a].agent.lastIdx
    ensures Knows(y.(nodes := y.nodes[at := n']), a, b)
  {
    if b in y.nodes[a].peerHashes.at && b == at {
      HeadStable(y.nodes[at], n', y.nodes[a].agent.lastIdx[b]);
    }
  }

  /** A node whose chain grew and whose own knowledge is right keeps the system consistent. */
  lemma NodeMoves(k: Keys, y: System, at: string, n': Node, y': System)
    requires Consistent(k, y) && at in y.nodes && y' == y.(nodes := y.nodes[at := n'])
    requires NodeOk(k, at, n') && y.nodes[at].agent.ledger.history <= n'.agent.ledger.history
    requires forall b :: Knows(y', at, b)
    ensures Consistent(k, y')
  {
    hide NodeOk, Truthful, Knows;
    forall m | m in y'.net ensures Truthful(y', m) {
      TruthfulStable(y, at, n', m);
    }
    forall a, b | a in y'.nodes ensures Knows(y', a, b) {
      if a != at {
        KnowsStable(y, at, n', a, b);
      }
    }
  }

  lemma LocalStep(k: Keys, y: System, at: string, now: real, op: Op)
    requires Consistent(k, y) && at in y.nodes && !op.Deliver? && !op.RunConsensus?
    ensures Consistent(k, y.(nodes := y.nodes[at := Apply(k, y.nodes[at], now, op)]))
  {
    hide Apply, Sound, Clean, Knows, Truthful;
    var n := y.nodes[at];
    var y' := y.(nodes := y.nodes[at := Apply(k, n, now, op)]);
    LocalQuiet(k, n, now, op);
    ApplySound(k, n, now, op);
    forall b ensures Knows(y', at, b) {
      KnowsStable(y, at, Apply(k, n, now, op), at, b);
    }
    NodeMoves(k, y, at, Apply(k, n, now, op), y');
  }

  lemma RecordedAnswered(k: Keys, y: System, a: string)
    requires Consistent(k, y) && a in y.nodes
    ensures AllAnswered(y.nodes[a].peerHashes)
  {
    forall b | b in y.nodes[a].peerHashes.at ensures y.nodes[a].peerHashes.at[b] != "" {
      assert Knows(y, a, b);
    }
  }

  lemma DeliveryStep(k: Keys, y: System, at: string, now: real, m: Message)
    requires Consistent(k, y) && at in y.nodes && m in y.net && m.cid != at
    ensures Consistent(k, y.(nodes := y.nodes[at := Receive(k, y.nodes[at], now, m)]))
  {
    hide Receive, Sound, Clean, Accepts;
    var n, n' := y.nodes[at], Receive(k, y.nodes[at], now, m);
    var y' := y.(nodes := y.nodes[at := n']);
    assert Truthful(y, m);
    if Complete(m) {
      RecordedAnswered(k, y, at);
      HonestDelivery(k, n, now, m);
      ReceiveSound(k, n, now, m);
      forall b ensures Knows(y', at, b) {
        assert Knows(y, at, b);
        if !Accepts(n.agent, now, m) {
          KnowsStable(y, at, n', at, b);
        } else if b != m.cid {
          KnowsOthers(y, at, n', m, b);
        }
      }
      NodeMoves(k, y, at, n', y');
    } else {
      IncompleteIgnored(k, y, at, now, m);
    }
  }

  lemma IncompleteIgnored(k: Keys, y: System, at: string, now: real, m: Message)
    requires at in y.nodes && !Complete(m)
    ensures y.(nodes := y.nodes[at := Receive(k, y.nodes[at], now, m)]) == y
  {
    assert y.nodes[at := y.nodes[at]] == y.nodes;
  }

  lemma KnowsOthers(y: System, at: string, n': Node, m: Message, b: string)
    requires at in y.nodes && y.nodes[at].agent.ledger.history <= n'.agent.ledger.history
    requires Knows(y, at, b) && b != m.cid
    requires n'.peerHashes.at == y.nodes[at].peerHashes.at[m.cid := m.hash]
    requires n'.agent.lastIdx == y.nodes[at].agent.lastIdx[m.cid := m.idx]
    ensures Knows(y.(nodes := y.nodes[at := n']), at, b)
  {
    if b in y.nodes[at].peerHashes.at && b == at {
      HeadStable(y.nodes[at], n', y.nodes[at].agent.lastIdx[b]);
    }
  }

  lemma HeadNotEmpty(k: Keys, n: Node, i: nat)
    requires Accepted(k, n.agent.ledger.history) && i <= |n.agent.ledger.history|
    ensures HeadOf(n, i) != ""
  {
    if i > 0 {
      assert Good(k, n.agent.ledger.history, i - 1);
    }
  }

  lemma SendStep(k: Keys, y: System, from: string, now: real)
    requires Consistent(k, y) && from in y.nodes
    ensures Consistent(k, y.(net := y.net + {SignedState(y.nodes[from].agent, now)}))
  {
    hide Counted, Rising, Scored, Sane, Clean;
    var n := y.nodes[from];
    assert NodeOk(k, from, n);
    var m := SignedState(n.agent, now);
    var y' := y.(net := y.net + {m});
    HeadNotEmpty(k, n, n.agent.ledger.height);
    forall x | x in y'.net ensures Truthful(y', x) {
      assert x != m ==> Truthful(y, x);
    }
    forall a, b | a in y'.nodes ensures Knows(y', a, b) {
      assert Knows(y, a, b);
    }
  }

  lemma StepConsistent(k: Keys, y: System, s: Step)
    requires Consistent(k, y) && Honest(y, s)
    ensures Consistent(k, Next(k, y, s))
  {
    hide Consistent, Receive;
    match s
    case Send(from, now) => SendStep(k, y, from, now);
    case Act(at, now, op) =>
      if op.Deliver? {
        DeliveryStep(k, y, at, now, op.m);
      } else {
        LocalStep(k, y, at, now, op);
      }
    case Inject(m) =>
  }

  lemma InitialConsistent(k: Keys, y: System)
    requires Initial(k, y)
    ensures Consistent(k, y)
  {
    hide Start, Sound;
    forall c | c in y.nodes ensures NodeOk(k, c, y.nodes[c]) {
      StartSound(k, c, y.nodes[c].started);
      StartClean(k, c, y.nodes[c].started);
    }
  }

  lemma StartClean(k: Keys, cid: string, t0: real)
    ensures Clean(Start(k, cid, t0)) && Start(k, cid, t0).cid == cid
  {
    hide MacCount, Accepted;
  }

  /** In every run of honest controllers, whatever the network drops, duplicates, delays or
      reorders, and although receiving itself adds blocks: what each node has recorded about a peer
      is the head of that peer's chain at the recorded height, which the peer's chain has reached;
      every known peer has full trust; and nobody was accused of a bad signature or of low trust. */
  lemma {:induction false} HonestRunsConsistent(k: Keys, ys: seq<System>, steps: seq<Step>, i: nat)
    requires IsRun(k, ys, steps, true) && i < |ys|
    ensures Consistent(k, ys[i])
  {
    hide Consistent, Next;
    if i == 0 {
      InitialConsistent(k, ys[0]);
    } else {
      HonestRunsConsistent(k, ys, steps, i - 1);
      assert StepOk(k, ys[i - 1], steps[i - 1], ys[i], true);
      StepConsistent(k, ys[i - 1], steps[i - 1]);
    }
  }

  /** Two nodes that have recorded the same height of a third one's chain have recorded the same
      hash, and everybody a node knows has full trust. */
  lemma HonestNodesAgree(k: Keys, ys: seq<System>, steps: seq<Step>, i: nat, a: string, b: string, c: string)
    requires IsRun(k, ys, steps, true) && i < |ys| && a in ys[i].nodes && b in ys[i].nodes
    requires c in ys[i].nodes[a].peerHashes.at && c in ys[i].nodes[b].peerHashes.at
    requires LastIdx(ys[i].nodes[a].agent, c) == LastIdx(ys[i].nodes[b].agent, c)
    ensures ys[i].nodes[a].peerHashes.at[c] == ys[i].nodes[b].peerHashes.at[c]
    ensures Lookup(ys[i].nodes[a].agent.trust, c, 100) == 100
  {
    hide Sound, Next;
    HonestRunsConsistent(k, ys, steps, i);
    assert Knows(ys[i], a, c) && Knows(ys[i], b, c);
    assert NodeOk(k, a, ys[i].nodes[a]);
  }

  // ---------------------------------------------------------------- timely messages

  /** What happened at one controller. */
  function OpsAt(steps: seq<Step>, a: string): seq<(real, Op)> {
    if steps == [] then []
    else
      var s := steps[|steps| - 1];
      OpsAt(steps[..|steps| - 1], a) + if s.Act? && s.at == a then [(s.now, s.op)] else []
  }

  /** Each node is in the state that the steps at it alone have brought it to. */
  lemma {:induction false} NodeIsRun(k: Keys, ys: seq<System>, steps: seq<Step>, honest: bool, i: nat, a: string)
    requires IsRun(k, ys, steps, honest) && i < |ys| && a in ys[0].nodes
    ensures a in ys[i].nodes
    ensures ys[i].nodes[a] == After(k, a, ys[0].nodes[a].started, OpsAt(steps[..i], a))
  {
    hide Apply, Allowed, StartNode, SignedState;
    if i > 0 {
      NodeIsRun(k, ys, steps, honest, i - 1, a);
      assert StepOk(k, ys[i - 1], steps[i - 1], ys[i], honest);
      assert steps[..i][..i - 1] == steps[..i - 1] && steps[..i][i - 1] == steps[i - 1];
      assert OpsAt(steps[..i - 1], a) + [] == OpsAt(steps[..i - 1], a);
      var s := steps[i - 1];
      if s.Act? && s.at == a {
        AfterMore(k, a, ys[0].nodes[a].started, OpsAt(steps[..i - 1], a), s.now, s.op);
      }
    }
  }

  lemma {:induction false} SameNodes(k: Keys, ys: seq<System>, steps: seq<Step>, honest: bool, i: nat)
    requires IsRun(k, ys, steps, honest) && i < |ys|
    ensures ys[i].nodes.Keys == ys[0].nodes.Keys
  {
    hide Apply, Allowed, SignedState;
    if i > 0 {
      SameNodes(k, ys, steps, honest, i - 1);
      assert StepOk(k, ys[i - 1], steps[i - 1], ys[i], honest);
    }
  }

  /** Step j put the message on the network: it shows its sender's head and height of that moment,
      signed, and the time of that step. */
  predicate SentBy(ys: seq<System>, steps: seq<Step>, j: nat, m: Message) {
    && j < |steps| && j < |ys| && steps[j].Send? && steps[j].from == m.cid && m.cid in ys[j].nodes
    && m.ts == steps[j].now
    && var l := ys[j].nodes[m.cid].agent.ledger;
       m.idx == l.height && m.hash == l.head && m.sig == Signed(m.cid, l.head)
  }

  /** In every honest run each message on the network was made by an earlier step of its sender. */
  lemma {:induction false} MessageWasSent(k: Keys, ys: seq<System>, steps: seq<Step>, i: nat, m: Message)
    returns (j: nat)
    requires IsRun(k, ys, steps, true) && i < |ys| && m in ys[i].net
    ensures j < i && SentBy(ys, steps, j, m)
  {
    hide Apply, Sound, Clean, Knows, Truthful, StartNode;
    assert i > 0;
    assert StepOk(k, ys[i - 1], steps[i - 1], ys[i], true);
    if m in ys[i - 1].net {
      j := MessageWasSent(k, ys, steps, i - 1, m);
    } else {
      j := i - 1;
      HonestRunsConsistent(k, ys, steps, j);
      assert NodeOk(k, steps[j].from, ys[j].nodes[steps[j].from]);
    }
  }

  /** In every honest run: a delivered message, made by its sender at time t, is accepted exactly when
      it arrives no later than t + 60 and with an index at least that of every message of the same
      sender that was delivered there while fresh. The receiver then holds that head and height.
      (A sender without a name is ignored.) */
  lemma TimelyMessageAccepted(k: Keys, ys: seq<System>, steps: seq<Step>, i: nat) returns (j: nat)
    requires IsRun(k, ys, steps, true) && i < |steps| && steps[i].Act? && steps[i].op.Deliver?
    ensures var a, m := steps[i].at, steps[i].op.m;
      && j < i && SentBy(ys, steps, j, m)
      && a in ys[i].nodes && a in ys[i + 1].nodes
      && var now, best := steps[i].now, MaxClaimed(OpsAt(steps[..i], a), m.cid);
         var timely := m.cid != "" && now <= steps[j].now + 60.0 && m.idx >= best;
         && (Taken(OpsAt(steps[..i], a), now, steps[i].op) <==> timely)
         && (timely ==>
               var n := ys[i + 1].nodes[a];
               && m.cid in n.peerHashes.at && n.peerHashes.at[m.cid] == ys[j].nodes[m.cid].agent.ledger.head
               && LastIdx(n.agent, m.cid) == ys[j].nodes[m.cid].agent.ledger.height)
  {
    hide Sound, Clean, Knows, Receive, MaxClaimed, OpsAt, Run, StartNode, Accepts, LastIdx;
    var a, m, now := steps[i].at, steps[i].op.m, steps[i].now;
    assert StepOk(k, ys[i], steps[i], ys[i + 1], true);
    j := MessageWasSent(k, ys, steps, i, m);
    HonestRunsConsistent(k, ys, steps, i);
    assert Truthful(ys[i], m);
    SameNodes(k, ys, steps, true, i);
    NodeIsRun(k, ys, steps, true, i, a);
    if Taken(OpsAt(steps[..i], a), now, steps[i].op) {
      TakenRecorded(k, a, ys[0].nodes[a].started, OpsAt(steps[..i], a), now, m);
    }
  }

  lemma TakenRecorded(k: Keys, cid: string, t0: real, ops: seq<(real, Op)>, now: real, m: Message)
    requires Taken(ops, now, Deliver(m))
    ensures var n := Apply(k, After(k, cid, t0, ops), now, Deliver(m));
      && m.cid in n.peerHashes.at && n.peerHashes.at[m.cid] == m.hash
      && LastIdx(n.agent, m.cid) == m.idx
  {
    hide Run, StartNode, Taken, VerifyPeer, Consensus, Accepts, MaxClaimed, Gains, ShownLast, Sound;
    var n := After(k, cid, t0, ops);
    TakenIsAccepted(k, cid, t0, ops, now, m);
    AcceptedMessageEffect(k, n.agent, now, m);
    ConsensusGrows(k, VerifyPeer(k, n.agent, now, m), now, Put(n.peerHashes, m.cid, m.hash));
  }

  /** No message delivered so far claims a height its sender has not reached. */
  lemma {:induction false} ClaimsReached(k: Keys, ys: seq<System>, steps: seq<Step>, i: nat, a: string, c: string)
    requires IsRun(k, ys, steps, true) && i < |ys| && a in ys[i].nodes && c in ys[i].nodes
    ensures MaxClaimed(OpsAt(steps[..i], a), c) <= |ys[i].nodes[c].agent.ledger.history|
  {
    hide Apply, Sound, Clean, Knows, StartNode, HeadOf, Complete;
    if i > 0 {
      var y, s := ys[i - 1], steps[i - 1];
      assert StepOk(k, y, s, ys[i], true);
      ClaimsReached(k, ys, steps, i - 1, a, c);
      assert steps[..i][..i - 1] == steps[..i - 1] && steps[..i][i - 1] == s;
      assert OpsAt(steps[..i - 1], a) + [] == OpsAt(steps[..i - 1], a);
      if s.Act? {
        ChainOnlyGrows(k, y.nodes[s.at], s.now, s.op);
      }
      if s.Act? && s.at == a {
        var before := OpsAt(steps[..i - 1], a);
        assert (before + [(s.now, s.op)])[..|before|] == before;
        if s.op.Deliver? {
          HonestRunsConsistent(k, ys, steps, i - 1);
          assert Truthful(y, s.op.m);
        }
      }
    }
  }

  /** So no network can keep the newest state out: a message that still shows its sender's present
      height is accepted whenever it arrives within 60 s, whatever was delivered before. */
  lemma NewestMessageAccepted(k: Keys, ys: seq<System>, steps: seq<Step>, i: nat) returns (j: nat)
    requires IsRun(k, ys, steps, true) && i < |steps| && steps[i].Act? && steps[i].op.Deliver?
    requires steps[i].op.m.cid != ""
    requires steps[i].op.m.cid in ys[i].nodes
    requires steps[i].op.m.idx == ys[i].nodes[steps[i].op.m.cid].agent.ledger.height
    ensures var a, m := steps[i].at, steps[i].op.m;
      && j < i && SentBy(ys, steps, j, m) && a in ys[i + 1].nodes
      && (steps[i].now <= steps[j].now + 60.0 ==>
            var n := ys[i + 1].nodes[a];
            && m.cid in n.peerHashes.at && n.peerHashes.at[m.cid] == m.hash && LastIdx(n.agent, m.cid) == m.idx)
  {
    hide Sound, Clean, Knows, Truthful, Receive, MaxClaimed, OpsAt, Taken, LastIdx, Next;
    var a, c := steps[i].at, steps[i].op.m.cid;
    j := TimelyMessageAccepted(k, ys, steps, i);
    ClaimsReached(k, ys, steps, i, a, c);
    HonestRunsConsistent(k, ys, steps, i);
    assert NodeOk(k, c, ys[i].nodes[c]);
    SoundVerifiable(k, ys[i].nodes[c].agent);
  }

  // ---------------------------------------------------------------- runs with an intruder

  lemma VerifyPeerChain(k: Keys, s: Agent, now: real, m: Message)
    ensures var s' := VerifyPeer(k, s, now, m);
      s'.cid == s.cid && s.ledger.history <= s'.ledger.history
  {
    hide Raise;
    var s1 := s.(lastIdx := s.lastIdx[m.cid := m.idx]);
    RaiseGrows(k, s, now, Replay, m.cid, MEDIUM);
    RaiseGrows(k, s, now, Replay, m.cid, HIGH);
    RaiseGrows(k, Judge(s1, m.cid, BadSignature), now, SigInvalid, m.cid, HIGH);
  }

  lemma ChainOnlyGrows(k: Keys, n: Node, now: real, op: Op)
    ensures var n' := Apply(k, n, now, op);
      n'.agent.cid == n.agent.cid && n.agent.ledger.history <= n'.agent.ledger.history
  {
    hide VerifyPeer, Consensus, Flush, ReportSilent, Clean;
    hide OnSwitchUp, OnSwitchDown, OnPacketIn, OnFlowAdd, ResetAlerts;
    match op
    case Deliver(m) =>
      VerifyPeerChain(k, n.agent, now, m);
      ConsensusGrows(k, VerifyPeer(k, n.agent, now, m), now, Put(n.peerHashes, m.cid, m.hash));
    case RunConsensus(peers) => ConsensusGrows(k, n.agent, now, peers);
    case _ => LocalQuiet(k, n, now, op);
  }

  lemma RecordedAfter(k: Keys, n: Node, now: real, op: Op, b: string)
    ensures var hashes, hashes' := n.peerHashes.at, Apply(k, n, now, op).peerHashes.at;
      b in hashes' ==>
        || (b in hashes && hashes[b] == hashes'[b])
        || (op.Deliver? && op.m.cid == b && op.m.sig == Signed(b, hashes'[b]))
  {
    hide VerifyPeer, Consensus, Flush, OnSwitchUp, OnSwitchDown, OnPacketIn, OnFlowAdd, ResetAlerts, ReportSilent;
  }

  ghost predicate Holds(y: System, a: string, b: string)
    requires a in y.nodes
  {
    b in y.nodes && b in y.nodes[a].peerHashes.at ==> EverHead(y.nodes[b], y.nodes[a].peerHashes.at[b])
  }

  ghost predicate Authentic(k: Keys, y: System) {
    && (forall c :: c in y.nodes ==> y.nodes[c].agent.cid == c && Sound(k, y.nodes[c].agent))
    && (forall m :: m in y.net ==> Unforged(y, m))
    && (forall a, b :: a in y.nodes ==> Holds(y, a, b))
  }

  lemma EverHeadStable(n: Node, n': Node, hash: string)
    requires EverHead(n, hash) && n.agent.ledger.history <= n'.agent.ledger.history
    ensures EverHead(n', hash)
  {
    var i: nat :| i <= |n.agent.ledger.history| && HeadOf(n, i) == hash;
    HeadStable(n, n', i);
  }

  lemma ActAuthentic(k: Keys, y: System, at: string, now: real, op: Op)
    requires Authentic(k, y) && at in y.nodes && (op.Deliver? ==> op.m in y.net)
    ensures Authentic(k, Next(k, y, Act(at, now, op)))
  {
    hide Apply, Sound, Unforged, Holds, Complete;
    var n, n' := y.nodes[at], Apply(k, y.nodes[at], now, op);
    var y' := y.(nodes := y.nodes[at := n']);
    ApplySound(k, n, now, op);
    ChainOnlyGrows(k, n, now, op);
    forall m | m in y'.net ensures Unforged(y', m) {
      assert Unforged(y, m);
      ActUnforged(k, y, at, now, op, m);
    }
    forall a, b | a in y'.nodes ensures Holds(y', a, b) {
      ActHolds(k, y, at, now, op, a, b);
    }
  }

  lemma ActUnforged(k: Keys, y: System, at: string, now: real, op: Op, m: Message)
    requires at in y.nodes && Unforged(y, m)
    ensures Unforged(Next(k, y, Act(at, now, op)), m)
  {
    hide Apply, EverHead;
    if m.sig.Signed? && m.sig.signer == at {
      ChainOnlyGrows(k, y.nodes[at], now, op);
      EverHeadStable(y.nodes[at], Apply(k, y.nodes[at], now, op), m.sig.data);
    }
  }

  lemma ActHolds(k: Keys, y: System, at: string, now: real, op: Op, a: string, b: string)
    requires at in y.nodes && a in y.nodes && (op.Deliver? ==> Unforged(y, op.m)) && Holds(y, a, b)
    ensures Holds(Next(k, y, Act(at, now, op)), a, b)
  {
    hide Apply, EverHead;
    var n, n' := y.nodes[at], Apply(k, y.nodes[at], now, op);
    var y' := y.(nodes := y.nodes[at := n']);
    if b in y'.nodes && b in y'.nodes[a].peerHashes.at {
      var hash := y'.nodes[a].peerHashes.at[b];
      if a == at {
        RecordedAfter(k, n, now, op, b);
      }
      assert EverHead(y.nodes[b], hash);
      if b == at {
        ChainOnlyGrows(k, n, now, op);
        EverHeadStable(n, n', hash);
      }
    }
  }

  lemma MessageAdded(k: Keys, y: System, m: Message)
    requires Authentic(k, y) && Unforged(y, m)
    ensures Authentic(k, y.(net := y.net + {m}))
  {
    hide Sound, EverHead;
    var y' := y.(net := y.net + {m});
    forall x | x in y'.net ensures Unforged(y', x) {
      assert x != m ==> Unforged(y, x);
    }
    forall a, b | a in y'.nodes ensures Holds(y', a, b) {
      assert Holds(y, a, b);
    }
  }

  lemma SentUnforged(k: Keys, y: System, from: string, now: real)
    requires Authentic(k, y) && from in y.nodes
    ensures Unforged(y, SignedState(y.nodes[from].agent, now))
  {
    hide Counted, Rising, Scored, Sane;
    var n := y.nodes[from];
    assert HeadOf(n, n.agent.ledger.height) == n.agent.ledger.head;
  }

  lemma StepAuthentic(k: Keys, y: System, s: Step)
    requires Authentic(k, y) && Possible(y, s)
    ensures Authentic(k, Next(k, y, s))
  {
    hide Apply, Authentic, Sound, EverHead;
    match s
    case Act(at, now, op) =>
      ActAuthentic(k, y, at, now, op);
    case Send(from, now) =>
      SentUnforged(k, y, from, now);
      MessageAdded(k, y, SignedState(y.nodes[from].agent, now));
    case Inject(m) =>
      MessageAdded(k, y, m);
  }

  lemma InitialAuthentic(k: Keys, y: System)
    requires Initial(k, y)
    ensures Authentic(k, y)
  {
    hide Start, Sound;
    forall c | c in y.nodes ensures y.nodes[c].agent.cid == c && Sound(k, y.nodes[c].agent) {
      StartSound(k, c, y.nodes[c].started);
      StartClean(k, c, y.nodes[c].started);
    }
  }

  /** Even with an intruder who replays, rewrites and invents messages but cannot forge a
      controller's signature, the hash a node has recorded about a controller is always one that
      controller's chain really had as its head at some time. */
  lemma {:induction false} RecordedHashesAuthentic(k: Keys, ys: seq<System>, steps: seq<Step>, i: nat)
    requires IsRun(k, ys, steps, false) && i < |ys|
    ensures Authentic(k, ys[i])
  {
    hide Authentic, Next;
    if i == 0 {
      InitialAuthentic(k, ys[0]);
    } else {
      RecordedHashesAuthentic(k, ys, steps, i - 1);
      assert StepOk(k, ys[i - 1], steps[i - 1], ys[i], false);
      StepAuthentic(k, ys[i - 1], steps[i - 1]);
    }
  }

  // ---------------------------------------------------------------- indices over a run

  lemma StepIndices(k: Keys, y: System, s: Step, a: string, b: string)
    requires a in y.nodes
    ensures a in Next(k, y, s).nodes
    ensures LastIdx(y.nodes[a].agent, b) <= LastIdx(Next(k, y, s).nodes[a].agent, b)
  {
    hide Apply, LastIdx;
    if s.Act? {
      IndexNeverDecreases(k, y.nodes[a], s.now, s.op, b);
    }
  }

  /** In every run, honest or not, the index a node holds for a peer never decreases. */
  lemma {:induction false} IndicesGrow(k: Keys, ys: seq<System>, steps: seq<Step>, honest: bool, i: nat, j: nat,
                                       a: string, b: string)
    requires IsRun(k, ys, steps, honest) && i <= j < |ys| && a in ys[i].nodes
    ensures a in ys[j].nodes && LastIdx(ys[i].nodes[a].agent, b) <= LastIdx(ys[j].nodes[a].agent, b)
  {
    hide Next, LastIdx;
    if i < j {
      IndicesGrow(k, ys, steps, honest, i, j - 1, a, b);
      assert StepOk(k, ys[j - 1], steps[j - 1], ys[j], honest);
      StepIndices(k, ys[j - 1], steps[j - 1], a, b);
    }
  }
}
