/** The controller with its agent and gossip node (controller/ryu_controller.py): what the agent is
    told about the packets the switches hand up, with everything else that reaches it in between. */
module Controller {
  import opened Prelude
  import opened Agent
  import opened AgentEffects
  import opened Gossip
  import opened RunLaws
  import Switch
  import Ewma
  import Rates

  /** `handled` and `installed` count packet-ins and installed flows. */
  datatype Plane = Plane(w: Switch.World, node: Node, handled: nat, installed: nat)

  const FLOW_PRIORITY := 1

  /** What reaches the agent without a packet-in: gossip, consensus, heartbeats, resets. */
  type SideOp = op: Op | !op.SwitchJoins? && !op.Packet? && !op.Flow? witness Tick

  datatype Step = Network(s: Switch.Step) | Side(op: SideOp)

  /** `_pkt_in`, and `_switch_up`. The switch decides alone on a packet that matches a flow. */
  function Handle(k: Keys, c: Plane, now: real, s: Switch.Step): Plane {
    var n := c.node;
    match s
    case Expire(_) => c.(w := Switch.Next(c.w, s))
    case SwitchUp(dpid) =>
      c.(w := Switch.Next(c.w, s), node := n.(agent := OnSwitchUp(k, n.agent, now, dpid)))
    case Arrive(p) =>
      if Switch.MatchOf(p) in c.w.flows || p.dpid !in c.w.up || p.lldp then c.(w := Switch.Next(c.w, s))
      else
        var (w, fate) := Switch.PacketIn(c.w, p);
        var known := fate.value.Out?;
        var agent := if known then OnFlowAdd(k, n.agent, now, p.dpid, FLOW_PRIORITY) else n.agent;
        Plane(w, n.(agent := OnPacketIn(k, agent, now, p.dpid, p.src, p.inPort)), c.handled + 1,
              if known then c.installed + 1 else c.installed)
  }

  function Next(k: Keys, c: Plane, now: real, s: Step): Plane {
    match s
    case Network(s) => Handle(k, c, now, s)
    case Side(op) => c.(node := Apply(k, c.node, now, op))
  }

  function Run(k: Keys, cid: string, t0: real, steps: seq<(real, Step)>): Plane {
    if steps == [] then Plane(Switch.OFFLINE, StartNode(k, cid, t0), 0, 0)
    else
      var n := |steps| - 1;
      Next(k, Run(k, cid, t0, steps[..n]), steps[n].0, steps[n].1)
  }

  /** The agent's picture of the network is the controller's. */
  ghost predicate Mirrors(c: Plane) {
    var s := c.node.agent;
    && (forall d :: Row(s.macTable, d) == Row(c.w.macs, d))
    && s.packets == c.handled && s.flows == c.installed
    && |s.log.packets| == c.handled && |s.log.flows| == c.installed
  }

  /** The agent's counters and its MAC table. */
  predicate SameCounts(s: Agent, s': Agent) {
    && s'.macTable == s.macTable && s'.packets == s.packets && s'.flows == s.flows
    && s'.log.packets == s.log.packets && s'.log.flows == s.log.flows
  }

  lemma SideOpCounts(k: Keys, n: Node, now: real, op: SideOp)
    ensures SameCounts(n.agent, Apply(k, n, now, op).agent)
  {
    hide OnSwitchDown, OnSwitchUp, Gains, ShownLast;
    match op
    case SwitchLeaves(dpid) => SwitchGains(k, n.agent, now, dpid);
    case _ =>
      hide Apply;
      OtherTraffic(k, n, now, op);
  }

  // ---------------------------------------------------------------- every run

  lemma SwitchUpMirrors(k: Keys, c: Plane, now: real, dpid: int)
    requires Mirrors(c)
    ensures Mirrors(Handle(k, c, now, Switch.SwitchUp(dpid)))
  {
    hide OnSwitchUp, OnSwitchDown, Gains, ShownLast;
    var s, c' := c.node.agent, Handle(k, c, now, Switch.SwitchUp(dpid));
    SwitchGains(k, s, now, dpid);
    forall d ensures Row(c'.node.agent.macTable, d) == Row(c.w.macs, d) {
      assert Row(s.macTable, d) == Row(c.w.macs, d);
    }
  }

  lemma PacketInMirrors(k: Keys, c: Plane, now: real, p: Switch.Packet)
    requires Mirrors(c) && Switch.MatchOf(p) !in c.w.flows && p.dpid in c.w.up && !p.lldp
    ensures Mirrors(Handle(k, c, now, Switch.Arrive(p)))
  {
    hide OnPacketIn, OnFlowAdd, Rates.Recent, Gains, Ewma.Known, Ewma.Feed, Ewma.Score;
    var s := c.node.agent;
    FlowGains(k, s, now, p.dpid, FLOW_PRIORITY);
    var known := Switch.PacketIn(c.w, p).1.value.Out?;
    var agent := if known then OnFlowAdd(k, s, now, p.dpid, FLOW_PRIORITY) else s;
    PacketGains(k, agent, now, p.dpid, p.src, p.inPort);
    var c' := Handle(k, c, now, Switch.Arrive(p));
    assert agent.macTable == s.macTable;
    forall d ensures Row(c'.node.agent.macTable, d) == Row(c'.w.macs, d) {
      assert Row(s.macTable, d) == Row(c.w.macs, d);
    }
  }

  lemma HandleMirrors(k: Keys, c: Plane, now: real, s: Switch.Step)
    requires Mirrors(c)
    ensures Mirrors(Handle(k, c, now, s))
  {
    match s
    case Expire(_) =>
    case SwitchUp(dpid) => SwitchUpMirrors(k, c, now, dpid);
    case Arrive(p) =>
      if Switch.MatchOf(p) !in c.w.flows && p.dpid in c.w.up && !p.lldp {
        PacketInMirrors(k, c, now, p);
      } else {
        hide OnPacketIn, OnFlowAdd, Mirrors;
        assert Switch.Next(c.w, s).macs == c.w.macs;
        SameMirrors(c, Handle(k, c, now, s));
      }
  }

  lemma SameMirrors(c: Plane, c': Plane)
    requires Mirrors(c) && SameCounts(c.node.agent, c'.node.agent) && c'.w.macs == c.w.macs
    requires c'.handled == c.handled && c'.installed == c.installed
    ensures Mirrors(c')
  {
  }

  /** Whatever traffic, gossip, heartbeats and resets come, in any order: the agent's MAC table has
      the controller's rows, and its packet and flow counters are the numbers of packet-ins handled
      and flows installed. */
  lemma {:induction false} AgentMirrorsController(k: Keys, cid: string, t0: real, steps: seq<(real, Step)>)
    ensures Mirrors(Run(k, cid, t0, steps))
  {
    hide Handle, Apply, Mirrors, SameCounts;
    if steps == [] {
      StartMirrors(k, cid, t0);
    } else {
      var n := |steps| - 1;
      AgentMirrorsController(k, cid, t0, steps[..n]);
      var c, now := Run(k, cid, t0, steps[..n]), steps[n].0;
      match steps[n].1
      case Network(s) => HandleMirrors(k, c, now, s);
      case Side(op) =>
        SideOpCounts(k, c.node, now, op);
        SameMirrors(c, Next(k, c, now, Side(op)));
    }
  }

  lemma StartMirrors(k: Keys, cid: string, t0: real)
    ensures Mirrors(Plane(Switch.OFFLINE, StartNode(k, cid, t0), 0, 0))
  {
    hide Start;
    StartGains(k, cid, t0);
  }

  // ---------------------------------------------------------------- what the agent is told

  /** What the switches do. */
  function NetworkSteps(steps: seq<(real, Step)>): seq<Switch.Step> {
    if steps == [] then []
    else
      var s := steps[|steps| - 1].1;
      NetworkSteps(steps[..|steps| - 1]) + if s.Network? then [s.s] else []
  }

  /** What the agent is told of the last step of the switches: that a switch has come up; and of a
      packet that reached the controller, first the flow, with priority 1, if its destination had
      been seen at that switch, and then the packet with its source and port. */
  function Told(now: real, steps: seq<Switch.Step>): seq<(real, Op)>
    requires steps != []
  {
    match steps[|steps| - 1]
    case Expire(_) => []
    case SwitchUp(dpid) => [(now, SwitchJoins(dpid))]
    case Arrive(p) =>
      if !Switch.LastHandled(steps) then []
      else
        (if Switch.LastPort(steps, p.dpid, p.dst).Some? then [(now, Flow(p.dpid, 1))] else [])
        + [(now, Packet(p.dpid, p.src, p.inPort))]
  }

  function AgentOps(steps: seq<(real, Step)>): seq<(real, Op)> {
    if steps == [] then []
    else
      var (now, s) := steps[|steps| - 1];
      var before := steps[..|steps| - 1];
      AgentOps(before) + match s
                         case Network(_) => Told(now, NetworkSteps(steps))
                         case Side(op) => [(now, op)]
  }

  lemma NetworkStep(k: Keys, c: Plane, now: real, cid: string, t0: real, ops: seq<(real, Op)>, steps: seq<Switch.Step>)
    requires steps != [] && c.w == Switch.Run(steps[..|steps| - 1]) && c.node == After(k, cid, t0, ops)
    ensures Handle(k, c, now, steps[|steps| - 1]).w == Switch.Run(steps)
    ensures Handle(k, c, now, steps[|steps| - 1]).node == After(k, cid, t0, ops + Told(now, steps))
  {
    hide *;
    if Switch.LastHandled(steps) {
      HandledTold(k, c, now, cid, t0, ops, steps);
    } else if steps[|steps| - 1].SwitchUp? {
      SwitchUpTold(k, c, now, cid, t0, ops, steps);
    } else {
      NothingTold(k, c, now, cid, t0, ops, steps);
    }
  }

  lemma NothingTold(k: Keys, c: Plane, now: real, cid: string, t0: real, ops: seq<(real, Op)>, steps: seq<Switch.Step>)
    requires steps != [] && c.w == Switch.Run(steps[..|steps| - 1]) && c.node == After(k, cid, t0, ops)
    requires !Switch.LastHandled(steps) && !steps[|steps| - 1].SwitchUp?
    ensures Handle(k, c, now, steps[|steps| - 1]).w == Switch.Run(steps)
    ensures Handle(k, c, now, steps[|steps| - 1]).node == After(k, cid, t0, ops + Told(now, steps))
  {
    hide OnPacketIn, OnFlowAdd, OnSwitchUp, After;
    assert Told(now, steps) == [];
    assert ops + [] == ops;
  }

  lemma SwitchUpTold(k: Keys, c: Plane, now: real, cid: string, t0: real, ops: seq<(real, Op)>, steps: seq<Switch.Step>)
    requires steps != [] && c.w == Switch.Run(steps[..|steps| - 1]) && c.node == After(k, cid, t0, ops)
    requires steps[|steps| - 1].SwitchUp?
    ensures Handle(k, c, now, steps[|steps| - 1]).w == Switch.Run(steps)
    ensures Handle(k, c, now, steps[|steps| - 1]).node == After(k, cid, t0, ops + Told(now, steps))
  {
    hide *;
    var dpid := steps[|steps| - 1].dpid;
    SwitchUpStep(k, c, now, dpid);
    SwitchUpToldOf(now, steps);
    AfterMore(k, cid, t0, ops, now, SwitchJoins(dpid));
  }

  lemma SwitchUpToldOf(now: real, steps: seq<Switch.Step>)
    requires steps != [] && steps[|steps| - 1].SwitchUp?
    ensures Told(now, steps) == [(now, SwitchJoins(steps[|steps| - 1].dpid))]
    ensures Switch.Run(steps) == Switch.Next(Switch.Run(steps[..|steps| - 1]), steps[|steps| - 1])
  {
    hide Switch.LastHandled, Switch.LastPort, Switch.Next;
  }

  lemma SwitchUpStep(k: Keys, c: Plane, now: real, dpid: int)
    ensures var c' := Handle(k, c, now, Switch.SwitchUp(dpid));
      && c'.w == Switch.Next(c.w, Switch.SwitchUp(dpid))
      && c'.node == Apply(k, c.node, now, SwitchJoins(dpid))
  {
    hide OnSwitchUp, OnPacketIn, OnFlowAdd;
  }

  lemma HandledTold(k: Keys, c: Plane, now: real, cid: string, t0: real, ops: seq<(real, Op)>, steps: seq<Switch.Step>)
    requires steps != [] && c.w == Switch.Run(steps[..|steps| - 1]) && c.node == After(k, cid, t0, ops)
    requires Switch.LastHandled(steps)
    ensures Handle(k, c, now, steps[|steps| - 1]).w == Switch.Run(steps)
    ensures Handle(k, c, now, steps[|steps| - 1]).node == After(k, cid, t0, ops + Told(now, steps))
  {
    hide *;
    var p := HandledPacket(steps);
    var flow, packet := Flow(p.dpid, 1), Packet(p.dpid, p.src, p.inPort);
    HandledStep(k, c, now, p);
    Switch.TableIsLastSeen(steps, p.dpid, p.dst);
    ToldOf(now, steps, p);
    if Switch.LastPort(steps, p.dpid, p.dst).Some? {
      ToldTwice(k, cid, t0, ops, now, flow, packet);
    } else {
      AfterMore(k, cid, t0, ops, now, packet);
    }
  }

  lemma HandledPacket(steps: seq<Switch.Step>) returns (p: Switch.Packet)
    requires steps != [] && Switch.LastHandled(steps)
    ensures steps[|steps| - 1] == Switch.Arrive(p)
    ensures var w := Switch.Run(steps[..|steps| - 1]);
      && Switch.MatchOf(p) !in w.flows && p.dpid in w.up && !p.lldp
      && Switch.Run(steps) == Switch.Next(w, Switch.Arrive(p))
  {
    p := steps[|steps| - 1].p;
  }

  lemma ToldOf(now: real, steps: seq<Switch.Step>, p: Switch.Packet)
    requires steps != [] && Switch.LastHandled(steps) && steps[|steps| - 1] == Switch.Arrive(p)
    ensures var flow, packet := Flow(p.dpid, 1), Packet(p.dpid, p.src, p.inPort);
      Told(now, steps) == if Switch.LastPort(steps, p.dpid, p.dst).Some? then [(now, flow), (now, packet)]
                          else [(now, packet)]
  {
  }

  lemma HandledStep(k: Keys, c: Plane, now: real, p: Switch.Packet)
    requires Switch.MatchOf(p) !in c.w.flows && p.dpid in c.w.up && !p.lldp
    ensures var c' := Handle(k, c, now, Switch.Arrive(p));
      && c'.w == Switch.Next(c.w, Switch.Arrive(p))
      && var flow, packet := Flow(p.dpid, 1), Packet(p.dpid, p.src, p.inPort);
         c'.node == Apply(k, if p.dst in Row(c'.w.macs, p.dpid) then Apply(k, c.node, now, flow) else c.node, now,
                          packet)
  {
    hide OnPacketIn, OnFlowAdd;
  }

  lemma ToldTwice(k: Keys, cid: string, t0: real, ops: seq<(real, Op)>, now: real, a: Op, b: Op)
    ensures After(k, cid, t0, ops + [(now, a), (now, b)]) == Apply(k, Apply(k, After(k, cid, t0, ops), now, a), now, b)
  {
    hide Apply, Gossip.Run, StartNode;
    AfterMore(k, cid, t0, ops, now, a);
    AfterMore(k, cid, t0, ops + [(now, a)], now, b);
    assert ops + [(now, a)] + [(now, b)] == ops + [(now, a), (now, b)];
  }

  /** The agent inside the controller is in the state that the run of these reports, and of whatever
      else reached it in between, brings an agent to. So every law about runs of an agent holds of
      it, with the packets and flows that the controller handled. */
  lemma {:induction false} AgentSeesTraffic(k: Keys, cid: string, t0: real, steps: seq<(real, Step)>)
    ensures var c := Run(k, cid, t0, steps);
      c.w == Switch.Run(NetworkSteps(steps)) && c.node == After(k, cid, t0, AgentOps(steps))
  {
    hide Handle, Apply, StartNode, Told, Switch.Next;
    if steps != [] {
      var n := |steps| - 1;
      var c, now := Run(k, cid, t0, steps[..n]), steps[n].0;
      AgentSeesTraffic(k, cid, t0, steps[..n]);
      match steps[n].1
      case Network(s) =>
        var net := NetworkSteps(steps);
        assert net[..|net| - 1] == NetworkSteps(steps[..n]) && net[|net| - 1] == s;
        NetworkStep(k, c, now, cid, t0, AgentOps(steps[..n]), net);
      case Side(op) =>
        assert NetworkSteps(steps[..n]) + [] == NetworkSteps(steps[..n]);
        AfterMore(k, cid, t0, AgentOps(steps[..n]), now, op);
    }
  }
}
