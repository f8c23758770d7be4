/** The L2 learning switch (controller/ryu_controller.py): the controller's MAC table, and the flow
    entries it installs as a cache of its decisions. Matching and table-miss follow sections 5.3
    and 5.4 of the OpenFlow Switch Specification 1.3; installing an entry replaces the one with the
    same match (section 6.4). */
module Switch {
  import opened Prelude

  datatype Port = Flood | Out(number: int)

  datatype Packet = Packet(dpid: int, inPort: int, src: string, dst: string, lldp: bool)

  /** The match of an installed entry: switch, in_port, eth_dst, eth_src. */
  type Match = (int, int, string, string)

  function MatchOf(p: Packet): Match {
    (p.dpid, p.inPort, p.dst, p.src)
  }

  function Learn(t: MacTable, p: Packet): MacTable {
    t[p.dpid := Row(t, p.dpid)[p.src := p.inPort]]
  }

  function Decide(t: MacTable, p: Packet): Port {
    if p.dst in Row(t, p.dpid) then Out(t[p.dpid][p.dst]) else Flood
  }

  /** Tables of the controller and of the switches. `up` holds the switches with a table-miss entry. */
  datatype World = World(macs: MacTable, flows: map<Match, int>, up: set<int>)

  /** What becomes of a packet: sent out of a port, or dropped. */
  type Fate = Option<Port>

  /** `_pkt_in`. */
  function PacketIn(w: World, p: Packet): (World, Fate) {
    if p.lldp then (w, None)
    else
      var macs := Learn(w.macs, p);
      var port := Decide(macs, p);
      (w.(macs := macs, flows := if port.Out? then w.flows[MatchOf(p) := port.number] else w.flows), Some(port))
  }

  /** A switch with its flow table: a matching entry decides; a table-miss goes to the controller. */
  function Forward(w: World, p: Packet): (World, Fate) {
    if MatchOf(p) in w.flows then (w, Some(Out(w.flows[MatchOf(p)])))
    else if p.dpid in w.up then PacketIn(w, p)
    else (w, None)
  }

  /** The reference: a switch without a flow table, which sends every packet to the controller. */
  function Reference(macs: MacTable, up: set<int>, p: Packet): (MacTable, Fate) {
    if p.dpid !in up || p.lldp then (macs, None)
    else
      var macs' := Learn(macs, p);
      (macs', Some(Decide(macs', p)))
  }

  datatype Step =
    | Arrive(p: Packet)
    | Expire(matches: set<Match>)
    | SwitchUp(dpid: int)

  function Next(w: World, s: Step): World {
    match s
    case Arrive(p) => Forward(w, p).0
    case Expire(matches) => w.(flows := w.flows - matches)
    case SwitchUp(dpid) => w.(up := w.up + {dpid})
  }

  const OFFLINE := World(map[], map[], {})

  function Run(steps: seq<Step>): World {
    if steps == [] then OFFLINE else Next(Run(steps[..|steps| - 1]), steps[|steps| - 1])
  }

  /** The table and the live switches of the reference after the same steps. */
  function ReferenceRun(steps: seq<Step>): (MacTable, set<int>) {
    if steps == [] then (map[], {})
    else
      var (macs, up) := ReferenceRun(steps[..|steps| - 1]);
      match steps[|steps| - 1]
      case Arrive(p) => (Reference(macs, up, p).0, up)
      case Expire(_) => (macs, up)
      case SwitchUp(dpid) => (macs, up + {dpid})
  }

  // ---------------------------------------------------------------- what the table and flows mean

  /** The last step is a packet that reached the controller and was not dropped there. */
  predicate LastHandled(steps: seq<Step>)
    requires steps != []
  {
    var w, s := Run(steps[..|steps| - 1]), steps[|steps| - 1];
    s.Arrive? && !s.p.lldp && s.p.dpid in w.up && MatchOf(s.p) !in w.flows
  }

  /** The port by which the last packet from this address that the controller handled came in. */
  function LastPort(steps: seq<Step>, dpid: int, addr: string): Option<int> {
    if steps == [] then None
    else
      var s := steps[|steps| - 1];
      if LastHandled(steps) && s.p.dpid == dpid && s.p.src == addr then Some(s.p.inPort)
      else LastPort(steps[..|steps| - 1], dpid, addr)
  }

  /** In every run the MAC table says, for each switch and address, where that address was last seen
      as a source by the controller. */
  lemma {:induction false} TableIsLastSeen(steps: seq<Step>, dpid: int, addr: string)
    ensures var row := Row(Run(steps).macs, dpid);
      LastPort(steps, dpid, addr) == if addr in row then Some(row[addr]) else None
  {
    if steps != [] {
      TableIsLastSeen(steps[..|steps| - 1], dpid, addr);
    }
  }

  /** What becomes of a packet after any run. One that matches a flow goes where the flow says; one
      for a switch without table-miss entry, or LLDP without a flow, is dropped; any other goes to
      the port where its destination was last seen, counting this packet itself, and then a flow for
      exactly its switch, port and addresses is installed; or it is flooded, and none is. */
  lemma PacketLaw(steps: seq<Step>, p: Packet)
    ensures var w, w' := Run(steps), Run(steps + [Arrive(p)]);
      var fate, m := Forward(w, p).1, (p.dpid, p.inPort, p.dst, p.src);
      var seen := LastPort(steps + [Arrive(p)], p.dpid, p.dst);
      if m in w.flows then fate == Some(Out(w.flows[m])) && w' == w
      else if p.dpid !in w.up || p.lldp then fate == None && w' == w
      else
        && w'.up == w.up
        && (seen.Some? ==> fate == Some(Out(seen.value)) && w'.flows == w.flows[m := seen.value])
        && (seen.None? ==> fate == Some(Flood) && w'.flows == w.flows)
  {
    hide LastPort;
    var after := steps + [Arrive(p)];
    assert after[..|after| - 1] == steps && after[|after| - 1] == Arrive(p);
    TableIsLastSeen(after, p.dpid, p.dst);
  }

  // ---------------------------------------------------------------- when is the cache right?

  function PacketOf(m: Match): Packet {
    Packet(m.0, m.1, m.3, m.2, false)
  }

  /** The MAC table still has entry m's source and destination where the entry says they are. */
  predicate EntryRight(w: World, m: Match)
    requires m in w.flows
  {
    var (dpid, inPort, dst, src) := m;
    && dpid in w.up && dpid in w.macs
    && src in w.macs[dpid] && w.macs[dpid][src] == inPort
    && dst in w.macs[dpid] && w.macs[dpid][dst] == w.flows[m]
  }

  predicate Coherent(w: World) {
    forall m :: m in w.flows ==> EntryRight(w, m)
  }

  /** The cached switch treats the packet as the reference does, and both end with one MAC table. */
  predicate Agrees(w: World, p: Packet) {
    var (w', fate) := Forward(w, p);
    var (macs', fate') := Reference(w.macs, w.up, p);
    w'.macs == macs' && fate == fate'
  }

  lemma LearnAgain(t: MacTable, p: Packet)
    requires p.dpid in t && p.src in t[p.dpid] && t[p.dpid][p.src] == p.inPort
    ensures Learn(t, p) == t
  {
    assert t[p.dpid][p.src := p.inPort] == t[p.dpid];
  }

  lemma KnownSource(t: MacTable, p: Packet)
    requires Learn(t, p) == t
    ensures p.dpid in t && p.src in t[p.dpid] && t[p.dpid][p.src] == p.inPort
  {
    assert p.dpid in Learn(t, p) && Learn(t, p)[p.dpid] == Row(t, p.dpid)[p.src := p.inPort];
  }

  /** A packet is treated as the reference treats it exactly when no entry matches it or the
      matching entry is right. */
  lemma AgreesIffEntryRight(w: World, p: Packet)
    requires !p.lldp
    ensures Agrees(w, p) <==> (MatchOf(p) in w.flows ==> EntryRight(w, MatchOf(p)))
  {
    if MatchOf(p) in w.flows {
      if EntryRight(w, MatchOf(p)) {
        LearnAgain(w.macs, p);
      }
      if Agrees(w, p) {
        KnownSource(w.macs, p);
      }
    }
  }

  /** The cache is right about every next packet exactly when each entry agrees with the MAC table. */
  lemma AgreesOnAllIffCoherent(w: World)
    ensures (forall p: Packet :: !p.lldp ==> Agrees(w, p)) <==> Coherent(w)
  {
    hide Agrees, EntryRight;
    forall p: Packet | !p.lldp
      ensures Agrees(w, p) <==> (MatchOf(p) in w.flows ==> EntryRight(w, MatchOf(p)))
    {
      AgreesIffEntryRight(w, p);
    }
    forall m | m in w.flows ensures MatchOf(PacketOf(m)) == m {
    }
  }

  /** LLDP is dropped by the controller, but a flow entry does not look at the packet type: an LLDP
      packet is treated like the reference does exactly when no entry matches its addresses. */
  lemma LldpAgreesIff(w: World, p: Packet)
    requires p.lldp
    ensures Agrees(w, p) <==> MatchOf(p) !in w.flows
  {
  }

  // ---------------------------------------------------------------- whole runs

  /** The i-th step is not a packet the controller looks at, or the cached switch does with it what
      the reference does, and both are left with the same MAC table. */
  predicate TreatedAlike(steps: seq<Step>, i: nat)
    requires i < |steps|
  {
    steps[i].Arrive? && !steps[i].p.lldp ==>
      var (w', fate) := Forward(Run(steps[..i]), steps[i].p);
      var (macs, up) := ReferenceRun(steps[..i]);
      (w'.macs, fate) == Reference(macs, up, steps[i].p)
  }

  /** If the i-th step is a packet that matches an entry, then its source and destination are still
      in the rows and ports which that entry names. */
  predicate HitIsRight(steps: seq<Step>, i: nat)
    requires i < |steps|
  {
    steps[i].Arrive? && !steps[i].p.lldp ==>
      var w, m := Run(steps[..i]), MatchOf(steps[i].p);
      m in w.flows ==> EntryRight(w, m)
  }

  lemma StepTables(w: World, s: Step)
    ensures s.Arrive? && !s.p.lldp && Agrees(w, s.p) ==> Next(w, s).macs == Reference(w.macs, w.up, s.p).0
    ensures s.Arrive? && s.p.lldp ==> Next(w, s).macs == w.macs == Reference(w.macs, w.up, s.p).0
    ensures s.Arrive? ==> Next(w, s).up == w.up
  {
  }

  /** As long as all packets are treated alike the two sides have the same tables. */
  lemma {:induction false} TablesFollow(steps: seq<Step>, n: nat)
    requires n <= |steps| && forall i :: 0 <= i < n ==> TreatedAlike(steps, i)
    ensures (Run(steps[..n]).macs, Run(steps[..n]).up) == ReferenceRun(steps[..n])
  {
    if n > 0 {
      TablesFollow(steps, n - 1);
      assert TreatedAlike(steps, n - 1);
      var prefix := steps[..n];
      assert prefix[..|prefix| - 1] == steps[..n - 1] && prefix[|prefix| - 1] == steps[n - 1];
      StepTables(Run(steps[..n - 1]), steps[n - 1]);
    }
  }

  lemma AlikeIffHitRight(steps: seq<Step>, i: nat)
    requires i < |steps| && (Run(steps[..i]).macs, Run(steps[..i]).up) == ReferenceRun(steps[..i])
    ensures TreatedAlike(steps, i) <==> HitIsRight(steps, i)
  {
    hide Forward, Reference, EntryRight, Run, ReferenceRun;
    if steps[i].Arrive? && !steps[i].p.lldp {
      AgreesIffEntryRight(Run(steps[..i]), steps[i].p);
    }
  }

  /** For every run, with flows expiring at any time: all packets are treated as the reference
      treats them exactly when, at each packet that matches an entry, the MAC table still has its
      source and destination where the entry says. */
  lemma RunAgreesIffHitsRight(steps: seq<Step>)
    ensures (forall i :: 0 <= i < |steps| ==> TreatedAlike(steps, i))
       <==> (forall i :: 0 <= i < |steps| ==> HitIsRight(steps, i))
  {
    hide TreatedAlike, HitIsRight, Run, ReferenceRun;
    if forall i :: 0 <= i < |steps| ==> TreatedAlike(steps, i) {
      forall i | 0 <= i < |steps| ensures HitIsRight(steps, i) {
        TablesFollow(steps, i);
        AlikeIffHitRight(steps, i);
      }
    }
    if forall i :: 0 <= i < |steps| ==> HitIsRight(steps, i) {
      HitsRightUpTo(steps, |steps|);
    }
  }

  lemma {:induction false} HitsRightUpTo(steps: seq<Step>, n: nat)
    requires n <= |steps| && forall i :: 0 <= i < n ==> HitIsRight(steps, i)
    ensures forall i :: 0 <= i < n ==> TreatedAlike(steps, i)
  {
    hide TreatedAlike, HitIsRight, Run, ReferenceRun;
    if n > 0 {
      HitsRightUpTo(steps, n - 1);
      TablesFollow(steps, n - 1);
      AlikeIffHitRight(steps, n - 1);
    }
  }

  // ---------------------------------------------------------------- hosts that stay put

  /** Where each host is attached. */
  type Places = map<(int, string), int>

  predicate AtHome(at: Places, p: Packet) {
    (p.dpid, p.src) in at && at[(p.dpid, p.src)] == p.inPort
  }

  predicate StayPut(at: Places, steps: seq<Step>) {
    forall i :: 0 <= i < |steps| ==> (steps[i].Arrive? && !steps[i].p.lldp ==> AtHome(at, steps[i].p))
  }

  /** The MAC table tells where hosts are, and every entry was learned from it. */
  predicate Settled(at: Places, w: World) {
    && (forall d, h :: d in w.macs && h in w.macs[d] ==> (d, h) in at && at[(d, h)] == w.macs[d][h])
    && Coherent(w)
  }

  lemma PacketInSettled(at: Places, w: World, p: Packet)
    requires Settled(at, w) && p.dpid in w.up && !p.lldp && AtHome(at, p)
    ensures Settled(at, PacketIn(w, p).0)
  {
    var w' := PacketIn(w, p).0;
    forall m | m in w'.flows ensures EntryRight(w', m) {
      if m != MatchOf(p) {
        assert EntryRight(w, m);
      }
    }
  }

  lemma StepSettled(at: Places, w: World, s: Step)
    requires Settled(at, w) && (s.Arrive? && !s.p.lldp ==> AtHome(at, s.p))
    ensures Settled(at, Next(w, s))
  {
    match s
    case Arrive(p) =>
      if MatchOf(p) !in w.flows && p.dpid in w.up && !p.lldp {
        PacketInSettled(at, w, p);
      }
    case Expire(matches) =>
      forall m | m in Next(w, s).flows ensures EntryRight(Next(w, s), m) {
        assert EntryRight(w, m);
      }
    case SwitchUp(dpid) =>
      forall m | m in Next(w, s).flows ensures EntryRight(Next(w, s), m) {
        assert EntryRight(w, m);
      }
  }

  lemma {:induction false} StayPutSettled(at: Places, steps: seq<Step>, n: nat)
    requires StayPut(at, steps) && n <= |steps|
    ensures Settled(at, Run(steps[..n]))
  {
    hide Settled, Next;
    if n == 0 {
      OfflineSettled(at);
    } else {
      StayPutSettled(at, steps, n - 1);
      StepSettled(at, Run(steps[..n - 1]), steps[n - 1]);
      assert steps[..n][..n - 1] == steps[..n - 1];
    }
  }

  lemma OfflineSettled(at: Places)
    ensures Settled(at, OFFLINE)
  {
  }

  /** If hosts stay on one port per switch, then whatever flows expire and whenever, every packet of
      the run is treated as the reference treats it, the MAC tables are the same after the run, and
      any further packet will be treated alike too. */
  lemma CachedSwitchRefinesReference(at: Places, steps: seq<Step>)
    requires StayPut(at, steps)
    ensures forall i :: 0 <= i < |steps| ==> TreatedAlike(steps, i)
    ensures (Run(steps).macs, Run(steps).up) == ReferenceRun(steps)
    ensures forall p: Packet :: !p.lldp ==> Agrees(Run(steps), p)
  {
    hide TreatedAlike, EntryRight, Agrees, Run, ReferenceRun;
    forall i | 0 <= i < |steps| ensures HitIsRight(steps, i) {
      StayPutSettled(at, steps, i);
    }
    RunAgreesIffHitsRight(steps);
    TablesFollow(steps, |steps|);
    StayPutSettled(at, steps, |steps|);
    assert steps[..|steps|] == steps;
    AgreesOnAllIffCoherent(Run(steps));
  }

  /** Without that assumption the cache goes stale: hosts a and b talk, b moves from port y to port
      z and is learned there, and the old entry still sends packets for it to y. */
  lemma MovedHostMissed(d: int, a: string, b: string, c: string, x: int, y: int, z: int)
    requires a != b && c != a && c != b
    ensures var hello, answer := Packet(d, x, a, b, false), Packet(d, y, b, a, false);
      var moved := Packet(d, z, b, c, false);
      var w := Run([SwitchUp(d), Arrive(hello), Arrive(answer), Arrive(hello), Arrive(moved)]);
      && Forward(w, hello).1 == Some(Out(y))
      && Reference(w.macs, w.up, hello).1 == Some(Out(z))
  {
    var hello, answer := Packet(d, x, a, b, false), Packet(d, y, b, a, false);
    var moved := Packet(d, z, b, c, false);
    var steps := [SwitchUp(d), Arrive(hello), Arrive(answer), Arrive(hello), Arrive(moved)];
    assert steps[..5] == steps;
    forall n | 0 <= n < 5 ensures Run(steps[..n + 1]) == Next(Run(steps[..n]), steps[n]) {
      assert steps[..n + 1][..n] == steps[..n];
    }
    assert Run(steps[..1]) == World(map[], map[], {d});
    var w2 := Run(steps[..2]);
    assert w2.macs == map[d := map[a := x]] && w2.flows == map[] && w2.up == {d};
    var w3 := Run(steps[..3]);
    assert w3.macs[d] == map[a := x, b := y] && MatchOf(hello) !in w3.flows && w3.up == {d};
    var w4 := Run(steps[..4]);
    assert w4.flows[MatchOf(hello)] == y && MatchOf(moved) !in w4.flows && w4.up == {d};
  }

  // ---------------------------------------------------------------- the object

  /** What the controller sends to the switch for a packet. */
  datatype Commands = Nothing | Commands(flow: Option<(Match, int)>, output: Port)

  class SecureController {
    var macToPort: MacTable

    constructor ()
      ensures macToPort == map[]
    {
      macToPort := map[];
    }

    /** `_pkt_in`: learns the source, looks up the destination, installs a flow for a known one. */
    method HandlePacketIn(p: Packet) returns (c: Commands)
      modifies this
      ensures forall flows, up :: var (w', fate) := PacketIn(World(old(macToPort), flows, up), p);
        && w'.macs == macToPort
        && (c.Nothing? <==> fate.None?)
        && (c.Commands? ==>
              && fate == Some(c.output)
              && w'.flows == if c.flow.Some? then flows[c.flow.value.0 := c.flow.value.1] else flows)
    {
      if p.lldp {
        return Nothing;
      }
      macToPort := macToPort[p.dpid := Row(macToPort, p.dpid)[p.src := p.inPort]];
      var out := if p.dst in macToPort[p.dpid] then Out(macToPort[p.dpid][p.dst]) else Flood;
      var flow := None;
      if out != Flood {
        flow := Some((MatchOf(p), out.number));
      }
      c := Commands(flow, out);
    }
  }
}
