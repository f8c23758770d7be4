/** The integrity agent of one controller (integrity/agent.py), as a value and as functions on it.
    Module `AgentObject` has the object whose methods compute these functions. */
module Agent {
  import opened Prelude
  import opened Chain
  import opened Trust
  import Ewma
  import Quorum
  import Rates

  // ---------------------------------------------------------------- messages and records

  datatype Severity = HIGH | MEDIUM

  datatype AlertKind =
    | HashMismatch | SigInvalid | FlowInject | Replay | Flood | CtrlOffline
    | FakeCtrl | UnauthSwitch | ConsensusFail

  datatype Alert = Alert(kind: AlertKind, source: string, severity: Severity, ts: real, detector: string)

  datatype Event =
    | Boot | Recovery | Heartbeat
    | SwitchUp(dpid: int) | SwitchDown(dpid: int) | PacketCount(n: nat) | FlowAdd(dpid: int, priority: int)
    | Alerted(kind: AlertKind)

  /** What one block of the chain records. */
  datatype Snapshot = Snapshot(cid: string, ts: real, uptime: real, switches: nat, packets: nat, flows: nat,
                               alerts: nat, macs: nat, event: Event, height: nat)

  type Keys = Crypto<Snapshot>

  /** Ideal signatures: `Signed(c, d)` is what c's private key makes of d; `Forged` is anything else. */
  datatype Signature = NoSignature | Signed(signer: string, data: string) | Forged(bytes: string)

  predicate Verifies(data: string, sig: Signature, cid: string) {
    sig == Signed(cid, data)
  }

  /** A controller's entry in the shared state file. */
  datatype Record = Record(healthy: bool, hash: string, sig: Signature, idx: nat, switches: nat, packets: nat,
                           flows: nat, alerts: nat, ts: real, event: Event, trust: Dict<int>, chainOk: bool)

  // ---------------------------------------------------------------- the agent's state

  /** `log` holds what the agent has put out and seen, which its fields no longer show. */
  datatype Log = Log(alerts: seq<Alert>, published: seq<Record>, trust: seq<(string, TrustEvent)>,
                     packets: seq<real>, flows: seq<real>, resetAlerts: nat, resetPublished: nat)

  datatype Agent = Agent(
    cid: string, t0: real, ledger: Ledger<Snapshot>,
    switches: nat, packets: nat, flows: nat, alerts: nat, macTable: MacTable,
    packetTimes: seq<real>, flowTimes: seq<real>,
    lastIdx: map<string, int>, trust: Dict<int>, detectors: map<string, Ewma.Detector>,
    log: Log)

  const FLOOD_LIMIT: nat := 500
  const FLOW_LIMIT: nat := 50
  const REPLAY_WINDOW := 60.0
  const BOOT_GRACE := 90.0
  const ANOMALY_GRACE := 30.0
  const PACKET_RATE := "pkt_rate"

  /** Number of (switch, address) pairs in the table. */
  function MacCount(t: MacTable): nat {
    |set d, m | d in t && m in t[d] :: (d, m)|
  }

  // ---------------------------------------------------------------- flush and alert

  function Snap(s: Agent, now: real, event: Event): Snapshot {
    Snapshot(s.cid, now, now - s.t0, s.switches, s.packets, s.flows, s.alerts, MacCount(s.macTable), event,
             s.ledger.height)
  }

  /** Adds a block and publishes a signed record of it. */
  function Flush(k: Keys, s: Agent, now: real, event: Event): Agent {
    var block := NextBlock(k, s.cid, s.ledger, Snap(s, now, event), now);
    var ledger := Extend(k, s.cid, s.ledger, Snap(s, now, event), now);
    var record := Record(s.alerts < 2 && Accepted(k, ledger.blocks), block.hash, Signed(s.cid, block.hash),
                         block.idx, s.switches, s.packets, s.flows, s.alerts, now, event, s.trust, true);
    s.(ledger := ledger, log := s.log.(published := s.log.published + [record]))
  }

  /** During boot grace everything but floods and unauthorised switches is downgraded. */
  function EffectiveSeverity(s: Agent, now: real, kind: AlertKind, severity: Severity): Severity {
    if now < s.t0 + BOOT_GRACE && kind != Flood && kind != UnauthSwitch then MEDIUM else severity
  }

  function Raise(k: Keys, s: Agent, now: real, kind: AlertKind, source: string, severity: Severity): Agent {
    var sev := EffectiveSeverity(s, now, kind, severity);
    var alert := Alert(kind, source, sev, now, s.cid);
    var counted := s.(alerts := if sev == HIGH && source == s.cid then s.alerts + 1 else s.alerts,
                      log := s.log.(alerts := s.log.alerts + [alert]));
    Flush(k, counted, now, Alerted(kind))
  }

  function Judge(s: Agent, pid: string, e: TrustEvent): Agent {
    s.(trust := Put(s.trust, pid, Adjusted(Lookup(s.trust, pid, FULL_TRUST), e)),
       log := s.log.(trust := s.log.trust + [(pid, e)]))
  }

  function Start(k: Keys, cid: string, t0: real): Agent {
    Flush(k,
          Agent(cid, t0, EmptyLedger(), 0, 0, 0, 0, map[], [], [], map[], EmptyDict(), map[],
                Log([], [], [], [], [], 0, 0)),
          t0, Boot)
  }

  // ---------------------------------------------------------------- controller events

  function OnSwitchUp(k: Keys, s: Agent, now: real, dpid: int): Agent {
    Flush(k, s.(switches := s.switches + 1, macTable := s.macTable[dpid := Row(s.macTable, dpid)]), now,
          SwitchUp(dpid))
  }

  function OnSwitchDown(k: Keys, s: Agent, now: real, dpid: int): Agent {
    Flush(k, s.(switches := if s.switches == 0 then 0 else s.switches - 1), now, SwitchDown(dpid))
  }

  function CountPacket(s: Agent, now: real, dpid: int, src: string, port: int): Agent {
    s.(packets := s.packets + 1,
       packetTimes := Rates.Recent(s.packetTimes + [now], now),
       macTable := s.macTable[dpid := Row(s.macTable, dpid)[src := port]],
       log := s.log.(packets := s.log.packets + [now]))
  }

  function FloodCheck(k: Keys, s: Agent, now: real): Agent {
    if |s.packetTimes| > FLOOD_LIMIT then Raise(k, s, now, Flood, s.cid, HIGH) else s
  }

  function AnomalyCheck(k: Keys, s: Agent, now: real): Agent {
    if now - s.t0 > ANOMALY_GRACE then
      var d := Ewma.Known(s.detectors, PACKET_RATE);
      var x := |s.packetTimes| as real;
      var s' := s.(detectors := s.detectors[PACKET_RATE := Ewma.Feed(Ewma.DEFAULT, d, x)]);
      if Ewma.Score(Ewma.DEFAULT, d, x).Anomaly? then Raise(k, s', now, Flood, s.cid, MEDIUM) else s'
    else s
  }

  function OnPacketIn(k: Keys, s: Agent, now: real, dpid: int, src: string, port: int): Agent {
    var s1 := AnomalyCheck(k, FloodCheck(k, CountPacket(s, now, dpid, src, port), now), now);
    if s1.packets % 10 == 0 then Flush(k, s1, now, PacketCount(s1.packets)) else s1
  }

  function CountFlow(s: Agent, now: real): Agent {
    s.(flows := s.flows + 1,
       flowTimes := Rates.Recent(s.flowTimes + [now], now),
       log := s.log.(flows := s.log.flows + [now]))
  }

  function OnFlowAdd(k: Keys, s: Agent, now: real, dpid: int, priority: int): Agent {
    var s1 := CountFlow(s, now);
    var s2 := if |s1.flowTimes| > FLOW_LIMIT then Raise(k, s1, now, FlowInject, s.cid, HIGH) else s1;
    Flush(k, s2, now, FlowAdd(dpid, priority))
  }

  function ResetAlerts(k: Keys, s: Agent, now: real): Agent {
    Flush(k,
          s.(alerts := 0, trust := Fill(s.trust, FULL_TRUST),
             log := s.log.(trust := [], resetAlerts := |s.log.alerts|, resetPublished := |s.log.published|)),
          now, Recovery)
  }

  // ---------------------------------------------------------------- gossip

  /** A gossip message. A missing or empty `cid`, `hash` or `sig` is "" or NoSignature. */
  datatype Message = Message(cid: string, hash: string, sig: Signature, ts: real, idx: int)

  function SignedState(s: Agent, now: real): Message {
    Message(s.cid, s.ledger.head, Signed(s.cid, s.ledger.head), now, s.ledger.height)
  }

  function LastIdx(s: Agent, pid: string): int {
    if pid in s.lastIdx then s.lastIdx[pid] else -1
  }

  /** Fresh, no regression, and signed by its claimed sender. */
  predicate Accepts(s: Agent, now: real, m: Message) {
    now - m.ts <= REPLAY_WINDOW && m.idx >= LastIdx(s, m.cid) && Verifies(m.hash, m.sig, m.cid)
  }

  function VerifyPeer(k: Keys, s: Agent, now: real, m: Message): Agent {
    if now - m.ts > REPLAY_WINDOW then
      Raise(k, s, now, Replay, m.cid, MEDIUM)
    else if m.idx < LastIdx(s, m.cid) then
      Raise(k, s, now, Replay, m.cid, HIGH)
    else
      var s1 := s.(lastIdx := s.lastIdx[m.cid := m.idx]);
      if !Verifies(m.hash, m.sig, m.cid) then
        Raise(k, Judge(s1, m.cid, BadSignature), now, SigInvalid, m.cid, HIGH)
      else
        Judge(s1, m.cid, Boost)
  }

  // ---------------------------------------------------------------- consensus

  /** Progress of the loop over the peers: state, responsive peers, silent peers. */
  datatype Poll = Poll(agent: Agent, healthy: seq<string>, suspicious: seq<string>)

  function PollPeer(k: Keys, p: Poll, now: real, pid: string, hash: string): Poll {
    if hash == "" then
      Poll(Raise(k, Judge(p.agent, pid, NoResponse), now, ConsensusFail, pid, MEDIUM),
           p.healthy, p.suspicious + [pid])
    else
      Poll(Judge(p.agent, pid, Boost), p.healthy + [pid], p.suspicious)
  }

  /** The first n peers, in insertion order. */
  function PollPeers(k: Keys, s: Agent, now: real, peers: Dict<string>, n: nat): Poll
    requires n <= |peers.order|
  {
    if n == 0 then Poll(s, [], [])
    else
      var pid := peers.order[n - 1];
      PollPeer(k, PollPeers(k, s, now, peers, n - 1), now, pid, peers.at[pid])
  }

  function ScanPeer(k: Keys, p: Poll, now: real, pid: string, score: int): Poll {
    if score < LOW_TRUST && pid !in p.suspicious then
      p.(agent := Raise(k, p.agent, now, HashMismatch, pid, HIGH), suspicious := p.suspicious + [pid])
    else p
  }

  /** The first n entries of the trust table, in insertion order. */
  function ScanTrust(k: Keys, p: Poll, now: real, trust: Dict<int>, n: nat): Poll
    requires n <= |trust.order|
  {
    if n == 0 then p
    else
      var pid := trust.order[n - 1];
      ScanPeer(k, ScanTrust(k, p, now, trust, n - 1), now, pid, trust.at[pid])
  }

  datatype Verdict =
    | LocalChainInvalid
    | Verdict(ok: bool, healthy: seq<string>, suspicious: set<string>, trust: Dict<int>, active: nat, total: nat)

  function Elements(xs: seq<string>): set<string> {
    set x | x in xs
  }

  function Consensus(k: Keys, s: Agent, now: real, peers: Dict<string>): (r: (Agent, Verdict)) {
    var total := |peers.order| + 1;
    var p := PollPeers(k, s, now, peers, |peers.order|);
    if !Accepted(k, p.agent.ledger.blocks) then
      (Raise(k, p.agent, now, HashMismatch, s.cid, HIGH), LocalChainInvalid)
    else
      var active := |p.healthy| + 1;
      var q := ScanTrust(k, p, now, p.agent.trust, |p.agent.trust.order|);
      (q.agent, Verdict(Quorum.Reached(active, total), p.healthy, Elements(q.suspicious), q.agent.trust, active, total))
  }
}
