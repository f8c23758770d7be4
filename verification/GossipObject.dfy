/** The gossip node as an object (gossip/node.py). */
module GossipObject {
  import opened Prelude
  import opened Agent
  import opened AgentObject
  import opened Gossip

  datatype Reply = MissingFields | Reply(ok: bool, myHash: string)

  class GossipNode {
    const agent: IntegrityAgent
    const started: real
    var peerHashes: Dict<string>
    var lastSeen: map<string, real>

    ghost predicate Valid()
      reads this, agent, agent.chain, agent.engine
    {
      agent.Valid()
    }

    ghost function View(): Node
      reads this, agent, agent.chain, agent.engine, agent.engine.detectors.Values
    {
      Node(agent.View(), peerHashes, lastSeen, started)
    }

    constructor (agent: IntegrityAgent, now: real)
      requires agent.Valid()
      ensures Valid() && this.agent == agent
      ensures View() == Node(agent.View(), EmptyDict(), map[], now)
    {
      this.agent, started := agent, now;
      peerHashes, lastSeen := EmptyDict(), map[];
    }

    /** Called when a peer's state arrives. */
    method OnReceive(now: real, m: Message) returns (reply: Reply)
      requires Valid()
      modifies this, agent, agent.chain
      ensures Valid() && View() == Receive(agent.k, old(View()), now, m)
      ensures reply == if Complete(m) then Reply(Accepts(old(agent.View()), now, m), agent.chain.head)
                       else MissingFields
    {
      hide VerifyPeer, Consensus, Accepts, Put, IntegrityAgent.View;
      if !Complete(m) {
        return MissingFields;
      }
      ghost var before := agent.View();
      lastSeen := lastSeen[m.cid := now];
      assert agent.View() == before;
      var ok := agent.DoVerifyPeer(now, m);
      if ok {
        peerHashes := Put(peerHashes, m.cid, m.hash);
        var _ := agent.DoConsensus(now, peerHashes);
      }
      reply := Reply(ok, agent.chain.head);
    }

    /** One round of the gossip loop: the same signed state is pushed to every peer, in order. */
    method PushToPeers(now: real, pids: seq<string>) returns (sent: seq<(string, Message)>)
      requires Valid()
      ensures |sent| == |pids|
      ensures forall i :: 0 <= i < |pids| ==> sent[i] == (pids[i], SignedState(View().agent, now))
    {
      var m := agent.GetSignedState(now);
      sent := [];
      for i := 0 to |pids|
        invariant |sent| == i
        invariant forall j :: 0 <= j < i ==> sent[j] == (pids[j], m)
      {
        sent := sent + [(pids[i], m)];
      }
    }

    /** One round of the heartbeat loop. */
    method CheckPeers(now: real, pids: seq<string>)
      requires Valid()
      modifies agent, agent.chain
      ensures Valid() && View() == CheckHeartbeats(agent.k, old(View()), now, pids)
    {
      hide Raise;
      if now - started < HEARTBEAT_GRACE {
        return;
      }
      for i := 0 to |pids|
        invariant Valid()
        invariant agent.View() == ReportSilent(agent.k, old(View()), now, pids, i)
      {
        var pid := pids[i];
        var last := if pid in lastSeen then lastSeen[pid] else 0.0;
        if last > 0.0 && now - last > HEARTBEAT_TTL {
          agent.DoRaise(now, CtrlOffline, pid, HIGH);
        }
      }
    }
  }
}
