/** The objects and the cluster speak of the same servers and messages. */
module Wiring {
  import opened RaftTypes
  import opened NodeSpec
  import opened Cluster
  import opened Persistence
  import opened RaftServer

  lemma {:induction false} AppendsToEach(peers: seq<Id>, n: Node)
    ensures forall p, req :: AppendOut(p, req) in AppendsTo(peers, n) <==> p in peers && req == BuildAppend(n, p)
    ensures forall p, req :: VoteOut(p, req) !in AppendsTo(peers, n)
  {
    if peers != [] {
      var last := |peers| - 1;
      AppendsToEach(peers[..last], n);
      assert forall p | p in peers :: p in peers[..last] || p == peers[last];
    }
  }

  /** Both rounds hand out exactly one request per peer, in the order of the peers. */
  lemma {:induction false} OnePerPeer(peers: seq<Id>, n: Node, req: VoteRequest)
    ensures |VotesTo(peers, req)| == |AppendsTo(peers, n)| == |peers|
    ensures forall k | 0 <= k < |peers| ::
              VotesTo(peers, req)[k] == VoteOut(peers[k], req) && AppendsTo(peers, n)[k] == AppendOut(peers[k], BuildAppend(n, peers[k]))
    decreases |peers|
  {
    if peers != [] {
      OnePerPeer(peers[..|peers| - 1], n, req);
    }
  }

  /** A round of replication by the object is what the cluster adds to its messages. */
  lemma BroadcastIsSent(n: Node, m: AppendMsg)
    ensures m in Broadcast(n) <==> AppendOut(m.to, m.req) in AppendBroadcast(n)
  {
    AppendsToEach(n.peers, n);
  }

  lemma {:induction false} VotesToEach(peers: seq<Id>, req: VoteRequest)
    ensures forall p, r :: VoteOut(p, r) in VotesTo(peers, req) <==> p in peers && r == req
    decreases |peers|
  {
    if peers != [] {
      var last := |peers| - 1;
      VotesToEach(peers[..last], req);
      assert forall p | p in peers :: p in peers[..last] || p == peers[last];
    }
  }

  /** An election asks every other server of the cluster, and nobody else. */
  lemma ElectionAsksOthers(i: Id, n: Node, ids: set<Id>, p: Id)
    requires (set q | q in n.peers) == ids - {i}
    ensures VoteOut(p, VoteRequestOf(n)) in VoteBroadcast(n) <==> p in ids && p != i
  {
    VotesToEach(n.peers, VoteRequestOf(n));
    var others := set q | q in n.peers;
    assert p in n.peers <==> p in others;
    assert p in ids - {i} <==> p in ids && p != i;
  }

  /** A server started over empty files is a fresh server of the cluster. */
  method StartFresh(id: Id, peers: seq<Id>, ghost ids: set<Id>, reliable: bool) returns (n: RaftNode)
    requires id != "" && NoDuplicates(peers) && (set p | p in peers) == ids - {id}
    ensures Fresh(id, n.View(), ids) && n.Valid() && n.Mirrored() && n.StateSaved() && n.outbox == []
  {
    var disk := new Persister(Nothing, [], reliable);
    n := new RaftNode(id, peers, disk);
    n.Start();
  }
}
