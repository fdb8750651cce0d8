/** The steps of the cluster, cut into moves that change one thing each, and
    the invariants a move keeps because it does not touch what they speak of. */
module Moves {
  import opened RaftTypes
  import opened NodeSpec
  import opened Cluster
  import opened Invariant
  import opened Growth

  // ---- the moves ----

  function StepDown(s: State, i: Id, term: int): State
    requires i in s.nodes
  {
    Put(s, i, BecomeFollower(s.nodes[i], term))
  }

  /** A server steps down for a newer term, or as a candidate of a term that has a leader. */
  predicate MayStepDown(s: State, i: Id, term: int) {
    && i in s.nodes
    && (term > s.nodes[i].currentTerm
        || (term == s.nodes[i].currentTerm && s.nodes[i].role == Candidate && term in s.past.reigns))
  }

  function CastVote(s: State, i: Id, req: VoteRequest): State
    requires i in s.nodes
  {
    Put(s, i, s.nodes[i].(votedFor := req.candidateId)).(
      past := s.past.(grants := s.past.grants + {Ballot(req.term, i, req.candidateId)}))
  }

  predicate MayVote(s: State, i: Id, req: VoteRequest) {
    && i in s.nodes && req in s.voteRequests && i != req.candidateId
    && s.nodes[i].currentTerm == req.term && ShouldVoteFor(s.nodes[i], req)
  }

  function CountVote(s: State, c: Id, v: Id): State
    requires c in s.nodes && c in s.past.counted
  {
    var n := s.nodes[c];
    Put(s, c, n.(votesReceived := n.votesReceived + 1)).(
      answered := s.answered + {Ballot(n.currentTerm, v, c)},
      past := s.past.(counted := s.past.counted[c := s.past.counted[c] + {v}]))
  }

  predicate MayCount(s: State, c: Id, v: Id) {
    && c in s.nodes && c in s.past.counted && s.nodes[c].role == Candidate && v != c
    && Ballot(s.nodes[c].currentTerm, v, c) in s.past.grants - s.answered
  }

  function Crown(s: State, c: Id): State
    requires c in s.nodes && c in s.past.counted
  {
    var n := s.nodes[c];
    Put(s, c, BecomeLeader(n)).(
      past := s.past.(reigns := s.past.reigns[n.currentTerm := Reign(c, s.past.counted[c], n.log)]))
  }

  predicate MayCrown(s: State, c: Id) {
    && c in s.nodes && c in s.past.counted && s.nodes[c].role == Candidate
    && s.nodes[c].votesReceived >= s.nodes[c].majority
  }

  /** The leader appends an entry to its log and thereby holds it. */
  function Extend(s: State, i: Id, command: Command): State
    requires i in s.nodes && s.nodes[i].currentTerm in s.past.reigns
  {
    var n := s.nodes[i];
    var n1 := Propose(n, command);
    Put(s, i, n1).(
      past := s.past.(reigns := s.past.reigns[n.currentTerm := s.past.reigns[n.currentTerm].(log := n1.log)],
                      acks := s.past.acks + {Ack(n.currentTerm, i, |n.log|)}))
  }

  predicate MayExtend(s: State, i: Id) {
    i in s.nodes && s.nodes[i].role == Leader && s.nodes[i].currentTerm in s.past.reigns
  }

  /** A follower merges a leader's entries into its log and acknowledges them. */
  function Merge(s: State, i: Id, req: AppendRequest): State
    requires i in s.nodes && 0 <= req.prevLogIndex + 1 <= |s.nodes[i].log|
  {
    var n := s.nodes[i];
    Put(s, i, n.(log := AppendFrom(n.log, req.prevLogIndex + 1, req.entries))).(
      past := s.past.(acks := s.past.acks + {Ack(req.term, i, req.prevLogIndex + |req.entries|)}))
  }

  predicate MayMerge(s: State, i: Id, req: AppendRequest) {
    && i in s.nodes && AppendMsg(i, req) in s.appends
    && s.nodes[i].currentTerm == req.term && s.nodes[i].role == Follower
    && CheckLog(s.nodes[i].log, req)
  }

  // ---- what a move may leave alone ----

  predicate SameVotes(n: Node, n': Node) {
    && n'.id == n.id && n'.peers == n.peers && n'.majority == n.majority
    && n'.currentTerm == n.currentTerm && n'.votedFor == n.votedFor && n'.role == n.role
    && n'.votesReceived == n.votesReceived
    && (n.role == Candidate ==> n'.log == n.log)
  }

  ghost predicate SameReigners(r: Reigns, r': Reigns) {
    r'.Keys == r.Keys && forall t | t in r :: r'[t].leader == r[t].leader && r'[t].quorum == r[t].quorum
  }

  ghost predicate ElectionSame(s: State, s': State) {
    && s'.nodes.Keys == s.nodes.Keys
    && (forall i | i in s.nodes :: SameVotes(s.nodes[i], s'.nodes[i]))
    && SameReigners(s.past.reigns, s'.past.reigns)
    && s'.past.grants == s.past.grants && s'.past.counted == s.past.counted
    && s'.answered == s.answered && s'.voteRequests == s.voteRequests && s'.voteReplies == s.voteReplies
  }

  lemma ElectionFrame(s: State, s': State)
    requires ElectionInv(s) && ElectionSame(s, s')
    ensures ElectionInv(s')
  {
    assert Electorates(s'.nodes, s'.past.reigns) by {
      forall t | t in s'.past.reigns
        ensures s'.past.reigns[t].leader in s'.past.reigns[t].quorum
        ensures Quorate(s'.past.reigns[t].quorum, s'.nodes.Keys)
        ensures forall v | v in s'.past.reigns[t].quorum :: Bound(s'.nodes[v], v, t, s'.past.reigns[t].leader)
      {
        assert t in s.past.reigns;
      }
    }
    assert Grants(s'.nodes, s'.past.reigns, s'.past.grants) by {
      forall g | g in s'.past.grants
        ensures GrantOk(s'.nodes, s'.past.reigns, g)
      {
        assert GrantOk(s.nodes, s.past.reigns, g);
      }
    }
    assert Tallies(s'.nodes, s'.past.grants, s'.past.counted, s'.answered) by {
      forall c | c in s'.nodes && s'.nodes[c].role == Candidate
        ensures TallyOk(c, s'.nodes[c], s'.past.grants, s'.past.counted[c], s'.answered)
      {
        assert SameVotes(s.nodes[c], s'.nodes[c]);
        assert TallyOk(c, s.nodes[c], s.past.grants, s.past.counted[c], s.answered);
      }
    }
  }

  /** Same log, no earlier term, and a leader only if it was the leader before. */
  predicate LogLater(n: Node, n': Node) {
    && n'.log == n.log && n'.currentTerm >= n.currentTerm
    && (n'.role == Leader ==> n.role == Leader && n'.currentTerm == n.currentTerm)
  }

  ghost predicate LogSame(s: State, s': State) {
    && s'.nodes.Keys == s.nodes.Keys
    && (forall i | i in s.nodes :: LogLater(s.nodes[i], s'.nodes[i]))
    && s'.past.reigns == s.past.reigns
    && s.past.commits <= s'.past.commits && s.past.acks <= s'.past.acks
    && s'.appends == s.appends && s'.appendReplies == s.appendReplies
  }

  lemma LogFrame(s: State, s': State)
    requires LogInv(s) && LogSame(s, s')
    ensures LogInv(s')
  {
  }

  predicate AckLater(n: Node, n': Node) {
    && n'.log == n.log && n'.currentTerm >= n.currentTerm
    && (n'.role == Candidate ==> n.role == Candidate && n'.currentTerm == n.currentTerm)
  }

  ghost predicate AckSame(s: State, s': State) {
    && s'.nodes.Keys == s.nodes.Keys
    && (forall i | i in s.nodes :: AckLater(s.nodes[i], s'.nodes[i]))
    && s'.past.reigns == s.past.reigns && s'.past.acks == s.past.acks && s'.past.grants == s.past.grants
  }

  lemma AckFrame(s: State, s': State)
    requires AckInv(s) && AckSame(s, s')
    ensures AckInv(s')
  {
    var r := s.past.reigns;
    assert forall i | i in s.nodes :: AckLater(s.nodes[i], s'.nodes[i]);
    assert Durable(s'.nodes, r, s.past.acks) by {
      forall a, k | a in s.past.acks && 0 <= k <= a.index && a.term in r && a.node in s'.nodes
        ensures KeptBy(s'.nodes[a.node], r, a.term, k)
      {
        var n, n' := s.nodes[a.node], s'.nodes[a.node];
        assert KeptBy(n, r, a.term, k);
        KeptLater(n.log, r, a.term, k, n.currentTerm + 1, n'.currentTerm + 1);
      }
    }
  }

  predicate CommitLater(n: Node, n': Node) {
    && n'.id == n.id && n'.peers == n.peers
    && n'.log == n.log && n'.currentTerm >= n.currentTerm
    && n'.commitIndex == n.commitIndex && n'.lastApplied == n.lastApplied && n'.sent == n.sent
    && (n'.role == Leader ==> n.role == Leader && n'.currentTerm == n.currentTerm
                              && n'.nextIndex == n.nextIndex && n'.matchIndex == n.matchIndex)
  }

  ghost predicate CommitSame(s: State, s': State) {
    && s'.nodes.Keys == s.nodes.Keys
    && (forall i | i in s.nodes :: CommitLater(s.nodes[i], s'.nodes[i]))
    && s'.past.reigns == s.past.reigns && s'.past.acks == s.past.acks && s'.past.commits == s.past.commits
  }

  lemma CommitFrame(s: State, s': State)
    requires CommitInv(s) && CommitSame(s, s')
    ensures CommitInv(s')
  {
    hide Commits, Progress, LeaderMaps, AllSent, CommitSame;
    ProgressFrame(s, s');
    MapsFrame(s, s');
  }

  lemma ProgressFrame(s: State, s': State)
    requires Progress(s.nodes, s.past.reigns, s.past.commits) && CommitSame(s, s')
    ensures Progress(s'.nodes, s'.past.reigns, s'.past.commits)
  {
  }

  lemma MapsFrame(s: State, s': State)
    requires LeaderMaps(s.nodes, s.past.acks) && AllSent(s.nodes) && CommitSame(s, s')
    ensures LeaderMaps(s'.nodes, s'.past.acks) && AllSent(s'.nodes)
    ensures s'.nodes.Keys == s.nodes.Keys && s'.past.reigns == s.past.reigns
    ensures s'.past.acks == s.past.acks && s'.past.commits == s.past.commits
  {
    forall i | i in s'.nodes
      ensures s'.nodes[i].role == Leader ==> MapsOk(s'.nodes[i], s.past.acks)
      ensures SentOk(s'.nodes[i])
    {
      assert CommitLater(s.nodes[i], s'.nodes[i]);
      assert s.nodes[i].role == Leader ==> MapsOk(s.nodes[i], s.past.acks);
    }
  }
}
