/** The moves of an election keep the invariant of elections: whoever counts a
    majority is the first to do so in its term. */
module ElectionProof {
  import opened RaftTypes
  import opened Cluster
  import opened Invariant
  import opened Moves
  import opened Safety

  lemma StepDownElection(s: State, i: Id, term: int)
    requires ElectionInv(s) && MayStepDown(s, i, term)
    ensures ElectionInv(StepDown(s, i, term))
  {
    var s' := StepDown(s, i, term);
    assert Grants(s'.nodes, s'.past.reigns, s'.past.grants) by {
      forall g | g in s'.past.grants
        ensures GrantOk(s'.nodes, s'.past.reigns, g)
      {
        assert GrantOk(s.nodes, s.past.reigns, g);
      }
    }
    assert Electorates(s'.nodes, s'.past.reigns) by {
      forall t, v | t in s.past.reigns && v in s.past.reigns[t].quorum
        ensures Bound(s'.nodes[v], v, t, s.past.reigns[t].leader)
      {
        assert Bound(s.nodes[v], v, t, s.past.reigns[t].leader);
      }
    }
  }

  lemma TimeoutElection(s: State, i: Id)
    requires ElectionInv(s) && NodeLogs(s.nodes, s.past.reigns) && i in s.nodes
    ensures ElectionInv(DoTimeout(s, i))
  {
    hide Grants, Tallies, LogOk, Below;
    var s' := DoTimeout(s, i);
    assert Electorates(s'.nodes, s'.past.reigns) by {
      forall t, v | t in s.past.reigns && v in s.past.reigns[t].quorum
        ensures Bound(s'.nodes[v], v, t, s.past.reigns[t].leader)
      {
        assert Bound(s.nodes[v], v, t, s.past.reigns[t].leader);
      }
    }
    TimeoutGrants(s, i);
    TimeoutTallies(s, i);
  }

  lemma TimeoutGrants(s: State, i: Id)
    requires Config(s.nodes) && Electorates(s.nodes, s.past.reigns) && i in s.nodes
    requires Grants(s.nodes, s.past.reigns, s.past.grants)
    ensures Grants(DoTimeout(s, i).nodes, s.past.reigns, DoTimeout(s, i).past.grants)
  {
  }

  lemma TimeoutTallies(s: State, i: Id)
    requires Config(s.nodes) && i in s.nodes && s.nodes[i].currentTerm >= 0
    requires Tallies(s.nodes, s.past.grants, s.past.counted, s.answered)
    ensures Tallies(DoTimeout(s, i).nodes, DoTimeout(s, i).past.grants, DoTimeout(s, i).past.counted, s.answered)
  {
  }

  lemma CastVoteElection(s: State, i: Id, req: VoteRequest)
    requires ElectionInv(s) && LeaderLogs(s.nodes, s.past.reigns) && MayVote(s, i, req)
    ensures ElectionInv(CastVote(s, i, req))
  {
    hide Grants, Electorates, Tallies;
    CandidatesVoted(s, i, req);
    CastVoteElectorates(s, i, req);
    CastVoteGrants(s, i, req);
    CastVoteTallies(s, i, req);
  }

  /** A server that casts a vote is no candidate, and only a leader if its term has one. */
  lemma CandidatesVoted(s: State, i: Id, req: VoteRequest)
    requires Config(s.nodes) && Tallies(s.nodes, s.past.grants, s.past.counted, s.answered)
    requires LeaderLogs(s.nodes, s.past.reigns) && MayVote(s, i, req)
    ensures s.nodes[i].role == Follower || (s.nodes[i].role == Leader && req.term in s.past.reigns)
  {
    assert Configured(i, s.nodes[i], s.nodes.Keys);
    assert s.nodes[i].role == Candidate ==> TallyOk(i, s.nodes[i], s.past.grants, s.past.counted[i], s.answered);
  }

  lemma CastVoteElectorates(s: State, i: Id, req: VoteRequest)
    requires Config(s.nodes) && Electorates(s.nodes, s.past.reigns) && MayVote(s, i, req)
    ensures Electorates(CastVote(s, i, req).nodes, s.past.reigns)
  {
    var s', r := CastVote(s, i, req), s.past.reigns;
    forall t, v | t in r && v in r[t].quorum
      ensures Bound(s'.nodes[v], v, t, r[t].leader)
    {
      assert Configured(r[t].leader, s.nodes[r[t].leader], s.nodes.Keys);
      assert Bound(s.nodes[v], v, t, r[t].leader);
    }
  }

  lemma CastVoteTallies(s: State, i: Id, req: VoteRequest)
    requires Tallies(s.nodes, s.past.grants, s.past.counted, s.answered) && MayVote(s, i, req)
    requires s.nodes[i].role != Candidate
    ensures var s' := CastVote(s, i, req);
            Tallies(s'.nodes, s'.past.grants, s'.past.counted, s'.answered)
  {
    var s' := CastVote(s, i, req);
    forall c | c in s'.nodes && s'.nodes[c].role == Candidate
      ensures c in s'.past.counted && TallyOk(c, s'.nodes[c], s'.past.grants, s'.past.counted[c], s'.answered)
    {
      assert TallyOk(c, s.nodes[c], s.past.grants, s.past.counted[c], s.answered);
    }
  }

  lemma CastVoteGrants(s: State, i: Id, req: VoteRequest)
    requires Config(s.nodes) && Electorates(s.nodes, s.past.reigns) && VoteRequests(s.nodes, s.voteRequests)
    requires Grants(s.nodes, s.past.reigns, s.past.grants)
    requires MayVote(s, i, req) && (s.nodes[i].role == Follower || req.term in s.past.reigns)
    ensures Grants(CastVote(s, i, req).nodes, s.past.reigns, CastVote(s, i, req).past.grants)
  {
    var s' := CastVote(s, i, req);
    var r := s.past.reigns;
    var b := Ballot(req.term, i, req.candidateId);
    assert Configured(req.candidateId, s.nodes[req.candidateId], s.nodes.Keys);
    forall g | g in s'.past.grants
      ensures GrantOk(s'.nodes, r, g)
    {
      if g in s.past.grants {
        assert GrantOk(s.nodes, r, g);
      } else if req.term in r && i in r[req.term].quorum {
        assert Configured(r[req.term].leader, s.nodes[r[req.term].leader], s.nodes.Keys);
        assert Bound(s.nodes[i], i, req.term, r[req.term].leader);
      }
    }
    OneGrant(s, i, req);
  }

  /** In a term without a leader, a voter has granted no other vote. */
  lemma OneGrant(s: State, i: Id, req: VoteRequest)
    requires Config(s.nodes) && Grants(s.nodes, s.past.reigns, s.past.grants) && MayVote(s, i, req)
    ensures forall g | g in s.past.grants && g.term == req.term && g.voter == i && g.term !in s.past.reigns ::
              g == Ballot(req.term, i, req.candidateId)
  {
    forall g | g in s.past.grants && g.term == req.term && g.voter == i && g.term !in s.past.reigns
      ensures g == Ballot(req.term, i, req.candidateId)
    {
      assert GrantOk(s.nodes, s.past.reigns, g);
    }
  }

  lemma CountVoteElection(s: State, c: Id, v: Id)
    requires ElectionInv(s) && MayCount(s, c, v)
    ensures ElectionInv(CountVote(s, c, v))
  {
    CountVoteElectorates(s, c, v);
    CountVoteGrants(s, c, v);
    CountVoteTallies(s, c, v);
    CountVoteRequests(s, c, v);
  }

  lemma CountVoteElectorates(s: State, c: Id, v: Id)
    requires Config(s.nodes) && Electorates(s.nodes, s.past.reigns) && MayCount(s, c, v)
    ensures Config(CountVote(s, c, v).nodes) && Electorates(CountVote(s, c, v).nodes, s.past.reigns)
  {
  }

  lemma CountVoteGrants(s: State, c: Id, v: Id)
    requires Grants(s.nodes, s.past.reigns, s.past.grants) && MayCount(s, c, v)
    ensures Grants(CountVote(s, c, v).nodes, s.past.reigns, s.past.grants)
  {
  }

  lemma CountVoteRequests(s: State, c: Id, v: Id)
    requires VoteRequests(s.nodes, s.voteRequests) && MayCount(s, c, v)
    ensures VoteRequests(CountVote(s, c, v).nodes, s.voteRequests)
  {
  }

  lemma CountVoteTallies(s: State, c: Id, v: Id)
    requires Tallies(s.nodes, s.past.grants, s.past.counted, s.answered) && MayCount(s, c, v)
    ensures Tallies(CountVote(s, c, v).nodes, s.past.grants, CountVote(s, c, v).past.counted, CountVote(s, c, v).answered)
  {
  }

  /** A voter counted by a candidate elected nobody in the candidate's term. */
  lemma CountedElectedNobody(s: State, c: Id, v: Id)
    requires Electorates(s.nodes, s.past.reigns) && Grants(s.nodes, s.past.reigns, s.past.grants)
    requires c in s.nodes && s.nodes[c].role == Candidate && s.nodes[c].currentTerm in s.past.reigns
    requires Ballot(s.nodes[c].currentTerm, v, c) in s.past.grants
    ensures v !in s.past.reigns[s.nodes[c].currentTerm].quorum
  {
  }

  /** Election Safety, at the moment that matters: a candidate with a majority
      finds its term without a leader, even where votes were forgotten. */
  lemma CrownIsFirst(s: State, c: Id)
    requires ElectionInv(s) && MayCrown(s, c)
    ensures s.nodes[c].currentTerm !in s.past.reigns
    ensures Quorate(s.past.counted[c], s.nodes.Keys)
  {
    var r, n := s.past.reigns, s.nodes[c];
    var t, voters := n.currentTerm, s.past.counted[c];
    assert TallyOk(c, n, s.past.grants, voters, s.answered);
    assert Configured(c, n, s.nodes.Keys);
    forall v | v in voters
      ensures v in s.nodes
    {
      assert GrantOk(s.nodes, r, Ballot(t, v, c));
    }
    assert Quorate(voters, s.nodes.Keys);
    if t in r {
      var v := QuorumsMeet(voters, r[t].quorum, s.nodes.Keys);
      CountedElectedNobody(s, c, v);
    }
  }

  lemma CrownElection(s: State, c: Id)
    requires ElectionInv(s) && MayCrown(s, c)
    ensures ElectionInv(Crown(s, c))
  {
    var s' := Crown(s, c);
    var t, voters := s.nodes[c].currentTerm, s.past.counted[c];
    CrownIsFirst(s, c);
    assert TallyOk(c, s.nodes[c], s.past.grants, voters, s.answered);
    CrownElectorates(s, c);
    CrownGrants(s, c);
    assert Tallies(s'.nodes, s'.past.grants, s'.past.counted, s'.answered) by {
      forall d | d in s'.nodes && s'.nodes[d].role == Candidate
        ensures d in s'.past.counted && TallyOk(d, s'.nodes[d], s'.past.grants, s'.past.counted[d], s'.answered)
      {
        assert TallyOk(d, s.nodes[d], s.past.grants, s.past.counted[d], s.answered);
      }
    }
  }

  lemma CrownElectorates(s: State, c: Id)
    requires Electorates(s.nodes, s.past.reigns) && Grants(s.nodes, s.past.reigns, s.past.grants)
    requires MayCrown(s, c) && s.nodes[c].currentTerm !in s.past.reigns
    requires TallyOk(c, s.nodes[c], s.past.grants, s.past.counted[c], s.answered)
    requires Quorate(s.past.counted[c], s.nodes.Keys)
    ensures Electorates(Crown(s, c).nodes, Crown(s, c).past.reigns)
  {
  }

  lemma CrownGrants(s: State, c: Id)
    requires Grants(s.nodes, s.past.reigns, s.past.grants)
    requires MayCrown(s, c) && s.nodes[c].currentTerm !in s.past.reigns
    requires TallyOk(c, s.nodes[c], s.past.grants, s.past.counted[c], s.answered)
    ensures Grants(Crown(s, c).nodes, Crown(s, c).past.reigns, s.past.grants)
  {
  }
}
