/** The moves keep the promises behind Leader Completeness: what a server
    acknowledged, its later votes and the logs it elects still carry. */
module AckProof {
  import opened RaftTypes
  import opened NodeSpec
  import opened Logs
  import opened Cluster
  import opened Invariant
  import opened Growth
  import opened Moves
  import opened LogProof

  // ---- growth of the past ----

  lemma DurableGrows(s: State, r': Reigns)
    requires Durable(s.nodes, s.past.reigns, s.past.acks) && Acks(s.nodes, s.past.reigns, s.past.acks)
    requires ReignLogs(s.past.reigns) && Grows(s.past.reigns, r')
    ensures Acks(s.nodes, r', s.past.acks) && Durable(s.nodes, r', s.past.acks)
  {
    var r := s.past.reigns;
    forall a, k | a in s.past.acks && 0 <= k <= a.index && a.term in r' && a.node in s.nodes
      ensures KeptBy(s.nodes[a.node], r', a.term, k)
    {
      var n := s.nodes[a.node];
      assert KeptBy(n, r, a.term, k);
      KeptGrows(n.log, r, r', a.term, k, n.currentTerm + 1);
    }
  }

  lemma BallotsGrow(s: State, r': Reigns)
    requires Ballots(s.nodes, s.past.reigns, s.past.acks, s.past.grants) && Acks(s.nodes, s.past.reigns, s.past.acks)
    requires ReignLogs(s.past.reigns) && Grows(s.past.reigns, r')
    ensures Ballots(s.nodes, r', s.past.acks, s.past.grants)
  {
    var r := s.past.reigns;
    forall g, a, k |
      && g in s.past.grants && a in s.past.acks && a.node == g.voter && a.term < g.term && 0 <= k <= a.index
      && g.candidate in s.nodes && s.nodes[g.candidate].role == Candidate && s.nodes[g.candidate].currentTerm == g.term
      && g.term !in r' && Own(r', a.term, k)
      ensures Kept(s.nodes[g.candidate].log, r', a.term, k, g.term)
    {
      OwnShrinks(r, r', a.term, k);
      KeptGrows(s.nodes[g.candidate].log, r, r', a.term, k, g.term);
    }
  }

  /** A reign that existed before keeps its inheritance while the past grows. */
  lemma InheritedGrows(s: State, r': Reigns, u: int, a: Ack, k: int)
    requires Inherited(s.past.reigns, s.past.acks) && Acks(s.nodes, s.past.reigns, s.past.acks)
    requires ReignLogs(s.past.reigns) && Grows(s.past.reigns, r')
    requires u in s.past.reigns && a in s.past.acks && a.node in r'[u].quorum && a.term < u && 0 <= k <= a.index
    requires Own(r', a.term, k)
    ensures Kept(r'[u].log, r', a.term, k, u)
  {
    var r := s.past.reigns;
    OwnShrinks(r, r', a.term, k);
    assert Kept(r[u].log, r, a.term, k, u);
    KeptGrows(r[u].log, r, r', a.term, k, u);
    KeptLonger(r[u].log, r'[u].log, u, r', a.term, k, u);
  }

  // ---- elections ----

  lemma TimeoutAck(s: State, i: Id)
    requires AckInv(s) && i in s.nodes && Grants(s.nodes, s.past.reigns, s.past.grants)
    ensures AckInv(DoTimeout(s, i))
  {
    var s', r := DoTimeout(s, i), s.past.reigns;
    var n := s.nodes[i];
    forall a, k | a in s.past.acks && 0 <= k <= a.index && a.term in r && a.node in s'.nodes
      ensures KeptBy(s'.nodes[a.node], r, a.term, k)
    {
      assert KeptBy(s.nodes[a.node], r, a.term, k);
      KeptLater(s.nodes[a.node].log, r, a.term, k, s.nodes[a.node].currentTerm + 1, s'.nodes[a.node].currentTerm + 1);
    }
    forall g, a, k |
      && g in s'.past.grants && a in s.past.acks && a.node == g.voter && a.term < g.term && 0 <= k <= a.index
      && g.candidate in s'.nodes && s'.nodes[g.candidate].role == Candidate && s'.nodes[g.candidate].currentTerm == g.term
      && g.term !in r && Own(r, a.term, k)
      ensures Kept(s'.nodes[g.candidate].log, r, a.term, k, g.term)
    {
      if g !in s.past.grants {
        assert KeptBy(n, r, a.term, k);
      } else {
        assert GrantOk(s.nodes, r, g);
      }
    }
  }

  /** The up-to-date check of a vote hands the voter's acknowledged prefix on to
      the candidate, if the leaders in between had it. */
  lemma UpToDateInherits(mine: seq<LogEntry>, theirs: seq<LogEntry>, r: Reigns, t: int, k: int, term: int)
    requires LogOk(mine, r) && LogOk(theirs, r) && ReignLogs(r)
    requires Own(r, t, k) && t >= 1 && Agree(mine, r[t].log, k)
    requires Below(theirs, term) && term !in r && Carried(r, t, k, term)
    requires UpToDate(LastLogTerm(theirs), LastLogIndex(theirs), mine)
    ensures Agree(theirs, r[t].log, k)
  {
    var last, top := LastLogTerm(theirs), |theirs| - 1;
    assert mine[..k + 1][k] == r[t].log[..k + 1][k];
    assert mine[|mine| - 1].term >= mine[k].term == t;
    assert last >= LastLogTerm(mine) >= t;
    assert AnchoredAt(theirs, r, top);
    if last == LastLogTerm(mine) {
      assert AnchoredAt(mine, r, |mine| - 1);
      AgreeDown(theirs, r[last].log, top, k);
      AgreeDown(mine, r[last].log, |mine| - 1, k);
    } else {
      assert Agree(r[last].log, r[t].log, k);
      assert r[last].log[..k + 1][k] == r[t].log[..k + 1][k];
      assert r[last].log[top] == theirs[..top + 1][top];
      assert k <= top by {
        assert LogOk(r[last].log, r);
      }
      AgreeDown(theirs, r[last].log, top, k);
    }
  }

  lemma CastVoteAck(s: State, i: Id, req: VoteRequest)
    requires AckInv(s) && NodeLogs(s.nodes, s.past.reigns) && ReignLogs(s.past.reigns)
    requires VoteRequests(s.nodes, s.voteRequests) && MayVote(s, i, req)
    ensures AckInv(CastVote(s, i, req))
  {
    var s', r := CastVote(s, i, req), s.past.reigns;
    var n := s.nodes[i];
    forall a, k | a in s.past.acks && 0 <= k <= a.index && a.term in r && a.node in s'.nodes
      ensures KeptBy(s'.nodes[a.node], r, a.term, k)
    {
      assert KeptBy(s.nodes[a.node], r, a.term, k);
    }
    forall g, a, k |
      && g in s'.past.grants && a in s.past.acks && a.node == g.voter && a.term < g.term && 0 <= k <= a.index
      && g.candidate in s'.nodes && s'.nodes[g.candidate].role == Candidate && s'.nodes[g.candidate].currentTerm == g.term
      && g.term !in r && Own(r, a.term, k)
      ensures Kept(s'.nodes[g.candidate].log, r, a.term, k, g.term)
    {
      if g !in s.past.grants {
        CastVoteInherits(s, i, req, a, k);
      }
    }
  }

  lemma CastVoteInherits(s: State, i: Id, req: VoteRequest, a: Ack, k: int)
    requires Durable(s.nodes, s.past.reigns, s.past.acks)
    requires NodeLogs(s.nodes, s.past.reigns) && ReignLogs(s.past.reigns)
    requires VoteRequests(s.nodes, s.voteRequests) && MayVote(s, i, req)
    requires a in s.past.acks && a.node == i && 0 <= k <= a.index && Own(s.past.reigns, a.term, k)
    requires req.candidateId in s.nodes && s.nodes[req.candidateId].role == Candidate
    requires s.nodes[req.candidateId].currentTerm == req.term && req.term !in s.past.reigns
    ensures Kept(s.nodes[req.candidateId].log, s.past.reigns, a.term, k, req.term)
  {
    var r, n, c := s.past.reigns, s.nodes[i], s.nodes[req.candidateId];
    assert KeptBy(n, r, a.term, k);
    if Carried(r, a.term, k, req.term) {
      assert Carried(r, a.term, k, n.currentTerm + 1);
      UpToDateInherits(n.log, c.log, r, a.term, k, req.term);
    }
  }

  lemma CrownAck(s: State, c: Id)
    requires AckInv(s) && ReignLogs(s.past.reigns) && MayCrown(s, c)
    requires s.nodes[c].currentTerm !in s.past.reigns
    requires TallyOk(c, s.nodes[c], s.past.grants, s.past.counted[c], s.answered)
    ensures AckInv(Crown(s, c))
  {
    var s', r, r' := Crown(s, c), s.past.reigns, Crown(s, c).past.reigns;
    var t := s.nodes[c].currentTerm;
    CrownGrows(s, c);
    DurableGrows(s, r');
    BallotsGrow(s, r');
    assert Durable(s'.nodes, r', s.past.acks) by {
      forall a, k | a in s.past.acks && 0 <= k <= a.index && a.term in r' && a.node in s'.nodes
        ensures KeptBy(s'.nodes[a.node], r', a.term, k)
      {
        assert KeptBy(s.nodes[a.node], r', a.term, k);
      }
    }
    forall u, a, k |
      && u in r' && a in s.past.acks && a.node in r'[u].quorum && a.term < u && 0 <= k <= a.index
      && Own(r', a.term, k)
      ensures Kept(r'[u].log, r', a.term, k, u)
    {
      if u in r {
        InheritedGrows(s, r', u, a, k);
      } else {
        var g := Ballot(t, a.node, c);
        OwnShrinks(r, r', a.term, k);
        assert Kept(s.nodes[g.candidate].log, r, a.term, k, g.term);
        KeptGrows(s.nodes[c].log, r, r', a.term, k, t);
      }
    }
  }

  // ---- replication ----

  lemma ExtendAck(s: State, i: Id, command: Command)
    requires AckInv(s) && LogInv(s) && MayExtend(s, i)
    requires Electorates(s.nodes, s.past.reigns) && Grants(s.nodes, s.past.reigns, s.past.grants)
    ensures AckInv(Extend(s, i, command))
  {
    ExtendGrows(s, i, command);
    ExtendDurable(s, i, command);
    ExtendBallots(s, i, command);
    ExtendInherited(s, i, command);
  }

  lemma ExtendDurable(s: State, i: Id, command: Command)
    requires Acks(s.nodes, s.past.reigns, s.past.acks) && Durable(s.nodes, s.past.reigns, s.past.acks)
    requires LeaderLogs(s.nodes, s.past.reigns) && ReignLogs(s.past.reigns) && MayExtend(s, i)
    ensures var s' := Extend(s, i, command);
            Acks(s'.nodes, s'.past.reigns, s'.past.acks) && Durable(s'.nodes, s'.past.reigns, s'.past.acks)
  {
    var s', r' := Extend(s, i, command), Extend(s, i, command).past.reigns;
    var t, log, log' := s.nodes[i].currentTerm, s.nodes[i].log, s'.nodes[i].log;
    ExtendGrows(s, i, command);
    DurableGrows(s, r');
    forall a, k | a in s'.past.acks && 0 <= k <= a.index && a.term in r' && a.node in s'.nodes
      ensures KeptBy(s'.nodes[a.node], r', a.term, k)
    {
      if a in s.past.acks {
        assert KeptBy(s.nodes[a.node], r', a.term, k);
        if a.node == i {
          KeptLonger(log, log', t, r', a.term, k, t + 1);
        }
      }
    }
  }

  lemma ExtendBallots(s: State, i: Id, command: Command)
    requires Acks(s.nodes, s.past.reigns, s.past.acks) && Ballots(s.nodes, s.past.reigns, s.past.acks, s.past.grants)
    requires Grants(s.nodes, s.past.reigns, s.past.grants)
    requires LeaderLogs(s.nodes, s.past.reigns) && ReignLogs(s.past.reigns) && MayExtend(s, i)
    ensures var s' := Extend(s, i, command);
            Ballots(s'.nodes, s'.past.reigns, s'.past.acks, s'.past.grants)
  {
    var s', r' := Extend(s, i, command), Extend(s, i, command).past.reigns;
    ExtendGrows(s, i, command);
    BallotsGrow(s, r');
    forall g | g in s.past.grants
      ensures s.nodes[g.voter].currentTerm >= g.term
    {
      assert GrantOk(s.nodes, s.past.reigns, g);
    }
  }

  lemma ExtendInherited(s: State, i: Id, command: Command)
    requires Acks(s.nodes, s.past.reigns, s.past.acks) && Inherited(s.past.reigns, s.past.acks)
    requires Electorates(s.nodes, s.past.reigns)
    requires LeaderLogs(s.nodes, s.past.reigns) && ReignLogs(s.past.reigns) && MayExtend(s, i)
    ensures Inherited(Extend(s, i, command).past.reigns, Extend(s, i, command).past.acks)
  {
    var s', r, r' := Extend(s, i, command), s.past.reigns, Extend(s, i, command).past.reigns;
    ExtendGrows(s, i, command);
    forall u | u in r && i in r[u].quorum
      ensures s.nodes[i].currentTerm >= u
    {
      assert Bound(s.nodes[i], i, u, r[u].leader);
    }
    forall u, a, k |
      && u in r' && a in s'.past.acks && a.node in r'[u].quorum && a.term < u && 0 <= k <= a.index
      && Own(r', a.term, k)
      ensures Kept(r'[u].log, r', a.term, k, u)
    {
      if a in s.past.acks { InheritedGrows(s, r', u, a, k); }
    }
  }

  lemma MergeAck(s: State, i: Id, req: AppendRequest)
    requires AckInv(s) && LogInv(s) && MayMerge(s, i, req) && 0 <= req.prevLogIndex < |s.nodes[i].log|
    requires Electorates(s.nodes, s.past.reigns) && Grants(s.nodes, s.past.reigns, s.past.grants)
    ensures AckInv(Merge(s, i, req))
  {
    var s', r := Merge(s, i, req), s.past.reigns;
    MergeAgrees(s, i, req);
    forall a, k | a in s'.past.acks && 0 <= k <= a.index && a.term in r && a.node in s'.nodes
      ensures KeptBy(s'.nodes[a.node], r, a.term, k)
    {
      if a.node == i { MergeKept(s, i, req, a, k); } else { assert KeptBy(s.nodes[a.node], r, a.term, k); }
    }
    MergeLater(s, i, req);
  }

  lemma MergeKept(s: State, i: Id, req: AppendRequest, a: Ack, k: int)
    requires Acks(s.nodes, s.past.reigns, s.past.acks) && Durable(s.nodes, s.past.reigns, s.past.acks)
    requires LogInv(s) && MayMerge(s, i, req) && 0 <= req.prevLogIndex < |s.nodes[i].log|
    requires a in Merge(s, i, req).past.acks && a.node == i && 0 <= k <= a.index && a.term in s.past.reigns
    ensures KeptBy(Merge(s, i, req).nodes[i], s.past.reigns, a.term, k)
  {
    hide LogInv;
    var r, mine, merged := s.past.reigns, s.nodes[i].log, Merge(s, i, req).nodes[i].log;
    MergeAgrees(s, i, req);
    var theirs := r[req.term].log;
    if a in s.past.acks {
      assert KeptBy(s.nodes[i], r, a.term, k);
      if Carried(r, a.term, k, req.term + 1) {
        CarriedIsShared(r, mine, a.term, k, req.term);
      }
    } else {
      AgreeDown(merged, theirs, a.index, k);
    }
  }

  lemma CarriedIsShared(r: Reigns, log: seq<LogEntry>, t: int, k: int, term: int)
    requires t in r && term in r && t <= term && Carried(r, t, k, term + 1) && Kept(log, r, t, k, term + 1)
    ensures Agree(log, r[t].log, k) && Agree(log, r[term].log, k)
  {
    assert t < term ==> Agree(r[term].log, r[t].log, k);
  }

  lemma MergeLater(s: State, i: Id, req: AppendRequest)
    requires Acks(s.nodes, s.past.reigns, s.past.acks) && Inherited(s.past.reigns, s.past.acks)
    requires Ballots(s.nodes, s.past.reigns, s.past.acks, s.past.grants)
    requires MayMerge(s, i, req) && 0 <= req.prevLogIndex < |s.nodes[i].log|
    requires Electorates(s.nodes, s.past.reigns) && Grants(s.nodes, s.past.reigns, s.past.grants)
    ensures var s' := Merge(s, i, req);
            Ballots(s'.nodes, s'.past.reigns, s'.past.acks, s'.past.grants) && Inherited(s'.past.reigns, s'.past.acks)
  {
  }
}
