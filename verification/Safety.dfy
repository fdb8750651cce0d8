/** The safety properties of a single state that follow from the invariant. */
module Safety {
  import opened RaftTypes
  import opened Logs
  import opened Cluster
  import opened Invariant

  lemma {:induction false} SubsetSize<T>(a: set<T>, b: set<T>)
    requires a <= b
    ensures |a| <= |b|
    decreases a
  {
    if a != {} {
      var x :| x in a;
      SubsetSize(a - {x}, b - {x});
    }
  }

  /** Two majorities of one cluster share a member. */
  lemma QuorumsMeet(a: set<Id>, b: set<Id>, ids: set<Id>) returns (v: Id)
    requires Quorate(a, ids) && Quorate(b, ids)
    ensures v in a && v in b
  {
    SubsetSize(a + b, ids);
    assert |a + b| == |a| + |b| - |a * b|;
    v :| v in a * b;
  }

  /** Leader Completeness on the past: every leader after a commit has the
      committed prefix. */
  lemma {:induction false} LeaderHasCommitted(s: State, c: Commit, u: int)
    requires Electorates(s.nodes, s.past.reigns) && Inherited(s.past.reigns, s.past.acks)
    requires Commits(s.nodes.Keys, s.past.reigns, s.past.acks, s.past.commits)
    requires c in s.past.commits && u in s.past.reigns && c.term < u
    ensures c.term in s.past.reigns && Agree(s.past.reigns[u].log, s.past.reigns[c.term].log, c.index)
    decreases u - c.term
  {
    var r := s.past.reigns;
    var v := QuorumsMeet(c.holders, r[u].quorum, s.nodes.Keys);
    assert HeldBy(s.past.acks, c.term, v, c.index);
    forall w | w in r && c.term < w < u
      ensures Agree(r[w].log, r[c.term].log, c.index)
    {
      LeaderHasCommitted(s, c, w);
    }
    assert Carried(r, c.term, c.index, u);
    assert Kept(r[u].log, r, c.term, c.index, u);
  }

  /** Two committed prefixes are prefixes of one another. */
  lemma CommittedAgree(s: State, c: Commit, d: Commit, k: int)
    requires Electorates(s.nodes, s.past.reigns) && Inherited(s.past.reigns, s.past.acks)
    requires Commits(s.nodes.Keys, s.past.reigns, s.past.acks, s.past.commits)
    requires c in s.past.commits && d in s.past.commits && 0 <= k <= c.index && k <= d.index
    ensures c.term in s.past.reigns && d.term in s.past.reigns
    ensures Agree(s.past.reigns[c.term].log, s.past.reigns[d.term].log, k)
  {
    var r := s.past.reigns;
    assert Own(r, c.term, c.index) && Own(r, d.term, d.index);
    if c.term < d.term {
      LeaderHasCommitted(s, c, d.term);
      AgreeDown(r[d.term].log, r[c.term].log, c.index, k);
    } else if d.term < c.term {
      LeaderHasCommitted(s, d, c.term);
      AgreeDown(r[c.term].log, r[d.term].log, d.index, k);
    }
  }

  /** A log backed by a commit agrees up to there with the log of any leader
      whose term is not older than the backing allows. */
  lemma BackedAgrees(s: State, term: int, log: seq<LogEntry>, k: int, u: int)
    requires Electorates(s.nodes, s.past.reigns) && Inherited(s.past.reigns, s.past.acks)
    requires Commits(s.nodes.Keys, s.past.reigns, s.past.acks, s.past.commits)
    requires Backed(s.past.reigns, s.past.commits, term, log, k) && Indexed(log)
    requires u in s.past.reigns && term <= u && Indexed(s.past.reigns[u].log)
    ensures Agree(log, s.past.reigns[u].log, k)
  {
    var r := s.past.reigns;
    if k > 0 {
      var c :| c in s.past.commits && c.term <= term && k <= c.index && c.term in r && Agree(log, r[c.term].log, k);
      if c.term < u {
        LeaderHasCommitted(s, c, u);
        AgreeDown(r[u].log, r[c.term].log, c.index, k);
      }
    }
  }

  /** Log Matching: the same term at the same index means equal logs up to it. */
  lemma AnchoredMatch(a: seq<LogEntry>, b: seq<LogEntry>, r: Reigns)
    requires LogOk(a, r) && LogOk(b, r)
    ensures Matching(a, b)
  {
    forall i | 0 <= i < |a| && i < |b| && a[i].term == b[i].term
      ensures Agree(a, b, i)
    {
      if i == 0 {
        assert a[..1] == [DUMMY] == b[..1];
      } else {
        assert AnchoredAt(a, r, i) && AnchoredAt(b, r, i);
      }
    }
  }
}
