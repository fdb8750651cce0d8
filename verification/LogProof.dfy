/** The moves that write logs or send entries keep every log anchored in the
    logs of the leaders, which is Log Matching. */
module LogProof {
  import opened RaftTypes
  import opened NodeSpec
  import opened Logs
  import opened Cluster
  import opened Invariant
  import opened Growth
  import opened Moves
  import opened Safety

  // ---- becoming leader ----

  lemma CrownGrows(s: State, c: Id)
    requires MayCrown(s, c) && s.nodes[c].currentTerm !in s.past.reigns
    ensures Grows(s.past.reigns, Crown(s, c).past.reigns)
  {
  }

  lemma CrownLog(s: State, c: Id)
    requires LogInv(s) && MayCrown(s, c)
    requires s.nodes[c].currentTerm !in s.past.reigns && s.nodes[c].currentTerm >= 1
    ensures LogInv(Crown(s, c))
  {
    var s', r, r' := Crown(s, c), s.past.reigns, Crown(s, c).past.reigns;
    CrownGrows(s, c);
    forall i | i in s'.nodes
      ensures LogOk(s'.nodes[i].log, r')
    {
      LogOkGrows(s.nodes[i].log, r, r');
    }
    forall t | t in r'
      ensures t >= 1 && LogOk(r'[t].log, r') && Below(r'[t].log, t)
    {
      if t in r { ReignLogsGrow(r, r', t); } else { assert LogOk(s'.nodes[c].log, r'); }
    }
    AppendsGrow(s.nodes.Keys, r, r', s.past.commits, s.past.commits, s.appends);
  }

  // ---- appending a proposal ----

  lemma ExtendGrows(s: State, i: Id, command: Command)
    requires LeaderLogs(s.nodes, s.past.reigns) && MayExtend(s, i)
    ensures Grows(s.past.reigns, Extend(s, i, command).past.reigns)
    ensures SameReigners(s.past.reigns, Extend(s, i, command).past.reigns)
  {
  }

  lemma ExtendedLogOk(s: State, i: Id, command: Command)
    requires LogInv(s) && MayExtend(s, i)
    ensures var s' := Extend(s, i, command);
            LogOk(s'.nodes[i].log, s'.past.reigns) && Below(s'.nodes[i].log, s'.nodes[i].currentTerm)
  {
    var s', r, r' := Extend(s, i, command), s.past.reigns, Extend(s, i, command).past.reigns;
    var log, log' := s.nodes[i].log, s'.nodes[i].log;
    ExtendGrows(s, i, command);
    LogOkGrows(log, r, r');
    assert Below(log, s.nodes[i].currentTerm);
    forall k | 1 <= k < |log'|
      ensures AnchoredAt(log', r', k)
    {
      if k < |log| {
        assert AnchoredAt(log, r', k);
        assert log'[..k + 1] == log[..k + 1];
      }
    }
  }

  lemma ExtendLog(s: State, i: Id, command: Command)
    requires LogInv(s) && MayExtend(s, i)
    ensures LogInv(Extend(s, i, command))
  {
    var s', r, r' := Extend(s, i, command), s.past.reigns, Extend(s, i, command).past.reigns;
    var t := s.nodes[i].currentTerm;
    ExtendGrows(s, i, command);
    ExtendedLogOk(s, i, command);
    forall j | j in s'.nodes && j != i
      ensures LogOk(s'.nodes[j].log, r') && Below(s'.nodes[j].log, s'.nodes[j].currentTerm)
    {
      LogOkGrows(s.nodes[j].log, r, r');
    }
    forall u | u in r' && u != t
      ensures LogOk(r'[u].log, r') && Below(r'[u].log, u)
    {
      ReignLogsGrow(r, r', u);
    }
    AppendsGrow(s.nodes.Keys, r, r', s.past.commits, s.past.commits, s.appends);
  }

  // ---- sending ----

  /** The relaxed commit rule of the receivers rests on this: a request reaches
      to the end of its leader's log, and no commit index it carries is beyond. */
  lemma BuildAppendReachesEnd(n: Node, p: Id)
    requires p in n.nextIndex && 1 <= n.nextIndex[p] <= |n.log|
    ensures var req := BuildAppend(n, p);
            && req.prevLogIndex + |req.entries| == LastLogIndex(n.log)
            && req.entries == n.log[req.prevLogIndex + 1..]
            && req.prevLogTerm == if req.prevLogIndex > 0 then n.log[req.prevLogIndex].term else 0
  {
  }

  lemma BuiltOk(s: State, i: Id, p: Id)
    requires Config(s.nodes) && LeaderLogs(s.nodes, s.past.reigns)
    requires i in s.nodes && s.nodes[i].role == Leader && p in s.nodes[i].peers
    requires MapsOk(s.nodes[i], s.past.acks)
    requires Backed(s.past.reigns, s.past.commits, s.nodes[i].currentTerm, s.nodes[i].log, s.nodes[i].commitIndex)
    ensures AppendOk(s.nodes.Keys, s.past.reigns, s.past.commits, AppendMsg(p, BuildAppend(s.nodes[i], p)))
  {
    var n := s.nodes[i];
    assert Configured(i, n, s.nodes.Keys);
    assert p in (set q | q in n.peers) && p in s.nodes.Keys - {i};
    BuildAppendReachesEnd(n, p);
  }

  lemma PostLog(s: State, i: Id, msgs: set<AppendMsg>)
    requires LogInv(s) && Config(s.nodes) && LeaderMaps(s.nodes, s.past.acks)
    requires Progress(s.nodes, s.past.reigns, s.past.commits)
    requires i in s.nodes && s.nodes[i].role == Leader && msgs <= Broadcast(s.nodes[i])
    ensures LogInv(Post(s, msgs))
  {
    var n := s.nodes[i];
    forall m | m in msgs
      ensures AppendOk(s.nodes.Keys, s.past.reigns, s.past.commits, m)
    {
      var p :| p in n.peers && m == AppendMsg(p, BuildAppend(n, p));
      BuiltOk(s, i, p);
    }
  }

  // ---- receiving ----

  /** What accepting a request does to the follower's log: it ends up agreeing
      with the leader's up to the last entry sent, and keeps what they shared. */
  lemma MergeAgrees(s: State, i: Id, req: AppendRequest)
    requires LogInv(s) && MayMerge(s, i, req)
    ensures var mine, m := s.nodes[i].log, req.prevLogIndex + |req.entries|;
            && 0 <= req.prevLogIndex < |mine| && req.term in s.past.reigns
            && var theirs, merged := s.past.reigns[req.term].log, AppendFrom(mine, req.prevLogIndex + 1, req.entries);
               && Agree(merged, theirs, m)
               && (merged == mine || merged == theirs[..m + 1])
               && forall k | Agree(mine, theirs, k) :: Agree(merged, mine, k) && Agree(merged, theirs, k)
  {
    var r, mine := s.past.reigns, s.nodes[i].log;
    assert AppendOk(s.nodes.Keys, r, s.past.commits, AppendMsg(i, req));
    var theirs := r[req.term].log;
    var prev := req.prevLogIndex;
    AnchoredMatch(mine, theirs, r);
    assert mine[0].term == theirs[0].term;
    assert Agree(mine, theirs, prev);
    MergeResult(mine, theirs, prev, req.entries);
    forall k | Agree(mine, theirs, k)
      ensures Agree(AppendFrom(mine, prev + 1, req.entries), mine, k)
      ensures Agree(AppendFrom(mine, prev + 1, req.entries), theirs, k)
    {
      MergeKeepsShared(mine, theirs, prev, req.entries, k);
    }
    MergeKeepsShared(mine, theirs, prev, req.entries, prev);
  }

  lemma PrefixLogOk(log: seq<LogEntry>, m: int, r: Reigns, term: int)
    requires LogOk(log, r) && Below(log, term) && 0 <= m < |log|
    ensures LogOk(log[..m + 1], r) && Below(log[..m + 1], term)
  {
    var short := log[..m + 1];
    forall k | 1 <= k < |short|
      ensures AnchoredAt(short, r, k)
    {
      assert AnchoredAt(log, r, k);
      assert short[..k + 1] == log[..k + 1];
    }
  }

  lemma MergeLog(s: State, i: Id, req: AppendRequest)
    requires LogInv(s) && MayMerge(s, i, req) && 0 <= req.prevLogIndex < |s.nodes[i].log|
    ensures LogInv(Merge(s, i, req))
  {
    var s', r := Merge(s, i, req), s.past.reigns;
    MergeAgrees(s, i, req);
    PrefixLogOk(r[req.term].log, req.prevLogIndex + |req.entries|, r, req.term);
  }
}
