/** Every step of the cluster is a few moves, so every step keeps the invariant. */
module StepProof {
  import opened RaftTypes
  import opened NodeSpec
  import opened Logs
  import opened Cluster
  import opened Invariant
  import opened Growth
  import opened Moves
  import opened ElectionProof
  import opened LogProof
  import opened AckProof
  import opened CommitProof

  lemma Parts(s: State)
    requires Inv(s)
    ensures ElectionInv(s) && LogInv(s) && AckInv(s) && CommitInv(s)
    ensures Config(s.nodes) && Electorates(s.nodes, s.past.reigns) && Grants(s.nodes, s.past.reigns, s.past.grants)
    ensures VoteRequests(s.nodes, s.voteRequests)
    ensures NodeLogs(s.nodes, s.past.reigns) && ReignLogs(s.past.reigns) && LeaderLogs(s.nodes, s.past.reigns)
    ensures Appends(s.nodes.Keys, s.past.reigns, s.past.commits, s.appends)
    ensures Inherited(s.past.reigns, s.past.acks)
    ensures Commits(s.nodes.Keys, s.past.reigns, s.past.acks, s.past.commits)
    ensures Progress(s.nodes, s.past.reigns, s.past.commits) && LeaderMaps(s.nodes, s.past.acks) && AllSent(s.nodes)
  {
  }

  /** What the invariant says of one server. */
  lemma NodeFacts(s: State, i: Id)
    requires Inv(s) && i in s.nodes
    ensures var n, r := s.nodes[i], s.past.reigns;
            && Configured(i, n, s.nodes.Keys) && LogOk(n.log, r) && SentOk(n) && n.currentTerm >= 0
            && Backed(r, s.past.commits, n.currentTerm, n.log, n.commitIndex)
            && 0 <= n.lastApplied <= n.commitIndex < |n.log|
            && (n.role == Leader ==> MapsOk(n, s.past.acks)
                                     && n.currentTerm in r && r[n.currentTerm].leader == i && r[n.currentTerm].log == n.log)
  {
    hide ElectionInv, LogInv, AckInv, CommitInv, Electorates, Grants, Tallies, VoteRequests, VoteReplies, ReignLogs, Appends,
         AppendReplies, Acks, Durable, Ballots, Inherited, Commits;
    Parts(s);
  }

  lemma LogInvOf(s: State)
    requires Inv(s)
    ensures LogInv(s)
  {
  }

  lemma CommitsOf(s: State)
    requires Inv(s)
    ensures Commits(s.nodes.Keys, s.past.reigns, s.past.acks, s.past.commits)
  {
  }

  lemma AppendFacts(s: State, m: AppendMsg)
    requires Inv(s) && m in s.appends
    ensures AppendOk(s.nodes.Keys, s.past.reigns, s.past.commits, m)
  {
    hide ElectionInv, LogInv, AckInv, CommitInv;
    Parts(s);
  }

  // ---- moves keep the whole invariant ----

  lemma StepDownInv(s: State, i: Id, term: int)
    requires Inv(s) && MayStepDown(s, i, term)
    ensures Inv(StepDown(s, i, term))
  {
    hide ElectionInv, LogInv, AckInv, CommitInv;
    var s' := StepDown(s, i, term);
    StepDownElection(s, i, term);
    LogFrame(s, s');
    AckFrame(s, s');
    CommitFrame(s, s');
  }

  lemma TimeoutInv(s: State, i: Id)
    requires Inv(s) && i in s.nodes && s.nodes[i].role != Leader
    ensures Inv(DoTimeout(s, i))
  {
    hide ElectionInv, LogInv, AckInv, CommitInv,
         Config, Electorates, Grants, Tallies, VoteRequests, VoteReplies, NodeLogs, ReignLogs, LeaderLogs, Appends,
         AppendReplies, Acks, Durable, Ballots, Inherited, Commits, Progress, LeaderMaps, AllSent;
    Parts(s);
    var s' := DoTimeout(s, i);
    TimeoutElection(s, i);
    LogFrame(s, s');
    TimeoutAck(s, i);
    CommitFrame(s, s');
  }

  lemma CastVoteInv(s: State, i: Id, req: VoteRequest)
    requires Inv(s) && MayVote(s, i, req)
    ensures Inv(CastVote(s, i, req))
  {
    hide ElectionInv, LogInv, AckInv, CommitInv,
         Config, Electorates, Grants, Tallies, VoteRequests, VoteReplies, NodeLogs, ReignLogs, LeaderLogs, Appends,
         AppendReplies, Acks, Durable, Ballots, Inherited, Commits, Progress, LeaderMaps, AllSent;
    Parts(s);
    var s' := CastVote(s, i, req);
    CastVoteElection(s, i, req);
    LogFrame(s, s');
    CastVoteAck(s, i, req);
    CommitFrame(s, s');
  }

  lemma CountVoteInv(s: State, c: Id, v: Id)
    requires Inv(s) && MayCount(s, c, v)
    ensures Inv(CountVote(s, c, v))
  {
    hide ElectionInv, LogInv, AckInv, CommitInv;
    var s' := CountVote(s, c, v);
    CountVoteElection(s, c, v);
    LogFrame(s, s');
    AckFrame(s, s');
    CommitFrame(s, s');
  }

  lemma CrownInv(s: State, c: Id)
    requires Inv(s) && MayCrown(s, c)
    ensures Inv(Crown(s, c))
  {
    CrownIsFirst(s, c);
    assert TallyOk(c, s.nodes[c], s.past.grants, s.past.counted[c], s.answered);
    CrownElection(s, c);
    CrownLog(s, c);
    CrownAck(s, c);
    CrownCommit(s, c);
  }

  lemma ExtendInv(s: State, i: Id, command: Command)
    requires Inv(s) && MayExtend(s, i)
    ensures Inv(Extend(s, i, command))
  {
    hide ElectionInv, LogInv, AckInv, CommitInv,
         Config, Electorates, Grants, Tallies, VoteRequests, VoteReplies, NodeLogs, ReignLogs, LeaderLogs, Appends,
         AppendReplies, Acks, Durable, Ballots, Inherited, Commits, Progress, LeaderMaps, AllSent;
    Parts(s);
    var s' := Extend(s, i, command);
    ExtendGrows(s, i, command);
    ElectionFrame(s, s');
    ExtendLog(s, i, command);
    ExtendAck(s, i, command);
    ExtendCommit(s, i, command);
  }

  lemma MergeInv(s: State, i: Id, req: AppendRequest)
    requires Inv(s) && MayMerge(s, i, req) && 0 <= req.prevLogIndex < |s.nodes[i].log|
    ensures Inv(Merge(s, i, req))
  {
    hide ElectionInv, LogInv, AckInv, CommitInv,
         Config, Electorates, Grants, Tallies, VoteRequests, VoteReplies, NodeLogs, ReignLogs, LeaderLogs, Appends,
         AppendReplies, Acks, Durable, Ballots, Inherited, Commits, Progress, LeaderMaps, AllSent;
    Parts(s);
    var s' := Merge(s, i, req);
    MergeKeepsCommitted(s, i, req);
    ElectionFrame(s, s');
    MergeLog(s, i, req);
    MergeAck(s, i, req);
    MergeCommit(s, i, req);
  }

  lemma PostInv(s: State, i: Id, msgs: set<AppendMsg>)
    requires Inv(s) && i in s.nodes && s.nodes[i].role == Leader && msgs <= Broadcast(s.nodes[i])
    ensures Inv(Post(s, msgs))
  {
    assert Config(s.nodes) && LeaderMaps(s.nodes, s.past.acks);
    assert Progress(s.nodes, s.past.reigns, s.past.commits);
    hide LogInv, Config, LeaderMaps, Progress, Electorates, Grants, Tallies, Durable, Ballots, Inherited, Commits;
    PostLog(s, i, msgs);
  }

  /** A change of one server's commit index, delivery or leader maps. */
  predicate QuietNode(n: Node, n': Node) {
    n' == n.(commitIndex := n'.commitIndex, lastApplied := n'.lastApplied, sent := n'.sent,
             nextIndex := n'.nextIndex, matchIndex := n'.matchIndex)
  }

  lemma QuietSame(s: State, s': State, i: Id)
    requires i in s.nodes && i in s'.nodes
    requires s' == Put(s, i, s'.nodes[i]).(past := s.past.(commits := s'.past.commits))
    requires QuietNode(s.nodes[i], s'.nodes[i]) && s.past.commits <= s'.past.commits
    ensures ElectionSame(s, s') && LogSame(s, s') && AckSame(s, s')
  {
  }

  lemma QuietInv(s: State, s': State, i: Id)
    requires Inv(s) && i in s.nodes && i in s'.nodes
    requires s' == Put(s, i, s'.nodes[i]).(past := s.past.(commits := s'.past.commits))
    requires QuietNode(s.nodes[i], s'.nodes[i])
    requires s.past.commits <= s'.past.commits
    requires Commits(s.nodes.Keys, s.past.reigns, s.past.acks, s'.past.commits)
    requires var n := s'.nodes[i];
             && Backed(s.past.reigns, s'.past.commits, n.currentTerm, n.log, n.commitIndex)
             && 0 <= n.lastApplied <= n.commitIndex
             && (n.role == Leader ==> MapsOk(n, s.past.acks)) && SentOk(n)
    ensures Inv(s')
  {
    hide ElectionInv, LogInv, AckInv, CommitInv, ElectionSame, LogSame, AckSame, Commits, Backed, MapsOk, SentOk;
    QuietSame(s, s', i);
    PutCommit(s, s', i);
    ElectionFrame(s, s');
    LogFrame(s, s');
    AckFrame(s, s');
  }

  // ---- bookkeeping ----

  lemma AnsweredInv(s: State, b: Ballot)
    requires Inv(s)
    ensures Inv(s.(answered := s.answered + {b}))
  {
  }

  lemma VoteReplyInv(s: State, r: VoteReply)
    requires Inv(s) && r.voter in s.nodes && r.voter != r.req.candidateId
    requires r.resp.granted ==> r.resp.term == r.req.term && BallotOf(r) in s.past.grants
    ensures Inv(s.(voteReplies := s.voteReplies + {r}))
  {
    hide LogInv, AckInv, CommitInv, Config, Electorates, Grants, Tallies, VoteRequests;
    var s' := s.(voteReplies := s.voteReplies + {r});
    LogFrame(s, s');
    AckFrame(s, s');
    CommitFrame(s, s');
  }

  lemma AppendReplyInv(s: State, r: AppendReply)
    requires Inv(s) && AppendMsg(r.from, r.req) in s.appends
    requires r.resp.success ==>
               r.resp.term == r.req.term && Ack(r.req.term, r.from, r.req.prevLogIndex + |r.req.entries|) in s.past.acks
    ensures Inv(s.(appendReplies := s.appendReplies + {r}))
  {
    hide ElectionInv, AckInv, CommitInv, NodeLogs, ReignLogs, LeaderLogs, Appends;
    var s' := s.(appendReplies := s.appendReplies + {r});
    ElectionFrame(s, s');
    AckFrame(s, s');
    CommitFrame(s, s');
  }

  // ---- steps ----

  /** A granted vote is a vote of the request's term; so is every accepted append. */
  lemma GrantedInTerm(n: Node, req: VoteRequest)
    ensures OnVoteRequest(n, req).1.granted ==> OnVoteRequest(n, req).1.term == req.term
  {
  }

  lemma SuccessInTerm(n: Node, req: AppendRequest, full: set<int>)
    requires Sane(n)
    ensures OnAppendRequest(n, req, full).1.success ==> OnAppendRequest(n, req, full).1.term == req.term
  {
  }

  lemma VoteInv(s: State, i: Id, req: VoteRequest)
    requires Inv(s) && i in s.nodes && req in s.voteRequests && i != req.candidateId
    ensures Inv(DoVote(s, i, req))
  {
    hide Inv;
    var n := s.nodes[i];
    var s1 := if req.term > n.currentTerm then StepDown(s, i, req.term) else s;
    if req.term > n.currentTerm { StepDownInv(s, i, req.term); }
    var n1 := Adopt(n, req.term);
    assert s1 == Put(s, i, n1);
    var s2 := if ShouldVoteFor(n1, req) then CastVote(s1, i, req) else s1;
    if ShouldVoteFor(n1, req) { CastVoteInv(s1, i, req); }
    var r := VoteReply(i, req, OnVoteRequest(n, req).1);
    VoteReplyInv(s2, r);
    assert DoVote(s, i, req) == s2.(voteReplies := s2.voteReplies + {r});
  }

  /** A fresh granted reply to a candidate is a vote not counted yet. */
  lemma FreshVoteCounts(s: State, r: VoteReply)
    requires Inv(s) && Enabled(s, DeliverVoteReply(r)) && Counts(s.nodes[r.req.candidateId], r.resp)
    ensures MayCount(s, r.req.candidateId, r.voter)
    ensures BallotOf(r) == Ballot(s.nodes[r.req.candidateId].currentTerm, r.voter, r.req.candidateId)
  {
  }

  lemma VoteReplyStepInv(s: State, r: VoteReply)
    requires Inv(s) && AllSane(s) && Enabled(s, DeliverVoteReply(r))
    ensures Inv(DoVoteReply(s, r))
  {
    hide Inv;
    var c, n := r.req.candidateId, s.nodes[r.req.candidateId];
    if Counts(n, r.resp) {
      FreshVoteCounts(s, r);
      var s1 := CountVote(s, c, r.voter);
      CountVoteInv(s, c, r.voter);
      if Wins(n, r.resp) {
        var s2 := Crown(s1, c);
        CrownInv(s1, c);
        PostInv(s2, c, Broadcast(s2.nodes[c]));
        assert DoVoteReply(s, r) == Post(s2, Broadcast(s2.nodes[c]));
      } else {
        assert DoVoteReply(s, r) == s1;
      }
    } else if n.role == Candidate && r.resp.term > n.currentTerm {
      StepDownInv(s, c, r.resp.term);
      AnsweredInv(StepDown(s, c, r.resp.term), BallotOf(r));
    } else {
      AnsweredInv(s, BallotOf(r));
      assert Put(s, c, n) == s;
    }
  }

  lemma SubmitInv(s: State, i: Id, command: Command)
    requires Inv(s) && i in s.nodes
    ensures Inv(DoSubmit(s, i, command))
  {
    hide Inv;
    if s.nodes[i].role == Leader {
      NodeFacts(s, i);
      var s1 := Extend(s, i, command);
      ExtendInv(s, i, command);
      PostInv(s1, i, Broadcast(s1.nodes[i]));
      assert DoSubmit(s, i, command) == Post(s1, Broadcast(s1.nodes[i]));
    }
  }

  // ---- receiving an append ----

  /** The state once the receiver has accepted the sender as leader of the term. */
  function Welcome(s: State, m: AppendMsg): State
    requires m.to in s.nodes
  {
    Put(s, m.to, AcceptLeader(s.nodes[m.to], m.req))
  }

  lemma WelcomeInv(s: State, m: AppendMsg)
    requires Inv(s) && m in s.appends && m.to in s.nodes && m.req.term >= s.nodes[m.to].currentTerm
    ensures Inv(Welcome(s, m))
    ensures var n := Welcome(s, m).nodes[m.to]; n.role == Follower && n.currentTerm == m.req.term
    ensures AcceptLeader(s.nodes[m.to], m.req).log == s.nodes[m.to].log
  {
    hide Inv;
    var i, req, n := m.to, m.req, s.nodes[m.to];
    AppendFacts(s, m);
    NodeFacts(s, i);
    if req.term > n.currentTerm || n.role == Candidate {
      StepDownInv(s, i, req.term);
    } else {
      assert Welcome(s, m) == s;
    }
  }

  /** On every accepted request the receiver's commit rule yields the leader's
      commit index, which is also the smaller of it and the last new entry. */
  lemma CommitRuleExact(s: State, i: Id, req: AppendRequest)
    requires LogInv(s) && MayMerge(s, i, req)
    ensures 0 <= req.prevLogIndex < |s.nodes[i].log|
    ensures var merged := AppendFrom(s.nodes[i].log, req.prevLogIndex + 1, req.entries);
            && Min(req.leaderCommit, LastLogIndex(merged)) == req.leaderCommit
            && Min(req.leaderCommit, req.prevLogIndex + |req.entries|) == req.leaderCommit
  {
  }

  lemma UpdateCommitInv(s: State, i: Id, req: AppendRequest, full: set<int>)
    requires Inv(s) && AllSane(s) && i in s.nodes && AppendMsg(i, req) in s.appends
    requires s.nodes[i].currentTerm == req.term && s.nodes[i].role == Follower && req.term in s.past.reigns
    requires Agree(s.nodes[i].log, s.past.reigns[req.term].log, req.prevLogIndex + |req.entries|)
    ensures Inv(Put(s, i, UpdateCommit(s.nodes[i], req.leaderCommit, full)))
  {
    hide Inv, LogOk, MapsOk, Configured, SentOk;
    var n, r, cs := s.nodes[i], s.past.reigns, s.past.commits;
    var s' := Put(s, i, UpdateCommit(n, req.leaderCommit, full));
    AppendFacts(s, AppendMsg(i, req));
    NodeFacts(s, i);
    if req.leaderCommit > n.commitIndex {
      var k := req.leaderCommit;
      AgreeDown(n.log, r[req.term].log, req.prevLogIndex + |req.entries|, k);
      BackedGrows(r, r, cs, cs, req.term, req.term, r[req.term].log, n.log, k);
      HandedOk(s, i, k, full);
      CommitsOf(s);
      QuietInv(s, s', i);
    } else {
      assert s' == s;
    }
  }

  lemma HandedOk(s: State, i: Id, k: int, full: set<int>)
    requires AllSane(s) && i in s.nodes && SentOk(s.nodes[i]) && LogOk(s.nodes[i].log, s.past.reigns)
    requires s.nodes[i].lastApplied <= s.nodes[i].commitIndex <= k < |s.nodes[i].log|
    ensures var n := s.nodes[i].(commitIndex := k);
            var n' := ApplyCommitted(n, full);
            QuietNode(s.nodes[i], n') && n'.commitIndex == k && n.lastApplied <= n'.lastApplied <= k
            && SentOk(n') && n.sent <= n'.sent && n'.nextIndex == n.nextIndex && n'.matchIndex == n.matchIndex
  {
    var n := s.nodes[i].(commitIndex := k);
    assert SentOk(s.nodes[i]);
    OfferKeeps(n, n.lastApplied + 1, full);
  }

  lemma AppendInv(s: State, m: AppendMsg, full: set<int>)
    requires Inv(s) && AllSane(s) && m in s.appends && m.to in s.nodes
    ensures Inv(DoAppend(s, m, full))
  {
    hide Inv;
    var i, req, n := m.to, m.req, s.nodes[m.to];
    var r := AppendReply(i, req, OnAppendRequest(n, req, full).1);
    if req.term < n.currentTerm {
      AppendReplyInv(s, r);
      assert DoAppend(s, m, full) == s.(appendReplies := s.appendReplies + {r});
    } else {
      var s1 := Welcome(s, m);
      WelcomeInv(s, m);
      if !CheckLog(n.log, req) {
        AppendReplyInv(s1, r);
        assert DoAppend(s, m, full) == s1.(appendReplies := s1.appendReplies + {r});
      } else {
        AcceptedInv(s, s1, m, full);
      }
    }
  }

  lemma AcceptedInv(s: State, s1: State, m: AppendMsg, full: set<int>)
    requires AllSane(s) && m.to in s.nodes && m.req.term >= s.nodes[m.to].currentTerm
    requires CheckLog(s.nodes[m.to].log, m.req) && AcceptLeader(s.nodes[m.to], m.req).log == s.nodes[m.to].log
    requires s1 == Welcome(s, m) && Inv(s1) && m in s1.appends
    requires s1.nodes[m.to].role == Follower && s1.nodes[m.to].currentTerm == m.req.term
    ensures Inv(DoAppend(s, m, full))
  {
    hide Inv, LogInv, AppendFrom, UpdateCommit, CheckLog;
    var i, req := m.to, m.req;
    var r := AppendReply(i, req, OnAppendRequest(s.nodes[i], req, full).1);
    SuccessInTerm(s.nodes[i], req, full);
    LogInvOf(s1);
    MergeAgrees(s1, i, req);
    MergeInv(s1, i, req);
    var s2 := Merge(s1, i, req);
    UpdateCommitInv(s2, i, req, full);
    var s3 := Put(s2, i, UpdateCommit(s2.nodes[i], req.leaderCommit, full));
    AppendReplyInv(s3, r);
    assert DoAppend(s, m, full) == s3.(appendReplies := s3.appendReplies + {r});
  }

  // ---- handling an append reply ----

  lemma TrackInv(s: State, i: Id, p: Id, m: int)
    requires Inv(s) && i in s.nodes && s.nodes[i].role == Leader
    requires p in s.nodes[i].peers && 0 <= m < |s.nodes[i].log|
    requires Ack(s.nodes[i].currentTerm, p, m) in s.past.acks
    ensures Inv(Put(s, i, Track(s.nodes[i], p, m)))
  {
    hide Inv, Commits;
    NodeFacts(s, i);
    CommitsOf(s);
    QuietInv(s, Put(s, i, Track(s.nodes[i], p, m)), i);
  }

  lemma BackOffInv(s: State, i: Id, p: Id)
    requires Inv(s) && i in s.nodes && s.nodes[i].role == Leader && p in s.nodes[i].peers
    ensures Inv(Put(s, i, BackOff(s.nodes[i], p)))
  {
    hide Inv, Commits;
    NodeFacts(s, i);
    CommitsOf(s);
    QuietInv(s, Put(s, i, BackOff(s.nodes[i], p)), i);
  }

  /** Everybody the leader counts for index `k` has acknowledged it. */
  lemma HoldersHold(s: State, i: Id, k: int)
    requires i in s.nodes && Configured(i, s.nodes[i], s.nodes.Keys) && MapsOk(s.nodes[i], s.past.acks)
    requires k >= 1 && CanCommit(s.nodes[i], k)
    ensures Quorate(Holders(s.nodes[i], k), s.nodes.Keys)
    ensures forall p | p in Holders(s.nodes[i], k) :: HeldBy(s.past.acks, s.nodes[i].currentTerm, p, k)
  {
    var n := s.nodes[i];
    HoldersQuorate(n, s.nodes.Keys, k);
    forall p | p in Holders(n, k)
      ensures HeldBy(s.past.acks, n.currentTerm, p, k)
    {
      if p == i {
        assert Ack(n.currentTerm, i, k) in s.past.acks;
      } else {
        assert Ack(n.currentTerm, p, n.matchIndex[p]) in s.past.acks;
      }
    }
  }

  /** The state after the leader found index `k` committed. */
  function Committed(s: State, i: Id, k: int, full: set<int>): State
    requires AllSane(s) && i in s.nodes && s.nodes[i].commitIndex <= k < |s.nodes[i].log|
  {
    var n := s.nodes[i];
    Put(s, i, ApplyCommitted(n.(commitIndex := k), full)).(
      past := s.past.(commits := s.past.commits + {Commit(n.currentTerm, k, Holders(n, k))}))
  }

  lemma CommittedInv(s: State, i: Id, k: int, full: set<int>)
    requires Inv(s) && AllSane(s) && i in s.nodes && s.nodes[i].role == Leader
    requires s.nodes[i].commitIndex < k && CanCommit(s.nodes[i], k)
    ensures Inv(Committed(s, i, k, full))
  {
    hide Inv, LogOk, Configured, SentOk;
    var n, s' := s.nodes[i], Committed(s, i, k, full);
    var c := Commit(n.currentTerm, k, Holders(n, k));
    NodeFacts(s, i);
    HoldersHold(s, i, k);
    HandedOk(s, i, k, full);
    CommitsOf(s);
    assert Own(s.past.reigns, c.term, c.index);
    assert c in s'.past.commits;
    QuietInv(s, s', i);
  }

  lemma AdvanceInv(s: State, i: Id, full: set<int>)
    requires Inv(s) && AllSane(s) && i in s.nodes && s.nodes[i].role == Leader
    ensures var n := s.nodes[i];
            var n1 := AdvanceCommit(n, full);
            var done := if n1.commitIndex > n.commitIndex
                        then {Commit(n1.currentTerm, n1.commitIndex, Holders(n1, n1.commitIndex))} else {};
            Inv(Put(s, i, n1).(past := s.past.(commits := s.past.commits + done)))
  {
    hide Inv;
    var n := s.nodes[i];
    var k := ScanDown(n, LastLogIndex(n.log));
    ScanIsOptimal(n, LastLogIndex(n.log));
    if k > n.commitIndex {
      NodeFacts(s, i);
      HandedOk(s, i, k, full);
      CommittedInv(s, i, k, full);
      var n1 := AdvanceCommit(n, full);
      assert Holders(n1, n1.commitIndex) == Holders(n, k);
    } else {
      var none: set<Commit> := {};
      assert s.past.commits + none == s.past.commits;
      assert Put(s, i, n).(past := s.past.(commits := s.past.commits + none)) == s;
    }
  }

  lemma ReplyFacts(s: State, r: AppendReply)
    requires Inv(s) && r in s.appendReplies && r.req.leaderId in s.nodes
    ensures r.from in s.nodes[r.req.leaderId].peers
    ensures AppendOk(s.nodes.Keys, s.past.reigns, s.past.commits, AppendMsg(r.from, r.req))
    ensures r.resp.success ==>
              r.resp.term == r.req.term && Ack(r.req.term, r.from, r.req.prevLogIndex + |r.req.entries|) in s.past.acks
  {
    hide ElectionInv, AckInv, CommitInv, NodeLogs, ReignLogs, LeaderLogs, Appends;
    var i := r.req.leaderId;
    AppendFacts(s, AppendMsg(r.from, r.req));
    NodeFacts(s, i);
    assert r.from in s.nodes.Keys - {i};
    assert r.from in (set p | p in s.nodes[i].peers);
  }

  lemma AppendReplyStepInv(s: State, r: AppendReply, full: set<int>)
    requires Inv(s) && AllSane(s) && Enabled(s, DeliverAppendReply(r, full))
    ensures Inv(DoAppendReply(s, r, full))
  {
    hide Inv;
    var i, n := r.req.leaderId, s.nodes[r.req.leaderId];
    ReplyFacts(s, r);
    NodeFacts(s, i);
    if n.role != Leader {
      assert DoAppendReply(s, r, full) == s;
    } else if r.resp.term > n.currentTerm {
      StepDownInv(s, i, r.resp.term);
      assert DoAppendReply(s, r, full) == StepDown(s, i, r.resp.term);
    } else if r.resp.success {
      var m := r.req.prevLogIndex + |r.req.entries|;
      TrackInv(s, i, r.from, m);
      AdvanceInv(Put(s, i, Track(n, r.from, m)), i, full);
      SuccessReply(s, Put(s, i, Track(n, r.from, m)), r, full);
    } else {
      var s1 := Put(s, i, BackOff(n, r.from));
      BackOffInv(s, i, r.from);
      PostInv(s1, i, {AppendMsg(r.from, BuildAppend(s1.nodes[i], r.from))});
      assert DoAppendReply(s, r, full) == Post(s1, {AppendMsg(r.from, BuildAppend(s1.nodes[i], r.from))});
    }
  }

  lemma SuccessReply(s: State, s1: State, r: AppendReply, full: set<int>)
    requires AllSane(s) && r.req.leaderId in s.nodes && s.nodes[r.req.leaderId].role == Leader
    requires r.resp.success && r.resp.term <= s.nodes[r.req.leaderId].currentTerm
    requires s1 == Put(s, r.req.leaderId, Track(s.nodes[r.req.leaderId], r.from, r.req.prevLogIndex + |r.req.entries|))
    ensures var i := r.req.leaderId;
            var n := s1.nodes[i];
            var n1 := AdvanceCommit(n, full);
            var done := if n1.commitIndex > n.commitIndex
                        then {Commit(n1.currentTerm, n1.commitIndex, Holders(n1, n1.commitIndex))} else {};
            DoAppendReply(s, r, full) == Put(s1, i, n1).(past := s1.past.(commits := s1.past.commits + done))
  {
  }

  // ---- runs ----

  lemma InitInv(s: State)
    requires Init(s)
    ensures Inv(s) && AllSane(s)
  {
    hide Configured;
    forall i | i in s.nodes
      ensures Configured(i, s.nodes[i], s.nodes.Keys)
    {
      FreshConfigured(i, s.nodes[i], s.nodes.Keys);
    }
    assert forall i | i in s.nodes :: Fresh(i, s.nodes[i], s.nodes.Keys);
  }

  lemma FreshConfigured(i: Id, n: Node, ids: set<Id>)
    requires Fresh(i, n, ids) && i in ids
    ensures Configured(i, n, ids)
  {
    PeersAreOthers(n.peers, ids - {i});
  }

  lemma {:induction false} PeersAreOthers(peers: seq<Id>, others: set<Id>)
    requires NoDuplicates(peers) && (set p | p in peers) == others
    ensures |peers| == |others|
  {
    if peers != [] {
      var last := |peers| - 1;
      var init := peers[..last];
      assert peers[last] !in init;
      assert forall p | p in peers :: p in init || p == peers[last];
      assert (set p | p in init) == others - {peers[last]};
      PeersAreOthers(init, others - {peers[last]});
    } else {
      assert others == {};
    }
  }

  lemma StepInv(s: State, step: Step)
    requires Inv(s) && AllSane(s) && Enabled(s, step)
    ensures Inv(Apply(s, step)) && AllSane(Apply(s, step))
  {
    hide Inv;
    match step
    case Timeout(i) => TimeoutInv(s, i);
    case DeliverVote(i, req) => VoteInv(s, i, req);
    case DeliverVoteReply(r) => VoteReplyStepInv(s, r);
    case Heartbeat(i) => PostInv(s, i, Broadcast(s.nodes[i]));
    case Submit(i, command) => SubmitInv(s, i, command);
    case DeliverAppend(m, full) => AppendInv(s, m, full);
    case DeliverAppendReply(r, full) => AppendReplyStepInv(s, r, full);
  }

  /** The invariant holds in every state of every run. */
  lemma {:induction false} RunInv(run: seq<State>, k: nat)
    requires Run(run) && k < |run|
    ensures Inv(run[k]) && AllSane(run[k])
    decreases k
  {
    hide Inv, Apply;
    if k == 0 {
      InitInv(run[0]);
    } else {
      RunInv(run, k - 1);
      assert Next(run[k - 1], run[k - 1 + 1]);
      var step :| Enabled(run[k - 1], step) && run[k] == Apply(run[k - 1], step);
      StepInv(run[k - 1], step);
    }
  }
}
