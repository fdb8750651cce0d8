/** What the servers of a running cluster answer each other: who accepts, who
    refuses, who steps down, and what is sent again. */
module Answers {
  import opened RaftTypes
  import opened NodeSpec
  import opened Logs
  import opened Cluster
  import opened Invariant
  import opened Safety
  import opened LogProof
  import opened ElectionProof
  import opened CommitProof
  import opened StepProof
  import opened Theorems
  import opened HandlerLaws

  // ---- AppendEntries is accepted exactly on agreement ----

  /** In every run, a request is accepted if and only if it is not of an earlier
      term than its receiver and the receiver's log agrees with the log of that
      term's leader up to the entry before the new ones. */
  lemma AcceptedIffAgrees(run: seq<State>, k: nat, m: AppendMsg, full: set<int>)
    requires Run(run) && k < |run| && AllSane(run[k]) && m in run[k].appends && m.to in run[k].nodes
    ensures m.req.term in run[k].past.reigns
    ensures OnAppendRequest(run[k].nodes[m.to], m.req, full).1.success <==>
              && m.req.term >= run[k].nodes[m.to].currentTerm
              && Agree(run[k].nodes[m.to].log, run[k].past.reigns[m.req.term].log, m.req.prevLogIndex)
  {
    hide Run, Inv, LogOk;
    var s := run[k];
    RunInv(run, k);
    AppendFacts(s, m);
    NodeFacts(s, m.to);
    LogsMatch(s, m.to, m.req.term);
  }

  lemma LogsMatch(s: State, i: Id, t: int)
    requires Inv(s) && i in s.nodes && t in s.past.reigns
    ensures Matching(s.nodes[i].log, s.past.reigns[t].log)
    ensures |s.nodes[i].log| > 0 && s.nodes[i].log[0] == DUMMY
    ensures |s.past.reigns[t].log| > 0 && s.past.reigns[t].log[0] == DUMMY
  {
    hide ElectionInv, AckInv, CommitInv, LeaderLogs, Appends, AppendReplies, Anchored, Ascending;
    AnchoredMatch(s.nodes[i].log, s.past.reigns[t].log, s.past.reigns);
  }

  // ---- replies bring news of later terms ----

  /** Every reply carries a term between its request's and its sender's. */
  ghost predicate ReplyTerms(s: State) {
    && (forall r | r in s.appendReplies ::
          r.from in s.nodes && r.req.term <= r.resp.term <= s.nodes[r.from].currentTerm)
    && (forall r | r in s.voteReplies ::
          r.voter in s.nodes && r.req.term <= r.resp.term <= s.nodes[r.voter].currentTerm)
  }

  lemma StepReplyTerms(s: State, step: Step)
    requires Inv(s) && AllSane(s) && Enabled(s, step) && ReplyTerms(s)
    ensures ReplyTerms(Apply(s, step))
  {
    hide Inv, OnAppendRequest, OnAppendResponse, OnVoteRequest, OnVoteResponse, Apply;
    var s' := Apply(s, step);
    StepAdvances(s, step);
    forall r | r in s'.appendReplies
      ensures r.from in s'.nodes && r.req.term <= r.resp.term <= s'.nodes[r.from].currentTerm
    {
      if r in s.appendReplies { assert NodeAdvances(s.nodes[r.from], s'.nodes[r.from]); } else { NewAppendReply(s, step, r); }
    }
    forall r | r in s'.voteReplies
      ensures r.voter in s'.nodes && r.req.term <= r.resp.term <= s'.nodes[r.voter].currentTerm
    {
      if r in s.voteReplies { assert NodeAdvances(s.nodes[r.voter], s'.nodes[r.voter]); } else { NewVoteReply(s, step, r); }
    }
  }

  lemma NewAppendReply(s: State, step: Step, r: AppendReply)
    requires AllSane(s) && Enabled(s, step) && r in Apply(s, step).appendReplies && r !in s.appendReplies
    ensures var s' := Apply(s, step); r.from in s'.nodes && r.req.term <= r.resp.term == s'.nodes[r.from].currentTerm
  {
    hide OnAppendRequest, OnAppendResponse, OnVoteRequest, OnVoteResponse;
    if step.DeliverAppend? { AppendTerms(s.nodes[step.msg.to], step.msg.req, step.full); }
  }

  lemma NewVoteReply(s: State, step: Step, r: VoteReply)
    requires AllSane(s) && Enabled(s, step) && r in Apply(s, step).voteReplies && r !in s.voteReplies
    ensures var s' := Apply(s, step); r.voter in s'.nodes && r.req.term <= r.resp.term == s'.nodes[r.voter].currentTerm
  {
    hide OnAppendRequest, OnAppendResponse, OnVoteRequest, OnVoteResponse;
    if step.DeliverVote? { VoteRequestTerms(s.nodes[step.i], step.voteReq); }
  }

  lemma {:induction false} RunReplyTerms(run: seq<State>, k: nat)
    requires Run(run) && k < |run|
    ensures ReplyTerms(run[k])
    decreases k
  {
    hide Inv, Apply;
    if k > 0 {
      RunReplyTerms(run, k - 1);
      RunInv(run, k - 1);
      assert Next(run[k - 1], run[k - 1 + 1]);
      var step :| Enabled(run[k - 1], step) && run[k] == Apply(run[k - 1], step);
      StepReplyTerms(run[k - 1], step);
    }
  }

  /** A leader that handles a reply of a later term is a follower of that term
      afterwards. Nothing keeps such a reply from being delivered. */
  lemma LaterReplyDeposesLeader(run: seq<State>, k: nat, r: AppendReply, full: set<int>)
    requires Run(run) && k < |run| && AllSane(run[k]) && r in run[k].appendReplies && r.req.leaderId in run[k].nodes
    requires run[k].nodes[r.req.leaderId].role == Leader && r.resp.term > run[k].nodes[r.req.leaderId].currentTerm
    ensures Enabled(run[k], DeliverAppendReply(r, full))
    ensures var n := Apply(run[k], DeliverAppendReply(r, full)).nodes[r.req.leaderId];
            n.role == Follower && n.currentTerm == r.resp.term && n.votedFor == "" && n.log == run[k].nodes[r.req.leaderId].log
  {
    hide Inv, Run, OnAppendResponse;
    RunInv(run, k);
    ReplyFacts(run[k], r);
    TermReached(run[k], r.req.term);
    AppendReplyLaw(run[k].nodes[r.req.leaderId], r.from, r.req, r.resp, full);
  }

  lemma TermReached(s: State, t: int)
    requires Inv(s) && t in s.past.reigns
    ensures s.past.reigns[t].leader in s.nodes && s.nodes[s.past.reigns[t].leader].currentTerm >= t
  {
    hide LogInv, AckInv, CommitInv, Config, Grants, Tallies, VoteRequests, VoteReplies;
    assert Bound(s.nodes[s.past.reigns[t].leader], s.past.reigns[t].leader, t, s.past.reigns[t].leader);
  }

  /** A server of a later term answers the request of a stale leader with its own
      term, and that answer deposes the leader. */
  lemma StaleLeaderIsDeposed(run: seq<State>, k: nat, m: AppendMsg, full: set<int>, full': set<int>)
    requires Run(run) && k < |run| && AllSane(run[k]) && m in run[k].appends
    requires m.to in run[k].nodes && m.req.leaderId in run[k].nodes
    requires run[k].nodes[m.req.leaderId].role == Leader
    requires m.req.term <= run[k].nodes[m.req.leaderId].currentTerm < run[k].nodes[m.to].currentTerm
    ensures var later := run[k].nodes[m.to].currentTerm;
            var s := Apply(run[k], DeliverAppend(m, full));
            var reply := AppendReply(m.to, m.req, AppendResponse(later, false));
            && reply in s.appendReplies && Enabled(s, DeliverAppendReply(reply, full'))
            && var n := Apply(s, DeliverAppendReply(reply, full')).nodes[m.req.leaderId];
               n.role == Follower && n.currentTerm == later && n.log == run[k].nodes[m.req.leaderId].log
  {
    hide Run, OnAppendRequest, OnAppendResponse;
    var later := run[k].nodes[m.to].currentTerm;
    AppendTerms(run[k].nodes[m.to], m.req, full);
    var s := Apply(run[k], DeliverAppend(m, full));
    AppendReplyLaw(s.nodes[m.req.leaderId], m.to, m.req, AppendResponse(later, false), full');
  }

  /** The same for a candidate whose request reaches a server of a later term. */
  lemma StaleCandidateIsDeposed(run: seq<State>, k: nat, i: Id, req: VoteRequest)
    requires Run(run) && k < |run| && AllSane(run[k]) && Enabled(run[k], DeliverVote(i, req))
    requires req.candidateId in run[k].nodes && run[k].nodes[req.candidateId].role == Candidate
    requires req.term <= run[k].nodes[req.candidateId].currentTerm < run[k].nodes[i].currentTerm
    requires Ballot(req.term, i, req.candidateId) !in run[k].answered
    ensures var later := run[k].nodes[i].currentTerm;
            var s := Apply(run[k], DeliverVote(i, req));
            var reply := VoteReply(i, req, VoteResponse(later, false));
            && reply in s.voteReplies && Enabled(s, DeliverVoteReply(reply))
            && var n := Apply(s, DeliverVoteReply(reply)).nodes[req.candidateId];
               n.role == Follower && n.currentTerm == later && n.votedFor == ""
  {
    hide Run, OnVoteRequest, OnVoteResponse;
    var later := run[k].nodes[i].currentTerm;
    VoteRequestTerms(run[k].nodes[i], req);
    VoteGrantedIff(run[k].nodes[i], req);
    var s := Apply(run[k], DeliverVote(i, req));
    VoteReplyLaw(s.nodes[req.candidateId], VoteResponse(later, false));
  }

  // ---- votes ----

  /** A granted vote makes its candidate leader if and only if those counted,
      this voter included, are a majority of the cluster. */
  lemma ElectedIffMajority(run: seq<State>, k: nat, r: VoteReply)
    requires Run(run) && k < |run| && AllSane(run[k]) && Enabled(run[k], DeliverVoteReply(r)) && r.resp.granted
    requires run[k].nodes[r.req.candidateId].role == Candidate
    ensures var c, s' := r.req.candidateId, Apply(run[k], DeliverVoteReply(r));
            && c in run[k].past.counted && r.voter !in run[k].past.counted[c]
            && (s'.nodes[c].role == Leader <==> Quorate(run[k].past.counted[c] + {r.voter}, run[k].nodes.Keys))
  {
    hide Run, Inv, OnVoteResponse;
    var s, c := run[k], r.req.candidateId;
    RunInv(run, k);
    NodeFacts(s, c);
    FreshVoteCounts(s, r);
    TallyFacts(s, r);
    VoteReplyLaw(s.nodes[c], r.resp);
  }

  lemma TallyFacts(s: State, r: VoteReply)
    requires Inv(s) && Enabled(s, DeliverVoteReply(r)) && r.resp.granted
    requires s.nodes[r.req.candidateId].role == Candidate
    ensures var c := r.req.candidateId;
            && c in s.past.counted && s.past.counted[c] + {r.voter} <= s.nodes.Keys
            && r.voter !in s.past.counted[c] && s.nodes[c].votesReceived == |s.past.counted[c]|
  {
    hide LogInv, AckInv, CommitInv, Config, Electorates, VoteRequests;
    var c, t := r.req.candidateId, s.nodes[r.req.candidateId].currentTerm;
    assert TallyOk(c, s.nodes[c], s.past.grants, s.past.counted[c], s.answered);
    forall v | v in s.past.counted[c]
      ensures v in s.nodes
    {
      assert GrantOk(s.nodes, s.past.reigns, Ballot(t, v, c));
    }
  }

  /** In every run, two servers would vote for each other if and only if their
      logs are the same. */
  lemma MutualSupportIffSameLog(run: seq<State>, j: nat, k: nat, a: Id, b: Id)
    requires Run(run) && j < |run| && k < |run| && a in run[j].nodes && b in run[k].nodes
    ensures var p, q := run[j].nodes[a], run[k].nodes[b];
            Supports(p, q) && Supports(q, p) <==> p.log == q.log
  {
    hide Run, Supports;
    LogMatching(run, j, k, a, b);
    LogMatching(run, k, j, b, a);
    var p, q := run[j].nodes[a], run[k].nodes[b];
    SupportIsTotal(p, q);
    if |p.log| == |q.log| && p.log[|p.log| - 1].term == q.log[|q.log| - 1].term {
      assert Agree(p.log, q.log, |p.log| - 1);
      assert p.log[..|p.log|] == p.log && q.log[..|q.log|] == q.log;
    }
  }

  /** In every state of every run, any set of servers has a member for which all of
      them would vote. */
  lemma SomeoneCanBeElected(run: seq<State>, k: nat, ids: set<Id>) returns (best: Id)
    requires Run(run) && k < |run| && ids != {} && ids <= run[k].nodes.Keys
    ensures best in ids && forall i | i in ids :: Supports(run[k].nodes[i], run[k].nodes[best])
  {
    hide Run, Inv;
    RunInv(run, k);
    forall i | i in ids
      ensures |run[k].nodes[i].log| > 0
    {
      NodeFacts(run[k], i);
    }
    best := SomeoneIsElectable(ids, run[k].nodes);
  }

  // ---- what is sent ----

  /** In every run, the request a leader builds for a peer starts at that peer's
      next index: it names the entry before it, and the leader's log up to there
      followed by the entries it carries is the whole log. */
  lemma RequestDescribesLog(run: seq<State>, k: nat, a: Id, p: Id)
    requires Run(run) && k < |run| && a in run[k].nodes && run[k].nodes[a].role == Leader && p in run[k].nodes[a].peers
    ensures var n := run[k].nodes[a];
            var req := BuildAppend(n, p);
            && p in n.nextIndex && 1 <= n.nextIndex[p] <= |n.log| && req.prevLogIndex == n.nextIndex[p] - 1
            && n.log[..n.nextIndex[p]] + req.entries == n.log
            && req.prevLogTerm == n.log[req.prevLogIndex].term
            && req.term == n.currentTerm && req.leaderId == a && req.leaderCommit == n.commitIndex
  {
    hide Run, Inv;
    RunInv(run, k);
    NodeFacts(run[k], a);
    BuildAppendReachesEnd(run[k].nodes[a], p);
  }

  /** In this step server `i` starts a round of requests: a leader's heartbeat or
      proposal, or a victory. */
  predicate StartsRound(s: State, step: Step, i: Id)
    requires AllSane(s) && Enabled(s, step)
  {
    && i in s.nodes && i in Apply(s, step).nodes && Apply(s, step).nodes[i].role == Leader
    && (step == Heartbeat(i) || (step.Submit? && step.i == i) || s.nodes[i].role != Leader)
  }

  /** Every other server of the cluster is then sent a request of the leader's term
      that ends at the end of its log, the newest entry included. */
  lemma EveryPeerIsSent(run: seq<State>, k: nat, step: Step, i: Id, p: Id) returns (m: AppendMsg)
    requires Run(run) && k < |run| && AllSane(run[k]) && Enabled(run[k], step)
    requires StartsRound(run[k], step, i) && p in run[k].nodes && p != i
    ensures var s' := Apply(run[k], step);
            && m in s'.appends && m.to == p && m.req.leaderId == i && m.req.term == s'.nodes[i].currentTerm
            && m.req.prevLogIndex + |m.req.entries| == |s'.nodes[i].log| - 1
  {
    hide Run, Inv, Apply;
    var s' := Apply(run[k], step);
    RunInv(run, k);
    StepInv(run[k], step);
    StepAdvances(run[k], step);
    RoundIsBroadcast(run[k], step, i);
    NodeFacts(s', i);
    assert p in s'.nodes.Keys - {i};
    assert p in (set q | q in s'.nodes[i].peers);
    BuildAppendReachesEnd(s'.nodes[i], p);
    m := AppendMsg(p, BuildAppend(s'.nodes[i], p));
    assert m in Broadcast(s'.nodes[i]);
  }

  lemma RoundIsBroadcast(s: State, step: Step, i: Id)
    requires AllSane(s) && Enabled(s, step) && StartsRound(s, step, i)
    ensures Broadcast(Apply(s, step).nodes[i]) <= Apply(s, step).appends
  {
    hide OnAppendRequest, OnAppendResponse, OnVoteRequest, BuildAppend;
    if step.DeliverAppend? {
      AppendTerms(s.nodes[step.msg.to], step.msg.req, step.full);
    } else if step.DeliverAppendReply? {
      AppendReplyLaw(s.nodes[step.reply.req.leaderId], step.reply.from, step.reply.req, step.reply.resp, step.full);
    } else if step.DeliverVote? {
      VoteRequestTerms(s.nodes[step.i], step.voteReq);
    }
  }

  /** A leader that handles a rejection of no later term asks that peer again at
      once, from one entry earlier unless that was the first. */
  lemma RejectionIsRetried(run: seq<State>, k: nat, r: AppendReply, full: set<int>)
    requires Run(run) && k < |run| && AllSane(run[k]) && r in run[k].appendReplies && r.req.leaderId in run[k].nodes
    requires run[k].nodes[r.req.leaderId].role == Leader && !r.resp.success
    requires r.resp.term <= run[k].nodes[r.req.leaderId].currentTerm
    ensures var n := run[k].nodes[r.req.leaderId];
            && r.from in n.nextIndex && 1 <= n.nextIndex[r.from] <= |n.log|
            && var next := Larger(1, n.nextIndex[r.from] - 1);
               AppendMsg(r.from, AppendRequest(n.currentTerm, n.id, next - 1, n.log[next - 1].term, n.log[next..], n.commitIndex))
                 in Apply(run[k], DeliverAppendReply(r, full)).appends
  {
    hide Run, Inv;
    RunInv(run, k);
    ReplyFacts(run[k], r);
    NodeFacts(run[k], r.req.leaderId);
    var n := run[k].nodes[r.req.leaderId];
    var next := Larger(1, n.nextIndex[r.from] - 1);
    RetryRequest(n, r.from, next);
  }

  lemma RetryRequest(n: Node, p: Id, next: int)
    requires p in n.nextIndex && 1 <= n.nextIndex[p] <= |n.log| && next == Larger(1, n.nextIndex[p] - 1) && n.log[0] == DUMMY
    ensures BuildAppend(BackOff(n, p), p) ==
            AppendRequest(n.currentTerm, n.id, next - 1, n.log[next - 1].term, n.log[next..], n.commitIndex)
  {
    assert next == |n.log| ==> n.log[next..] == [];
  }
}
