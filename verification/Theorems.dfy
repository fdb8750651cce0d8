/** The safety properties of the cluster, over whole runs: whatever two states
    of one run are compared, in whichever order. */
module Theorems {
  import opened RaftTypes
  import opened NodeSpec
  import opened Logs
  import opened Cluster
  import opened Invariant
  import opened Growth
  import opened Moves
  import opened Safety
  import opened LogProof
  import opened ElectionProof
  import opened CommitProof
  import opened StepProof

  // ---- what one step leaves for good ----

  /** A server never goes back on its term, its committed log or its deliveries. */
  predicate NodeAdvances(n: Node, n': Node) {
    && n'.currentTerm >= n.currentTerm
    && 0 <= n.commitIndex <= n'.commitIndex && Agree(n'.log, n.log, n.commitIndex)
    && n.lastApplied <= n'.lastApplied && n.sent <= n'.sent
  }

  ghost predicate Advances(s: State, s': State) {
    && s'.nodes.Keys == s.nodes.Keys
    && (forall i | i in s.nodes :: NodeAdvances(s.nodes[i], s'.nodes[i]))
    && Grows(s.past.reigns, s'.past.reigns)
  }

  lemma AdvancesTrans(s: State, s1: State, s2: State)
    requires Advances(s, s1) && Advances(s1, s2)
    ensures Advances(s, s2)
  {
  }

  lemma NodesAdvance(s: State, s': State, i: Id)
    requires Inv(s) && i in s.nodes && i in s'.nodes && s'.nodes == s.nodes[i := s'.nodes[i]]
    requires NodeAdvances(s.nodes[i], s'.nodes[i]) && Grows(s.past.reigns, s'.past.reigns)
    ensures Advances(s, s')
  {
  }

  lemma Stays(n: Node, n': Node)
    requires 0 <= n.commitIndex < |n.log|
    requires n'.currentTerm >= n.currentTerm && n'.commitIndex == n.commitIndex && n.log <= n'.log
    requires n'.lastApplied == n.lastApplied && n'.sent == n.sent
    ensures NodeAdvances(n, n')
  {
  }

  lemma VoteReplyAdvances(s: State, r: VoteReply)
    requires Inv(s) && Enabled(s, DeliverVoteReply(r))
    ensures Advances(s, DoVoteReply(s, r))
  {
    hide Inv, Grants, Electorates;
    var c := r.req.candidateId;
    var n, s' := s.nodes[c], DoVoteReply(s, r);
    NodeFacts(s, c);
    if Wins(n, r.resp) {
      FreshVoteCounts(s, r);
      CountVoteInv(s, c, r.voter);
      var s1 := CountVote(s, c, r.voter);
      ElectionInvOf(s1);
      CrownIsFirst(s1, c);
      CrownGrows(s1, c);
    }
    Stays(n, s'.nodes[c]);
    NodesAdvance(s, s', c);
  }

  lemma ElectionInvOf(s: State)
    requires Inv(s)
    ensures ElectionInv(s)
  {
  }

  lemma SubmitAdvances(s: State, i: Id, command: Command)
    requires Inv(s) && i in s.nodes
    ensures Advances(s, DoSubmit(s, i, command))
  {
    hide Inv;
    NodeFacts(s, i);
    var s' := DoSubmit(s, i, command);
    Stays(s.nodes[i], s'.nodes[i]);
    assert s.nodes == s.nodes[i := s.nodes[i]];
    NodesAdvance(s, s', i);
  }

  lemma AppendAdvances(s: State, m: AppendMsg, full: set<int>)
    requires Inv(s) && AllSane(s) && m in s.appends && m.to in s.nodes
    ensures Advances(s, DoAppend(s, m, full))
  {
    hide Inv, LogInv;
    var i, req, n, s' := m.to, m.req, s.nodes[m.to], DoAppend(s, m, full);
    NodeFacts(s, i);
    if req.term < n.currentTerm {
      Stays(n, s'.nodes[i]);
    } else {
      WelcomeInv(s, m);
      var s1 := Welcome(s, m);
      if CheckLog(n.log, req) {
        AcceptedAdvances(s, s1, m, full);
      } else {
        Stays(n, s'.nodes[i]);
      }
    }
    NodesAdvance(s, s', i);
  }

  lemma AcceptedAdvances(s: State, s1: State, m: AppendMsg, full: set<int>)
    requires AllSane(s) && m.to in s.nodes && m.req.term >= s.nodes[m.to].currentTerm
    requires CheckLog(s.nodes[m.to].log, m.req) && AcceptLeader(s.nodes[m.to], m.req).log == s.nodes[m.to].log
    requires s1 == Welcome(s, m) && Inv(s1) && m in s1.appends
    requires s1.nodes[m.to].role == Follower && s1.nodes[m.to].currentTerm == m.req.term
    ensures NodeAdvances(s.nodes[m.to], DoAppend(s, m, full).nodes[m.to])
  {
    hide Inv, LogInv, Electorates, Inherited, Commits, Progress, LogOk, Backed, MapsOk, Configured, SentOk, AppendFrom;
    var i, req := m.to, m.req;
    LogInvOf(s1);
    SafetyParts(s1);
    MergeKeepsCommitted(s1, i, req);
    MergeInv(s1, i, req);
    var s2 := Merge(s1, i, req);
    NodeFacts(s1, i);
    NodeFacts(s2, i);
    CommitRuleExact(s1, i, req);
    var n2 := s2.nodes[i];
    if req.leaderCommit > n2.commitIndex {
      HandedOk(s2, i, req.leaderCommit, full);
    }
    assert DoAppend(s, m, full).nodes[i] == UpdateCommit(n2, req.leaderCommit, full);
  }

  lemma SafetyParts(s: State)
    requires Inv(s)
    ensures Electorates(s.nodes, s.past.reigns) && Inherited(s.past.reigns, s.past.acks)
    ensures Commits(s.nodes.Keys, s.past.reigns, s.past.acks, s.past.commits)
    ensures Progress(s.nodes, s.past.reigns, s.past.commits)
  {
  }

  lemma ResponseAdvances(n: Node, p: Id, req: AppendRequest, resp: AppendResponse, full: set<int>)
    requires Sane(n) && SentOk(n) && Indexed(n.log) && n.lastApplied <= n.commitIndex < |n.log|
    ensures NodeAdvances(n, OnAppendResponse(n, p, req, resp, full))
  {
    if n.role == Leader && resp.term <= n.currentTerm && resp.success {
      var n1 := Track(n, p, req.prevLogIndex + |req.entries|);
      var k := ScanDown(n1, LastLogIndex(n1.log));
      OfferKeeps(n1.(commitIndex := k), n1.lastApplied + 1, full);
    }
  }

  lemma AppendReplyAdvances(s: State, r: AppendReply, full: set<int>)
    requires Inv(s) && AllSane(s) && r.req.leaderId in s.nodes
    ensures Advances(s, DoAppendReply(s, r, full))
  {
    hide Inv, OnAppendResponse;
    var i := r.req.leaderId;
    NodeFacts(s, i);
    ResponseAdvances(s.nodes[i], r.from, r.req, r.resp, full);
    NodesAdvance(s, DoAppendReply(s, r, full), i);
  }

  lemma TimeoutAdvances(s: State, i: Id)
    requires Inv(s) && AllSane(s) && i in s.nodes && s.nodes[i].role != Leader
    ensures Advances(s, DoTimeout(s, i))
  {
    hide Inv;
    NodeFacts(s, i);
    Stays(s.nodes[i], DoTimeout(s, i).nodes[i]);
    NodesAdvance(s, DoTimeout(s, i), i);
  }

  lemma VoteAdvances(s: State, i: Id, req: VoteRequest)
    requires Inv(s) && AllSane(s) && Enabled(s, DeliverVote(i, req))
    ensures Advances(s, DoVote(s, i, req))
  {
    hide Inv;
    NodeFacts(s, i);
    Stays(s.nodes[i], DoVote(s, i, req).nodes[i]);
    NodesAdvance(s, DoVote(s, i, req), i);
  }

  lemma StepAdvances(s: State, step: Step)
    requires Inv(s) && AllSane(s) && Enabled(s, step)
    ensures Advances(s, Apply(s, step))
  {
    hide Inv, Advances;
    match step
    case Timeout(i) => TimeoutAdvances(s, i);
    case DeliverVote(i, req) => VoteAdvances(s, i, req);
    case DeliverVoteReply(r) => VoteReplyAdvances(s, r);
    case Heartbeat(i) =>
      NodeFacts(s, i);
      Stays(s.nodes[i], s.nodes[i]);
      assert s.nodes == s.nodes[i := s.nodes[i]];
      NodesAdvance(s, Post(s, Broadcast(s.nodes[i])), i);
    case Submit(i, command) => SubmitAdvances(s, i, command);
    case DeliverAppend(m, full) => AppendAdvances(s, m, full);
    case DeliverAppendReply(r, full) => AppendReplyAdvances(s, r, full);
  }

  lemma {:induction false} RunAdvances(run: seq<State>, j: nat, k: nat)
    requires Run(run) && j <= k < |run|
    ensures Advances(run[j], run[k])
    decreases k - j
  {
    hide Inv, Apply, NodeAdvances;
    if j == k {
      RunInv(run, k);
      forall i | i in run[k].nodes
        ensures NodeAdvances(run[k].nodes[i], run[k].nodes[i])
      {
        NodeFacts(run[k], i);
        Stays(run[k].nodes[i], run[k].nodes[i]);
      }
    } else {
      RunInv(run, j);
      assert Next(run[j], run[j + 1]);
      var step :| Enabled(run[j], step) && run[j + 1] == Apply(run[j], step);
      StepAdvances(run[j], step);
      RunAdvances(run, j + 1, k);
      AdvancesTrans(run[j], run[j + 1], run[k]);
    }
  }

  // ---- two states of one run, seen from the later one ----

  /** Server `i` of an earlier state: its log is anchored in the later reigns,
      and if it led then, the reign of its term is its own. */
  lemma SeenLater(run: seq<State>, j: nat, m: nat, i: Id)
    requires Run(run) && j <= m < |run| && i in run[j].nodes
    ensures i in run[m].nodes
    ensures var n, r := run[j].nodes[i], run[m].past.reigns;
            && LogOk(n.log, r) && n.currentTerm <= run[m].nodes[i].currentTerm
            && Backed(r, run[m].past.commits, run[m].nodes[i].currentTerm, n.log, n.commitIndex)
            && (n.role == Leader ==> n.currentTerm in r && r[n.currentTerm].leader == i
                                     && ExtendsBy(r[n.currentTerm].log, n.log, n.currentTerm))
  {
    hide Inv, Run;
    RunInv(run, j);
    RunInv(run, m);
    RunAdvances(run, j, m);
    NodeFacts(run[j], i);
    NodeFacts(run[m], i);
    var n, n' := run[j].nodes[i], run[m].nodes[i];
    LogOkGrows(n.log, run[j].past.reigns, run[m].past.reigns);
    assert NodeAdvances(n, n');
    BackedDown(run[m].past.reigns, run[m].past.commits, n'.currentTerm, n'.log, n'.commitIndex, n.log, n.commitIndex);
  }

  lemma BackedDown(r: Reigns, commits: set<Commit>, term: int, log': seq<LogEntry>, k': int, log: seq<LogEntry>, k: int)
    requires Backed(r, commits, term, log', k') && 0 <= k <= k' && Agree(log', log, k)
    ensures Backed(r, commits, term, log, k)
  {
  }

  function Latest(j: nat, k: nat): nat { if j <= k then k else j }

  // ---- Election Safety ----

  /** At most one server ever leads a term. */
  lemma ElectionSafety(run: seq<State>, j: nat, k: nat, a: Id, b: Id)
    requires Run(run) && j < |run| && k < |run| && a in run[j].nodes && b in run[k].nodes
    requires run[j].nodes[a].role == Leader && run[k].nodes[b].role == Leader
    requires run[j].nodes[a].currentTerm == run[k].nodes[b].currentTerm
    ensures a == b
  {
    hide Run;
    SeenLater(run, j, Latest(j, k), a);
    SeenLater(run, k, Latest(j, k), b);
  }

  /** Votes are only counted when a reply arrives, so a server without peers
      campaigns for ever and never leads. */
  lemma {:induction false} LoneServerNeverLeads(run: seq<State>, k: nat, i: Id)
    requires Run(run) && k < |run| && run[0].nodes.Keys == {i}
    ensures run[k].nodes.Keys == {i} && run[k].nodes[i].role != Leader
    decreases k
  {
    hide Inv, Apply;
    if k == 0 {
      assert Fresh(i, run[0].nodes[i], run[0].nodes.Keys);
    } else {
      LoneServerNeverLeads(run, k - 1, i);
      RunInv(run, k - 1);
      RepliersAreOthers(run[k - 1]);
      assert Next(run[k - 1], run[k - 1 + 1]);
      var step :| Enabled(run[k - 1], step) && run[k] == Apply(run[k - 1], step);
      LoneStep(run[k - 1], step, i);
    }
  }

  lemma RepliersAreOthers(s: State)
    requires Inv(s)
    ensures forall p | p in s.voteReplies :: p.voter in s.nodes && p.voter != p.req.candidateId
  {
    hide LogInv, AckInv, CommitInv, Config, Electorates, Grants, Tallies, VoteRequests;
  }

  lemma LoneStep(s: State, step: Cluster.Step, i: Id)
    requires AllSane(s) && Enabled(s, step) && s.nodes.Keys == {i} && s.nodes[i].role != Leader
    requires forall p | p in s.voteReplies :: p.voter in s.nodes && p.voter != p.req.candidateId
    ensures Apply(s, step).nodes.Keys == {i} && Apply(s, step).nodes[i].role != Leader
  {
    hide OnAppendRequest, AdvanceCommit;
    if step.DeliverAppend? {
      AppendElectsNobody(s.nodes[i], step.msg.req, step.full);
    }
  }

  lemma AppendElectsNobody(n: Node, req: AppendRequest, full: set<int>)
    requires Sane(n) && n.role != Leader
    ensures OnAppendRequest(n, req, full).0.role != Leader
  {
    var n1 := AcceptLeader(n, req);
    if req.term >= n.currentTerm && CheckLog(n1.log, req) {
      var merged := n1.(log := AppendFrom(n1.log, req.prevLogIndex + 1, req.entries));
      if req.leaderCommit > merged.commitIndex {
        OfferKeepsRest(merged.(commitIndex := Min(req.leaderCommit, LastLogIndex(merged.log))), merged.lastApplied + 1, full);
      }
    }
  }

  // ---- Leader Append-Only ----

  /** While a server leads a term its log only grows, by entries of that term. */
  lemma LeaderAppendOnly(run: seq<State>, j: nat, k: nat, a: Id)
    requires Run(run) && j <= k < |run| && a in run[j].nodes && a in run[k].nodes
    requires run[j].nodes[a].role == Leader && run[k].nodes[a].role == Leader
    requires run[j].nodes[a].currentTerm == run[k].nodes[a].currentTerm
    ensures ExtendsBy(run[k].nodes[a].log, run[j].nodes[a].log, run[j].nodes[a].currentTerm)
  {
    hide Run, Inv;
    SeenLater(run, j, k, a);
    RunInv(run, k);
    NodeFacts(run[k], a);
  }

  // ---- Log Matching ----

  /** Two logs, whenever taken, that hold the same term at the same index are
      identical up to it, and every log is the dummy followed by entries that
      record their own index. */
  lemma LogMatching(run: seq<State>, j: nat, k: nat, a: Id, b: Id)
    requires Run(run) && j < |run| && k < |run| && a in run[j].nodes && b in run[k].nodes
    ensures Matching(run[j].nodes[a].log, run[k].nodes[b].log)
    ensures Indexed(run[j].nodes[a].log) && Ascending(run[j].nodes[a].log)
  {
    hide Run;
    var m := Latest(j, k);
    SeenLater(run, j, m, a);
    SeenLater(run, k, m, b);
    AnchoredMatch(run[j].nodes[a].log, run[k].nodes[b].log, run[m].past.reigns);
  }

  // ---- Leader Completeness ----

  lemma CommittedInReign(s: State, term: int, log: seq<LogEntry>, k: int, u: int)
    requires Inv(s) && Backed(s.past.reigns, s.past.commits, term, log, k) && Indexed(log)
    requires u in s.past.reigns && term <= u
    ensures Agree(log, s.past.reigns[u].log, k)
  {
    hide Inv, Electorates, Inherited, Commits, Progress, Anchored, Ascending, Backed;
    SafetyParts(s);
    ReignIndexed(s, u);
    BackedAgrees(s, term, log, k, u);
  }

  lemma ReignIndexed(s: State, u: int)
    requires Inv(s) && u in s.past.reigns
    ensures Indexed(s.past.reigns[u].log)
  {
    hide ElectionInv, LogInv, AckInv, CommitInv;
    Parts(s);
  }

  /** Whatever a server knows to be committed in a term, every leader of a later
      term has, at the same indices with the same terms and commands, whether it
      led before or after the commit. */
  lemma LeaderCompleteness(run: seq<State>, j: nat, k: nat, a: Id, b: Id)
    requires Run(run) && j < |run| && k < |run| && a in run[j].nodes && b in run[k].nodes
    requires run[k].nodes[b].role == Leader && run[k].nodes[b].currentTerm > run[j].nodes[a].currentTerm
    ensures Agree(run[k].nodes[b].log, run[j].nodes[a].log, run[j].nodes[a].commitIndex)
  {
    hide Run, Inv, NodeAdvances;
    var m := Latest(j, k);
    var n, lead := run[j].nodes[a], run[k].nodes[b];
    var t := lead.currentTerm;
    SeenLater(run, k, m, b);
    BackedAt(run, j, m, a);
    RunInv(run, j);
    RunInv(run, m);
    NodeFacts(run[j], a);
    BelowOwnTerm(run[j], a);
    CommittedInReign(run[m], n.currentTerm, n.log, n.commitIndex, t);
    SharedBefore(run[m].past.reigns[t].log, lead.log, n.log, t, n.currentTerm, n.commitIndex);
  }

  /** The backing of a commit index survives, with the term it was reached in. */
  lemma BackedAt(run: seq<State>, j: nat, m: nat, a: Id)
    requires Run(run) && j <= m < |run| && a in run[j].nodes
    ensures var n := run[j].nodes[a];
            Backed(run[m].past.reigns, run[m].past.commits, n.currentTerm, n.log, n.commitIndex)
  {
    hide Run, Inv, NodeAdvances;
    RunInv(run, j);
    RunAdvances(run, j, m);
    CommitsStay(run, j, m);
    NodeFacts(run[j], a);
    var n := run[j].nodes[a];
    BackedGrows(run[j].past.reigns, run[m].past.reigns, run[j].past.commits, run[m].past.commits,
                n.currentTerm, n.currentTerm, n.log, n.log, n.commitIndex);
  }

  lemma {:induction false} CommitsStay(run: seq<State>, j: nat, m: nat)
    requires Run(run) && j <= m < |run|
    ensures run[j].past.commits <= run[m].past.commits
    decreases m - j
  {
    if j < m {
      assert Next(run[j], run[j + 1]);
      CommitsStay(run, j + 1, m);
    }
  }

  lemma BelowOwnTerm(s: State, i: Id)
    requires Inv(s) && i in s.nodes
    ensures Below(s.nodes[i].log, s.nodes[i].currentTerm)
  {
    hide ElectionInv, LogInv, AckInv, CommitInv;
    Parts(s);
  }

  /** What a leader's final log shares with an older log it shared before it
      appended entries of its own term. */
  lemma SharedBefore(final: seq<LogEntry>, log: seq<LogEntry>, older: seq<LogEntry>, term: int, t: int, k: int)
    requires ExtendsBy(final, log, term) && Agree(older, final, k) && Below(older, t) && t < term
    ensures Agree(log, older, k)
  {
    AgreeDown(older, final, k, k);
    assert final[k].term <= t;
    assert k < |log|;
    assert final[..k + 1] == final[..|log|][..k + 1];
  }

  // ---- State Machine Safety ----

  /** Two logs, whenever taken, are identical up to the smaller commit index. */
  lemma StateMachineSafety(run: seq<State>, j: nat, k: nat, a: Id, b: Id, x: int)
    requires Run(run) && j < |run| && k < |run| && a in run[j].nodes && b in run[k].nodes
    requires 0 <= x <= run[j].nodes[a].commitIndex && x <= run[k].nodes[b].commitIndex
    ensures Agree(run[j].nodes[a].log, run[k].nodes[b].log, x)
  {
    hide Run, Inv, NodeAdvances, LogOk, Backed;
    var m := Latest(j, k);
    var p, q := run[j].nodes[a], run[k].nodes[b];
    BackedAt(run, j, m, a);
    BackedAt(run, k, m, b);
    RunInv(run, j);
    RunInv(run, k);
    RunInv(run, m);
    NodeFacts(run[j], a);
    NodeFacts(run[k], b);
    BothBacked(run[m], p.currentTerm, p.log, p.commitIndex, q.currentTerm, q.log, q.commitIndex, x) by {
      assert LogOk(p.log, run[j].past.reigns) && LogOk(q.log, run[k].past.reigns);
      LogOkIndexed(p.log, run[j].past.reigns);
      LogOkIndexed(q.log, run[k].past.reigns);
    }
  }

  lemma LogOkIndexed(log: seq<LogEntry>, r: Reigns)
    requires LogOk(log, r)
    ensures Indexed(log)
  {
  }

  lemma BothBacked(s: State, t: int, log: seq<LogEntry>, i: int, t': int, log': seq<LogEntry>, i': int, x: int)
    requires Inv(s) && Indexed(log) && Indexed(log')
    requires Backed(s.past.reigns, s.past.commits, t, log, i) && Backed(s.past.reigns, s.past.commits, t', log', i')
    requires 0 <= x <= i && x <= i'
    ensures Agree(log, log', x)
  {
    hide Inv, Electorates, Inherited, Commits, Progress;
    SafetyParts(s);
    var r := s.past.reigns;
    if x > 0 {
      var c :| c in s.past.commits && c.term <= t && i <= c.index && c.term in r && Agree(log, r[c.term].log, i);
      var d :| d in s.past.commits && d.term <= t' && i' <= d.index && d.term in r && Agree(log', r[d.term].log, i');
      CommittedAgree(s, c, d, x);
      AgreeDown(log, r[c.term].log, i, x);
      AgreeDown(log', r[d.term].log, i', x);
    }
  }

  /** Two servers never deliver different entries for the same index. */
  lemma DeliveriesAgree(run: seq<State>, j: nat, k: nat, a: Id, b: Id, x: ApplyMsg, y: ApplyMsg)
    requires Run(run) && j < |run| && k < |run| && a in run[j].nodes && b in run[k].nodes
    requires x in run[j].nodes[a].sent && y in run[k].nodes[b].sent && x.index == y.index
    ensures x == y
  {
    hide Run, Inv, LogOk, Backed;
    RunInv(run, j);
    RunInv(run, k);
    NodeFacts(run[j], a);
    NodeFacts(run[k], b);
    var p, q := run[j].nodes[a], run[k].nodes[b];
    StateMachineSafety(run, j, k, a, b, x.index);
    AgreeDown(p.log, q.log, x.index, x.index);
  }

  // ---- committed entries are permanent ----

  /** Commit index and last applied never decrease and stay in order, and the log
      up to the commit index is never rewritten. */
  lemma CommittedIsPermanent(run: seq<State>, j: nat, k: nat, a: Id)
    requires Run(run) && j <= k < |run| && a in run[j].nodes
    ensures a in run[k].nodes
    ensures var n, n' := run[j].nodes[a], run[k].nodes[a];
            && n.commitIndex <= n'.commitIndex && Agree(n'.log, n.log, n.commitIndex)
            && n.lastApplied <= n'.lastApplied && n.sent <= n'.sent && n.currentTerm <= n'.currentTerm
            && 0 <= n'.lastApplied <= n'.commitIndex <= LastLogIndex(n'.log)
  {
    hide Run, Inv;
    RunAdvances(run, j, k);
    RunInv(run, k);
    NodeFacts(run[k], a);
    assert NodeAdvances(run[j].nodes[a], run[k].nodes[a]);
  }

  // ---- the leader's view of its followers ----

  /** A leader's `matchIndex` is truthful for every peer in its term, and its
      `nextIndex` stays between one and the end of its log. */
  lemma MatchIndexIsTruthful(run: seq<State>, k: nat, a: Id, p: Id)
    requires Run(run) && k < |run| && a in run[k].nodes
    requires run[k].nodes[a].role == Leader && p in run[k].nodes[a].peers
    ensures p in run[k].nodes
    ensures var n := run[k].nodes[a];
            && p in n.nextIndex && 1 <= n.nextIndex[p] <= LastLogIndex(n.log) + 1
            && p in n.matchIndex && 0 <= n.matchIndex[p] <= LastLogIndex(n.log)
            && (run[k].nodes[p].currentTerm == n.currentTerm ==> Agree(run[k].nodes[p].log, n.log, n.matchIndex[p]))
  {
    hide Run, Inv, Durable, Acks;
    var s, n := run[k], run[k].nodes[a];
    RunInv(run, k);
    NodeFacts(s, a);
    assert p in (set q | q in n.peers) && p in s.nodes.Keys - {a};
    NodeFacts(s, p);
    if n.matchIndex[p] != 0 {
      AckedIsHeld(s, Ack(n.currentTerm, p, n.matchIndex[p]));
    } else {
      assert n.log[..1] == [DUMMY] == s.nodes[p].log[..1];
    }
  }

  lemma AckedIsHeld(s: State, a: Ack)
    requires Inv(s) && a in s.past.acks
    ensures a.term in s.past.reigns && a.node in s.nodes && 0 <= a.index < |s.past.reigns[a.term].log|
    ensures s.nodes[a.node].currentTerm == a.term ==> Agree(s.nodes[a.node].log, s.past.reigns[a.term].log, a.index)
  {
    hide ElectionInv, LogInv, CommitInv, Ballots, Inherited;
    assert KeptBy(s.nodes[a.node], s.past.reigns, a.term, a.index);
  }

  // ---- the followers' commit rule ----

  /** A message that a step sends comes from a leader of the new state, carries
      its commit index, and reaches exactly to the end of its log. */
  lemma SentReachesEnd(run: seq<State>, k: nat, m: AppendMsg)
    requires Run(run) && k + 1 < |run| && m in run[k + 1].appends && m !in run[k].appends
    ensures m.req.leaderId in run[k + 1].nodes
    ensures var n := run[k + 1].nodes[m.req.leaderId];
            && n.role == Leader && m.req.term == n.currentTerm && m.req.leaderCommit == n.commitIndex
            && m.req.prevLogIndex + |m.req.entries| == LastLogIndex(n.log) >= n.commitIndex
  {
    hide Inv;
    var s, s' := run[k], run[k + 1];
    RunInv(run, k);
    RunInv(run, k + 1);
    assert Next(s, s');
    var step :| Enabled(s, step) && s' == Apply(s, step);
    if step.DeliverAppendReply? {
      ReplyFacts(s, step.reply);
    }
    var i := SenderOf(s, step, m);
    NodeFacts(s', i);
    assert m in Broadcast(s'.nodes[i]);
    BuildAppendReachesEnd(s'.nodes[i], m.to);
  }

  lemma SenderOf(s: State, step: Cluster.Step, m: AppendMsg) returns (i: Id)
    requires AllSane(s) && Enabled(s, step) && m in Apply(s, step).appends && m !in s.appends
    requires step.DeliverAppendReply? ==> step.reply.from in s.nodes[step.reply.req.leaderId].peers
    ensures i in Apply(s, step).nodes && Apply(s, step).nodes[i].role == Leader
    ensures m in Broadcast(Apply(s, step).nodes[i])
  {
    hide OnAppendRequest;
    match step
    case DeliverVoteReply(r) => i := r.req.candidateId;
    case Heartbeat(j) => i := j;
    case Submit(j, command) => i := j;
    case DeliverAppendReply(r, full) => i := r.req.leaderId;
    case Timeout(j) => i := j;
    case DeliverVote(j, req) => i := j;
    case DeliverAppend(msg, full) => i := msg.to;
  }

  /** Every AppendEntries ever sent reaches at least as far as the commit index
      it carries, so on every acceptance the rule min(leaderCommit, last index)
      is leaderCommit itself, and also the index-of-last-new-entry rule. */
  lemma FollowerCommitRule(run: seq<State>, k: nat, m: AppendMsg, full: set<int>)
    requires Run(run) && k < |run| && AllSane(run[k]) && m in run[k].appends && m.to in run[k].nodes
    ensures 0 <= m.req.leaderCommit <= m.req.prevLogIndex + |m.req.entries| && m.req.term in run[k].past.reigns
    ensures var n := run[k].nodes[m.to];
            var (n', resp) := OnAppendRequest(n, m.req, full);
            resp.success ==>
              && n'.commitIndex == (if m.req.leaderCommit > n.commitIndex then m.req.leaderCommit else n.commitIndex)
              && m.req.leaderCommit == Min(m.req.leaderCommit, m.req.prevLogIndex + |m.req.entries|)
              && Agree(n'.log, run[k].past.reigns[m.req.term].log, m.req.prevLogIndex + |m.req.entries|)
  {
    hide Run, Inv;
    var s := run[k];
    RunInv(run, k);
    AppendFacts(s, m);
    if m.req.term >= s.nodes[m.to].currentTerm && CheckLog(s.nodes[m.to].log, m.req) {
      WelcomeInv(s, m);
      AcceptedCommits(Welcome(s, m), m.to, m.req, full);
    }
  }

  /** The same for a follower of the sender's term whose log passes the check. */
  lemma AcceptedCommits(s: State, i: Id, req: AppendRequest, full: set<int>)
    requires Inv(s) && AllSane(s) && MayMerge(s, i, req)
    ensures 0 <= req.prevLogIndex < |s.nodes[i].log| && req.term in s.past.reigns
    ensures var n := UpdateCommit(Merge(s, i, req).nodes[i], req.leaderCommit, full);
            && n.commitIndex == (if req.leaderCommit > s.nodes[i].commitIndex then req.leaderCommit else s.nodes[i].commitIndex)
            && req.leaderCommit == Min(req.leaderCommit, req.prevLogIndex + |req.entries|)
            && Agree(n.log, s.past.reigns[req.term].log, req.prevLogIndex + |req.entries|)
  {
    hide Inv, LogInv, LogOk, MapsOk, Configured;
    LogInvOf(s);
    MergeAgrees(s, i, req);
    CommitRuleExact(s, i, req);
    var n := Merge(s, i, req).nodes[i];
    if req.leaderCommit > n.commitIndex {
      OfferKeepsRest(n.(commitIndex := req.leaderCommit), n.lastApplied + 1, full);
    }
  }

  // ---- deliveries ----

  /** Whatever the apply channel drops, the indices ever sent by a server are
      strictly increasing, so none is sent twice, and each message is the
      committed entry of its index. */
  lemma DeliveryInOrder(run: seq<State>, k: nat, a: Id)
    requires Run(run) && k < |run| && a in run[k].nodes
    ensures var n := run[k].nodes[a];
            && (forall x | 0 <= x < |n.sent| ::
                  && 1 <= n.sent[x].index <= n.commitIndex < |n.log|
                  && var e := n.log[n.sent[x].index];
                     n.sent[x].valid && n.sent[x].command == e.command && n.sent[x].term == e.term && n.sent[x].index == e.index)
            && (forall x, y | 0 <= x < y < |n.sent| :: n.sent[x].index < n.sent[y].index)
  {
    hide Run, Inv;
    RunInv(run, k);
    NodeFacts(run[k], a);
  }
}
