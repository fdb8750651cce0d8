/** Log repair: a leader and one peer exchange AppendEntries, undisturbed by later
    terms, until one is accepted. */
module Repair {
  import opened RaftTypes
  import opened NodeSpec
  import opened Logs
  import opened Cluster
  import opened Invariant
  import opened LogProof
  import opened CommitProof
  import opened StepProof
  import opened Theorems

  /** A leader and a peer of no later term, in whatever role, whose logs satisfy
      Log Matching. */
  ghost predicate Repairable(l: Node, f: Node) {
    && Sane(l) && Sane(f) && l.role == Leader && f.currentTerm <= l.currentTerm
    && f.id in l.nextIndex && 1 <= l.nextIndex[f.id] <= |l.log|
    && Indexed(l.log) && Indexed(f.log) && Matching(f.log, l.log)
  }

  datatype Outcome = Outcome(leader: Node, follower: Node, rejections: nat)

  lemma RejectionBacksOff(l: Node, f: Node, full: set<int>)
    requires Repairable(l, f)
    requires !CheckLog(f.log, BuildAppend(l, f.id))
    ensures var req := BuildAppend(l, f.id);
            && OnAppendRequest(f, req, full) == (AcceptLeader(f, req), AppendResponse(l.currentTerm, false))
            && OnAppendResponse(l, f.id, req, AppendResponse(l.currentTerm, false), full) == BackOff(l, f.id)
            && AcceptLeader(f, req).log == f.log && Repairable(BackOff(l, f.id), AcceptLeader(f, req))
    ensures 1 <= BackOff(l, f.id).nextIndex[f.id] == l.nextIndex[f.id] - 1
  {
  }

  /** Send, receive, handle the reply; again as long as the reply is a rejection.
      `leaderFull` and `followerFull` say where the two apply channels are full. */
  ghost function Exchange(l: Node, f: Node, leaderFull: set<int>, followerFull: set<int>): Outcome
    requires Repairable(l, f)
    decreases l.nextIndex[f.id]
  {
    var req := BuildAppend(l, f.id);
    var (f1, resp) := OnAppendRequest(f, req, followerFull);
    var l1 := OnAppendResponse(l, f.id, req, resp, leaderFull);
    if resp.success then Outcome(l1, f1, 0)
    else
      RejectionBacksOff(l, f, followerFull);
      RejectionBacksOff(l, f, leaderFull);
      var rest := Exchange(l1, f1, leaderFull, followerFull);
      rest.(rejections := rest.rejections + 1)
  }

  lemma FollowerCompletes(l: Node, f: Node, full: set<int>)
    requires Repairable(l, f) && CheckLog(f.log, BuildAppend(l, f.id))
    ensures var (f1, resp) := OnAppendRequest(f, BuildAppend(l, f.id), full);
            resp.success && resp.term == l.currentTerm && l.log <= f1.log
  {
    hide AppendFrom, BuildAppend, UpdateCommit, Matching, Indexed;
    var req := BuildAppend(l, f.id);
    MergeCompletes(l, f);
    UpdateKeepsLog(AcceptLeader(f, req).(log := AppendFrom(f.log, req.prevLogIndex + 1, req.entries)), req.leaderCommit, full);
  }

  lemma MergeCompletes(l: Node, f: Node)
    requires Repairable(l, f) && CheckLog(f.log, BuildAppend(l, f.id))
    ensures var req := BuildAppend(l, f.id);
            req.term == l.currentTerm && 0 <= req.prevLogIndex < |f.log|
            && l.log <= AppendFrom(f.log, req.prevLogIndex + 1, req.entries)
  {
    hide AppendFrom;
    var req := BuildAppend(l, f.id);
    var prev := req.prevLogIndex;
    BuildAppendReachesEnd(l, f.id);
    assert Agree(f.log, l.log, prev) by {
      assert prev == 0 ==> f.log[0].term == l.log[0].term;
    }
    MergeKeepsShared(f.log, l.log, prev, req.entries, prev);
    assert l.log[..LastLogIndex(l.log) + 1] == l.log;
  }

  lemma UpdateKeepsLog(n: Node, leaderCommit: int, full: set<int>)
    requires Sane(n)
    ensures UpdateCommit(n, leaderCommit, full).log == n.log
  {
    if leaderCommit > n.commitIndex {
      OfferKeepsRest(n.(commitIndex := Min(leaderCommit, LastLogIndex(n.log))), n.lastApplied + 1, full);
    }
  }

  lemma AdvanceKeepsMaps(n: Node, full: set<int>)
    requires Sane(n)
    ensures var n1 := AdvanceCommit(n, full);
            && n1.log == n.log && n1.nextIndex == n.nextIndex && n1.matchIndex == n.matchIndex
            && n1.role == n.role && n1.currentTerm == n.currentTerm
  {
    var k := ScanDown(n, LastLogIndex(n.log));
    if n.role == Leader && k > n.commitIndex {
      OfferKeepsRest(n.(commitIndex := k), n.lastApplied + 1, full);
    }
  }

  /** An accepted request leaves the follower with the whole log of the leader,
      and the leader knowing it. */
  lemma AcceptanceCompletes(l: Node, f: Node, leaderFull: set<int>, followerFull: set<int>)
    requires Repairable(l, f) && CheckLog(f.log, BuildAppend(l, f.id))
    ensures var req := BuildAppend(l, f.id);
            var (f1, resp) := OnAppendRequest(f, req, followerFull);
            var l1 := OnAppendResponse(l, f.id, req, resp, leaderFull);
            && resp.success && l1.log == l.log && l.log <= f1.log
            && f.id in l1.matchIndex && l1.matchIndex[f.id] == LastLogIndex(l.log)
            && f.id in l1.nextIndex && l1.nextIndex[f.id] == |l.log|
  {
    hide OnAppendRequest, AdvanceCommit;
    FollowerCompletes(l, f, followerFull);
    BuildAppendReachesEnd(l, f.id);
    AdvanceKeepsMaps(Track(l, f.id, LastLogIndex(l.log)), leaderFull);
  }

  /** Repair ends after fewer than `nextIndex` rejections: then the follower's log
      starts with the whole log of the leader, and `matchIndex` is its last index. */
  lemma {:induction false} RepairSucceeds(l: Node, f: Node, leaderFull: set<int>, followerFull: set<int>)
    requires Repairable(l, f)
    ensures var o := Exchange(l, f, leaderFull, followerFull);
            && o.rejections <= l.nextIndex[f.id] - 1
            && o.leader.log == l.log && l.log <= o.follower.log
            && f.id in o.leader.matchIndex && o.leader.matchIndex[f.id] == LastLogIndex(l.log)
            && f.id in o.leader.nextIndex && o.leader.nextIndex[f.id] == |l.log|
    decreases l.nextIndex[f.id]
  {
    if CheckLog(f.log, BuildAppend(l, f.id)) {
      AcceptanceCompletes(l, f, leaderFull, followerFull);
    } else {
      RejectionBacksOff(l, f, followerFull);
      RejectionBacksOff(l, f, leaderFull);
      RepairSucceeds(BackOff(l, f.id), AcceptLeader(f, BuildAppend(l, f.id)), leaderFull, followerFull);
    }
  }

  /** In every run, a leader can repair every peer that is not in a later term. */
  lemma LeadersCanRepair(run: seq<State>, k: nat, a: Id, p: Id)
    requires Run(run) && k < |run| && a in run[k].nodes && run[k].nodes[a].role == Leader
    requires p in run[k].nodes[a].peers
    ensures p in run[k].nodes
    ensures run[k].nodes[p].currentTerm <= run[k].nodes[a].currentTerm ==>
              Repairable(run[k].nodes[a], run[k].nodes[p])
  {
    hide Run, Inv;
    RunInv(run, k);
    MatchIndexIsTruthful(run, k, a, p);
    NodeFacts(run[k], p);
    LogMatching(run, k, k, p, a);
    LogMatching(run, k, k, a, a);
  }
}
