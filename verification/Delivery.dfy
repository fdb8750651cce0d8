/** When the apply channel of a server receives every committed entry. */
module Delivery {
  import opened RaftTypes
  import opened NodeSpec
  import opened Logs
  import opened Cluster
  import opened Invariant
  import opened Moves
  import opened CommitProof
  import opened StepProof
  import opened Theorems

  /** What was sent is exactly the entries 1 to `lastApplied`, in order. */
  predicate Gapless(n: Node) {
    && |n.sent| == n.lastApplied < |n.log|
    && forall x | 0 <= x < |n.sent| :: n.sent[x] == MsgOf(n.log[x + 1])
  }

  /** Between `lo` and `hi`, a full channel stays full once it was. */
  predicate NoOvertaking(lo: int, hi: int, full: set<int>) {
    forall x, y | lo <= x < y <= hi && x in full :: y in full
  }

  predicate NoSkips(lo: int, hi: int, full: set<int>) {
    forall x | lo <= x <= hi :: x !in full
  }

  lemma {:induction false} GapStays(n: Node, i: int, full: set<int>)
    requires Sane(n) && n.commitIndex < |n.log| && |n.sent| < n.lastApplied < i
    ensures |Offer(n, i, full).sent| < Offer(n, i, full).lastApplied
    decreases n.commitIndex - i
  {
    if i <= n.commitIndex {
      if i in full {
        GapStays(n, i + 1, full);
      } else {
        GapStays(n.(sent := n.sent + [MsgOf(n.log[i])], lastApplied := i), i + 1, full);
      }
    }
  }

  /** After a skip, any further send leaves a gap. */
  lemma {:induction false} AfterSkip(n: Node, i: int, full: set<int>)
    requires Sane(n) && Gapless(n) && n.commitIndex < |n.log| && n.lastApplied < i - 1
    ensures Gapless(Offer(n, i, full)) <==> forall y | i <= y <= n.commitIndex :: y in full
    ensures (forall y | i <= y <= n.commitIndex :: y in full) ==> Offer(n, i, full) == n
    decreases n.commitIndex - i
  {
    if i <= n.commitIndex {
      if i in full {
        AfterSkip(n, i + 1, full);
      } else {
        GapStays(n.(sent := n.sent + [MsgOf(n.log[i])], lastApplied := i), i + 1, full);
      }
    }
  }

  lemma {:induction false} OfferGapless(n: Node, i: int, full: set<int>)
    requires Sane(n) && Gapless(n) && n.commitIndex < |n.log| && i == n.lastApplied + 1
    ensures Gapless(Offer(n, i, full)) <==> NoOvertaking(i, n.commitIndex, full)
    ensures Gapless(Offer(n, i, full)) && i <= n.commitIndex + 1 ==>
              (Offer(n, i, full).lastApplied == n.commitIndex <==> NoSkips(i, n.commitIndex, full))
    decreases n.commitIndex - i
  {
    if i <= n.commitIndex {
      if i in full {
        AfterSkip(n, i + 1, full);
        if NoOvertaking(i, n.commitIndex, full) {
          assert forall y | i + 1 <= y <= n.commitIndex :: y in full;
        } else {
          assert exists y :: i + 1 <= y <= n.commitIndex && y !in full;
        }
      } else {
        var n1 := n.(sent := n.sent + [MsgOf(n.log[i])], lastApplied := i);
        OfferGapless(n1, i + 1, full);
      }
    }
  }

  /** One call of the apply loop keeps the delivery gapless if and only if no
      entry is sent after one that found the channel full; it delivers everything
      committed if and only if no send found the channel full. */
  lemma GaplessIffNoOvertaking(n: Node, full: set<int>)
    requires Sane(n) && Gapless(n) && n.lastApplied <= n.commitIndex < |n.log|
    ensures var n' := ApplyCommitted(n, full);
            && (Gapless(n') <==> NoOvertaking(n.lastApplied + 1, n.commitIndex, full))
            && (Gapless(n') && n'.lastApplied == n.commitIndex <==> NoSkips(n.lastApplied + 1, n.commitIndex, full))
  {
    OfferGapless(n, n.lastApplied + 1, full);
  }

  // ---- whole runs ----

  function Receiver(step: Step): Id
    requires step.DeliverAppend? || step.DeliverAppendReply?
  {
    if step.DeliverAppend? then step.msg.to else step.reply.req.leaderId
  }

  /** The channel never drops an entry and then takes a later one in the same
      call; when `strict`, it never drops any. */
  predicate Orderly(s: State, step: Step, strict: bool)
    requires AllSane(s) && Enabled(s, step)
  {
    step.DeliverAppend? || step.DeliverAppendReply? ==>
      var i := Receiver(step);
      var lo, hi := s.nodes[i].lastApplied + 1, Apply(s, step).nodes[i].commitIndex;
      NoOvertaking(lo, hi, step.full) && (strict ==> NoSkips(lo, hi, step.full))
  }

  ghost predicate OrderlyRun(run: seq<State>, strict: bool) {
    && |run| > 0 && Init(run[0])
    && forall k | 0 <= k < |run| - 1 :: OrderlyNext(run[k], run[k + 1], strict)
  }

  ghost predicate OrderlyNext(s: State, s': State, strict: bool) {
    AllSane(s) && exists step :: Enabled(s, step) && Orderly(s, step, strict) && s' == Apply(s, step)
  }

  predicate Delivered(n: Node, strict: bool) {
    Gapless(n) && (strict ==> n.lastApplied == n.commitIndex)
  }

  ghost predicate AllDelivered(s: State, strict: bool) {
    forall i | i in s.nodes :: Delivered(s.nodes[i], strict)
  }

  lemma DeliveredStays(n: Node, n': Node, strict: bool)
    requires Delivered(n, strict) && NodeAdvances(n, n') && n.lastApplied <= n.commitIndex
    requires n'.sent == n.sent && n'.lastApplied == n.lastApplied && n'.commitIndex == n.commitIndex
    ensures Delivered(n', strict)
  {
  }

  /** Raising the commit index and running the apply loop. */
  lemma RaisedDelivers(n: Node, k: int, full: set<int>, strict: bool)
    requires Sane(n) && Delivered(n, strict) && n.lastApplied <= n.commitIndex <= k < |n.log|
    requires NoOvertaking(n.lastApplied + 1, k, full) && (strict ==> NoSkips(n.lastApplied + 1, k, full))
    ensures Delivered(ApplyCommitted(n.(commitIndex := k), full), strict)
    ensures ApplyCommitted(n.(commitIndex := k), full).commitIndex == k
  {
    GaplessIffNoOvertaking(n.(commitIndex := k), full);
    OfferCommit(n.(commitIndex := k), n.lastApplied + 1, full);
  }

  lemma {:induction false} OfferCommit(n: Node, i: int, full: set<int>)
    requires Sane(n) && n.commitIndex < |n.log| && 0 <= i
    ensures Offer(n, i, full).commitIndex == n.commitIndex
    decreases n.commitIndex - i
  {
    if i <= n.commitIndex {
      if i in full {
        OfferCommit(n, i + 1, full);
      } else {
        OfferCommit(n.(sent := n.sent + [MsgOf(n.log[i])], lastApplied := i), i + 1, full);
      }
    }
  }

  lemma ResponseDelivers(n: Node, p: Id, req: AppendRequest, resp: AppendResponse, full: set<int>, strict: bool)
    requires Sane(n) && SentOk(n) && Indexed(n.log) && n.lastApplied <= n.commitIndex < |n.log| && Delivered(n, strict)
    requires var k := OnAppendResponse(n, p, req, resp, full).commitIndex;
             NoOvertaking(n.lastApplied + 1, k, full) && (strict ==> NoSkips(n.lastApplied + 1, k, full))
    ensures Delivered(OnAppendResponse(n, p, req, resp, full), strict)
  {
    if n.role == Leader && resp.term <= n.currentTerm && resp.success {
      var n1 := Track(n, p, req.prevLogIndex + |req.entries|);
      var k := ScanDown(n1, LastLogIndex(n1.log));
      if k > n1.commitIndex {
        OfferCommit(n1.(commitIndex := k), n1.lastApplied + 1, full);
        RaisedDelivers(n1, k, full, strict);
      }
    }
  }

  lemma AppendDelivers(s: State, m: AppendMsg, full: set<int>, strict: bool)
    requires Inv(s) && AllSane(s) && m in s.appends && m.to in s.nodes && Delivered(s.nodes[m.to], strict)
    requires var k := DoAppend(s, m, full).nodes[m.to].commitIndex;
             var lo := s.nodes[m.to].lastApplied + 1;
             NoOvertaking(lo, k, full) && (strict ==> NoSkips(lo, k, full))
    ensures Delivered(DoAppend(s, m, full).nodes[m.to], strict)
  {
    hide Inv, NoOvertaking, NoSkips;
    var n := s.nodes[m.to];
    if m.req.term >= n.currentTerm && CheckLog(n.log, m.req) {
      WelcomeInv(s, m);
      var s1 := Welcome(s, m);
      var k := UpdateCommit(Merge(s1, m.to, m.req).nodes[m.to], m.req.leaderCommit, full).commitIndex;
      assert DoAppend(s, m, full).nodes[m.to] == UpdateCommit(Merge(s1, m.to, m.req).nodes[m.to], m.req.leaderCommit, full);
      AcceptedDelivers(s1, m, full, strict, k);
    }
  }

  lemma AcceptedDelivers(s: State, m: AppendMsg, full: set<int>, strict: bool, k: int)
    requires Inv(s) && AllSane(s) && m in s.appends && m.to in s.nodes && MayMerge(s, m.to, m.req)
    requires 0 <= m.req.prevLogIndex < |s.nodes[m.to].log| && Delivered(s.nodes[m.to], strict)
    requires k == UpdateCommit(Merge(s, m.to, m.req).nodes[m.to], m.req.leaderCommit, full).commitIndex
    requires NoOvertaking(s.nodes[m.to].lastApplied + 1, k, full)
    requires strict ==> NoSkips(s.nodes[m.to].lastApplied + 1, k, full)
    ensures Delivered(UpdateCommit(Merge(s, m.to, m.req).nodes[m.to], m.req.leaderCommit, full), strict)
  {
    hide Inv, LogInv, Electorates, Inherited, Commits, Progress, Backed, MapsOk, Configured, NoOvertaking, NoSkips, Gapless,
         Anchored, Ascending, MayMerge, Delivered;
    var i, req := m.to, m.req;
    LogInvOf(s);
    SafetyParts(s);
    NodeFacts(s, i);
    MergeKeepsCommitted(s, i, req);
    var n2 := Merge(s, i, req).nodes[i];
    DeliveredStays(s.nodes[i], n2, strict);
    CommitRuleExact(s, i, req);
    if req.leaderCommit > n2.commitIndex {
      OfferCommit(n2.(commitIndex := req.leaderCommit), n2.lastApplied + 1, full);
      RaisedDelivers(n2, req.leaderCommit, full, strict);
    }
  }

  lemma OthersKeep(s: State, step: Step, i: Id)
    requires AllSane(s) && Enabled(s, step) && i in s.nodes
    requires step.DeliverAppend? || step.DeliverAppendReply? ==> i != Receiver(step)
    ensures var n, n' := s.nodes[i], Apply(s, step).nodes[i];
            n'.sent == n.sent && n'.lastApplied == n.lastApplied && n'.commitIndex == n.commitIndex
  {
  }

  lemma NodeDelivers(s: State, step: Step, strict: bool, i: Id)
    requires Inv(s) && AllSane(s) && Enabled(s, step) && Orderly(s, step, strict)
    requires i in s.nodes && i in Apply(s, step).nodes && Delivered(s.nodes[i], strict)
    ensures Delivered(Apply(s, step).nodes[i], strict)
  {
    hide Inv, Delivered, NodeAdvances, OnAppendRequest, OnAppendResponse, NoOvertaking, NoSkips, LogOk, Backed, MapsOk, Configured;
    NodeFacts(s, i);
    if step.DeliverAppend? && i == step.msg.to {
      AppendDelivers(s, step.msg, step.full, strict);
    } else if step.DeliverAppendReply? && i == step.reply.req.leaderId {
      IndexedOf(s, i);
      ResponseDelivers(s.nodes[i], step.reply.from, step.reply.req, step.reply.resp, step.full, strict);
    } else {
      StepAdvances(s, step);
      OthersKeep(s, step, i);
      DeliveredStays(s.nodes[i], Apply(s, step).nodes[i], strict);
    }
  }

  lemma IndexedOf(s: State, i: Id)
    requires Inv(s) && i in s.nodes
    ensures Indexed(s.nodes[i].log)
  {
    hide Inv;
    NodeFacts(s, i);
  }

  lemma StepDelivers(s: State, step: Step, strict: bool)
    requires Inv(s) && AllSane(s) && Enabled(s, step) && Orderly(s, step, strict) && AllDelivered(s, strict)
    ensures AllDelivered(Apply(s, step), strict)
  {
    hide Inv, Delivered, Apply, Orderly, Enabled;
    StepAdvances(s, step);
    forall i | i in Apply(s, step).nodes
      ensures Delivered(Apply(s, step).nodes[i], strict)
    {
      NodeDelivers(s, step, strict, i);
    }
  }

  lemma OrderlyIsRun(run: seq<State>, strict: bool)
    requires OrderlyRun(run, strict)
    ensures Run(run)
  {
  }

  /** In every run whose channels never let an entry overtake a dropped one, each
      server has sent exactly entries 1 to `lastApplied`; when nothing is ever
      dropped, that is everything it knows to be committed. */
  lemma {:induction false} DeliveryIsComplete(run: seq<State>, strict: bool, k: nat)
    requires OrderlyRun(run, strict) && k < |run|
    ensures AllDelivered(run[k], strict)
    decreases k
  {
    hide Inv, Apply, Orderly, Delivered;
    if k == 0 {
      assert forall i | i in run[0].nodes :: Fresh(i, run[0].nodes[i], run[0].nodes.Keys);
      forall i | i in run[0].nodes
        ensures Delivered(run[0].nodes[i], strict)
      {
        FreshDelivered(i, run[0].nodes[i], run[0].nodes.Keys, strict);
      }
    } else {
      DeliveryIsComplete(run, strict, k - 1);
      OrderlyIsRun(run, strict);
      RunInv(run, k - 1);
      assert OrderlyNext(run[k - 1], run[k - 1 + 1], strict);
      var step :| Enabled(run[k - 1], step) && Orderly(run[k - 1], step, strict) && run[k] == Apply(run[k - 1], step);
      StepDelivers(run[k - 1], step, strict);
    }
  }

  lemma FreshDelivered(i: Id, n: Node, ids: set<Id>, strict: bool)
    requires Fresh(i, n, ids)
    ensures Delivered(n, strict)
  {
  }
}
