/** From the replicated log to the money: what the ledgers of all servers have
    in common, in every run. */
module EndToEnd {
  import opened RaftTypes
  import opened NodeSpec
  import opened Logs
  import opened Cluster
  import opened Invariant
  import opened StepProof
  import opened Theorems
  import opened Delivery
  import L = LedgerSpec
  import LedgerObjects

  function Commands(es: seq<LogEntry>): seq<Command> {
    seq(|es|, i requires 0 <= i < |es| => es[i].command)
  }

  function Carried(msgs: seq<ApplyMsg>): seq<Command> {
    seq(|msgs|, i requires 0 <= i < |msgs| => msgs[i].command)
  }

  /** The ledger of a server after its applier took `x` messages off the channel. */
  function LedgerAfter(n: Node, x: nat): L.Book
    requires x <= |n.sent|
  {
    LedgerObjects.Drain(L.EMPTY, n.sent[..x])
  }

  function ValidOnes(msgs: seq<ApplyMsg>): seq<ApplyMsg>
    decreases |msgs|
  {
    if msgs == [] then []
    else
      var last := |msgs| - 1;
      ValidOnes(msgs[..last]) + if msgs[last].valid then [msgs[last]] else []
  }

  /** Draining a channel is replaying the commands of its valid messages, in order. */
  lemma {:induction false} DrainIsReplay(b: L.Book, msgs: seq<ApplyMsg>)
    ensures LedgerObjects.Drain(b, msgs) == L.Replay(b, Carried(ValidOnes(msgs)))
    ensures (forall m | m in msgs :: m.valid) ==> ValidOnes(msgs) == msgs
    decreases |msgs|
  {
    if msgs != [] {
      var last := |msgs| - 1;
      var init := ValidOnes(msgs[..last]);
      DrainIsReplay(b, msgs[..last]);
      assert msgs == msgs[..last] + [msgs[last]];
      if msgs[last].valid {
        L.ReplayConcat(b, Carried(init), [msgs[last].command]);
        assert Carried(init + [msgs[last]]) == Carried(init) + [msgs[last].command];
      } else {
        assert msgs[last] in msgs;
        assert init + [] == init;
      }
    } else {
      assert Carried([]) == [];
    }
  }

  // ---- all ledgers agree ----

  lemma GaplessLedger(n: Node, x: nat)
    requires Gapless(n) && x <= |n.sent|
    ensures LedgerAfter(n, x) == L.Replay(L.EMPTY, Commands(n.log[1..x + 1]))
  {
    hide L.Replay, LedgerObjects.Drain;
    DrainIsReplay(L.EMPTY, n.sent[..x]);
    SentCommands(n, x);
  }

  lemma SentCommands(n: Node, x: nat)
    requires Gapless(n) && x <= |n.sent|
    ensures Carried(n.sent[..x]) == Commands(n.log[1..x + 1])
    ensures forall m | m in n.sent[..x] :: m.valid
  {
    var msgs, es := n.sent[..x], n.log[1..x + 1];
    forall k | 0 <= k < x
      ensures msgs[k].valid && Carried(msgs)[k] == Commands(es)[k]
    {
      assert n.sent[k] == MsgOf(n.log[k + 1]);
      assert es[k] == n.log[k + 1];
    }
    assert Carried(msgs) == Commands(es);
  }

  /** Every ledger is the fold of the commands in its server's log so far, and of
      two ledgers, on any servers at any times, the one that has taken more
      messages is the other one continued with the next commands of the log. */
  lemma LedgersAgree(run: seq<State>, j: nat, k: nat, a: Id, b: Id, x: nat, y: nat)
    requires OrderlyRun(run, false) && j < |run| && k < |run| && a in run[j].nodes && b in run[k].nodes
    requires x <= y && x <= |run[j].nodes[a].sent| && y <= |run[k].nodes[b].sent|
    ensures var p, q := run[j].nodes[a], run[k].nodes[b];
            && y < |q.log|
            && LedgerAfter(p, x) == L.Replay(L.EMPTY, Commands(q.log[1..x + 1]))
            && LedgerAfter(q, y) == L.Replay(LedgerAfter(p, x), Commands(q.log[x + 1..y + 1]))
  {
    hide Inv, Run, OrderlyRun;
    var p, q := run[j].nodes[a], run[k].nodes[b];
    OrderlyIsRun(run, false);
    DeliveryIsComplete(run, false, j);
    DeliveryIsComplete(run, false, k);
    CommittedIsPermanent(run, j, j, a);
    CommittedIsPermanent(run, k, k, b);
    StateMachineSafety(run, j, k, a, b, x);
    GaplessLedger(p, x);
    GaplessLedger(q, y);
    SplitReplay(p.log, q.log, x, y);
  }

  lemma SplitReplay(p: seq<LogEntry>, q: seq<LogEntry>, x: nat, y: nat)
    requires Agree(p, q, x) && x <= y < |q|
    ensures Commands(p[1..x + 1]) == Commands(q[1..x + 1])
    ensures L.Replay(L.EMPTY, Commands(q[1..y + 1]))
         == L.Replay(L.Replay(L.EMPTY, Commands(p[1..x + 1])), Commands(q[x + 1..y + 1]))
  {
    assert p[1..x + 1] == p[..x + 1][1..] == q[..x + 1][1..] == q[1..x + 1];
    assert Commands(q[1..y + 1]) == Commands(q[1..x + 1]) + Commands(q[x + 1..y + 1]);
    L.ReplayConcat(L.EMPTY, Commands(q[1..x + 1]), Commands(q[x + 1..y + 1]));
  }

  /** When no channel ever drops an entry, a drained ledger holds everything its
      server knows to be committed. */
  lemma DrainedLedgerIsCommittedLog(run: seq<State>, k: nat, a: Id)
    requires OrderlyRun(run, true) && k < |run| && a in run[k].nodes
    ensures var n := run[k].nodes[a];
            && 0 <= n.commitIndex < |n.log|
            && LedgerAfter(n, |n.sent|) == L.Replay(L.EMPTY, Commands(n.log[1..n.commitIndex + 1]))
  {
    hide Inv, Run, OrderlyRun;
    OrderlyIsRun(run, true);
    DeliveryIsComplete(run, true, k);
    CommittedIsPermanent(run, k, k, a);
    GaplessLedger(run[k].nodes[a], |run[k].nodes[a].sent|);
  }

  // ---- money, on every server ----

  /** A run in which every submitted command passed the checks of the API. */
  ghost predicate CheckedRun(run: seq<State>) {
    && |run| > 0 && Init(run[0])
    && forall k | 0 <= k < |run| - 1 :: CheckedNext(run[k], run[k + 1])
  }

  ghost predicate CheckedNext(s: State, s': State) {
    AllSane(s) && exists step :: Enabled(s, step) && Checked(step) && s' == Apply(s, step)
  }

  predicate Checked(step: Cluster.Step) {
    step.Submit? ==> L.ApiAccepts(step.command)
  }

  predicate Accepted(log: seq<LogEntry>) {
    forall i | 0 <= i < |log| :: L.ApiAccepts(log[i].command)
  }

  ghost predicate ReignsAccepted(r: Reigns) {
    forall t | t in r :: Accepted(r[t].log)
  }

  lemma AnchoredAccepted(log: seq<LogEntry>, r: Reigns)
    requires LogOk(log, r) && ReignsAccepted(r)
    ensures Accepted(log)
  {
    forall i | 0 <= i < |log|
      ensures L.ApiAccepts(log[i].command)
    {
      if i > 0 {
        assert AnchoredAt(log, r, i);
        AgreeDown(log, r[log[i].term].log, i, i);
        assert Accepted(r[log[i].term].log);
      }
    }
  }

  lemma StepAccepted(s: State, step: Cluster.Step)
    requires Inv(s) && AllSane(s) && Enabled(s, step) && Checked(step) && ReignsAccepted(s.past.reigns)
    ensures ReignsAccepted(Apply(s, step).past.reigns)
  {
    hide Inv, OnAppendRequest, OnAppendResponse;
    if step.Submit? {
      NodeFacts(s, step.i);
      AnchoredAccepted(s.nodes[step.i].log, s.past.reigns);
    } else if step.DeliverVoteReply? {
      NodeFacts(s, step.voteReply.req.candidateId);
      AnchoredAccepted(s.nodes[step.voteReply.req.candidateId].log, s.past.reigns);
    }
  }

  lemma CheckedIsRun(run: seq<State>)
    requires CheckedRun(run)
    ensures Run(run)
  {
  }

  lemma {:induction false} RunAccepted(run: seq<State>, k: nat)
    requires CheckedRun(run) && k < |run|
    ensures ReignsAccepted(run[k].past.reigns)
    decreases k
  {
    hide Inv, Apply;
    if k > 0 {
      RunAccepted(run, k - 1);
      CheckedIsRun(run);
      RunInv(run, k - 1);
      assert CheckedNext(run[k - 1], run[k - 1 + 1]);
      var step :| Enabled(run[k - 1], step) && Checked(step) && run[k] == Apply(run[k - 1], step);
      StepAccepted(run[k - 1], step);
    }
  }

  /** In every ledger state that any server reaches: no balance is negative, the
      money is what the account creations brought in, every balance is what the
      account was opened with plus what it received minus what it paid, and no
      transfer was carried out twice, whatever the channels dropped. */
  lemma EveryLedgerIsSound(run: seq<State>, k: nat, a: Id, x: nat, txn: string)
    requires CheckedRun(run) && k < |run| && a in run[k].nodes && x <= |run[k].nodes[a].sent|
    ensures var cs := Carried(run[k].nodes[a].sent[..x]);
            var book := LedgerAfter(run[k].nodes[a], x);
            && L.NonNegative(book)
            && L.Total(book.balances) == L.Deposited(L.EMPTY, cs)
            && L.Executions(L.EMPTY, cs, txn) == (if txn in book.processed then 1 else 0)
            && forall id | id in book.balances ::
                 book.balances[id] == L.Opened(L.EMPTY, cs, id) + L.Received(L.EMPTY, cs, id) - L.Paid(L.EMPTY, cs, id)
  {
    hide Inv, Run, CheckedRun;
    CheckedIsRun(run);
    RunInv(run, k);
    RunAccepted(run, k);
    NodeFacts(run[k], a);
    var n := run[k].nodes[a];
    var msgs := n.sent[..x];
    AnchoredAccepted(n.log, run[k].past.reigns);
    SentAccepted(n, x);
    DrainIsReplay(L.EMPTY, msgs);
    L.NoOverdraft(L.EMPTY, Carried(msgs));
    L.MoneyIsConserved(L.EMPTY, Carried(msgs));
    L.AtMostOnce(L.EMPTY, Carried(msgs), txn);
    var book := LedgerAfter(n, x);
    forall id | id in book.balances
      ensures book.balances[id] ==
              L.Opened(L.EMPTY, Carried(msgs), id) + L.Received(L.EMPTY, Carried(msgs), id) - L.Paid(L.EMPTY, Carried(msgs), id)
    {
      L.BalanceIsHistory(L.EMPTY, Carried(msgs), id);
    }
  }

  lemma SentAccepted(n: Node, x: nat)
    requires SentOk(n) && Accepted(n.log) && x <= |n.sent|
    ensures forall m | m in n.sent[..x] :: m.valid
    ensures forall c | c in Carried(n.sent[..x]) :: L.ApiAccepts(c)
  {
  }
}
