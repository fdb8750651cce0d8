/** A run in which one apply channel is full for a moment, and two ledgers drift
    apart for good: the agreement of the ledgers needs that no entry overtakes a
    skipped one. */
module SkipRun {
  import opened RaftTypes
  import opened NodeSpec
  import opened Logs
  import opened Cluster
  import opened CommitRun
  import opened EndToEnd

  const FIRST := LogEntry(1, 1, CreateAccount("p", 5.0))
  const SECOND := LogEntry(1, 2, CreateAccount("p", 9.0))
  const BOTH := AppendRequest(1, "a", 0, 0, [FIRST, SECOND], 0)
  const TAKEN := AppendReply("b", BOTH, AppendResponse(1, true))
  const BEAT := AppendRequest(1, "a", 2, 1, [], 2)

  function Proposed1(): Node { Leader1().(log := [DUMMY, FIRST]) }
  function Proposed2(): Node { Leader1().(log := [DUMMY, FIRST, SECOND]) }
  function Took(): Node { Voter().(log := [DUMMY, FIRST, SECOND]) }
  function Skipped(): Node {
    Proposed2().(nextIndex := map["b" := 3], matchIndex := map["b" := 2], commitIndex := 2, lastApplied := 2, sent := [MsgOf(SECOND)])
  }
  function TookAll(): Node { Took().(commitIndex := 2, lastApplied := 2, sent := [MsgOf(FIRST), MsgOf(SECOND)]) }

  lemma SubmitsFirst(s: State) returns (s1: State)
    requires AllSane(s) && Holds(s, Leader1(), Voter())
    ensures Next(s, s1) && AllSane(s1) && Holds(s1, Proposed1(), Voter())
  {
    var step := Submit("a", FIRST.command);
    assert Enabled(s, step);
    s1 := Apply(s, step);
    assert Propose(Leader1(), FIRST.command) == Proposed1();
  }

  lemma SubmitsSecond(s: State) returns (s1: State)
    requires AllSane(s) && Holds(s, Proposed1(), Voter())
    ensures Next(s, s1) && AllSane(s1) && Holds(s1, Proposed2(), Voter()) && AppendMsg("b", BOTH) in s1.appends
  {
    var step := Submit("a", SECOND.command);
    assert Enabled(s, step);
    s1 := Apply(s, step);
    assert Propose(Proposed1(), SECOND.command) == Proposed2();
    assert BuildAppend(Proposed2(), "b") == BOTH;
    assert AppendMsg("b", BOTH) in Broadcast(Proposed2());
  }

  lemma AcceptsBoth(s: State) returns (s1: State)
    requires AllSane(s) && Holds(s, Proposed2(), Voter()) && AppendMsg("b", BOTH) in s.appends
    ensures Next(s, s1) && AllSane(s1) && Holds(s1, Proposed2(), Took()) && TAKEN in s1.appendReplies
  {
    hide OnAppendRequest;
    var step := DeliverAppend(AppendMsg("b", BOTH), {});
    assert Enabled(s, step);
    Takes();
    s1 := Apply(s, step);
  }

  /** The channel of a is full when entry 1 is offered and not when entry 2 is. */
  lemma CommitsSkipping(s: State) returns (s1: State)
    requires AllSane(s) && Holds(s, Proposed2(), Took()) && TAKEN in s.appendReplies
    ensures Next(s, s1) && AllSane(s1) && Holds(s1, Skipped(), Took())
  {
    hide OnAppendResponse;
    var step := DeliverAppendReply(TAKEN, {1});
    assert Enabled(s, step);
    Skips();
    s1 := Apply(s, step);
  }

  lemma Beats(s: State) returns (s1: State)
    requires AllSane(s) && Holds(s, Skipped(), Took())
    ensures Next(s, s1) && AllSane(s1) && Holds(s1, Skipped(), Took()) && AppendMsg("b", BEAT) in s1.appends
  {
    var step := Heartbeat("a");
    assert Enabled(s, step);
    s1 := Apply(s, step);
    assert BuildAppend(Skipped(), "b") == BEAT;
    assert AppendMsg("b", BEAT) in Broadcast(Skipped());
  }

  lemma DeliversAll(s: State) returns (s1: State)
    requires AllSane(s) && Holds(s, Skipped(), Took()) && AppendMsg("b", BEAT) in s.appends
    ensures Next(s, s1) && Holds(s1, Skipped(), TookAll())
  {
    hide OnAppendRequest;
    var step := DeliverAppend(AppendMsg("b", BEAT), {});
    assert Enabled(s, step);
    LearnsCommit();
    s1 := Apply(s, step);
  }

  lemma Takes()
    ensures OnAppendRequest(Voter(), BOTH, {}) == (Took(), AppendResponse(1, true))
  {
    AppendAtEnd([DUMMY], [FIRST, SECOND]);
    assert [DUMMY] + Reindexed([FIRST, SECOND], 1) == [DUMMY, FIRST, SECOND];
  }

  lemma Skips()
    ensures OnAppendResponse(Proposed2(), "b", BOTH, AppendResponse(1, true), {1}) == Skipped()
  {
    var n := Track(Proposed2(), "b", 2);
    assert ["b"][..0] == [];
    assert CountReplicas(["b"], n.matchIndex, 2) == 1;
    assert CanCommit(n, 2) && ScanDown(n, 2) == 2;
    var n1 := n.(commitIndex := 2);
    var n2 := n1.(sent := [MsgOf(SECOND)], lastApplied := 2);
    assert n1.sent + [MsgOf(SECOND)] == [MsgOf(SECOND)];
    assert Offer(n1, 1, {1}) == Offer(n1, 2, {1}) == Offer(n2, 3, {1}) == n2;
  }

  lemma LearnsCommit()
    ensures OnAppendRequest(Took(), BEAT, {}) == (TookAll(), AppendResponse(1, true))
  {
    var n := Took().(commitIndex := 2);
    var n1 := n.(sent := [MsgOf(FIRST)], lastApplied := 1);
    assert n.sent + [MsgOf(FIRST)] == [MsgOf(FIRST)];
    assert n1.sent + [MsgOf(SECOND)] == [MsgOf(FIRST), MsgOf(SECOND)];
    assert Offer(n, 1, {}) == Offer(n1, 2, {}) == Offer(TookAll(), 3, {}) == TookAll();
  }

  lemma Ledgers()
    ensures LedgerAfter(Skipped(), 1) == L.Book(map["p" := 9.0], {})
    ensures LedgerAfter(TookAll(), 2) == L.Book(map["p" := 5.0], {})
  {
    var m, m1 := MsgOf(FIRST), MsgOf(SECOND);
    assert [m1][..1] == [m1] && [m1][..0] == [] && [m, m1][..2] == [m, m1] && [m, m1][..1] == [m];
    var open := L.Step(L.EMPTY, FIRST.command);
    assert LedgerObjects.Drain(L.EMPTY, []) == L.EMPTY;
    assert LedgerObjects.Drain(L.EMPTY, [m1]) == L.Step(L.EMPTY, SECOND.command);
    assert LedgerObjects.Drain(L.EMPTY, [m]) == open by { assert [m][..0] == []; }
    assert LedgerObjects.Drain(L.EMPTY, [m, m1]) == L.Step(open, SECOND.command);
  }

  /** Two servers that know the same entries to be committed and have nothing left
      to deliver, with different balances in one account. */
  lemma LedgersDrift() returns (run: seq<State>)
    ensures Run(run) && |run| == 10 && "a" in run[9].nodes && "b" in run[9].nodes
    ensures var a, b := run[9].nodes["a"], run[9].nodes["b"];
            && a.log == b.log && a.commitIndex == b.commitIndex == a.lastApplied == b.lastApplied == 2
            && |a.sent| == 1 && LedgerAfter(a, 1) == L.Book(map["p" := 9.0], {})
            && |b.sent| == 2 && LedgerAfter(b, 2) == L.Book(map["p" := 5.0], {})
  {
    hide Next, Init, AllSane, LedgerAfter;
    StartIsInit();
    var s1 := TimesOut(Start());
    var s2 := Votes(s1);
    var s3 := IsElected(s2);
    var s4 := SubmitsFirst(s3);
    var s5 := SubmitsSecond(s4);
    var s6 := AcceptsBoth(s5);
    var s7 := CommitsSkipping(s6);
    var s8 := Beats(s7);
    var s9 := DeliversAll(s8);
    Ledgers();
    run := [Start(), s1, s2, s3, s4, s5, s6, s7, s8, s9];
  }
}
