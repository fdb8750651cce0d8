/** A run that elects a leader, commits a command and delivers it: the theorems
    about runs speak of something. */
module CommitRun {
  import opened RaftTypes
  import opened NodeSpec
  import opened Cluster

  const ENTRY := LogEntry(1, 1, Other("x"))
  const VOTE := VoteRequest(1, "a", 0, 0)
  const GRANT := VoteReply("b", VOTE, VoteResponse(1, true))
  const APPEND := AppendRequest(1, "a", 0, 0, [ENTRY], 0)
  const ACCEPT := AppendReply("b", APPEND, AppendResponse(1, true))

  /** Two servers, freshly started. */
  function Start(): State {
    State(map["a" := Newborn("a", ["b"]), "b" := Newborn("b", ["a"])], {}, {}, {}, {}, {}, History(map[], {}, map[], {}, {}))
  }

  predicate Holds(s: State, a: Node, b: Node) {
    s.nodes == map["a" := a, "b" := b]
  }

  function Candidate1(): Node { Newborn("a", ["b"]).(role := Candidate, currentTerm := 1, votedFor := "a", votesReceived := 1) }
  function Voter(): Node { Newborn("b", ["a"]).(currentTerm := 1, votedFor := "a") }
  function Leader1(): Node {
    Candidate1().(role := Leader, votesReceived := 2, nextIndex := map["b" := 1], matchIndex := map["b" := 0])
  }
  function Leader2(): Node { Leader1().(log := [DUMMY, ENTRY]) }
  function Follower2(): Node { Voter().(log := [DUMMY, ENTRY]) }
  function Leader3(): Node {
    Leader2().(nextIndex := map["b" := 2], matchIndex := map["b" := 1], commitIndex := 1, lastApplied := 1, sent := [MsgOf(ENTRY)])
  }

  lemma TimesOut(s: State) returns (s1: State)
    requires AllSane(s) && Holds(s, Newborn("a", ["b"]), Newborn("b", ["a"])) && s.answered == {}
    ensures Next(s, s1) && AllSane(s1) && Holds(s1, Candidate1(), Newborn("b", ["a"]))
    ensures VOTE in s1.voteRequests && s1.answered == {}
  {
    assert Enabled(s, Timeout("a"));
    s1 := Apply(s, Timeout("a"));
  }

  lemma Votes(s: State) returns (s1: State)
    requires AllSane(s) && Holds(s, Candidate1(), Newborn("b", ["a"])) && VOTE in s.voteRequests && s.answered == {}
    ensures Next(s, s1) && AllSane(s1) && Holds(s1, Candidate1(), Voter())
    ensures GRANT in s1.voteReplies && s1.answered == {}
  {
    assert Enabled(s, DeliverVote("b", VOTE));
    s1 := Apply(s, DeliverVote("b", VOTE));
  }

  lemma IsElected(s: State) returns (s1: State)
    requires AllSane(s) && Holds(s, Candidate1(), Voter()) && GRANT in s.voteReplies && s.answered == {}
    ensures Next(s, s1) && AllSane(s1) && Holds(s1, Leader1(), Voter())
  {
    assert Enabled(s, DeliverVoteReply(GRANT));
    s1 := Apply(s, DeliverVoteReply(GRANT));
    LeaderMaps();
  }

  lemma LeaderMaps()
    ensures OnVoteResponse(Candidate1(), VoteResponse(1, true)) == Leader1()
  {
    assert ["b"][..0] == [];
    assert Filled(map[], ["b"], 1) == map["b" := 1];
    assert Filled(map[], ["b"], 0) == map["b" := 0];
  }

  lemma IsSubmitted(s: State) returns (s1: State)
    requires AllSane(s) && Holds(s, Leader1(), Voter())
    ensures Next(s, s1) && AllSane(s1) && Holds(s1, Leader2(), Voter()) && AppendMsg("b", APPEND) in s1.appends
  {
    var step := Submit("a", Other("x"));
    assert Enabled(s, step);
    s1 := Apply(s, step);
    assert Propose(Leader1(), Other("x")) == Leader2();
    assert BuildAppend(Leader2(), "b") == APPEND;
    assert AppendMsg("b", APPEND) in Broadcast(Leader2());
  }

  lemma IsAccepted(s: State) returns (s1: State)
    requires AllSane(s) && Holds(s, Leader2(), Voter()) && AppendMsg("b", APPEND) in s.appends
    ensures Next(s, s1) && AllSane(s1) && Holds(s1, Leader2(), Follower2()) && ACCEPT in s1.appendReplies
  {
    hide OnAppendRequest;
    var step := DeliverAppend(AppendMsg("b", APPEND), {});
    assert Enabled(s, step);
    Accepts();
    s1 := Apply(s, step);
  }

  lemma IsCommitted(s: State) returns (s1: State)
    requires AllSane(s) && Holds(s, Leader2(), Follower2()) && ACCEPT in s.appendReplies
    ensures Next(s, s1) && Holds(s1, Leader3(), Follower2())
  {
    hide OnAppendResponse;
    var step := DeliverAppendReply(ACCEPT, {});
    assert Enabled(s, step);
    Learns();
    s1 := Apply(s, step);
  }

  lemma Accepts()
    ensures OnAppendRequest(Voter(), APPEND, {}) == (Follower2(), AppendResponse(1, true))
  {
    assert AppendFrom([DUMMY], 1, [ENTRY]) == AppendFrom([DUMMY, ENTRY], 2, []);
  }

  lemma Learns()
    ensures OnAppendResponse(Leader2(), "b", APPEND, AppendResponse(1, true), {}) == Leader3()
  {
    var n := Track(Leader2(), "b", 1);
    assert ["b"][..0] == [];
    assert CountReplicas(["b"], n.matchIndex, 1) == 1;
    assert CanCommit(n, 1) && ScanDown(n, 1) == 1;
    var n1 := n.(commitIndex := 1);
    var n2 := n1.(sent := [MsgOf(ENTRY)], lastApplied := 1);
    assert Offer(n1, 1, {}) == Offer(n2, 2, {}) == n2;
  }

  lemma StartIsInit()
    ensures Init(Start()) && AllSane(Start())
  {
    assert (set p | p in ["b"]) == {"b"} == {"a", "b"} - {"a"};
    assert (set p | p in ["a"]) == {"a"} == {"a", "b"} - {"b"};
    assert Start().nodes.Keys == {"a", "b"};
  }

  /** There is a run at whose end a leader has committed and delivered a command. */
  lemma CommitsHappen() returns (run: seq<State>)
    ensures Run(run) && |run| == 7
    ensures "a" in run[3].nodes && run[3].nodes["a"].role == Leader
    ensures "a" in run[6].nodes && run[6].nodes["a"].commitIndex == 1 && run[6].nodes["a"].sent == [MsgOf(ENTRY)]
  {
    hide Next, Init, AllSane;
    StartIsInit();
    var s1 := TimesOut(Start());
    var s2 := Votes(s1);
    var s3 := IsElected(s2);
    var s4 := IsSubmitted(s3);
    var s5 := IsAccepted(s4);
    var s6 := IsCommitted(s5);
    run := [Start(), s1, s2, s3, s4, s5, s6];
  }
}
