/** Why the cluster's runs deliver a granted vote or a successful append reply
    only while its receiver is still in the reply's term: the handlers compare
    terms in one direction only. */
module StaleReplies {
  import opened RaftTypes
  import opened NodeSpec
  import opened Repair

  /** Handling `resp` adds a vote to the current election. */
  predicate AddsVote(n: Node, resp: VoteResponse) {
    n.role == Candidate && OnVoteResponse(n, resp).currentTerm == n.currentTerm
    && OnVoteResponse(n, resp).votesReceived == n.votesReceived + 1
  }

  /** Remark: a candidate counts only votes of its own term if and only if the response is
      not a grant of an older term. */
  lemma CountsOwnTermIff(n: Node, resp: VoteResponse)
    requires n.role == Candidate
    ensures (AddsVote(n, resp) ==> resp.term == n.currentTerm) <==> !(resp.granted && resp.term < n.currentTerm)
  {
  }

  /** The servers a, b, c after: a times out; b votes for a in term 1; a times
      out again; the old grant reaches a; c times out twice; b votes for c in
      term 2; that grant reaches c. */
  function LateGrantRun(): (Node, Node, Node) {
    var a1 := BecomeCandidate(Newborn("a", ["b", "c"]));
    var (b1, late) := OnVoteRequest(Newborn("b", ["a", "c"]), VoteRequestOf(a1));
    var a2 := BecomeCandidate(a1);
    var a3 := OnVoteResponse(a2, late);
    var c2 := BecomeCandidate(BecomeCandidate(Newborn("c", ["a", "b"])));
    var (b2, grant) := OnVoteRequest(b1, VoteRequestOf(c2));
    var c3 := OnVoteResponse(c2, grant);
    (a3, b2, c3)
  }

  /** Without that restriction Election Safety fails: two leaders in term 2. */
  lemma LateGrantElectsTwo()
    ensures var (a, b, c) := LateGrantRun();
            a.role == Leader && c.role == Leader && a.currentTerm == 2 && c.currentTerm == 2 && a.id != c.id
  {
  }

  /** Handling `resp` makes a leader believe that `peer` holds the entries of `req`. */
  predicate Believes(n: Node, peer: Id, req: AppendRequest, resp: AppendResponse)
    requires Sane(n)
  {
    var n1 := OnAppendResponse(n, peer, req, resp, {});
    && n1.role == Leader && n1.currentTerm == n.currentTerm
    && peer in n1.matchIndex && n1.matchIndex[peer] == req.prevLogIndex + |req.entries|
  }

  /** Remark: a leader believes only successes of its own term if and only if the
      response is not a success of an older term. */
  lemma BelievesOwnTermIff(n: Node, peer: Id, req: AppendRequest, resp: AppendResponse)
    requires Sane(n) && n.role == Leader && resp.success
    ensures (Believes(n, peer, req, resp) ==> resp.term == n.currentTerm) <==> !(resp.term < n.currentTerm)
  {
    if resp.term <= n.currentTerm {
      AdvanceKeepsMaps(Track(n, peer, req.prevLogIndex + |req.entries|), {});
    }
  }

  // ---- a run in which a late success breaks State Machine Safety ----

  const X := LogEntry(1, 1, Other("x"))
  const Y := LogEntry(1, 2, Other("y"))
  const Z := LogEntry(2, 1, Other("z"))
  const W := LogEntry(5, 2, Other("w"))
  const V := LogEntry(6, 2, Other("v"))

  /** `n` times out, `voter` answers, the answer arrives. */
  function Elect(n: Node, voter: Node): (r: (Node, Node))
    requires Sane(n) && Sane(voter)
    ensures Sane(r.0) && Sane(r.1)
  {
    var n1 := BecomeCandidate(n);
    var (v1, resp) := OnVoteRequest(voter, VoteRequestOf(n1));
    (OnVoteResponse(n1, resp), v1)
  }

  /** `n` after it also received the vote request of that election. */
  function Hears(n: Node, candidate: Node): (r: Node)
    requires Sane(n)
    ensures Sane(r)
  {
    OnVoteRequest(n, VoteRequestOf(BecomeCandidate(candidate))).0
  }

  /** One AppendEntries from `l` to `f` and its reply. */
  function Round(l: Node, f: Node): (r: (Node, Node))
    requires Sane(l) && Sane(f)
    ensures Sane(r.0) && Sane(r.1)
  {
    var req := BuildAppend(l, f.id);
    var (f1, resp) := OnAppendRequest(f, req, {});
    (OnAppendResponse(l, f.id, req, resp, {}), f1)
  }

  /** A server of the three that has committed nothing yet. */
  predicate Idle(n: Node, id: Id, peers: seq<Id>, role: Role, term: int, log: seq<LogEntry>) {
    && n.id == id && n.peers == peers && n.majority == 2 && n.role == role && n.currentTerm == term && n.log == log
    && n.commitIndex == 0 && n.lastApplied == 0 && n.sent == [] && |log| > 0
  }

  ghost predicate Three(a: Node, ra: Role, ta: int, la: seq<LogEntry>,
                        b: Node, rb: Role, tb: int, lb: seq<LogEntry>,
                        c: Node, rc: Role, tc: int, lc: seq<LogEntry>) {
    Idle(a, "a", ["b", "c"], ra, ta, la) && Idle(b, "b", ["a", "c"], rb, tb, lb) && Idle(c, "c", ["a", "b"], rc, tc, lc)
  }

  /** Terms 1 and 2: a leads and proposes two entries, then c leads and proposes
      one; nothing of it is delivered. */
  function FirstTerms(): (r: (Node, Node, Node))
    ensures Sane(r.0) && Sane(r.1) && Sane(r.2)
  {
    var (a1, b1) := Elect(Newborn("a", ["b", "c"]), Newborn("b", ["a", "c"]));
    var a2 := Propose(Propose(a1, X.command), Y.command);
    var c1 := BecomeCandidate(Newborn("c", ["a", "b"]));
    var (c2, b2) := Elect(c1, b1);
    (Hears(a2, c1), b2, Propose(c2, Z.command))
  }

  /** Term 3: a leads, b refuses two requests and accepts the third; the reply to
      that one is delayed. */
  function ThirdTerm(a: Node, b: Node, c: Node): (r: (Node, Node, Node, AppendRequest, AppendResponse))
    requires Sane(a) && Sane(b) && Sane(c)
    ensures Sane(r.0) && Sane(r.1) && Sane(r.2)
  {
    var (a1, b1) := Elect(a, b);
    var (a2, b2) := Round(a1, b1);
    var (a3, b3) := Round(a2, b2);
    var req := BuildAppend(a3, "b");
    var (b4, late) := OnAppendRequest(b3, req, {});
    (a3, b4, Hears(c, a), req, late)
  }

  /** Term 4: c leads and overwrites the logs of a and b. */
  function FourthTerm(a: Node, b: Node, c: Node): (r: (Node, Node, Node))
    requires Sane(a) && Sane(b) && Sane(c)
    ensures Sane(r.0) && Sane(r.1) && Sane(r.2)
  {
    var (c1, b1) := Elect(c, b);
    var (c2, b2) := Round(c1, b1);
    var (c3, a1) := Round(c2, a);
    (OnAppendRequest(a1, BuildAppend(c3, "a"), {}).0, OnAppendRequest(b2, BuildAppend(c3, "b"), {}).0, c3)
  }

  /** Term 5: a leads and proposes. */
  function FifthTerm(a: Node, b: Node, c: Node): (r: (Node, Node, Node))
    requires Sane(a) && Sane(b) && Sane(c)
    ensures Sane(r.0) && Sane(r.1) && Sane(r.2)
  {
    var (a1, b1) := Elect(a, b);
    (Propose(a1, W.command), b1, Hears(c, a))
  }

  /** Term 6: c leads, proposes and has b accept. */
  function SixthTerm(b: Node, c: Node): (Node, Node)
    requires Sane(b) && Sane(c)
  {
    var (c1, b1) := Elect(c, b);
    Round(Propose(c1, V.command), b1)
  }

  lemma Elected(n: Node, voter: Node)
    requires Sane(n) && Sane(voter) && n.majority == 2 && voter.currentTerm <= n.currentTerm && |n.peers| == 2
    requires UpToDate(LastLogTerm(n.log), LastLogIndex(n.log), voter.log)
    ensures var (l, v) := Elect(n, voter);
            && l == n.(role := Leader, currentTerm := n.currentTerm + 1, votedFor := n.id, votesReceived := 2,
                       nextIndex := l.nextIndex, matchIndex := l.matchIndex)
            && (forall p | p in n.peers :: p in l.nextIndex && l.nextIndex[p] == |n.log| && p in l.matchIndex && l.matchIndex[p] == 0)
            && v == voter.(role := Follower, currentTerm := n.currentTerm + 1, votedFor := n.id, votesReceived := 0)
  {
  }

  lemma TermsOneTwo()
    ensures var (a, b, c) := FirstTerms();
            Three(a, Follower, 2, [DUMMY, X, Y], b, Follower, 2, [DUMMY], c, Leader, 2, [DUMMY, Z])
  {
    var a0, b0, c1 := Newborn("a", ["b", "c"]), Newborn("b", ["a", "c"]), BecomeCandidate(Newborn("c", ["a", "b"]));
    Elected(a0, b0);
    Elected(c1, Elect(a0, b0).1);
  }

  lemma RoundRefused(l: Node, f: Node)
    requires Sane(l) && Sane(f) && l.role == Leader && f.currentTerm <= l.currentTerm
    requires !CheckLog(f.log, BuildAppend(l, f.id))
    ensures Round(l, f) == (BackOff(l, f.id), AcceptLeader(f, BuildAppend(l, f.id)))
  {
  }

  lemma RequestAccepted(f: Node, req: AppendRequest)
    requires Sane(f) && f.currentTerm <= req.term && CheckLog(f.log, req) && req.leaderCommit <= f.commitIndex
    ensures var f1 := AcceptLeader(f, req);
            OnAppendRequest(f, req, {}) ==
              (f1.(log := AppendFrom(f.log, req.prevLogIndex + 1, req.entries)), AppendResponse(req.term, true))
  {
  }

  lemma TermThree(a: Node, b: Node, c: Node)
    requires Three(a, Follower, 2, [DUMMY, X, Y], b, Follower, 2, [DUMMY], c, Leader, 2, [DUMMY, Z])
    ensures var (a', b', c', req, late) := ThirdTerm(a, b, c);
            && Three(a', Leader, 3, [DUMMY, X, Y], b', Follower, 3, [DUMMY, X, Y], c', Follower, 3, [DUMMY, Z])
            && req.prevLogIndex == 0 && |req.entries| == 2 && late == AppendResponse(3, true)
  {
    hide AppendFrom, Elect, Round, OnAppendRequest;
    Elected(a, b);
    var (a1, b1) := Elect(a, b);
    RoundRefused(a1, b1);
    var (a2, b2) := Round(a1, b1);
    RoundRefused(a2, b2);
    var (a3, b3) := Round(a2, b2);
    assert BuildAppend(a3, "b").entries == [X, Y];
    RequestAccepted(b3, BuildAppend(a3, "b"));
    AppendPair([DUMMY], X, Y);
  }

  lemma AppendPair(log: seq<LogEntry>, e: LogEntry, e1: LogEntry)
    requires |log| == 1 && e.index == 1 && e1.index == 2
    ensures AppendFrom(log, 1, [e, e1]) == log + [e, e1]
  {
    assert [e, e1][1..] == [e1];
    assert log[..1] + [e] == log + [e];
    Overwrite(log + [e], 2, e1);
    assert (log + [e])[..2] + [e1] == log + [e, e1];
  }

  lemma Overwrite(log: seq<LogEntry>, at: nat, e: LogEntry)
    requires at <= |log| && e.index == at && (at < |log| ==> log[at].term != e.term)
    ensures AppendFrom(log, at, [e]) == log[..at] + [e]
  {
    assert [e][1..] == [];
    assert AppendFrom(log[..at] + [e], at + 1, []) == log[..at] + [e];
  }

  lemma TermFour(a: Node, b: Node, c: Node)
    requires Three(a, Leader, 3, [DUMMY, X, Y], b, Follower, 3, [DUMMY, X, Y], c, Follower, 3, [DUMMY, Z])
    ensures var (a', b', c') := FourthTerm(a, b, c);
            Three(a', Follower, 4, [DUMMY, Z], b', Follower, 4, [DUMMY, Z], c', Leader, 4, [DUMMY, Z])
  {
    hide AppendFrom, Elect, Round, OnAppendRequest;
    Elected(c, b);
    var (c1, b1) := Elect(c, b);
    RoundRefused(c1, b1);
    var (c2, b2) := Round(c1, b1);
    RoundRefused(c2, a);
    var (c3, a1) := Round(c2, a);
    assert BuildAppend(c3, "a").entries == [Z] && BuildAppend(c3, "b").entries == [Z];
    RequestAccepted(a1, BuildAppend(c3, "a"));
    RequestAccepted(b2, BuildAppend(c3, "b"));
    Overwrite([DUMMY, X, Y], 1, Z);
  }

  lemma TermFive(a: Node, b: Node, c: Node)
    requires Three(a, Follower, 4, [DUMMY, Z], b, Follower, 4, [DUMMY, Z], c, Leader, 4, [DUMMY, Z])
    ensures var (a', b', c') := FifthTerm(a, b, c);
            Three(a', Leader, 5, [DUMMY, Z, W], b', Follower, 5, [DUMMY, Z], c', Follower, 5, [DUMMY, Z])
            && "c" in a'.matchIndex && a'.matchIndex["c"] == 0
  {
    Elected(a, b);
  }

  lemma OfferTwo(n: Node)
    requires |n.log| == 3 && n.commitIndex == 2 && n.lastApplied == 0 && n.sent == []
    ensures Offer(n, 1, {}) == n.(sent := [MsgOf(n.log[1]), MsgOf(n.log[2])], lastApplied := 2)
  {
    var n1 := n.(sent := [MsgOf(n.log[1])], lastApplied := 1);
    var n2 := n1.(sent := n1.sent + [MsgOf(n.log[2])], lastApplied := 2);
    assert [] + [MsgOf(n.log[1])] == [MsgOf(n.log[1])];
    assert Offer(n, 1, {}) == Offer(n1, 2, {});
    assert Offer(n1, 2, {}) == Offer(n2, 3, {}) == n2;
  }

  /** What a leader of two entries does when it believes one peer to hold both. */
  lemma CommitsBoth(n: Node, p: Id, req: AppendRequest, resp: AppendResponse)
    requires Sane(n) && n.role == Leader && |n.log| == 3 && n.log[2].term == n.currentTerm && n.majority == 2
    requires n.commitIndex == 0 && n.lastApplied == 0 && n.sent == [] && resp.term <= n.currentTerm && resp.success
    requires |n.peers| == 2 && p in n.peers && req.prevLogIndex + |req.entries| == 2
    ensures var n1 := OnAppendResponse(n, p, req, resp, {});
            n1.commitIndex == 2 && n1.sent == [MsgOf(n.log[1]), MsgOf(n.log[2])] && n1.log == n.log
  {
    var n1 := Track(n, p, 2);
    assert n1.peers[..1] == [n1.peers[0]] && n1.peers[..0] == [];
    assert CountReplicas(n1.peers[..1], n1.matchIndex, 2) == if Lookup(n1.matchIndex, n1.peers[0]) >= 2 then 1 else 0;
    assert CanCommit(n1, 2);
    assert ScanDown(n1, 2) == 2;
    var n2 := n1.(commitIndex := 2);
    OfferTwo(n2);
  }

  lemma TermSix(b: Node, c: Node)
    requires Idle(b, "b", ["a", "c"], Follower, 5, [DUMMY, Z]) && Idle(c, "c", ["a", "b"], Follower, 5, [DUMMY, Z])
    ensures var (c', b') := SixthTerm(b, c);
            c'.sent == [MsgOf(Z), MsgOf(V)]
  {
    hide AppendFrom, OnAppendResponse;
    Elected(c, b);
    var (c1, b1) := Elect(c, b);
    var c2 := Propose(c1, V.command);
    var req := BuildAppend(c2, "b");
    assert req.entries == [V];
    Overwrite([DUMMY, Z], 2, V);
    CommitsBoth(c2, "b", req, AppendResponse(6, true));
  }

  /** Everything the six terms leave behind: a before and after the late success,
      b and c at that moment, and c at the end. */
  function LateSuccessRun(): (Node, Node, Node, Node, Node, AppendResponse) {
    var (a2, b2, c2) := FirstTerms();
    var (a3, b3, c3, req, late) := ThirdTerm(a2, b2, c2);
    var (a4, b4, c4) := FourthTerm(a3, b3, c3);
    var (a5, b5, c5) := FifthTerm(a4, b4, c4);
    (a5, OnAppendResponse(a5, "b", req, late, {}), b5, c5, SixthTerm(b5, c5).0, late)
  }

  /** Without the restriction State Machine Safety fails. The success of term 3
      reaches a as leader of term 5: a commits and delivers an entry that neither
      b nor c holds, and in term 6 c delivers another entry of the same index. */
  lemma LateSuccessCommits()
    ensures var (before, a, b, c, c', late) := LateSuccessRun();
            && late == AppendResponse(3, true) && before.role == Leader && before.currentTerm == 5
            && a.sent == [MsgOf(Z), MsgOf(W)] && b.log == c.log == [DUMMY, Z]
            && c'.sent == [MsgOf(Z), MsgOf(V)] && W.index == V.index && W.command != V.command
  {
    hide FirstTerms, ThirdTerm, FourthTerm, FifthTerm, SixthTerm, OnAppendResponse;
    TermsOneTwo();
    var (a2, b2, c2) := FirstTerms();
    TermThree(a2, b2, c2);
    var (a3, b3, c3, req, late) := ThirdTerm(a2, b2, c2);
    TermFour(a3, b3, c3);
    var (a4, b4, c4) := FourthTerm(a3, b3, c3);
    TermFive(a4, b4, c4);
    var (a5, b5, c5) := FifthTerm(a4, b4, c4);
    CommitsBoth(a5, "b", req, late);
    TermSix(b5, c5);
  }
}
