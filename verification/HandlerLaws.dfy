/** What each of the four message handlers owes its callers, said of the server
    before and after one call and of the reply: terms, votes, tallies, index maps,
    and what stays as it was. */
module HandlerLaws {
  import opened RaftTypes
  import opened NodeSpec
  import opened Logs
  import opened CommitProof

  function Larger(a: int, b: int): int { if a > b then a else b }

  /** The fields that decide elections aside, nothing has changed. */
  predicate OnlyVotes(n: Node, n': Node) {
    n' == n.(currentTerm := n'.currentTerm, votedFor := n'.votedFor, role := n'.role, votesReceived := n'.votesReceived)
  }

  /** A message of term `term` leaves the server in the larger of the two terms,
      as a follower without votes of its own if the message's is newer. */
  predicate Learns(n: Node, n': Node, term: int) {
    && n'.currentTerm == Larger(n.currentTerm, term)
    && (term > n.currentTerm ==> n'.role == Follower && n'.votesReceived == 0)
  }

  // ---- RequestVote ----

  lemma VoteRequestTerms(n: Node, req: VoteRequest)
    ensures var (n', resp) := OnVoteRequest(n, req);
            && Learns(n, n', req.term) && OnlyVotes(n, n') && resp.term == n'.currentTerm
            && (req.term <= n.currentTerm ==> n'.role == n.role && n'.votesReceived == n.votesReceived)
            && n'.votedFor == (if resp.granted then req.candidateId
                               else if req.term > n.currentTerm then "" else n.votedFor)
  {
  }

  /** A vote is granted exactly to a candidate of the current or a later term that
      the server may still vote for, or did, and whose last entry is not behind
      the server's: not of an earlier term, nor earlier in the same term. */
  lemma VoteGrantedIff(n: Node, req: VoteRequest)
    requires |n.log| > 0
    ensures var last := n.log[|n.log| - 1];
            OnVoteRequest(n, req).1.granted <==>
              && (req.term > n.currentTerm || (req.term == n.currentTerm && n.votedFor in {"", req.candidateId}))
              && !(req.lastLogTerm < last.term || (req.lastLogTerm == last.term && req.lastLogIndex < |n.log| - 1))
  {
  }

  /** `v` would vote for `c` if it had its vote in `c`'s term still to give. */
  predicate Supports(v: Node, c: Node) {
    OnVoteRequest(v.(currentTerm := c.currentTerm, votedFor := ""), VoteRequestOf(c)).1.granted
  }

  /** A free vote goes to any candidate whose log starts with the voter's. */
  lemma PrefixIsSupported(v: Node, c: Node)
    requires |v.log| > 0 && v.log <= c.log && Ascending(c.log)
    requires v.currentTerm < c.currentTerm || (v.currentTerm == c.currentTerm && v.votedFor == "")
    ensures Supports(v, c) && OnVoteRequest(v, VoteRequestOf(c)).1.granted
  {
    assert c.log[|v.log| - 1] == v.log[|v.log| - 1];
  }

  /** Of two servers at least one supports the other; both do exactly when their
      last entries have the same term and index. */
  lemma SupportIsTotal(a: Node, b: Node)
    requires |a.log| > 0 && |b.log| > 0
    ensures Supports(a, b) || Supports(b, a)
    ensures Supports(a, b) && Supports(b, a) <==>
              |a.log| == |b.log| && a.log[|a.log| - 1].term == b.log[|b.log| - 1].term
  {
  }

  lemma SupportIsTransitive(a: Node, b: Node, c: Node)
    requires Supports(a, b) && Supports(b, c)
    ensures Supports(a, c)
  {
  }

  /** Whatever servers are up, one of them is supported by all of them. */
  lemma {:induction false} SomeoneIsElectable(ids: set<Id>, nodes: map<Id, Node>) returns (best: Id)
    requires ids != {} && ids <= nodes.Keys && forall i | i in ids :: |nodes[i].log| > 0
    ensures best in ids && forall i | i in ids :: Supports(nodes[i], nodes[best])
    decreases |ids|
  {
    hide Supports;
    var i :| i in ids;
    SupportIsTotal(nodes[i], nodes[i]);
    if ids == {i} {
      best := i;
    } else {
      var b := SomeoneIsElectable(ids - {i}, nodes);
      SupportIsTotal(nodes[i], nodes[b]);
      best := if Supports(nodes[i], nodes[b]) then b else i;
      forall j | j in ids
        ensures Supports(nodes[j], nodes[best])
      {
        if j != i && best == i { SupportIsTransitive(nodes[j], nodes[b], nodes[i]); }
      }
    }
  }

  // ---- the reply to RequestVote ----

  /** Only candidates listen. A newer term deposes them; a grant counts once and
      makes them leader exactly when it completes a majority. */
  lemma VoteReplyLaw(n: Node, resp: VoteResponse)
    ensures var n' := OnVoteResponse(n, resp);
            if n.role != Candidate then n' == n
            else if resp.term > n.currentTerm then Learns(n, n', resp.term) && n'.votedFor == "" && OnlyVotes(n, n')
            else
              && n'.currentTerm == n.currentTerm && n'.votedFor == n.votedFor
              && n'.votesReceived == n.votesReceived + (if resp.granted then 1 else 0)
              && n'.role == (if resp.granted && n'.votesReceived >= n.majority then Leader else Candidate)
  {
  }

  /** A new leader knows nothing of its peers yet: for each of them it starts with
      the last entry of its own log, which is all that the victory leaves changed. */
  lemma NewLeaderMaps(n: Node, resp: VoteResponse)
    requires n.role == Candidate
    ensures var n' := OnVoteResponse(n, resp);
            && n'.log == n.log && n'.commitIndex == n.commitIndex && n'.lastApplied == n.lastApplied && n'.sent == n.sent
            && n'.id == n.id && n'.peers == n.peers && n'.majority == n.majority
            && (n'.role != Leader ==> n'.nextIndex == n.nextIndex && n'.matchIndex == n.matchIndex)
            && (n'.role == Leader ==>
                  && (forall p | p in n.peers ::
                        p in n'.nextIndex && n'.nextIndex[p] == |n.log| && p in n'.matchIndex && n'.matchIndex[p] == 0)
                  && (forall p | p !in n.peers ::
                        && (if p in n.nextIndex then p in n'.nextIndex && n'.nextIndex[p] == n.nextIndex[p] else p !in n'.nextIndex)
                        && (if p in n.matchIndex then p in n'.matchIndex && n'.matchIndex[p] == n.matchIndex[p] else p !in n'.matchIndex)))
  {
  }

  // ---- AppendEntries ----

  /** The server and its reply are in the larger of the two terms. A request of an
      earlier term changes nothing and fails; any other makes the server a follower,
      which keeps its vote only if it was one in that term already. Nothing is
      delivered unless the request carries a greater commit index. */
  lemma AppendTerms(n: Node, req: AppendRequest, full: set<int>)
    requires Sane(n)
    ensures var (n', resp) := OnAppendRequest(n, req, full);
            && resp.term == n'.currentTerm == Larger(n.currentTerm, req.term)
            && (req.term < n.currentTerm ==> n' == n && !resp.success)
            && (req.term >= n.currentTerm ==>
                  && n'.role == Follower
                  && (if req.term == n.currentTerm && n.role == Follower
                      then n'.votedFor == n.votedFor && n'.votesReceived == n.votesReceived
                      else n'.votedFor == "" && n'.votesReceived == 0))
            && (!resp.success ==> OnlyVotes(n, n'))
            && (req.leaderCommit <= n.commitIndex ==>
                  n'.commitIndex == n.commitIndex && n'.lastApplied == n.lastApplied && n'.sent == n.sent)
            && n'.id == n.id && n'.peers == n.peers && n'.majority == n.majority
            && n'.nextIndex == n.nextIndex && n'.matchIndex == n.matchIndex
  {
    hide AppendFrom;
    var n1 := AcceptLeader(n, req);
    if req.term >= n.currentTerm && CheckLog(n1.log, req) {
      var n2 := n1.(log := AppendFrom(n1.log, req.prevLogIndex + 1, req.entries));
      if req.leaderCommit > n2.commitIndex {
        OfferKeepsRest(n2.(commitIndex := Min(req.leaderCommit, LastLogIndex(n2.log))), n2.lastApplied + 1, full);
      }
    }
  }

  // ---- the reply to AppendEntries ----

  /** Only leaders listen. A newer term deposes them. Otherwise they go on leading;
      a success sets what is known of that peer, a failure moves it one back, and
      what is known of the others stays. Nothing is delivered unless more is
      committed. */
  lemma AppendReplyLaw(n: Node, peer: Id, req: AppendRequest, resp: AppendResponse, full: set<int>)
    requires Sane(n)
    ensures var n' := OnAppendResponse(n, peer, req, resp, full);
            if n.role != Leader then n' == n
            else if resp.term > n.currentTerm then Learns(n, n', resp.term) && n'.votedFor == "" && OnlyVotes(n, n')
            else
              && n'.role == Leader && n'.currentTerm == n.currentTerm && n'.votedFor == n.votedFor
              && n'.votesReceived == n.votesReceived && n'.log == n.log
              && n'.id == n.id && n'.peers == n.peers && n'.majority == n.majority
              && (resp.success ==>
                    && n'.matchIndex == n.matchIndex[peer := req.prevLogIndex + |req.entries|]
                    && n'.nextIndex == n.nextIndex[peer := req.prevLogIndex + |req.entries| + 1]
                    && (n'.commitIndex == n.commitIndex ==> n'.lastApplied == n.lastApplied && n'.sent == n.sent))
              && (!resp.success ==>
                    && n'.matchIndex == n.matchIndex && n'.commitIndex == n.commitIndex
                    && n'.lastApplied == n.lastApplied && n'.sent == n.sent
                    && n'.nextIndex == n.nextIndex[peer := Larger(1, Lookup(n.nextIndex, peer) - 1)])
  {
    if n.role == Leader && resp.term <= n.currentTerm && resp.success {
      var n1 := Track(n, peer, req.prevLogIndex + |req.entries|);
      var k := ScanDown(n1, LastLogIndex(n1.log));
      if k > n1.commitIndex { OfferKeepsRest(n1.(commitIndex := k), n1.lastApplied + 1, full); }
    }
  }

  // ---- timeouts and proposals ----

  /** A leader's log gains the proposed command as its last entry, in its term and
      under its index; anybody else is left as it was. */
  lemma ProposalLaw(n: Node, command: Command)
    ensures var n' := Propose(n, command);
            if n.role != Leader then n' == n
            else
              && n' == n.(log := n'.log) && n.log <= n'.log && |n'.log| == |n.log| + 1
              && n'.log[|n.log|] == LogEntry(n.currentTerm, |n.log|, command)
  {
  }

  /** A timeout starts the next term with one vote, the server's own. */
  lemma TimeoutLaw(n: Node)
    ensures var n' := BecomeCandidate(n);
            && n'.currentTerm == n.currentTerm + 1 && n'.role == Candidate && n'.votedFor == n.id && n'.votesReceived == 1
            && OnlyVotes(n, n')
            && (|n.log| > 0 ==>
                  VoteRequestOf(n') == VoteRequest(n.currentTerm + 1, n.id, |n.log| - 1, n.log[|n.log| - 1].term))
  {
  }
}
