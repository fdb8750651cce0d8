/** The handlers of one server as functions on `Node` values. The class
    `RaftServer.RaftNode` implements them; the cluster is built from them. */
module NodeSpec {
  import opened RaftTypes

  function Min(a: int, b: int): int { if a < b then a else b }

  function LastLogIndex(log: seq<LogEntry>): int { |log| - 1 }

  function LastLogTerm(log: seq<LogEntry>): int {
    if |log| == 0 then 0 else log[|log| - 1].term
  }

  /** A map read that yields zero for an absent key. */
  function Lookup(m: map<Id, int>, p: Id): int { if p in m then m[p] else 0 }

  /** What every handler needs and keeps for its slices to be in range. */
  predicate Sane(n: Node) {
    |n.log| > 0 && 0 <= n.commitIndex && 0 <= n.lastApplied
  }

  /** A server that starts over empty files. */
  function Newborn(id: Id, peers: seq<Id>): Node {
    Node(id, peers, (|peers| + 1) / 2 + 1, 0, "", [DUMMY], 0, 0, Follower, map[], map[], 0, [])
  }

  // ---- role changes ----

  function BecomeFollower(n: Node, term: int): Node {
    n.(role := Follower, currentTerm := term, votedFor := "", votesReceived := 0)
  }

  function BecomeCandidate(n: Node): Node {
    n.(role := Candidate, currentTerm := n.currentTerm + 1, votedFor := n.id, votesReceived := 1)
  }

  /** `m` with the entry of every peer set to `value`. */
  function Filled(m: map<Id, int>, peers: seq<Id>, value: int): (r: map<Id, int>)
    ensures forall p | p in peers :: p in r && r[p] == value
    ensures forall p | p !in peers :: p in r <==> p in m
    ensures forall p | p !in peers && p in m :: r[p] == m[p]
  {
    if peers == [] then m
    else
      var last := |peers| - 1;
      assert forall p | p in peers :: p in peers[..last] || p == peers[last];
      Filled(m, peers[..last], value)[peers[last] := value]
  }

  function BecomeLeader(n: Node): Node {
    n.(role := Leader,
       nextIndex := Filled(n.nextIndex, n.peers, |n.log|),
       matchIndex := Filled(n.matchIndex, n.peers, 0))
  }

  // ---- elections ----

  function VoteRequestOf(n: Node): VoteRequest {
    VoteRequest(n.currentTerm, n.id, LastLogIndex(n.log), LastLogTerm(n.log))
  }

  /** The log described by (lastTerm, lastIndex) is at least as up to date as `log`. */
  predicate UpToDate(lastTerm: int, lastIndex: int, log: seq<LogEntry>) {
    lastTerm > LastLogTerm(log) || (lastTerm == LastLogTerm(log) && lastIndex >= LastLogIndex(log))
  }

  predicate ShouldVoteFor(n: Node, req: VoteRequest) {
    && req.term >= n.currentTerm
    && (n.votedFor == "" || n.votedFor == req.candidateId)
    && UpToDate(req.lastLogTerm, req.lastLogIndex, n.log)
  }

  /** `n` after learning of `term`: a follower of it when the term is newer. */
  function Adopt(n: Node, term: int): Node {
    if term > n.currentTerm then BecomeFollower(n, term) else n
  }

  function OnVoteRequest(n: Node, req: VoteRequest): (Node, VoteResponse) {
    var n1 := Adopt(n, req.term);
    if ShouldVoteFor(n1, req) then
      (n1.(votedFor := req.candidateId), VoteResponse(n1.currentTerm, true))
    else
      (n1, VoteResponse(n1.currentTerm, false))
  }

  /** The response is counted as a vote. */
  predicate Counts(n: Node, resp: VoteResponse) {
    n.role == Candidate && resp.term <= n.currentTerm && resp.granted
  }

  function OnVoteResponse(n: Node, resp: VoteResponse): Node {
    if n.role != Candidate then n
    else if resp.term > n.currentTerm then BecomeFollower(n, resp.term)
    else if resp.granted then
      var n1 := n.(votesReceived := n.votesReceived + 1);
      if n1.votesReceived >= n1.majority then BecomeLeader(n1) else n1
    else n
  }

  /** Handling the response makes `n` leader. */
  predicate Wins(n: Node, resp: VoteResponse) {
    Counts(n, resp) && n.votesReceived + 1 >= n.majority
  }

  // ---- delivery of committed entries ----

  function MsgOf(e: LogEntry): ApplyMsg { ApplyMsg(true, e.command, e.index, e.term) }

  /** Offer entries `i..commitIndex` to the apply channel in order; `full` holds
      the indices whose send finds the channel full. */
  function Offer(n: Node, i: int, full: set<int>): (r: Node)
    requires Sane(n) && 0 <= i && n.commitIndex < |n.log|
    ensures Sane(r)
    decreases n.commitIndex - i
  {
    if i > n.commitIndex then n
    else if i in full then Offer(n, i + 1, full)
    else Offer(n.(sent := n.sent + [MsgOf(n.log[i])], lastApplied := i), i + 1, full)
  }

  function ApplyCommitted(n: Node, full: set<int>): (r: Node)
    requires Sane(n) && n.commitIndex < |n.log|
    ensures Sane(r)
  {
    Offer(n, n.lastApplied + 1, full)
  }

  // ---- replication, receiver side ----

  predicate CheckLog(log: seq<LogEntry>, req: AppendRequest) {
    || req.prevLogIndex == 0
    || (0 <= req.prevLogIndex < |log| && log[req.prevLogIndex].term == req.prevLogTerm)
  }

  /** Insert `entries` at position `at`: keep what has the same term, cut the
      log at the first conflict, append the rest. */
  function AppendFrom(log: seq<LogEntry>, at: int, entries: seq<LogEntry>): (r: seq<LogEntry>)
    requires 0 <= at <= |log|
    ensures |r| >= at + |entries|
    decreases |entries|
  {
    if entries == [] then log
    else if at < |log| && log[at].term == entries[0].term then AppendFrom(log, at + 1, entries[1..])
    else AppendFrom(log[..at] + [entries[0].(index := at)], at + 1, entries[1..])
  }

  function UpdateCommit(n: Node, leaderCommit: int, full: set<int>): (r: Node)
    requires Sane(n)
    ensures Sane(r)
  {
    if leaderCommit > n.commitIndex then
      ApplyCommitted(n.(commitIndex := Min(leaderCommit, LastLogIndex(n.log))), full)
    else n
  }

  /** `n` once it accepts `req`'s sender as leader of the term. */
  function AcceptLeader(n: Node, req: AppendRequest): Node {
    var n1 := Adopt(n, req.term);
    if n1.role != Follower then BecomeFollower(n1, req.term) else n1
  }

  function OnAppendRequest(n: Node, req: AppendRequest, full: set<int>): (r: (Node, AppendResponse))
    requires Sane(n)
    ensures Sane(r.0)
  {
    if req.term < n.currentTerm then (n, AppendResponse(n.currentTerm, false))
    else
      var n1 := AcceptLeader(n, req);
      var resp := AppendResponse(Adopt(n, req.term).currentTerm, false);
      if !CheckLog(n1.log, req) then (n1, resp)
      else
        var n2 := n1.(log := AppendFrom(n1.log, req.prevLogIndex + 1, req.entries));
        (UpdateCommit(n2, req.leaderCommit, full), resp.(success := true))
  }

  // ---- replication, leader side ----

  function BuildAppend(n: Node, peer: Id): AppendRequest {
    var next := Lookup(n.nextIndex, peer);
    var prev := next - 1;
    AppendRequest(
      n.currentTerm, n.id, prev,
      if 0 < prev < |n.log| then n.log[prev].term else 0,
      if 0 <= next <= LastLogIndex(n.log) then n.log[next..] else [],
      n.commitIndex)
  }

  function Propose(n: Node, command: Command): Node {
    if n.role != Leader then n
    else n.(log := n.log + [LogEntry(n.currentTerm, |n.log|, command)])
  }

  /** How many of `peers` hold index `k` according to `matchIndex`. */
  function CountReplicas(peers: seq<Id>, matchIndex: map<Id, int>, k: int): (c: nat)
    ensures c <= |peers|
  {
    if peers == [] then 0
    else
      var last := |peers| - 1;
      CountReplicas(peers[..last], matchIndex, k) + if Lookup(matchIndex, peers[last]) >= k then 1 else 0
  }

  /** A leader may commit index `k`: the entry has the current term and a
      majority, the leader included, holds it. */
  predicate CanCommit(n: Node, k: int) {
    && 0 <= k < |n.log|
    && n.log[k].term == n.currentTerm
    && 1 + CountReplicas(n.peers, n.matchIndex, k) >= n.majority
  }

  /** The downward scan: the first committable index at or below `k`, above the
      commit index, or the commit index itself. */
  function ScanDown(n: Node, k: int): (r: int)
    requires 0 <= n.commitIndex && k < |n.log|
    ensures n.commitIndex <= r && (r == n.commitIndex || r <= k)
    decreases k
  {
    if k <= n.commitIndex then n.commitIndex
    else if CanCommit(n, k) then k
    else ScanDown(n, k - 1)
  }

  function AdvanceCommit(n: Node, full: set<int>): (r: Node)
    requires Sane(n)
    ensures Sane(r)
  {
    if n.role != Leader then n
    else
      var k := ScanDown(n, LastLogIndex(n.log));
      if k > n.commitIndex then ApplyCommitted(n.(commitIndex := k), full) else n
  }

  function Track(n: Node, peer: Id, m: int): Node {
    n.(matchIndex := n.matchIndex[peer := m], nextIndex := n.nextIndex[peer := m + 1])
  }

  function BackOff(n: Node, peer: Id): Node {
    var next := Lookup(n.nextIndex, peer) - 1;
    n.(nextIndex := n.nextIndex[peer := if next < 1 then 1 else next])
  }

  function OnAppendResponse(n: Node, peer: Id, req: AppendRequest, resp: AppendResponse, full: set<int>): (r: Node)
    requires Sane(n)
    ensures Sane(r)
  {
    if n.role != Leader then n
    else if resp.term > n.currentTerm then BecomeFollower(n, resp.term)
    else if resp.success then AdvanceCommit(Track(n, peer, req.prevLogIndex + |req.entries|), full)
    else BackOff(n, peer)
  }

  /** A rejected AppendEntries is retried at once. */
  predicate Retries(n: Node, resp: AppendResponse) {
    n.role == Leader && resp.term <= n.currentTerm && !resp.success
  }
}
