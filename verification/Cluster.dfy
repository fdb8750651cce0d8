/** A cluster as a transition system: all servers, every message ever sent, and
    the past that the safety properties talk about.

    Messages stay in the sets once sent, so a step may deliver any of them, late,
    out of order, again, or never. */
module Cluster {
  import opened RaftTypes
  import opened NodeSpec

  datatype VoteReply = VoteReply(voter: Id, req: VoteRequest, resp: VoteResponse)
  datatype AppendMsg = AppendMsg(to: Id, req: AppendRequest)
  datatype AppendReply = AppendReply(from: Id, req: AppendRequest, resp: AppendResponse)

  /** A vote of `voter` for `candidate`; also the name of the RPC that asks for it. */
  datatype Ballot = Ballot(term: int, voter: Id, candidate: Id)

  /** The leader of a term, the voters it counted, and its log as last seen in that term. */
  datatype Reign = Reign(leader: Id, quorum: set<Id>, log: seq<LogEntry>)

  /** In `term`, `node` held the leader's log up to `index`. */
  datatype Ack = Ack(term: int, node: Id, index: int)

  /** The leader of `term` committed `index` because `holders` hold it. */
  datatype Commit = Commit(term: int, index: int, holders: set<Id>)

  /** What happened so far. No handler reads it. */
  datatype History = History(
    reigns: map<int, Reign>,
    grants: set<Ballot>,
    counted: map<Id, set<Id>>,
    acks: set<Ack>,
    commits: set<Commit>)

  datatype State = State(
    nodes: map<Id, Node>,
    voteRequests: set<VoteRequest>,
    voteReplies: set<VoteReply>,
    answered: set<Ballot>,
    appends: set<AppendMsg>,
    appendReplies: set<AppendReply>,
    past: History)

  datatype Step =
    | Timeout(i: Id)
    | DeliverVote(i: Id, voteReq: VoteRequest)
    | DeliverVoteReply(voteReply: VoteReply)
    | Heartbeat(i: Id)
    | Submit(i: Id, command: Command)
    | DeliverAppend(msg: AppendMsg, full: set<int>)
    | DeliverAppendReply(reply: AppendReply, full: set<int>)

  predicate NoDuplicates(s: seq<Id>) {
    forall i, j | 0 <= i < j < |s| :: s[i] != s[j]
  }

  /** Server `i` of a fresh cluster: no saved state on disk, `peers` holds every
      other server once. */
  predicate Fresh(i: Id, n: Node, ids: set<Id>) {
    i != "" && n == Newborn(i, n.peers) && NoDuplicates(n.peers) && (set p | p in n.peers) == ids - {i}
  }

  ghost predicate Init(s: State) {
    && (forall i | i in s.nodes :: Fresh(i, s.nodes[i], s.nodes.Keys))
    && s.voteRequests == {} && s.voteReplies == {} && s.answered == {}
    && s.appends == {} && s.appendReplies == {}
    && s.past == History(map[], {}, map[], {}, {})
  }

  ghost predicate AllSane(s: State) {
    forall i | i in s.nodes :: Sane(s.nodes[i])
  }

  function BallotOf(r: VoteReply): Ballot {
    Ballot(r.req.term, r.voter, r.req.candidateId)
  }

  /** When a step may happen. A reply to RequestVote is handled once per RPC. A
      granted vote or a successful append reply reaches its sender while the
      sender is still in the term of the reply; the handlers do not check this. */
  predicate Enabled(s: State, step: Step) {
    match step
    case Timeout(i) => i in s.nodes && s.nodes[i].role != Leader
    case DeliverVote(i, req) => i in s.nodes && req in s.voteRequests && i != req.candidateId
    case DeliverVoteReply(r) =>
      && r in s.voteReplies && BallotOf(r) !in s.answered
      && r.req.candidateId in s.nodes
      && (r.resp.granted ==> r.resp.term == s.nodes[r.req.candidateId].currentTerm)
    case Heartbeat(i) => i in s.nodes && s.nodes[i].role == Leader
    case Submit(i, command) => i in s.nodes
    case DeliverAppend(m, full) => m in s.appends && m.to in s.nodes
    case DeliverAppendReply(r, full) =>
      && r in s.appendReplies && r.req.leaderId in s.nodes
      && (r.resp.success ==> r.resp.term == s.nodes[r.req.leaderId].currentTerm)
  }

  function Put(s: State, i: Id, n: Node): State {
    s.(nodes := s.nodes[i := n])
  }

  /** The AppendEntries a leader sends to all its peers. */
  function Broadcast(n: Node): set<AppendMsg> {
    set p | p in n.peers :: AppendMsg(p, BuildAppend(n, p))
  }

  function Post(s: State, msgs: set<AppendMsg>): State {
    s.(appends := s.appends + msgs)
  }

  /** The servers that hold index `k` as far as leader `n` knows, itself included. */
  function Holders(n: Node, k: int): set<Id> {
    {n.id} + set p | p in n.peers && Lookup(n.matchIndex, p) >= k
  }

  function DoTimeout(s: State, i: Id): State
    requires i in s.nodes
  {
    var n := BecomeCandidate(s.nodes[i]);
    Put(s, i, n).(
      voteRequests := s.voteRequests + {VoteRequestOf(n)},
      past := s.past.(grants := s.past.grants + {Ballot(n.currentTerm, i, i)},
                      counted := s.past.counted[i := {i}]))
  }

  function DoVote(s: State, i: Id, req: VoteRequest): State
    requires i in s.nodes
  {
    var (n, resp) := OnVoteRequest(s.nodes[i], req);
    var cast := if resp.granted then {Ballot(req.term, i, req.candidateId)} else {};
    Put(s, i, n).(
      voteReplies := s.voteReplies + {VoteReply(i, req, resp)},
      past := s.past.(grants := s.past.grants + cast))
  }

  function CountedFor(s: State, i: Id): set<Id> {
    if i in s.past.counted then s.past.counted[i] else {}
  }

  function DoVoteReply(s: State, r: VoteReply): State
    requires r.req.candidateId in s.nodes
  {
    var c := r.req.candidateId;
    var n := s.nodes[c];
    var n1 := OnVoteResponse(n, r.resp);
    var voters := CountedFor(s, c) + if Counts(n, r.resp) then {r.voter} else {};
    var reigns := if Wins(n, r.resp) then s.past.reigns[n1.currentTerm := Reign(c, voters, n1.log)] else s.past.reigns;
    var s1 := Put(s, c, n1).(
      answered := s.answered + {BallotOf(r)},
      past := s.past.(reigns := reigns,
                      counted := if Counts(n, r.resp) then s.past.counted[c := voters] else s.past.counted));
    if Wins(n, r.resp) then Post(s1, Broadcast(n1)) else s1
  }

  function DoSubmit(s: State, i: Id, command: Command): State
    requires i in s.nodes
  {
    var n := s.nodes[i];
    if n.role != Leader then s
    else
      var n1 := Propose(n, command);
      var t := n.currentTerm;
      var quorum := if t in s.past.reigns then s.past.reigns[t].quorum else {};
      Post(Put(s, i, n1).(past := s.past.(
                            reigns := s.past.reigns[t := Reign(i, quorum, n1.log)],
                            acks := s.past.acks + {Ack(t, i, |n.log|)})),
           Broadcast(n1))
  }

  function DoAppend(s: State, m: AppendMsg, full: set<int>): State
    requires m.to in s.nodes && AllSane(s)
  {
    var (n, resp) := OnAppendRequest(s.nodes[m.to], m.req, full);
    var held := if resp.success then {Ack(m.req.term, m.to, m.req.prevLogIndex + |m.req.entries|)} else {};
    Put(s, m.to, n).(
      appendReplies := s.appendReplies + {AppendReply(m.to, m.req, resp)},
      past := s.past.(acks := s.past.acks + held))
  }

  function DoAppendReply(s: State, r: AppendReply, full: set<int>): State
    requires r.req.leaderId in s.nodes && AllSane(s)
  {
    var i := r.req.leaderId;
    var n := s.nodes[i];
    var n1 := OnAppendResponse(n, r.from, r.req, r.resp, full);
    var done := if n1.commitIndex > n.commitIndex
                then {Commit(n1.currentTerm, n1.commitIndex, Holders(n1, n1.commitIndex))} else {};
    var retry := if Retries(n, r.resp) then {AppendMsg(r.from, BuildAppend(n1, r.from))} else {};
    Post(Put(s, i, n1).(past := s.past.(commits := s.past.commits + done)), retry)
  }

  function Apply(s: State, step: Step): (s': State)
    requires AllSane(s) && Enabled(s, step)
    ensures AllSane(s')
  {
    match step
    case Timeout(i) => DoTimeout(s, i)
    case DeliverVote(i, req) => DoVote(s, i, req)
    case DeliverVoteReply(r) => DoVoteReply(s, r)
    case Heartbeat(i) => Post(s, Broadcast(s.nodes[i]))
    case Submit(i, command) => DoSubmit(s, i, command)
    case DeliverAppend(m, full) => DoAppend(s, m, full)
    case DeliverAppendReply(r, full) => DoAppendReply(s, r, full)
  }

  ghost predicate Next(s: State, s': State) {
    AllSane(s) && exists step :: Enabled(s, step) && s' == Apply(s, step)
  }

  /** A run from a fresh cluster. */
  ghost predicate Run(r: seq<State>) {
    && |r| > 0 && Init(r[0])
    && forall k | 0 <= k < |r| - 1 :: Next(r[k], r[k + 1])
  }
}
