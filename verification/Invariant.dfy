/** What holds in every reachable state of the cluster, in groups that name
    only the parts of the state they speak of. */
module Invariant {
  import opened RaftTypes
  import opened NodeSpec
  import opened Logs
  import opened Cluster

  type Nodes = map<Id, Node>
  type Reigns = map<int, Reign>

  // ---- configuration ----

  predicate Configured(i: Id, n: Node, ids: set<Id>) {
    && i != "" && n.id == i
    && NoDuplicates(n.peers) && (set p | p in n.peers) == ids - {i}
    && n.majority == |ids| / 2 + 1
  }

  ghost predicate Config(nodes: Nodes) {
    forall i | i in nodes :: Configured(i, nodes[i], nodes.Keys)
  }

  predicate Quorate(q: set<Id>, ids: set<Id>) {
    q <= ids && |q| >= |ids| / 2 + 1
  }

  // ---- logs ----

  predicate Below(log: seq<LogEntry>, term: int) {
    forall i | 0 <= i < |log| :: log[i].term <= term
  }

  /** The log up to `i` is what the leader of entry `i`'s term had. */
  predicate AnchoredAt(log: seq<LogEntry>, reigns: Reigns, i: int)
    requires 0 <= i < |log|
  {
    log[i].term >= 1 && log[i].term in reigns && Agree(log, reigns[log[i].term].log, i)
  }

  predicate Anchored(log: seq<LogEntry>, reigns: Reigns) {
    forall i | 1 <= i < |log| :: AnchoredAt(log, reigns, i)
  }

  predicate LogOk(log: seq<LogEntry>, reigns: Reigns) {
    Indexed(log) && Ascending(log) && Anchored(log, reigns)
  }

  ghost predicate NodeLogs(nodes: Nodes, reigns: Reigns) {
    forall i | i in nodes ::
      nodes[i].currentTerm >= 0 && LogOk(nodes[i].log, reigns) && Below(nodes[i].log, nodes[i].currentTerm)
  }

  ghost predicate ReignLogs(reigns: Reigns) {
    forall t | t in reigns :: t >= 1 && LogOk(reigns[t].log, reigns) && Below(reigns[t].log, t)
  }

  ghost predicate LeaderLogs(nodes: Nodes, reigns: Reigns) {
    forall i | i in nodes && nodes[i].role == Leader ::
      && nodes[i].currentTerm in reigns
      && reigns[nodes[i].currentTerm].leader == i
      && reigns[nodes[i].currentTerm].log == nodes[i].log
  }

  // ---- votes ----

  /** A server that elected `leader` in `term` stays with it for that term. */
  predicate Bound(n: Node, i: Id, term: int, leader: Id) {
    && n.currentTerm >= term
    && (n.currentTerm == term ==> n.votedFor == leader && n.role == if i == leader then Leader else Follower)
  }

  ghost predicate Electorates(nodes: Nodes, reigns: Reigns) {
    forall t | t in reigns ::
      && reigns[t].leader in reigns[t].quorum
      && Quorate(reigns[t].quorum, nodes.Keys)
      && forall v | v in reigns[t].quorum :: Bound(nodes[v], v, t, reigns[t].leader)
  }

  ghost predicate GrantOk(nodes: Nodes, reigns: Reigns, g: Ballot) {
    && g.voter in nodes && g.candidate in nodes && g.candidate != ""
    && nodes[g.voter].currentTerm >= g.term && nodes[g.candidate].currentTerm >= g.term
    && (g.term !in reigns && nodes[g.voter].currentTerm == g.term ==>
          && nodes[g.voter].votedFor == g.candidate
          && nodes[g.voter].role == if g.voter == g.candidate then Candidate else Follower)
    && (g.term in reigns && g.voter in reigns[g.term].quorum ==> g.candidate == reigns[g.term].leader)
  }

  ghost predicate Grants(nodes: Nodes, reigns: Reigns, grants: set<Ballot>) {
    && (forall g | g in grants :: GrantOk(nodes, reigns, g))
    && (forall g, h | g in grants && h in grants && g.term == h.term && g.voter == h.voter && g.term !in reigns :: g == h)
  }

  ghost predicate TallyOk(c: Id, n: Node, grants: set<Ballot>, voters: set<Id>, answered: set<Ballot>) {
    && n.currentTerm >= 1 && n.votedFor == c
    && c in voters && n.votesReceived == |voters|
    && forall v | v in voters ::
         && Ballot(n.currentTerm, v, c) in grants
         && (v != c ==> Ballot(n.currentTerm, v, c) in answered)
  }

  ghost predicate Tallies(nodes: Nodes, grants: set<Ballot>, counted: map<Id, set<Id>>, answered: set<Ballot>) {
    forall c | c in nodes && nodes[c].role == Candidate ::
      c in counted && TallyOk(c, nodes[c], grants, counted[c], answered)
  }

  ghost predicate VoteRequests(nodes: Nodes, requests: set<VoteRequest>) {
    forall r | r in requests ::
      && r.candidateId in nodes && 1 <= r.term <= nodes[r.candidateId].currentTerm
      && (nodes[r.candidateId].role == Candidate && nodes[r.candidateId].currentTerm == r.term ==>
            r == VoteRequestOf(nodes[r.candidateId]))
  }

  ghost predicate VoteReplies(ids: set<Id>, grants: set<Ballot>, replies: set<VoteReply>) {
    forall p | p in replies ::
      && p.voter in ids && p.voter != p.req.candidateId
      && (p.resp.granted ==> p.resp.term == p.req.term && BallotOf(p) in grants)
  }

  // ---- replication messages ----

  /** Some commit of term at most `term` covers `log` up to `k`. */
  ghost predicate Backed(reigns: Reigns, commits: set<Commit>, term: int, log: seq<LogEntry>, k: int) {
    && 0 <= k < |log|
    && (k == 0 || exists c :: c in commits && c.term <= term && k <= c.index && c.term in reigns
                              && Agree(log, reigns[c.term].log, k))
  }

  ghost predicate AppendOk(ids: set<Id>, reigns: Reigns, commits: set<Commit>, m: AppendMsg) {
    var req := m.req;
    && req.term in reigns && req.leaderId == reigns[req.term].leader
    && m.to in ids && m.to != req.leaderId
    && var log := reigns[req.term].log;
       && 0 <= req.prevLogIndex && req.prevLogIndex + |req.entries| < |log|
       && req.entries == log[req.prevLogIndex + 1..req.prevLogIndex + 1 + |req.entries|]
       && (req.prevLogIndex > 0 ==> req.prevLogTerm == log[req.prevLogIndex].term)
       && req.leaderCommit <= req.prevLogIndex + |req.entries|
       && Backed(reigns, commits, req.term, log, req.leaderCommit)
  }

  ghost predicate Appends(ids: set<Id>, reigns: Reigns, commits: set<Commit>, appends: set<AppendMsg>) {
    forall m | m in appends :: AppendOk(ids, reigns, commits, m)
  }

  ghost predicate AppendReplies(acks: set<Ack>, appends: set<AppendMsg>, replies: set<AppendReply>) {
    forall p | p in replies ::
      && AppendMsg(p.from, p.req) in appends
      && (p.resp.success ==>
            p.resp.term == p.req.term && Ack(p.req.term, p.from, p.req.prevLogIndex + |p.req.entries|) in acks)
  }

  // ---- what acknowledgements promise ----

  ghost predicate Acks(nodes: Nodes, reigns: Reigns, acks: set<Ack>) {
    forall a | a in acks ::
      && a.term in reigns && a.node in nodes && 0 <= a.index < |reigns[a.term].log|
      && nodes[a.node].currentTerm >= a.term
  }

  /** Every leader strictly between the two terms has `term`'s log up to `k`. */
  ghost predicate Carried(reigns: Reigns, term: int, k: int, hi: int)
    requires term in reigns
  {
    forall u | u in reigns && term < u < hi :: Agree(reigns[u].log, reigns[term].log, k)
  }

  /** `log` has `term`'s log up to `k` if all leaders after `term` and before `hi` do. */
  ghost predicate Kept(log: seq<LogEntry>, reigns: Reigns, term: int, k: int, hi: int)
    requires term in reigns
  {
    Carried(reigns, term, k, hi) ==> Agree(log, reigns[term].log, k)
  }

  ghost predicate KeptBy(n: Node, reigns: Reigns, term: int, k: int)
    requires term in reigns
  {
    Kept(n.log, reigns, term, k, n.currentTerm + 1)
  }

  /** A server keeps what it acknowledged unless a later leader lacks it. */
  ghost predicate Durable(nodes: Nodes, reigns: Reigns, acks: set<Ack>) {
    forall a, k | a in acks && 0 <= k <= a.index && a.term in reigns && a.node in nodes ::
      KeptBy(nodes[a.node], reigns, a.term, k)
  }

  /** Entry `k` of the leader of `term` was created in that term. */
  predicate Own(reigns: Reigns, term: int, k: int) {
    term in reigns && 0 <= k < |reigns[term].log| && reigns[term].log[k].term == term
  }

  /** A candidate's log has what its voters acknowledged in earlier terms. */
  ghost predicate Ballots(nodes: Nodes, reigns: Reigns, acks: set<Ack>, grants: set<Ballot>) {
    forall g, a, k |
      && g in grants && a in acks && a.node == g.voter && a.term < g.term && 0 <= k <= a.index
      && g.candidate in nodes && nodes[g.candidate].role == Candidate && nodes[g.candidate].currentTerm == g.term
      && g.term !in reigns && Own(reigns, a.term, k) ::
      Kept(nodes[g.candidate].log, reigns, a.term, k, g.term)
  }

  /** A leader's log has what its electors acknowledged in earlier terms. */
  ghost predicate Inherited(reigns: Reigns, acks: set<Ack>) {
    forall u, a, k |
      && u in reigns && a in acks && a.node in reigns[u].quorum && a.term < u && 0 <= k <= a.index
      && Own(reigns, a.term, k) ::
      Kept(reigns[u].log, reigns, a.term, k, u)
  }

  // ---- commitment ----

  ghost predicate HeldBy(acks: set<Ack>, term: int, p: Id, k: int) {
    exists a :: a in acks && a.term == term && a.node == p && a.index >= k
  }

  ghost predicate Commits(ids: set<Id>, reigns: Reigns, acks: set<Ack>, commits: set<Commit>) {
    forall c | c in commits ::
      && Quorate(c.holders, ids) && c.index >= 1 && Own(reigns, c.term, c.index)
      && forall p | p in c.holders :: HeldBy(acks, c.term, p, c.index)
  }

  ghost predicate Progress(nodes: Nodes, reigns: Reigns, commits: set<Commit>) {
    forall i | i in nodes ::
      && Backed(reigns, commits, nodes[i].currentTerm, nodes[i].log, nodes[i].commitIndex)
      && 0 <= nodes[i].lastApplied <= nodes[i].commitIndex
  }

  ghost predicate MapsOk(n: Node, acks: set<Ack>) {
    && (forall p | p in n.peers ::
          && p in n.nextIndex && 1 <= n.nextIndex[p] <= |n.log|
          && p in n.matchIndex && (n.matchIndex[p] == 0 || Ack(n.currentTerm, p, n.matchIndex[p]) in acks))
    && (forall k | 0 <= k < |n.log| && n.log[k].term == n.currentTerm :: Ack(n.currentTerm, n.id, k) in acks)
  }

  ghost predicate LeaderMaps(nodes: Nodes, acks: set<Ack>) {
    forall i | i in nodes && nodes[i].role == Leader :: MapsOk(nodes[i], acks)
  }

  /** What was sent are entries of the log, in order, each index once. */
  predicate SentOk(n: Node) {
    SentFrom(n.log, n.lastApplied, n.sent)
  }

  predicate SentFrom(log: seq<LogEntry>, lastApplied: int, sent: seq<ApplyMsg>) {
    && (forall k | 0 <= k < |sent| ::
          1 <= sent[k].index <= lastApplied < |log| && sent[k] == MsgOf(log[sent[k].index]))
    && (forall j, k | 0 <= j < k < |sent| :: sent[j].index < sent[k].index)
  }

  ghost predicate AllSent(nodes: Nodes) {
    forall i | i in nodes :: SentOk(nodes[i])
  }

  // ---- the whole ----

  ghost predicate ElectionInv(s: State) {
    && Config(s.nodes)
    && Electorates(s.nodes, s.past.reigns)
    && Grants(s.nodes, s.past.reigns, s.past.grants)
    && Tallies(s.nodes, s.past.grants, s.past.counted, s.answered)
    && VoteRequests(s.nodes, s.voteRequests)
    && VoteReplies(s.nodes.Keys, s.past.grants, s.voteReplies)
  }

  ghost predicate LogInv(s: State) {
    && NodeLogs(s.nodes, s.past.reigns)
    && ReignLogs(s.past.reigns)
    && LeaderLogs(s.nodes, s.past.reigns)
    && Appends(s.nodes.Keys, s.past.reigns, s.past.commits, s.appends)
    && AppendReplies(s.past.acks, s.appends, s.appendReplies)
  }

  ghost predicate AckInv(s: State) {
    && Acks(s.nodes, s.past.reigns, s.past.acks)
    && Durable(s.nodes, s.past.reigns, s.past.acks)
    && Ballots(s.nodes, s.past.reigns, s.past.acks, s.past.grants)
    && Inherited(s.past.reigns, s.past.acks)
  }

  ghost predicate CommitInv(s: State) {
    && Commits(s.nodes.Keys, s.past.reigns, s.past.acks, s.past.commits)
    && Progress(s.nodes, s.past.reigns, s.past.commits)
    && LeaderMaps(s.nodes, s.past.acks)
    && AllSent(s.nodes)
  }

  ghost predicate Inv(s: State) {
    ElectionInv(s) && LogInv(s) && AckInv(s) && CommitInv(s)
  }
}
