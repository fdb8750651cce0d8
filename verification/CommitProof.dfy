/** The moves that commit and deliver entries, and what the others leave of
    the commit invariant. */
module CommitProof {
  import opened RaftTypes
  import opened NodeSpec
  import opened Logs
  import opened Cluster
  import opened Invariant
  import opened Growth
  import opened Moves
  import opened Safety
  import opened LogProof

  // ---- counting replicas ----

  lemma HoldersAmong(peers: seq<Id>, matchIndex: map<Id, int>, k: int)
    requires NoDuplicates(peers) && peers != []
    ensures var last := peers[|peers| - 1];
            var few := set p | p in peers[..|peers| - 1] && Lookup(matchIndex, p) >= k;
            var all := set p | p in peers && Lookup(matchIndex, p) >= k;
            && last !in few
            && all == few + if Lookup(matchIndex, last) >= k then {last} else {}
  {
  }

  lemma {:induction false} CountIsCardinality(peers: seq<Id>, matchIndex: map<Id, int>, k: int)
    requires NoDuplicates(peers)
    ensures CountReplicas(peers, matchIndex, k) == |set p | p in peers && Lookup(matchIndex, p) >= k|
  {
    if peers != [] {
      var last := |peers| - 1;
      var init := peers[..last];
      CountIsCardinality(init, matchIndex, k);
      HoldersAmong(peers, matchIndex, k);
    }
  }

  /** The count behind a commit is the size of the set of servers that hold the entry. */
  lemma HoldersQuorate(n: Node, ids: set<Id>, k: int)
    requires Configured(n.id, n, ids) && n.id in ids
    ensures Quorate(Holders(n, k), ids) <==> 1 + CountReplicas(n.peers, n.matchIndex, k) >= n.majority
  {
    CountIsCardinality(n.peers, n.matchIndex, k);
    var others := set p | p in n.peers && Lookup(n.matchIndex, p) >= k;
    assert others <= (set p | p in n.peers);
    assert |{n.id} + others| == 1 + |others|;
  }

  // ---- the scan for the commit index ----

  /** The scan ends at the greatest committable index above the commit index,
      or stays there when there is none. */
  lemma {:induction false} ScanIsOptimal(n: Node, k: int)
    requires 0 <= n.commitIndex && k < |n.log|
    ensures var r := ScanDown(n, k);
            && (r > n.commitIndex ==> CanCommit(n, r))
            && forall j | r < j <= k :: !CanCommit(n, j)
    decreases k
  {
    if k > n.commitIndex && !CanCommit(n, k) {
      ScanIsOptimal(n, k - 1);
    }
  }

  /** The current leader may commit index `k`: an entry of its term that a
      majority of the cluster holds, as far as it knows. */
  predicate Committable(n: Node, ids: set<Id>, k: int) {
    0 <= k < |n.log| && n.log[k].term == n.currentTerm && Quorate(Holders(n, k), ids)
  }

  /** A leader's commit index ends at the greatest committable index above the
      old one, and stays where it was exactly when there is none. */
  lemma AdvanceFindsGreatest(n: Node, ids: set<Id>, full: set<int>)
    requires Sane(n) && n.role == Leader && Configured(n.id, n, ids) && n.id in ids
    ensures var k := AdvanceCommit(n, full).commitIndex;
            && (k > n.commitIndex ==> Committable(n, ids, k))
            && (forall j | k < j :: !Committable(n, ids, j))
            && (k == n.commitIndex <==> forall j | n.commitIndex < j :: !Committable(n, ids, j))
  {
    var k := ScanDown(n, LastLogIndex(n.log));
    ScanIsOptimal(n, LastLogIndex(n.log));
    forall j | 0 <= j < |n.log|
      ensures Committable(n, ids, j) <==> CanCommit(n, j)
    {
      HoldersQuorate(n, ids, j);
    }
    if k > n.commitIndex {
      OfferKeepsRest(n.(commitIndex := k), n.lastApplied + 1, full);
    }
  }

  // ---- delivery ----

  predicate OnlySends(n: Node, n': Node) {
    n' == n.(sent := n'.sent, lastApplied := n'.lastApplied)
  }

  lemma {:induction false} OfferKeepsRest(n: Node, i: int, full: set<int>)
    requires Sane(n) && 0 <= i && n.commitIndex < |n.log|
    ensures OnlySends(n, Offer(n, i, full))
    decreases n.commitIndex - i
  {
    if i <= n.commitIndex {
      if i in full {
        OfferKeepsRest(n, i + 1, full);
      } else {
        OfferKeepsRest(n.(sent := n.sent + [MsgOf(n.log[i])], lastApplied := i), i + 1, full);
      }
    }
  }

  lemma {:induction false} OfferKeeps(n: Node, i: int, full: set<int>)
    requires Sane(n) && SentOk(n) && Indexed(n.log) && n.commitIndex < |n.log| && n.lastApplied < i
    requires n.lastApplied <= n.commitIndex
    ensures var n' := Offer(n, i, full);
            SentOk(n') && OnlySends(n, n') && n.lastApplied <= n'.lastApplied <= n.commitIndex && n.sent <= n'.sent
    decreases n.commitIndex - i
  {
    if i <= n.commitIndex {
      if i in full {
        OfferKeeps(n, i + 1, full);
      } else {
        OfferKeeps(n.(sent := n.sent + [MsgOf(n.log[i])], lastApplied := i), i + 1, full);
      }
    }
  }

  // ---- moves ----

  lemma HeldMore(acks: set<Ack>, acks': set<Ack>, ids: set<Id>, r: Reigns, commits: set<Commit>)
    requires Commits(ids, r, acks, commits) && acks <= acks'
    ensures Commits(ids, r, acks', commits)
  {
  }

  lemma CommitsGrow(acks: set<Ack>, ids: set<Id>, r: Reigns, r': Reigns, commits: set<Commit>)
    requires Commits(ids, r, acks, commits) && Grows(r, r')
    ensures Commits(ids, r', acks, commits)
  {
  }

  lemma CrownCommit(s: State, c: Id)
    requires CommitInv(s) && MayCrown(s, c) && s.nodes[c].currentTerm !in s.past.reigns
    requires LogOk(s.nodes[c].log, s.past.reigns) && s.nodes[c].currentTerm >= 1
    ensures CommitInv(Crown(s, c))
  {
    var s' := Crown(s, c);
    CrownGrows(s, c);
    CommitsGrow(s.past.acks, s.nodes.Keys, s.past.reigns, s'.past.reigns, s.past.commits);
    CrownMaps(s, c);
    CrownSent(s, c);
    CrownProgress(s, c);
  }

  lemma CrownMaps(s: State, c: Id)
    requires LeaderMaps(s.nodes, s.past.acks) && MayCrown(s, c) && s.nodes[c].currentTerm !in s.past.reigns
    requires LogOk(s.nodes[c].log, s.past.reigns) && s.nodes[c].currentTerm >= 1
    ensures LeaderMaps(Crown(s, c).nodes, s.past.acks)
  {
    var n := s.nodes[c];
    forall k | 0 <= k < |n.log|
      ensures n.log[k].term != n.currentTerm
    {
      if k > 0 { assert AnchoredAt(n.log, s.past.reigns, k); }
    }
    assert forall j | j in s.nodes && s.nodes[j].role == Leader :: MapsOk(s.nodes[j], s.past.acks);
  }

  lemma CrownSent(s: State, c: Id)
    requires AllSent(s.nodes) && MayCrown(s, c)
    ensures AllSent(Crown(s, c).nodes)
  {
  }

  lemma CrownProgress(s: State, c: Id)
    requires Progress(s.nodes, s.past.reigns, s.past.commits)
    requires MayCrown(s, c) && s.nodes[c].currentTerm !in s.past.reigns
    ensures Progress(Crown(s, c).nodes, Crown(s, c).past.reigns, s.past.commits)
  {
  }

  lemma ExtendCommit(s: State, i: Id, command: Command)
    requires CommitInv(s) && MayExtend(s, i) && LeaderLogs(s.nodes, s.past.reigns) && Config(s.nodes)
    ensures CommitInv(Extend(s, i, command))
  {
    ExtendCommits(s, i, command);
    ExtendMaps(s, i, command);
    ExtendSent(s, i, command);
    ExtendProgress(s, i, command);
  }

  lemma ExtendCommits(s: State, i: Id, command: Command)
    requires Commits(s.nodes.Keys, s.past.reigns, s.past.acks, s.past.commits)
    requires MayExtend(s, i) && LeaderLogs(s.nodes, s.past.reigns)
    ensures var s' := Extend(s, i, command);
            Commits(s'.nodes.Keys, s'.past.reigns, s'.past.acks, s'.past.commits)
  {
  }

  lemma ExtendProgress(s: State, i: Id, command: Command)
    requires Progress(s.nodes, s.past.reigns, s.past.commits)
    requires MayExtend(s, i) && LeaderLogs(s.nodes, s.past.reigns)
    ensures var s' := Extend(s, i, command);
            Progress(s'.nodes, s'.past.reigns, s'.past.commits)
  {
  }

  lemma ExtendMaps(s: State, i: Id, command: Command)
    requires LeaderMaps(s.nodes, s.past.acks) && MayExtend(s, i) && Config(s.nodes)
    ensures LeaderMaps(Extend(s, i, command).nodes, Extend(s, i, command).past.acks)
  {
  }

  lemma ExtendSent(s: State, i: Id, command: Command)
    requires AllSent(s.nodes) && MayExtend(s, i)
    ensures AllSent(Extend(s, i, command).nodes)
  {
  }

  /** The truncation on a conflict never reaches the commit index. */
  lemma MergeKeepsCommitted(s: State, i: Id, req: AppendRequest)
    requires LogInv(s) && MayMerge(s, i, req)
    requires Electorates(s.nodes, s.past.reigns) && Inherited(s.past.reigns, s.past.acks)
    requires Commits(s.nodes.Keys, s.past.reigns, s.past.acks, s.past.commits)
    requires Progress(s.nodes, s.past.reigns, s.past.commits)
    ensures 0 <= req.prevLogIndex < |s.nodes[i].log|
    ensures Agree(AppendFrom(s.nodes[i].log, req.prevLogIndex + 1, req.entries), s.nodes[i].log, s.nodes[i].commitIndex)
  {
    var n := s.nodes[i];
    MergeAgrees(s, i, req);
    BackedAgrees(s, n.currentTerm, n.log, n.commitIndex, req.term);
  }

  lemma MergeCommit(s: State, i: Id, req: AppendRequest)
    requires CommitInv(s) && MayMerge(s, i, req) && 0 <= req.prevLogIndex < |s.nodes[i].log|
    requires Agree(Merge(s, i, req).nodes[i].log, s.nodes[i].log, s.nodes[i].commitIndex)
    ensures CommitInv(Merge(s, i, req))
  {
    var s' := Merge(s, i, req);
    HeldMore(s.past.acks, s'.past.acks, s.nodes.Keys, s.past.reigns, s.past.commits);
    MergeProgress(s, s', i);
    MergeMaps(s, i, req);
    MergeAllSent(s, s', i);
  }

  lemma MergeMaps(s: State, i: Id, req: AppendRequest)
    requires LeaderMaps(s.nodes, s.past.acks) && MayMerge(s, i, req) && 0 <= req.prevLogIndex < |s.nodes[i].log|
    ensures LeaderMaps(Merge(s, i, req).nodes, Merge(s, i, req).past.acks)
  {
  }

  lemma MergeAllSent(s: State, s': State, i: Id)
    requires AllSent(s.nodes) && i in s.nodes && i in s'.nodes
    requires s'.nodes == s.nodes[i := s.nodes[i].(log := s'.nodes[i].log)]
    requires s.nodes[i].lastApplied <= s.nodes[i].commitIndex
    requires Agree(s'.nodes[i].log, s.nodes[i].log, s.nodes[i].commitIndex)
    ensures AllSent(s'.nodes)
  {
  }

  lemma MergeProgress(s: State, s': State, i: Id)
    requires Progress(s.nodes, s.past.reigns, s.past.commits) && i in s.nodes && i in s'.nodes
    requires s'.nodes == s.nodes[i := s.nodes[i].(log := s'.nodes[i].log)]
    requires Agree(s'.nodes[i].log, s.nodes[i].log, s.nodes[i].commitIndex)
    ensures Progress(s'.nodes, s.past.reigns, s.past.commits)
  {
  }

  /** Changing one server's commit index, delivery or leader maps. */
  lemma PutCommit(s: State, s': State, i: Id)
    requires CommitInv(s) && i in s.nodes && i in s'.nodes
    requires s'.nodes == s.nodes[i := s'.nodes[i]] && s'.past.reigns == s.past.reigns && s'.past.acks == s.past.acks
    requires s.past.commits <= s'.past.commits
    requires Commits(s.nodes.Keys, s.past.reigns, s.past.acks, s'.past.commits)
    requires var n := s'.nodes[i];
             && Backed(s.past.reigns, s'.past.commits, n.currentTerm, n.log, n.commitIndex)
             && 0 <= n.lastApplied <= n.commitIndex
             && (n.role == Leader ==> MapsOk(n, s.past.acks)) && SentOk(n)
    ensures CommitInv(s')
  {
  }
}
