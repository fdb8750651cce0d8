/** One server as an object: the handlers and loops of the consensus module,
    each proved to compute what `NodeSpec` says and to keep the disk in step. */
module RaftServer {
  import opened RaftTypes
  import opened NodeSpec
  import opened Persistence

  /** A request handed to the transport. */
  datatype Outgoing = VoteOut(to: Id, vote: VoteRequest) | AppendOut(to: Id, append: AppendRequest)

  function VotesTo(peers: seq<Id>, req: VoteRequest): seq<Outgoing> {
    if peers == [] then [] else VotesTo(peers[..|peers| - 1], req) + [VoteOut(peers[|peers| - 1], req)]
  }

  function AppendsTo(peers: seq<Id>, n: Node): seq<Outgoing> {
    if peers == [] then []
    else AppendsTo(peers[..|peers| - 1], n) + [AppendOut(peers[|peers| - 1], BuildAppend(n, peers[|peers| - 1]))]
  }

  /** The requests of an election, one for each peer in order. */
  function VoteBroadcast(n: Node): seq<Outgoing> { VotesTo(n.peers, VoteRequestOf(n)) }

  /** A round of replication, one request for each peer in order. */
  function AppendBroadcast(n: Node): seq<Outgoing> { AppendsTo(n.peers, n) }

  lemma AppendFromNothing(log: seq<LogEntry>, at: nat)
    requires at <= |log|
    ensures AppendFrom(log, at, []) == log
  {
  }

  lemma AppendFromStep(log: seq<LogEntry>, at: nat, entries: seq<LogEntry>)
    requires at <= |log| && entries != []
    ensures AppendFrom(log, at, entries) ==
            if at < |log| && log[at].term == entries[0].term then AppendFrom(log, at + 1, entries[1..])
            else AppendFrom(log[..at] + [entries[0].(index := at)], at + 1, entries[1..])
  {
  }

  lemma LinesExtended(log: seq<LogEntry>, e: LogEntry)
    requires |log| > 0
    ensures Lines((log + [e])[1..]) == Lines(log[1..]) + [Whole(e)]
  {
  }

  lemma NothingBuffered(file: seq<Line>)
    ensures file + Lines([]) == file
  {
  }

  class RaftNode {
    const id: Id
    const peers: seq<Id>
    const majority: int
    const persister: Persister

    var currentTerm: int
    var votedFor: Id
    var log: seq<LogEntry>
    var commitIndex: int
    var lastApplied: int
    var role: Role
    var nextIndex: map<Id, int>
    var matchIndex: map<Id, int>
    var votesReceived: int
    var sent: seq<ApplyMsg>         // everything put on applyCh
    var outbox: seq<Outgoing>       // everything handed to the transport

    ghost function View(): Node
      reads this
    {
      Node(id, peers, majority, currentTerm, votedFor, log, commitIndex, lastApplied, role,
           nextIndex, matchIndex, votesReceived, sent)
    }

    /** No handler slices its log out of range. */
    ghost predicate Valid()
      reads this
    {
      Sane(View()) && forall p | p in nextIndex :: nextIndex[p] >= 0
    }

    /** What was handed to the log file is the log without its dummy. */
    ghost predicate Mirrored()
      reads this, persister
    {
      |log| > 0 && persister.Written() == Lines(log[1..])
    }

    /** Unless writes of the state file fail, the saved term and vote are the
        current ones. */
    ghost predicate StateSaved()
      reads this, persister
    {
      persister.reliable ==> persister.saved == Saved(currentTerm, votedFor)
    }

    // ---- node.go ----

    /** A server built over the files it finds. It starts with an empty log when a
        line of the log file does not decode, and then memory and disk differ. */
    constructor (id: Id, peers: seq<Id>, persister: Persister)
      ensures Valid() && this.persister == persister && this.id == id && this.peers == peers && outbox == []
      ensures View() == Node(id, peers, (|peers| + 1) / 2 + 1,
                             if persister.saved.Saved? then persister.saved.term else 0,
                             if persister.saved.Saved? then persister.saved.votedFor else "",
                             ReadBack(persister.file), 0, 0, Follower, map[], map[], 0, [])
      ensures persister.buffer == [] ==> (Mirrored() <==> AllWhole(persister.file))
    {
      this.id, this.peers, this.persister := id, peers, persister;
      this.majority := (|peers| + 1) / 2 + 1;
      commitIndex, lastApplied, votesReceived := 0, 0, 0;
      role := Follower;
      nextIndex, matchIndex := map[], map[];
      sent, outbox := [], [];
      var term, vote, found, readable := persister.LoadState();
      if readable && found {
        currentTerm := term;
        votedFor := vote;
      } else {
        currentTerm := 0;
        votedFor := "";
      }
      var loaded := persister.LoadLog();
      log := if loaded.Failed? then [DUMMY] else loaded.log;
    }

    method Start()
      requires Valid()
      modifies this, persister`saved
      ensures Valid() && StateSaved() && outbox == old(outbox)
      ensures View() == BecomeFollower(old(View()), old(currentTerm))
      ensures old(Mirrored()) ==> Mirrored()
    {
      ToFollower(currentTerm);
    }

    method Persist()
      modifies persister`saved
      ensures StateSaved()
    {
      var _ := persister.SaveState(currentTerm, votedFor);
    }

    method ToFollower(term: int)
      requires Valid()
      modifies this, persister`saved
      ensures Valid() && StateSaved() && outbox == old(outbox)
      ensures View() == BecomeFollower(old(View()), term)
      ensures old(Mirrored()) ==> Mirrored()
    {
      role := Follower;
      currentTerm := term;
      votedFor := "";
      votesReceived := 0;
      Persist();
    }

    method ToCandidate()
      requires Valid()
      modifies this, persister`saved
      ensures Valid() && StateSaved()
      ensures View() == BecomeCandidate(old(View()))
      ensures outbox == old(outbox) + VoteBroadcast(View())
      ensures old(Mirrored()) ==> Mirrored()
    {
      role := Candidate;
      currentTerm := currentTerm + 1;
      votedFor := id;
      votesReceived := 1;
      Persist();
      StartElection();
    }

    method ToLeader()
      requires Valid()
      modifies this
      ensures Valid() && View() == BecomeLeader(old(View()))
      ensures outbox == old(outbox) + AppendBroadcast(View())
      ensures old(Mirrored()) ==> Mirrored()
    {
      role := Leader;
      var k := 0;
      while k < |peers|
        invariant 0 <= k <= |peers|
        invariant View() == old(View()).(role := Leader, nextIndex := nextIndex, matchIndex := matchIndex)
        invariant nextIndex == Filled(old(nextIndex), peers[..k], |log|)
        invariant matchIndex == Filled(old(matchIndex), peers[..k], 0)
        invariant outbox == old(outbox)
      {
        assert peers[..k + 1][..k] == peers[..k];
        nextIndex := nextIndex[peers[k] := |log|];
        matchIndex := matchIndex[peers[k] := 0];
        k := k + 1;
      }
      assert peers[..k] == peers;
      SendHeartbeats();
    }

    /** The election timer fires. */
    method ElectionTimeout()
      requires Valid()
      modifies this, persister`saved
      ensures Valid()
      ensures if old(role) == Leader then View() == old(View()) && outbox == old(outbox)
              else StateSaved() && View() == BecomeCandidate(old(View())) && outbox == old(outbox) + VoteBroadcast(View())
      ensures (old(StateSaved()) ==> StateSaved()) && (old(Mirrored()) ==> Mirrored())
    {
      if role != Leader {
        ToCandidate();
      }
    }

    method SendHeartbeats()
      requires Valid()
      modifies this`outbox
      ensures outbox == old(outbox) + if role == Leader then AppendBroadcast(View()) else []
    {
      if role != Leader {
        return;
      }
      ReplicateLog();
    }

    // ---- election.go ----

    /** The three reasons to refuse a vote, checked one after the other. */
    predicate ShouldVote(req: VoteRequest)
      reads this
      ensures ShouldVote(req) == ShouldVoteFor(View(), req)
    {
      if req.term < currentTerm then false
      else if votedFor != "" && votedFor != req.candidateId then false
      else if req.lastLogTerm < LastLogTerm(log) then false
      else !(req.lastLogTerm == LastLogTerm(log) && req.lastLogIndex < LastLogIndex(log))
    }

    method StartElection()
      modifies this`outbox
      ensures outbox == old(outbox) + VoteBroadcast(View())
    {
      var req := VoteRequest(currentTerm, id, LastLogIndex(log), LastLogTerm(log));
      var k := 0;
      while k < |peers|
        invariant 0 <= k <= |peers|
        invariant View() == old(View()) && outbox == old(outbox) + VotesTo(peers[..k], req)
      {
        assert peers[..k + 1][..k] == peers[..k];
        outbox := outbox + [VoteOut(peers[k], req)];
        k := k + 1;
      }
      assert peers[..k] == peers;
    }

    method HandleVoteResponse(resp: VoteResponse)
      requires Valid()
      modifies this, persister`saved
      ensures Valid() && View() == OnVoteResponse(old(View()), resp)
      ensures outbox == old(outbox) + if Wins(old(View()), resp) then AppendBroadcast(View()) else []
      ensures (old(StateSaved()) ==> StateSaved()) && (old(Mirrored()) ==> Mirrored())
    {
      if role != Candidate {
        return;
      }
      if resp.term > currentTerm {
        ToFollower(resp.term);
        return;
      }
      if resp.granted && role == Candidate {
        votesReceived := votesReceived + 1;
        if votesReceived >= majority {
          ToLeader();
        }
      }
    }

    // ---- rpc.go ----

    method RequestVote(req: VoteRequest) returns (resp: VoteResponse)
      requires Valid()
      modifies this, persister`saved
      ensures Valid() && (View(), resp) == OnVoteRequest(old(View()), req) && outbox == old(outbox)
      ensures resp.granted ==> resp.term == req.term && (persister.reliable ==> persister.saved == Saved(req.term, req.candidateId))
      ensures (old(StateSaved()) ==> StateSaved()) && (old(Mirrored()) ==> Mirrored())
    {
      var term := currentTerm;
      if req.term > currentTerm {
        ToFollower(req.term);
        term := currentTerm;
      }
      if ShouldVote(req) {
        votedFor := req.candidateId;
        resp := VoteResponse(term, true);
        Persist();
      } else {
        resp := VoteResponse(term, false);
      }
    }

    method AppendEntries(req: AppendRequest, full: set<int>) returns (resp: AppendResponse)
      requires Valid()
      modifies this, persister
      ensures Valid() && (View(), resp) == OnAppendRequest(old(View()), req, full) && outbox == old(outbox)
      ensures (old(StateSaved()) ==> StateSaved()) && (old(Mirrored()) || !(old(log) <= log) ==> Mirrored())
    {
      var term := currentTerm;
      if req.term < currentTerm {
        return AppendResponse(term, false);
      }
      if req.term > currentTerm {
        ToFollower(req.term);
        term := currentTerm;
      }
      if role != Follower {
        ToFollower(req.term);
      }
      if !CheckLogConsistency(req) {
        return AppendResponse(term, false);
      }
      if |req.entries| > 0 {
        AppendNewEntries(req);
      }
      UpdateCommitIndex(req.leaderCommit, full);
      resp := AppendResponse(term, true);
    }

    // ---- replication.go, receiver ----

    predicate CheckLogConsistency(req: AppendRequest)
      requires Valid()
      reads this
      ensures CheckLogConsistency(req) == CheckLog(log, req)
    {
      if req.prevLogIndex == 0 then true
      else if req.prevLogIndex < 0 || req.prevLogIndex >= |log| then false
      else log[req.prevLogIndex].term == req.prevLogTerm
    }

    /** Cutting the log rewrites the file, so that mends a file that differed. */
    method AppendNewEntries(req: AppendRequest)
      requires Valid() && CheckLog(log, req)
      modifies this`log, persister`file, persister`buffer
      ensures Valid() && (old(Mirrored()) || !(old(log) <= log) ==> Mirrored())
      ensures View() == old(View()).(log := AppendFrom(old(log), req.prevLogIndex + 1, req.entries))
    {
      hide AppendFrom, Lines;
      ghost var inStep := Mirrored();
      var insertIndex := req.prevLogIndex + 1;
      var i := 0;
      assert req.entries[0..] == req.entries;
      while i < |req.entries|
        invariant 0 <= i <= |req.entries| && insertIndex + i <= |log|
        invariant AppendFrom(log, insertIndex + i, req.entries[i..]) == AppendFrom(old(log), insertIndex, req.entries)
        invariant View() == old(View()).(log := log)
        invariant if inStep then Mirrored() else !old(Mirrored()) && old(log) <= log
      {
        var entry, currentIndex := req.entries[i], insertIndex + i;
        assert req.entries[i..][0] == entry && req.entries[i..][1..] == req.entries[i + 1..];
        AppendFromStep(log, currentIndex, req.entries[i..]);
        i := i + 1;
        if currentIndex < |log| {
          if log[currentIndex].term == entry.term {
            continue;
          }
          log := log[..currentIndex];
          persister.TruncateLog(log);
          inStep := true;
          NothingBuffered(persister.file);
        }
        assert log[..currentIndex] == log;
        entry := entry.(index := currentIndex);
        LinesExtended(log, entry);
        log := log + [entry];
        persister.AppendLogEntry(entry);
      }
      assert req.entries[i..] == [];
      AppendFromNothing(log, insertIndex + i);
    }

    method UpdateCommitIndex(leaderCommit: int, full: set<int>)
      requires Valid()
      modifies this`commitIndex, this`lastApplied, this`sent
      ensures Valid() && View() == UpdateCommit(old(View()), leaderCommit, full)
    {
      if leaderCommit > commitIndex {
        commitIndex := Min(leaderCommit, LastLogIndex(log));
        ApplyCommittedEntries(full);
      }
    }

    // ---- state_machine.go ----

    /** Offer every committed entry not applied yet to the apply channel; `full`
        holds the indices at which the channel has no room. */
    method ApplyCommittedEntries(full: set<int>)
      requires Valid() && commitIndex < |log|
      modifies this`lastApplied, this`sent
      ensures Valid() && View() == ApplyCommitted(old(View()), full)
    {
      if commitIndex <= lastApplied {
        return;
      }
      var i := lastApplied + 1;
      while i <= commitIndex
        invariant 1 <= i && 0 <= lastApplied
        invariant View() == old(View()).(lastApplied := lastApplied, sent := sent)
        invariant Offer(View(), i, full) == ApplyCommitted(old(View()), full)
        decreases commitIndex - i
      {
        var entry := log[i];
        var msg := ApplyMsg(true, entry.command, entry.index, entry.term);
        if i !in full {
          sent := sent + [msg];
          lastApplied := i;
        }
        i := i + 1;
      }
    }

    // ---- replication.go, leader ----

    method SendAppendEntriesToPeer(peerID: Id)
      requires Valid()
      modifies this`outbox
      ensures outbox == old(outbox) + [AppendOut(peerID, BuildAppend(View(), peerID))]
    {
      var nextIdx := Lookup(nextIndex, peerID);
      var prevLogIndex := nextIdx - 1;
      var prevLogTerm := 0;
      if prevLogIndex > 0 && prevLogIndex < |log| {
        prevLogTerm := log[prevLogIndex].term;
      }
      var entries: seq<LogEntry> := [];
      if nextIdx <= LastLogIndex(log) {
        entries := log[nextIdx..];
      }
      var req := AppendRequest(currentTerm, id, prevLogIndex, prevLogTerm, entries, commitIndex);
      outbox := outbox + [AppendOut(peerID, req)];
    }

    method ReplicateLog()
      requires Valid()
      modifies this`outbox
      ensures outbox == old(outbox) + if role == Leader then AppendBroadcast(View()) else []
    {
      if role != Leader {
        return;
      }
      var k := 0;
      while k < |peers|
        invariant 0 <= k <= |peers|
        invariant View() == old(View()) && outbox == old(outbox) + AppendsTo(peers[..k], View())
      {
        assert peers[..k + 1][..k] == peers[..k];
        SendAppendEntriesToPeer(peers[k]);
        k := k + 1;
      }
      assert peers[..k] == peers;
    }

    /** The reply to `req`, a request this server built. */
    method HandleAppendEntriesResponse(peerID: Id, req: AppendRequest, resp: AppendResponse, full: set<int>)
      requires Valid() && req.prevLogIndex >= -1
      modifies this, persister`saved
      ensures Valid() && View() == OnAppendResponse(old(View()), peerID, req, resp, full)
      ensures outbox == old(outbox) + if Retries(old(View()), resp) then [AppendOut(peerID, BuildAppend(View(), peerID))] else []
      ensures (old(StateSaved()) ==> StateSaved()) && (old(Mirrored()) ==> Mirrored())
    {
      if role != Leader {
        return;
      }
      if resp.term > currentTerm {
        ToFollower(resp.term);
        return;
      }
      if resp.success {
        var newMatchIndex := req.prevLogIndex + |req.entries|;
        matchIndex := matchIndex[peerID := newMatchIndex];
        nextIndex := nextIndex[peerID := newMatchIndex + 1];
        AdvanceCommitIndex(full);
      } else {
        nextIndex := nextIndex[peerID := Lookup(nextIndex, peerID) - 1];
        if nextIndex[peerID] < 1 {
          nextIndex := nextIndex[peerID := 1];
        }
        SendAppendEntriesToPeer(peerID);
      }
    }

    method AdvanceCommitIndex(full: set<int>)
      requires Valid()
      modifies this`commitIndex, this`lastApplied, this`sent
      ensures Valid() && View() == AdvanceCommit(old(View()), full)
    {
      if role != Leader {
        return;
      }
      var n := LastLogIndex(log);
      while n > commitIndex
        invariant n < |log| && View() == old(View())
        invariant ScanDown(View(), n) == ScanDown(View(), LastLogIndex(log))
        decreases n
      {
        if log[n].term != currentTerm {
          n := n - 1;
          continue;
        }
        var replicaCount, k := 1, 0;
        while k < |peers|
          invariant 0 <= k <= |peers|
          invariant replicaCount == 1 + CountReplicas(peers[..k], matchIndex, n)
        {
          assert peers[..k + 1][..k] == peers[..k];
          if Lookup(matchIndex, peers[k]) >= n {
            replicaCount := replicaCount + 1;
          }
          k := k + 1;
        }
        assert peers[..k] == peers;
        if replicaCount >= majority {
          commitIndex := n;
          ApplyCommittedEntries(full);
          return;
        }
        n := n - 1;
      }
    }

    // ---- proposal.go ----

    /** Append a command to the leader's log and replicate it. */
    method ProposeCommand(command: Command) returns (index: int, term: int, isLeader: bool)
      requires Valid()
      modifies this, persister`file, persister`buffer
      ensures Valid() && View() == Propose(old(View()), command)
      ensures (old(StateSaved()) ==> StateSaved()) && (old(Mirrored()) ==> Mirrored())
      ensures isLeader == (old(role) == Leader) && term == currentTerm
      ensures isLeader ==> index == LastLogIndex(log) && log[index] == LogEntry(term, index, command)
      ensures !isLeader ==> index == -1
      ensures outbox == old(outbox) + if isLeader then AppendBroadcast(View()) else []
    {
      if role != Leader {
        return -1, currentTerm, false;
      }
      var newIndex := |log|;
      var entry := LogEntry(currentTerm, newIndex, command);
      log := log + [entry];
      persister.AppendLogEntry(entry);
      ReplicateLog();
      return newIndex, currentTerm, true;
    }
  }
}
