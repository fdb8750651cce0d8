/** A server that crashes and starts again over the files it left. */
module Recovery {
  import opened RaftTypes
  import opened NodeSpec
  import opened Persistence
  import opened RaftServer
  import opened Lifetime

  /** The lines in the file after a crash that saves `kept` lines of the buffer,
      and perhaps a part of the next one. */
  function Salvaged(file: seq<Line>, buffer: seq<LogEntry>, kept: nat, torn: bool): seq<Line>
    requires kept <= |buffer|
  {
    file + Lines(buffer[..kept]) + if torn then [Garbled] else []
  }

  /** Whatever a crash loses, the log read back is a prefix of the log in memory,
      and the whole of it exactly when no line was lost. What was in the file
      before survives exactly unless a line is torn: then all of it is forgotten. */
  lemma CrashKeepsPrefix(log: seq<LogEntry>, file: seq<Line>, buffer: seq<LogEntry>, kept: nat, torn: bool)
    requires |log| > 0 && log[0] == DUMMY && file + Lines(buffer) == Lines(log[1..])
    requires kept <= |buffer| && (torn ==> kept < |buffer|)
    ensures var back := ReadBack(Salvaged(file, buffer, kept, torn));
            && (AllWhole(Salvaged(file, buffer, kept, torn)) <==> !torn)
            && back <= log && (back == log <==> kept == |buffer|)
            && (file <= Lines(back[1..]) <==> !torn || file == [])
  {
    var lines := Salvaged(file, buffer, kept, torn);
    assert forall k | 0 <= k < |file| :: file[k] == (file + Lines(buffer))[k] == Whole(log[k + 1]);
    assert forall k | 0 <= k < kept :: (file + Lines(buffer))[|file| + k] == Whole(buffer[k]);
    if torn {
      assert lines[|lines| - 1] == Garbled;
    } else {
      assert AllWhole(lines);
      assert |Entries(lines)| == |lines|;
      assert forall k | 0 <= k < |lines| :: lines[k] == Whole(Entries(lines)[k]) && lines[k] == Whole(log[k + 1]);
      assert ReadBack(lines)[1..] == Entries(lines);
    }
  }

  /** The node a restart builds: what the files say, then the step-down of `Start`. */
  function Restarted(n: Node, log: seq<LogEntry>): Node {
    BecomeFollower(n.(log := log, commitIndex := 0, lastApplied := 0, role := Follower,
                      nextIndex := map[], matchIndex := map[], votesReceived := 0, sent := []),
                   n.currentTerm)
  }

  /** Crash and restart of a whole server. */
  method CrashAndRestart(n: RaftNode, kept: nat, torn: bool, reliable: bool) returns (m: RaftNode)
    requires n.Valid() && n.Mirrored() && n.log[0] == DUMMY
    requires n.persister.saved == Saved(n.currentTerm, n.votedFor)
    requires n.majority == (|n.peers| + 1) / 2 + 1
    requires kept <= |n.persister.buffer| && (torn ==> kept < |n.persister.buffer|)
    ensures m.Valid() && (m.Mirrored() <==> !torn) && (torn ==> m.log == [DUMMY]) && m.StateSaved() && m.persister.reliable == reliable
    ensures m.View() == Restarted(n.View(), ReadBack(Salvaged(n.persister.file, n.persister.buffer, kept, torn)))
    ensures m.log <= n.log && m.currentTerm == n.currentTerm
  {
    var left := n.persister.file + Lines(n.persister.buffer[..kept]) + if torn then [Garbled] else [];
    var disk := new Persister(n.persister.saved, left, reliable);
    m := new RaftNode(n.id, n.peers, disk);
    CrashKeepsPrefix(n.log, n.persister.file, n.persister.buffer, kept, torn);
    m.Start();
  }

  /** A server starts over a readable log file, handles anything, crashes at any
      moment and starts again: it has the same term and a prefix of the log. */
  method LiveAndCrash(id: Id, peers: seq<Id>, disk: Persister, events: seq<Event>) returns (n: RaftNode, m: RaftNode)
    requires AllWhole(disk.file) && disk.buffer == [] && disk.reliable
    requires forall e | e in events :: Plausible(e)
    modifies disk
    ensures n.View() == HandleAll(Booted(id, peers, old(disk.saved), old(disk.file)), events)
    ensures m.Valid() && m.StateSaved() && m.currentTerm == n.currentTerm && m.log <= n.log
    ensures m.Mirrored() || m.log == [DUMMY]
  {
    n := Live(id, peers, disk, events);
    var kept, torn :| 0 <= kept <= |disk.buffer| && (torn ==> kept < |disk.buffer|);
    m := CrashAndRestart(n, kept, torn, true);
  }

  /** Remark: the saved vote is meant to survive a restart. It does so exactly when there
      was none: starting steps down, and stepping down clears the vote. */
  lemma RestartKeepsVoteIff(n: Node, log: seq<LogEntry>)
    ensures Restarted(n, log).currentTerm == n.currentTerm
    ensures Restarted(n, log).votedFor == n.votedFor <==> n.votedFor == ""
  {
  }

  /** So a server that voted for one candidate refuses another in that term, but
      after a restart grants it the vote whenever its log is up to date. */
  lemma SecondVoteAfterRestartIff(n: Node, log: seq<LogEntry>, req: VoteRequest)
    requires n.votedFor != "" && n.votedFor != req.candidateId && req.term == n.currentTerm
    ensures !OnVoteRequest(n, req).1.granted
    ensures OnVoteRequest(Restarted(n, log), req).1.granted <==> UpToDate(req.lastLogTerm, req.lastLogIndex, log)
  {
  }

  /** The servers a, b, v after: a and b time out; v votes for a, restarts, and
      votes for b; both votes arrive. */
  function RestartRun(): (Node, Node, Node) {
    var a := BecomeCandidate(Newborn("a", ["b", "v"]));
    var b := BecomeCandidate(Newborn("b", ["a", "v"]));
    var (v1, first) := OnVoteRequest(Newborn("v", ["a", "b"]), VoteRequestOf(a));
    var (v2, second) := OnVoteRequest(Restarted(v1, v1.log), VoteRequestOf(b));
    (OnVoteResponse(a, first), OnVoteResponse(b, second), v2)
  }

  /** Election Safety does not survive a restart: two leaders in term 1. */
  lemma RestartElectsTwo()
    ensures var (a, b, v) := RestartRun();
            a.role == Leader && b.role == Leader && a.currentTerm == 1 && b.currentTerm == 1 && a.id != b.id
  {
  }
}
