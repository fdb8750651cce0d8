/** The files of one server: its saved term and vote, and its log file behind a
    buffered writer. A crash keeps what is in the files and loses the buffer. */
module Persistence {
  import opened RaftTypes

  /** What is in state.json. */
  datatype SavedState = Nothing | Saved(term: int, votedFor: Id) | Unreadable

  /** One line of log.jsonl: an entry, or something that does not decode. */
  datatype Line = Whole(entry: LogEntry) | Garbled

  datatype Loaded = Failed | Log(log: seq<LogEntry>)

  function Lines(es: seq<LogEntry>): (r: seq<Line>)
    ensures |r| == |es| && forall k | 0 <= k < |r| :: r[k] == Whole(es[k])
  {
    seq(|es|, k requires 0 <= k < |es| => Whole(es[k]))
  }

  predicate AllWhole(lines: seq<Line>) {
    forall k | 0 <= k < |lines| :: lines[k].Whole?
  }

  /** The entries of a readable log file. */
  function Entries(lines: seq<Line>): (r: seq<LogEntry>)
    requires AllWhole(lines)
    ensures Lines(r) == lines
  {
    seq(|lines|, k requires 0 <= k < |lines| => lines[k].entry)
  }

  /** The log that a server reads from its log file: only the dummy when a line
      does not decode. */
  function ReadBack(file: seq<Line>): (log: seq<LogEntry>)
    ensures |log| > 0 && log[0] == DUMMY
  {
    [DUMMY] + if AllWhole(file) then Entries(file) else []
  }

  class Persister {
    const reliable: bool           // no write of the state file fails

    var saved: SavedState          // state.json
    var file: seq<Line>            // lines of log.jsonl
    var buffer: seq<LogEntry>      // entries in the writer's buffer

    /** All lines handed to the persister since the last rewrite, on disk or not. */
    ghost function Written(): seq<Line>
      reads this
    {
      file + Lines(buffer)
    }

    /** Open the files left by an earlier life of the server. */
    constructor (saved: SavedState, file: seq<Line>, reliable: bool)
      ensures this.saved == saved && this.file == file && this.buffer == [] && this.reliable == reliable
    {
      this.saved := saved;
      this.file := file;
      this.buffer := [];
      this.reliable := reliable;
    }

    /** Write a temporary file, then rename it: whichever of the two fails, the old
        state is still there. */
    method SaveState(term: int, votedFor: Id) returns (ok: bool)
      modifies this`saved
      ensures saved == if ok then Saved(term, votedFor) else old(saved)
      ensures reliable ==> ok
    {
      var written, renamed :| reliable ==> written && renamed;
      if !written {
        return false;
      }
      if !renamed {
        return false;
      }
      saved := Saved(term, votedFor);
      ok := true;
    }

    /** The saved term and vote; whether there are any; whether the file was read. */
    method LoadState() returns (term: int, votedFor: Id, exists_: bool, ok: bool)
      ensures ok <==> saved != Unreadable
      ensures exists_ <==> saved.Saved?
      ensures if exists_ then saved == Saved(term, votedFor) else term == 0 && votedFor == ""
    {
      match saved
      case Nothing => return 0, "", false, true;
      case Unreadable => return 0, "", false, false;
      case Saved(t, v) => return t, v, true, true;
    }

    /** Write one entry. The writer may find its buffer full and pass any number
        of its lines on to the file. */
    method AppendLogEntry(entry: LogEntry)
      modifies this`file, this`buffer
      ensures Written() == old(Written()) + [Whole(entry)] && old(file) <= file
    {
      buffer := buffer + [entry];
      var spilled :| 0 <= spilled <= |buffer|;
      file, buffer := file + Lines(buffer[..spilled]), buffer[spilled..];
    }

    method Flush()
      modifies this`file, this`buffer
      ensures file == old(Written()) && buffer == []
    {
      file, buffer := file + Lines(buffer), [];
    }

    /** Read the log back: the dummy, then the lines of the file, unless one of
        them does not decode. */
    method LoadLog() returns (r: Loaded)
      ensures r.Log? <==> AllWhole(file)
      ensures r.Log? ==> r.log == ReadBack(file)
    {
      var log := [DUMMY];
      var line := 0;
      while line < |file|
        invariant 0 <= line <= |file| && AllWhole(file[..line])
        invariant |log| == line + 1 && log[0] == DUMMY && forall k | 0 <= k < line :: file[k] == Whole(log[k + 1])
      {
        if file[line].Garbled? {
          return Failed;
        }
        log := log + [file[line].entry];
        line := line + 1;
      }
      assert file[..line] == file;
      r := Log(log);
    }

    /** Remove the file and write a new one with all entries but the dummy. */
    method TruncateLog(entries: seq<LogEntry>)
      requires |entries| > 0
      modifies this`file, this`buffer
      ensures file == Lines(entries[1..]) && buffer == []
    {
      Flush();
      file := [];
      var i := 1;
      while i < |entries|
        invariant 1 <= i <= |entries| && file == [] && buffer == entries[1..i]
      {
        assert entries[1..i + 1] == entries[1..i] + [entries[i]];
        buffer := buffer + [entries[i]];
        i := i + 1;
      }
      Flush();
    }
  }
}
