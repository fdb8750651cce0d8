/** Facts about logs and about inserting a leader's entries into them. */
module Logs {
  import opened RaftTypes
  import opened NodeSpec

  /** Both logs hold index `k` and are equal up to it. */
  predicate Agree(a: seq<LogEntry>, b: seq<LogEntry>, k: int) {
    0 <= k < |a| && k < |b| && a[..k + 1] == b[..k + 1]
  }

  /** The Log Matching Property for a pair of logs: the same term at the same
      index means equal logs up to that index. */
  ghost predicate Matching(a: seq<LogEntry>, b: seq<LogEntry>) {
    forall i | 0 <= i < |a| && i < |b| && a[i].term == b[i].term :: Agree(a, b, i)
  }

  /** Every entry records its own position, after the dummy at index 0. */
  predicate Indexed(log: seq<LogEntry>) {
    && |log| > 0 && log[0] == DUMMY
    && forall i | 0 <= i < |log| :: log[i].index == i
  }

  predicate Ascending(log: seq<LogEntry>) {
    forall i, j | 0 <= i <= j < |log| :: log[i].term <= log[j].term
  }

  lemma AgreeDown(a: seq<LogEntry>, b: seq<LogEntry>, k: int, j: int)
    requires Agree(a, b, k) && 0 <= j <= k
    ensures Agree(a, b, j) && a[j] == b[j]
  {
  }

  /** The first `k` of the entries stand in `log` from `at` on, comparing terms only. */
  predicate Stand(log: seq<LogEntry>, at: nat, entries: seq<LogEntry>, k: nat)
    requires k <= |entries|
  {
    forall i {:trigger entries[i]} | 0 <= i < k :: at + i < |log| && log[at + i].term == entries[i].term
  }

  lemma StandFromNext(log: seq<LogEntry>, at: nat, entries: seq<LogEntry>, rest: nat)
    requires rest < |entries| && at < |log| && log[at].term == entries[0].term
    requires Stand(log, at + 1, entries[1..], rest)
    ensures Stand(log, at, entries, 1 + rest)
  {
    forall i | 0 <= i < 1 + rest
      ensures at + i < |log| && log[at + i].term == entries[i].term
    {
      if i > 0 {
        assert entries[1..][i - 1] == entries[i];
        assert at + 1 + (i - 1) == at + i;
      }
    }
  }

  /** How many leading `entries` already stand in `log` from `at` on, comparing
      terms only. */
  function Agreed(log: seq<LogEntry>, at: nat, entries: seq<LogEntry>): (k: nat)
    ensures k <= |entries|
    ensures Stand(log, at, entries, k)
    ensures k < |entries| && at + k < |log| ==> log[at + k].term != entries[k].term
    decreases |entries|
  {
    if entries == [] || at >= |log| || log[at].term != entries[0].term then 0
    else
      var rest := Agreed(log, at + 1, entries[1..]);
      StandFromNext(log, at, entries, rest);
      1 + rest
  }

  function Reindexed(entries: seq<LogEntry>, at: int): (r: seq<LogEntry>) {
    seq(|entries|, i requires 0 <= i < |entries| => entries[i].(index := at + i))
  }

  lemma {:induction false} AppendAtEnd(log: seq<LogEntry>, entries: seq<LogEntry>)
    ensures AppendFrom(log, |log|, entries) == log + Reindexed(entries, |log|)
    decreases |entries|
  {
    if entries == [] {
      assert log + Reindexed(entries, |log|) == log;
    } else {
      var log1 := log[..|log|] + [entries[0].(index := |log|)];
      AppendAtEnd(log1, entries[1..]);
      assert log1 + Reindexed(entries[1..], |log1|) == log + Reindexed(entries, |log|);
    }
  }

  /** Inserting entries keeps the longest prefix that agrees by term and, only
      when some entry is left over, replaces the rest of the log by it. */
  lemma {:induction false} AppendIsSplice(log: seq<LogEntry>, at: nat, entries: seq<LogEntry>)
    requires at <= |log|
    ensures var k := Agreed(log, at, entries);
            at + k <= |log|
            && AppendFrom(log, at, entries) ==
               if k == |entries| then log else log[..at + k] + Reindexed(entries[k..], at + k)
    decreases |entries|
  {
    if entries != [] {
      if at < |log| && log[at].term == entries[0].term {
        var k := Agreed(log, at + 1, entries[1..]);
        AppendIsSplice(log, at + 1, entries[1..]);
        assert Agreed(log, at, entries) == 1 + k;
        assert entries[1..][k..] == entries[1 + k..];
        assert at + 1 + k == at + (1 + k);
      } else {
        var log1 := log[..at] + [entries[0].(index := at)];
        AppendAtEnd(log1, entries[1..]);
        assert log1 + Reindexed(entries[1..], at + 1) == log[..at] + Reindexed(entries[0..], at);
        assert entries[0..] == entries;
      }
    }
  }

  /** After the insertion the terms from `at` on are the request's, and nothing
      before `at` has moved. */
  lemma AppendMatchesRequest(log: seq<LogEntry>, at: nat, entries: seq<LogEntry>)
    requires at <= |log|
    ensures var r := AppendFrom(log, at, entries);
            && |r| >= at + |entries|
            && r[..at] == log[..at]
            && forall i | 0 <= i < |entries| :: r[at + i].term == entries[i].term
  {
    AppendIsSplice(log, at, entries);
    var k := Agreed(log, at, entries);
    var r := AppendFrom(log, at, entries);
    forall i | 0 <= i < |entries|
      ensures r[at + i].term == entries[i].term
    {
      if k < |entries| && k <= i {
        assert r[at + i] == Reindexed(entries[k..], at + k)[i - k];
      } else {
        assert r[at + i] == log[at + i];
      }
    }
  }

  /** The log is left alone exactly when every entry of the request already
      stands in it with the same term. */
  lemma UnchangedIffPresent(log: seq<LogEntry>, at: nat, entries: seq<LogEntry>)
    requires at <= |log|
    ensures AppendFrom(log, at, entries) == log
            <==> (at + |entries| <= |log| && forall i | 0 <= i < |entries| :: log[at + i].term == entries[i].term)
  {
    AppendIsSplice(log, at, entries);
    AppendMatchesRequest(log, at, entries);
  }

  /** A position is removed or rewritten only behind a real conflict: the log
      up to the first position whose term differs survives. */
  lemma RemovedOnlyOnConflict(log: seq<LogEntry>, at: nat, entries: seq<LogEntry>, p: nat)
    requires at <= |log| && p < |log|
    requires !Agree(AppendFrom(log, at, entries), log, p)
    ensures exists i :: 0 <= i < |entries| && at + i <= p && log[at + i].term != entries[i].term
  {
    AppendIsSplice(log, at, entries);
    var k := Agreed(log, at, entries);
    assert at + k <= p;
    assert log[at + k].term != entries[k].term;
  }

  /** Applying one request twice is applying it once. */
  lemma AppendIdempotent(log: seq<LogEntry>, at: nat, entries: seq<LogEntry>)
    requires at <= |log|
    ensures var r := AppendFrom(log, at, entries); at <= |r| && AppendFrom(r, at, entries) == r
  {
    AppendMatchesRequest(log, at, entries);
    UnchangedIffPresent(AppendFrom(log, at, entries), at, entries);
  }

  /** A request that was overtaken: once the follower agrees with the leader up
      to a later index, an older and shorter request of the same leader changes
      nothing. */
  lemma OlderRequestIsNoOp(mine: seq<LogEntry>, theirs: seq<LogEntry>, prev: nat, entries: seq<LogEntry>, k: nat)
    requires Agree(mine, theirs, k) && prev + |entries| <= k
    requires entries == theirs[prev + 1..prev + 1 + |entries|]
    ensures AppendFrom(mine, prev + 1, entries) == mine
  {
    forall i | 0 <= i < |entries|
      ensures mine[prev + 1 + i].term == entries[i].term
    {
      AgreeDown(mine, theirs, k, prev + 1 + i);
    }
    UnchangedIffPresent(mine, prev + 1, entries);
  }

  lemma SliceKeepsIndices(log: seq<LogEntry>, lo: nat, hi: nat)
    requires Indexed(log) && lo <= hi <= |log|
    ensures Reindexed(log[lo..hi], lo) == log[lo..hi]
  {
  }

  /** Terms that agree are entries that agree, under Log Matching. */
  lemma AgreedIsShared(mine: seq<LogEntry>, theirs: seq<LogEntry>, prev: nat, entries: seq<LogEntry>)
    requires Matching(mine, theirs) && Agree(mine, theirs, prev)
    requires prev + |entries| < |theirs| && entries == theirs[prev + 1..prev + 1 + |entries|]
    ensures Agree(mine, theirs, prev + Agreed(mine, prev + 1, entries))
  {
    var k := Agreed(mine, prev + 1, entries);
    if k > 0 {
      assert entries[k - 1] == theirs[prev + k];
    }
  }

  lemma Rejoin(a: seq<LogEntry>, b: seq<LogEntry>, at: nat, m: nat)
    requires at <= |a| && at <= m <= |b| && a[..at] == b[..at]
    ensures a[..at] + b[at..m] == b[..m]
  {
  }

  /** Insert a slice of a leader's log behind an agreed prefix: the follower
      keeps its log when it already agrees up to the slice's end, and otherwise
      ends up with exactly that prefix of the leader's log. */
  lemma MergeResult(mine: seq<LogEntry>, theirs: seq<LogEntry>, prev: nat, entries: seq<LogEntry>)
    requires Matching(mine, theirs) && Indexed(theirs) && Agree(mine, theirs, prev)
    requires prev + |entries| < |theirs| && entries == theirs[prev + 1..prev + 1 + |entries|]
    ensures var m := prev + |entries|;
            AppendFrom(mine, prev + 1, entries) == if Agree(mine, theirs, m) then mine else theirs[..m + 1]
  {
    var at, m := prev + 1, prev + |entries|;
    if Agree(mine, theirs, m) {
      OlderRequestIsNoOp(mine, theirs, prev, entries, m);
    } else {
      AgreedIsShared(mine, theirs, prev, entries);
      SpliceOfSlice(mine, theirs, prev, entries);
    }
  }

  lemma SpliceOfSlice(mine: seq<LogEntry>, theirs: seq<LogEntry>, prev: nat, entries: seq<LogEntry>)
    requires Indexed(theirs) && prev < |mine|
    requires prev + |entries| < |theirs| && entries == theirs[prev + 1..prev + 1 + |entries|]
    requires Agree(mine, theirs, prev + Agreed(mine, prev + 1, entries))
    requires !Agree(mine, theirs, prev + |entries|)
    ensures AppendFrom(mine, prev + 1, entries) == theirs[..prev + |entries| + 1]
  {
    hide Agreed, AppendFrom, Reindexed, Indexed;
    var at, m := prev + 1, prev + |entries|;
    var k := Agreed(mine, at, entries);
    AppendIsSplice(mine, at, entries);
    calc {
      AppendFrom(mine, at, entries);
      mine[..at + k] + Reindexed(entries[k..], at + k);
      { assert entries[k..] == theirs[at + k..m + 1]; }
      mine[..at + k] + Reindexed(theirs[at + k..m + 1], at + k);
      { SliceKeepsIndices(theirs, at + k, m + 1); }
      mine[..at + k] + theirs[at + k..m + 1];
      { Rejoin(mine, theirs, at + k, m + 1); }
      theirs[..m + 1];
    }
  }

  /** The slice case read once more: whatever both logs already shared is kept. */
  lemma MergeKeepsShared(mine: seq<LogEntry>, theirs: seq<LogEntry>, prev: nat, entries: seq<LogEntry>, k: int)
    requires Matching(mine, theirs) && Indexed(theirs) && Agree(mine, theirs, prev)
    requires prev + |entries| < |theirs| && entries == theirs[prev + 1..prev + 1 + |entries|]
    requires Agree(mine, theirs, k)
    ensures Agree(AppendFrom(mine, prev + 1, entries), mine, k)
    ensures Agree(AppendFrom(mine, prev + 1, entries), theirs, k)
    ensures Agree(AppendFrom(mine, prev + 1, entries), theirs, prev + |entries|)
  {
    MergeResult(mine, theirs, prev, entries);
    var m := prev + |entries|;
    if !Agree(mine, theirs, m) {
      if k >= m { AgreeDown(mine, theirs, k, m); }
      assert theirs[..m + 1][..k + 1] == theirs[..k + 1];
      assert theirs[..m + 1][..m + 1] == theirs[..m + 1];
    }
  }
}
