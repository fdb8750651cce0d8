/** How the past may grow, and what survives its growth. */
module Growth {
  import opened RaftTypes
  import opened Logs
  import opened Cluster
  import opened Invariant

  /** The log of a reign after it was extended by entries of its own term. */
  ghost predicate ExtendsBy(longer: seq<LogEntry>, log: seq<LogEntry>, term: int) {
    && |log| <= |longer| && longer[..|log|] == log
    && forall k | |log| <= k < |longer| :: longer[k].term == term
  }

  /** Reigns stay: a leader only appends entries of its own term. */
  ghost predicate Grows(r: Reigns, r': Reigns) {
    forall t | t in r ::
      t in r' && r'[t].leader == r[t].leader && r'[t].quorum == r[t].quorum && ExtendsBy(r'[t].log, r[t].log, t)
  }

  lemma AgreeExtended(log: seq<LogEntry>, b: seq<LogEntry>, longer: seq<LogEntry>, term: int, k: int)
    requires ExtendsBy(longer, b, term) && Agree(log, b, k)
    ensures Agree(log, longer, k) && Agree(longer, log, k)
  {
  }

  lemma LogOkGrows(log: seq<LogEntry>, r: Reigns, r': Reigns)
    requires LogOk(log, r) && Grows(r, r')
    ensures LogOk(log, r')
  {
    forall i | 1 <= i < |log|
      ensures AnchoredAt(log, r', i)
    {
      assert AnchoredAt(log, r, i);
      var t := log[i].term;
      AgreeExtended(log, r[t].log, r'[t].log, t, i);
    }
  }

  /** A later leader cannot come to share an earlier leader's prefix by growing. */
  lemma AgreeShrinks(r: Reigns, r': Reigns, u: int, t: int, k: int)
    requires Grows(r, r') && u in r && t in r && t < u && Below(r[t].log, t)
    requires 0 <= k < |r[t].log| && Agree(r'[u].log, r'[t].log, k)
    ensures Agree(r[u].log, r[t].log, k)
  {
    var a, b := r[u].log, r[t].log;
    assert ExtendsBy(r'[u].log, a, u) && ExtendsBy(r'[t].log, b, t);
    assert r'[t].log[..k + 1] == r'[t].log[..|b|][..k + 1] == b[..k + 1];
    assert forall j | 0 <= j <= k :: r'[u].log[j] == r'[u].log[..k + 1][j] == b[j];
    assert k >= |a| ==> r'[u].log[|a|].term == u;
    assert k < |a|;
    assert r'[u].log[..k + 1] == r'[u].log[..|a|][..k + 1] == a[..k + 1];
  }

  lemma CarriedShrinks(r: Reigns, r': Reigns, t: int, k: int, hi: int)
    requires Grows(r, r') && t in r && Below(r[t].log, t) && 0 <= k < |r[t].log|
    requires Carried(r', t, k, hi)
    ensures Carried(r, t, k, hi)
  {
    forall u | u in r && t < u < hi
      ensures Agree(r[u].log, r[t].log, k)
    {
      AgreeShrinks(r, r', u, t, k);
    }
  }

  lemma KeptGrows(log: seq<LogEntry>, r: Reigns, r': Reigns, t: int, k: int, hi: int)
    requires Grows(r, r') && t in r && Below(r[t].log, t) && 0 <= k < |r[t].log|
    requires Kept(log, r, t, k, hi)
    ensures Kept(log, r', t, k, hi)
  {
    if Carried(r', t, k, hi) {
      CarriedShrinks(r, r', t, k, hi);
      AgreeExtended(log, r[t].log, r'[t].log, t, k);
    }
  }

  lemma KeptLonger(log: seq<LogEntry>, longer: seq<LogEntry>, term: int, r: Reigns, t: int, k: int, hi: int)
    requires t in r && ExtendsBy(longer, log, term) && Kept(log, r, t, k, hi)
    ensures Kept(longer, r, t, k, hi)
  {
  }

  /** Waiting for more leaders is a weaker promise. */
  lemma KeptLater(log: seq<LogEntry>, r: Reigns, t: int, k: int, hi: int, hi': int)
    requires t in r && Kept(log, r, t, k, hi) && hi <= hi'
    ensures Kept(log, r, t, k, hi')
  {
  }

  lemma OwnShrinks(r: Reigns, r': Reigns, t: int, k: int)
    requires Grows(r, r') && t in r && 0 <= k < |r[t].log|
    ensures Own(r', t, k) <==> Own(r, t, k)
  {
  }

  lemma BackedGrows(r: Reigns, r': Reigns, commits: set<Commit>, commits': set<Commit>,
                    term: int, term': int, log: seq<LogEntry>, log': seq<LogEntry>, k: int)
    requires Grows(r, r') && commits <= commits' && term <= term'
    requires Backed(r, commits, term, log, k)
    requires k < |log'| && log'[..k + 1] == log[..k + 1]
    ensures Backed(r', commits', term', log', k)
  {
  }

  lemma AppendsGrow(ids: set<Id>, r: Reigns, r': Reigns, commits: set<Commit>, commits': set<Commit>, appends: set<AppendMsg>)
    requires Appends(ids, r, commits, appends) && Grows(r, r') && commits <= commits'
    ensures Appends(ids, r', commits', appends)
  {
  }

  lemma ReignLogsGrow(r: Reigns, r': Reigns, t: int)
    requires ReignLogs(r) && Grows(r, r') && t in r && r'[t].log == r[t].log
    ensures LogOk(r'[t].log, r') && Below(r'[t].log, t)
  {
    LogOkGrows(r[t].log, r, r');
  }
}
