/** The life of one server between two crashes: it loads its files, starts, and
    handles whatever arrives. */
module Lifetime {
  import opened RaftTypes
  import opened NodeSpec
  import opened Persistence
  import opened RaftServer
  import opened Logs
  import opened CommitProof

  /** One call of a handler with what it was given. */
  datatype Event =
    | TimesOut
    | Beats
    | Proposed(command: Command)
    | VoteAsked(voteReq: VoteRequest)
    | VoteReplied(voteResp: VoteResponse)
    | AppendAsked(req: AppendRequest, full: set<int>)
    | AppendReplied(peer: Id, sent: AppendRequest, resp: AppendResponse, full: set<int>)

  /** Replies are to requests that the server built. */
  predicate Plausible(e: Event) {
    e.AppendReplied? ==> e.sent.prevLogIndex >= -1
  }

  function Handle(n: Node, e: Event): (r: Node)
    requires Sane(n)
    ensures Sane(r)
  {
    match e
    case TimesOut => if n.role == Leader then n else BecomeCandidate(n)
    case Beats => n
    case Proposed(command) => Propose(n, command)
    case VoteAsked(req) => OnVoteRequest(n, req).0
    case VoteReplied(resp) => OnVoteResponse(n, resp)
    case AppendAsked(req, full) => OnAppendRequest(n, req, full).0
    case AppendReplied(peer, req, resp, full) => OnAppendResponse(n, peer, req, resp, full)
  }

  function HandleAll(n: Node, es: seq<Event>): (r: Node)
    requires Sane(n)
    ensures Sane(r)
    decreases |es|
  {
    if es == [] then n else Handle(HandleAll(n, es[..|es| - 1]), es[|es| - 1])
  }

  method Serve(n: RaftNode, e: Event)
    requires n.Valid() && Plausible(e)
    modifies n, n.persister
    ensures n.Valid() && n.View() == Handle(old(n.View()), e)
    ensures (old(n.StateSaved()) ==> n.StateSaved()) && (old(n.Mirrored()) ==> n.Mirrored())
  {
    match e {
      case TimesOut => n.ElectionTimeout();
      case Beats => n.SendHeartbeats();
      case Proposed(command) => var _, _, _ := n.ProposeCommand(command);
      case VoteAsked(req) => var _ := n.RequestVote(req);
      case VoteReplied(resp) => n.HandleVoteResponse(resp);
      case AppendAsked(req, full) => var _ := n.AppendEntries(req, full);
      case AppendReplied(peer, req, resp, full) => n.HandleAppendEntriesResponse(peer, req, resp, full);
    }
  }

  /** The log file, flushed and buffered lines together, is the log in memory after
      any sequence of handler calls, and the saved state is the current one: both
      from the moment a server starts over a readable log file. */
  method Live(id: Id, peers: seq<Id>, disk: Persister, events: seq<Event>) returns (n: RaftNode)
    requires AllWhole(disk.file) && disk.buffer == []
    requires forall e | e in events :: Plausible(e)
    modifies disk
    ensures fresh(n) && n.Valid() && n.persister == disk && n.Mirrored() && n.StateSaved()
    ensures n.log[0] == DUMMY && n.id == id && n.peers == peers && n.majority == (|peers| + 1) / 2 + 1
    ensures n.View() == HandleAll(Booted(id, peers, old(disk.saved), old(disk.file)), events)
  {
    n := new RaftNode(id, peers, disk);
    n.Start();
    ghost var start := n.View();
    var k := 0;
    while k < |events|
      invariant 0 <= k <= |events| && fresh(n) && n.persister == disk
      invariant n.Valid() && n.Mirrored() && n.StateSaved() && n.View() == HandleAll(start, events[..k])
    {
      assert events[..k + 1][..k] == events[..k] && events[k] in events;
      Serve(n, events[k]);
      k := k + 1;
    }
    assert events[..k] == events;
    AllKeepServer(start, events);
  }

  /** What `Start` makes of the files. */
  function Booted(id: Id, peers: seq<Id>, saved: SavedState, file: seq<Line>): (n: Node)
    ensures Sane(n) && n.log[0] == DUMMY
  {
    Node(id, peers, (|peers| + 1) / 2 + 1, if saved.Saved? then saved.term else 0, "",
         ReadBack(file), 0, 0, Follower, map[], map[], 0, [])
  }

  /** No handler touches entry 0 or the fixed fields. */
  predicate SameServer(n: Node, n': Node)
    requires Sane(n) && Sane(n')
  {
    n'.log[0] == n.log[0] && n'.id == n.id && n'.peers == n.peers && n'.majority == n.majority
  }

  lemma AppendKeepsServer(n: Node, req: AppendRequest, full: set<int>)
    requires Sane(n)
    ensures SameServer(n, OnAppendRequest(n, req, full).0)
  {
    hide AppendFrom;
    var n1 := AcceptLeader(n, req);
    if req.term >= n.currentTerm && CheckLog(n1.log, req) {
      var at := req.prevLogIndex + 1;
      AppendMatchesRequest(n1.log, at, req.entries);
      var n2 := n1.(log := AppendFrom(n1.log, at, req.entries));
      assert n2.log[..at][0] == n1.log[..at][0];
      if req.leaderCommit > n2.commitIndex {
        OfferKeepsRest(n2.(commitIndex := Min(req.leaderCommit, LastLogIndex(n2.log))), n2.lastApplied + 1, full);
      }
    }
  }

  lemma HandleKeepsServer(n: Node, e: Event)
    requires Sane(n)
    ensures SameServer(n, Handle(n, e))
  {
    hide OnAppendRequest;
    match e {
      case AppendAsked(req, full) => AppendKeepsServer(n, req, full);
      case AppendReplied(peer, req, resp, full) =>
        var n1 := Track(n, peer, req.prevLogIndex + |req.entries|);
        var k := ScanDown(n1, LastLogIndex(n1.log));
        if n.role == Leader && resp.term <= n.currentTerm && resp.success && k > n1.commitIndex {
          OfferKeepsRest(n1.(commitIndex := k), n1.lastApplied + 1, full);
        }
      case _ =>
    }
  }

  lemma {:induction false} AllKeepServer(n: Node, es: seq<Event>)
    requires Sane(n)
    ensures SameServer(n, HandleAll(n, es))
    decreases |es|
  {
    if es != [] {
      AllKeepServer(n, es[..|es| - 1]);
      HandleKeepsServer(HandleAll(n, es[..|es| - 1]), es[|es| - 1]);
    }
  }
}
