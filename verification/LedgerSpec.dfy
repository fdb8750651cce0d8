/** The ledger as a deterministic state machine: what one command does to the
    accounts, and what any sequence of commands preserves. */
module LedgerSpec {
  import opened RaftTypes

  datatype Book = Book(balances: map<string, real>, processed: set<string>)

  const EMPTY := Book(map[], {})

  datatype Status = Ok | AlreadyExists | SourceMissing | DestinationMissing | InsufficientFunds

  function Create(b: Book, id: string, initial: real): (Book, Status) {
    if id in b.balances then (b, AlreadyExists)
    else (b.(balances := b.balances[id := initial]), Ok)
  }

  /** Debit, then credit what the debit left: `from` and `to` may be one account. */
  function Move(balances: map<string, real>, from: string, to: string, amount: real): map<string, real>
    requires from in balances && to in balances
  {
    var debited := balances[from := balances[from] - amount];
    debited[to := debited[to] + amount]
  }

  function TransferFunds(b: Book, txnId: string, from: string, to: string, amount: real): (Book, Status) {
    if txnId in b.processed then (b, Ok)
    else if from !in b.balances then (b, SourceMissing)
    else if to !in b.balances then (b, DestinationMissing)
    else if b.balances[from] < amount then (b, InsufficientFunds)
    else (Book(Move(b.balances, from, to, amount), b.processed + {txnId}), Ok)
  }

  /** What the applier does with a command; it ignores what it does not know. */
  function Step(b: Book, c: Command): Book {
    match c
    case Transfer(txnId, from, to, amount) => TransferFunds(b, txnId, from, to, amount).0
    case CreateAccount(id, initial) => Create(b, id, initial).0
    case NoCommand => b
    case Other(_) => b
  }

  function Replay(b: Book, cs: seq<Command>): Book
    decreases |cs|
  {
    if cs == [] then b else Replay(Step(b, cs[0]), cs[1..])
  }

  lemma {:induction false} ReplayConcat(b: Book, xs: seq<Command>, ys: seq<Command>)
    ensures Replay(b, xs + ys) == Replay(Replay(b, xs), ys)
    decreases |xs|
  {
    if xs == [] {
      assert xs + ys == ys;
    } else {
      assert (xs + ys)[1..] == xs[1..] + ys;
      ReplayConcat(Step(b, xs[0]), xs[1..], ys);
    }
  }

  // ---- conservation of money ----

  /** The sum of all balances. */
  ghost function Total(m: map<string, real>): real
    decreases |m|
  {
    if m == map[] then 0.0
    else
      var k :| k in m;
      m[k] + Total(m - {k})
  }

  lemma {:induction false} TotalWithout(m: map<string, real>, k: string)
    requires k in m
    ensures Total(m) == m[k] + Total(m - {k})
    decreases |m|
  {
    var j :| j in m && Total(m) == m[j] + Total(m - {j});
    if j != k {
      TotalWithout(m - {j}, k);
      TotalWithout(m - {k}, j);
      assert m - {j} - {k} == m - {k} - {j};
    }
  }

  lemma TotalUpdate(m: map<string, real>, k: string, v: real)
    ensures Total(m[k := v]) == Total(m) + v - (if k in m then m[k] else 0.0)
  {
    TotalWithout(m[k := v], k);
    assert m[k := v] - {k} == m - {k};
    if k in m {
      TotalWithout(m, k);
    } else {
      assert m - {k} == m;
    }
  }

  /** A transfer moves money and neither makes nor destroys it, also when source
      and destination are one account. */
  lemma MoveConserves(m: map<string, real>, from: string, to: string, amount: real)
    requires from in m && to in m
    ensures Total(Move(m, from, to, amount)) == Total(m)
    ensures from == to ==> Move(m, from, to, amount) == m
  {
    hide Total;
    var left := m[from] - amount;
    var debited := m[from := left];
    var got := debited[to] + amount;
    TotalUpdate(m, from, left);
    TotalUpdate(debited, to, got);
    if from == to { MoveToSelf(m, from, amount); }
  }

  lemma MoveToSelf(m: map<string, real>, id: string, amount: real)
    requires id in m
    ensures Move(m, id, id, amount) == m
  {
  }

  /** The money the successful account creations of a sequence bring in. */
  function Deposited(b: Book, cs: seq<Command>): real
    decreases |cs|
  {
    if cs == [] then 0.0
    else
      (if cs[0].CreateAccount? && cs[0].accountId !in b.balances then cs[0].initialBalance else 0.0)
      + Deposited(Step(b, cs[0]), cs[1..])
  }

  /** Money is conserved over any command sequence: only successful account
      creations change the total. */
  lemma {:induction false} MoneyIsConserved(b: Book, cs: seq<Command>)
    ensures Total(Replay(b, cs).balances) == Total(b.balances) + Deposited(b, cs)
    decreases |cs|
  {
    if cs != [] {
      var c := cs[0];
      match c {
        case Transfer(txnId, from, to, amount) =>
          if from in b.balances && to in b.balances { MoveConserves(b.balances, from, to, amount); }
        case CreateAccount(id, initial) => TotalUpdate(b.balances, id, initial);
        case NoCommand =>
        case Other(_) =>
      }
      MoneyIsConserved(Step(b, c), cs[1..]);
    }
  }

  // ---- no overdraft ----

  /** The checks the API makes before a command is proposed. */
  predicate ApiAccepts(c: Command) {
    match c
    case CreateAccount(id, initial) => id != "" && initial >= 0.0
    case Transfer(txnId, from, to, amount) => from != "" && to != "" && amount > 0.0 && txnId != ""
    case NoCommand => true
    case Other(_) => true
  }

  predicate NonNegative(b: Book) {
    forall id | id in b.balances :: b.balances[id] >= 0.0
  }

  /** No balance is ever negative if every command passed the API checks. */
  lemma {:induction false} NoOverdraft(b: Book, cs: seq<Command>)
    requires NonNegative(b) && forall c | c in cs :: ApiAccepts(c)
    ensures NonNegative(Replay(b, cs))
    decreases |cs|
  {
    if cs != [] {
      assert NonNegative(Step(b, cs[0])) by {
        assert ApiAccepts(cs[0]);
      }
      NoOverdraft(Step(b, cs[0]), cs[1..]);
    }
  }

  // ---- each transaction at most once ----

  /** The command carries out the transfer named `id`. */
  predicate Executes(b: Book, c: Command, id: string) {
    c.Transfer? && c.txnId == id && id !in b.processed && id in Step(b, c).processed
  }

  /** How often a sequence carries out the transfer named `id`. */
  function Executions(b: Book, cs: seq<Command>, id: string): nat
    decreases |cs|
  {
    if cs == [] then 0
    else (if Executes(b, cs[0], id) then 1 else 0) + Executions(Step(b, cs[0]), cs[1..], id)
  }

  /** Once processed, an id stays processed and its account stays open. */
  lemma {:induction false} ReplayGrows(b: Book, cs: seq<Command>)
    ensures b.processed <= Replay(b, cs).processed && b.balances.Keys <= Replay(b, cs).balances.Keys
    decreases |cs|
  {
    if cs != [] { ReplayGrows(Step(b, cs[0]), cs[1..]); }
  }

  /** However often a command sequence repeats a transaction id, the transfer is
      carried out at most once: exactly once if the id becomes processed. */
  lemma {:induction false} AtMostOnce(b: Book, cs: seq<Command>, id: string)
    ensures Executions(b, cs, id) == if id in Replay(b, cs).processed && id !in b.processed then 1 else 0
    decreases |cs|
  {
    if cs != [] {
      AtMostOnce(Step(b, cs[0]), cs[1..], id);
      ReplayGrows(Step(b, cs[0]), cs[1..]);
    }
  }

  /** A repeated transfer or a creation of an account that exists. */
  predicate Redundant(b: Book, c: Command) {
    (c.Transfer? && c.txnId in b.processed) || (c.CreateAccount? && c.accountId in b.balances)
  }

  /** The sequence without the commands that are redundant where they stand. */
  function Prune(b: Book, cs: seq<Command>): seq<Command>
    decreases |cs|
  {
    if cs == [] then []
    else if Redundant(b, cs[0]) then Prune(b, cs[1..])
    else [cs[0]] + Prune(Step(b, cs[0]), cs[1..])
  }

  /** Duplicates have no effect: deleting them all leaves the final ledger the same. */
  lemma {:induction false} DuplicatesHaveNoEffect(b: Book, cs: seq<Command>)
    ensures Replay(b, Prune(b, cs)) == Replay(b, cs)
    decreases |cs|
  {
    if cs != [] {
      if Redundant(b, cs[0]) {
        DuplicatesHaveNoEffect(b, cs[1..]);
      } else {
        DuplicatesHaveNoEffect(Step(b, cs[0]), cs[1..]);
        assert ([cs[0]] + Prune(Step(b, cs[0]), cs[1..]))[1..] == Prune(Step(b, cs[0]), cs[1..]);
      }
    }
  }

  /** Replaying a sequence is the identity when all its transfers were processed
      and all its accounts exist. */
  lemma {:induction false} ReplayProcessed(b: Book, cs: seq<Command>)
    requires forall c | c in cs :: c.Transfer? || c.CreateAccount? ==> Redundant(b, c)
    ensures Replay(b, cs) == b
    decreases |cs|
  {
    if cs != [] {
      assert cs[0] in cs;
      ReplayProcessed(b, cs[1..]);
    }
  }

  /** The command changes the ledger: a transfer with a free id between existing
      accounts with enough money in the first, or the creation of a new account. */
  predicate HasEffect(b: Book, c: Command) {
    match c
    case Transfer(txnId, from, to, amount) =>
      txnId !in b.processed && from in b.balances && to in b.balances && b.balances[from] >= amount
    case CreateAccount(id, _) => id !in b.balances
    case NoCommand => false
    case Other(_) => false
  }

  /** A command has an effect exactly under these guards; a transfer that has one
      takes its id, one that has none leaves its id as it was. */
  lemma NoEffectIff(b: Book, c: Command)
    ensures Step(b, c) == b <==> !HasEffect(b, c)
    ensures c.Transfer? ==> (c.txnId in Step(b, c).processed <==> c.txnId in b.processed || HasEffect(b, c))
  {
    if c.Transfer? && HasEffect(b, c) {
      assert c.txnId in Step(b, c).processed;
    }
  }

  /** Delivering a sequence to a ledger leaves it as it is if and only if none of
      its commands has an effect on that ledger. */
  lemma {:induction false} NoEffectOfSequenceIff(b: Book, cs: seq<Command>)
    ensures Replay(b, cs) == b <==> forall c | c in cs :: !HasEffect(b, c)
    decreases |cs|
  {
    if cs != [] {
      NoEffectIff(b, cs[0]);
      if HasEffect(b, cs[0]) {
        ReplayGrows(Step(b, cs[0]), cs[1..]);
        assert cs[0] in cs;
      } else {
        NoEffectOfSequenceIff(b, cs[1..]);
        assert forall c :: c in cs <==> c == cs[0] || c in cs[1..];
      }
    }
  }

  lemma {:induction false} CreatedAreOpen(b: Book, cs: seq<Command>, c: Command)
    requires c in cs && c.CreateAccount?
    ensures c.accountId in Replay(b, cs).balances
    decreases |cs|
  {
    if c == cs[0] {
      ReplayGrows(Step(b, c), cs[1..]);
    } else {
      CreatedAreOpen(Step(b, cs[0]), cs[1..], c);
    }
  }

  /** The duplicates of a whole history have no effect if and only if each of its
      transfers was carried out, or still lacks an account or the money. */
  lemma SecondDeliveryIff(cs: seq<Command>)
    ensures var b := Replay(EMPTY, cs);
            Replay(b, cs) == b <==>
              forall c | c in cs && c.Transfer? ::
                c.txnId in b.processed || c.from !in b.balances || c.to !in b.balances || b.balances[c.from] < c.amount
  {
    var b := Replay(EMPTY, cs);
    NoEffectOfSequenceIff(b, cs);
    forall c | c in cs && c.CreateAccount?
      ensures !HasEffect(b, c)
    {
      CreatedAreOpen(EMPTY, cs, c);
    }
  }

  // ---- how much each command moves ----

  /** A transfer that has an effect lowers the balance of its source by exactly the
      amount and raises that of its destination by exactly the amount. No other
      balance changes, and no account comes or goes. */
  lemma TransferMoves(b: Book, c: Command)
    requires c.Transfer? && HasEffect(b, c)
    ensures var b1 := Step(b, c);
            && b1.balances.Keys == b.balances.Keys && b1.processed == b.processed + {c.txnId}
            && forall id | id in b.balances ::
                 b1.balances[id] == b.balances[id] - (if id == c.from then c.amount else 0.0) + (if id == c.to then c.amount else 0.0)
  {
  }

  /** A creation that has an effect opens one account with its initial balance. */
  lemma CreationOpens(b: Book, c: Command)
    requires c.CreateAccount? && HasEffect(b, c)
    ensures var b1 := Step(b, c);
            && b1.balances.Keys == b.balances.Keys + {c.accountId} && b1.processed == b.processed
            && b1.balances[c.accountId] == c.initialBalance
            && forall id | id in b.balances :: b1.balances[id] == b.balances[id]
  {
  }

  /** What the commands that have an effect opened account `id` with. */
  function Opened(b: Book, cs: seq<Command>, id: string): real
    decreases |cs|
  {
    if cs == [] then 0.0
    else
      var c := cs[0];
      (if c.CreateAccount? && c.accountId == id && HasEffect(b, c) then c.initialBalance else 0.0) + Opened(Step(b, c), cs[1..], id)
  }

  /** What they transferred to account `id`. */
  function Received(b: Book, cs: seq<Command>, id: string): real
    decreases |cs|
  {
    if cs == [] then 0.0
    else
      var c := cs[0];
      (if c.Transfer? && c.to == id && HasEffect(b, c) then c.amount else 0.0) + Received(Step(b, c), cs[1..], id)
  }

  /** What they transferred away from account `id`. */
  function Paid(b: Book, cs: seq<Command>, id: string): real
    decreases |cs|
  {
    if cs == [] then 0.0
    else
      var c := cs[0];
      (if c.Transfer? && c.from == id && HasEffect(b, c) then c.amount else 0.0) + Paid(Step(b, c), cs[1..], id)
  }

  function BalanceOf(b: Book, id: string): real { if id in b.balances then b.balances[id] else 0.0 }

  /** Over any command sequence every account has what it had, plus what it was
      opened with, plus what was transferred to it, minus what was transferred away;
      the accounts are the old ones and those the sequence creates. */
  lemma {:induction false} BalanceIsHistory(b: Book, cs: seq<Command>, id: string)
    ensures BalanceOf(Replay(b, cs), id) == BalanceOf(b, id) + Opened(b, cs, id) + Received(b, cs, id) - Paid(b, cs, id)
    ensures id in Replay(b, cs).balances <==> id in b.balances || exists c :: c in cs && c.CreateAccount? && c.accountId == id
    decreases |cs|
  {
    if cs != [] {
      var c := cs[0];
      NoEffectIff(b, c);
      if HasEffect(b, c) {
        match c {
          case Transfer(_, _, _, _) => TransferMoves(b, c);
          case CreateAccount(_, _) => CreationOpens(b, c);
        }
      }
      BalanceIsHistory(Step(b, c), cs[1..], id);
      assert forall d :: d in cs <==> d == c || d in cs[1..];
    }
  }

  /** What the caller is told: success if the command has an effect or the transfer
      was carried out before, and otherwise the first reason that applies. */
  lemma StatusLaw(b: Book, c: Command)
    ensures c.CreateAccount? ==> Create(b, c.accountId, c.initialBalance).1 == if HasEffect(b, c) then Ok else AlreadyExists
    ensures c.Transfer? ==>
            var status := TransferFunds(b, c.txnId, c.from, c.to, c.amount).1;
            && (status == Ok <==> HasEffect(b, c) || c.txnId in b.processed)
            && (status == SourceMissing <==> c.txnId !in b.processed && c.from !in b.balances)
            && (status == InsufficientFunds <==> c.txnId !in b.processed && c.from in b.balances && c.to in b.balances
                                                 && b.balances[c.from] < c.amount)
            && status != AlreadyExists
  {
  }

  /** The checks of the API are what keeps balances from falling below zero: one
      command keeps them there if and only if it has no effect, or opens its account
      with no less than zero, or does not overdraw the account it pays into. */
  lemma StaysNonNegativeIff(b: Book, c: Command)
    requires NonNegative(b)
    ensures NonNegative(Step(b, c)) <==>
              (HasEffect(b, c) ==>
                 && (c.CreateAccount? ==> c.initialBalance >= 0.0)
                 && (c.Transfer? && c.from != c.to ==> b.balances[c.to] + c.amount >= 0.0))
  {
    NoEffectIff(b, c);
    if HasEffect(b, c) && c.Transfer? {
      TransferMoves(b, c);
      var b1 := Step(b, c).balances;
      assert c.from in b1 && c.to in b1;
    } else if HasEffect(b, c) {
      CreationOpens(b, c);
      assert c.accountId in Step(b, c).balances;
    }
  }

  /** Of the commands that name everything they need, and move something between
      two accounts if they are transfers, the API accepts exactly those that cannot
      bring any ledger without negative balances to one with. */
  lemma ApiAcceptsIff(c: Command)
    requires c.CreateAccount? ==> c.accountId != ""
    requires c.Transfer? ==> c.txnId != "" && c.from != "" && c.to != "" && c.from != c.to && c.amount != 0.0
    ensures ApiAccepts(c) <==> forall b | NonNegative(b) :: NonNegative(Step(b, c))
  {
    if ApiAccepts(c) {
      forall b | NonNegative(b)
        ensures NonNegative(Step(b, c))
      {
        StaysNonNegativeIff(b, c);
      }
    } else {
      var b := if c.Transfer? then Book(map[c.from := 0.0, c.to := 0.0], {}) else EMPTY;
      StaysNonNegativeIff(b, c);
      assert NonNegative(b);
    }
  }

  /** `SecondDeliveryIff` speaks of something: a transfer refused for lack of funds
      may succeed when the sequence is delivered a second time. */
  lemma RetryMaySucceed()
    ensures var early := Transfer("t", "a", "b", 5.0);
            var cs := [CreateAccount("a", 1.0), CreateAccount("b", 0.0), CreateAccount("c", 9.0), early, Transfer("u", "c", "a", 9.0)];
            && "t" !in Replay(EMPTY, cs).processed
            && "t" in Replay(Replay(EMPTY, cs), cs).processed
            && Replay(Replay(EMPTY, cs), cs) != Replay(EMPTY, cs)
  {
    var early, late := Transfer("t", "a", "b", 5.0), Transfer("u", "c", "a", 9.0);
    var cs := [CreateAccount("a", 1.0), CreateAccount("b", 0.0), CreateAccount("c", 9.0), early, late];
    var start := Book(map["a" := 1.0, "b" := 0.0, "c" := 9.0], {});
    var b1 := Book(map["a" := 10.0, "b" := 0.0, "c" := 0.0], {"u"});
    var b2 := Book(map["a" := 5.0, "b" := 5.0, "c" := 0.0], {"u", "t"});
    ReplayFive(EMPTY, cs);
    assert Step(Step(Step(EMPTY, cs[0]), cs[1]), cs[2]) == start;
    assert Step(start, early) == start;
    assert Step(start, late) == b1;
    ReplayFive(b1, cs);
    assert Step(Step(Step(b1, cs[0]), cs[1]), cs[2]) == b1;
    assert Step(b1, early) == b2;
    assert Step(b2, late) == b2;
  }

  lemma ReplayFive(b: Book, cs: seq<Command>)
    requires |cs| == 5
    ensures Replay(b, cs) == Step(Step(Step(Step(Step(b, cs[0]), cs[1]), cs[2]), cs[3]), cs[4])
  {
    var t1 := cs[1..];
    var t2 := t1[1..];
    var t3 := t2[1..];
    var t4 := t3[1..];
    var b1 := Step(b, cs[0]);
    var b2 := Step(b1, t1[0]);
    var b3 := Step(b2, t2[0]);
    var b4 := Step(b3, t3[0]);
    assert Replay(b, cs) == Replay(b1, t1) == Replay(b2, t2);
    assert Replay(b2, t2) == Replay(b3, t3) == Replay(b4, t4);
    assert t4[1..] == [];
    assert Replay(b4, t4) == Step(b4, t4[0]);
  }
}
