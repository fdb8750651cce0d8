/** The ledger with its accounts as heap objects, and the applier that feeds it
    committed commands. */
module LedgerObjects {
  import opened RaftTypes
  import opened LedgerSpec

  datatype Option<T> = None | Some(value: T)

  class Account {
    const id: string
    var balance: real

    constructor (id: string, balance: real)
      ensures this.id == id && this.balance == balance
    {
      this.id := id;
      this.balance := balance;
    }
  }

  class Ledger {
    var accounts: map<string, Account>
    var processedTxns: map<string, bool>

    /** Each account is stored under its own id, so no two ids share an object. */
    ghost predicate Valid()
      reads this
    {
      forall id | id in accounts :: accounts[id].id == id
    }

    /** The ledger as a value. */
    ghost function View(): Book
      reads this, accounts.Values
    {
      Book(map id | id in accounts :: accounts[id].balance,
           set t | t in processedTxns && processedTxns[t])
    }

    constructor ()
      ensures Valid() && View() == EMPTY && accounts == map[]
    {
      accounts := map[];
      processedTxns := map[];
    }

    method CreateAccount(id: string, initialBalance: real) returns (status: Status)
      requires Valid()
      modifies this
      ensures Valid() && (View(), status) == Create(old(View()), id, initialBalance)
      ensures fresh(accounts.Values - old(accounts.Values))
    {
      if id in accounts {
        return AlreadyExists;
      }
      var account := new Account(id, initialBalance);
      accounts := accounts[id := account];
      status := Ok;
      assert View().balances == old(View()).balances[id := initialBalance];
    }

    method GetBalance(id: string) returns (balance: Option<real>)
      requires Valid()
      ensures balance == if id in View().balances then Some(View().balances[id]) else None
    {
      if id !in accounts {
        return None;
      }
      balance := Some(accounts[id].balance);
    }

    method Transfer(txnId: string, from: string, to: string, amount: real) returns (status: Status)
      requires Valid()
      modifies this, accounts.Values
      ensures Valid() && accounts == old(accounts)
      ensures (View(), status) == TransferFunds(old(View()), txnId, from, to, amount)
    {
      if txnId in processedTxns && processedTxns[txnId] {
        return Ok;
      }
      if from !in accounts {
        return SourceMissing;
      }
      if to !in accounts {
        return DestinationMissing;
      }
      var fromAccount, toAccount := accounts[from], accounts[to];
      if fromAccount.balance < amount {
        return InsufficientFunds;
      }
      fromAccount.balance := fromAccount.balance - amount;
      toAccount.balance := toAccount.balance + amount;
      processedTxns := processedTxns[txnId := true];
      status := Ok;
      assert View().balances == Move(old(View()).balances, from, to, amount);
      assert View().processed == old(View()).processed + {txnId};
    }

    /** A copy of all balances. */
    method GetAllAccounts() returns (result: map<string, real>)
      requires Valid()
      ensures result == View().balances
    {
      result := map[];
      var todo := accounts.Keys;
      while todo != {}
        invariant todo <= accounts.Keys
        invariant result == map id | id in accounts && id !in todo :: accounts[id].balance
        decreases todo
      {
        var id :| id in todo;
        result := result[id := accounts[id].balance];
        todo := todo - {id};
      }
    }
  }

  /** What the messages received do to a ledger value. */
  function Drain(b: Book, msgs: seq<ApplyMsg>): Book
    decreases |msgs|
  {
    if msgs == [] then b
    else
      var last := |msgs| - 1;
      var b1 := Drain(b, msgs[..last]);
      if msgs[last].valid then LedgerSpec.Step(b1, msgs[last].command) else b1
  }

  class RaftLedger {
    const ledger: Ledger

    constructor ()
      ensures fresh(ledger) && ledger.Valid() && ledger.View() == EMPTY && fresh(ledger.accounts.Values)
    {
      ledger := new Ledger();
    }

    /** The receive loop, on the messages taken from the channel in order. */
    method Applier(msgs: seq<ApplyMsg>)
      requires ledger.Valid()
      modifies ledger, ledger.accounts.Values
      ensures ledger.Valid() && ledger.View() == Drain(old(ledger.View()), msgs)
      ensures fresh(ledger.accounts.Values - old(ledger.accounts.Values))
    {
      var k := 0;
      while k < |msgs|
        invariant 0 <= k <= |msgs|
        invariant ledger.Valid() && ledger.View() == Drain(old(ledger.View()), msgs[..k])
        invariant fresh(ledger.accounts.Values - old(ledger.accounts.Values))
      {
        var msg := msgs[k];
        assert msgs[..k + 1][..k] == msgs[..k];
        k := k + 1;
        if !msg.valid {
          continue;
        }
        match msg.command {
          case Transfer(txnId, from, to, amount) => var _ := ledger.Transfer(txnId, from, to, amount);
          case CreateAccount(id, initial) => var _ := ledger.CreateAccount(id, initial);
          case NoCommand =>
          case Other(_) =>
        }
      }
      assert msgs[..k] == msgs;
    }
  }
}
