/**
 * The processor as the source runs it: two maps that are updated in place,
 * one account object per client and one transaction object per stored id.
 * Every method is proved to act on the abstract ledger exactly as the
 * corresponding function of ProcessorSpec does.
 */
module TransactionProcessor {
  import opened Ids
  import opened Accounts
  import opened Transactions
  import opened ProcessorSpec

  class Processor {
    var accounts: map<ClientId, Account>
    var transactions: map<TxId, Transaction>

    /**
     * Each account is filed under its own client id and each stored
     * transaction under its own id; so distinct keys hold distinct objects.
     */
    ghost predicate Valid()
      reads this
    {
      && (forall c :: c in accounts ==> accounts[c].clientId == c)
      && (forall k :: k in transactions ==> transactions[k].txId == k)
    }

    function Balances(): map<ClientId, AccountState>
      reads this, accounts.Values
    {
      map c | c in accounts :: accounts[c].State()
    }

    function Records(): map<TxId, Record>
      reads this, transactions.Values
    {
      map k | k in transactions :: transactions[k].State()
    }

    /** The ledger the two maps hold now. */
    function State(): Ledger
      reads this, accounts.Values, transactions.Values
    {
      Ledger(Balances(), Records())
    }

    constructor ()
      ensures Valid() && State() == Empty
      ensures accounts == map[] && transactions == map[]
    {
      accounts := map[];
      transactions := map[];
    }

    /**
     * Returns the client's account, creating an empty one first when the
     * client has none yet.
     */
    method OpenAccount(clientId: ClientId) returns (account: Account)
      requires Valid()
      modifies this
      ensures Valid() && transactions == old(transactions)
      ensures clientId in accounts && account == accounts[clientId]
      ensures accounts.Values - old(accounts.Values) <= {account}
      ensures fresh(accounts.Values - old(accounts.Values))
      ensures account.State() == AccountOf(old(State()), clientId)
      ensures State() == WithAccount(old(State()), clientId)
    {
      if clientId !in accounts {
        ghost var balances := Balances();
        account := new Account(clientId);
        accounts := accounts[clientId := account];
        assert Balances() == balances[clientId := NewAccount(clientId)] by {
          forall c | c in accounts
            ensures Balances()[c] == balances[clientId := NewAccount(clientId)][c]
          {
          }
        }
      } else {
        account := accounts[clientId];
        assert Balances()[clientId := account.State()] == Balances();
      }
    }

    /**
     * Applies one event: the client's account is created if it does not
     * exist yet, then the handler for the event's kind runs.
     */
    method ProcessTransaction(t: Transaction)
      requires Valid()
      modifies this, accounts.Values, transactions.Values
      ensures Valid()
      ensures State() == Apply(old(State()), old(t.State()))
      ensures fresh(accounts.Values - old(accounts.Values))
      ensures transactions.Values <= old(transactions.Values) + {t}
    {
      ghost var before := State();
      ghost var event := t.State();
      var account := OpenAccount(t.clientId);
      ghost var balances := Balances();
      RunHandler(account, t);
      ApplyAfterOpen(before, event, account.State(), Records());
    }

    /** Runs the handler for the event's kind on the client's account. */
    method RunHandler(account: Account, t: Transaction)
      requires Valid() && t.clientId in accounts && account == accounts[t.clientId]
      modifies this, account, transactions.Values
      ensures Valid() && accounts == old(accounts)
      ensures transactions.Values <= old(transactions.Values) + {t}
      ensures Effect(account.State(), Records()) == Dispatch(old(account.State()), old(t.State()), old(Records()))
      ensures Balances() == old(Balances())[t.clientId := account.State()]
    {
      ghost var balances := Balances();
      assert forall c :: c in accounts && c != t.clientId ==> accounts[c] != account;
      match t.kind {
        case Deposit => ProcessDeposit(account, t);
        case Withdrawal => ProcessWithdraw(account, t);
        case Dispute => ProcessDispute(account, t);
        case Resolve => ProcessResolve(account, t);
        case Chargeback => ProcessChargeback(account, t);
      }
      assert Balances() == balances[t.clientId := account.State()] by {
        forall c | c in accounts
          ensures Balances()[c] == balances[t.clientId := account.State()][c]
        {
        }
      }
    }

    /** Credits a deposit's amount and stores it; an event without an amount is ignored. */
    method ProcessDeposit(account: Account, t: Transaction)
      requires Valid()
      modifies this, account
      ensures Valid() && accounts == old(accounts)
      ensures transactions.Values <= old(transactions.Values) + {t}
      ensures Effect(account.State(), Records()) == DepositStep(old(account.State()), old(t.State()), old(Records()))
    {
      match t.amount
      case Some(amount) =>
        ghost var records := Records();
        account.Add(amount);
        transactions := transactions[t.txId := t];
        assert Records() == records[t.txId := t.State()] by {
          forall k | k in transactions
            ensures Records()[k] == records[t.txId := t.State()][k]
          {
          }
        }
      case None =>
    }

    /** Debits a withdrawal's amount when covered and stores the withdrawal either way. */
    method ProcessWithdraw(account: Account, t: Transaction)
      requires Valid()
      modifies this, account
      ensures Valid() && accounts == old(accounts)
      ensures transactions.Values <= old(transactions.Values) + {t}
      ensures Effect(account.State(), Records()) == WithdrawStep(old(account.State()), old(t.State()), old(Records()))
    {
      match t.amount
      case Some(amount) =>
        ghost var records := Records();
        account.Subtract(amount);
        transactions := transactions[t.txId := t];
        assert Records() == records[t.txId := t.State()] by {
          forall k | k in transactions
            ensures Records()[k] == records[t.txId := t.State()][k]
          {
          }
        }
      case None =>
    }

    /** Holds the amount of the referenced record and marks it as in dispute, when the dispute applies. */
    method ProcessDispute(account: Account, t: Transaction)
      requires Valid()
      modifies account, transactions.Values
      ensures Effect(account.State(), Records()) == DisputeStep(old(account.State()), old(t.State()), old(Records()))
    {
      if t.txId in transactions {
        var prev := transactions[t.txId];
        if !prev.inDispute && t.clientId == prev.clientId {
          match prev.amount
          case Some(amount) =>
            account.Hold(amount);
            prev.SetDispute(true);
          case None =>
        }
      }
    }

    /** Releases the amount of the referenced record and clears its dispute flag, when the resolve applies. */
    method ProcessResolve(account: Account, t: Transaction)
      requires Valid()
      modifies account, transactions.Values
      ensures Effect(account.State(), Records()) == ResolveStep(old(account.State()), old(t.State()), old(Records()))
    {
      if t.txId in transactions {
        var prev := transactions[t.txId];
        if prev.inDispute && t.clientId == prev.clientId {
          match prev.amount
          case Some(amount) =>
            account.Release(amount);
            prev.SetDispute(false);
          case None =>
        }
      }
    }

    /** Charges back the amount of the referenced record and clears its dispute flag, when the chargeback applies. */
    method ProcessChargeback(account: Account, t: Transaction)
      requires Valid()
      modifies account, transactions.Values
      ensures Effect(account.State(), Records()) == ChargebackStep(old(account.State()), old(t.State()), old(Records()))
    {
      if t.txId in transactions {
        var prev := transactions[t.txId];
        if prev.inDispute && t.clientId == prev.clientId {
          match prev.amount
          case Some(amount) =>
            account.Chargeback(amount);
            prev.SetDispute(false);
          case None =>
        }
      }
    }
  }

  /** The values the given transaction objects hold now, in order. */
  function States(input: seq<Transaction>): (r: seq<Record>)
    reads set t | t in input
    ensures |r| == |input|
    ensures forall j :: 0 <= j < |input| ==> r[j] == input[j].State()
  {
    if input == [] then [] else States(input[..|input| - 1]) + [input[|input| - 1].State()]
  }

  /**
   * Feeds the events to a new processor one by one, in order, and returns it:
   * its ledger is the replay of the events from the empty ledger. The
   * events are distinct objects, as values moved out of a vector are.
   */
  method RunProcessTransaction(input: seq<Transaction>) returns (p: Processor)
    requires forall i, j :: 0 <= i < j < |input| ==> input[i] != input[j]
    modifies set t | t in input
    ensures fresh(p) && p.Valid()
    ensures p.State() == Replay(Empty, old(States(input)))
  {
    ghost var events := States(input);
    p := new Processor();
    var i := 0;
    while i < |input|
      invariant 0 <= i <= |input|
      invariant fresh(p) && p.Valid()
      invariant fresh(p.accounts.Values)
      invariant forall t :: t in p.transactions.Values ==> t in input[..i]
      invariant forall j :: i <= j < |input| ==> input[j].State() == events[j]
      invariant p.State() == ReplayFirst(Empty, events, i)
    {
      p.ProcessTransaction(input[i]);
      i := i + 1;
    }
  }
}
