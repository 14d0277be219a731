/**
 * The per-client account of the ledger: its balances, the guarded updates
 * the processor applies to it, and the facts those updates keep.
 *
 * `AccountState` is the value an account holds at one moment; each mutator of
 * the `Account` class is specified by the function of the same name on
 * `AccountState`, and the lemmas state what those functions preserve.
 */
module Accounts {
  import opened Ids

  /** The balances of one account, as the output reports them. */
  datatype AccountState = AccountState(
    clientId: ClientId,
    available: Amount,
    held: Amount,
    total: Amount,
    locked: bool)
  {
    /** The balance invariant: `total` is the sum of the other two balances. */
    predicate Consistent() {
      total == available + held
    }

    /** Recomputes `total` from `available` and `held`. */
    function UpdateTotal(): (r: AccountState)
      ensures r.total == r.available + r.held
      ensures r.available == available && r.held == held
      ensures r.locked == locked && r.clientId == clientId
      ensures Consistent() ==> r == this
    {
      this.(total := available + held)
    }

    /** Credits `amount` to the available funds. */
    function Add(amount: Amount): (r: AccountState)
      ensures r.available == available + amount
      ensures r.held == held && r.locked == locked && r.clientId == clientId
      ensures r.total == r.available + r.held
      ensures Consistent() ==> r.total == total + amount
    {
      this.(available := available + amount).UpdateTotal()
    }

    /**
     * Debits `amount` from the available funds when they cover it; otherwise
     * the account is left exactly as it was.
     */
    function Subtract(amount: Amount): (r: AccountState)
      ensures amount <= available ==>
        && r.available == available - amount
        && r.available >= 0
        && r.held == held && r.locked == locked && r.clientId == clientId
        && r.total == r.available + r.held
      ensures amount > available ==> r == this
    {
      if amount <= available then
        this.(available := available - amount).UpdateTotal()
      else
        this
    }

    /**
     * Moves `amount` from the available funds to the held funds. The total is
     * not recomputed; with exact amounts it does not need to be.
     */
    function Hold(amount: Amount): (r: AccountState)
      ensures r.available == available - amount && r.held == held + amount
      ensures r.total == total && r.locked == locked && r.clientId == clientId
      ensures r.available + r.held == available + held
    {
      this.(available := available - amount, held := held + amount)
    }

    /** Moves `amount` back from the held funds to the available funds. */
    function Release(amount: Amount): (r: AccountState)
      ensures r.available == available + amount && r.held == held - amount
      ensures r.total == total && r.locked == locked && r.clientId == clientId
      ensures r.available + r.held == available + held
    {
      this.(held := held - amount, available := available + amount)
    }

    /** Removes `amount` from the held funds and locks the account for good. */
    function Chargeback(amount: Amount): (r: AccountState)
      ensures r.held == held - amount && r.available == available
      ensures r.locked && r.clientId == clientId
      ensures r.total == r.available + r.held
      ensures Consistent() ==> r.total == total - amount
    {
      this.(held := held - amount, locked := true).UpdateTotal()
    }
  }

  /** A freshly created account: every balance zero, not locked. */
  function NewAccount(clientId: ClientId): (s: AccountState)
    ensures s.clientId == clientId
    ensures s.total == 0 && !s.locked
    ensures s.available == 0 && s.held == 0
  {
    AccountState(clientId, 0, 0, 0, false)
  }

  /** The five mutators the processor applies to an account. */
  datatype Op = AddOp | SubtractOp | HoldOp | ReleaseOp | ChargebackOp

  /** The state after applying `op` with `amount`. */
  function ApplyOp(s: AccountState, op: Op, amount: Amount): AccountState {
    match op
    case AddOp => s.Add(amount)
    case SubtractOp => s.Subtract(amount)
    case HoldOp => s.Hold(amount)
    case ReleaseOp => s.Release(amount)
    case ChargebackOp => s.Chargeback(amount)
  }

  /** The state after applying a whole sequence of mutators, in order. */
  function ApplyOps(s: AccountState, ops: seq<(Op, Amount)>): AccountState
    decreases |ops|
  {
    if ops == [] then s else ApplyOps(ApplyOp(s, ops[0].0, ops[0].1), ops[1..])
  }

  /** Every mutator keeps the balance invariant. */
  lemma OpPreservesConsistency(s: AccountState, op: Op, amount: Amount)
    requires s.Consistent()
    ensures ApplyOp(s, op, amount).Consistent()
  {
    match op
    case AddOp =>
    case SubtractOp =>
    case HoldOp =>
    case ReleaseOp =>
    case ChargebackOp =>
  }

  /**
   * Any sequence of mutators, from any state, never clears the lock and
   * never changes the client id.
   */
  lemma {:induction false} OpsKeepLockAndClient(s: AccountState, ops: seq<(Op, Amount)>)
    ensures s.locked ==> ApplyOps(s, ops).locked
    ensures ApplyOps(s, ops).clientId == s.clientId
    decreases |ops|
  {
    if ops != [] {
      var next := ApplyOp(s, ops[0].0, ops[0].1);
      assert s.locked ==> next.locked by {
        match ops[0].0
        case AddOp =>
        case SubtractOp =>
        case HoldOp =>
        case ReleaseOp =>
        case ChargebackOp =>
      }
      OpsKeepLockAndClient(next, ops[1..]);
    }
  }

  /**
   * Any sequence of mutators keeps the balance invariant, never clears the
   * lock and never changes the client id.
   */
  lemma {:induction false} OpsPreserveInvariants(s: AccountState, ops: seq<(Op, Amount)>)
    requires s.Consistent()
    ensures ApplyOps(s, ops).Consistent()
    ensures s.locked ==> ApplyOps(s, ops).locked
    ensures ApplyOps(s, ops).clientId == s.clientId
    decreases |ops|
  {
    OpsKeepLockAndClient(s, ops);
    if ops != [] {
      OpPreservesConsistency(s, ops[0].0, ops[0].1);
      OpsPreserveInvariants(ApplyOp(s, ops[0].0, ops[0].1), ops[1..]);
    }
  }

  /** Releasing what was just held restores the account exactly, and conversely. */
  lemma HoldReleaseInverse(s: AccountState, amount: Amount)
    ensures s.Hold(amount).Release(amount) == s
    ensures s.Release(amount).Hold(amount) == s
  {
  }

  /**
   * An account whose balances are exact, in place: the fields the source
   * mutates through `&mut self`. Every method is specified by the
   * `AccountState` function of the same name.
   */
  class Account {
    const clientId: ClientId
    var available: Amount
    var held: Amount
    var total: Amount
    var locked: bool

    /** The value this account holds now. */
    function State(): AccountState
      reads this
    {
      AccountState(clientId, available, held, total, locked)
    }

    constructor (clientId: ClientId)
      ensures State() == NewAccount(clientId)
    {
      this.clientId := clientId;
      available := 0;
      held := 0;
      total := 0;
      locked := false;
    }

    method UpdateTotal()
      modifies this
      ensures State() == old(State()).UpdateTotal()
    {
      total := available + held;
    }

    method Add(amount: Amount)
      modifies this
      ensures State() == old(State()).Add(amount)
    {
      available := available + amount;
      UpdateTotal();
    }

    method Subtract(amount: Amount)
      modifies this
      ensures State() == old(State()).Subtract(amount)
    {
      if amount <= available {
        available := available - amount;
        UpdateTotal();
      }
    }

    method Hold(amount: Amount)
      modifies this
      ensures State() == old(State()).Hold(amount)
    {
      available := available - amount;
      held := held + amount;
    }

    method Release(amount: Amount)
      modifies this
      ensures State() == old(State()).Release(amount)
    {
      held := held - amount;
      available := available + amount;
    }

    method Chargeback(amount: Amount)
      modifies this
      ensures State() == old(State()).Chargeback(amount)
    {
      held := held - amount;
      locked := true;
      UpdateTotal();
    }
  }
}
