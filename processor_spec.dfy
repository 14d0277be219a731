/**
 * The processor as a function on values: the ledger (accounts by client,
 * stored records by transaction id), one function per event handler, the
 * dispatcher `Apply`, the replay of a whole event sequence, and the lemmas
 * about them. The imperative processor is proved to follow `Apply`.
 */
module ProcessorSpec {
  import opened Ids
  import opened Accounts
  import opened Transactions

  /** The processor's two maps. */
  datatype Ledger = Ledger(
    accounts: map<ClientId, AccountState>,
    transactions: map<TxId, Record>)

  /** The state before the first event. */
  const Empty := Ledger(map[], map[])

  /** What one handler leaves behind: the client's account and the stored records. */
  datatype Effect = Effect(account: AccountState, transactions: map<TxId, Record>)

  /** The client's account, or a new one when the client has none yet. */
  function AccountOf(l: Ledger, clientId: ClientId): (s: AccountState)
    ensures s.clientId == clientId || clientId in l.accounts
    ensures clientId in l.accounts ==> s == l.accounts[clientId]
    ensures clientId !in l.accounts ==> s == NewAccount(clientId)
  {
    if clientId in l.accounts then l.accounts[clientId] else NewAccount(clientId)
  }

  /** The ledger once the client's account exists (the first step of every event). */
  function WithAccount(l: Ledger, clientId: ClientId): (r: Ledger)
    ensures r.accounts.Keys == l.accounts.Keys + {clientId}
    ensures r.accounts[clientId] == AccountOf(l, clientId)
    ensures forall c :: c in l.accounts ==> r.accounts[c] == l.accounts[c]
    ensures r.transactions == l.transactions
  {
    l.(accounts := l.accounts[clientId := AccountOf(l, clientId)])
  }

  /** Deposits and withdrawals that carry an amount are stored; nothing else is. */
  predicate IsStored(t: Record) {
    (t.kind == Deposit || t.kind == Withdrawal) && t.amount.Some?
  }

  /** A deposit credits its amount and stores the event under its id, replacing any earlier record. */
  function DepositStep(account: AccountState, t: Record, txs: map<TxId, Record>): Effect {
    match t.amount
    case Some(amount) => Effect(account.Add(amount), txs[t.txId := t])
    case None => Effect(account, txs)
  }

  /** A withdrawal debits its amount if covered, and is stored either way. */
  function WithdrawStep(account: AccountState, t: Record, txs: map<TxId, Record>): Effect {
    match t.amount
    case Some(amount) => Effect(account.Subtract(amount), txs[t.txId := t])
    case None => Effect(account, txs)
  }

  /** A dispute takes effect on a stored, undisputed record of the same client that has an amount. */
  predicate DisputeApplies(txs: map<TxId, Record>, t: Record) {
    && t.txId in txs
    && !txs[t.txId].inDispute
    && t.clientId == txs[t.txId].clientId
    && txs[t.txId].amount.Some?
  }

  /** A resolve or chargeback takes effect on a stored, disputed record of the same client that has an amount. */
  predicate SettleApplies(txs: map<TxId, Record>, t: Record) {
    && t.txId in txs
    && txs[t.txId].inDispute
    && t.clientId == txs[t.txId].clientId
    && txs[t.txId].amount.Some?
  }

  function DisputeStep(account: AccountState, t: Record, txs: map<TxId, Record>): Effect {
    if DisputeApplies(txs, t) then
      var prev := txs[t.txId];
      Effect(account.Hold(prev.amount.value), txs[t.txId := prev.(inDispute := true)])
    else
      Effect(account, txs)
  }

  function ResolveStep(account: AccountState, t: Record, txs: map<TxId, Record>): Effect {
    if SettleApplies(txs, t) then
      var prev := txs[t.txId];
      Effect(account.Release(prev.amount.value), txs[t.txId := prev.(inDispute := false)])
    else
      Effect(account, txs)
  }

  function ChargebackStep(account: AccountState, t: Record, txs: map<TxId, Record>): Effect {
    if SettleApplies(txs, t) then
      var prev := txs[t.txId];
      Effect(account.Chargeback(prev.amount.value), txs[t.txId := prev.(inDispute := false)])
    else
      Effect(account, txs)
  }

  /** The handler for the event's kind, applied to the client's account. */
  function Dispatch(account: AccountState, t: Record, txs: map<TxId, Record>): Effect {
    match t.kind
    case Deposit => DepositStep(account, t, txs)
    case Withdrawal => WithdrawStep(account, t, txs)
    case Dispute => DisputeStep(account, t, txs)
    case Resolve => ResolveStep(account, t, txs)
    case Chargeback => ChargebackStep(account, t, txs)
  }

  /** One event: create the client's account if needed, then dispatch. */
  function Apply(l: Ledger, t: Record): Ledger {
    var e := Dispatch(AccountOf(l, t.clientId), t, l.transactions);
    Ledger(l.accounts[t.clientId := e.account], e.transactions)
  }

  /**
   * Only the event's client's account can change, and the only record that
   * can appear or change is the event itself, when it is stored; a
   * dispute, resolve or chargeback changes at most the record it refers to.
   */
  lemma ApplyFrame(l: Ledger, t: Record)
    ensures Apply(l, t).accounts.Keys == l.accounts.Keys + {t.clientId}
    ensures forall c :: c in l.accounts && c != t.clientId ==> Apply(l, t).accounts[c] == l.accounts[c]
    ensures Apply(l, t).transactions.Keys == l.transactions.Keys + (if IsStored(t) then {t.txId} else {})
    ensures IsStored(t) ==> Apply(l, t).transactions[t.txId] == t
    ensures forall k :: k in l.transactions && k != t.txId ==> Apply(l, t).transactions[k] == l.transactions[k]
  {
  }

  /**
   * Applying an event is opening the client's account and then replacing it
   * and the records with what the handler returns.
   */
  lemma ApplyAfterOpen(l: Ledger, t: Record, account: AccountState, txs: map<TxId, Record>)
    requires Effect(account, txs) == Dispatch(AccountOf(l, t.clientId), t, l.transactions)
    ensures Apply(l, t) == Ledger(WithAccount(l, t.clientId).accounts[t.clientId := account], txs)
  {
  }

  /** The ledger after applying the first `n` of `events`, in order, starting from `l`. */
  function ReplayFirst(l: Ledger, events: seq<Record>, n: nat): Ledger
    requires n <= |events|
  {
    if n == 0 then l else Apply(ReplayFirst(l, events, n - 1), events[n - 1])
  }

  /** The ledger after applying all of `events`, in order, starting from `l`. */
  function Replay(l: Ledger, events: seq<Record>): Ledger {
    ReplayFirst(l, events, |events|)
  }

  /** Replaying a prefix depends only on the events of that prefix. */
  lemma {:induction false} ReplayFirstPrefix(l: Ledger, events: seq<Record>, more: seq<Record>, n: nat)
    requires n <= |events| && n <= |more|
    requires events[..n] == more[..n]
    ensures ReplayFirst(l, events, n) == ReplayFirst(l, more, n)
  {
    if n > 0 {
      assert events[..n - 1] == more[..n - 1] by {
        assert events[..n - 1] == events[..n][..n - 1];
        assert more[..n - 1] == more[..n][..n - 1];
      }
      assert events[n - 1] == events[..n][n - 1] == more[..n][n - 1] == more[n - 1];
      ReplayFirstPrefix(l, events, more, n - 1);
    }
  }

  /** Replaying one more event applies it to the replay of the others. */
  lemma ReplaySnoc(l: Ledger, events: seq<Record>, t: Record)
    ensures Replay(l, events + [t]) == Apply(Replay(l, events), t)
  {
    assert (events + [t])[..|events|] == events[..|events|];
    ReplayFirstPrefix(l, events + [t], events, |events|);
  }

  /** Every account satisfies the balance invariant and is filed under its own client id. */
  predicate AccountsValid(l: Ledger) {
    forall c :: c in l.accounts ==> l.accounts[c].Consistent() && l.accounts[c].clientId == c
  }

  /** Every stored record is filed under its own id and is a deposit or withdrawal with an amount. */
  predicate RecordsValid(l: Ledger) {
    forall k :: k in l.transactions ==> l.transactions[k].txId == k && IsStored(l.transactions[k])
  }

  predicate Valid(l: Ledger) {
    AccountsValid(l) && RecordsValid(l)
  }

  lemma ApplyPreservesValid(l: Ledger, t: Record)
    requires Valid(l)
    ensures Valid(Apply(l, t))
  {
    var account := AccountOf(l, t.clientId);
    var e := Dispatch(account, t, l.transactions);
    assert e.account.Consistent() && e.account.clientId == t.clientId by {
      match t.kind
      case Deposit =>
      case Withdrawal =>
      case Dispute =>
      case Resolve =>
      case Chargeback =>
    }
  }

  /** The ledger invariant holds after every prefix of any sequence of events. */
  lemma {:induction false} ReplayPreservesValid(l: Ledger, events: seq<Record>, n: nat)
    requires Valid(l) && n <= |events|
    ensures Valid(ReplayFirst(l, events, n))
  {
    if n > 0 {
      ReplayPreservesValid(l, events, n - 1);
      ApplyPreservesValid(ReplayFirst(l, events, n - 1), events[n - 1]);
    }
  }

  /** No event unlocks an account. */
  lemma ApplyKeepsLocks(l: Ledger, t: Record, c: ClientId)
    requires c in l.accounts && l.accounts[c].locked
    ensures c in Apply(l, t).accounts && Apply(l, t).accounts[c].locked
  {
    if c == t.clientId {
      var account := AccountOf(l, t.clientId);
      match t.kind
      case Deposit =>
      case Withdrawal =>
      case Dispute =>
      case Resolve =>
      case Chargeback =>
    }
  }

  /** Once locked, an account stays locked whatever events follow. */
  lemma {:induction false} ReplayKeepsLocks(l: Ledger, events: seq<Record>, n: nat, c: ClientId)
    requires c in l.accounts && l.accounts[c].locked && n <= |events|
    ensures c in ReplayFirst(l, events, n).accounts && ReplayFirst(l, events, n).accounts[c].locked
  {
    if n > 0 {
      ReplayKeepsLocks(l, events, n - 1, c);
      ApplyKeepsLocks(ReplayFirst(l, events, n - 1), events[n - 1], c);
    }
  }

  /** The clients of the first `n` events. */
  function Clients(events: seq<Record>, n: nat): set<ClientId>
    requires n <= |events|
  {
    set i | 0 <= i < n :: events[i].clientId
  }

  /** The ids of the first `n` events that are stored. */
  function StoredIds(events: seq<Record>, n: nat): set<TxId>
    requires n <= |events|
  {
    set i | 0 <= i < n && IsStored(events[i]) :: events[i].txId
  }

  /**
   * After replaying the first `n` events from the empty ledger there is
   * exactly one account per client among them, and exactly one record per
   * id that one of them stored.
   */
  lemma {:induction false} ReplayDomains(events: seq<Record>, n: nat)
    requires n <= |events|
    ensures ReplayFirst(Empty, events, n).accounts.Keys == Clients(events, n)
    ensures ReplayFirst(Empty, events, n).transactions.Keys == StoredIds(events, n)
  {
    if n > 0 {
      ReplayDomains(events, n - 1);
      ApplyFrame(ReplayFirst(Empty, events, n - 1), events[n - 1]);
      assert Clients(events, n) == Clients(events, n - 1) + {events[n - 1].clientId};
      assert StoredIds(events, n) == StoredIds(events, n - 1) + (if IsStored(events[n - 1]) then {events[n - 1].txId} else {});
    }
  }

  /** A deposit or withdrawal without an amount only creates the client's account. */
  lemma MissingAmountIgnored(l: Ledger, t: Record)
    requires t.kind == Deposit || t.kind == Withdrawal
    requires t.amount.None?
    ensures Apply(l, t) == WithAccount(l, t.clientId)
  {
  }

  /**
   * A deposit with an amount credits the client's available (and, on a
   * consistent account, total) funds and stores the event under its id,
   * whether or not that id was already stored.
   */
  lemma DepositEffect(l: Ledger, t: Record)
    requires t.kind == Deposit && t.amount.Some?
    ensures var before := AccountOf(l, t.clientId);
            var after := Apply(l, t).accounts[t.clientId];
            && after.available == before.available + t.amount.value
            && after.held == before.held
            && after.locked == before.locked
            && (before.Consistent() ==> after.total == before.total + t.amount.value)
    ensures Apply(l, t).transactions == l.transactions[t.txId := t]
  {
  }

  /**
   * A withdrawal with an amount debits it when the available funds cover it
   * and otherwise leaves the account as it was; the event is stored in both
   * cases, under its id.
   */
  lemma WithdrawalEffect(l: Ledger, t: Record)
    requires t.kind == Withdrawal && t.amount.Some?
    ensures var before := AccountOf(l, t.clientId);
            var after := Apply(l, t).accounts[t.clientId];
            && (t.amount.value <= before.available ==>
                  after.available == before.available - t.amount.value && after.available >= 0
                  && after.held == before.held && after.locked == before.locked
                  && (before.Consistent() ==> after.total == before.total - t.amount.value))
            && (t.amount.value > before.available ==> after == before)
    ensures Apply(l, t).transactions == l.transactions[t.txId := t]
  {
  }

  /**
   * A dispute changes the ledger beyond creating the account exactly when it
   * applies; it then moves the record's amount from available to held and
   * marks the record as in dispute. It never adds a record.
   */
  lemma DisputeEffect(l: Ledger, t: Record)
    requires t.kind == Dispute
    ensures Apply(l, t) != WithAccount(l, t.clientId) <==> DisputeApplies(l.transactions, t)
    ensures Apply(l, t).transactions.Keys == l.transactions.Keys
    ensures DisputeApplies(l.transactions, t) ==>
              var before := AccountOf(l, t.clientId);
              var after := Apply(l, t).accounts[t.clientId];
              var amount := l.transactions[t.txId].amount.value;
              && after.available == before.available - amount
              && after.held == before.held + amount
              && after.total == before.total
              && after.locked == before.locked
              && Apply(l, t).transactions[t.txId].inDispute
    ensures DisputeApplies(l.transactions, t) ==>
              var prev := l.transactions[t.txId];
              && Apply(l, t).accounts[t.clientId] == AccountOf(l, t.clientId).Hold(prev.amount.value)
              && Apply(l, t).transactions == l.transactions[t.txId := prev.(inDispute := true)]
  {
    if DisputeApplies(l.transactions, t) {
      var r := Apply(l, t);
      assert r.transactions[t.txId].inDispute != l.transactions[t.txId].inDispute;
    }
  }

  /**
   * A resolve changes the ledger beyond creating the account exactly when it
   * applies; it then moves the record's amount from held back to available
   * and clears the record's dispute flag. It never adds a record.
   */
  lemma ResolveEffect(l: Ledger, t: Record)
    requires t.kind == Resolve
    ensures Apply(l, t) != WithAccount(l, t.clientId) <==> SettleApplies(l.transactions, t)
    ensures Apply(l, t).transactions.Keys == l.transactions.Keys
    ensures SettleApplies(l.transactions, t) ==>
              var before := AccountOf(l, t.clientId);
              var after := Apply(l, t).accounts[t.clientId];
              var amount := l.transactions[t.txId].amount.value;
              && after.available == before.available + amount
              && after.held == before.held - amount
              && after.total == before.total
              && after.locked == before.locked
              && !Apply(l, t).transactions[t.txId].inDispute
    ensures SettleApplies(l.transactions, t) ==>
              var prev := l.transactions[t.txId];
              && Apply(l, t).accounts[t.clientId] == AccountOf(l, t.clientId).Release(prev.amount.value)
              && Apply(l, t).transactions == l.transactions[t.txId := prev.(inDispute := false)]
  {
    if SettleApplies(l.transactions, t) {
      var r := Apply(l, t);
      assert r.transactions[t.txId].inDispute != l.transactions[t.txId].inDispute;
    }
  }

  /**
   * A chargeback changes the ledger beyond creating the account exactly when
   * it applies; it then removes the record's amount from held, locks the
   * account and clears the record's dispute flag. It never adds a record.
   */
  lemma ChargebackEffect(l: Ledger, t: Record)
    requires t.kind == Chargeback
    ensures Apply(l, t) != WithAccount(l, t.clientId) <==> SettleApplies(l.transactions, t)
    ensures Apply(l, t).transactions.Keys == l.transactions.Keys
    ensures SettleApplies(l.transactions, t) ==>
              var before := AccountOf(l, t.clientId);
              var after := Apply(l, t).accounts[t.clientId];
              var amount := l.transactions[t.txId].amount.value;
              && after.available == before.available
              && after.held == before.held - amount
              && after.locked
              && after.Consistent()
              && !Apply(l, t).transactions[t.txId].inDispute
    ensures SettleApplies(l.transactions, t) ==>
              var prev := l.transactions[t.txId];
              && Apply(l, t).accounts[t.clientId] == AccountOf(l, t.clientId).Chargeback(prev.amount.value)
              && Apply(l, t).transactions == l.transactions[t.txId := prev.(inDispute := false)]
  {
    if SettleApplies(l.transactions, t) {
      var r := Apply(l, t);
      assert r.transactions[t.txId].inDispute != l.transactions[t.txId].inDispute;
    }
  }

  /**
   * A dispute that applies, followed by the same client's resolve of the
   * same record, restores the ledger to what it was before the dispute,
   * apart from opening the client's account.
   */
  lemma DisputeResolveRoundTrip(l: Ledger, d: Record, r: Record)
    requires d.kind == Dispute && DisputeApplies(l.transactions, d)
    requires r.kind == Resolve && r.clientId == d.clientId && r.txId == d.txId
    ensures Apply(Apply(l, d), r) == WithAccount(l, d.clientId)
  {
    var prev := l.transactions[d.txId];
    DisputeEffect(l, d);
    var m := Apply(l, d);
    assert SettleApplies(m.transactions, r);
    ResolveEffect(m, r);
    HoldReleaseInverse(AccountOf(l, d.clientId), prev.amount.value);
    assert l.transactions[d.txId := prev.(inDispute := true)][d.txId := prev] == l.transactions;
  }
}
