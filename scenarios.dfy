/**
 * Event sequences and the ledger they leave behind: the two unit tests of
 * the processor, and sequences that show how it treats repeated ids,
 * refused withdrawals, foreign disputes and records that were already
 * charged back. Client ids and amounts are left symbolic, so each lemma
 * covers every run of the same shape, the tests' own values included.
 */
module Scenarios {
  import opened Ids
  import opened Accounts
  import opened Transactions
  import opened ProcessorSpec

  /** Client `c` has an account in `l`, and it is `s`. */
  predicate HasAccount(l: Ledger, c: ClientId, s: AccountState) {
    c in l.accounts && l.accounts[c] == s
  }

  /** A record is stored under `k` in `l`, and it is `r`. */
  predicate Stored(l: Ledger, k: TxId, r: Record) {
    k in l.transactions && l.transactions[k] == r
  }

  // One lemma per handler, stated on the client's account and the referenced
  // record only, so that the scenarios below can chain them cheaply.

  lemma Credited(l: Ledger, t: Record)
    requires t.kind == Deposit && t.amount.Some?
    ensures HasAccount(Apply(l, t), t.clientId, AccountOf(l, t.clientId).Add(t.amount.value))
    ensures Stored(Apply(l, t), t.txId, t)
  {
  }

  lemma Debited(l: Ledger, t: Record)
    requires t.kind == Withdrawal && t.amount.Some?
    ensures HasAccount(Apply(l, t), t.clientId, AccountOf(l, t.clientId).Subtract(t.amount.value))
    ensures Stored(Apply(l, t), t.txId, t)
  {
  }

  lemma Disputed(l: Ledger, t: Record)
    requires t.kind == Dispute && DisputeApplies(l.transactions, t)
    ensures var prev := l.transactions[t.txId];
            && HasAccount(Apply(l, t), t.clientId, AccountOf(l, t.clientId).Hold(prev.amount.value))
            && Stored(Apply(l, t), t.txId, prev.(inDispute := true))
  {
  }

  lemma Resolved(l: Ledger, t: Record)
    requires t.kind == Resolve && SettleApplies(l.transactions, t)
    ensures var prev := l.transactions[t.txId];
            && HasAccount(Apply(l, t), t.clientId, AccountOf(l, t.clientId).Release(prev.amount.value))
            && Stored(Apply(l, t), t.txId, prev.(inDispute := false))
  {
  }

  lemma ChargedBack(l: Ledger, t: Record)
    requires t.kind == Chargeback && SettleApplies(l.transactions, t)
    ensures var prev := l.transactions[t.txId];
            && HasAccount(Apply(l, t), t.clientId, AccountOf(l, t.clientId).Chargeback(prev.amount.value))
            && Stored(Apply(l, t), t.txId, prev.(inDispute := false))
  {
  }

  /** Another client's account is left alone. */
  lemma OtherAccount(l: Ledger, t: Record, c: ClientId, s: AccountState)
    requires c != t.clientId && HasAccount(l, c, s)
    ensures HasAccount(Apply(l, t), c, s)
  {
    ApplyFrame(l, t);
  }

  /** A record under another id is left alone. */
  lemma OtherRecord(l: Ledger, t: Record, k: TxId, r: Record)
    requires k != t.txId && Stored(l, k, r)
    ensures Stored(Apply(l, t), k, r)
  {
    ApplyFrame(l, t);
  }

  /** A client without an account still has none after another client's event. */
  lemma StillAbsent(l: Ledger, t: Record, c: ClientId)
    requires c != t.clientId && c !in l.accounts
    ensures c !in Apply(l, t).accounts
  {
    ApplyFrame(l, t);
  }

  /** A dispute, resolve or chargeback that does not apply only opens the client's account. */
  lemma Unmatched(l: Ledger, t: Record)
    requires || (t.kind == Dispute && !DisputeApplies(l.transactions, t))
             || (t.kind == Resolve && !SettleApplies(l.transactions, t))
             || (t.kind == Chargeback && !SettleApplies(l.transactions, t))
    ensures Apply(l, t) == WithAccount(l, t.clientId)
  {
  }

  /** The key sets grow by the event's client and, when it is stored, by its id. */
  lemma Keys(l: Ledger, t: Record)
    ensures Apply(l, t).accounts.Keys == l.accounts.Keys + {t.clientId}
    ensures Apply(l, t).transactions.Keys == l.transactions.Keys + (if IsStored(t) then {t.txId} else {})
  {
    ApplyFrame(l, t);
  }

  // The first unit test: deposits of 1.0, 2.0 and 2.0, then withdrawals of
  // 1.5 and 3.0. The covered withdrawal is debited; the uncovered one is
  // refused but still stored, so there are two accounts and five records.

  /** The accounts and records that exist after the first unit test's events. */
  lemma DepositWithdrawKeys(events: seq<Record>, c1: ClientId, c2: ClientId,
                            a1: Amount, a2: Amount, a3: Amount, w1: Amount, w2: Amount)
    requires |events| == 5
    requires events[0] == NewRecord(Deposit, c1, 1, Some(a1))
    requires events[1] == NewRecord(Deposit, c2, 2, Some(a2))
    requires events[2] == NewRecord(Deposit, c1, 3, Some(a3))
    requires events[3] == NewRecord(Withdrawal, c1, 4, Some(w1))
    requires events[4] == NewRecord(Withdrawal, c2, 5, Some(w2))
    ensures Replay(Empty, events).accounts.Keys == {c1, c2}
    ensures Replay(Empty, events).transactions.Keys == {1, 2, 3, 4, 5}
  {
    var l0 := ReplayFirst(Empty, events, 0);
    var l1 := ReplayFirst(Empty, events, 1);
    var l2 := ReplayFirst(Empty, events, 2);
    var l3 := ReplayFirst(Empty, events, 3);
    var l4 := ReplayFirst(Empty, events, 4);
    var l5 := ReplayFirst(Empty, events, 5);
    assert l1 == Apply(l0, events[0]);
    assert l2 == Apply(l1, events[1]);
    assert l3 == Apply(l2, events[2]);
    assert l4 == Apply(l3, events[3]);
    assert l5 == Apply(l4, events[4]);
    Keys(l0, events[0]);
    Keys(l1, events[1]);
    assert l2.accounts.Keys == {c1, c2} && l2.transactions.Keys == {1, 2};
    Keys(l2, events[2]);
    Keys(l3, events[3]);
    Keys(l4, events[4]);
  }

  /** The balances after the first unit test's events. */
  lemma DepositWithdrawBalances(events: seq<Record>, c1: ClientId, c2: ClientId,
                                a1: Amount, a2: Amount, a3: Amount, w1: Amount, w2: Amount)
    requires c1 != c2 && w1 <= a1 + a3 && a2 < w2
    requires |events| == 5
    requires events[0] == NewRecord(Deposit, c1, 1, Some(a1))
    requires events[1] == NewRecord(Deposit, c2, 2, Some(a2))
    requires events[2] == NewRecord(Deposit, c1, 3, Some(a3))
    requires events[3] == NewRecord(Withdrawal, c1, 4, Some(w1))
    requires events[4] == NewRecord(Withdrawal, c2, 5, Some(w2))
    ensures HasAccount(Replay(Empty, events), c1, AccountState(c1, a1 + a3 - w1, 0, a1 + a3 - w1, false))
    ensures HasAccount(Replay(Empty, events), c2, AccountState(c2, a2, 0, a2, false))
  {
    var l0 := ReplayFirst(Empty, events, 0);
    var l1 := ReplayFirst(Empty, events, 1);
    var l2 := ReplayFirst(Empty, events, 2);
    var l3 := ReplayFirst(Empty, events, 3);
    var l4 := ReplayFirst(Empty, events, 4);
    var l5 := ReplayFirst(Empty, events, 5);
    assert l1 == Apply(l0, events[0]);
    assert l2 == Apply(l1, events[1]);
    assert l3 == Apply(l2, events[2]);
    assert l4 == Apply(l3, events[3]);
    assert l5 == Apply(l4, events[4]);
    Credited(l0, events[0]);
    var s1 := NewAccount(c1).Add(a1);
    StillAbsent(l0, events[0], c2);
    Credited(l1, events[1]);
    OtherAccount(l1, events[1], c1, s1);
    var s2 := NewAccount(c2).Add(a2);
    Credited(l2, events[2]);
    OtherAccount(l2, events[2], c2, s2);
    var s3 := s1.Add(a3);
    Debited(l3, events[3]);
    OtherAccount(l3, events[3], c2, s2);
    var s4 := s3.Subtract(w1);
    Debited(l4, events[4]);
    OtherAccount(l4, events[4], c1, s4);
  }

  /**
   * The first unit test, for any two distinct clients and any amounts where
   * the first client's withdrawal is covered and the second's is not.
   */
  lemma DepositWithdrawScenario(events: seq<Record>, c1: ClientId, c2: ClientId,
                                a1: Amount, a2: Amount, a3: Amount, w1: Amount, w2: Amount)
    requires c1 != c2 && w1 <= a1 + a3 && a2 < w2
    requires |events| == 5
    requires events[0] == NewRecord(Deposit, c1, 1, Some(a1))
    requires events[1] == NewRecord(Deposit, c2, 2, Some(a2))
    requires events[2] == NewRecord(Deposit, c1, 3, Some(a3))
    requires events[3] == NewRecord(Withdrawal, c1, 4, Some(w1))
    requires events[4] == NewRecord(Withdrawal, c2, 5, Some(w2))
    ensures Replay(Empty, events).accounts.Keys == {c1, c2}
    ensures Replay(Empty, events).transactions.Keys == {1, 2, 3, 4, 5}
    ensures HasAccount(Replay(Empty, events), c1, AccountState(c1, a1 + a3 - w1, 0, a1 + a3 - w1, false))
    ensures HasAccount(Replay(Empty, events), c2, AccountState(c2, a2, 0, a2, false))
    ensures |Replay(Empty, events).accounts| == 2 && |Replay(Empty, events).transactions| == 5
  {
    DepositWithdrawKeys(events, c1, c2, a1, a2, a3, w1, w2);
    DepositWithdrawBalances(events, c1, c2, a1, a2, a3, w1, w2);
  }

  // The second unit test: the first client's deposit is disputed and
  // resolved, the second client's is disputed and charged back.

  /** The accounts and records that exist after the second unit test's events. */
  lemma DisputeSettleKeys(events: seq<Record>, c1: ClientId, c2: ClientId, d1: Amount, d2: Amount)
    requires |events| == 6
    requires events[0] == NewRecord(Deposit, c1, 1, Some(d1))
    requires events[1] == NewRecord(Dispute, c1, 1, None)
    requires events[2] == NewRecord(Resolve, c1, 1, None)
    requires events[3] == NewRecord(Deposit, c2, 2, Some(d2))
    requires events[4] == NewRecord(Dispute, c2, 2, None)
    requires events[5] == NewRecord(Chargeback, c2, 2, None)
    ensures Replay(Empty, events).accounts.Keys == {c1, c2}
    ensures Replay(Empty, events).transactions.Keys == {1, 2}
  {
    var l0 := ReplayFirst(Empty, events, 0);
    var l1 := ReplayFirst(Empty, events, 1);
    var l2 := ReplayFirst(Empty, events, 2);
    var l3 := ReplayFirst(Empty, events, 3);
    var l4 := ReplayFirst(Empty, events, 4);
    var l5 := ReplayFirst(Empty, events, 5);
    var l6 := ReplayFirst(Empty, events, 6);
    assert l1 == Apply(l0, events[0]);
    assert l2 == Apply(l1, events[1]);
    assert l3 == Apply(l2, events[2]);
    assert l4 == Apply(l3, events[3]);
    assert l5 == Apply(l4, events[4]);
    assert l6 == Apply(l5, events[5]);
    Keys(l0, events[0]);
    Keys(l1, events[1]);
    Keys(l2, events[2]);
    assert l3.accounts.Keys == {c1} && l3.transactions.Keys == {1};
    Keys(l3, events[3]);
    Keys(l4, events[4]);
    Keys(l5, events[5]);
  }

  /** The balances and records after the second unit test's events. */
  lemma DisputeSettleBalances(events: seq<Record>, c1: ClientId, c2: ClientId, d1: Amount, d2: Amount)
    requires c1 != c2
    requires |events| == 6
    requires events[0] == NewRecord(Deposit, c1, 1, Some(d1))
    requires events[1] == NewRecord(Dispute, c1, 1, None)
    requires events[2] == NewRecord(Resolve, c1, 1, None)
    requires events[3] == NewRecord(Deposit, c2, 2, Some(d2))
    requires events[4] == NewRecord(Dispute, c2, 2, None)
    requires events[5] == NewRecord(Chargeback, c2, 2, None)
    ensures HasAccount(Replay(Empty, events), c1, AccountState(c1, d1, 0, d1, false))
    ensures HasAccount(Replay(Empty, events), c2, AccountState(c2, 0, 0, 0, true))
    ensures Stored(Replay(Empty, events), 1, events[0])
    ensures Stored(Replay(Empty, events), 2, events[3])
  {
    var l0 := ReplayFirst(Empty, events, 0);
    var l1 := ReplayFirst(Empty, events, 1);
    var l2 := ReplayFirst(Empty, events, 2);
    var l3 := ReplayFirst(Empty, events, 3);
    var l4 := ReplayFirst(Empty, events, 4);
    var l5 := ReplayFirst(Empty, events, 5);
    var l6 := ReplayFirst(Empty, events, 6);
    assert l1 == Apply(l0, events[0]);
    assert l2 == Apply(l1, events[1]);
    assert l3 == Apply(l2, events[2]);
    assert l4 == Apply(l3, events[3]);
    assert l5 == Apply(l4, events[4]);
    assert l6 == Apply(l5, events[5]);
    var r1 := events[0];
    var s1 := NewAccount(c1).Add(d1);
    Credited(l0, events[0]);
    StillAbsent(l0, events[0], c2);
    Disputed(l1, events[1]);
    StillAbsent(l1, events[1], c2);
    Resolved(l2, events[2]);
    StillAbsent(l2, events[2], c2);
    HoldReleaseInverse(s1, d1);
    var r2 := events[3];
    var s2 := NewAccount(c2).Add(d2);
    Credited(l3, events[3]);
    OtherAccount(l3, events[3], c1, s1);
    OtherRecord(l3, events[3], 1, r1);
    Disputed(l4, events[4]);
    OtherAccount(l4, events[4], c1, s1);
    OtherRecord(l4, events[4], 1, r1);
    ChargedBack(l5, events[5]);
    OtherAccount(l5, events[5], c1, s1);
    OtherRecord(l5, events[5], 1, r1);
  }

  /**
   * The second unit test, for any two distinct clients and any amounts: the
   * resolved client is back to the deposit and unlocked, the charged-back
   * client has nothing left and is locked, and both records are kept out of
   * dispute.
   */
  lemma DisputeResolveChargebackScenario(events: seq<Record>, c1: ClientId, c2: ClientId, d1: Amount, d2: Amount)
    requires c1 != c2
    requires |events| == 6
    requires events[0] == NewRecord(Deposit, c1, 1, Some(d1))
    requires events[1] == NewRecord(Dispute, c1, 1, None)
    requires events[2] == NewRecord(Resolve, c1, 1, None)
    requires events[3] == NewRecord(Deposit, c2, 2, Some(d2))
    requires events[4] == NewRecord(Dispute, c2, 2, None)
    requires events[5] == NewRecord(Chargeback, c2, 2, None)
    ensures Replay(Empty, events).accounts.Keys == {c1, c2}
    ensures Replay(Empty, events).transactions.Keys == {1, 2}
    ensures HasAccount(Replay(Empty, events), c1, AccountState(c1, d1, 0, d1, false))
    ensures HasAccount(Replay(Empty, events), c2, AccountState(c2, 0, 0, 0, true))
    ensures !Replay(Empty, events).transactions[1].inDispute
    ensures !Replay(Empty, events).transactions[2].inDispute
    ensures |Replay(Empty, events).accounts| == 2 && |Replay(Empty, events).transactions| == 2
  {
    DisputeSettleKeys(events, c1, c2, d1, d2);
    DisputeSettleBalances(events, c1, c2, d1, d2);
  }

  /**
   * A second deposit under an id already stored replaces the first record,
   * so a later dispute holds the second amount; the first deposit stays
   * credited.
   */
  lemma DuplicateIdOverwritesScenario(events: seq<Record>, c: ClientId, x: TxId, a: Amount, b: Amount)
    requires |events| == 3
    requires events[0] == NewRecord(Deposit, c, x, Some(a))
    requires events[1] == NewRecord(Deposit, c, x, Some(b))
    requires events[2] == NewRecord(Dispute, c, x, None)
    ensures HasAccount(Replay(Empty, events), c, AccountState(c, a, b, a + b, false))
    ensures Stored(Replay(Empty, events), x, events[1].(inDispute := true))
  {
    var l0 := ReplayFirst(Empty, events, 0);
    var l1 := ReplayFirst(Empty, events, 1);
    var l2 := ReplayFirst(Empty, events, 2);
    var l3 := ReplayFirst(Empty, events, 3);
    assert l1 == Apply(l0, events[0]);
    assert l2 == Apply(l1, events[1]);
    assert l3 == Apply(l2, events[2]);
    Credited(l0, events[0]);
    Credited(l1, events[1]);
    Disputed(l2, events[2]);
  }

  /**
   * A withdrawal that was refused for lack of funds is stored all the same,
   * and disputing it holds its amount: the available funds go negative.
   */
  lemma RefusedWithdrawalDisputeScenario(events: seq<Record>, c: ClientId, x: TxId, y: TxId, a: Amount, w: Amount)
    requires x != y && a < w
    requires |events| == 3
    requires events[0] == NewRecord(Deposit, c, x, Some(a))
    requires events[1] == NewRecord(Withdrawal, c, y, Some(w))
    requires events[2] == NewRecord(Dispute, c, y, None)
    ensures HasAccount(Replay(Empty, events), c, AccountState(c, a - w, w, a, false))
    ensures Stored(Replay(Empty, events), y, events[1].(inDispute := true))
  {
    var l0 := ReplayFirst(Empty, events, 0);
    var l1 := ReplayFirst(Empty, events, 1);
    var l2 := ReplayFirst(Empty, events, 2);
    var l3 := ReplayFirst(Empty, events, 3);
    assert l1 == Apply(l0, events[0]);
    assert l2 == Apply(l1, events[1]);
    assert l3 == Apply(l2, events[2]);
    Credited(l0, events[0]);
    Debited(l1, events[1]);
    Disputed(l2, events[2]);
  }

  /**
   * Disputing a deposit whose funds were partly withdrawn holds the whole
   * deposit: the available funds become minus the withdrawn amount while the
   * total stays what is left.
   */
  lemma DisputeAfterWithdrawalScenario(events: seq<Record>, c: ClientId, x: TxId, y: TxId, a: Amount, w: Amount)
    requires x != y && w <= a
    requires |events| == 3
    requires events[0] == NewRecord(Deposit, c, x, Some(a))
    requires events[1] == NewRecord(Withdrawal, c, y, Some(w))
    requires events[2] == NewRecord(Dispute, c, x, None)
    ensures HasAccount(Replay(Empty, events), c, AccountState(c, -w, a, a - w, false))
    ensures Stored(Replay(Empty, events), x, events[0].(inDispute := true))
  {
    var l0 := ReplayFirst(Empty, events, 0);
    var l1 := ReplayFirst(Empty, events, 1);
    var l2 := ReplayFirst(Empty, events, 2);
    var l3 := ReplayFirst(Empty, events, 3);
    assert l1 == Apply(l0, events[0]);
    assert l2 == Apply(l1, events[1]);
    assert l3 == Apply(l2, events[2]);
    Credited(l0, events[0]);
    Debited(l1, events[1]);
    OtherRecord(l1, events[1], x, events[0]);
    Disputed(l2, events[2]);
  }

  /**
   * A chargeback clears the record's dispute flag, so the same record can be
   * disputed again; the locked account then holds the amount a second time.
   */
  lemma ChargedBackRecordDisputedAgainScenario(events: seq<Record>, c: ClientId, x: TxId, a: Amount)
    requires |events| == 4
    requires events[0] == NewRecord(Deposit, c, x, Some(a))
    requires events[1] == NewRecord(Dispute, c, x, None)
    requires events[2] == NewRecord(Chargeback, c, x, None)
    requires events[3] == NewRecord(Dispute, c, x, None)
    ensures HasAccount(Replay(Empty, events), c, AccountState(c, -a, a, 0, true))
    ensures Stored(Replay(Empty, events), x, events[0].(inDispute := true))
  {
    var l0 := ReplayFirst(Empty, events, 0);
    var l1 := ReplayFirst(Empty, events, 1);
    var l2 := ReplayFirst(Empty, events, 2);
    var l3 := ReplayFirst(Empty, events, 3);
    var l4 := ReplayFirst(Empty, events, 4);
    assert l1 == Apply(l0, events[0]);
    assert l2 == Apply(l1, events[1]);
    assert l3 == Apply(l2, events[2]);
    assert l4 == Apply(l3, events[3]);
    Credited(l0, events[0]);
    Disputed(l1, events[1]);
    ChargedBack(l2, events[2]);
    Disputed(l3, events[3]);
  }

  /**
   * A client cannot dispute another client's deposit: the dispute only opens
   * an empty account for the disputing client and changes nothing else.
   */
  lemma ForeignDisputeScenario(events: seq<Record>, c1: ClientId, c2: ClientId, x: TxId, a: Amount)
    requires c1 != c2
    requires |events| == 2
    requires events[0] == NewRecord(Deposit, c1, x, Some(a))
    requires events[1] == NewRecord(Dispute, c2, x, None)
    ensures HasAccount(Replay(Empty, events), c1, AccountState(c1, a, 0, a, false))
    ensures HasAccount(Replay(Empty, events), c2, NewAccount(c2))
    ensures Stored(Replay(Empty, events), x, events[0])
  {
    var l0 := ReplayFirst(Empty, events, 0);
    var l1 := ReplayFirst(Empty, events, 1);
    var l2 := ReplayFirst(Empty, events, 2);
    assert l1 == Apply(l0, events[0]);
    assert l2 == Apply(l1, events[1]);
    Credited(l0, events[0]);
    StillAbsent(l0, events[0], c2);
    Unmatched(l1, events[1]);
  }

  /**
   * The first unit test with its own values: client 1 deposits 1.0 and 2.0
   * and withdraws 1.5; client 2 deposits 2.0 and cannot withdraw 3.0.
   */
  lemma DepositWithdrawTest(events: seq<Record>)
    requires events == [NewRecord(Deposit, 1, 1, Some(Unit)),
                        NewRecord(Deposit, 2, 2, Some(2 * Unit)),
                        NewRecord(Deposit, 1, 3, Some(2 * Unit)),
                        NewRecord(Withdrawal, 1, 4, Some(3 * Unit / 2)),
                        NewRecord(Withdrawal, 2, 5, Some(3 * Unit))]
    ensures |Replay(Empty, events).accounts| == 2 && |Replay(Empty, events).transactions| == 5
    ensures HasAccount(Replay(Empty, events), 1, AccountState(1, 3 * Unit / 2, 0, 3 * Unit / 2, false))
    ensures HasAccount(Replay(Empty, events), 2, AccountState(2, 2 * Unit, 0, 2 * Unit, false))
  {
    DepositWithdrawScenario(events, 1, 2, Unit, 2 * Unit, 2 * Unit, 3 * Unit / 2, 3 * Unit);
  }

  /**
   * The second unit test with its own values: both clients deposit 5.0;
   * client 1's deposit is disputed and resolved, client 2's is disputed and
   * charged back.
   */
  lemma DisputeResolveChargebackTest(events: seq<Record>)
    requires events == [NewRecord(Deposit, 1, 1, Some(5 * Unit)),
                        NewRecord(Dispute, 1, 1, None),
                        NewRecord(Resolve, 1, 1, None),
                        NewRecord(Deposit, 2, 2, Some(5 * Unit)),
                        NewRecord(Dispute, 2, 2, None),
                        NewRecord(Chargeback, 2, 2, None)]
    ensures |Replay(Empty, events).accounts| == 2 && |Replay(Empty, events).transactions| == 2
    ensures HasAccount(Replay(Empty, events), 1, AccountState(1, 5 * Unit, 0, 5 * Unit, false))
    ensures HasAccount(Replay(Empty, events), 2, AccountState(2, 0, 0, 0, true))
  {
    DisputeResolveChargebackScenario(events, 1, 2, 5 * Unit, 5 * Unit);
  }
}
