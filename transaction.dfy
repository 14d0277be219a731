/**
 * The ledger event as read from the input and, for deposits and withdrawals,
 * as kept afterwards so that later disputes can find it. Its only mutable
 * part is the `inDispute` flag.
 */
module Transactions {
  import opened Ids

  /** The five event kinds. */
  datatype TransactionType = Deposit | Withdrawal | Dispute | Resolve | Chargeback

  /** The value a transaction holds at one moment. */
  datatype Record = Record(
    kind: TransactionType,
    clientId: ClientId,
    txId: TxId,
    amount: Option<Amount>,
    inDispute: bool)

  /**
   * An event built the way the source's constructor builds it: not in
   * dispute. Events read from the input are built the same way, since the
   * dispute flag defaults to false when it is absent.
   */
  function NewRecord(kind: TransactionType, clientId: ClientId, txId: TxId, amount: Option<Amount>): (r: Record)
    ensures r.kind == kind && r.clientId == clientId && r.txId == txId && r.amount == amount
    ensures !r.inDispute
  {
    Record(kind, clientId, txId, amount, false)
  }

  /**
   * A transaction object. The type, client, id and amount never change after
   * construction, so they are constants; the getters of the source are reads
   * of these fields.
   */
  class Transaction {
    const kind: TransactionType
    const clientId: ClientId
    const txId: TxId
    const amount: Option<Amount>
    var inDispute: bool

    /** The value this transaction holds now. */
    function State(): Record
      reads this
    {
      Record(kind, clientId, txId, amount, inDispute)
    }

    constructor (kind: TransactionType, clientId: ClientId, txId: TxId, amount: Option<Amount>)
      ensures State() == NewRecord(kind, clientId, txId, amount)
    {
      this.kind := kind;
      this.clientId := clientId;
      this.txId := txId;
      this.amount := amount;
      inDispute := false;
    }

    /** Sets the dispute flag; type, client, id and amount are constants. */
    method SetDispute(inDispute: bool)
      modifies this
      ensures State() == old(State()).(inDispute := inDispute)
    {
      this.inDispute := inDispute;
    }
  }
}
