/** Value types shared by the ledger: identifiers, amounts and the flat
    transaction record (src/transaction.rs). */
module Transactions {

  /** A client identifier is a `u16`. */
  type ClientId = x: int | 0 <= x < 0x1_0000

  /** A transaction identifier is a `u32`. */
  type TransactionId = x: int | 0 <= x < 0x1_0000_0000

  /** A monetary amount, counted exactly in units of 1/10000. Amounts are
      signed: nothing on the way in rejects a negative value. */
  type Amount = int

  /** The five kinds of transaction the input stream carries. */
  datatype TransactionType = Deposit | Withdrawal | Dispute | Resolve | Chargeback
  {
    /** Deposits and withdrawals are the kinds an account keeps in its history. */
    predicate IsStorable() {
      Deposit? || Withdrawal?
    }

    /** Disputes, resolves and chargebacks refer to a stored transaction. */
    predicate IsDisputeKind() {
      Dispute? || Resolve? || Chargeback?
    }
  }

  /** The flat transaction record: a type tag, the client, the transaction id
      and an amount (meaningless for the three dispute kinds). */
  datatype Transaction = Transaction(kind: TransactionType, client: ClientId, tx: TransactionId, amount: Amount)
}
