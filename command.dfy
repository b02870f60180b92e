/** The decoded instruction the ledger applies (src/models/command.rs). */
module Commands {

  /** A client identifier is a Rust `u16`. */
  type ClientId = c: int | 0 <= c < 0x1_0000

  /** A transaction identifier is a Rust `u32`. */
  type TxId = t: int | 0 <= t < 0x1_0000_0000

  /** `rust_decimal::Decimal` is exact decimal arithmetic whose equality compares
      numeric values; exact rationals have the same arithmetic and the same equality. */
  type Amount = real

  /** One command per kind: the two money movements carry an amount, the three
      dispute-lifecycle commands only name a client and a transaction. */
  datatype Command =
    | Deposit(clientId: ClientId, tx: TxId, amount: Amount)
    | Withdrawal(clientId: ClientId, tx: TxId, amount: Amount)
    | Dispute(clientId: ClientId, tx: TxId)
    | Resolve(clientId: ClientId, tx: TxId)
    | Chargeback(clientId: ClientId, tx: TxId)
  {
    /** Deposits and withdrawals create transaction records; the other three only refer to them. */
    predicate MovesMoney() {
      Deposit? || Withdrawal?
    }
  }
}
