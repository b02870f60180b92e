/** A client's balances (src/models/account.rs). */
module Accounts {
  import opened Commands

  /** Only the client, the two balances and the lock flag are stored; the total is derived. */
  datatype Account = Account(clientId: ClientId, available: Amount, held: Amount, locked: bool)

  /** The account created on first use of a client: zero balances, unlocked. */
  function NewAccount(clientId: ClientId): Account {
    Account(clientId, 0.0, 0.0, false)
  }

  /** The total reported for an account at export time. */
  function Total(a: Account): Amount {
    a.available + a.held
  }
}
