/** The decoded input row, its conversion to a command, and the ledger's
    record of an applied deposit or withdrawal (src/models/transaction.rs). */
module Transactions {
  import opened Wrappers
  import opened Commands

  /** One input row after field decoding: the kind string is kept verbatim
      and the amount column may be blank. */
  datatype TransactionInput = TransactionInput(kind: string, clientId: ClientId, tx: TxId, amount: Option<Amount>)

  /** The life cycle of a recorded transaction. */
  datatype TransactionStatus = Normal | Disputed | ChargedBack

  /** What the ledger remembers of an applied deposit or withdrawal. */
  datatype TransactionRecord = TransactionRecord(clientId: ClientId, amount: Amount, isDeposit: bool, status: TransactionStatus)

  /** The kind strings the decoder accepts, matched exactly. */
  const Kinds: set<string> := {"deposit", "withdrawal", "dispute", "resolve", "chargeback"}

  /** The kinds whose rows must carry an amount. */
  const MoneyKinds: set<string> := {"deposit", "withdrawal"}

  /** Converts a row into a command, rejecting an unknown kind and a missing amount. */
  function ToCommand(input: TransactionInput): (r: Result<Command, string>)
    ensures r.Ok? <==> input.kind in Kinds && (input.kind in MoneyKinds ==> input.amount.Some?)
    ensures r.Ok? ==> Kind(r.value) == input.kind && r.value.clientId == input.clientId && r.value.tx == input.tx
    ensures r.Ok? && r.value.MovesMoney() ==> input.amount == Some(r.value.amount)
  {
    match input.kind
    case "deposit" =>
      if input.amount.None? then Err("Missing amount in deposit")
      else Ok(Deposit(input.clientId, input.tx, input.amount.value))
    case "withdrawal" =>
      if input.amount.None? then Err("Missing amount in withdrawal")
      else Ok(Withdrawal(input.clientId, input.tx, input.amount.value))
    case "dispute" => Ok(Dispute(input.clientId, input.tx))
    case "resolve" => Ok(Resolve(input.clientId, input.tx))
    case "chargeback" => Ok(Chargeback(input.clientId, input.tx))
    case _ => Err("Unknown transaction type: " + input.kind)
  }

  /** The kind string naming each command variant in the input. */
  function Kind(cmd: Command): string {
    match cmd
    case Deposit(_, _, _) => "deposit"
    case Withdrawal(_, _, _) => "withdrawal"
    case Dispute(_, _) => "dispute"
    case Resolve(_, _) => "resolve"
    case Chargeback(_, _) => "chargeback"
  }

  /** The canonical row for a command: the inverse of ToCommand. */
  function ToInput(cmd: Command): TransactionInput {
    TransactionInput(Kind(cmd), cmd.clientId, cmd.tx, if cmd.MovesMoney() then Some(cmd.amount) else None)
  }

  /** Every command is produced by exactly its canonical row. */
  lemma DecodeEncode(cmd: Command)
    ensures ToCommand(ToInput(cmd)) == Ok(cmd)
  {
  }

  /** A row that decodes is its command's canonical row, except that an amount
      on a dispute, resolve or chargeback row is dropped. */
  lemma EncodeDecode(input: TransactionInput)
    requires ToCommand(input).Ok?
    ensures ToInput(ToCommand(input).value)
         == input.(amount := if input.kind in MoneyKinds then input.amount else None)
  {
  }

  /** The amount column plays no part in decoding a dispute, resolve or chargeback row. */
  lemma AmountIgnoredForLifecycle(input: TransactionInput, amount: Option<Amount>)
    requires input.kind in Kinds - MoneyKinds
    ensures ToCommand(input.(amount := amount)) == ToCommand(input)
    ensures ToCommand(input).Ok? && !ToCommand(input).value.MovesMoney()
  {
  }

  /** The three rejections and their fixed messages. */
  lemma DecodeErrors(input: TransactionInput)
    ensures ToCommand(input) == Err("Missing amount in deposit")
        <==> input.kind == "deposit" && input.amount == None
    ensures ToCommand(input) == Err("Missing amount in withdrawal")
        <==> input.kind == "withdrawal" && input.amount == None
    ensures ToCommand(input) == Err("Unknown transaction type: " + input.kind)
        <==> input.kind !in Kinds
  {
    var unknown := "Unknown transaction type: ";
    // the unknown-kind message never reads as a missing-amount message: their first letters differ
    assert (unknown + input.kind)[0] == 'U';
    if input.kind !in Kinds {
      assert ToCommand(input) == Err(unknown + input.kind);
    }
  }

  /** A status may stay put or move Normal -> Disputed, Disputed -> Normal or
      Disputed -> ChargedBack, in one command. */
  predicate Moves(from: TransactionStatus, to: TransactionStatus) {
    from == to
    || (from == Normal && to == Disputed)
    || (from == Disputed && (to == Normal || to == ChargedBack))
  }

  /** A chargeback is terminal, and it can only be reached through a dispute. */
  lemma MovesChargedBackTerminal(from: TransactionStatus, to: TransactionStatus)
    requires Moves(from, to)
    ensures from == ChargedBack ==> to == ChargedBack
    ensures to == ChargedBack ==> from != Normal
  {
  }

  /** The decoder cases of the source's own unit tests. */
  lemma DecodeExamples()
    ensures ToCommand(TransactionInput("deposit", 1, 10, Some(5.0))) == Ok(Deposit(1, 10, 5.0))
    ensures ToCommand(TransactionInput("withdrawal", 2, 20, Some(2.5))) == Ok(Withdrawal(2, 20, 2.5))
    ensures ToCommand(TransactionInput("dispute", 3, 30, None)) == Ok(Dispute(3, 30))
    ensures ToCommand(TransactionInput("resolve", 4, 40, None)) == Ok(Resolve(4, 40))
    ensures ToCommand(TransactionInput("chargeback", 5, 50, None)) == Ok(Chargeback(5, 50))
    ensures ToCommand(TransactionInput("deposit", 1, 60, None)) == Err("Missing amount in deposit")
    ensures ToCommand(TransactionInput("withdrawal", 2, 70, None)) == Err("Missing amount in withdrawal")
    ensures ToCommand(TransactionInput("foobar", 3, 80, None)) == Err("Unknown transaction type: foobar")
    ensures ToCommand(TransactionInput("Deposit", 1, 90, Some(1.0))).Err?
  {
    assert "Unknown transaction type: " + "foobar" == "Unknown transaction type: foobar";
  }
}
