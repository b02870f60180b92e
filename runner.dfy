/** The engine's consumer loop (src/engine/runner.rs): commands are applied one
    at a time, in arrival order, to a single ledger. */
module Runner {
  import opened Commands
  import opened Accounts
  import opened Transactions
  import opened Engine

  /** The ledger after applying `cmds` in order to `s`. */
  function Replay(s: Ledger, cmds: seq<Command>): Ledger
    decreases |cmds|
  {
    if cmds == [] then s else Step(Replay(s, cmds[..|cmds| - 1]), cmds[|cmds| - 1])
  }

  /** Runs a fresh engine over the commands and hands back its final accounts. */
  method RunEngine(cmds: seq<Command>) returns (accounts: map<ClientId, Account>)
    ensures accounts == Replay(Empty(), cmds).accounts
    ensures Valid(Replay(Empty(), cmds))
  {
    var state := new State();
    EmptyValid();
    var i := 0;
    while i < |cmds|
      invariant 0 <= i <= |cmds|
      invariant state.Snapshot() == Replay(Empty(), cmds[..i])
      invariant Valid(state.Snapshot())
    {
      StepPreservesValid(state.Snapshot(), cmds[i]);
      state.ProcessSingleCommand(cmds[i]);
      assert cmds[..i + 1][..i] == cmds[..i];
      i := i + 1;
    }
    assert cmds[..i] == cmds;
    accounts := state.accounts;
  }

  /** Replaying one more command is one more step. */
  lemma ReplaySnoc(s: Ledger, cmds: seq<Command>, cmd: Command)
    ensures Replay(s, cmds + [cmd]) == Step(Replay(s, cmds), cmd)
  {
    assert (cmds + [cmd])[..|cmds|] == cmds;
  }

  /** What a whole run may do to a ledger: nothing is removed, a record's owner,
      amount and kind never change, a charged-back record stays charged back,
      an account keeps its client id, and a frozen account stays frozen. */
  ghost predicate Extends(s: Ledger, r: Ledger) {
    && s.accounts.Keys <= r.accounts.Keys
    && s.transactions.Keys <= r.transactions.Keys
    && (forall c :: c in s.accounts ==>
          r.accounts[c].clientId == s.accounts[c].clientId && (s.accounts[c].locked ==> r.accounts[c].locked))
    && (forall tx :: tx in s.transactions ==>
          && r.transactions[tx].clientId == s.transactions[tx].clientId
          && r.transactions[tx].amount == s.transactions[tx].amount
          && r.transactions[tx].isDeposit == s.transactions[tx].isDeposit
          && (s.transactions[tx].status == ChargedBack ==> r.transactions[tx].status == ChargedBack))
  }

  /** Every run extends the ledger it starts from. */
  lemma {:induction false} ReplayExtends(s: Ledger, cmds: seq<Command>)
    ensures Extends(s, Replay(s, cmds))
  {
    if cmds != [] {
      var prefix := cmds[..|cmds| - 1];
      var mid := Replay(s, prefix);
      ReplayExtends(s, prefix);
      StepIsRelated(mid, cmds[|cmds| - 1]);
      forall tx | tx in s.transactions && s.transactions[tx].status == ChargedBack
        ensures Replay(s, cmds).transactions[tx].status == ChargedBack
      {
        MovesChargedBackTerminal(mid.transactions[tx].status, Replay(s, cmds).transactions[tx].status);
      }
    }
  }

  /** Every run keeps a consistent ledger consistent. */
  lemma {:induction false} ReplayPreservesValid(s: Ledger, cmds: seq<Command>)
    requires Valid(s)
    ensures Valid(Replay(s, cmds))
  {
    if cmds != [] {
      ReplayPreservesValid(s, cmds[..|cmds| - 1]);
      StepPreservesValid(Replay(s, cmds[..|cmds| - 1]), cmds[|cmds| - 1]);
    }
  }

  /** Once an account is frozen, no later command changes it: its balances are final. */
  lemma {:induction false} LockFinality(s: Ledger, cmds: seq<Command>, c: ClientId)
    requires IsLocked(s.accounts, c)
    ensures c in Replay(s, cmds).accounts && Replay(s, cmds).accounts[c] == s.accounts[c]
  {
    if cmds != [] {
      LockFinality(s, cmds[..|cmds| - 1], c);
      LockedAccountUnchanged(Replay(s, cmds[..|cmds| - 1]), cmds[|cmds| - 1], c);
    }
  }

  /** Once a deposit or withdrawal has been recorded under a tx id, every later
      deposit or withdrawal under that id, with any client and any amount, is ignored. */
  lemma DuplicateSuppressed(s: Ledger, tx: TxId, between: seq<Command>, cmd: Command)
    requires tx in s.transactions
    requires cmd.MovesMoney() && cmd.tx == tx
    ensures Replay(s, between + [cmd]) == Replay(s, between)
  {
    ReplayExtends(s, between);
    ReplaySnoc(s, between, cmd);
    DuplicateTxIgnored(Replay(s, between), cmd);
  }

  // ---------------------------------------------------------------------------
  // The scenarios of the source's unit tests, replayed from an empty engine.

  /** Replaying a list of commands is stepping through it from the front. */
  lemma {:induction false} ReplayFront(s: Ledger, cmds: seq<Command>)
    requires cmds != []
    ensures Replay(s, cmds) == Replay(Step(s, cmds[0]), cmds[1..])
    decreases |cmds|
  {
    if |cmds| == 1 {
      assert cmds[..0] == [];
    } else {
      var init := cmds[..|cmds| - 1];
      assert init[0] == cmds[0] && init[1..] == cmds[1..][..|cmds| - 2];
      ReplayFront(s, init);
    }
  }

  lemma DepositThenWithdrawScenario()
    ensures var r := Replay(Empty(), [Deposit(1, 1, 10.0), Withdrawal(1, 2, 3.0), Withdrawal(1, 3, 10.0)]);
      && r.accounts == map[1 := Account(1, 7.0, 0.0, false)]
      && r.transactions.Keys == {1, 2}
  {
    var s1 := Step(Empty(), Deposit(1, 1, 10.0));
    var s2 := Step(s1, Withdrawal(1, 2, 3.0));
    assert s2.accounts == map[1 := Account(1, 7.0, 0.0, false)];
    ReplayFront(Empty(), [Deposit(1, 1, 10.0), Withdrawal(1, 2, 3.0), Withdrawal(1, 3, 10.0)]);
    ReplayFront(s1, [Withdrawal(1, 2, 3.0), Withdrawal(1, 3, 10.0)]);
    ReplayFront(s2, [Withdrawal(1, 3, 10.0)]);
  }

  lemma DisputeResolveScenario()
    ensures Replay(Empty(), [Deposit(2, 10, 5.0), Dispute(2, 10)]).accounts
         == map[2 := Account(2, 0.0, 5.0, false)]
    ensures var r := Replay(Empty(), [Deposit(2, 10, 5.0), Dispute(2, 10), Resolve(2, 10)]);
      && r.accounts == map[2 := Account(2, 5.0, 0.0, false)]
      && r.transactions == map[10 := TransactionRecord(2, 5.0, true, Normal)]
  {
    var s1 := Step(Empty(), Deposit(2, 10, 5.0));
    var s2 := Step(s1, Dispute(2, 10));
    assert s2.accounts == map[2 := Account(2, 0.0, 5.0, false)];
    ReplayFront(Empty(), [Deposit(2, 10, 5.0), Dispute(2, 10), Resolve(2, 10)]);
    ReplayFront(s1, [Dispute(2, 10), Resolve(2, 10)]);
    ReplayFront(s2, [Resolve(2, 10)]);
    ReplayFront(Empty(), [Deposit(2, 10, 5.0), Dispute(2, 10)]);
    ReplayFront(s1, [Dispute(2, 10)]);
  }

  lemma ChargebackLocksScenario()
    ensures var r := Replay(Empty(), [Deposit(3, 20, 2.5), Dispute(3, 20), Chargeback(3, 20), Deposit(3, 21, 1.0)]);
      && r.accounts == map[3 := Account(3, 0.0, 0.0, true)]
      && r.transactions == map[20 := TransactionRecord(3, 2.5, true, ChargedBack)]
  {
    var s1 := Step(Empty(), Deposit(3, 20, 2.5));
    var s2 := Step(s1, Dispute(3, 20));
    var s3 := Step(s2, Chargeback(3, 20));
    assert s3.accounts == map[3 := Account(3, 0.0, 0.0, true)];
    ReplayFront(Empty(), [Deposit(3, 20, 2.5), Dispute(3, 20), Chargeback(3, 20), Deposit(3, 21, 1.0)]);
    ReplayFront(s1, [Dispute(3, 20), Chargeback(3, 20), Deposit(3, 21, 1.0)]);
    ReplayFront(s2, [Chargeback(3, 20), Deposit(3, 21, 1.0)]);
    ReplayFront(s3, [Deposit(3, 21, 1.0)]);
  }

  lemma InsufficientFundsScenario()
    ensures var r := Replay(Empty(), [Withdrawal(21, 2000, 5.0)]);
      && r.transactions == map[]
      && r.accounts == map[21 := Account(21, 0.0, 0.0, false)]
  {
    ReplayFront(Empty(), [Withdrawal(21, 2000, 5.0)]);
  }

  lemma NegativeAvailableScenario()
    ensures Replay(Empty(), [Deposit(42, 100, 10.0), Withdrawal(42, 101, 10.0), Dispute(42, 100)]).accounts
         == map[42 := Account(42, -10.0, 10.0, false)]
    ensures var r := Replay(Empty(), [Deposit(42, 100, 10.0), Withdrawal(42, 101, 10.0), Dispute(42, 100), Chargeback(42, 100)]);
      r.accounts == map[42 := Account(42, -10.0, 0.0, true)]
  {
    var s1 := Step(Empty(), Deposit(42, 100, 10.0));
    var s2 := Step(s1, Withdrawal(42, 101, 10.0));
    assert s2.accounts == map[42 := Account(42, 0.0, 0.0, false)];
    var s3 := Step(s2, Dispute(42, 100));
    assert s3.accounts == map[42 := Account(42, -10.0, 10.0, false)];
    ReplayFront(Empty(), [Deposit(42, 100, 10.0), Withdrawal(42, 101, 10.0), Dispute(42, 100), Chargeback(42, 100)]);
    ReplayFront(s1, [Withdrawal(42, 101, 10.0), Dispute(42, 100), Chargeback(42, 100)]);
    ReplayFront(s2, [Dispute(42, 100), Chargeback(42, 100)]);
    ReplayFront(s3, [Chargeback(42, 100)]);
    ReplayFront(Empty(), [Deposit(42, 100, 10.0), Withdrawal(42, 101, 10.0), Dispute(42, 100)]);
    ReplayFront(s1, [Withdrawal(42, 101, 10.0), Dispute(42, 100)]);
    ReplayFront(s2, [Dispute(42, 100)]);
  }

  lemma DisputeUnknownTxScenario()
    ensures Replay(Empty(), [Dispute(8, 400)]) == Empty()
  {
    ReplayFront(Empty(), [Dispute(8, 400)]);
  }
}
