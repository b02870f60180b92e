/** The ledger state machine (src/engine/state.rs): a pure transition function
    over the two maps, the class that applies it in place, and what every
    command keeps true. */
module Engine {
  import opened Commands
  import opened Accounts
  import opened Transactions

  /** The engine's whole state: client id -> account and tx id -> record. */
  datatype Ledger = Ledger(accounts: map<ClientId, Account>, transactions: map<TxId, TransactionRecord>)

  /** The state of a freshly started engine. */
  function Empty(): Ledger {
    Ledger(map[], map[])
  }

  /** The client has an account and it is frozen. */
  predicate IsLocked(accounts: map<ClientId, Account>, clientId: ClientId) {
    clientId in accounts && accounts[clientId].locked
  }

  /** The map after looking the client's account up, creating a zero account if there is none. */
  function OpenAccount(accounts: map<ClientId, Account>, clientId: ClientId): map<ClientId, Account> {
    if clientId in accounts then accounts else accounts[clientId := NewAccount(clientId)]
  }

  /** The client's account, or the zero account that would be created for it. */
  function AccountOf(accounts: map<ClientId, Account>, clientId: ClientId): Account {
    if clientId in accounts then accounts[clientId] else NewAccount(clientId)
  }

  // ---------------------------------------------------------------------------
  // The transition function, one command kind at a time, in the source's order of checks.

  function ApplyDeposit(s: Ledger, clientId: ClientId, tx: TxId, amount: Amount): Ledger {
    if tx in s.transactions then s
    else if IsLocked(s.accounts, clientId) then s
    else
      var accounts := OpenAccount(s.accounts, clientId);
      var account := accounts[clientId];
      Ledger(accounts[clientId := account.(available := account.available + amount)],
             s.transactions[tx := TransactionRecord(clientId, amount, true, Normal)])
  }

  function ApplyWithdrawal(s: Ledger, clientId: ClientId, tx: TxId, amount: Amount): Ledger {
    if tx in s.transactions then s
    else if IsLocked(s.accounts, clientId) then s
    else
      // the account is created before the funds check, and stays even when the check fails
      var accounts := OpenAccount(s.accounts, clientId);
      var account := accounts[clientId];
      if account.available >= amount then
        Ledger(accounts[clientId := account.(available := account.available - amount)],
               s.transactions[tx := TransactionRecord(clientId, amount, false, Normal)])
      else
        Ledger(accounts, s.transactions)
  }

  function ApplyDispute(s: Ledger, clientId: ClientId, tx: TxId): Ledger {
    if IsLocked(s.accounts, clientId) then s
    else if tx !in s.transactions then s
    else
      var record := s.transactions[tx];
      if record.clientId != clientId then s
      else if !record.isDeposit || record.status != Normal then s
      else
        var transactions := s.transactions[tx := record.(status := Disputed)];
        if clientId in s.accounts then
          var account := s.accounts[clientId];
          Ledger(s.accounts[clientId := account.(available := account.available - record.amount,
                                                 held := account.held + record.amount)],
                 transactions)
        else
          Ledger(s.accounts, transactions)
  }

  function ApplyResolve(s: Ledger, clientId: ClientId, tx: TxId): Ledger {
    if IsLocked(s.accounts, clientId) then s
    else if tx !in s.transactions then s
    else
      var record := s.transactions[tx];
      if record.clientId != clientId then s
      else if record.status != Disputed then s
      else
        var transactions := s.transactions[tx := record.(status := Normal)];
        if clientId in s.accounts then
          var account := s.accounts[clientId];
          Ledger(s.accounts[clientId := account.(held := account.held - record.amount,
                                                 available := account.available + record.amount)],
                 transactions)
        else
          Ledger(s.accounts, transactions)
  }

  /** A held balance below zero after a chargeback is clamped to zero. */
  function ClampHeld(held: Amount): Amount {
    if held < 0.0 then 0.0 else held
  }

  function ApplyChargeback(s: Ledger, clientId: ClientId, tx: TxId): Ledger {
    if tx !in s.transactions then s
    else
      var record := s.transactions[tx];
      if record.clientId != clientId || record.status != Disputed then s
      else if clientId !in s.accounts then s
      else
        var account := s.accounts[clientId];
        if account.locked then s
        else
          Ledger(s.accounts[clientId := account.(held := ClampHeld(account.held - record.amount), locked := true)],
                 s.transactions[tx := record.(status := ChargedBack)])
  }

  /** The effect of one command on the ledger; a command that breaks a rule leaves it as it was. */
  function Step(s: Ledger, cmd: Command): Ledger {
    match cmd
    case Deposit(clientId, tx, amount) => ApplyDeposit(s, clientId, tx, amount)
    case Withdrawal(clientId, tx, amount) => ApplyWithdrawal(s, clientId, tx, amount)
    case Dispute(clientId, tx) => ApplyDispute(s, clientId, tx)
    case Resolve(clientId, tx) => ApplyResolve(s, clientId, tx)
    case Chargeback(clientId, tx) => ApplyChargeback(s, clientId, tx)
  }

  // ---------------------------------------------------------------------------
  // The engine object, updated in place.

  class State {
    var accounts: map<ClientId, Account>
    var transactions: map<TxId, TransactionRecord>

    /** The value of both maps. */
    function Snapshot(): Ledger
      reads this
    {
      Ledger(accounts, transactions)
    }

    constructor ()
      ensures Snapshot() == Empty()
    {
      accounts := map[];
      transactions := map[];
    }

    /** Applies one command, silently ignoring one that breaks a rule. */
    method ProcessSingleCommand(cmd: Command)
      modifies this
      ensures Snapshot() == Step(old(Snapshot()), cmd)
    {
      match cmd {
        case Deposit(clientId, tx, amount) =>
          if tx in transactions {
            return; // duplicate transaction id
          }
          if clientId in accounts && accounts[clientId].locked {
            return;
          }
          if clientId !in accounts {
            accounts := accounts[clientId := NewAccount(clientId)];
          }
          var account := accounts[clientId];
          accounts := accounts[clientId := account.(available := account.available + amount)];
          transactions := transactions[tx := TransactionRecord(clientId, amount, true, Normal)];

        case Withdrawal(clientId, tx, amount) =>
          if tx in transactions {
            return; // duplicate transaction id
          }
          if clientId in accounts && accounts[clientId].locked {
            return;
          }
          if clientId !in accounts {
            accounts := accounts[clientId := NewAccount(clientId)];
          }
          var account := accounts[clientId];
          if account.available >= amount {
            accounts := accounts[clientId := account.(available := account.available - amount)];
            transactions := transactions[tx := TransactionRecord(clientId, amount, false, Normal)];
          }

        case Dispute(clientId, tx) =>
          if clientId in accounts && accounts[clientId].locked {
            return;
          }
          if tx in transactions {
            var record := transactions[tx];
            if record.clientId != clientId {
              return;
            }
            if !record.isDeposit || record.status != Normal {
              return;
            }
            transactions := transactions[tx := record.(status := Disputed)];
            if clientId in accounts {
              var account := accounts[clientId];
              accounts := accounts[clientId := account.(available := account.available - record.amount,
                                                        held := account.held + record.amount)];
            }
          }

        case Resolve(clientId, tx) =>
          if clientId in accounts && accounts[clientId].locked {
            return;
          }
          if tx in transactions {
            var record := transactions[tx];
            if record.clientId != clientId {
              return;
            }
            if record.status != Disputed {
              return;
            }
            transactions := transactions[tx := record.(status := Normal)];
            if clientId in accounts {
              var account := accounts[clientId];
              accounts := accounts[clientId := account.(held := account.held - record.amount,
                                                        available := account.available + record.amount)];
            }
          }

        case Chargeback(clientId, tx) =>
          if tx in transactions {
            var record := transactions[tx];
            if record.clientId != clientId || record.status != Disputed {
              return;
            }
            if clientId in accounts {
              var account := accounts[clientId];
              if account.locked {
                return;
              }
              transactions := transactions[tx := record.(status := ChargedBack)];
              var held := account.held - record.amount;
              if held < 0.0 {
                held := 0.0;
              }
              accounts := accounts[clientId := account.(held := held, locked := true)];
            }
          }
      }
    }
  }

  // ---------------------------------------------------------------------------
  // What one command does.

  /** A deposit or withdrawal reusing any recorded tx id, whoever owns it, changes nothing. */
  lemma DuplicateTxIgnored(s: Ledger, cmd: Command)
    requires cmd.MovesMoney() && cmd.tx in s.transactions
    ensures Step(s, cmd) == s
  {
  }

  /** No command naming a frozen client's account changes anything. */
  lemma LockedClientIgnored(s: Ledger, cmd: Command)
    requires IsLocked(s.accounts, cmd.clientId)
    ensures Step(s, cmd) == s
  {
  }

  /** A deposit with a fresh tx id on a missing or unfrozen account credits
      `available` by the amount, creating the account at zero first if needed,
      and records exactly one normal deposit under that id. */
  lemma DepositEffect(s: Ledger, clientId: ClientId, tx: TxId, amount: Amount)
    requires tx !in s.transactions && !IsLocked(s.accounts, clientId)
    ensures var r := Step(s, Deposit(clientId, tx, amount));
      && r.accounts.Keys == s.accounts.Keys + {clientId}
      && r.accounts[clientId].clientId == AccountOf(s.accounts, clientId).clientId
      && r.accounts[clientId].available == AccountOf(s.accounts, clientId).available + amount
      && r.accounts[clientId].held == AccountOf(s.accounts, clientId).held
      && !r.accounts[clientId].locked
      && (forall c :: c in s.accounts && c != clientId ==> r.accounts[c] == s.accounts[c])
      && r.transactions == s.transactions[tx := TransactionRecord(clientId, amount, true, Normal)]
  {
  }

  /** A withdrawal with a fresh tx id on a missing or unfrozen account creates
      the account at zero if needed; it is then applied exactly when the
      available funds cover the amount. An applied one debits `available` and
      records a normal withdrawal; a refused one changes no balance and leaves
      the tx id unused. */
  lemma WithdrawalEffect(s: Ledger, clientId: ClientId, tx: TxId, amount: Amount)
    requires tx !in s.transactions && !IsLocked(s.accounts, clientId)
    ensures var r := Step(s, Withdrawal(clientId, tx, amount));
      var before := AccountOf(s.accounts, clientId);
      && r.accounts.Keys == s.accounts.Keys + {clientId}
      && (forall c :: c in s.accounts && c != clientId ==> r.accounts[c] == s.accounts[c])
      && (tx in r.transactions <==> before.available >= amount)
      && (before.available >= amount ==>
            && r.accounts[clientId] == before.(available := before.available - amount)
            && r.transactions == s.transactions[tx := TransactionRecord(clientId, amount, false, Normal)])
      && (before.available < amount ==>
            && r.accounts[clientId] == before
            && r.transactions == s.transactions)
  {
  }

  /** The conditions under which a dispute takes effect. */
  predicate CanDispute(s: Ledger, clientId: ClientId, tx: TxId) {
    && !IsLocked(s.accounts, clientId)
    && tx in s.transactions
    && s.transactions[tx].clientId == clientId
    && s.transactions[tx].isDeposit
    && s.transactions[tx].status == Normal
  }

  /** The conditions under which a resolve takes effect. */
  predicate CanResolve(s: Ledger, clientId: ClientId, tx: TxId) {
    && !IsLocked(s.accounts, clientId)
    && tx in s.transactions
    && s.transactions[tx].clientId == clientId
    && s.transactions[tx].status == Disputed
  }

  /** The conditions under which a chargeback takes effect. */
  predicate CanChargeback(s: Ledger, clientId: ClientId, tx: TxId) {
    && tx in s.transactions
    && s.transactions[tx].clientId == clientId
    && s.transactions[tx].status == Disputed
    && clientId in s.accounts
    && !s.accounts[clientId].locked
  }

  /** A dispute of an owned normal deposit on a valid ledger marks it disputed
      and moves its amount from `available` (possibly below zero) to `held`,
      keeping the total; any other dispute changes nothing. No account is ever created. */
  lemma DisputeEffect(s: Ledger, clientId: ClientId, tx: TxId)
    requires Valid(s)
    ensures var r := Step(s, Dispute(clientId, tx));
      && r.accounts.Keys == s.accounts.Keys
      && (!CanDispute(s, clientId, tx) ==> r == s)
      && (CanDispute(s, clientId, tx) ==>
            var record := s.transactions[tx];
            var before := s.accounts[clientId];
            && r.transactions == s.transactions[tx := record.(status := Disputed)]
            && r.accounts == s.accounts[clientId := before.(available := before.available - record.amount,
                                                            held := before.held + record.amount)]
            && Total(r.accounts[clientId]) == Total(before))
  {
  }

  /** A resolve of an owned disputed record on a valid ledger marks it normal
      again and moves its amount from `held` back to `available`, keeping the
      total; any other resolve changes nothing. */
  lemma ResolveEffect(s: Ledger, clientId: ClientId, tx: TxId)
    requires Valid(s)
    ensures var r := Step(s, Resolve(clientId, tx));
      && r.accounts.Keys == s.accounts.Keys
      && (!CanResolve(s, clientId, tx) ==> r == s)
      && (CanResolve(s, clientId, tx) ==>
            var record := s.transactions[tx];
            var before := s.accounts[clientId];
            && r.transactions == s.transactions[tx := record.(status := Normal)]
            && r.accounts == s.accounts[clientId := before.(available := before.available + record.amount,
                                                            held := before.held - record.amount)]
            && Total(r.accounts[clientId]) == Total(before))
  {
  }

  /** A chargeback of an owned disputed record whose account is unfrozen marks
      it charged back, lowers `held` by the amount but never below zero, leaves
      `available` alone and freezes the account; any other chargeback changes nothing. */
  lemma ChargebackEffect(s: Ledger, clientId: ClientId, tx: TxId)
    ensures var r := Step(s, Chargeback(clientId, tx));
      && r.accounts.Keys == s.accounts.Keys
      && (!CanChargeback(s, clientId, tx) ==> r == s)
      && (CanChargeback(s, clientId, tx) ==>
            var record := s.transactions[tx];
            var before := s.accounts[clientId];
            && r.transactions == s.transactions[tx := record.(status := ChargedBack)]
            && r.accounts == s.accounts[clientId := before.(
                 held := if before.held >= record.amount then before.held - record.amount else 0.0,
                 locked := true)]
            && r.accounts[clientId].held >= 0.0)
  {
  }

  /** Disputing a record and then resolving it restores the whole ledger
      exactly, unless the record was already under dispute. */
  lemma DisputeThenResolve(s: Ledger, clientId: ClientId, tx: TxId)
    requires tx in s.transactions ==> s.transactions[tx].status != Disputed
    ensures Step(Step(s, Dispute(clientId, tx)), Resolve(clientId, tx)) == s
  {
  }


  // ---------------------------------------------------------------------------
  // What every command keeps true.

  /** One command's allowed effect on the ledger: nothing is removed, a
      record's owner, amount and kind never change, its status makes at most
      one allowed move, an account keeps its client id, and a frozen account
      stays frozen. */
  ghost predicate StepRelated(s: Ledger, r: Ledger) {
    && s.accounts.Keys <= r.accounts.Keys
    && s.transactions.Keys <= r.transactions.Keys
    && (forall c :: c in s.accounts ==>
          r.accounts[c].clientId == s.accounts[c].clientId && (s.accounts[c].locked ==> r.accounts[c].locked))
    && (forall tx :: tx in s.transactions ==>
          && r.transactions[tx].clientId == s.transactions[tx].clientId
          && r.transactions[tx].amount == s.transactions[tx].amount
          && r.transactions[tx].isDeposit == s.transactions[tx].isDeposit
          && Moves(s.transactions[tx].status, r.transactions[tx].status))
  }

  lemma StepIsRelated(s: Ledger, cmd: Command)
    ensures StepRelated(s, Step(s, cmd))
  {
  }

  /** The ledger's consistency: every account is filed under its own client id,
      every record's owner has an account, only deposits ever leave the Normal
      status, and an account is frozen exactly when one of its records has been
      charged back. */
  ghost predicate Valid(s: Ledger) {
    && RecordsValid(s)
    && (forall c :: c in s.accounts && s.accounts[c].locked ==> ChargedBackFor(s, c))
  }

  /** Some record owned by the client has been charged back. */
  ghost predicate ChargedBackFor(s: Ledger, c: ClientId) {
    exists tx :: tx in s.transactions && s.transactions[tx].clientId == c && s.transactions[tx].status == ChargedBack
  }

  lemma EmptyValid()
    ensures Valid(Empty())
  {
  }

  /** A charged-back record stays charged back and stays where it is, so it keeps witnessing its owner's freeze. */
  lemma ChargedBackForKept(s: Ledger, r: Ledger, c: ClientId)
    requires StepRelated(s, r) && ChargedBackFor(s, c)
    ensures ChargedBackFor(r, c)
  {
  }


  /** Every command preserves the ledger's consistency. */
  lemma StepPreservesValid(s: Ledger, cmd: Command)
    requires Valid(s)
    ensures Valid(Step(s, cmd))
  {
    var r := Step(s, cmd);
    StepIsRelated(s, cmd);
    forall c | c in r.accounts && r.accounts[c].locked
      ensures ChargedBackFor(r, c)
    {
      if c in s.accounts && s.accounts[c].locked {
        ChargedBackForKept(s, r, c);
      } else {
        // the account was frozen by this very command: a chargeback of one of its records
        ChargebackWitness(s, cmd, c);
      }
    }
    match cmd
    case Deposit(clientId, tx, amount) => DepositKeepsRecordsValid(s, clientId, tx, amount);
    case Withdrawal(clientId, tx, amount) => WithdrawalKeepsRecordsValid(s, clientId, tx, amount);
    case Dispute(clientId, tx) => DisputeKeepsRecordsValid(s, clientId, tx);
    case Resolve(clientId, tx) => ResolveKeepsRecordsValid(s, clientId, tx);
    case Chargeback(clientId, tx) => ChargebackKeepsRecordsValid(s, clientId, tx);
  }

  /** The record-level part of Valid: all of it but the last conjunct. */
  ghost predicate RecordsValid(s: Ledger) {
    && (forall c :: c in s.accounts ==> s.accounts[c].clientId == c)
    && (forall tx :: tx in s.transactions ==> s.transactions[tx].clientId in s.accounts)
    && (forall tx :: tx in s.transactions && s.transactions[tx].status != Normal ==> s.transactions[tx].isDeposit)
    && (forall tx :: tx in s.transactions && s.transactions[tx].status == ChargedBack ==>
          s.accounts[s.transactions[tx].clientId].locked)
  }

  /** An account that a command freezes is frozen by a chargeback of one of its own records. */
  lemma ChargebackWitness(s: Ledger, cmd: Command, c: ClientId)
    requires c in Step(s, cmd).accounts && Step(s, cmd).accounts[c].locked
    requires !IsLocked(s.accounts, c)
    ensures ChargedBackFor(Step(s, cmd), c)
  {
    assert cmd.Chargeback? && CanChargeback(s, cmd.clientId, cmd.tx) && c == cmd.clientId;
    assert Step(s, cmd).transactions[cmd.tx].status == ChargedBack;
  }

  lemma DepositKeepsRecordsValid(s: Ledger, clientId: ClientId, tx: TxId, amount: Amount)
    requires RecordsValid(s)
    ensures RecordsValid(ApplyDeposit(s, clientId, tx, amount))
  {
  }

  lemma WithdrawalKeepsRecordsValid(s: Ledger, clientId: ClientId, tx: TxId, amount: Amount)
    requires RecordsValid(s)
    ensures RecordsValid(ApplyWithdrawal(s, clientId, tx, amount))
  {
  }

  lemma DisputeKeepsRecordsValid(s: Ledger, clientId: ClientId, tx: TxId)
    requires RecordsValid(s)
    ensures RecordsValid(ApplyDispute(s, clientId, tx))
  {
  }

  lemma ResolveKeepsRecordsValid(s: Ledger, clientId: ClientId, tx: TxId)
    requires RecordsValid(s)
    ensures RecordsValid(ApplyResolve(s, clientId, tx))
  {
  }

  lemma ChargebackKeepsRecordsValid(s: Ledger, clientId: ClientId, tx: TxId)
    requires RecordsValid(s)
    ensures RecordsValid(ApplyChargeback(s, clientId, tx))
  {
  }

  /** A frozen account is never changed by any command. */
  lemma LockedAccountUnchanged(s: Ledger, cmd: Command, c: ClientId)
    requires IsLocked(s.accounts, c)
    ensures c in Step(s, cmd).accounts && Step(s, cmd).accounts[c] == s.accounts[c]
  {
  }
}
