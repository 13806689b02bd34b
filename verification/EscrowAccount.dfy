/** The escrow account entity (src/escrow/domain/escrow-account.entity.ts). */
module EscrowAccounts {
  import opened Common
  import opened SettlementStatuses

  datatype TransactionType = CREDIT | DEBIT | FREEZE | UNFREEZE

  datatype EscrowTransaction = EscrowTransaction(
    kind: TransactionType, amount: int, balanceBefore: int, balanceAfter: int, reference: string)

  datatype AccountState = AccountState(
    id: string,
    contractId: string,
    balance: int,
    frozenAmount: int,
    status: EscrowAccountStatus,
    transactions: seq<EscrowTransaction>,
    version: nat)

  datatype Command =
    | Credit(amount: int, reference: string)
    | Debit(amount: int, reference: string)
    | FreezeFunds(amount: int, reference: string)
    | UnfreezeFunds(amount: int, reference: string)
    | Close

  datatype Outcome = Outcome(state: AccountState, accepted: bool)

  function New(id: string, contractId: string): AccountState {
    AccountState(id, contractId, 0, 0, ACTIVE, [], 1)
  }

  function Available(a: AccountState): int {
    a.balance - a.frozenAmount
  }

  /** Logs a transaction whose effect on the balance has already been applied. */
  function Record(a: AccountState, kind: TransactionType, amount: int, before: int, reference: string): AccountState {
    a.(transactions := a.transactions + [EscrowTransaction(kind, amount, before, a.balance, reference)],
       version := a.version + 1)
  }

  function Apply(a: AccountState, cmd: Command): Outcome {
    match cmd
    case Credit(amount, reference) =>
      if amount <= 0 || a.status == CLOSED then Outcome(a, false)
      else Outcome(Record(a.(balance := a.balance + amount), CREDIT, amount, a.balance, reference), true)
    case Debit(amount, reference) =>
      if amount <= 0 || a.status == CLOSED || amount > Available(a) then Outcome(a, false)
      else
        var frozen := if a.frozenAmount > 0 then a.frozenAmount - Min(amount, a.frozenAmount) else a.frozenAmount;
        Outcome(Record(a.(balance := a.balance - amount, frozenAmount := frozen), DEBIT, amount, a.balance, reference), true)
    case FreezeFunds(amount, reference) =>
      if amount <= 0 || amount > Available(a) then Outcome(a, false)
      else
        var frozen := a.frozenAmount + amount;
        var status := if frozen >= a.balance then FROZEN else a.status;
        Outcome(Record(a.(frozenAmount := frozen, status := status), FREEZE, amount, a.balance, reference), true)
    case UnfreezeFunds(amount, reference) =>
      if amount <= 0 || amount > a.frozenAmount then Outcome(a, false)
      else
        var frozen := a.frozenAmount - amount;
        var status := if frozen < a.balance && a.status == FROZEN then ACTIVE else a.status;
        Outcome(Record(a.(frozenAmount := frozen, status := status), UNFREEZE, amount, a.balance, reference), true)
    case Close =>
      if a.balance > 0 || a.status == CLOSED then Outcome(a, false)
      else Outcome(a.(status := CLOSED, version := a.version + 1), true)
  }

  class EscrowAccount {
    const id: string
    const contractId: string
    var balance: int
    var frozenAmount: int
    var status: EscrowAccountStatus
    var transactions: seq<EscrowTransaction>
    var version: nat

    function ToPersistence(): AccountState
      reads this
    {
      AccountState(id, contractId, balance, frozenAmount, status, transactions, version)
    }

    constructor FromPersistence(props: AccountState)
      ensures ToPersistence() == props
    {
      id, contractId := props.id, props.contractId;
      balance, frozenAmount, status := props.balance, props.frozenAmount, props.status;
      transactions, version := props.transactions, props.version;
    }

    method RecordTransaction(kind: TransactionType, amount: int, before: int, reference: string)
      modifies `transactions, `version
      ensures ToPersistence() == Record(old(ToPersistence()), kind, amount, before, reference)
    {
      transactions := transactions + [EscrowTransaction(kind, amount, before, balance, reference)];
      version := version + 1;
    }

    method CreditAccount(amount: int, reference: string) returns (ok: bool)
      modifies this
      ensures Outcome(ToPersistence(), ok) == Apply(old(ToPersistence()), Credit(amount, reference))
    {
      if amount <= 0 || status == CLOSED {
        return false;
      }
      var before := balance;
      balance := balance + amount;
      RecordTransaction(CREDIT, amount, before, reference);
      ok := true;
    }

    method DebitAccount(amount: int, reference: string) returns (ok: bool)
      modifies this
      ensures Outcome(ToPersistence(), ok) == Apply(old(ToPersistence()), Debit(amount, reference))
    {
      if amount <= 0 || status == CLOSED || amount > balance - frozenAmount {
        return false;
      }
      var before := balance;
      balance := balance - amount;
      if frozenAmount > 0 {
        frozenAmount := frozenAmount - Min(amount, frozenAmount);
      }
      RecordTransaction(DEBIT, amount, before, reference);
      ok := true;
    }

    method Freeze(amount: int, reference: string) returns (ok: bool)
      modifies this
      ensures Outcome(ToPersistence(), ok) == Apply(old(ToPersistence()), FreezeFunds(amount, reference))
    {
      if amount <= 0 || amount > balance - frozenAmount {
        return false;
      }
      frozenAmount := frozenAmount + amount;
      if frozenAmount >= balance {
        status := FROZEN;
      }
      RecordTransaction(FREEZE, amount, balance, reference);
      ok := true;
    }

    method Unfreeze(amount: int, reference: string) returns (ok: bool)
      modifies this
      ensures Outcome(ToPersistence(), ok) == Apply(old(ToPersistence()), UnfreezeFunds(amount, reference))
    {
      if amount <= 0 || amount > frozenAmount {
        return false;
      }
      frozenAmount := frozenAmount - amount;
      if frozenAmount < balance && status == FROZEN {
        status := ACTIVE;
      }
      RecordTransaction(UNFREEZE, amount, balance, reference);
      ok := true;
    }

    method CloseAccount() returns (ok: bool)
      modifies this
      ensures Outcome(ToPersistence(), ok) == Apply(old(ToPersistence()), Close)
    {
      if balance > 0 || status == CLOSED {
        return false;
      }
      status, version := CLOSED, version + 1;
      ok := true;
    }
  }

  // ---- The log as a second account of the balance ----

  /** The sum of the logged amounts of one kind (getTotalCredits, getTotalDebits). */
  function TotalOf(kind: TransactionType, log: seq<EscrowTransaction>): int {
    if |log| == 0 then 0
    else
      var last := log[|log| - 1];
      TotalOf(kind, log[..|log| - 1]) + (if last.kind == kind then last.amount else 0)
  }

  /** verifyBalance: the recomputed balance and whether it equals the stored one. */
  function VerifyBalance(a: AccountState): (bool, int) {
    var calculated := TotalOf(CREDIT, a.transactions) - TotalOf(DEBIT, a.transactions);
    (calculated == a.balance, calculated)
  }

  datatype Funds = Funds(balance: int, frozen: int)

  /** The effect of one logged transaction; a debit also consumes frozen money, as far as there is any. */
  function ReplayOne(f: Funds, t: EscrowTransaction): Funds {
    match t.kind
    case CREDIT => f.(balance := f.balance + t.amount)
    case DEBIT => Funds(f.balance - t.amount, f.frozen - Min(t.amount, f.frozen))
    case FREEZE => f.(frozen := f.frozen + t.amount)
    case UNFREEZE => f.(frozen := f.frozen - t.amount)
  }

  function Replay(log: seq<EscrowTransaction>): Funds {
    if |log| == 0 then Funds(0, 0) else ReplayOne(Replay(log[..|log| - 1]), log[|log| - 1])
  }

  /** Each entry starts from the balance at which the previous one ended. */
  ghost predicate Chained(log: seq<EscrowTransaction>, balance: int) {
    && (|log| == 0 ==> balance == 0)
    && (|log| > 0 ==> log[0].balanceBefore == 0 && log[|log| - 1].balanceAfter == balance)
    && (forall k :: 0 <= k < |log| - 1 ==> log[k].balanceAfter == log[k + 1].balanceBefore)
  }

  ghost predicate Valid(a: AccountState) {
    && 0 <= a.frozenAmount <= a.balance
    && Replay(a.transactions) == Funds(a.balance, a.frozenAmount)
    && TotalOf(CREDIT, a.transactions) - TotalOf(DEBIT, a.transactions) == a.balance
    && Chained(a.transactions, a.balance)
    && (forall k :: 0 <= k < |a.transactions| ==> a.transactions[k].amount > 0)
    && (a.status == CLOSED ==> a.balance == 0)
    && (a.status == ACTIVE ==> a.frozenAmount == 0 || a.frozenAmount < a.balance)
    && a.version == 1 + |a.transactions| + (if a.status == CLOSED then 1 else 0)
  }

  /** Appending an entry is one replay step and one summand. */
  lemma Appending(log: seq<EscrowTransaction>, t: EscrowTransaction)
    ensures Replay(log + [t]) == ReplayOne(Replay(log), t)
    ensures forall kind :: TotalOf(kind, log + [t]) == TotalOf(kind, log) + (if t.kind == kind then t.amount else 0)
  {
    assert (log + [t])[..|log|] == log;
  }

  /** One more entry on a sound account, with the funds that follow from it. */
  lemma EntryKeepsValid(a: AccountState, b: AccountState, t: EscrowTransaction)
    requires Valid(a) && a.status != CLOSED && b.status != CLOSED
    requires b.transactions == a.transactions + [t] && b.version == a.version + 1
    requires t.amount > 0 && t.balanceBefore == a.balance && t.balanceAfter == b.balance
    requires Funds(b.balance, b.frozenAmount) == ReplayOne(Funds(a.balance, a.frozenAmount), t)
    requires 0 <= b.frozenAmount <= b.balance
    requires b.status == ACTIVE ==> b.frozenAmount == 0 || b.frozenAmount < b.balance
    ensures Valid(b)
  {
    Appending(a.transactions, t);
  }

  lemma ApplyKeepsValid(a: AccountState, cmd: Command)
    requires Valid(a)
    ensures Valid(Apply(a, cmd).state)
    ensures !Apply(a, cmd).accepted ==> Apply(a, cmd).state == a
    ensures a.transactions <= Apply(a, cmd).state.transactions
  {
    if Apply(a, cmd).accepted && !cmd.Close? {
      EntryKeepsValid(a, Apply(a, cmd).state, Entry(a, cmd));
    }
  }

  function Run(a: AccountState, cmds: seq<Command>): AccountState
    decreases |cmds|
  {
    if |cmds| == 0 then a else Run(Apply(a, cmds[0]).state, cmds[1..])
  }

  lemma {:induction false} RunKeepsValid(a: AccountState, cmds: seq<Command>)
    requires Valid(a)
    ensures Valid(Run(a, cmds))
    ensures a.transactions <= Run(a, cmds).transactions
    decreases |cmds|
  {
    if |cmds| > 0 {
      ApplyKeepsValid(a, cmds[0]);
      RunKeepsValid(Apply(a, cmds[0]).state, cmds[1..]);
    }
  }

  /**
   * After any sequence of commands on a new account, accepted or not: replaying the log from zero gives the
   * balance and the frozen amount, the entries are chained, verifyBalance reports a match, and the frozen
   * amount lies between 0 and the balance.
   */
  lemma LogTellsTheWholeStory(id: string, contractId: string, cmds: seq<Command>)
    ensures var a := Run(New(id, contractId), cmds);
      && Replay(a.transactions) == Funds(a.balance, a.frozenAmount)
      && Chained(a.transactions, a.balance)
      && VerifyBalance(a) == (true, a.balance)
      && 0 <= a.frozenAmount <= a.balance
  {
    RunKeepsValid(New(id, contractId), cmds);
  }

  /**
   * An accepted debit takes its amount from the balance but releases frozen money besides: what is available
   * falls by less than the amount, and by exactly the amount only when nothing was frozen.
   */
  lemma DebitReleasesFrozenMoney(a: AccountState, amount: int, reference: string)
    requires Valid(a)
    requires Apply(a, Debit(amount, reference)).accepted
    ensures var b := Apply(a, Debit(amount, reference)).state;
      && b.balance == a.balance - amount
      && Available(b) == Available(a) - amount + Min(amount, a.frozenAmount)
      && (Available(b) == Available(a) - amount <==> a.frozenAmount == 0)
  {
  }

  /** The log entry an accepted command with an amount leaves. */
  function Entry(a: AccountState, cmd: Command): EscrowTransaction
    requires !cmd.Close?
  {
    match cmd
    case Credit(amount, r) => EscrowTransaction(CREDIT, amount, a.balance, a.balance + amount, r)
    case Debit(amount, r) => EscrowTransaction(DEBIT, amount, a.balance, a.balance - amount, r)
    case FreezeFunds(amount, r) => EscrowTransaction(FREEZE, amount, a.balance, a.balance, r)
    case UnfreezeFunds(amount, r) => EscrowTransaction(UNFREEZE, amount, a.balance, a.balance, r)
  }

  /**
   * Acceptance, by the effect on the funds: a positive amount on an open account is accepted exactly when
   * replaying its entry leaves 0 <= frozen <= balance, except that a debit is refused unless what is
   * available alone covers it. An accepted command leaves exactly that entry.
   */
  lemma AcceptedExactly(a: AccountState, cmd: Command)
    requires Valid(a) && !cmd.Close?
    ensures var after := ReplayOne(Funds(a.balance, a.frozenAmount), Entry(a, cmd));
      var o := Apply(a, cmd);
      && (o.accepted <==>
            && cmd.amount > 0 && a.status != CLOSED
            && 0 <= after.frozen <= after.balance
            && (cmd.Debit? ==> cmd.amount <= Available(a)))
      && (o.accepted ==>
            && o.state.transactions == a.transactions + [Entry(a, cmd)]
            && Funds(o.state.balance, o.state.frozenAmount) == after)
  {
  }

  /** An account can be closed exactly when it is open and empty. */
  lemma CloseAcceptedExactly(a: AccountState)
    requires Valid(a)
    ensures Apply(a, Close).accepted <==> a.balance == 0 && a.status != CLOSED
  {
  }

  /** Credits and debits keep the status, unfreezing makes the account active, freezing everything frozen. */
  lemma StatusAfter(a: AccountState, cmd: Command)
    requires Valid(a) && Apply(a, cmd).accepted
    ensures var b := Apply(a, cmd).state;
      match cmd
      case Credit(_, _) => b.status == a.status
      case Debit(_, _) => b.status == a.status
      case FreezeFunds(_, _) => b.status == FROZEN <==> Available(b) == 0 || a.status == FROZEN
      case UnfreezeFunds(_, _) => b.status == ACTIVE
      case Close => b.status == CLOSED && b.balance == 0 && b.transactions == a.transactions
  {
  }

  /** Unfreezing what was just frozen restores both funds and leaves the account active. */
  lemma UnfreezeUndoesFreeze(a: AccountState, amount: int, r1: string, r2: string)
    requires Valid(a)
    requires Apply(a, FreezeFunds(amount, r1)).accepted
    ensures var b := Apply(Apply(a, FreezeFunds(amount, r1)).state, UnfreezeFunds(amount, r2));
      && b.accepted
      && b.state.balance == a.balance && b.state.frozenAmount == a.frozenAmount
      && b.state.status == ACTIVE
  {
    ApplyKeepsValid(a, FreezeFunds(amount, r1));
  }

  /** A closed account accepts nothing ever again, although freezing and unfreezing do not test for it. */
  lemma ClosedIsFinal(a: AccountState, cmd: Command)
    requires Valid(a) && a.status == CLOSED
    ensures !Apply(a, cmd).accepted && Apply(a, cmd).state == a
  {
  }
}
