/**
 * The contract entity (src/domain/entities/Contract.ts) with its append-only audit trail
 * (src/domain/value-objects/AuditTrail.ts) and its queue of domain events.
 */
module ContractEntity {
  import opened Common
  import opened MoneyValue
  import opened FeeStructures
  import opened ContractStatuses

  datatype Action = Created | Funded | Verified | Settled(fees: FeeBreakdown) | Disputed | Cancelled

  datatype AuditEntry = AuditEntry(action: Action, performedBy: string)

  /** The version an event gets is its position in the queue at the time, counted from 1. */
  datatype DomainEvent = DomainEvent(action: Action, version: nat)

  datatype ContractState = ContractState(
    id: string,
    status: ContractStatus,
    totalAmount: Money,
    feeStructure: FeeStructure,
    escrowAccountId: Option<string>,
    qrisPaymentCode: Option<string>,
    blockchainTxHash: Option<string>,
    auditTrail: seq<AuditEntry>,
    domainEvents: seq<DomainEvent>)

  datatype Command =
    | Fund(escrowAccountId: string, qrisPaymentCode: string, performedBy: string)
    | Verify(performedBy: string)
    | Settle(blockchainTxHash: string, performedBy: string)
    | Dispute(performedBy: string)
    | Cancel(performedBy: string)

  /** What a call leaves behind, and whether it returned normally (otherwise it threw). */
  datatype Outcome = Outcome(state: ContractState, accepted: bool)

  function Record(s: ContractState, action: Action, performedBy: string): ContractState {
    s.(auditTrail := s.auditTrail + [AuditEntry(action, performedBy)],
       domainEvents := s.domainEvents + [DomainEvent(action, |s.domainEvents| + 1)])
  }

  function Fresh(id: string, total: Money, fees: FeeStructure, createdBy: string): ContractState {
    Record(ContractState(id, CREATED, total, fees, None, None, None, [], []), Created, createdBy)
  }

  function Target(cmd: Command): ContractStatus {
    match cmd
    case Fund(_, _, _) => FUNDED
    case Verify(_) => VERIFIED
    case Settle(_, _) => SETTLED
    case Dispute(_) => DISPUTED
    case Cancel(_) => CANCELLED
  }

  /** The fees are computed after the status and the transaction hash have been set. */
  function ApplySettle(s: ContractState, txHash: string, performedBy: string): Outcome
    requires ValidateFees(s.feeStructure)
  {
    var moved := s.(status := SETTLED, blockchainTxHash := Some(txHash));
    match CalculateFees(s.feeStructure, s.totalAmount)
    case Err(_) => Outcome(moved, false)
    case Ok(fees) => Outcome(Record(moved, Settled(fees), performedBy), true)
  }

  function Apply(s: ContractState, cmd: Command): Outcome
    requires ValidateFees(s.feeStructure)
  {
    if !CanTransition(s.status, Target(cmd)) then Outcome(s, false)
    else
      match cmd
      case Fund(escrow, qris, who) =>
        Outcome(Record(s.(status := FUNDED, escrowAccountId := Some(escrow), qrisPaymentCode := Some(qris)), Funded, who), true)
      case Verify(who) => Outcome(Record(s.(status := VERIFIED), Verified, who), true)
      case Settle(txHash, who) => ApplySettle(s, txHash, who)
      case Dispute(who) => Outcome(Record(s.(status := DISPUTED), Disputed, who), true)
      case Cancel(who) => Outcome(Record(s.(status := CANCELLED), Cancelled, who), true)
  }

  class Contract {
    const id: string
    const totalAmount: Money
    const feeStructure: FeeStructure
    var status: ContractStatus
    var escrowAccountId: Option<string>
    var qrisPaymentCode: Option<string>
    var blockchainTxHash: Option<string>
    var auditTrail: seq<AuditEntry>
    var domainEvents: seq<DomainEvent>

    function State(): ContractState
      reads this
    {
      ContractState(id, status, totalAmount, feeStructure, escrowAccountId, qrisPaymentCode,
                    blockchainTxHash, auditTrail, domainEvents)
    }

    /** create: quantity times unit price has been computed by the caller. */
    constructor (id: string, totalAmount: Money, feeStructure: FeeStructure, createdBy: string)
      ensures State() == Fresh(id, totalAmount, feeStructure, createdBy)
    {
      this.id := id;
      this.totalAmount := totalAmount;
      this.feeStructure := feeStructure;
      status := CREATED;
      escrowAccountId, qrisPaymentCode, blockchainTxHash := None, None, None;
      auditTrail, domainEvents := [], [];
      new;
      AddEntries(Created, createdBy);
    }

    method AddEntries(action: Action, performedBy: string)
      modifies this
      ensures State() == Record(old(State()), action, performedBy)
    {
      auditTrail := auditTrail + [AuditEntry(action, performedBy)];
      domainEvents := domainEvents + [DomainEvent(action, |domainEvents| + 1)];
    }

    method FundContract(escrow: string, qris: string, who: string) returns (ok: bool)
      requires ValidateFees(feeStructure)
      modifies this
      ensures Outcome(State(), ok) == Apply(old(State()), Fund(escrow, qris, who))
    {
      ok := CanTransition(status, FUNDED);
      if ok {
        status, escrowAccountId, qrisPaymentCode := FUNDED, Some(escrow), Some(qris);
        AddEntries(Funded, who);
      }
    }

    method VerifyContract(who: string) returns (ok: bool)
      requires ValidateFees(feeStructure)
      modifies this
      ensures Outcome(State(), ok) == Apply(old(State()), Verify(who))
    {
      ok := CanTransition(status, VERIFIED);
      if ok {
        status := VERIFIED;
        AddEntries(Verified, who);
      }
    }

    method SettleContract(txHash: string, who: string) returns (ok: bool)
      requires ValidateFees(feeStructure)
      modifies this
      ensures Outcome(State(), ok) == Apply(old(State()), Settle(txHash, who))
    {
      ok := CanTransition(status, SETTLED);
      if ok {
        status, blockchainTxHash := SETTLED, Some(txHash);
        var fees := CalculateFees(feeStructure, totalAmount);
        if fees.Err? {
          return false;
        }
        AddEntries(Settled(fees.value), who);
      }
    }

    method DisputeContract(who: string) returns (ok: bool)
      requires ValidateFees(feeStructure)
      modifies this
      ensures Outcome(State(), ok) == Apply(old(State()), Dispute(who))
    {
      ok := CanTransition(status, DISPUTED);
      if ok {
        status := DISPUTED;
        AddEntries(Disputed, who);
      }
    }

    method CancelContract(who: string) returns (ok: bool)
      requires ValidateFees(feeStructure)
      modifies this
      ensures Outcome(State(), ok) == Apply(old(State()), Cancel(who))
    {
      ok := CanTransition(status, CANCELLED);
      if ok {
        status := CANCELLED;
        AddEntries(Cancelled, who);
      }
    }

    method PullDomainEvents() returns (events: seq<DomainEvent>)
      modifies this
      ensures events == old(domainEvents)
      ensures State() == old(State()).(domainEvents := [])
    {
      events := domainEvents;
      domainEvents := [];
    }
  }

  /** The action, and who performed it, that each command stands for. */
  predicate Stands(cmd: Command, entry: AuditEntry) {
    match cmd
    case Fund(_, _, who) => entry == AuditEntry(Funded, who)
    case Verify(who) => entry == AuditEntry(Verified, who)
    case Settle(_, who) => entry.action.Settled? && entry.performedBy == who
    case Dispute(who) => entry == AuditEntry(Disputed, who)
    case Cancel(who) => entry == AuditEntry(Cancelled, who)
  }

  /**
   * An accepted command moves to its status, appends to trail and queue the one action it stands for (with the
   * fees, if it settles), and sets the references it brings; nothing else changes.
   */
  lemma AcceptedCommandRecordsItself(s: ContractState, cmd: Command)
    requires ValidateFees(s.feeStructure) && Apply(s, cmd).accepted
    ensures var t := Apply(s, cmd).state;
      && |t.auditTrail| == |s.auditTrail| + 1 && |t.domainEvents| == |s.domainEvents| + 1
      && var entry, event := t.auditTrail[|s.auditTrail|], t.domainEvents[|s.domainEvents|];
      && t.auditTrail == s.auditTrail + [entry] && t.domainEvents == s.domainEvents + [event]
      && Stands(cmd, entry) && event.action == entry.action && event.version == |s.domainEvents| + 1
      && (cmd.Settle? ==> CalculateFees(s.feeStructure, s.totalAmount) == Ok(entry.action.fees))
      && t.escrowAccountId == (if cmd.Fund? then Some(cmd.escrowAccountId) else s.escrowAccountId)
      && t.qrisPaymentCode == (if cmd.Fund? then Some(cmd.qrisPaymentCode) else s.qrisPaymentCode)
      && t.blockchainTxHash == (if cmd.Settle? then Some(cmd.blockchainTxHash) else s.blockchainTxHash)
      && t.id == s.id && t.totalAmount == s.totalAmount && t.feeStructure == s.feeStructure
      && t.status == (match cmd
                      case Fund(_, _, _) => FUNDED
                      case Verify(_) => VERIFIED
                      case Settle(_, _) => SETTLED
                      case Dispute(_) => DISPUTED
                      case Cancel(_) => CANCELLED)
  {
  }

  /**
   * A command throws half-way (status already moved, nothing logged) exactly when it is a settlement that
   * the table allows and whose fees are undefined.
   */
  lemma HalfWayExactlyWhenFeesUndefined(s: ContractState, cmd: Command)
    requires ValidateFees(s.feeStructure)
    ensures !Apply(s, cmd).accepted && Apply(s, cmd).state != s && Apply(s, cmd).state.status != s.status <==>
      cmd.Settle? && s.status in {VERIFIED, DISPUTED} && CalculateFees(s.feeStructure, s.totalAmount).Err?
  {
  }

  /** The case occurs for an entity created directly: the default minimum exceeds a total of 1. */
  lemma DirectContractCanSettleHalfWay()
    ensures var fees := FeeStructure(100, None, None, Some(Money(5000, IDR)), Some(Money(500000, IDR)));
      var s := Fresh("c", Money(1, IDR), fees, "seller").(status := VERIFIED);
      && ValidateFees(fees)
      && var o := Apply(s, Settle("0x1", "operator"));
         !o.accepted && o.state.status == SETTLED && o.state.auditTrail == s.auditTrail
  {
  }
}
