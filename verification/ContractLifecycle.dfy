/**
 * Whole lives of a contract saved by the create use case
 * (src/application/use-cases/CreateContractUseCase.ts): commands and event pulls in any order.
 */
module ContractLifecycle {
  import opened Common
  import opened MoneyValue
  import opened FeeStructures
  import opened ContractStatuses
  import opened ContractEntity

  datatype CreateInput = CreateInput(
    id: string, sellerId: string, buyerId: string, mediatorId: Option<string>,
    quantity: real, unitPriceAmount: real, deliveryDeadlineDays: int,
    platformFeeBps: int, mediatorFeeBps: Option<int>, requestedBy: string)

  datatype CreateError = InvalidInput | NonIntegerTotal | FeesUndefined

  /** What the use case has done when it returns: the saved entity and the events it published. */
  datatype Saved = Saved(contract: ContractState, published: seq<DomainEvent>, breakdown: FeeBreakdown)

  /** The use case's checks; an empty identifier is falsy, a mediator rate of 0 needs no mediator. */
  predicate ValidInput(i: CreateInput) {
    && i.sellerId != "" && i.buyerId != "" && i.sellerId != i.buyerId
    && i.quantity > 0.0 && i.unitPriceAmount > 0.0 && i.deliveryDeadlineDays > 0
    && 0 <= i.platformFeeBps <= 1000
    && (i.mediatorFeeBps.Some? ==> 0 <= i.mediatorFeeBps.value <= 500)
    && (i.mediatorFeeBps.Some? && i.mediatorFeeBps.value != 0 ==>
          i.mediatorId.Some? && i.mediatorId.value != "")
  }

  function Round(x: real): int {
    (x + 0.5).Floor
  }

  function Total(i: CreateInput): real {
    i.quantity * Round(i.unitPriceAmount) as real
  }

  function FeesOf(i: CreateInput): FeeStructure {
    FeeStructure(i.platformFeeBps, i.mediatorFeeBps, None, Some(Money(5000, IDR)), Some(Money(500000, IDR)))
  }

  lemma TotalIsNotNegative(i: CreateInput)
    requires ValidInput(i)
    ensures Total(i) >= 0.0
  {
    assert Round(i.unitPriceAmount) >= 0;
  }

  /** Create the entity, compute its fees, and only then save it and publish its events. */
  function Execute(i: CreateInput): Result<Saved, CreateError> {
    if !ValidInput(i) then Err(InvalidInput)
    else
      var total := Total(i);
      if total != total.Floor as real then Err(NonIntegerTotal)
      else
        assert total.Floor >= 0 by { TotalIsNotNegative(i); }
        var contract := Fresh(i.id, Money(total.Floor, IDR), FeesOf(i), i.requestedBy);
        match CalculateFees(FeesOf(i), contract.totalAmount)
        case Err(_) => Err(FeesUndefined)
        case Ok(breakdown) => Ok(Saved(contract.(domainEvents := []), contract.domainEvents, breakdown))
  }

  /** The use case succeeds exactly on valid input with a whole total that covers the fees. */
  lemma ExecuteSucceedsExactly(i: CreateInput)
    ensures Execute(i).Ok? <==>
      && ValidInput(i)
      && Total(i) == Total(i).Floor as real
      && Total(i).Floor >= 0
      && 5000 + PercentOf(Total(i).Floor, MediatorBps(FeesOf(i))) <= Total(i).Floor
  {
    if ValidInput(i) && Total(i) == Total(i).Floor as real {
      TotalIsNotNegative(i);
      UseCaseFeesDefinedExactly(FeesOf(i), Total(i).Floor);
    }
  }

  /** A rule of the use case that the input breaks; an empty identifier counts as a missing one. */
  ghost predicate Breaks(i: CreateInput, rule: nat) {
    || (rule == 0 && (i.sellerId == "" || i.buyerId == ""))
    || (rule == 1 && i.sellerId == i.buyerId)
    || (rule == 2 && (i.quantity <= 0.0 || i.unitPriceAmount <= 0.0))
    || (rule == 3 && i.deliveryDeadlineDays <= 0)
    || (rule == 4 && (i.platformFeeBps < 0 || i.platformFeeBps > 1000))
    || (rule == 5 && i.mediatorFeeBps.Some? && (i.mediatorFeeBps.value < 0 || i.mediatorFeeBps.value > 500))
    || (rule == 6 && i.mediatorFeeBps.Some? && i.mediatorFeeBps.value != 0 && (i.mediatorId.None? || i.mediatorId.value == ""))
  }

  lemma ValidExactly(i: CreateInput)
    ensures ValidInput(i) <==> forall rule :: !Breaks(i, rule)
  {
    if !ValidInput(i) {
      if i.sellerId == "" || i.buyerId == "" {
        assert Breaks(i, 0);
      } else if i.sellerId == i.buyerId {
        assert Breaks(i, 1);
      } else if i.quantity <= 0.0 || i.unitPriceAmount <= 0.0 {
        assert Breaks(i, 2);
      } else if i.deliveryDeadlineDays <= 0 {
        assert Breaks(i, 3);
      } else if i.platformFeeBps < 0 || i.platformFeeBps > 1000 {
        assert Breaks(i, 4);
      } else if i.mediatorFeeBps.value < 0 || i.mediatorFeeBps.value > 500 {
        assert Breaks(i, 5);
      } else {
        assert Breaks(i, 6);
      }
    }
  }

  lemma RefusedTotals(i: CreateInput)
    requires ValidInput(i)
    ensures var total := Total(i);
      && total >= 0.0
      && (Execute(i) == Err(NonIntegerTotal) <==> total != total.Floor as real)
      && (Execute(i) == Err(FeesUndefined) <==>
            && total == total.Floor as real
            && total.Floor < 5000 + (total.Floor * MediatorBps(FeesOf(i)) + 5000) / 10000)
  {
    TotalIsNotNegative(i);
    UseCaseFeesDefinedExactly(FeesOf(i), Total(i).Floor);
  }

  /**
   * Every refusal and its cause: a broken rule; then a total that is not whole; then a total that does not cover
   * the platform's least fee and the mediator's share.
   */
  lemma RefusalsExactly(i: CreateInput, total: real)
    requires total == i.quantity * ((i.unitPriceAmount + 0.5).Floor as real)
    ensures Execute(i) == Err(InvalidInput) <==> exists rule :: Breaks(i, rule)
    ensures (forall rule :: !Breaks(i, rule)) ==>
        && total >= 0.0
        && (Execute(i) == Err(NonIntegerTotal) <==> total != total.Floor as real)
        && (Execute(i) == Err(FeesUndefined) <==>
              && total == total.Floor as real
              && total.Floor < 5000 + (total.Floor * MediatorBps(FeesOf(i)) + 5000) / 10000)
  {
    ValidExactly(i);
    assert total == Total(i);
    if ValidInput(i) { RefusedTotals(i); }
  }

  /**
   * What the use case agrees on, in numbers: the total is the quantity times the unit price rounded half up; the
   * platform charges its rounded percentage of it, at least 5000 and at most 500000; the mediator its rounded
   * percentage; the seller gets the rest.
   */
  lemma SavedContractCharges(i: CreateInput)
    requires Execute(i).Ok?
    ensures var saved := Execute(i).value;
      var total, b := saved.contract.totalAmount.amount, saved.breakdown;
      var mediatorBps := if i.mediatorFeeBps.Some? then i.mediatorFeeBps.value else 0;
      && total as real == i.quantity * ((i.unitPriceAmount + 0.5).Floor as real)
      && i.platformFeeBps >= 0 && mediatorBps >= 0
      && b.platformFee.amount == Min(500000, Max(5000, (total * i.platformFeeBps + 5000) / 10000))
      && MediatorAmount(b) == (total * mediatorBps + 5000) / 10000
      && b.netAmount.amount == total - b.platformFee.amount - MediatorAmount(b)
      && saved.contract.id == i.id && saved.contract.status == CREATED
      && saved.contract.auditTrail == [AuditEntry(Created, i.requestedBy)]
      && saved.published == [DomainEvent(Created, 1)]
  {
    FeesExactly(FeesOf(i), Execute(i).value.contract.totalAmount);
    MediatorFeeExactly(FeesOf(i), Execute(i).value.contract.totalAmount);
  }

  datatype Operation = Do(cmd: Command) | Pull

  /** A contract together with what has been pulled from it and how many commands it accepted. */
  datatype Life = Life(contract: ContractState, pulled: seq<seq<DomainEvent>>, accepted: nat)

  function Step(l: Life, op: Operation): Life
    requires ValidateFees(l.contract.feeStructure)
  {
    match op
    case Pull => l.(contract := l.contract.(domainEvents := []), pulled := l.pulled + [l.contract.domainEvents])
    case Do(cmd) =>
      var o := Apply(l.contract, cmd);
      l.(contract := o.state, accepted := if o.accepted then l.accepted + 1 else l.accepted)
  }

  function Run(l: Life, ops: seq<Operation>): Life
    requires ValidateFees(l.contract.feeStructure)
    decreases |ops|
  {
    if |ops| == 0 then l else Run(Step(l, ops[0]), ops[1..])
  }

  function Flatten(batches: seq<seq<DomainEvent>>): seq<DomainEvent> {
    if |batches| == 0 then [] else Flatten(batches[..|batches| - 1]) + batches[|batches| - 1]
  }

  /** Everything ever emitted: the pulled batches in order, then the queue. */
  function Emitted(l: Life): seq<DomainEvent> {
    Flatten(l.pulled) + l.contract.domainEvents
  }

  ghost predicate Sound(l: Life) {
    && ValidateFees(l.contract.feeStructure)
    && CalculateFees(l.contract.feeStructure, l.contract.totalAmount).Ok?
    && l.accepted + Remaining(l.contract.status) <= 4
    && |l.contract.auditTrail| == l.accepted + 1
    && |Emitted(l)| == |l.contract.auditTrail|
    && (forall k :: 0 <= k < |Emitted(l)| ==> Emitted(l)[k].action == l.contract.auditTrail[k].action)
    && (forall k :: 0 <= k < |l.contract.domainEvents| ==> l.contract.domainEvents[k].version == k + 1)
    && |Flatten(l.pulled)| >= 1
    && Emitted(l)[0].version == 1
    && (|Emitted(l)| >= 2 ==> Emitted(l)[1].version == 1)
  }

  /** The fees of `settle` are those the use case returned when the contract was created. */
  function SettledFees(l: Life): FeeBreakdown
    requires ValidateFees(l.contract.feeStructure)
    requires CalculateFees(l.contract.feeStructure, l.contract.totalAmount).Ok?
  {
    CalculateFees(l.contract.feeStructure, l.contract.totalAmount).value
  }

  /** Pulling moves the queue to the pulled batches, and nothing else. */
  lemma PullKeepsEmitted(l: Life)
    requires ValidateFees(l.contract.feeStructure)
    ensures Emitted(Step(l, Pull)) == Emitted(l)
    ensures |Flatten(Step(l, Pull).pulled)| >= |Flatten(l.pulled)|
  {
    assert Step(l, Pull).pulled[..|l.pulled|] == l.pulled;
  }

  lemma PullKeepsSound(l: Life)
    requires Sound(l)
    ensures Sound(Step(l, Pull)) && |Flatten(Step(l, Pull).pulled)| >= |Flatten(l.pulled)|
  {
    PullKeepsEmitted(l);
  }

  /** On a contract with defined fees, a command appends one entry and one event with its version, or changes nothing. */
  lemma CommandEffect(c: ContractState, cmd: Command)
    requires ValidateFees(c.feeStructure) && CalculateFees(c.feeStructure, c.totalAmount).Ok?
    ensures var o := Apply(c, cmd);
      && (o.accepted <==> CanTransition(c.status, Target(cmd)))
      && (!o.accepted ==> o.state == c)
      && (o.accepted ==>
            && o.state.status == Target(cmd)
            && |o.state.auditTrail| == |c.auditTrail| + 1 && c.auditTrail <= o.state.auditTrail
            && o.state.domainEvents == c.domainEvents + [DomainEvent(o.state.auditTrail[|c.auditTrail|].action, |c.domainEvents| + 1)])
      && o.state.feeStructure == c.feeStructure && o.state.totalAmount == c.totalAmount
  {
  }

  lemma CommandKeepsSound(l: Life, cmd: Command)
    requires Sound(l) && |Flatten(l.pulled)| >= 1
    ensures Sound(Step(l, Do(cmd)))
    ensures Apply(l.contract, cmd).accepted ==> |Emitted(Step(l, Do(cmd)))| == |Emitted(l)| + 1
  {
    CommandEffect(l.contract, cmd);
    var l' := Step(l, Do(cmd));
    if Apply(l.contract, cmd).accepted {
      TransitionsUseUpRemaining(l.contract.status, Target(cmd));
      var event := l'.contract.domainEvents[|l.contract.domainEvents|];
      assert Emitted(l') == Emitted(l) + [event];
    }
  }

  /** What one operation does to a sound life. */
  lemma StepKeepsSound(l: Life, op: Operation)
    requires Sound(l)
    ensures Sound(Step(l, op))
    ensures SettledFees(Step(l, op)) == SettledFees(l)
    ensures |Flatten(Step(l, op).pulled)| >= |Flatten(l.pulled)|
    ensures l.contract.auditTrail <= Step(l, op).contract.auditTrail
    ensures op.Do? ==> (Apply(l.contract, op.cmd).accepted <==> CanTransition(l.contract.status, Target(op.cmd)))
    ensures op.Do? && !Apply(l.contract, op.cmd).accepted ==> Step(l, op) == l
    ensures op.Do? && Apply(l.contract, op.cmd).accepted ==>
      && |Step(l, op).contract.auditTrail| == |l.contract.auditTrail| + 1
      && |Emitted(Step(l, op))| == |Emitted(l)| + 1
      && Step(l, op).contract.status == Target(op.cmd)
  {
    match op
    case Pull => PullKeepsSound(l);
    case Do(cmd) =>
      CommandEffect(l.contract, cmd);
      CommandKeepsSound(l, cmd);
  }

  lemma {:induction false} RunKeepsSound(l: Life, ops: seq<Operation>)
    requires Sound(l)
    requires |l.pulled| >= 1
    ensures Sound(Run(l, ops))
    ensures SettledFees(Run(l, ops)) == SettledFees(l)
    ensures l.contract.auditTrail <= Run(l, ops).contract.auditTrail
    decreases |ops|
  {
    if |ops| > 0 {
      StepKeepsSound(l, ops[0]);
      RunKeepsSound(Step(l, ops[0]), ops[1..]);
    }
  }

  function Born(i: CreateInput): Life
    requires Execute(i).Ok?
  {
    Life(Execute(i).value.contract, [Execute(i).value.published], 0)
  }

  lemma BornIsSound(i: CreateInput)
    requires Execute(i).Ok?
    ensures Sound(Born(i))
    ensures SettledFees(Born(i)) == Execute(i).value.breakdown
  {
    var batch := Execute(i).value.published;
    assert Born(i).pulled[..0] == [];
    assert Flatten(Born(i).pulled) == [] + batch;
    assert Emitted(Born(i)) == batch;
  }

  /**
   * Every run of a contract saved by the use case: at most 4 commands are accepted, each logged once and
   * emitted once, the audit trail and all emitted events agree one to one, nothing logged is ever lost, and
   * the fees stay defined and equal to those promised at creation.
   */
  lemma SavedContractLivesSoundly(i: CreateInput, ops: seq<Operation>)
    requires Execute(i).Ok?
    ensures Sound(Run(Born(i), ops))
    ensures Run(Born(i), ops).accepted <= 4
    ensures SettledFees(Run(Born(i), ops)) == Execute(i).value.breakdown
    ensures Born(i).contract.auditTrail <= Run(Born(i), ops).contract.auditTrail
  {
    BornIsSound(i);
    RunKeepsSound(Born(i), ops);
  }

  /** Hence `settle` never stops half-way on such a contract. */
  lemma SavedContractNeverSettlesHalfWay(i: CreateInput, ops: seq<Operation>, cmd: Command)
    requires Execute(i).Ok?
    ensures var c := Run(Born(i), ops).contract;
      && ValidateFees(c.feeStructure)
      && (!Apply(c, cmd).accepted ==> Apply(c, cmd).state == c)
  {
    SavedContractLivesSoundly(i, ops);
  }

  ghost predicate DistinctVersions(events: seq<DomainEvent>) {
    forall j, k :: 0 <= j < k < |events| ==> events[j].version != events[k].version
  }

  /**
   * The event versions of one contract are meant to be unique (migration 001 declares the pair of aggregate
   * and version unique). Pulling restarts the count, so for a contract saved by the use case they are
   * distinct exactly as long as no command has been accepted.
   */
  lemma VersionsDistinctExactlyUntilFirstCommand(i: CreateInput, ops: seq<Operation>)
    requires Execute(i).Ok?
    ensures DistinctVersions(Emitted(Run(Born(i), ops))) <==> Run(Born(i), ops).accepted == 0
  {
    SavedContractLivesSoundly(i, ops);
    var events := Emitted(Run(Born(i), ops));
    if |events| >= 2 {
      assert events[0].version == events[1].version;
    }
  }
}
