/** The create use case in its own form: ordered effects on a repository and a publisher. */
module CreateContractUseCases {
  import opened Common
  import opened MoneyValue
  import opened FeeStructures
  import opened ContractStatuses
  import opened ContractEntity
  import opened ContractLifecycle

  /** Rows do not hold the event queue. */
  class ContractRepository {
    var rows: map<string, ContractState>

    constructor ()
      ensures rows == map[]
    {
      rows := map[];
    }
  }

  class EventPublisher {
    var published: seq<DomainEvent>

    constructor ()
      ensures published == []
    {
      published := [];
    }
  }

  /** What is stored and what has been announced. */
  datatype Stores = Stores(rows: map<string, ContractState>, published: seq<DomainEvent>)

  /** The row is saved first, and nothing undoes it. */
  function AfterExecution(s: Stores, i: CreateInput, saveThrows: bool, publishThrows: bool): Stores {
    if Execute(i).Err? || saveThrows then s
    else
      Stores(s.rows[i.id := Execute(i).value.contract],
             if publishThrows then s.published else s.published + Execute(i).value.published)
  }

  /** The use case's own errors, or an exception of the repository or the publisher. */
  datatype UseCaseError = Refused(error: CreateError) | SaveThrew | PublishThrew

  class CreateContractUseCase {
    const repository: ContractRepository
    const publisher: EventPublisher

    constructor (repository: ContractRepository, publisher: EventPublisher)
      ensures this.repository == repository && this.publisher == publisher
    {
      this.repository, this.publisher := repository, publisher;
    }

    /**
     * The fees are computed before anything is stored, so a refusal leaves repository and publisher untouched,
     * and so does a save that throws. The row is saved before its events are published, with nothing to undo
     * it: when the publisher throws, the contract is there and its creation was never announced.
     */
    method ExecuteUseCase(i: CreateInput, saveThrows: bool, publishThrows: bool)
      returns (result: Result<FeeBreakdown, UseCaseError>)
      modifies repository, publisher
      ensures result.Err? && result.error.Refused? <==> Execute(i).Err?
      ensures result.Err? && result.error.Refused? ==> result.error.error == Execute(i).error
      ensures Execute(i).Ok? ==>
        && (result == Err(SaveThrew) <==> saveThrows)
        && (result == Err(PublishThrew) <==> !saveThrows && publishThrows)
        && (result.Ok? ==> result.value == Execute(i).value.breakdown)
      ensures Stores(repository.rows, publisher.published)
        == AfterExecution(Stores(old(repository.rows), old(publisher.published)), i, saveThrows, publishThrows)
    {
      if !ValidInput(i) {
        return Err(Refused(InvalidInput));
      }
      var total := Total(i);
      if total != total.Floor as real {
        return Err(Refused(NonIntegerTotal));
      }
      TotalIsNotNegative(i);
      var contract := new Contract(i.id, Money(total.Floor, IDR), FeesOf(i), i.requestedBy);
      var breakdown := CalculateFees(contract.feeStructure, contract.totalAmount);
      if breakdown.Err? {
        return Err(Refused(FeesUndefined));
      }
      if saveThrows {
        return Err(SaveThrew);
      }
      repository.rows := repository.rows[i.id := contract.State().(domainEvents := [])];
      var events := contract.PullDomainEvents();
      if publishThrows {
        return Err(PublishThrew);
      }
      publisher.published := publisher.published + events;
      result := Ok(breakdown.value);
    }
  }

  /**
   * "All or nothing" is what the order of effects does not give: for a new id, the row is stored exactly when its
   * creation is published if and only if the publisher did not throw after a successful save.
   */
  lemma AllOrNothingExactly(s: Stores, i: CreateInput, saveThrows: bool, publishThrows: bool)
    requires Execute(i).Ok? && i.id !in s.rows
    ensures var s' := AfterExecution(s, i, saveThrows, publishThrows);
      (i.id in s'.rows <==> s'.published == s.published + Execute(i).value.published) <==> saveThrows || !publishThrows
  {
    assert |Execute(i).value.published| == 1;
  }

  /**
   * What the effects leave behind: the row is there exactly when the save did not throw, with no events queued; the
   * creation is announced exactly when nothing threw; the other rows and the earlier announcements stay.
   */
  lemma EffectsExactly(s: Stores, i: CreateInput, saveThrows: bool, publishThrows: bool)
    requires Execute(i).Ok?
    ensures var s' := AfterExecution(s, i, saveThrows, publishThrows);
      && (saveThrows ==> s' == s)
      && (!saveThrows ==> i.id in s'.rows && s'.rows[i.id].status == CREATED && s'.rows[i.id].domainEvents == [])
      && (forall id :: id != i.id ==> (id in s'.rows <==> id in s.rows) && (id in s.rows ==> s'.rows[id] == s.rows[id]))
      && (s'.published == s.published + [DomainEvent(Created, 1)] <==> !saveThrows && !publishThrows)
      && (saveThrows || publishThrows ==> s'.published == s.published)
  {
    SavedContractCharges(i);
  }
}
