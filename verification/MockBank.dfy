/**
 * The sandbox bank (src/escrow/adapters/mock-bank.adapter.ts): accounts, batches of transfers and the timers
 * that complete them. Ids come from a generator that never repeats one; the simulated failure of a timer is an
 * argument of its step.
 */
module MockBanks {
  import opened Common
  import opened SettlementStatuses
  import opened SplitPayments

  datatype BankEntryType = BANK_CREDIT | BANK_DEBIT

  datatype BankTransaction = BankTransaction(
    kind: BankEntryType, amount: int, balanceAfter: int, referenceNumber: string, counterparty: string)

  datatype FreezeRecord = FreezeRecord(amount: int, referenceId: string)

  datatype MockAccount = MockAccount(
    balance: int, frozenAmount: int, freezeRecords: map<string, FreezeRecord>, transactions: seq<BankTransaction>)

  datatype TransferResult = TransferResult(
    recipientType: RecipientType, toAccountNumber: string, amount: int, status: BankTransferStatus)

  datatype Batch = Batch(referenceId: string, status: BankTransferStatus, transfers: seq<TransferResult>)

  datatype SplitTransferRequest = SplitTransferRequest(
    escrowAccountId: string, referenceId: string, totalAmount: int, transfers: seq<TransferLeg>)

  /** The timers hold the request whose batch they complete. */
  datatype BankState = BankState(
    accounts: map<string, MockAccount>, transfers: map<string, Batch>, timers: map<string, SplitTransferRequest>)

  datatype Ack = Accepted(batchId: string) | Rejected | AccountNotFound

  datatype BankStep =
    | CreateAccount(id: string, initialDeposit: int, contractId: string)
    | Deposit(id: string, amount: int, reference: string)
    | Freeze(id: string, amount: int, reference: string, freezeId: string)
    | Unfreeze(id: string, freezeId: string)
    | ExecuteSplit(request: SplitTransferRequest, batchId: string)
    | AutoComplete(batchId: string, shouldFail: bool)
    | ManuallyComplete(batchId: string, success: bool)
    | Reset

  function OpenedAccount(initialDeposit: int, contractId: string): MockAccount {
    MockAccount(initialDeposit, 0, map[],
      if initialDeposit > 0
      then [BankTransaction(BANK_CREDIT, initialDeposit, initialDeposit, "INIT-" + contractId, "")] else [])
  }

  function Deposited(a: MockAccount, amount: int, reference: string): MockAccount {
    a.(balance := a.balance + amount,
       transactions := a.transactions + [BankTransaction(BANK_CREDIT, amount, a.balance + amount, reference, "")])
  }

  function FreezeOn(a: MockAccount, amount: int, reference: string, freezeId: string): MockAccount {
    if amount > a.balance - a.frozenAmount then a
    else a.(frozenAmount := a.frozenAmount + amount,
            freezeRecords := a.freezeRecords[freezeId := FreezeRecord(amount, reference)])
  }

  function UnfreezeOn(a: MockAccount, freezeId: string): MockAccount {
    if freezeId !in a.freezeRecords then a
    else a.(frozenAmount := a.frozenAmount - a.freezeRecords[freezeId].amount,
            freezeRecords := a.freezeRecords - {freezeId})
  }

  /** The results a new batch reports, one for each leg. */
  function PendingTransfers(legs: seq<TransferLeg>): seq<TransferResult> {
    if |legs| == 0 then []
    else
      var leg := legs[|legs| - 1];
      PendingTransfers(legs[..|legs| - 1])
      + [TransferResult(leg.recipientType, leg.account.accountNumber, leg.amount, TRANSFER_PENDING)]
  }

  function WithStatus(transfers: seq<TransferResult>, status: BankTransferStatus): seq<TransferResult> {
    if |transfers| == 0 then []
    else
      WithStatus(transfers[..|transfers| - 1], status) + [transfers[|transfers| - 1].(status := status)]
  }

  /** One debit entry for each leg, all with the balance after the last of them. */
  function DebitEntries(legs: seq<TransferLeg>, balanceAfter: int, reference: string): seq<BankTransaction> {
    if |legs| == 0 then []
    else
      var leg := legs[|legs| - 1];
      DebitEntries(legs[..|legs| - 1], balanceAfter, reference)
      + [BankTransaction(BANK_DEBIT, leg.amount, balanceAfter, reference, leg.account.accountNumber)]
  }

  function DebitedFor(a: MockAccount, r: SplitTransferRequest): MockAccount {
    var balance := a.balance - r.totalAmount;
    a.(balance := balance,
       frozenAmount := Max(0, a.frozenAmount - r.totalAmount),
       transactions := a.transactions + DebitEntries(r.transfers, balance, r.referenceId))
  }

  ghost predicate HasBatch(b: BankState, batchId: string, referenceId: string) {
    batchId in b.transfers && b.transfers[batchId].referenceId == referenceId
  }

  ghost function FindByReference(b: BankState, referenceId: string): (r: Option<string>)
    ensures r.Some? ==> HasBatch(b, r.value, referenceId)
    ensures r.None? ==> forall batchId :: !HasBatch(b, batchId, referenceId)
  {
    if exists batchId :: HasBatch(b, batchId, referenceId) then
      var batchId :| HasBatch(b, batchId, referenceId);
      Some(batchId)
    else None
  }

  /** Only the whole balance is tested: what is frozen, or promised to other batches, counts as available. */
  ghost function ExecuteSplitTransfer(b: BankState, r: SplitTransferRequest, batchId: string, auto: bool): (BankState, Ack) {
    var existing := FindByReference(b, r.referenceId);
    if existing.Some? then (b, Accepted(existing.value))
    else if r.escrowAccountId !in b.accounts then (b, AccountNotFound)
    else if r.totalAmount > b.accounts[r.escrowAccountId].balance then (b, Rejected)
    else
      var batch := Batch(r.referenceId, TRANSFER_PENDING, PendingTransfers(r.transfers));
      (b.(transfers := b.transfers[batchId := batch],
          timers := if auto then b.timers[batchId := r] else b.timers), Accepted(batchId))
  }

  function Complete(b: BankState, batchId: string, status: BankTransferStatus): BankState
    requires batchId in b.transfers
  {
    var batch := b.transfers[batchId];
    b.(transfers := b.transfers[batchId := batch.(status := status, transfers := WithStatus(batch.transfers, status))])
  }

  /** The timer goes off: a batch that is gone or no longer pending is left alone. */
  function TimerFires(b: BankState, batchId: string, shouldFail: bool): BankState {
    if batchId !in b.timers then b
    else
      var r, rest := b.timers[batchId], b.(timers := b.timers - {batchId});
      if batchId !in b.transfers || b.transfers[batchId].status != TRANSFER_PENDING then rest
      else if shouldFail then Complete(rest, batchId, TRANSFER_FAILED)
      else
        var done := Complete(rest, batchId, TRANSFER_SUCCESS);
        if r.escrowAccountId in b.accounts
        then done.(accounts := b.accounts[r.escrowAccountId := DebitedFor(b.accounts[r.escrowAccountId], r)])
        else done
  }

  function OnAccount(b: BankState, id: string, a: MockAccount): BankState {
    b.(accounts := b.accounts[id := a])
  }

  /** A generated id is new to the bank, its pending timers included. */
  predicate FreshBatch(b: BankState, batchId: string) {
    batchId !in b.transfers && batchId !in b.timers
  }

  predicate FreshAccount(b: BankState, id: string) {
    id !in b.accounts && forall batchId :: batchId in b.timers ==> b.timers[batchId].escrowAccountId != id
  }

  ghost function Next(b: BankState, step: BankStep, auto: bool): BankState {
    match step
    case CreateAccount(id, initialDeposit, contractId) =>
      if FreshAccount(b, id) then OnAccount(b, id, OpenedAccount(initialDeposit, contractId)) else b
    case Deposit(id, amount, reference) =>
      if id in b.accounts then OnAccount(b, id, Deposited(b.accounts[id], amount, reference)) else b
    case Freeze(id, amount, reference, freezeId) =>
      if id in b.accounts then OnAccount(b, id, FreezeOn(b.accounts[id], amount, reference, freezeId)) else b
    case Unfreeze(id, freezeId) =>
      if id in b.accounts then OnAccount(b, id, UnfreezeOn(b.accounts[id], freezeId)) else b
    case ExecuteSplit(request, batchId) =>
      if FreshBatch(b, batchId) then ExecuteSplitTransfer(b, request, batchId, auto).0 else b
    case AutoComplete(batchId, shouldFail) => TimerFires(b, batchId, shouldFail)
    case ManuallyComplete(batchId, success) =>
      if batchId in b.transfers then Complete(b, batchId, if success then TRANSFER_SUCCESS else TRANSFER_FAILED) else b
    case Reset => BankState(map[], map[], b.timers)
  }

  ghost function Run(b: BankState, steps: seq<BankStep>, auto: bool): BankState
    decreases |steps|
  {
    if |steps| == 0 then b else Run(Next(b, steps[0], auto), steps[1..], auto)
  }

  ghost predicate ReferencesUnique(b: BankState) {
    forall x, y, r :: HasBatch(b, x, r) && HasBatch(b, y, r) ==> x == y
  }

  /** The adapter in its own form. */
  class MockBank {
    const autoComplete: bool
    var accounts: map<string, MockAccount>
    var transfers: map<string, Batch>
    var timers: map<string, SplitTransferRequest>

    function State(): BankState
      reads this
    {
      BankState(accounts, transfers, timers)
    }

    constructor (autoComplete: bool)
      ensures this.autoComplete == autoComplete && State() == BankState(map[], map[], map[])
    {
      this.autoComplete := autoComplete;
      accounts, transfers, timers := map[], map[], map[];
    }

    method CreateEscrowAccount(id: string, initialDeposit: int, contractId: string)
      requires FreshAccount(State(), id)
      modifies this
      ensures State() == Next(old(State()), CreateAccount(id, initialDeposit, contractId), autoComplete)
    {
      var transactions: seq<BankTransaction> := [];
      if initialDeposit > 0 {
        transactions := [BankTransaction(BANK_CREDIT, initialDeposit, initialDeposit, "INIT-" + contractId, "")];
      }
      accounts := accounts[id := MockAccount(initialDeposit, 0, map[], transactions)];
    }

    method DepositFunds(id: string, amount: int, reference: string) returns (found: bool)
      modifies `accounts
      ensures State() == Next(old(State()), Deposit(id, amount, reference), autoComplete)
      ensures found <==> id in old(accounts)
    {
      found := id in accounts;
      if found {
        var a := accounts[id];
        var balance := a.balance + amount;
        var entry := BankTransaction(BANK_CREDIT, amount, balance, reference, "");
        accounts := accounts[id := a.(balance := balance, transactions := a.transactions + [entry])];
      }
    }

    method FreezeFunds(id: string, amount: int, reference: string, freezeId: string) returns (success: bool)
      modifies `accounts
      ensures State() == Next(old(State()), Freeze(id, amount, reference, freezeId), autoComplete)
      ensures success <==> id in old(accounts) && amount <= old(accounts)[id].balance - old(accounts)[id].frozenAmount
    {
      success := id in accounts && amount <= accounts[id].balance - accounts[id].frozenAmount;
      if success {
        var a := accounts[id];
        accounts := accounts[id := a.(frozenAmount := a.frozenAmount + amount,
                                      freezeRecords := a.freezeRecords[freezeId := FreezeRecord(amount, reference)])];
      } else if id in accounts {
        assert accounts[id := accounts[id]] == accounts;
      }
    }

    method UnfreezeFunds(id: string, freezeId: string) returns (success: bool)
      modifies `accounts
      ensures State() == Next(old(State()), Unfreeze(id, freezeId), autoComplete)
      ensures success <==> id in old(accounts) && freezeId in old(accounts)[id].freezeRecords
    {
      success := id in accounts && freezeId in accounts[id].freezeRecords;
      if success {
        var a := accounts[id];
        accounts := accounts[id := a.(frozenAmount := a.frozenAmount - a.freezeRecords[freezeId].amount,
                                      freezeRecords := a.freezeRecords - {freezeId})];
      } else if id in accounts {
        assert accounts[id := accounts[id]] == accounts;
      }
    }

    /** findTransferByReferenceId over the batches; at most one has the reference. */
    method FindTransfer(referenceId: string) returns (found: Option<string>)
      requires ReferencesUnique(State())
      ensures found == FindByReference(State(), referenceId)
    {
      if batchId :| batchId in transfers && transfers[batchId].referenceId == referenceId {
        assert HasBatch(State(), batchId, referenceId);
        found := Some(batchId);
      } else {
        assert forall batchId :: !HasBatch(State(), batchId, referenceId);
        found := None;
      }
    }

    method ExecuteSplit(request: SplitTransferRequest, batchId: string) returns (ack: Ack)
      requires ReferencesUnique(State()) && FreshBatch(State(), batchId)
      modifies `transfers, `timers
      ensures (State(), ack) == ExecuteSplitTransfer(old(State()), request, batchId, autoComplete)
    {
      var existing := FindTransfer(request.referenceId);
      if existing.Some? {
        return Accepted(existing.value);
      }
      if request.escrowAccountId !in accounts {
        return AccountNotFound;
      }
      if request.totalAmount > accounts[request.escrowAccountId].balance {
        return Rejected;
      }
      var results: seq<TransferResult>, i := [], 0;
      while i < |request.transfers|
        invariant 0 <= i <= |request.transfers|
        invariant results == PendingTransfers(request.transfers[..i])
      {
        var leg := request.transfers[i];
        assert request.transfers[..i + 1][..i] == request.transfers[..i];
        results := results + [TransferResult(leg.recipientType, leg.account.accountNumber, leg.amount, TRANSFER_PENDING)];
        i := i + 1;
      }
      assert request.transfers[..i] == request.transfers;
      transfers := transfers[batchId := Batch(request.referenceId, TRANSFER_PENDING, results)];
      if autoComplete {
        timers := timers[batchId := request];
      }
      ack := Accepted(batchId);
    }

    /** The loop over the legs that both completions share. */
    method CompleteLegs(batchId: string, status: BankTransferStatus)
      requires batchId in transfers
      modifies `transfers
      ensures State() == Complete(old(State()), batchId, status)
    {
      var batch := transfers[batchId];
      var results: seq<TransferResult>, i := [], 0;
      while i < |batch.transfers|
        invariant 0 <= i <= |batch.transfers|
        invariant results == WithStatus(batch.transfers[..i], status)
      {
        assert batch.transfers[..i + 1][..i] == batch.transfers[..i];
        results := results + [batch.transfers[i].(status := status)];
        i := i + 1;
      }
      assert batch.transfers[..i] == batch.transfers;
      transfers := transfers[batchId := batch.(status := status, transfers := results)];
    }

    method ManuallyCompleteTransfer(batchId: string, success: bool) returns (found: bool)
      modifies `transfers
      ensures State() == Next(old(State()), ManuallyComplete(batchId, success), autoComplete)
      ensures found <==> batchId in old(transfers)
    {
      found := batchId in transfers;
      if found {
        CompleteLegs(batchId, if success then TRANSFER_SUCCESS else TRANSFER_FAILED);
      }
    }

    /** The timer's closure. */
    method FireTimer(batchId: string, shouldFail: bool)
      requires batchId in timers
      modifies this
      ensures State() == TimerFires(old(State()), batchId, shouldFail)
    {
      var r := timers[batchId];
      timers := timers - {batchId};
      if batchId !in transfers || transfers[batchId].status != TRANSFER_PENDING {
        return;
      }
      CompleteLegs(batchId, if shouldFail then TRANSFER_FAILED else TRANSFER_SUCCESS);
      if !shouldFail && r.escrowAccountId in accounts {
        var a := accounts[r.escrowAccountId];
        var balance := a.balance - r.totalAmount;
        var entries: seq<BankTransaction>, i := [], 0;
        while i < |r.transfers|
          invariant 0 <= i <= |r.transfers|
          invariant entries == DebitEntries(r.transfers[..i], balance, r.referenceId)
        {
          var leg := r.transfers[i];
          assert r.transfers[..i + 1][..i] == r.transfers[..i];
          entries := entries + [BankTransaction(BANK_DEBIT, leg.amount, balance, r.referenceId, leg.account.accountNumber)];
          i := i + 1;
        }
        assert r.transfers[..i] == r.transfers;
        accounts := accounts[r.escrowAccountId := a.(
          balance := balance, frozenAmount := Max(0, a.frozenAmount - r.totalAmount), transactions := a.transactions + entries)];
      }
    }

    method ResetBank()
      modifies `accounts, `transfers
      ensures State() == Next(old(State()), Reset, autoComplete)
    {
      accounts, transfers := map[], map[];
    }
  }
}
