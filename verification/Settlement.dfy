/** The settlement entity (src/escrow/domain/settlement.entity.ts). */
module SettlementEntity {
  import opened Common
  import opened SettlementStatuses
  import opened SplitPayments

  datatype BankTransferResult = BankTransferResult(
    legIndex: nat, recipientType: RecipientType, status: BankTransferStatus)

  datatype Action =
    | SettlementInitiated
    | EscrowLocked
    | BankTransferInitiated(batch: Option<string>)
    | BankLegResult(result: BankTransferResult)
    | BankTransferSuccess
    | BankTransferFailed
    | BlockchainTxSubmitted(txHash: string)
    | SettlementCompleted(blockNumber: int)
    | BlockchainTxFailed
    | ManualReviewRequired
    | SettlementCancelled
    | RetryPrepared(retryCount: nat)
    | BlockedByStateChange(currentStatus: int, expectedStatus: int)
    | FrozenByDispute(blockNumber: int)
    | OnChainStatusVerified(onChainStatus: int)
    | UnfrozenAfterDisputeResolution

  /** One entry of the audit log: the status after the action, and the action. */
  datatype Event = Event(status: SettlementStatus, action: Action)

  datatype SettlementState = SettlementState(
    id: string,
    contractId: string,
    escrowAccountId: string,
    split: SplitPayment,
    referenceId: string,
    status: SettlementStatus,
    results: seq<BankTransferResult>,
    txHash: Option<string>,
    blockNumber: Option<int>,
    errorMessage: Option<string>,
    events: seq<Event>,
    retryCount: nat,
    version: nat)

  datatype Command =
    | MarkEscrowLocked
    | MarkBankPending(batch: Option<string>)
    | RecordBankTransferResult(result: BankTransferResult)
    | MarkBankSuccess
    | MarkBankFailed(message: string)
    | MarkBlockchainPending(txHash: string)
    | MarkCompleted(blockNumber: int)
    | MarkBlockchainFailed(message: string)
    | MarkForManualReview(message: string)
    | Cancel(message: string)
    | PrepareForRetry
    | MarkBlockedByStateChange(currentStatus: int, expectedStatus: int, message: string)
    | MarkFrozenByDispute(blockNumber: int, message: string)
    | RecordOnChainStatusVerified(onChainStatus: int)
    | UnfreezeAfterDisputeResolution

  /** What a call leaves behind, and whether it returned normally (otherwise it threw). */
  datatype Outcome = Outcome(state: SettlementState, accepted: bool)

  function New(id: string, contractId: string, accountId: string, split: SplitPayment, referenceId: string): SettlementState {
    SettlementState(id, contractId, accountId, split, referenceId, INITIATED, [], None, None, None,
                    [Event(INITIATED, SettlementInitiated)], 0, 1)
  }

  function Record(s: SettlementState, action: Action): SettlementState {
    s.(events := s.events + [Event(s.status, action)], version := s.version + 1)
  }

  function Transition(s: SettlementState, to: SettlementStatus, action: Action): Outcome {
    if !IsValidTransition(s.status, to) then Outcome(s, false)
    else Outcome(Record(s.(status := to), action), true)
  }

  predicate CanRetry(s: SettlementState) {
    && (s.status == BANK_FAILED || s.status == BLOCKCHAIN_FAILED)
    && s.retryCount < 3
    && s.status != MANUAL_REVIEW
    && !IsSafetyBlockedStatus(s.status)
  }

  /** The position of the first result for a leg, or -1. */
  function FindLeg(results: seq<BankTransferResult>, legIndex: nat): (k: int)
    ensures -1 <= k < |results|
    ensures k >= 0 ==> results[k].legIndex == legIndex
    ensures k < 0 ==> forall j :: 0 <= j < |results| ==> results[j].legIndex != legIndex
  {
    if |results| == 0 then -1
    else
      var k := FindLeg(results[..|results| - 1], legIndex);
      if k >= 0 then k
      else if results[|results| - 1].legIndex == legIndex then |results| - 1
      else -1
  }

  /** Replaces the result of the leg, or adds it at the end. */
  function PutResult(results: seq<BankTransferResult>, result: BankTransferResult): seq<BankTransferResult> {
    var k := FindLeg(results, result.legIndex);
    if k >= 0 then results[k := result] else results + [result]
  }

  function Successes(results: seq<BankTransferResult>): seq<BankTransferResult> {
    if |results| == 0 then []
    else
      var last := results[|results| - 1];
      Successes(results[..|results| - 1]) + (if last.status == TRANSFER_SUCCESS then [last] else [])
  }

  predicate AreAllBankTransfersSuccessful(s: SettlementState) {
    |Successes(s.results)| == s.split.LegCount()
  }

  function Apply(s: SettlementState, cmd: Command): Outcome {
    match cmd
    case MarkEscrowLocked => Transition(s, ESCROW_LOCKED, EscrowLocked)
    case MarkBankPending(batch) => Transition(s, BANK_PENDING, BankTransferInitiated(batch))
    case RecordBankTransferResult(result) =>
      Outcome(Record(s.(results := PutResult(s.results, result)), BankLegResult(result)), true)
    case MarkBankSuccess =>
      if !AreAllBankTransfersSuccessful(s) then Outcome(s, false)
      else Transition(s, BANK_SUCCESS, BankTransferSuccess)
    case MarkBankFailed(message) =>
      Transition(s.(errorMessage := Some(message)), BANK_FAILED, BankTransferFailed)
    case MarkBlockchainPending(txHash) =>
      Transition(s.(txHash := Some(txHash)), BLOCKCHAIN_PENDING, BlockchainTxSubmitted(txHash))
    case MarkCompleted(blockNumber) =>
      Transition(s.(blockNumber := Some(blockNumber)), COMPLETED, SettlementCompleted(blockNumber))
    case MarkBlockchainFailed(message) =>
      Transition(s.(errorMessage := Some(message)), BLOCKCHAIN_FAILED, BlockchainTxFailed)
    case MarkForManualReview(message) =>
      Transition(s.(errorMessage := Some(message)), MANUAL_REVIEW, ManualReviewRequired)
    case Cancel(message) =>
      if s.status == BANK_SUCCESS then Outcome(s, false)
      else Transition(s.(errorMessage := Some(message)), CANCELLED, SettlementCancelled)
    case PrepareForRetry =>
      if !CanRetry(s) then Outcome(s, false)
      else
        var retried := s.(retryCount := s.retryCount + 1, errorMessage := None, status := ESCROW_LOCKED);
        Outcome(Record(retried, RetryPrepared(retried.retryCount)), true)
    case MarkBlockedByStateChange(current, expected, message) =>
      if IsTerminalStatus(s.status) then Outcome(s, false)
      else Transition(s.(errorMessage := Some(message)), BLOCKED_BY_STATE_CHANGE, BlockedByStateChange(current, expected))
    case MarkFrozenByDispute(blockNumber, message) =>
      if !CanBeFrozenByDispute(s.status) then Outcome(s, false)
      else Transition(s.(errorMessage := Some(message)), FROZEN_BY_DISPUTE, FrozenByDispute(blockNumber))
    case RecordOnChainStatusVerified(onChainStatus) =>
      Outcome(Record(s, OnChainStatusVerified(onChainStatus)), true)
    case UnfreezeAfterDisputeResolution =>
      if s.status != FROZEN_BY_DISPUTE then Outcome(s, false)
      else Outcome(Record(s.(status := ESCROW_LOCKED, errorMessage := None), UnfrozenAfterDisputeResolution), true)
  }

  class Settlement {
    const id: string
    const contractId: string
    const escrowAccountId: string
    const split: SplitPayment
    const referenceId: string
    var status: SettlementStatus
    var results: seq<BankTransferResult>
    var txHash: Option<string>
    var blockNumber: Option<int>
    var errorMessage: Option<string>
    var events: seq<Event>
    var retryCount: nat
    var version: nat

    function ToPersistence(): SettlementState
      reads this
    {
      SettlementState(id, contractId, escrowAccountId, split, referenceId, status, results, txHash,
                      blockNumber, errorMessage, events, retryCount, version)
    }

    constructor FromPersistence(props: SettlementState)
      ensures ToPersistence() == props
    {
      id, contractId, escrowAccountId := props.id, props.contractId, props.escrowAccountId;
      split, referenceId := props.split, props.referenceId;
      status, results, txHash, blockNumber := props.status, props.results, props.txHash, props.blockNumber;
      errorMessage, events := props.errorMessage, props.events;
      retryCount, version := props.retryCount, props.version;
    }

    constructor Create(id: string, contractId: string, accountId: string, split: SplitPayment, referenceId: string)
      ensures ToPersistence() == New(id, contractId, accountId, split, referenceId)
    {
      this.id, this.contractId, this.escrowAccountId := id, contractId, accountId;
      this.split, this.referenceId := split, referenceId;
      status, results, txHash, blockNumber, errorMessage := INITIATED, [], None, None, None;
      events := [Event(INITIATED, SettlementInitiated)];
      retryCount, version := 0, 1;
    }

    method RecordEvent(action: Action)
      modifies `events, `version
      ensures ToPersistence() == Record(old(ToPersistence()), action)
    {
      events := events + [Event(status, action)];
      version := version + 1;
    }

    method TransitionTo(to: SettlementStatus, action: Action) returns (ok: bool)
      modifies `status, `events, `version
      ensures Outcome(ToPersistence(), ok) == Transition(old(ToPersistence()), to, action)
    {
      ok := IsValidTransition(status, to);
      if ok {
        status := to;
        RecordEvent(action);
      }
    }

    method LockEscrow() returns (ok: bool)
      modifies this
      ensures Outcome(ToPersistence(), ok) == Apply(old(ToPersistence()), MarkEscrowLocked)
    {
      ok := TransitionTo(ESCROW_LOCKED, EscrowLocked);
    }

    method BankPending(batch: Option<string>) returns (ok: bool)
      modifies this
      ensures Outcome(ToPersistence(), ok) == Apply(old(ToPersistence()), MarkBankPending(batch))
    {
      ok := TransitionTo(BANK_PENDING, BankTransferInitiated(batch));
    }

    method RecordResult(result: BankTransferResult)
      modifies this
      ensures Outcome(ToPersistence(), true) == Apply(old(ToPersistence()), RecordBankTransferResult(result))
    {
      var existing := FindLeg(results, result.legIndex);
      if existing >= 0 {
        results := results[existing := result];
      } else {
        results := results + [result];
      }
      RecordEvent(BankLegResult(result));
    }

    method BankSuccess() returns (ok: bool)
      modifies this
      ensures Outcome(ToPersistence(), ok) == Apply(old(ToPersistence()), MarkBankSuccess)
    {
      if |Successes(results)| != split.LegCount() {
        return false;
      }
      ok := TransitionTo(BANK_SUCCESS, BankTransferSuccess);
    }

    method BankFailed(message: string) returns (ok: bool)
      modifies this
      ensures Outcome(ToPersistence(), ok) == Apply(old(ToPersistence()), MarkBankFailed(message))
    {
      errorMessage := Some(message);
      ok := TransitionTo(BANK_FAILED, BankTransferFailed);
    }

    method BlockchainPending(hash: string) returns (ok: bool)
      modifies this
      ensures Outcome(ToPersistence(), ok) == Apply(old(ToPersistence()), MarkBlockchainPending(hash))
    {
      txHash := Some(hash);
      ok := TransitionTo(BLOCKCHAIN_PENDING, BlockchainTxSubmitted(hash));
    }

    method Completed(block: int) returns (ok: bool)
      modifies this
      ensures Outcome(ToPersistence(), ok) == Apply(old(ToPersistence()), MarkCompleted(block))
    {
      blockNumber := Some(block);
      ok := TransitionTo(COMPLETED, SettlementCompleted(block));
    }

    method BlockchainFailed(message: string) returns (ok: bool)
      modifies this
      ensures Outcome(ToPersistence(), ok) == Apply(old(ToPersistence()), MarkBlockchainFailed(message))
    {
      errorMessage := Some(message);
      ok := TransitionTo(BLOCKCHAIN_FAILED, BlockchainTxFailed);
    }

    method ManualReview(message: string) returns (ok: bool)
      modifies this
      ensures Outcome(ToPersistence(), ok) == Apply(old(ToPersistence()), MarkForManualReview(message))
    {
      errorMessage := Some(message);
      ok := TransitionTo(MANUAL_REVIEW, ManualReviewRequired);
    }

    method CancelSettlement(message: string) returns (ok: bool)
      modifies this
      ensures Outcome(ToPersistence(), ok) == Apply(old(ToPersistence()), Cancel(message))
    {
      if status == BANK_SUCCESS {
        return false;
      }
      errorMessage := Some(message);
      ok := TransitionTo(CANCELLED, SettlementCancelled);
    }

    method Retry() returns (ok: bool)
      modifies this
      ensures Outcome(ToPersistence(), ok) == Apply(old(ToPersistence()), PrepareForRetry)
    {
      if !CanRetry(ToPersistence()) {
        return false;
      }
      retryCount := retryCount + 1;
      errorMessage, status := None, ESCROW_LOCKED;
      RecordEvent(RetryPrepared(retryCount));
      ok := true;
    }

    method BlockByStateChange(current: int, expected: int, message: string) returns (ok: bool)
      modifies this
      ensures Outcome(ToPersistence(), ok) == Apply(old(ToPersistence()), MarkBlockedByStateChange(current, expected, message))
    {
      if IsTerminalStatus(status) {
        return false;
      }
      errorMessage := Some(message);
      ok := TransitionTo(BLOCKED_BY_STATE_CHANGE, BlockedByStateChange(current, expected));
    }

    method FreezeByDispute(block: int, message: string) returns (ok: bool)
      modifies this
      ensures Outcome(ToPersistence(), ok) == Apply(old(ToPersistence()), MarkFrozenByDispute(block, message))
    {
      if !CanBeFrozenByDispute(status) {
        return false;
      }
      errorMessage := Some(message);
      ok := TransitionTo(FROZEN_BY_DISPUTE, FrozenByDispute(block));
    }

    method RecordVerified(onChainStatus: int)
      modifies this
      ensures Outcome(ToPersistence(), true) == Apply(old(ToPersistence()), RecordOnChainStatusVerified(onChainStatus))
    {
      RecordEvent(OnChainStatusVerified(onChainStatus));
    }

    method Unfreeze() returns (ok: bool)
      modifies this
      ensures Outcome(ToPersistence(), ok) == Apply(old(ToPersistence()), UnfreezeAfterDisputeResolution)
    {
      if status != FROZEN_BY_DISPUTE {
        return false;
      }
      status, errorMessage := ESCROW_LOCKED, None;
      RecordEvent(UnfrozenAfterDisputeResolution);
      ok := true;
    }
  }
}
