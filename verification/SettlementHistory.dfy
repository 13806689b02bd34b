/** What the audit log of a settlement always looks like, whatever calls were made and in which order. */
module SettlementHistory {
  import opened Common
  import opened SettlementStatuses
  import opened SplitPayments
  import opened SettlementEntity

  // ---- Which calls are accepted ----

  /** The statuses from which a call can succeed, read off the table and the guards together. */
  function Sources(cmd: Command): set<SettlementStatus> {
    match cmd
    case MarkEscrowLocked => {INITIATED, BANK_FAILED, MANUAL_REVIEW, FROZEN_BY_DISPUTE}
    case MarkBankPending(_) => {ESCROW_LOCKED}
    case MarkBankSuccess => {BANK_PENDING}
    case MarkBankFailed(_) => {BANK_PENDING}
    case MarkBlockchainPending(_) => {BANK_SUCCESS, BLOCKCHAIN_FAILED}
    case MarkCompleted(_) => {BLOCKCHAIN_PENDING}
    case MarkBlockchainFailed(_) => {BLOCKCHAIN_PENDING}
    case MarkForManualReview(_) => {BANK_FAILED, BLOCKCHAIN_FAILED, BLOCKED_BY_STATE_CHANGE, FROZEN_BY_DISPUTE}
    case Cancel(_) => {INITIATED, ESCROW_LOCKED, MANUAL_REVIEW, BLOCKED_BY_STATE_CHANGE, FROZEN_BY_DISPUTE}
    case PrepareForRetry => {BANK_FAILED, BLOCKCHAIN_FAILED}
    case MarkBlockedByStateChange(_, _, _) => {BANK_SUCCESS, BLOCKCHAIN_FAILED}
    case MarkFrozenByDispute(_, _) =>
      {INITIATED, ESCROW_LOCKED, BANK_PENDING, BANK_SUCCESS, BANK_FAILED, BLOCKCHAIN_PENDING, BLOCKCHAIN_FAILED, MANUAL_REVIEW}
    case UnfreezeAfterDisputeResolution => {FROZEN_BY_DISPUTE}
    case RecordBankTransferResult(_) =>
      {INITIATED, ESCROW_LOCKED, BANK_PENDING, BANK_SUCCESS, BANK_FAILED, BLOCKCHAIN_PENDING, BLOCKCHAIN_FAILED,
       COMPLETED, CANCELLED, MANUAL_REVIEW, BLOCKED_BY_STATE_CHANGE, FROZEN_BY_DISPUTE}
    case RecordOnChainStatusVerified(_) =>
      {INITIATED, ESCROW_LOCKED, BANK_PENDING, BANK_SUCCESS, BANK_FAILED, BLOCKCHAIN_PENDING, BLOCKCHAIN_FAILED,
       COMPLETED, CANCELLED, MANUAL_REVIEW, BLOCKED_BY_STATE_CHANGE, FROZEN_BY_DISPUTE}
  }

  ghost predicate AcceptedFromSources(s: SettlementState, cmd: Command) {
    Apply(s, cmd).accepted <==>
      && s.status in Sources(cmd)
      && (cmd.MarkBankSuccess? ==> AreAllBankTransfersSuccessful(s))
      && (cmd.PrepareForRetry? ==> s.retryCount < 3)
  }

  lemma BankCallsAcceptedExactly(s: SettlementState, cmd: Command)
    requires cmd.MarkEscrowLocked? || cmd.MarkBankPending? || cmd.MarkBankSuccess? || cmd.MarkBankFailed?
      || cmd.PrepareForRetry?
    ensures AcceptedFromSources(s, cmd)
  {
  }

  lemma RecordingIsAlwaysAccepted(s: SettlementState, cmd: Command)
    requires cmd.RecordBankTransferResult? || cmd.RecordOnChainStatusVerified?
    ensures AcceptedFromSources(s, cmd)
  {
    match s.status
    case INITIATED =>
    case ESCROW_LOCKED =>
    case BANK_PENDING =>
    case BANK_SUCCESS =>
    case BANK_FAILED =>
    case BLOCKCHAIN_PENDING =>
    case BLOCKCHAIN_FAILED =>
    case COMPLETED =>
    case CANCELLED =>
    case MANUAL_REVIEW =>
    case BLOCKED_BY_STATE_CHANGE =>
    case FROZEN_BY_DISPUTE =>
  }

  lemma LedgerCallsAcceptedExactly(s: SettlementState, cmd: Command)
    requires cmd.MarkBlockchainPending? || cmd.MarkCompleted? || cmd.MarkBlockchainFailed?
      || cmd.UnfreezeAfterDisputeResolution?
    ensures AcceptedFromSources(s, cmd)
  {
  }

  lemma StoppingCallsAcceptedExactly(s: SettlementState, cmd: Command)
    requires cmd.MarkForManualReview? || cmd.Cancel? || cmd.MarkBlockedByStateChange? || cmd.MarkFrozenByDispute?
    ensures AcceptedFromSources(s, cmd)
  {
  }

  /** A call returns normally exactly from its source statuses, given the leg results and the retry budget. */
  lemma AcceptedExactly(s: SettlementState, cmd: Command)
    ensures Apply(s, cmd).accepted <==>
      && s.status in Sources(cmd)
      && (cmd.MarkBankSuccess? ==> AreAllBankTransfersSuccessful(s))
      && (cmd.PrepareForRetry? ==> s.retryCount < 3)
  {
    if cmd.MarkForManualReview? || cmd.Cancel? || cmd.MarkBlockedByStateChange? || cmd.MarkFrozenByDispute? {
      StoppingCallsAcceptedExactly(s, cmd);
    } else if cmd.MarkBlockchainPending? || cmd.MarkCompleted? || cmd.MarkBlockchainFailed?
      || cmd.UnfreezeAfterDisputeResolution? {
      LedgerCallsAcceptedExactly(s, cmd);
    } else if cmd.RecordBankTransferResult? || cmd.RecordOnChainStatusVerified? {
      RecordingIsAlwaysAccepted(s, cmd);
    } else {
      BankCallsAcceptedExactly(s, cmd);
    }
  }

  /**
   * The side fields after any call, accepted or not: hash and block are set by the calls that bring them, even when
   * these throw; an error message is set before the transition is tested, or not at all where a guard throws first,
   * and cleared by a successful retry or unfreezing. What identifies the settlement never changes.
   */
  lemma SideFieldsExactly(s: SettlementState, cmd: Command)
    ensures var t, accepted := Apply(s, cmd).state, Apply(s, cmd).accepted;
      && t.id == s.id && t.contractId == s.contractId && t.escrowAccountId == s.escrowAccountId
      && t.split == s.split && t.referenceId == s.referenceId
      && t.txHash == (if cmd.MarkBlockchainPending? then Some(cmd.txHash) else s.txHash)
      && t.blockNumber == (if cmd.MarkCompleted? then Some(cmd.blockNumber) else s.blockNumber)
      && t.errorMessage == MessageAfter(s, cmd)
  {
  }

  function MessageAfter(s: SettlementState, cmd: Command): Option<string> {
    match cmd
    case MarkBankFailed(message) => Some(message)
    case MarkBlockchainFailed(message) => Some(message)
    case MarkForManualReview(message) => Some(message)
    case Cancel(message) => if s.status == BANK_SUCCESS then s.errorMessage else Some(message)
    case MarkBlockedByStateChange(_, _, message) =>
      if s.status in {COMPLETED, CANCELLED} then s.errorMessage else Some(message)
    case MarkFrozenByDispute(_, message) =>
      if s.status in {COMPLETED, CANCELLED, FROZEN_BY_DISPUTE} then s.errorMessage else Some(message)
    case PrepareForRetry =>
      if s.status in {BANK_FAILED, BLOCKCHAIN_FAILED} && s.retryCount < 3 then None else s.errorMessage
    case UnfreezeAfterDisputeResolution => if s.status == FROZEN_BY_DISPUTE then None else s.errorMessage
    case _ => s.errorMessage
  }

  /** A call that throws may have set a side field, but never status, log, version, leg results or retries. */
  lemma RejectedCallsLeaveTheRecord(s: SettlementState, cmd: Command)
    requires !Apply(s, cmd).accepted
    ensures var t := Apply(s, cmd).state;
      t == s.(errorMessage := t.errorMessage, txHash := t.txHash, blockNumber := t.blockNumber)
  {
  }

  /** The side field is indeed left behind: completing a frozen settlement throws but stores the block. */
  lemma RejectedCallCanSetSideField(s: SettlementState, block: int)
    requires s.status == FROZEN_BY_DISPUTE && s.blockNumber == None
    ensures !Apply(s, MarkCompleted(block)).accepted
    ensures Apply(s, MarkCompleted(block)).state.blockNumber == Some(block)
  {
  }

  // ---- The shape of the log ----

  /** The status an action leads to, for actions that name one. */
  function StatusOf(action: Action): Option<SettlementStatus> {
    match action
    case SettlementInitiated => Some(INITIATED)
    case EscrowLocked => Some(ESCROW_LOCKED)
    case BankTransferInitiated(_) => Some(BANK_PENDING)
    case BankLegResult(_) => None
    case BankTransferSuccess => Some(BANK_SUCCESS)
    case BankTransferFailed => Some(BANK_FAILED)
    case BlockchainTxSubmitted(_) => Some(BLOCKCHAIN_PENDING)
    case SettlementCompleted(_) => Some(COMPLETED)
    case BlockchainTxFailed => Some(BLOCKCHAIN_FAILED)
    case ManualReviewRequired => Some(MANUAL_REVIEW)
    case SettlementCancelled => Some(CANCELLED)
    case RetryPrepared(_) => Some(ESCROW_LOCKED)
    case BlockedByStateChange(_, _) => Some(BLOCKED_BY_STATE_CHANGE)
    case FrozenByDispute(_) => Some(FROZEN_BY_DISPUTE)
    case OnChainStatusVerified(_) => None
    case UnfrozenAfterDisputeResolution => Some(ESCROW_LOCKED)
  }

  /** Leg results and verifications keep the status; a retry is the only way around the table. */
  predicate Follows(a: Event, b: Event) {
    if StatusOf(b.action).None? then b.status == a.status
    else
      && !b.action.SettlementInitiated?
      && b.status == StatusOf(b.action).value
      && (IsValidTransition(a.status, b.status)
          || (b.action.RetryPrepared? && a.status == BLOCKCHAIN_FAILED))
  }

  ghost predicate Path(events: seq<Event>) {
    && |events| > 0
    && events[0] == Event(INITIATED, SettlementInitiated)
    && (forall k :: 0 <= k < |events| - 1 ==> Follows(events[k], events[k + 1]))
  }

  function Retries(events: seq<Event>): nat {
    if |events| == 0 then 0
    else Retries(events[..|events| - 1]) + (if events[|events| - 1].action.RetryPrepared? then 1 else 0)
  }

  /** Every retry is logged with its own number. */
  ghost predicate RetriesNumbered(events: seq<Event>) {
    forall k :: 0 <= k < |events| && events[k].action.RetryPrepared? ==>
      events[k].action.retryCount == Retries(events[..k + 1])
  }

  /** The leg results as the log tells them. */
  function ReplayResults(events: seq<Event>): seq<BankTransferResult> {
    if |events| == 0 then []
    else
      var before := ReplayResults(events[..|events| - 1]);
      var last := events[|events| - 1];
      if last.action.BankLegResult? then PutResult(before, last.action.result) else before
  }

  ghost predicate DistinctLegs(results: seq<BankTransferResult>) {
    forall j, k :: 0 <= j < k < |results| ==> results[j].legIndex != results[k].legIndex
  }

  ghost predicate WellFormed(s: SettlementState) {
    && Path(s.events)
    && s.events[|s.events| - 1].status == s.status
    && s.version == |s.events|
    && s.retryCount == Retries(s.events) <= 3
    && RetriesNumbered(s.events)
    && s.results == ReplayResults(s.events)
    && DistinctLegs(s.results)
  }

  lemma AppendKeepsNumbering(events: seq<Event>, e: Event)
    requires RetriesNumbered(events)
    requires e.action.RetryPrepared? ==> e.action.retryCount == Retries(events) + 1
    ensures RetriesNumbered(events + [e])
    ensures Retries(events + [e]) == Retries(events) + (if e.action.RetryPrepared? then 1 else 0)
    ensures ReplayResults(events + [e]) ==
      if e.action.BankLegResult? then PutResult(ReplayResults(events), e.action.result) else ReplayResults(events)
  {
    var all := events + [e];
    assert all[..|events|] == events;
    forall k | 0 <= k < |all| && all[k].action.RetryPrepared?
      ensures all[k].action.retryCount == Retries(all[..k + 1])
    {
      if k < |events| {
        assert all[..k + 1] == events[..k + 1];
      } else {
        assert all[..k + 1] == all;
      }
    }
  }

  /** What an accepted call logs. */
  function LoggedAction(s: SettlementState, cmd: Command): Action {
    match cmd
    case MarkEscrowLocked => EscrowLocked
    case MarkBankPending(batch) => BankTransferInitiated(batch)
    case RecordBankTransferResult(result) => BankLegResult(result)
    case MarkBankSuccess => BankTransferSuccess
    case MarkBankFailed(_) => BankTransferFailed
    case MarkBlockchainPending(txHash) => BlockchainTxSubmitted(txHash)
    case MarkCompleted(block) => SettlementCompleted(block)
    case MarkBlockchainFailed(_) => BlockchainTxFailed
    case MarkForManualReview(_) => ManualReviewRequired
    case Cancel(_) => SettlementCancelled
    case PrepareForRetry => RetryPrepared(s.retryCount + 1)
    case MarkBlockedByStateChange(current, expected, _) => BlockedByStateChange(current, expected)
    case MarkFrozenByDispute(block, _) => FrozenByDispute(block)
    case RecordOnChainStatusVerified(status) => OnChainStatusVerified(status)
    case UnfreezeAfterDisputeResolution => UnfrozenAfterDisputeResolution
  }

  /** An accepted call logs one event with the new status; retries and leg results change only as logged. */
  lemma AcceptedCallLogsOneEvent(s: SettlementState, cmd: Command)
    requires Apply(s, cmd).accepted
    ensures var t := Apply(s, cmd).state;
      && t.events == s.events + [Event(t.status, LoggedAction(s, cmd))]
      && t.version == s.version + 1
      && t.retryCount == s.retryCount + (if cmd.PrepareForRetry? then 1 else 0)
      && t.results == (if cmd.RecordBankTransferResult? then PutResult(s.results, cmd.result) else s.results)
  {
  }

  lemma AcceptedCallFollowsTable(s: SettlementState, cmd: Command)
    requires Apply(s, cmd).accepted && StatusOf(LoggedAction(s, cmd)).Some?
    ensures Apply(s, cmd).state.status == StatusOf(LoggedAction(s, cmd)).value
    ensures IsValidTransition(s.status, Apply(s, cmd).state.status) || (cmd.PrepareForRetry? && s.status == BLOCKCHAIN_FAILED)
  {
  }

  lemma AcceptedCallFollows(s: SettlementState, cmd: Command, last: Event)
    requires Apply(s, cmd).accepted
    requires last.status == s.status
    ensures Follows(last, Event(Apply(s, cmd).state.status, LoggedAction(s, cmd)))
  {
    if StatusOf(LoggedAction(s, cmd)).Some? {
      AcceptedCallFollowsTable(s, cmd);
    }
  }

  lemma PutResultKeepsDistinct(results: seq<BankTransferResult>, result: BankTransferResult)
    requires DistinctLegs(results)
    ensures DistinctLegs(PutResult(results, result))
  {
  }

  lemma Replacing(results: seq<BankTransferResult>, k: nat, result: BankTransferResult)
    requires DistinctLegs(results) && k < |results| && results[k].legIndex == result.legIndex
    ensures forall x :: x in results[k := result] <==> x == result || (x in results && x.legIndex != result.legIndex)
  {
    var more := results[k := result];
    forall x ensures x in more <==> x == result || (x in results && x.legIndex != result.legIndex) {
      if x in results && x.legIndex != result.legIndex {
        var j :| 0 <= j < |results| && results[j] == x;
        assert more[j] == x;
      }
      if x in more && x != result {
        var j :| 0 <= j < |more| && more[j] == x;
        assert results[j] == x;
      }
      assert more[k] == result;
    }
  }

  /** Recording a result replaces the one the leg had, or adds it, and keeps all others. */
  lemma RecordingReplacesExactly(s: SettlementState, result: BankTransferResult)
    requires DistinctLegs(s.results)
    ensures var o := Apply(s, RecordBankTransferResult(result));
      && o.accepted && DistinctLegs(o.state.results)
      && (forall x :: x in o.state.results <==> x == result || (x in s.results && x.legIndex != result.legIndex))
  {
    PutResultKeepsDistinct(s.results, result);
    var k := FindLeg(s.results, result.legIndex);
    if k >= 0 { Replacing(s.results, k, result); }
  }

  lemma ApplyKeepsWellFormed(s: SettlementState, cmd: Command)
    requires WellFormed(s)
    ensures WellFormed(Apply(s, cmd).state)
  {
    var t := Apply(s, cmd).state;
    if Apply(s, cmd).accepted {
      AcceptedCallLogsOneEvent(s, cmd);
      AcceptedCallFollows(s, cmd, s.events[|s.events| - 1]);
      AppendKeepsNumbering(s.events, Event(t.status, LoggedAction(s, cmd)));
      if cmd.RecordBankTransferResult? {
        PutResultKeepsDistinct(s.results, cmd.result);
      }
      if cmd.PrepareForRetry? {
        AcceptedExactly(s, cmd);
      }
    } else {
      RejectedCallsLeaveTheRecord(s, cmd);
    }
  }

  function Run(s: SettlementState, cmds: seq<Command>): SettlementState
    decreases |cmds|
  {
    if |cmds| == 0 then s else Run(Apply(s, cmds[0]).state, cmds[1..])
  }

  lemma {:induction false} RunKeepsWellFormed(s: SettlementState, cmds: seq<Command>)
    requires WellFormed(s)
    ensures WellFormed(Run(s, cmds))
    decreases |cmds|
  {
    if |cmds| > 0 {
      ApplyKeepsWellFormed(s, cmds[0]);
      RunKeepsWellFormed(Apply(s, cmds[0]).state, cmds[1..]);
    }
  }

  lemma NewIsWellFormed(id: string, c: string, a: string, split: SplitPayment, ref: string)
    ensures WellFormed(New(id, c, a, split, ref))
  {
    var events := New(id, c, a, split, ref).events;
    assert events[..0] == [];
  }

  // ---- The way to COMPLETED ----

  /** A pending transfer was preceded by the escrow lock, with nothing but pending in between. */
  lemma {:induction false} RouteToBankPending(events: seq<Event>, i: nat) returns (lock: nat)
    requires Path(events) && i < |events| && events[i].status == BANK_PENDING
    ensures lock < i && events[lock].status == ESCROW_LOCKED
    ensures forall k :: lock < k <= i ==> events[k].status == BANK_PENDING
    decreases i
  {
    assert i > 0;
    assert Follows(events[i - 1], events[i]);
    if events[i - 1].status == BANK_PENDING {
      lock := RouteToBankPending(events, i - 1);
    } else {
      lock := i - 1;
    }
  }

  predicate AfterBankSuccess(status: SettlementStatus) {
    status in {BANK_SUCCESS, BLOCKCHAIN_PENDING, BLOCKCHAIN_FAILED, COMPLETED}
  }

  /** Everything from bank success on was reached through lock, pending and success, with no later lock. */
  lemma {:induction false} RouteThroughTheBank(events: seq<Event>, i: nat)
    returns (lock: nat, pending: nat, success: nat)
    requires Path(events) && i < |events| && AfterBankSuccess(events[i].status)
    ensures lock < pending < success <= i
    ensures events[lock].status == ESCROW_LOCKED
    ensures events[pending].status == BANK_PENDING
    ensures events[success].status == BANK_SUCCESS
    ensures forall k :: lock < k <= i ==> events[k].status != ESCROW_LOCKED
    decreases i
  {
    assert i > 0;
    assert Follows(events[i - 1], events[i]);
    if AfterBankSuccess(events[i - 1].status) {
      lock, pending, success := RouteThroughTheBank(events, i - 1);
    } else {
      pending, success := i - 1, i;
      lock := RouteToBankPending(events, i - 1);
    }
  }

  /** After its last ESCROW_LOCKED, the log shows BANK_PENDING and later BANK_SUCCESS before position i. */
  ghost predicate PaidSinceLastLock(events: seq<Event>, i: nat)
    requires i < |events|
  {
    exists lock, pending, success :: 0 <= lock < pending < success <= i
      && events[lock].status == ESCROW_LOCKED
      && events[pending].status == BANK_PENDING
      && events[success].status == BANK_SUCCESS
      && (forall k :: lock < k <= i ==> events[k].status != ESCROW_LOCKED)
  }

  /**
   * For every settlement built by `create` and any calls, accepted or not: the version counts the events, the
   * last event carries the status, the retry count is the number of logged retries and at most 3; the logged
   * statuses follow the table but for retries from BLOCKCHAIN_FAILED; and every COMPLETED was paid by the bank
   * since the last escrow lock.
   */
  lemma HistoryOfAnySettlement(id: string, c: string, a: string, split: SplitPayment, ref: string, cmds: seq<Command>)
    ensures var s := Run(New(id, c, a, split, ref), cmds);
      && s.version == |s.events| > 0
      && s.events[|s.events| - 1].status == s.status
      && s.retryCount == Retries(s.events) <= 3
      && (forall k :: 0 <= k < |s.events| - 1 ==>
            || s.events[k + 1].status == s.events[k].status
            || IsValidTransition(s.events[k].status, s.events[k + 1].status)
            || (s.events[k].status == BLOCKCHAIN_FAILED && s.events[k + 1].status == ESCROW_LOCKED
                && s.events[k + 1].action.RetryPrepared?))
      && (forall i :: 0 <= i < |s.events| && s.events[i].status == COMPLETED ==> PaidSinceLastLock(s.events, i))
  {
    NewIsWellFormed(id, c, a, split, ref);
    RunKeepsWellFormed(New(id, c, a, split, ref), cmds);
    var s := Run(New(id, c, a, split, ref), cmds);
    forall k | 0 <= k < |s.events| - 1
      ensures || s.events[k + 1].status == s.events[k].status
              || IsValidTransition(s.events[k].status, s.events[k + 1].status)
              || (s.events[k].status == BLOCKCHAIN_FAILED && s.events[k + 1].status == ESCROW_LOCKED
                  && s.events[k + 1].action.RetryPrepared?)
    {
      assert Follows(s.events[k], s.events[k + 1]);
    }
    forall i | 0 <= i < |s.events| && s.events[i].status == COMPLETED
      ensures PaidSinceLastLock(s.events, i)
    {
      var lock, pending, success := RouteThroughTheBank(s.events, i);
    }
  }

  // ---- Bank legs ----

  lemma {:induction false} SuccessesAreSuccesses(results: seq<BankTransferResult>)
    ensures forall r :: r in Successes(results) <==> r in results && r.status == TRANSFER_SUCCESS
    ensures DistinctLegs(results) ==> DistinctLegs(Successes(results))
  {
    if |results| > 0 {
      var front, last := results[..|results| - 1], results[|results| - 1];
      assert results == front + [last];
      SuccessesAreSuccesses(front);
      if DistinctLegs(results) {
        assert forall r :: r in front ==> r.legIndex != last.legIndex;
        assert forall r :: r in Successes(front) ==> r.legIndex != last.legIndex;
      }
    }
  }

  function Indices(results: seq<BankTransferResult>): set<nat> {
    set r | r in results :: r.legIndex
  }

  lemma {:induction false} DistinctIndicesCount(results: seq<BankTransferResult>)
    requires DistinctLegs(results)
    ensures |Indices(results)| == |results|
  {
    if |results| > 0 {
      var front, last := results[..|results| - 1], results[|results| - 1];
      assert results == front + [last];
      assert Indices(results) == Indices(front) + {last.legIndex};
      assert last.legIndex !in Indices(front);
      DistinctIndicesCount(front);
    }
  }

  function Below(n: nat): set<nat> {
    if n == 0 then {} else Below(n - 1) + {n - 1}
  }

  lemma {:induction false} BelowCount(n: nat)
    ensures |Below(n)| == n
    ensures forall k: nat :: k in Below(n) <==> k < n
  {
    if n > 0 {
      BelowCount(n - 1);
    }
  }

  lemma SameSizeSubsetIsEqual<T>(a: set<T>, b: set<T>)
    requires a <= b && |a| == |b|
    ensures a == b
  {
    if a != b {
      var x :| x in b && x !in a;
      assert a <= b - {x};
      SubsetIsNoLarger(a, b - {x});
    }
  }

  lemma {:induction false} SubsetIsNoLarger<T>(a: set<T>, b: set<T>)
    requires a <= b
    ensures |a| <= |b|
    decreases a
  {
    if a != {} {
      var x :| x in a;
      SubsetIsNoLarger(a - {x}, b - {x});
    }
  }

  ghost predicate LegSucceeded(s: SettlementState, leg: nat) {
    exists r :: r in s.results && r.legIndex == leg && r.status == TRANSFER_SUCCESS
  }

  ghost predicate EveryLegSucceeded(s: SettlementState) {
    forall leg: nat :: leg < s.split.LegCount() ==> LegSucceeded(s, leg)
  }

  ghost predicate StraySuccess(s: SettlementState) {
    exists r :: r in s.results && r.status == TRANSFER_SUCCESS && r.legIndex >= s.split.LegCount()
  }

  lemma LegSucceededIsMembership(s: SettlementState, leg: nat)
    ensures LegSucceeded(s, leg) <==> leg in Indices(Successes(s.results))
  {
    SuccessesAreSuccesses(s.results);
    if LegSucceeded(s, leg) {
      var r :| r in s.results && r.legIndex == leg && r.status == TRANSFER_SUCCESS;
      assert r in Successes(s.results);
    }
  }

  /**
   * The source only counts successful results and compares the count with the number of legs. On distinct
   * legs this is exact up to stray successes, results recorded for a leg the split does not have: without
   * one, counting holds if and only if every leg succeeded; with a matching count, every leg succeeded if and
   * only if there is none.
   */
  lemma CountingSuccessesIsExact(s: SettlementState)
    requires DistinctLegs(s.results)
    ensures !StraySuccess(s) ==> (AreAllBankTransfersSuccessful(s) <==> EveryLegSucceeded(s))
    ensures AreAllBankTransfersSuccessful(s) ==> (EveryLegSucceeded(s) <==> !StraySuccess(s))
  {
    var n := s.split.LegCount();
    var indices := Indices(Successes(s.results));
    SuccessesAreSuccesses(s.results);
    DistinctIndicesCount(Successes(s.results));
    BelowCount(n);
    forall leg: nat ensures LegSucceeded(s, leg) <==> leg in indices {
      LegSucceededIsMembership(s, leg);
    }
    assert EveryLegSucceeded(s) <==> Below(n) <= indices;
    assert !StraySuccess(s) <==> indices <= Below(n) by {
      if StraySuccess(s) {
        var r :| r in s.results && r.status == TRANSFER_SUCCESS && r.legIndex >= n;
        assert r in Successes(s.results) && r.legIndex in indices;
        assert r.legIndex !in Below(n);
      } else {
        forall leg | leg in indices ensures leg in Below(n) {
          var r :| r in Successes(s.results) && r.legIndex == leg;
          assert r in s.results && r.status == TRANSFER_SUCCESS;
        }
      }
    }
    if Below(n) <= indices <= Below(n) {
      assert indices == Below(n);
    }
    if |indices| == n {
      if indices <= Below(n) {
        SameSizeSubsetIsEqual(indices, Below(n));
      }
      if Below(n) <= indices {
        SameSizeSubsetIsEqual(Below(n), indices);
      }
    }
  }

  /**
   * Hence bank success is never accepted with a missing or failed leg, as long as the results name legs of the
   * split, in any settlement that `create` and later calls can produce.
   */
  lemma BankSuccessNeedsEveryLeg(id: string, c: string, a: string, split: SplitPayment, ref: string, cmds: seq<Command>)
    ensures var s := Run(New(id, c, a, split, ref), cmds);
      (forall r :: r in s.results ==> r.legIndex < split.LegCount()) ==>
        (AreAllBankTransfersSuccessful(s) <==> EveryLegSucceeded(s))
        && (Apply(s, MarkBankSuccess).accepted <==> s.status == BANK_PENDING && EveryLegSucceeded(s))
  {
    NewIsWellFormed(id, c, a, split, ref);
    RunKeepsWellFormed(New(id, c, a, split, ref), cmds);
    CreateKeepsSplit(New(id, c, a, split, ref), cmds);
    CountingSuccessesIsExact(Run(New(id, c, a, split, ref), cmds));
  }

  lemma {:induction false} CreateKeepsSplit(s: SettlementState, cmds: seq<Command>)
    ensures Run(s, cmds).split == s.split
    decreases |cmds|
  {
    if |cmds| > 0 {
      CreateKeepsSplit(Apply(s, cmds[0]).state, cmds[1..]);
    }
  }
}
