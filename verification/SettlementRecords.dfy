/** The record every settlement keeps of itself, in every run of the whole system. */
module SettlementRecords {
  import opened Common
  import opened SettlementStatuses
  import opened SplitPayments
  import opened SettlementSystem
  import opened SettlementTheorems
  import S = SettlementEntity
  import H = SettlementHistory

  /** Every leg result names a leg of the split. */
  ghost predicate NamesLegs(s: S.SettlementState) {
    forall r :: r in s.results ==> r.legIndex < s.split.LegCount()
  }

  /** The split was accepted by `create`. */
  ghost predicate FromSplit(split: SplitPayment) {
    exists p, a :: Create(p, a).Ok? && Create(p, a).value == split
  }

  /** Sound, and if the callbacks fit, without results for legs the split does not have. */
  ghost predicate Sound(s: S.SettlementState, fitting: bool) {
    H.WellFormed(s) && FromSplit(s.split) && (fitting ==> NamesLegs(s))
  }

  ghost predicate RowsSound(w: World, fitting: bool) {
    forall sid :: sid in w.settlements ==> Sound(w.settlements[sid], fitting)
  }

  lemma PutResultNames(results: seq<S.BankTransferResult>, result: S.BankTransferResult, n: nat)
    requires result.legIndex < n && forall r :: r in results ==> r.legIndex < n
    ensures forall r :: r in S.PutResult(results, result) ==> r.legIndex < n
  {
  }

  lemma ApplyKeepsSound(s: S.SettlementState, cmd: S.Command, fitting: bool)
    requires Sound(s, fitting)
    requires fitting && cmd.RecordBankTransferResult? ==> cmd.result.legIndex < s.split.LegCount()
    ensures Sound(S.Apply(s, cmd).state, fitting) && S.Apply(s, cmd).state.split == s.split
  {
    H.ApplyKeepsWellFormed(s, cmd);
    if S.Apply(s, cmd).accepted {
      H.AcceptedCallLogsOneEvent(s, cmd);
      if fitting && cmd.RecordBankTransferResult? {
        PutResultNames(s.results, cmd.result, s.split.LegCount());
      }
    } else {
      H.RejectedCallsLeaveTheRecord(s, cmd);
    }
  }

  /** The callback reports on no more legs than the split has. */
  ghost predicate Fits(s: S.SettlementState, callback: BankCallback) {
    callback.results.Some? ==> |callback.results.value| <= s.split.LegCount()
  }

  lemma {:induction false} RecordingKeepsSound(s: S.SettlementState, results: seq<CallbackResult>, fitting: bool)
    requires Sound(s, fitting) && (fitting ==> |results| <= s.split.LegCount())
    ensures Sound(RecordAll(s, results), fitting) && RecordAll(s, results).split == s.split
    decreases |results|
  {
    if |results| > 0 {
      var i := |results| - 1;
      RecordingKeepsSound(s, results[..i], fitting);
      var r := S.BankTransferResult(i, results[i].recipientType, results[i].status);
      ApplyKeepsSound(RecordAll(s, results[..i]), S.RecordBankTransferResult(r), fitting);
    }
  }

  lemma InitiateKeepsRecords(w: World, contractId: string, payout: Payout, reference: string, sid: string, accounts: TransferAccounts, fitting: bool)
    requires RowsSound(w, fitting)
    ensures RowsSound(InitiateTx(w, contractId, payout, reference, sid, accounts), fitting)
  {
    var account, split := AccountOf(w, contractId), Create(payout, accounts);
    if account.Some? && split.Ok? {
      H.NewIsWellFormed(sid, contractId, account.value, split.value, reference);
      ApplyKeepsSound(S.New(sid, contractId, account.value, split.value, reference), S.MarkEscrowLocked, fitting);
    }
  }

  lemma BankTransferKeepsRecords(w: World, sid: string, ack: BankAck, fitting: bool)
    requires RowsSound(w, fitting)
    ensures RowsSound(BankTransferTx(w, sid, ack), fitting)
  {
    if sid in w.settlements {
      match ack
      case AckThrew =>
      case AckRejected(error) => ApplyKeepsSound(w.settlements[sid], S.MarkBankFailed(error), fitting);
      case AckAccepted(batch) => ApplyKeepsSound(w.settlements[sid], S.MarkBankPending(batch), fitting);
    }
  }

  lemma RecordedKeepsSound(s: S.SettlementState, callback: BankCallback, fitting: bool)
    requires Sound(s, fitting) && (fitting ==> Fits(s, callback))
    ensures Sound(Recorded(s, callback), fitting)
    ensures Recorded(s, callback).id == s.id && Recorded(s, callback).status == s.status
  {
    if callback.results.Some? {
      RecordingKeepsSound(s, callback.results.value, fitting);
      RecordAllKeepsIdentity(s, callback.results.value);
    }
  }

  /** The callback stores the recorded row as it is, or after one more call. */
  lemma CallbackSaves(w: World, sid: string, callback: BankCallback)
    requires sid in w.settlements
    ensures var s, w' := Recorded(w.settlements[sid], callback), CallbackTx(w, sid, callback);
      || w'.settlements == w.settlements
      || w'.settlements == w.settlements[s.id := s]
      || (exists cmd: S.Command :: !cmd.RecordBankTransferResult?
            && w'.settlements == w.settlements[S.Apply(s, cmd).state.id := S.Apply(s, cmd).state])
  {
    var s, w' := Recorded(w.settlements[sid], callback), CallbackTx(w, sid, callback);
    if w'.settlements != w.settlements && w'.settlements != w.settlements[s.id := s] {
      var cmd := if callback.status == TRANSFER_SUCCESS then S.MarkBankSuccess else S.MarkBankFailed(callback.errorText);
      assert w'.settlements == w.settlements[S.Apply(s, cmd).state.id := S.Apply(s, cmd).state];
    }
  }

  lemma CallbackKeepsRecords(w: World, sid: string, callback: BankCallback, fitting: bool)
    requires RowsSound(w, fitting)
    requires fitting && sid in w.settlements ==> Fits(w.settlements[sid], callback)
    ensures RowsSound(CallbackTx(w, sid, callback), fitting)
  {
    if sid in w.settlements {
      var s := Recorded(w.settlements[sid], callback);
      RecordedKeepsSound(w.settlements[sid], callback, fitting);
      CallbackSaves(w, sid, callback);
      forall cmd: S.Command | !cmd.RecordBankTransferResult? ensures Sound(S.Apply(s, cmd).state, fitting) {
        ApplyKeepsSound(s, cmd, fitting);
      }
    }
  }

  lemma ChainFailureKeepsRecords(w: World, s: S.SettlementState, error: string, fitting: bool)
    requires RowsSound(w, fitting) && Sound(s, fitting)
    ensures RowsSound(ChainFailure(w, s, error), fitting)
  {
    ApplyKeepsSound(s, S.MarkBlockchainFailed(error), fitting);
  }

  lemma ConfirmKeepsRecords(w: World, s: S.SettlementState, confirmation: Confirmation, txHash: string, fitting: bool)
    requires RowsSound(w, fitting) && Sound(s, fitting)
    ensures RowsSound(Confirm(w, s, confirmation, txHash), fitting)
  {
    match confirmation
    case Reverted(error) => ChainFailureKeepsRecords(w, s, error, fitting);
    case ConfirmationThrew(error) => ChainFailureKeepsRecords(w, s, error, fitting);
    case Confirmed(blockNumber) =>
      var done := S.Apply(s, S.MarkCompleted(blockNumber));
      ApplyKeepsSound(s, S.MarkCompleted(blockNumber), fitting);
      ChainFailureKeepsRecords(w, done.state, "", fitting);
  }

  lemma CompletionKeepsRecords(w: World, sid: string, answers: LedgerAnswers, fitting: bool)
    requires RowsSound(w, fitting)
    ensures RowsSound(CompletionTx(w, sid, answers), fitting)
  {
    if sid in w.settlements && w.settlements[sid].status == BANK_SUCCESS {
      var s := w.settlements[sid];
      if answers.reading.None? {
        ApplyKeepsSound(s, S.MarkForManualReview(""), fitting);
      } else if answers.reading.value != EXPECTED_STATUS_VERIFIED {
        ApplyKeepsSound(s, S.MarkBlockedByStateChange(answers.reading.value, EXPECTED_STATUS_VERIFIED, ""), fitting);
      } else {
        VerifiedKeepsRecords(w, s, answers, fitting);
      }
    }
  }

  lemma VerifiedKeepsRecords(w: World, s: S.SettlementState, answers: LedgerAnswers, fitting: bool)
    requires RowsSound(w, fitting) && Sound(s, fitting)
    ensures var verified := S.Apply(s, S.RecordOnChainStatusVerified(EXPECTED_STATUS_VERIFIED)).state;
      && RowsSound(ChainFailure(w, verified, ""), fitting)
      && (answers.submission.Some? ==>
            var submitted := S.Apply(verified, S.MarkBlockchainPending(answers.submission.value));
            && RowsSound(ChainFailure(w, submitted.state, ""), fitting)
            && RowsSound(Confirm(w, submitted.state, answers.confirmation, answers.submission.value), fitting))
  {
    var verified := S.Apply(s, S.RecordOnChainStatusVerified(EXPECTED_STATUS_VERIFIED)).state;
    ApplyKeepsSound(s, S.RecordOnChainStatusVerified(EXPECTED_STATUS_VERIFIED), fitting);
    ChainFailureKeepsRecords(w, verified, "", fitting);
    if answers.submission.Some? {
      var submitted := S.Apply(verified, S.MarkBlockchainPending(answers.submission.value));
      ApplyKeepsSound(verified, S.MarkBlockchainPending(answers.submission.value), fitting);
      ChainFailureKeepsRecords(w, submitted.state, "", fitting);
      ConfirmKeepsRecords(w, submitted.state, answers.confirmation, answers.submission.value, fitting);
    }
  }

  lemma RetryKeepsRecords(w: World, sid: string, seen: SettlementStatus, fitting: bool)
    requires RowsSound(w, fitting)
    ensures RowsSound(RetryTx(w, sid, seen), fitting)
  {
    if sid in w.settlements {
      ApplyKeepsSound(w.settlements[sid], S.PrepareForRetry, fitting);
    }
  }

  lemma DisputeKeepsRecords(w: World, event: DisputeEvent, bankThrows: bool, fitting: bool)
    requires RowsSound(w, fitting)
    ensures RowsSound(DisputeTx(w, event, bankThrows).0, fitting)
  {
    assert DisputeEscrow(w, event, bankThrows).settlements == w.settlements;
    var found := SettlementOf(w, event.contractId);
    if found.Some? {
      ApplyKeepsSound(w.settlements[found.value], S.MarkFrozenByDispute(event.blockNumber, ""), fitting);
    }
  }

  /** Callbacks that run report on no more legs than the settlement has. */
  ghost predicate FittingStep(w: World, step: Step) {
    step.RunCallback? && step.settlementId in w.settlements ==> Fits(w.settlements[step.settlementId], step.callback)
  }

  ghost predicate CallbacksFit(env: Environment, w: World, steps: seq<Step>)
    decreases |steps|
  {
    |steps| > 0 ==> FittingStep(w, steps[0]) && CallbacksFit(env, Next(env, w, steps[0]), steps[1..])
  }

  predicate RunsTransaction(step: Step) {
    step.RunInitiate? || step.RunBankTransfer? || step.RunCallback? || step.RunCompletion? || step.RunRetry? || step.DisputeOpened?
  }

  lemma AccountStepsTouchNoSettlement(env: Environment, w: World, step: Step)
    requires step.OpenAccount? || step.CreditEscrow? || step.RunUnlock?
    ensures Next(env, w, step).settlements == w.settlements
  {
  }

  lemma OtherStepsTouchNoSettlement(env: Environment, w: World, step: Step)
    requires !RunsTransaction(step)
    ensures Next(env, w, step).settlements == w.settlements
  {
    if step.CheckInitiate? {
      InitiateCheckTouchesNoRow(env, w, step);
    } else if step.CheckCallback? {
      CallbackCheckTouchesNoRow(env, w, step);
    } else if step.CheckRetry? {
      RetryCheckTouchesNoRow(env, w, step);
    } else if OnlyChecks(step) {
      RequestsTouchNoRow(env, w, step);
    } else {
      AccountStepsTouchNoSettlement(env, w, step);
    }
  }

  lemma NextKeepsRecords(env: Environment, w: World, step: Step, fitting: bool)
    requires RowsSound(w, fitting) && (fitting ==> FittingStep(w, step))
    ensures RowsSound(Next(env, w, step), fitting)
  {
    match step
    case RunInitiate(contractId, sid, accounts) =>
      var payout := env.payout(contractId);
      InitiateKeepsRecords(Take(w, InitiateCall(contractId)), contractId, payout, env.reference(contractId, payout), sid, accounts, fitting);
    case RunBankTransfer(sid, ack) => BankTransferKeepsRecords(Take(w, BankTransferCall(sid)), sid, ack, fitting);
    case RunCallback(sid, callback) => CallbackKeepsRecords(Take(w, CallbackCall(sid, callback)), sid, callback, fitting);
    case RunCompletion(sid, answers) => CompletionKeepsRecords(Take(w, CompletionCall(sid)), sid, answers, fitting);
    case RunRetry(sid, seen) => RetryKeepsRecords(Take(w, RetryCall(sid, seen)), sid, seen, fitting);
    case DisputeOpened(event, bankThrows) => DisputeKeepsRecords(w, event, bankThrows, fitting);
    case _ => OtherStepsTouchNoSettlement(env, w, step);
  }

  lemma {:induction false} RunKeepsRecords(env: Environment, w: World, steps: seq<Step>, fitting: bool)
    requires RowsSound(w, fitting) && (fitting ==> CallbacksFit(env, w, steps))
    ensures RowsSound(Run(env, w, steps), fitting)
    decreases |steps|
  {
    if |steps| > 0 {
      NextKeepsRecords(env, w, steps[0], fitting);
      RunKeepsRecords(env, Next(env, w, steps[0]), steps[1..], fitting);
    }
  }

  /**
   * In every reachable world every settlement's record is sound: the version counts the events, the last one
   * carries the status, retries are counted and numbered, leg results are distinct and as logged; and a
   * completed settlement was locked, pending and paid, in this order and without another lock since.
   */
  lemma EveryRowHasASoundRecord(env: Environment, w: World, sid: string)
    requires Reachable(env, w) && sid in w.settlements
    ensures var s := w.settlements[sid];
      && H.WellFormed(s)
      && (s.status == COMPLETED ==> H.PaidSinceLastLock(s.events, |s.events| - 1))
  {
    var steps :| Run(env, Initial(), steps) == w;
    RunKeepsRecords(env, Initial(), steps, false);
    var s := w.settlements[sid];
    if s.status == COMPLETED {
      var lock, pending, success := H.RouteThroughTheBank(s.events, |s.events| - 1);
    }
  }

  /**
   * What storing a bank success means, in every reachable world and for every callback: the settlement was
   * waiting for it, and every leg has succeeded exactly when no success names a leg the split does not have.
   * Without such a stray success, it is stored exactly when the settlement waits and every leg has succeeded.
   */
  lemma SuccessfulCallbackPaidEveryLeg(env: Environment, w: World, sid: string, callback: BankCallback)
    requires Reachable(env, w) && sid in w.settlements && callback.status == TRANSFER_SUCCESS
    ensures var s := Recorded(w.settlements[sid], callback);
      var stored := CallbackTx(w, sid, callback) != w;
      && (stored ==> w.settlements[sid].status == BANK_PENDING && (H.EveryLegSucceeded(s) <==> !H.StraySuccess(s)))
      && (!H.StraySuccess(s) ==> (stored <==> w.settlements[sid].status == BANK_PENDING && H.EveryLegSucceeded(s)))
  {
    StoredUnderItsId(env, w, sid);
    var steps :| Run(env, Initial(), steps) == w;
    RunKeepsRecords(env, Initial(), steps, false);
    SuccessNeedsEveryLeg(w, sid, callback);
  }

  lemma StoredUnderItsId(env: Environment, w: World, sid: string)
    requires Reachable(env, w) && sid in w.settlements
    ensures w.settlements[sid].id == sid
  {
    ReachableRow(env, w, sid);
  }

  lemma SuccessNeedsEveryLeg(w: World, sid: string, callback: BankCallback)
    requires sid in w.settlements && w.settlements[sid].id == sid && Sound(w.settlements[sid], false)
    requires callback.status == TRANSFER_SUCCESS
    ensures var s := Recorded(w.settlements[sid], callback);
      var stored := CallbackTx(w, sid, callback) != w;
      && (stored ==> w.settlements[sid].status == BANK_PENDING && (H.EveryLegSucceeded(s) <==> !H.StraySuccess(s)))
      && (!H.StraySuccess(s) ==> (stored <==> w.settlements[sid].status == BANK_PENDING && H.EveryLegSucceeded(s)))
  {
    var s := Recorded(w.settlements[sid], callback);
    RecordedKeepsSound(w.settlements[sid], callback, false);
    H.CountingSuccessesIsExact(s);
    H.AcceptedExactly(s, S.MarkBankSuccess);
    SuccessChangesTheWorld(w, sid, callback);
  }

  /** Along a run whose callbacks report on no more legs than the split has, there never is a stray success. */
  lemma FittingCallbacksLeaveNoStray(env: Environment, steps: seq<Step>, sid: string)
    requires CallbacksFit(env, Initial(), steps)
    requires sid in Run(env, Initial(), steps).settlements
    ensures !H.StraySuccess(Run(env, Initial(), steps).settlements[sid])
  {
    RunKeepsRecords(env, Initial(), steps, true);
    assert Sound(Run(env, Initial(), steps).settlements[sid], true);
  }

  lemma SuccessChangesTheWorld(w: World, sid: string, callback: BankCallback)
    requires sid in w.settlements && w.settlements[sid].id == sid && callback.status == TRANSFER_SUCCESS
    requires Recorded(w.settlements[sid], callback).id == sid
    ensures var o := S.Apply(Recorded(w.settlements[sid], callback), S.MarkBankSuccess);
      CallbackTx(w, sid, callback) != w <==> o.accepted
  {
    var o := S.Apply(Recorded(w.settlements[sid], callback), S.MarkBankSuccess);
    if o.accepted {
      var call := CompletionCall(sid);
      assert CallbackTx(w, sid, callback).calls[call] == w.calls[call] + 1;
    }
  }

  lemma {:induction false} RecordAllKeepsIdentity(s: S.SettlementState, results: seq<CallbackResult>)
    ensures RecordAll(s, results).id == s.id && RecordAll(s, results).status == s.status
    ensures RecordAll(s, results).split == s.split
    decreases |results|
  {
    if |results| > 0 { RecordAllKeepsIdentity(s, results[..|results| - 1]); }
  }

  // ---- What a callback records ----

  /** The result is what the callback reports for its leg, or was there for a leg the callback does not name. */
  ghost predicate ReportedOrKept(s: S.SettlementState, reported: seq<CallbackResult>, x: S.BankTransferResult) {
    if x.legIndex < |reported|
    then x.recipientType == reported[x.legIndex].recipientType && x.status == reported[x.legIndex].status
    else x in s.results
  }

  lemma {:induction false} RecordingExactly(s: S.SettlementState, reported: seq<CallbackResult>)
    requires H.DistinctLegs(s.results)
    ensures var t := RecordAll(s, reported);
      H.DistinctLegs(t.results) && forall x :: x in t.results <==> ReportedOrKept(s, reported, x)
    decreases |reported|
  {
    if |reported| > 0 {
      var i := |reported| - 1;
      RecordingExactly(s, reported[..i]);
      var before := RecordAll(s, reported[..i]);
      var r := S.BankTransferResult(i, reported[i].recipientType, reported[i].status);
      H.RecordingReplacesExactly(before, r);
      assert RecordAll(s, reported) == S.Apply(before, S.RecordBankTransferResult(r)).state;
    }
  }

  function ResultsIn(callback: BankCallback): seq<CallbackResult> {
    if callback.results.Some? then callback.results.value else []
  }

  lemma RecordedExactly(s: S.SettlementState, callback: BankCallback)
    requires H.DistinctLegs(s.results)
    ensures forall x :: x in Recorded(s, callback).results <==> ReportedOrKept(s, ResultsIn(callback), x)
    ensures Recorded(s, callback).split == s.split && Recorded(s, callback).id == s.id && Recorded(s, callback).status == s.status
  {
    RecordingExactly(s, ResultsIn(callback));
    if callback.results.Some? {
      RecordAllKeepsIdentity(s, callback.results.value);
    }
  }

  /** The leg's success after the callback: what it reports for the leg, or what the row had for one it does not name. */
  ghost predicate SucceedsWith(s: S.SettlementState, callback: BankCallback, leg: nat) {
    if leg < |ResultsIn(callback)| then ResultsIn(callback)[leg].status == TRANSFER_SUCCESS else H.LegSucceeded(s, leg)
  }

  lemma LegSuccessExactly(s: S.SettlementState, callback: BankCallback, t: S.SettlementState, leg: nat)
    requires forall x :: x in t.results <==> ReportedOrKept(s, ResultsIn(callback), x)
    ensures H.LegSucceeded(t, leg) <==> SucceedsWith(s, callback, leg)
  {
    var reported := ResultsIn(callback);
    if leg < |reported| {
      var r := S.BankTransferResult(leg, reported[leg].recipientType, reported[leg].status);
      assert r in t.results;
      assert forall x :: x in t.results && x.legIndex == leg ==> x == r;
    } else {
      assert forall x: S.BankTransferResult :: x.legIndex == leg ==> (x in t.results <==> x in s.results);
    }
  }

  /**
   * Whatever the settlement had before: a callback that stores anything leaves, for every leg it names, exactly the
   * result it reports, and for every other leg what was there. An interim callback always stores, in any status.
   */
  lemma CallbackRecordsExactly(env: Environment, w: World, sid: string, callback: BankCallback)
    requires Reachable(env, w) && sid in w.settlements
    ensures var s, w' := w.settlements[sid], CallbackTx(w, sid, callback);
      && sid in w'.settlements
      && var t := w'.settlements[sid];
      && var recorded := forall x :: x in t.results <==> ReportedOrKept(s, ResultsIn(callback), x);
      && (t == s || recorded)
      && (callback.status !in {TRANSFER_SUCCESS, TRANSFER_FAILED, TRANSFER_REJECTED} ==> recorded)
      && (recorded ==> forall leg: nat :: H.LegSucceeded(t, leg) <==> SucceedsWith(s, callback, leg))
  {
    EveryRowHasASoundRecord(env, w, sid);
    StoredUnderItsId(env, w, sid);
    CallbackStores(w, sid, callback);
    var s, t := w.settlements[sid], CallbackTx(w, sid, callback).settlements[sid];
    if forall x :: x in t.results <==> ReportedOrKept(s, ResultsIn(callback), x) {
      forall leg: nat ensures H.LegSucceeded(t, leg) <==> SucceedsWith(s, callback, leg) {
        LegSuccessExactly(s, callback, t, leg);
      }
    }
  }

  lemma CallbackStores(w: World, sid: string, callback: BankCallback)
    requires sid in w.settlements && w.settlements[sid].id == sid && H.WellFormed(w.settlements[sid])
    ensures var s, w' := w.settlements[sid], CallbackTx(w, sid, callback);
      && sid in w'.settlements
      && var t := w'.settlements[sid];
      && (t == s || forall x :: x in t.results <==> ReportedOrKept(s, ResultsIn(callback), x))
      && (callback.status !in {TRANSFER_SUCCESS, TRANSFER_FAILED, TRANSFER_REJECTED} ==>
            forall x :: x in t.results <==> ReportedOrKept(s, ResultsIn(callback), x))
  {
    RecordedExactly(w.settlements[sid], callback);
  }

  /**
   * In terms of the callback alone: if neither it nor the row reports success for a leg the split does not have, a
   * bank success is stored exactly when the settlement waits for it and every leg succeeds, by the callback for the
   * legs it names and by the row for the others.
   */
  lemma BankSuccessStoredExactly(env: Environment, w: World, sid: string, callback: BankCallback)
    requires Reachable(env, w) && sid in w.settlements && callback.status == TRANSFER_SUCCESS
    requires var s := w.settlements[sid];
      forall leg: nat :: leg >= s.split.LegCount() ==> !SucceedsWith(s, callback, leg)
    ensures var s := w.settlements[sid];
      CallbackTx(w, sid, callback) != w <==>
        s.status == BANK_PENDING && forall leg: nat :: leg < s.split.LegCount() ==> SucceedsWith(s, callback, leg)
  {
    EveryRowHasASoundRecord(env, w, sid);
    SuccessfulCallbackPaidEveryLeg(env, w, sid, callback);
    LegsAfter(w.settlements[sid], callback);
  }

  lemma LegsAfter(s: S.SettlementState, callback: BankCallback)
    requires H.DistinctLegs(s.results)
    requires forall leg: nat :: leg >= s.split.LegCount() ==> !SucceedsWith(s, callback, leg)
    ensures !H.StraySuccess(Recorded(s, callback))
    ensures H.EveryLegSucceeded(Recorded(s, callback)) <==>
      forall leg: nat :: leg < s.split.LegCount() ==> SucceedsWith(s, callback, leg)
  {
    var t := Recorded(s, callback);
    RecordedExactly(s, callback);
    forall leg: nat ensures H.LegSucceeded(t, leg) <==> SucceedsWith(s, callback, leg) {
      LegSuccessExactly(s, callback, t, leg);
    }
    if H.StraySuccess(t) {
      var r :| r in t.results && r.status == TRANSFER_SUCCESS && r.legIndex >= t.split.LegCount();
      assert H.LegSucceeded(t, r.legIndex);
    }
  }
}
