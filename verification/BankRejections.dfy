/** A bank's rejection of a transfer: what the orchestrator makes of it, and how the settlement can go on. */
module BankRejections {
  import opened Common
  import opened SettlementStatuses
  import opened SplitPayments
  import opened SettlementSystem
  import opened SettlementInvariant
  import opened SettlementPreservation
  import opened EscrowTransactions
  import opened SettlementTransactions
  import opened SettlementTheorems
  import opened DisputeDelivery
  import S = SettlementEntity

  ghost predicate NowPending(w: World, w': World, sid: string, batch: Option<string>)
    requires sid in w.settlements
  {
    && sid in w'.settlements && w' == w.(settlements := w.settlements[sid := w'.settlements[sid]])
    && var s, t := w.settlements[sid], w'.settlements[sid];
    && t.status == BANK_PENDING && t.events == s.events + [S.Event(BANK_PENDING, S.BankTransferInitiated(batch))]
    && t.results == s.results && t.retryCount == s.retryCount && t.errorMessage == s.errorMessage
  }

  lemma BankAnswerEffect(w: World, sid: string, ack: BankAck)
    requires sid in w.settlements ==> w.settlements[sid].id == sid
    ensures var w' := BankTransferTx(w, sid, ack);
      if sid in w.settlements && w.settlements[sid].status == ESCROW_LOCKED && ack.AckAccepted?
      then NowPending(w, w', sid, ack.batch) else w' == w
  {
    BankTransferShape(w, sid, ack);
  }

  /**
   * Whatever the bank answers: the transfer is stored as pending, with the bank's batch in the log, exactly when the
   * bank accepts it for a locked settlement. A rejection is stored no more than an exception, because the table has
   * no edge from ESCROW_LOCKED to BANK_FAILED: the transaction rolls back and no unlock is asked for.
   */
  lemma BankAnswerStoredExactly(env: Environment, w: World, sid: string, ack: BankAck)
    requires Reachable(env, w) && BankTransferCall(sid) in w.calls
    ensures var w', w0 := Next(env, w, RunBankTransfer(sid, ack)), Take(w, BankTransferCall(sid));
      if sid in w.settlements && w.settlements[sid].status == ESCROW_LOCKED && ack.AckAccepted?
      then NowPending(w0, w', sid, ack.batch) else w' == w0
  {
    ReachableSatisfiesInv(env, w);
    if sid in w.settlements { assert RowOk(env, w, sid); }
    BankAnswerEffect(Take(w, BankTransferCall(sid)), sid, ack);
  }

  /** Locked, with nothing waiting that would ask the bank. */
  ghost predicate Stalled(w: World, sid: string) {
    && sid in w.settlements && w.settlements[sid].status == ESCROW_LOCKED
    && BankTransferCall(sid) !in w.calls
  }

  /** The row of x, if any, is replaced by one under the same id; the calls waiting for the bank stay. */
  ghost predicate Replaces(w: World, w': World, x: string) {
    && (w'.settlements == w.settlements || (x in w'.settlements && w'.settlements == w.settlements[x := w'.settlements[x]]))
    && forall y :: y != x ==> (BankTransferCall(y) in w'.calls <==> BankTransferCall(y) in w.calls)
  }

  // ---- One transaction at a time ----

  lemma BankTransferReplaces(env: Environment, w: World, x: string, ack: BankAck)
    requires RowsOk(env, w)
    ensures Replaces(w, BankTransferTx(w, x, ack), x)
  {
    if x in w.settlements { assert RowOk(env, w, x); }
    BankTransferShape(w, x, ack);
  }

  lemma InitiateReplaces(env: Environment, w: World, contractId: string, x: string, accounts: TransferAccounts)
    requires AccountsOk(w)
    ensures var w' := InitiateTx(w, contractId, env.payout(contractId), env.reference(contractId, env.payout(contractId)), x, accounts);
      Replaces(w, w', x) && (w' == w || x !in w.settlements)
  {
    InitiateShape(env, w, contractId, x, accounts);
  }

  lemma CallbackReplaces(env: Environment, w: World, x: string, callback: BankCallback)
    requires RowsOk(env, w)
    ensures var w' := CallbackTx(w, x, callback);
      && Replaces(w, w', x) && (BankTransferCall(x) in w'.calls <==> BankTransferCall(x) in w.calls)
      && (x in w.settlements && w.settlements[x].status != BANK_PENDING ==>
            x in w'.settlements && w'.settlements[x].status == w.settlements[x].status)
  {
    if x in w.settlements {
      assert RowOk(env, w, x);
      CallbackShape(w, x, callback);
      RecordedEffect(w.settlements[x], callback);
    }
  }

  lemma CompletionReplacesPaid(w: World, x: string, answers: LedgerAnswers)
    requires x in w.settlements && w.settlements[x].status == BANK_SUCCESS
    requires w.settlements[x].id == x && w.settlements[x].escrowAccountId in w.accounts
    ensures var w' := CompletionTx(w, x, answers); Replaces(w, w', x) && w'.calls == w.calls
  {
    CompletionShape(w, x, answers);
  }

  lemma CompletionReplaces(env: Environment, w: World, x: string, answers: LedgerAnswers)
    requires RowsOk(env, w)
    ensures var w' := CompletionTx(w, x, answers);
      && Replaces(w, w', x) && w'.calls == w.calls
      && (x in w.settlements && w.settlements[x].status != BANK_SUCCESS ==> w' == w)
  {
    if x in w.settlements && w.settlements[x].status == BANK_SUCCESS {
      assert RowOk(env, w, x);
      CompletionReplacesPaid(w, x, answers);
    }
  }

  lemma PreparedKeepsId(s: S.SettlementState)
    ensures S.Apply(s, S.PrepareForRetry).state.id == s.id
    ensures s.status == ESCROW_LOCKED ==> !S.Apply(s, S.PrepareForRetry).accepted
  {
  }

  lemma RetryReplacesRow(w: World, x: string, seen: SettlementStatus)
    requires x in w.settlements && w.settlements[x].id == x
    ensures var w' := RetryTx(w, x, seen);
      Replaces(w, w', x) && (w.settlements[x].status == ESCROW_LOCKED ==> w' == w)
  {
    PreparedKeepsId(w.settlements[x]);
  }

  lemma RetryReplaces(env: Environment, w: World, x: string, seen: SettlementStatus)
    requires RowsOk(env, w)
    ensures var w' := RetryTx(w, x, seen);
      && Replaces(w, w', x)
      && (x in w.settlements && w.settlements[x].status == ESCROW_LOCKED ==> w' == w)
  {
    if x in w.settlements {
      assert RowOk(env, w, x);
      RetryReplacesRow(w, x, seen);
    }
  }

  lemma FoundRow(env: Environment, w: World, sid: string, contractId: string)
    requires Inv(env, w) && HasContract(w, sid, contractId)
    ensures SettlementOf(w, contractId) == Some(sid) && w.settlements[sid].id == sid
  {
    assert RowOk(env, w, sid);
    OneSettlementPerContract(env, w, sid, SettlementOf(w, contractId).value);
  }

  lemma FoundRowFreezes(w: World, sid: string, event: DisputeEvent, bankThrows: bool)
    requires SettlementOf(w, event.contractId) == Some(sid) && w.settlements[sid].id == sid
    requires w.settlements[sid].status == ESCROW_LOCKED
    ensures var w' := DisputeTx(w, event, bankThrows).0;
      sid in w'.settlements && w'.settlements[sid].status == FROZEN_BY_DISPUTE
  {
  }

  lemma OwnDisputeFreezes(env: Environment, w: World, sid: string, event: DisputeEvent, bankThrows: bool)
    requires Inv(env, w) && sid in w.settlements && w.settlements[sid].status == ESCROW_LOCKED
    requires event.contractId == w.settlements[sid].contractId
    ensures !Stalled(DisputeTx(w, event, bankThrows).0, sid)
  {
    FoundRow(env, w, sid, event.contractId);
    FoundRowFreezes(w, sid, event, bankThrows);
  }

  lemma DisputeLeavesCalls(w: World, event: DisputeEvent, bankThrows: bool)
    ensures DisputeTx(w, event, bankThrows).0.calls == w.calls
  {
  }

  // ---- One step ----

  ghost predicate Revives(w: World, sid: string, step: Step)
    requires sid in w.settlements
  {
    || step == AskBankTransfer(sid)
    || (step.DisputeOpened? && step.event.contractId == w.settlements[sid].contractId)
  }

  lemma Taken(env: Environment, w: World, call: Call, sid: string)
    requires Inv(env, w) && Stalled(w, sid)
    ensures RowsOk(env, Take(w, call)) && AccountsOk(Take(w, call)) && Stalled(Take(w, call), sid)
  {
    TakeKeeps(env, w, call);
  }

  lemma StallsOnItsOwn(w: World, w': World, x: string, sid: string)
    requires Stalled(w, sid) && Replaces(w, w', x)
    requires x == sid ==>
      && sid in w'.settlements && w'.settlements[sid].status == ESCROW_LOCKED
      && (BankTransferCall(sid) in w'.calls ==> BankTransferCall(sid) in w.calls)
    ensures Stalled(w', sid)
  {
  }

  lemma BankTransferStalls(env: Environment, w: World, sid: string, x: string, ack: BankAck)
    requires RowsOk(env, w) && Stalled(w, sid) && x != sid
    ensures Stalled(BankTransferTx(w, x, ack), sid)
  {
    BankTransferReplaces(env, w, x, ack);
    StallsOnItsOwn(w, BankTransferTx(w, x, ack), x, sid);
  }

  lemma InitiateStalls(env: Environment, w: World, sid: string, contractId: string, x: string, accounts: TransferAccounts)
    requires AccountsOk(w) && Stalled(w, sid)
    ensures Stalled(InitiateTx(w, contractId, env.payout(contractId), env.reference(contractId, env.payout(contractId)), x, accounts), sid)
  {
    InitiateReplaces(env, w, contractId, x, accounts);
    StallsOnItsOwn(w, InitiateTx(w, contractId, env.payout(contractId), env.reference(contractId, env.payout(contractId)), x, accounts), x, sid);
  }

  lemma CallbackStalls(env: Environment, w: World, sid: string, x: string, callback: BankCallback)
    requires RowsOk(env, w) && Stalled(w, sid)
    ensures Stalled(CallbackTx(w, x, callback), sid)
  {
    CallbackReplaces(env, w, x, callback);
    StallsOnItsOwn(w, CallbackTx(w, x, callback), x, sid);
  }

  lemma CompletionStalls(env: Environment, w: World, sid: string, x: string, answers: LedgerAnswers)
    requires RowsOk(env, w) && Stalled(w, sid)
    ensures Stalled(CompletionTx(w, x, answers), sid)
  {
    CompletionReplaces(env, w, x, answers);
    StallsOnItsOwn(w, CompletionTx(w, x, answers), x, sid);
  }

  lemma RetryStalls(env: Environment, w: World, sid: string, x: string, seen: SettlementStatus)
    requires RowsOk(env, w) && Stalled(w, sid)
    ensures Stalled(RetryTx(w, x, seen), sid)
  {
    RetryReplaces(env, w, x, seen);
    StallsOnItsOwn(w, RetryTx(w, x, seen), x, sid);
  }

  /** The call a transaction uses up. */
  function CallOf(step: Step): Option<Call> {
    match step
    case RunBankTransfer(x, _) => Some(BankTransferCall(x))
    case RunInitiate(contractId, _, _) => Some(InitiateCall(contractId))
    case RunCallback(x, callback) => Some(CallbackCall(x, callback))
    case RunCompletion(x, _) => Some(CompletionCall(x))
    case RunRetry(x, seen) => Some(RetryCall(x, seen))
    case _ => None
  }

  ghost function TxOf(env: Environment, w: World, step: Step): World
    requires CallOf(step).Some?
  {
    match step
    case RunBankTransfer(x, ack) => BankTransferTx(w, x, ack)
    case RunInitiate(contractId, x, accounts) =>
      InitiateTx(w, contractId, env.payout(contractId), env.reference(contractId, env.payout(contractId)), x, accounts)
    case RunCallback(x, callback) => CallbackTx(w, x, callback)
    case RunCompletion(x, answers) => CompletionTx(w, x, answers)
    case RunRetry(x, seen) => RetryTx(w, x, seen)
  }

  lemma NextRuns(env: Environment, w: World, step: Step)
    requires CallOf(step).Some?
    ensures Next(env, w, step) == if CallOf(step).value in w.calls then TxOf(env, Take(w, CallOf(step).value), step) else w
  {
  }

  lemma TransactionStalls(env: Environment, w: World, sid: string, step: Step)
    requires RowsOk(env, w) && AccountsOk(w) && Stalled(w, sid)
    requires CallOf(step).Some? && CallOf(step).value != BankTransferCall(sid)
    ensures Stalled(TxOf(env, w, step), sid)
  {
    match step
    case RunBankTransfer(x, ack) => BankTransferStalls(env, w, sid, x, ack);
    case RunInitiate(contractId, x, accounts) => InitiateStalls(env, w, sid, contractId, x, accounts);
    case RunCallback(x, callback) => CallbackStalls(env, w, sid, x, callback);
    case RunCompletion(x, answers) => CompletionStalls(env, w, sid, x, answers);
    case RunRetry(x, seen) => RetryStalls(env, w, sid, x, seen);
  }

  lemma RunStalls(env: Environment, w: World, sid: string, step: Step)
    requires Inv(env, w) && Stalled(w, sid) && CallOf(step).Some?
    ensures Stalled(Next(env, w, step), sid)
  {
    NextRuns(env, w, step);
    if CallOf(step).value in w.calls {
      Taken(env, w, CallOf(step).value, sid);
      TransactionStalls(env, Take(w, CallOf(step).value), sid, step);
    }
  }

  lemma DisputeStalls(env: Environment, w: World, sid: string, event: DisputeEvent, bankThrows: bool)
    requires Inv(env, w) && Stalled(w, sid) && event.contractId != w.settlements[sid].contractId
    ensures Stalled(DisputeTx(w, event, bankThrows).0, sid)
  {
    OtherDisputeLeavesAlone(env, w, sid, event, bankThrows);
    DisputeLeavesCalls(w, event, bankThrows);
  }

  lemma AccountStepStalls(env: Environment, w: World, sid: string, step: Step)
    requires Stalled(w, sid) && (step.OpenAccount? || step.CreditEscrow? || step.RunUnlock?)
    ensures Stalled(Next(env, w, step), sid)
  {
    match step
    case OpenAccount(_, _) =>
    case CreditEscrow(_, _, _) =>
    case RunUnlock(aid, reference, bankThrows) => UnlockLeavesRows(Take(w, UnlockCall(aid, reference)), aid, reference, bankThrows);
  }

  lemma UnlockLeavesRows(w: World, aid: string, reference: string, bankThrows: bool)
    ensures var w' := UnlockTx(w, aid, reference, bankThrows); w'.settlements == w.settlements && w'.calls == w.calls
  {
  }

  lemma CheckStalls(env: Environment, w: World, sid: string, step: Step)
    requires Stalled(w, sid) && step != AskBankTransfer(sid)
    requires CallOf(step).None? && !step.OpenAccount? && !step.CreditEscrow? && !step.RunUnlock? && !step.DisputeOpened?
    ensures Stalled(Next(env, w, step), sid)
  {
  }

  /**
   * Which step ends the stall, over all steps of the system: asking for the transfer again by hand, or a dispute over
   * the contract. No retry, callback, completion or initiation does, whenever it had passed its check.
   */
  lemma StallEndsExactly(env: Environment, w: World, sid: string, step: Step)
    requires Inv(env, w) && Stalled(w, sid)
    ensures !Stalled(Next(env, w, step), sid) <==> Revives(w, sid, step)
  {
    if step == AskBankTransfer(sid) {
      assert BankTransferCall(sid) in Next(env, w, step).calls;
    } else if step.DisputeOpened? {
      if Revives(w, sid, step) {
        OwnDisputeFreezes(env, w, sid, step.event, step.bankThrows);
      } else {
        DisputeStalls(env, w, sid, step.event, step.bankThrows);
      }
    } else if CallOf(step).Some? {
      RunStalls(env, w, sid, step);
    } else if step.OpenAccount? || step.CreditEscrow? || step.RunUnlock? {
      AccountStepStalls(env, w, sid, step);
    } else {
      CheckStalls(env, w, sid, step);
    }
  }

  // ---- Whole runs ----

  lemma StallsOn(env: Environment, w: World, sid: string, step: Step)
    requires Inv(env, w) && Stalled(w, sid) && !Revives(w, sid, step)
    ensures Inv(env, Next(env, w, step)) && Stalled(Next(env, w, step), sid)
    ensures Next(env, w, step).settlements[sid].contractId == w.settlements[sid].contractId
  {
    StallEndsExactly(env, w, sid, step);
    NextKeeps(env, w, step);
    assert RowEvolves(w, Next(env, w, step), sid);
  }

  ghost predicate NobodyRevives(contractId: string, sid: string, steps: seq<Step>) {
    forall k :: 0 <= k < |steps| ==>
      steps[k] != AskBankTransfer(sid) && !(steps[k].DisputeOpened? && steps[k].event.contractId == contractId)
  }

  lemma NobodyRevivesLater(contractId: string, sid: string, steps: seq<Step>)
    requires |steps| > 0 && NobodyRevives(contractId, sid, steps)
    ensures NobodyRevives(contractId, sid, steps[1..])
  {
    assert forall k :: 0 <= k < |steps[1..]| ==> steps[1..][k] == steps[k + 1];
  }

  lemma {:induction false} StalledRun(env: Environment, w: World, sid: string, steps: seq<Step>)
    requires Inv(env, w) && Stalled(w, sid) && NobodyRevives(w.settlements[sid].contractId, sid, steps)
    ensures Stalled(Run(env, w, steps), sid)
    decreases |steps|
  {
    if |steps| > 0 {
      StallsOn(env, w, sid, steps[0]);
      NobodyRevivesLater(w.settlements[sid].contractId, sid, steps);
      StalledRun(env, Next(env, w, steps[0]), sid, steps[1..]);
    }
  }

  lemma LastCallTaken(w: World, sid: string)
    requires sid in w.settlements && w.settlements[sid].status == ESCROW_LOCKED && w.calls[BankTransferCall(sid)] == 1
    ensures Stalled(Take(w, BankTransferCall(sid)), sid)
  {
  }

  lemma RejectedIsTaken(env: Environment, w: World, sid: string, error: string)
    requires Reachable(env, w) && BankTransferCall(sid) in w.calls
    ensures Next(env, w, RunBankTransfer(sid, AckRejected(error))) == Take(w, BankTransferCall(sid))
  {
    BankAnswerStoredExactly(env, w, sid, AckRejected(error));
  }

  lemma NoRetryWhileLocked(env: Environment, w: World, sid: string)
    requires Stalled(w, sid)
    ensures Next(env, w, CheckRetry(sid)) == w
  {
  }

  lemma LastCallStalls(env: Environment, w: World, sid: string, steps: seq<Step>)
    requires Inv(env, w) && sid in w.settlements && w.settlements[sid].status == ESCROW_LOCKED
    requires w.calls[BankTransferCall(sid)] == 1 && NobodyRevives(w.settlements[sid].contractId, sid, steps)
    ensures Stalled(Take(w, BankTransferCall(sid)), sid)
    ensures Stalled(Run(env, Take(w, BankTransferCall(sid)), steps), sid)
  {
    LastCallTaken(w, sid);
    TakeKeeps(env, w, BankTransferCall(sid));
    StalledRun(env, Take(w, BankTransferCall(sid)), sid, steps);
  }

  /**
   * A rejected transfer: the only waiting request for it is used up, the settlement stays locked with its retries
   * unavailable, and it stays so in every run in which nobody asks for the transfer by hand and no dispute over
   * the contract arrives.
   */
  lemma RejectedTransferStalls(env: Environment, w: World, sid: string, error: string, steps: seq<Step>)
    requires Reachable(env, w) && sid in w.settlements && w.settlements[sid].status == ESCROW_LOCKED
    requires w.calls[BankTransferCall(sid)] == 1
    requires NobodyRevives(w.settlements[sid].contractId, sid, steps)
    ensures var rejected := Next(env, w, RunBankTransfer(sid, AckRejected(error)));
      && rejected == Take(w, BankTransferCall(sid))
      && Next(env, rejected, CheckRetry(sid)) == rejected
      && Stalled(Run(env, rejected, steps), sid)
  {
    RejectedIsTaken(env, w, sid, error);
    ReachableSatisfiesInv(env, w);
    LastCallStalls(env, w, sid, steps);
    NoRetryWhileLocked(env, Take(w, BankTransferCall(sid)), sid);
  }
}
