/** What holds in every run: any number of steps, in any order, with any answers of bank and ledger. */
module SettlementTheorems {
  import opened Common
  import opened SettlementStatuses
  import opened SplitPayments
  import opened SettlementSystem
  import opened SettlementInvariant
  import opened SettlementPreservation
  import opened SettlementTransactions
  import opened EscrowTransactions
  import S = SettlementEntity
  import A = EscrowAccounts

  ghost predicate Keeps(env: Environment, w: World, w': World)
    requires Inv(env, w)
  {
    Inv(env, w') && AllEvolve(env, w, w')
  }

  lemma InitiateStepKeeps(env: Environment, w: World, contractId: string, sid: string, accounts: TransferAccounts)
    requires Inv(env, w)
    ensures Keeps(env, w, Next(env, w, RunInitiate(contractId, sid, accounts)))
  {
    var call := InitiateCall(contractId);
    var w' := Next(env, w, RunInitiate(contractId, sid, accounts));
    if call in w.calls {
      TakeKeeps(env, w, call);
      InitiateKeeps(env, Take(w, call), w', contractId, sid, accounts);
      AfterTake(env, w, call, w');
    } else {
      CallsOnly(env, w, w');
    }
  }

  lemma BankTransferStepKeeps(env: Environment, w: World, sid: string, ack: BankAck)
    requires Inv(env, w)
    ensures Keeps(env, w, Next(env, w, RunBankTransfer(sid, ack)))
  {
    var call := BankTransferCall(sid);
    var w' := Next(env, w, RunBankTransfer(sid, ack));
    if call in w.calls {
      TakeKeeps(env, w, call);
      BankTransferKeeps(env, Take(w, call), w', sid, ack);
      AfterTake(env, w, call, w');
    } else {
      CallsOnly(env, w, w');
    }
  }

  lemma CallbackStepKeeps(env: Environment, w: World, sid: string, callback: BankCallback)
    requires Inv(env, w)
    ensures Keeps(env, w, Next(env, w, RunCallback(sid, callback)))
  {
    var call := CallbackCall(sid, callback);
    var w' := Next(env, w, RunCallback(sid, callback));
    if call in w.calls {
      TakeKeeps(env, w, call);
      CallbackKeeps(env, Take(w, call), w', sid, callback);
      AfterTake(env, w, call, w');
    } else {
      CallsOnly(env, w, w');
    }
  }

  lemma CompletionStepKeeps(env: Environment, w: World, sid: string, answers: LedgerAnswers)
    requires Inv(env, w)
    ensures Keeps(env, w, Next(env, w, RunCompletion(sid, answers)))
  {
    var call := CompletionCall(sid);
    var w' := Next(env, w, RunCompletion(sid, answers));
    if call in w.calls {
      TakeKeeps(env, w, call);
      CompletionKeeps(env, Take(w, call), w', sid, answers);
      AfterTake(env, w, call, w');
    } else {
      CallsOnly(env, w, w');
    }
  }

  lemma RetryStepKeeps(env: Environment, w: World, sid: string, seen: SettlementStatus)
    requires Inv(env, w)
    ensures Keeps(env, w, Next(env, w, RunRetry(sid, seen)))
  {
    var call := RetryCall(sid, seen);
    var w' := Next(env, w, RunRetry(sid, seen));
    if call in w.calls {
      TakeKeeps(env, w, call);
      RetryKeeps(env, Take(w, call), w', sid, seen);
      AfterTake(env, w, call, w');
    } else {
      CallsOnly(env, w, w');
    }
  }

  lemma AccountStepKeeps(env: Environment, w: World, step: Step)
    requires Inv(env, w) && (step.OpenAccount? || step.CreditEscrow? || step.RunUnlock?)
    ensures Keeps(env, w, Next(env, w, step))
  {
    var w' := Next(env, w, step);
    if w' == w {
      CallsOnly(env, w, w');
    } else {
      match step
      case OpenAccount(aid, contractId) => OpenKeeps(env, w, aid, contractId);
      case CreditEscrow(aid, amount, reference) => CreditKeeps(env, w, aid, amount, reference);
      case RunUnlock(aid, reference, bankThrows) => UnlockKeeps(env, w, aid, reference, bankThrows);
    }
  }

  predicate OnlyChecks(step: Step) {
    step.CheckInitiate? || step.AskBankTransfer? || step.CheckCallback? || step.AskCompletion?
    || step.CheckRetry? || step.LoseCall?
  }

  lemma RequestsTouchNoRow(env: Environment, w: World, step: Step)
    requires step.AskBankTransfer? || step.AskCompletion? || step.LoseCall?
    ensures Next(env, w, step).settlements == w.settlements && Next(env, w, step).accounts == w.accounts
    ensures NoNewUnlocks(w, Next(env, w, step))
  {
  }

  lemma InitiateCheckTouchesNoRow(env: Environment, w: World, step: Step)
    requires step.CheckInitiate?
    ensures Next(env, w, step).settlements == w.settlements && Next(env, w, step).accounts == w.accounts
    ensures NoNewUnlocks(w, Next(env, w, step))
  {
  }

  lemma CallbackCheckTouchesNoRow(env: Environment, w: World, step: Step)
    requires step.CheckCallback?
    ensures Next(env, w, step).settlements == w.settlements && Next(env, w, step).accounts == w.accounts
    ensures NoNewUnlocks(w, Next(env, w, step))
  {
  }

  lemma RetryCheckTouchesNoRow(env: Environment, w: World, step: Step)
    requires step.CheckRetry?
    ensures Next(env, w, step).settlements == w.settlements && Next(env, w, step).accounts == w.accounts
    ensures NoNewUnlocks(w, Next(env, w, step))
  {
  }

  /** Unlocked checks, requests and lost calls touch no row. */
  lemma CheckStepKeeps(env: Environment, w: World, step: Step)
    requires Inv(env, w)
    requires OnlyChecks(step)
    ensures Keeps(env, w, Next(env, w, step))
  {
    if step.CheckInitiate? {
      InitiateCheckTouchesNoRow(env, w, step);
    } else if step.CheckCallback? {
      CallbackCheckTouchesNoRow(env, w, step);
    } else if step.CheckRetry? {
      RetryCheckTouchesNoRow(env, w, step);
    } else {
      RequestsTouchNoRow(env, w, step);
    }
    CallsOnly(env, w, Next(env, w, step));
  }

  lemma NextKeeps(env: Environment, w: World, step: Step)
    requires Inv(env, w)
    ensures Inv(env, Next(env, w, step)) && AllEvolve(env, w, Next(env, w, step))
  {
    var w' := Next(env, w, step);
    assert Keeps(env, w, w') by {
      match step
      case RunInitiate(contractId, sid, accounts) => InitiateStepKeeps(env, w, contractId, sid, accounts);
      case RunBankTransfer(sid, ack) => BankTransferStepKeeps(env, w, sid, ack);
      case RunCallback(sid, callback) => CallbackStepKeeps(env, w, sid, callback);
      case RunCompletion(sid, answers) => CompletionStepKeeps(env, w, sid, answers);
      case RunRetry(sid, seen) => RetryStepKeeps(env, w, sid, seen);
      case DisputeOpened(event, bankThrows) => DisputeKeeps(env, w, w', event, bankThrows);
      case OpenAccount(_, _) => AccountStepKeeps(env, w, step);
      case CreditEscrow(_, _, _) => AccountStepKeeps(env, w, step);
      case RunUnlock(_, _, _) => AccountStepKeeps(env, w, step);
      case CheckInitiate(_, _) => CheckStepKeeps(env, w, step);
      case AskBankTransfer(_) => CheckStepKeeps(env, w, step);
      case CheckCallback(_) => CheckStepKeeps(env, w, step);
      case AskCompletion(_) => CheckStepKeeps(env, w, step);
      case CheckRetry(_) => CheckStepKeeps(env, w, step);
      case LoseCall(_) => CheckStepKeeps(env, w, step);
    }
  }

  lemma {:induction false} RunKeeps(env: Environment, w: World, steps: seq<Step>)
    requires Inv(env, w)
    ensures Inv(env, Run(env, w, steps))
    decreases |steps|
  {
    if |steps| > 0 {
      NextKeeps(env, w, steps[0]);
      RunKeeps(env, Next(env, w, steps[0]), steps[1..]);
    }
  }

  /** A world some run from the empty database reaches. */
  ghost predicate Reachable(env: Environment, w: World) {
    exists steps :: Run(env, Initial(), steps) == w
  }

  lemma ReachableSatisfiesInv(env: Environment, w: World)
    requires Reachable(env, w)
    ensures Inv(env, w)
  {
    var steps :| Run(env, Initial(), steps) == w;
    RunKeeps(env, Initial(), steps);
  }

  /** Everything the invariant says about one settlement and its account. */
  lemma ReachableRow(env: Environment, w: World, sid: string)
    requires Reachable(env, w) && sid in w.settlements
    ensures Inv(env, w) && RowOk(env, w, sid) && AccountOk(w, w.settlements[sid].escrowAccountId)
  {
    ReachableSatisfiesInv(env, w);
    assert RowOk(env, w, sid);
  }

  function Credits(a: A.AccountState): int {
    A.TotalOf(A.CREDIT, a.transactions)
  }

  // ---- Conservation ----

  /**
   * In every reachable world a contract has at most one settlement, and its escrow account holds all credits
   * minus the settlement total exactly when the settlement is completed, and all credits otherwise.
   */
  lemma EscrowPaysOnceAndOnlyOnCompletion(env: Environment, w: World, sid: string)
    requires Reachable(env, w) && sid in w.settlements
    ensures var s := w.settlements[sid];
      && (forall other :: HasContract(w, other, s.contractId) ==> other == sid)
      && s.escrowAccountId in w.accounts
      && var a := w.accounts[s.escrowAccountId];
      && a.contractId == s.contractId
      && a.balance == Credits(a) - (if s.status == COMPLETED then Total(s) else 0)
      && (a.balance == Credits(a) - Total(s) <==> s.status == COMPLETED)
  {
    ReachableRow(env, w, sid);
    forall other | HasContract(w, other, w.settlements[sid].contractId) ensures other == sid {
      OneSettlementPerContract(env, w, other, sid);
    }
  }

  /** An account whose contract has no settlement has never been debited. */
  lemma UnsettledAccountsKeepAllCredits(env: Environment, w: World, aid: string)
    requires Reachable(env, w) && aid in w.accounts
    requires SettlementOf(w, w.accounts[aid].contractId).None?
    ensures w.accounts[aid].balance == Credits(w.accounts[aid])
  {
    ReachableSatisfiesInv(env, w);
    assert AccountOk(w, aid);
    forall sid ensures !Owns(w, sid, aid) {
      if sid in w.settlements {
        assert RowOk(env, w, sid);
        assert !HasContract(w, sid, w.accounts[aid].contractId);
      }
    }
  }

  /** A first attempt that is under way keeps its whole total frozen. */
  lemma FirstAttemptKeepsTotalFrozen(env: Environment, w: World, sid: string)
    requires Reachable(env, w) && sid in w.settlements
    requires w.settlements[sid].retryCount == 0
    requires w.settlements[sid].status in
      {ESCROW_LOCKED, BANK_PENDING, BANK_SUCCESS, BLOCKCHAIN_FAILED, BLOCKED_BY_STATE_CHANGE}
    ensures w.settlements[sid].escrowAccountId in w.accounts
    ensures w.accounts[w.settlements[sid].escrowAccountId].frozenAmount >= Total(w.settlements[sid])
  {
    ReachableRow(env, w, sid);
  }

  // ---- The record of a completed settlement ----

  /**
   * However many attempts came before, the log of a completed settlement (leg results aside) ends with bank
   * success, the verified on-chain status, the submission and the completion.
   */
  lemma CompletedWasVerifiedAfterPayment(env: Environment, w: World, sid: string)
    requires Reachable(env, w) && sid in w.settlements && w.settlements[sid].status == COMPLETED
    ensures EndsSettled(Strip(w.settlements[sid].events))
  {
    ReachableRow(env, w, sid);
  }

  // ---- When completion goes through ----

  function Favourable(txHash: string, block: int): LedgerAnswers {
    LedgerAnswers(Some(EXPECTED_STATUS_VERIFIED), Some(txHash), Confirmed(block))
  }

  /**
   * Even with every answer favourable, completion goes through exactly when the account has the total
   * *available*, besides what it has frozen; otherwise nothing at all is stored.
   */
  lemma CompletionGoesThroughExactly(env: Environment, w: World, sid: string, txHash: string, block: int)
    requires Reachable(env, w) && sid in w.settlements && w.settlements[sid].status == BANK_SUCCESS
    ensures var s := w.settlements[sid];
      && s.escrowAccountId in w.accounts
      && var w' := CompletionTx(w, sid, Favourable(txHash, block));
      && sid in w'.settlements && s.escrowAccountId in w'.accounts
      && (w'.settlements[sid].status == COMPLETED <==> A.Available(w.accounts[s.escrowAccountId]) >= Total(s))
      && (w'.settlements[sid].status != COMPLETED ==> w' == w)
      && (w'.settlements[sid].status == COMPLETED ==>
            w'.accounts[s.escrowAccountId].balance == w.accounts[s.escrowAccountId].balance - Total(s))
  {
    ReachableRow(env, w, sid);
    var s := w.settlements[sid];
    CompletionShape(w, sid, Favourable(txHash, block));
    SettledEffect(s, txHash, block);
  }

  /**
   * A first attempt has its own total frozen, so it completes only on an account credited with at least twice
   * the total; an account funded with exactly the agreed total never completes without a retry.
   */
  lemma FirstAttemptNeedsTwiceTheTotal(env: Environment, w: World, sid: string)
    requires Reachable(env, w) && sid in w.settlements
    requires w.settlements[sid].status == COMPLETED
    requires w.settlements[sid].escrowAccountId in w.accounts
    requires Credits(w.accounts[w.settlements[sid].escrowAccountId]) < 2 * Total(w.settlements[sid])
    ensures w.settlements[sid].retryCount >= 1
  {
    ReachableRow(env, w, sid);
  }

  /** What a retry asks for is decided by the status read before the lock, whatever the locked row says. */
  lemma RetryAsks(w: World, sid: string, seen: SettlementStatus)
    requires sid in w.settlements && w.settlements[sid].id == sid && S.CanRetry(w.settlements[sid])
    ensures var retried := RetryTx(w, sid, seen);
      && retried.calls == w.calls + (if seen == BANK_FAILED then multiset{BankTransferCall(sid)}
                                     else if seen == BLOCKCHAIN_FAILED then multiset{CompletionCall(sid)} else multiset{})
      && sid in retried.settlements && retried.settlements[sid].status == ESCROW_LOCKED
      && retried.settlements[sid].retryCount == w.settlements[sid].retryCount + 1
  {
    RetryEffect(w.settlements[sid]);
  }

  /**
   * A retry puts the settlement back to ESCROW_LOCKED. It asks for the bank transfer, the only thing that leads
   * on from there, exactly when the status read before the lock was BANK_FAILED. A completion, which it asks
   * for exactly when BLOCKCHAIN_FAILED was read, does nothing whatever the ledger answers and whatever the
   * locked row said; so from then on only paying at the bank once more helps, and nobody has asked for it.
   */
  lemma RetryAfterLedgerFailureStalls(env: Environment, w: World, sid: string, seen: SettlementStatus, answers: LedgerAnswers)
    requires Reachable(env, w) && sid in w.settlements && S.CanRetry(w.settlements[sid])
    ensures var retried := RetryTx(w, sid, seen);
      && (retried.calls[BankTransferCall(sid)] == w.calls[BankTransferCall(sid)] + 1 <==> seen == BANK_FAILED)
      && (retried.calls[CompletionCall(sid)] == w.calls[CompletionCall(sid)] + 1 <==> seen == BLOCKCHAIN_FAILED)
      && sid in retried.settlements && retried.settlements[sid].status == ESCROW_LOCKED
      && retried.settlements[sid].retryCount == w.settlements[sid].retryCount + 1
      && CompletionTx(retried, sid, answers) == retried
      && (forall batch :: BankTransferTx(retried, sid, AckAccepted(batch)) != retried)
  {
    RetriableRow(env, w, sid);
    var retried := RetryTx(w, sid, seen);
    RetryAsks(w, sid, seen);
    forall batch ensures BankTransferTx(retried, sid, AckAccepted(batch)) != retried {
      BankTransferMoves(retried, sid, batch);
    }
  }

  lemma RetriableRow(env: Environment, w: World, sid: string)
    requires Reachable(env, w) && sid in w.settlements
    ensures w.settlements[sid].id == sid && w.settlements[sid].retryCount <= 3
  {
    ReachableRow(env, w, sid);
  }

  lemma BankTransferMoves(w: World, sid: string, batch: Option<string>)
    requires sid in w.settlements && w.settlements[sid].status == ESCROW_LOCKED && w.settlements[sid].retryCount <= 3
    requires w.settlements[sid].id == sid
    ensures BankTransferTx(w, sid, AckAccepted(batch)) != w
  {
    BankPendingMoves(w.settlements[sid], batch);
    BankTransferShape(w, sid, AckAccepted(batch));
    assert BankTransferTx(w, sid, AckAccepted(batch)).settlements[sid].status == BANK_PENDING;
  }

  // ---- Frozen settlements ----

  /**
   * A settlement frozen by a dispute stays frozen and its account never loses money, whatever steps follow,
   * including callbacks, retries and completions that had passed their checks before the freeze.
   */
  lemma {:induction false} FrozenSettlementStaysFrozen(env: Environment, w: World, steps: seq<Step>, sid: string)
    requires Inv(env, w) && sid in w.settlements && w.settlements[sid].status == FROZEN_BY_DISPUTE
    ensures var w' := Run(env, w, steps);
      && sid in w'.settlements && w'.settlements[sid].status == FROZEN_BY_DISPUTE
      && w'.settlements[sid].escrowAccountId == w.settlements[sid].escrowAccountId
      && w.settlements[sid].escrowAccountId in w.accounts && w.settlements[sid].escrowAccountId in w'.accounts
      && w'.accounts[w.settlements[sid].escrowAccountId].balance >= w.accounts[w.settlements[sid].escrowAccountId].balance
    decreases |steps|
  {
    assert RowOk(env, w, sid);
    if |steps| > 0 {
      NextKeeps(env, w, steps[0]);
      assert RowEvolves(w, Next(env, w, steps[0]), sid);
      FrozenSettlementStaysFrozen(env, Next(env, w, steps[0]), steps[1..], sid);
    }
  }

  /** Without a waiting unlock, nothing that was frozen is released any more. */
  lemma {:induction false} FreezeLastsWithoutUnlock(env: Environment, w: World, steps: seq<Step>, sid: string)
    requires Inv(env, w) && sid in w.settlements && w.settlements[sid].status == FROZEN_BY_DISPUTE
    requires NoUnlockWaiting(w, w.settlements[sid].escrowAccountId)
    ensures var aid := w.settlements[sid].escrowAccountId;
      && aid in w.accounts && aid in Run(env, w, steps).accounts
      && Run(env, w, steps).accounts[aid].frozenAmount >= w.accounts[aid].frozenAmount
    decreases |steps|
  {
    assert RowOk(env, w, sid);
    assert AccountOk(w, w.settlements[sid].escrowAccountId);
    if |steps| > 0 {
      NextKeeps(env, w, steps[0]);
      assert RowEvolves(w, Next(env, w, steps[0]), sid);
      FreezeLastsWithoutUnlock(env, Next(env, w, steps[0]), steps[1..], sid);
    }
  }

  ghost predicate FreezeLasts(env: Environment, w: World, aid: string) {
    forall steps :: aid in w.accounts && aid in Run(env, w, steps).accounts
      && Run(env, w, steps).accounts[aid].frozenAmount >= w.accounts[aid].frozenAmount
  }

  lemma OneStep(env: Environment, w: World, step: Step)
    ensures Run(env, w, [step]) == Next(env, w, step)
  {
    assert [step][1..] == [];
    assert Run(env, Next(env, w, step), []) == Next(env, w, step);
  }

  /** One waiting unlock releases everything, the part the dispute froze included. */
  lemma WaitingUnlockReleasesEverything(env: Environment, w: World, aid: string, reference: string)
    requires Inv(env, w) && aid in w.accounts && w.accounts[aid].frozenAmount > 0
    requires UnlockCall(aid, reference) in w.calls
    ensures var w' := Next(env, w, RunUnlock(aid, reference, false));
      aid in w'.accounts && w'.accounts[aid].frozenAmount == 0
  {
    UnlockRuns(env, w, aid, reference);
    AccountIsOk(w, aid);
    ReleasedAccount(w, aid, reference);
  }

  lemma AccountIsOk(w: World, aid: string)
    requires AccountsOk(w) && aid in w.accounts
    ensures AccountOk(w, aid)
  {
  }

  lemma UnlockRuns(env: Environment, w: World, aid: string, reference: string)
    requires UnlockCall(aid, reference) in w.calls
    ensures Next(env, w, RunUnlock(aid, reference, false)) == UnlockTx(Take(w, UnlockCall(aid, reference)), aid, reference, false)
  {
  }

  lemma ReleasedAccount(w: World, aid: string, reference: string)
    requires aid in w.accounts && AccountOk(w, aid) && w.accounts[aid].frozenAmount > 0
    ensures var w' := UnlockTx(Take(w, UnlockCall(aid, reference)), aid, reference, false);
      aid in w'.accounts && w'.accounts[aid].frozenAmount == 0
  {
    UnlockShape(Take(w, UnlockCall(aid, reference)), aid, reference, false);
    UnfreezeEffect(w.accounts[aid], w.accounts[aid].frozenAmount, reference);
  }

  /**
   * The documented promise is that disputed money stays locked until the dispute is resolved. For a frozen
   * settlement with frozen money it holds exactly when no unlock of a failed bank transfer is still waiting.
   */
  lemma DisputedMoneyStaysLockedExactly(env: Environment, w: World, sid: string)
    requires Reachable(env, w) && sid in w.settlements && w.settlements[sid].status == FROZEN_BY_DISPUTE
    requires w.settlements[sid].escrowAccountId in w.accounts
    requires w.accounts[w.settlements[sid].escrowAccountId].frozenAmount > 0
    ensures FreezeLasts(env, w, w.settlements[sid].escrowAccountId)
      <==> NoUnlockWaiting(w, w.settlements[sid].escrowAccountId)
  {
    var aid := w.settlements[sid].escrowAccountId;
    ReachableSatisfiesInv(env, w);
    if NoUnlockWaiting(w, aid) {
      FreezeLastsFor(env, w, sid);
    } else {
      var reference :| UnlockCall(aid, reference) in w.calls;
      WaitingUnlockEndsFreeze(env, w, aid, reference);
    }
  }

  lemma FreezeLastsFor(env: Environment, w: World, sid: string)
    requires Inv(env, w) && sid in w.settlements && w.settlements[sid].status == FROZEN_BY_DISPUTE
    requires NoUnlockWaiting(w, w.settlements[sid].escrowAccountId)
    ensures FreezeLasts(env, w, w.settlements[sid].escrowAccountId)
  {
    var aid := w.settlements[sid].escrowAccountId;
    forall steps
      ensures aid in w.accounts && aid in Run(env, w, steps).accounts
        && Run(env, w, steps).accounts[aid].frozenAmount >= w.accounts[aid].frozenAmount
    {
      FreezeLastsWithoutUnlock(env, w, steps, sid);
    }
  }

  lemma WaitingUnlockEndsFreeze(env: Environment, w: World, aid: string, reference: string)
    requires Inv(env, w) && aid in w.accounts && w.accounts[aid].frozenAmount > 0
    requires UnlockCall(aid, reference) in w.calls
    ensures !FreezeLasts(env, w, aid)
  {
    WaitingUnlockReleasesEverything(env, w, aid, reference);
    OneStep(env, w, RunUnlock(aid, reference, false));
    NotLasting(env, w, aid, [RunUnlock(aid, reference, false)]);
  }

  lemma NotLasting(env: Environment, w: World, aid: string, steps: seq<Step>)
    requires aid in w.accounts && aid in Run(env, w, steps).accounts
    requires Run(env, w, steps).accounts[aid].frozenAmount < w.accounts[aid].frozenAmount
    ensures !FreezeLasts(env, w, aid)
  {
  }

  // ---- Progress ----

  /** How often the committed status of a settlement changes during a run. */
  ghost function StatusChanges(env: Environment, w: World, steps: seq<Step>, sid: string): nat
    decreases |steps|
  {
    if |steps| == 0 then 0
    else
      var w' := Next(env, w, steps[0]);
      var changed := sid in w.settlements && sid in w'.settlements
                     && w.settlements[sid].status != w'.settlements[sid].status;
      (if changed then 1 else 0) + StatusChanges(env, w', steps[1..], sid)
  }

  lemma OneStepUsesPotential(env: Environment, w: World, step: Step, sid: string)
    requires Inv(env, w) && sid in w.settlements
    ensures var w' := Next(env, w, step);
      && Inv(env, w') && sid in w'.settlements
      && (w'.settlements[sid].status == w.settlements[sid].status ==>
            Potential(w'.settlements[sid]) == Potential(w.settlements[sid]))
      && (w'.settlements[sid].status != w.settlements[sid].status ==>
            Potential(w'.settlements[sid]) < Potential(w.settlements[sid]))
  {
    NextKeeps(env, w, step);
    assert RowEvolves(w, Next(env, w, step), sid);
  }

  lemma {:induction false} ChangesUseUpPotential(env: Environment, w: World, steps: seq<Step>, sid: string)
    requires Inv(env, w) && sid in w.settlements
    ensures sid in Run(env, w, steps).settlements
    ensures StatusChanges(env, w, steps, sid) + Potential(Run(env, w, steps).settlements[sid]) <= Potential(w.settlements[sid])
    ensures Potential(Run(env, w, steps).settlements[sid]) >= 0
    decreases |steps|
  {
    if |steps| > 0 {
      OneStepUsesPotential(env, w, steps[0], sid);
      ChangesUseUpPotential(env, Next(env, w, steps[0]), steps[1..], sid);
    } else {
      assert RowOk(env, w, sid);
    }
  }

  /** In every run a settlement changes its committed status at most 16 times. */
  lemma {:induction false} AtMostSixteenStatusChanges(env: Environment, w: World, steps: seq<Step>, sid: string)
    requires Inv(env, w)
    ensures StatusChanges(env, w, steps, sid) <= 16
    decreases |steps|
  {
    if sid in w.settlements {
      assert RowOk(env, w, sid);
      ChangesUseUpPotential(env, w, steps, sid);
    } else if |steps| > 0 {
      NextKeeps(env, w, steps[0]);
      AtMostSixteenStatusChanges(env, Next(env, w, steps[0]), steps[1..], sid);
    }
  }

  // ---- Disputes ----

  /**
   * Dispute processing fails exactly when the contract's settlement is blocked by a state change. When it
   * succeeds on an existing account and the bank does not throw, nothing is available any more and the
   * settlement, if any, is terminal or frozen.
   */
  lemma DisputeOutcome(env: Environment, w: World, event: DisputeEvent, bankThrows: bool)
    requires Reachable(env, w)
    ensures var r := DisputeTx(w, event, bankThrows);
      var found := SettlementOf(w, event.contractId);
      && (r.1 <==> (found.Some? ==> w.settlements[found.value].status != BLOCKED_BY_STATE_CHANGE))
      && (!r.1 ==> r.0 == w)
      && (r.1 && found.Some? ==>
            found.value in r.0.settlements && r.0.settlements[found.value].status in {COMPLETED, CANCELLED, FROZEN_BY_DISPUTE})
      && (r.1 && !bankThrows && AccountOf(w, event.contractId).Some? ==>
            var aid := AccountOf(w, event.contractId).value;
            aid in r.0.accounts && A.Available(r.0.accounts[aid]) == 0)
  {
    ReachableSatisfiesInv(env, w);
    DisputeOutcomeFrom(env, w, event, bankThrows);
  }

  lemma DisputeOutcomeFrom(env: Environment, w: World, event: DisputeEvent, bankThrows: bool)
    requires Inv(env, w)
    ensures var r := DisputeTx(w, event, bankThrows);
      var found := SettlementOf(w, event.contractId);
      && (r.1 <==> (found.Some? ==> w.settlements[found.value].status != BLOCKED_BY_STATE_CHANGE))
      && (!r.1 ==> r.0 == w)
      && (r.1 && found.Some? ==>
            found.value in r.0.settlements && r.0.settlements[found.value].status in {COMPLETED, CANCELLED, FROZEN_BY_DISPUTE})
      && (r.1 && !bankThrows && AccountOf(w, event.contractId).Some? ==>
            var aid := AccountOf(w, event.contractId).value;
            aid in r.0.accounts && A.Available(r.0.accounts[aid]) == 0)
  {
    DisputeShape(env, w, event, bankThrows);
    var account, found := AccountOf(w, event.contractId), SettlementOf(w, event.contractId);
    if account.Some? {
      DisputedAccount(w, event, bankThrows, account.value);
    }
    if found.Some? {
      DisputedStatus(env, w, found.value, event.blockNumber);
    }
  }

  lemma DisputedAccount(w: World, event: DisputeEvent, bankThrows: bool, aid: string)
    requires AccountsOk(w) && AccountOf(w, event.contractId) == Some(aid)
    ensures var escrow := DisputeEscrow(w, event, bankThrows);
      && escrow.settlements == w.settlements && aid in escrow.accounts
      && (!bankThrows ==> A.Available(escrow.accounts[aid]) == 0)
  {
    DisputeEscrowShape(w, event, bankThrows, aid);
    assert AccountOk(w, aid);
    DisputeFreezeEffect(w, w.accounts[aid], bankThrows);
  }

  lemma DisputedStatus(env: Environment, w: World, sid: string, block: int)
    requires RowsOk(env, w) && sid in w.settlements
    ensures w.settlements[sid].id == sid
    ensures !CanBeFrozenByDispute(w.settlements[sid].status) ==> w.settlements[sid].status in {COMPLETED, CANCELLED, FROZEN_BY_DISPUTE}
    ensures CanBeFrozenByDispute(w.settlements[sid].status) && w.settlements[sid].status != BLOCKED_BY_STATE_CHANGE ==>
      Marked(w.settlements[sid], block).id == sid && Marked(w.settlements[sid], block).status == FROZEN_BY_DISPUTE
  {
    assert RowOk(env, w, sid);
    if CanBeFrozenByDispute(w.settlements[sid].status) {
      FrozenByDisputeEffect(w.settlements[sid], block);
    }
  }
}
