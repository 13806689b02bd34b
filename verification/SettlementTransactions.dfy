/** What each remaining transaction amounts to, and that it keeps the invariant. */
module SettlementTransactions {
  import opened Common
  import opened SettlementStatuses
  import opened SplitPayments
  import opened SettlementSystem
  import opened SettlementInvariant
  import opened SettlementPreservation
  import S = SettlementEntity
  import A = EscrowAccounts

  /** Saving one settlement that does not complete, possibly asking for an unlock of its account. */
  lemma SaveKeeps(env: Environment, w: World, w': World, sid: string, t: S.SettlementState)
    requires Inv(env, w) && sid in w.settlements
    requires w'.settlements == w.settlements[sid := t] && w'.accounts == w.accounts
    requires var s := w.settlements[sid];
      && Evolves(s, t) && (s.status == COMPLETED <==> t.status == COMPLETED)
      && (HoldsFunds(t) ==> HoldsFunds(s))
      && Committed(t.status) && t.retryCount <= 3 && LogMatches(t)
      && UnlocksFrom(w, w', s.escrowAccountId)
      && (NoNewUnlocks(w, w') || t.status == BANK_FAILED)
      && (MayBeUnlocked(s) ==> MayBeUnlocked(t))
      && (t.status == BANK_FAILED ==> s.status != FROZEN_BY_DISPUTE)
    ensures Inv(env, w') && AllEvolve(env, w, w')
  {
    var s := w.settlements[sid];
    assert RowOk(env, w, sid) && AccountOk(w, s.escrowAccountId);
    var a := w.accounts[s.escrowAccountId];
    SettlementMoves(s, a, t);
    assert w'.accounts == w.accounts[s.escrowAccountId := a];
    assert GoodCalls(w, w', s, a, t, a);
    RowUpdate(env, w, w', sid, t, a);
  }

  // ---- Bank callback ----

  lemma {:induction false} RecordAllEffect(s: S.SettlementState, results: seq<CallbackResult>)
    ensures var t := RecordAll(s, results);
      && Strip(t.events) == Strip(s.events)
      && s.events <= t.events
      && t == s.(results := t.results, events := t.events, version := t.version)
  {
    if |results| > 0 {
      var i := |results| - 1;
      RecordAllEffect(s, results[..i]);
      var r := S.BankTransferResult(i, results[i].recipientType, results[i].status);
      var before := RecordAll(s, results[..i]);
      StripAppend(before.events, S.Event(before.status, S.BankLegResult(r)));
    }
  }

  lemma RecordedEffect(s: S.SettlementState, callback: BankCallback)
    ensures var t := Recorded(s, callback);
      && Strip(t.events) == Strip(s.events)
      && s.events <= t.events
      && t == s.(results := t.results, events := t.events, version := t.version)
  {
    if callback.results.Some? {
      RecordAllEffect(s, callback.results.value);
    }
  }

  /** A final callback moves only a pending settlement; an interim one records leg results in any status. */
  lemma CallbackShape(w: World, sid: string, callback: BankCallback)
    requires sid in w.settlements && w.settlements[sid].id == sid
    ensures var s := w.settlements[sid];
      var r := Recorded(s, callback);
      var unlock := UnlockCall(s.escrowAccountId, s.referenceId);
      CallbackTx(w, sid, callback) ==
        match callback.status
        case TRANSFER_SUCCESS =>
          if s.status == BANK_PENDING && S.AreAllBankTransfersSuccessful(r)
          then Ask(Save(w, S.Apply(r, S.MarkBankSuccess).state), CompletionCall(sid)) else w
        case TRANSFER_FAILED =>
          if s.status == BANK_PENDING then Ask(Save(w, S.Apply(r, S.MarkBankFailed(callback.errorText)).state), unlock) else w
        case TRANSFER_REJECTED =>
          if s.status == BANK_PENDING then Ask(Save(w, S.Apply(r, S.MarkBankFailed(callback.errorText)).state), unlock) else w
        case TRANSFER_PENDING => Save(w, r)
        case TRANSFER_PROCESSING => Save(w, r)
        case TRANSFER_TIMEOUT => Save(w, r)
  {
    RecordedEffect(w.settlements[sid], callback);
  }

  lemma BankSuccessEffect(s: S.SettlementState, r: S.SettlementState)
    requires s.status == BANK_PENDING && s.events <= r.events
    requires r == s.(results := r.results, events := r.events, version := r.version)
    requires S.Apply(r, S.MarkBankSuccess).accepted
    ensures var t := S.Apply(r, S.MarkBankSuccess).state;
      && t.status == BANK_SUCCESS && t.retryCount == s.retryCount && t.id == s.id && Evolves(s, t) && LogMatches(t)
  {
    StripAppend(r.events, S.Event(BANK_SUCCESS, S.BankTransferSuccess));
  }

  lemma BankFailedEffect(s: S.SettlementState, r: S.SettlementState, error: string)
    requires s.status == BANK_PENDING && s.events <= r.events
    requires r == s.(results := r.results, events := r.events, version := r.version)
    ensures var o := S.Apply(r, S.MarkBankFailed(error));
      && o.accepted && o.state.status == BANK_FAILED && o.state.retryCount == s.retryCount
      && o.state.id == s.id && Evolves(s, o.state)
  {
  }

  lemma SuccessfulCallbackKeeps(env: Environment, w: World, w': World, sid: string, r: S.SettlementState)
    requires Inv(env, w) && sid in w.settlements
    requires var s := w.settlements[sid];
      && s.status == BANK_PENDING && s.events <= r.events && Strip(r.events) == Strip(s.events)
      && r == s.(results := r.results, events := r.events, version := r.version)
    requires S.Apply(r, S.MarkBankSuccess).accepted
    requires w' == Ask(Save(w, S.Apply(r, S.MarkBankSuccess).state), CompletionCall(sid))
    ensures Inv(env, w') && AllEvolve(env, w, w')
  {
    assert RowOk(env, w, sid);
    BankSuccessEffect(w.settlements[sid], r);
    SaveKeeps(env, w, w', sid, S.Apply(r, S.MarkBankSuccess).state);
  }

  lemma FailedCallbackKeeps(env: Environment, w: World, w': World, sid: string, r: S.SettlementState, error: string)
    requires Inv(env, w) && sid in w.settlements
    requires var s := w.settlements[sid];
      && s.status == BANK_PENDING && s.events <= r.events && Strip(r.events) == Strip(s.events)
      && r == s.(results := r.results, events := r.events, version := r.version)
      && w' == Ask(Save(w, S.Apply(r, S.MarkBankFailed(error)).state), UnlockCall(s.escrowAccountId, s.referenceId))
    ensures Inv(env, w') && AllEvolve(env, w, w')
  {
    assert RowOk(env, w, sid);
    BankFailedEffect(w.settlements[sid], r, error);
    SaveKeeps(env, w, w', sid, S.Apply(r, S.MarkBankFailed(error)).state);
  }

  lemma RecordingCallbackKeeps(env: Environment, w: World, sid: string, r: S.SettlementState)
    requires Inv(env, w) && sid in w.settlements
    requires var s := w.settlements[sid];
      && s.events <= r.events && Strip(r.events) == Strip(s.events)
      && r == s.(results := r.results, events := r.events, version := r.version)
    ensures Inv(env, Save(w, r)) && AllEvolve(env, w, Save(w, r))
  {
    assert RowOk(env, w, sid);
    SaveKeeps(env, w, Save(w, r), sid, r);
  }

  lemma CallbackKeeps(env: Environment, w: World, w': World, sid: string, callback: BankCallback)
    requires Inv(env, w) && w' == CallbackTx(w, sid, callback)
    ensures Inv(env, w') && AllEvolve(env, w, w')
  {
    if sid !in w.settlements {
      CallsOnly(env, w, w');
    } else {
      var r := Recorded(w.settlements[sid], callback);
      RecordedEffect(w.settlements[sid], callback);
      assert w.settlements[sid].id == sid by { assert RowOk(env, w, sid); }
      CallbackShape(w, sid, callback);
      if w' == w {
        CallsOnly(env, w, w');
      } else if callback.status == TRANSFER_SUCCESS {
        SuccessfulCallbackKeeps(env, w, w', sid, r);
      } else if callback.status == TRANSFER_FAILED || callback.status == TRANSFER_REJECTED {
        FailedCallbackKeeps(env, w, w', sid, r, callback.errorText);
      } else {
        RecordingCallbackKeeps(env, w, sid, r);
      }
    }
  }

  // ---- Retry ----

  lemma RetryEffect(s: S.SettlementState)
    requires S.CanRetry(s)
    ensures var o := S.Apply(s, S.PrepareForRetry);
      && o.accepted && o.state.status == ESCROW_LOCKED && o.state.retryCount == s.retryCount + 1 <= 3
      && o.state.id == s.id && Evolves(s, o.state) && LogMatches(o.state)
  {
  }

  /** A retry is stored exactly when the locked row can be retried, whatever was seen before the lock. */
  lemma RetryShape(w: World, sid: string, seen: SettlementStatus)
    requires sid in w.settlements
    ensures var w' := RetryTx(w, sid, seen);
      if S.CanRetry(w.settlements[sid])
      then
        && w'.settlements == Save(w, S.Apply(w.settlements[sid], S.PrepareForRetry).state).settlements
        && w'.accounts == w.accounts && NoNewUnlocks(w, w')
      else w' == w
  {
  }

  lemma RetryKeeps(env: Environment, w: World, w': World, sid: string, seen: SettlementStatus)
    requires Inv(env, w) && w' == RetryTx(w, sid, seen)
    ensures Inv(env, w') && AllEvolve(env, w, w')
  {
    if sid in w.settlements {
      RetryShape(w, sid, seen);
    }
    if sid in w.settlements && S.CanRetry(w.settlements[sid]) {
      assert RowOk(env, w, sid);
      RetryEffect(w.settlements[sid]);
      SaveKeeps(env, w, w', sid, S.Apply(w.settlements[sid], S.PrepareForRetry).state);
    } else {
      CallsOnly(env, w, w');
    }
  }

  // ---- Completion on chain ----

  function Submitted(s: S.SettlementState, txHash: string): S.SettlementState {
    S.Apply(S.Apply(s, S.RecordOnChainStatusVerified(EXPECTED_STATUS_VERIFIED)).state, S.MarkBlockchainPending(txHash)).state
  }

  function FailedOnChain(s: S.SettlementState, txHash: string, error: string): S.SettlementState {
    S.Apply(Submitted(s, txHash), S.MarkBlockchainFailed(error)).state
  }

  function SettledOnChain(s: S.SettlementState, txHash: string, block: int): S.SettlementState {
    S.Apply(Submitted(s, txHash), S.MarkCompleted(block)).state
  }

  function Payment(s: S.SettlementState): A.Command {
    A.Debit(Total(s), s.referenceId)
  }

  /** Before the submission a failure cannot be stored; after it, it can; after completion it cannot. */
  lemma ChainFailureShape(w: World, s: S.SettlementState, error: string)
    ensures ChainFailure(w, s, error) ==
      if s.status == BLOCKCHAIN_PENDING then Save(w, S.Apply(s, S.MarkBlockchainFailed(error)).state) else w
  {
  }

  lemma SubmittedEffect(s: S.SettlementState, txHash: string)
    requires s.status == BANK_SUCCESS
    ensures var verified := S.Apply(s, S.RecordOnChainStatusVerified(EXPECTED_STATUS_VERIFIED)).state;
      && verified.status == BANK_SUCCESS
      && S.Apply(verified, S.MarkBlockchainPending(txHash)).accepted
      && Submitted(s, txHash).status == BLOCKCHAIN_PENDING
      && Submitted(s, txHash).escrowAccountId == s.escrowAccountId
      && Submitted(s, txHash).split == s.split && Submitted(s, txHash).referenceId == s.referenceId
  {
  }

  lemma ConfirmShape(w: World, s: S.SettlementState, confirmation: Confirmation, txHash: string)
    requires s.status == BLOCKCHAIN_PENDING && s.escrowAccountId in w.accounts
    ensures Confirm(w, s, confirmation, txHash) ==
      match confirmation
      case Reverted(error) => Save(w, S.Apply(s, S.MarkBlockchainFailed(error)).state)
      case ConfirmationThrew(error) => Save(w, S.Apply(s, S.MarkBlockchainFailed(error)).state)
      case Confirmed(block) =>
        var debit := A.Apply(w.accounts[s.escrowAccountId], Payment(s));
        if debit.accepted then SaveAccount(Save(w, S.Apply(s, S.MarkCompleted(block)).state), debit.state) else w
  {
    match confirmation
    case Reverted(error) => ChainFailureShape(w, s, error);
    case ConfirmationThrew(error) => ChainFailureShape(w, s, error);
    case Confirmed(block) =>
      var done := S.Apply(s, S.MarkCompleted(block));
      assert done.accepted && done.state.status == COMPLETED;
      ChainFailureShape(w, done.state, "");
  }

  /**
   * What the ledger's answers lead to. An unreadable status and a failed submission roll back (the statuses
   * the source tries are not in the table); a changed status blocks; a failed confirmation is stored; a
   * confirmed one commits completion and debit together, or rolls both back when the debit is refused.
   */
  lemma CompletionShape(w: World, sid: string, answers: LedgerAnswers)
    requires sid in w.settlements && w.settlements[sid].id == sid
    requires w.settlements[sid].status == BANK_SUCCESS
    requires w.settlements[sid].escrowAccountId in w.accounts
    ensures var s := w.settlements[sid];
      var a := w.accounts[s.escrowAccountId];
      CompletionTx(w, sid, answers) ==
        if answers.reading.None? then w
        else if answers.reading.value != EXPECTED_STATUS_VERIFIED then
          Save(w, S.Apply(s, S.MarkBlockedByStateChange(answers.reading.value, EXPECTED_STATUS_VERIFIED, "")).state)
        else if answers.submission.None? then w
        else
          match answers.confirmation
          case Reverted(error) => Save(w, FailedOnChain(s, answers.submission.value, error))
          case ConfirmationThrew(error) => Save(w, FailedOnChain(s, answers.submission.value, error))
          case Confirmed(block) =>
            if A.Apply(a, Payment(s)).accepted
            then SaveAccount(Save(w, SettledOnChain(s, answers.submission.value, block)), A.Apply(a, Payment(s)).state)
            else w
  {
    var s := w.settlements[sid];
    if answers.reading.None? {
      assert !S.Apply(s, S.MarkForManualReview("")).accepted;
    } else if answers.reading.value != EXPECTED_STATUS_VERIFIED {
      BlockedEffect(s, answers.reading.value);
    } else if answers.submission.None? {
      var verified := S.Apply(s, S.RecordOnChainStatusVerified(EXPECTED_STATUS_VERIFIED)).state;
      assert verified.status == BANK_SUCCESS;
      ChainFailureShape(w, verified, "");
    } else {
      SubmittedEffect(s, answers.submission.value);
      ConfirmShape(w, Submitted(s, answers.submission.value), answers.confirmation, answers.submission.value);
    }
  }

  lemma BlockedEffect(s: S.SettlementState, current: int)
    requires s.status == BANK_SUCCESS
    ensures var o := S.Apply(s, S.MarkBlockedByStateChange(current, EXPECTED_STATUS_VERIFIED, ""));
      && o.accepted && o.state.status == BLOCKED_BY_STATE_CHANGE && o.state.retryCount == s.retryCount
      && o.state.id == s.id && Evolves(s, o.state) && LogMatches(o.state)
  {
  }

  lemma FailedEffect(s: S.SettlementState, txHash: string, error: string)
    requires s.status == BANK_SUCCESS
    ensures var t := FailedOnChain(s, txHash, error);
      && t.status == BLOCKCHAIN_FAILED && t.retryCount == s.retryCount
      && t.id == s.id && Evolves(s, t) && LogMatches(t)
  {
    assert FailedOnChain(s, txHash, error).events == s.events
      + [S.Event(BANK_SUCCESS, S.OnChainStatusVerified(EXPECTED_STATUS_VERIFIED))]
      + [S.Event(BLOCKCHAIN_PENDING, S.BlockchainTxSubmitted(txHash))]
      + [S.Event(BLOCKCHAIN_FAILED, S.BlockchainTxFailed)];
  }

  lemma SettledRow(s: S.SettlementState, txHash: string, block: int)
    requires s.status == BANK_SUCCESS
    ensures var t := SettledOnChain(s, txHash, block);
      && t.status == COMPLETED && t.retryCount == s.retryCount
      && t.id == s.id && Evolves(s, t)
      && t.events == s.events
           + [S.Event(BANK_SUCCESS, S.OnChainStatusVerified(EXPECTED_STATUS_VERIFIED))]
           + [S.Event(BLOCKCHAIN_PENDING, S.BlockchainTxSubmitted(txHash))]
           + [S.Event(COMPLETED, S.SettlementCompleted(block))]
  {
  }

  lemma SettledEffect(s: S.SettlementState, txHash: string, block: int)
    requires s.status == BANK_SUCCESS && EndsPaid(Strip(s.events))
    ensures var t := SettledOnChain(s, txHash, block);
      && t.status == COMPLETED && t.retryCount == s.retryCount
      && t.id == s.id && Evolves(s, t) && LogMatches(t)
  {
    var e1 := S.Event(BANK_SUCCESS, S.OnChainStatusVerified(EXPECTED_STATUS_VERIFIED));
    var e2 := S.Event(BLOCKCHAIN_PENDING, S.BlockchainTxSubmitted(txHash));
    var e3 := S.Event(COMPLETED, S.SettlementCompleted(block));
    SettledRow(s, txHash, block);
    StripAppend(s.events, e1);
    StripAppend(s.events + [e1], e2);
    StripAppend(s.events + [e1] + [e2], e3);
  }

  lemma SettlementPays(s: S.SettlementState, a: A.AccountState, t: S.SettlementState)
    requires A.Valid(a) && a.status != CLOSED && MoneyMatches(s, a)
    requires Evolves(s, t) && s.status == BANK_SUCCESS && t.status == COMPLETED && t.retryCount == s.retryCount <= 3
    requires LogMatches(t)
    requires A.Apply(a, Payment(s)).accepted
    ensures GoodPair(s, a, t, A.Apply(a, Payment(s)).state)
  {
    DebitEffect(a, Total(s), s.referenceId);
  }

  lemma CompletionKeeps(env: Environment, w: World, w': World, sid: string, answers: LedgerAnswers)
    requires Inv(env, w) && w' == CompletionTx(w, sid, answers)
    ensures Inv(env, w') && AllEvolve(env, w, w')
  {
    if w' == w || sid !in w.settlements || w.settlements[sid].status != BANK_SUCCESS {
      CallsOnly(env, w, w');
    } else {
      assert RowOk(env, w, sid);
      var s := w.settlements[sid];
      assert AccountOk(w, s.escrowAccountId);
      CompletionShape(w, sid, answers);
      if answers.reading.value != EXPECTED_STATUS_VERIFIED {
        BlockedEffect(s, answers.reading.value);
        SaveKeeps(env, w, w', sid, w'.settlements[sid]);
      } else {
        var txHash := answers.submission.value;
        match answers.confirmation
        case Reverted(error) =>
          FailedEffect(s, txHash, error);
          SaveKeeps(env, w, w', sid, w'.settlements[sid]);
        case ConfirmationThrew(error) =>
          FailedEffect(s, txHash, error);
          SaveKeeps(env, w, w', sid, w'.settlements[sid]);
        case Confirmed(block) =>
          SettledEffect(s, txHash, block);
          var a := w.accounts[s.escrowAccountId];
          var t := SettledOnChain(s, txHash, block);
          SettlementPays(s, a, t);
          RowUpdate(env, w, w', sid, t, A.Apply(a, Payment(s)).state);
      }
    }
  }
}
