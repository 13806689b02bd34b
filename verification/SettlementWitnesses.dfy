/** The cases the theorems speak of occur: for every payable contract there are runs that end in each of them. */
module SettlementWitnesses {
  import opened Common
  import opened SettlementStatuses
  import opened SplitPayments
  import opened SettlementSystem
  import opened SettlementInvariant
  import opened SettlementTheorems
  import opened SettlementRuns
  import opened BankRejections
  import opened DisputeListeners
  import opened DisputeDelivery
  import H = SettlementHistory
  import P = PollWindows
  import S = SettlementEntity
  import A = EscrowAccounts

  function TwoLegPayout(): Payout {
    Payout(100, 90, 10, 0, BEARER_BUYER, 0, "hash")
  }

  /** Payable contracts exist. */
  lemma SomeContractIsPayable() returns (env: Environment, accounts: TransferAccounts)
    ensures forall contractId :: Payable(env, contractId, accounts)
  {
    var account := BankAccount("1234567890", "014", "name");
    env := Environment((contractId: string) => TwoLegPayout(), (contractId: string, payout: Payout) => contractId);
    accounts := TransferAccounts(account, account, None);
  }

  // ---- What a callback records on a new settlement ----

  function Listed(results: seq<CallbackResult>): seq<S.BankTransferResult> {
    if |results| == 0 then []
    else
      var i := |results| - 1;
      Listed(results[..i]) + [S.BankTransferResult(i, results[i].recipientType, results[i].status)]
  }

  function Successful(results: seq<CallbackResult>): nat {
    if |results| == 0 then 0
    else Successful(results[..|results| - 1]) + (if results[|results| - 1].status == TRANSFER_SUCCESS then 1 else 0)
  }

  lemma {:induction false} ListedInOrder(results: seq<CallbackResult>)
    ensures |Listed(results)| == |results|
    ensures forall k :: 0 <= k < |results| ==> Listed(results)[k].legIndex == k && Listed(results)[k].status == results[k].status
    decreases |results|
  {
    if |results| > 0 {
      ListedInOrder(results[..|results| - 1]);
    }
  }

  lemma {:induction false} ListedSuccesses(results: seq<CallbackResult>)
    ensures |S.Successes(Listed(results))| == Successful(results)
    decreases |results|
  {
    if |results| > 0 {
      var i := |results| - 1;
      ListedSuccesses(results[..i]);
      ListedInOrder(results[..i]);
      assert Listed(results)[..i] == Listed(results[..i]);
    }
  }

  /** The results of a callback are added one by one, each for a leg that has none yet. */
  lemma {:induction false} ResultsOnNone(s: S.SettlementState, results: seq<CallbackResult>)
    requires s.results == []
    ensures RecordAll(s, results).results == Listed(results)
    decreases |results|
  {
    if |results| > 0 {
      var i := |results| - 1;
      ResultsOnNone(s, results[..i]);
      ListedInOrder(results[..i]);
      assert S.FindLeg(Listed(results[..i]), i) == -1;
    }
  }

  lemma RecordedOnNone(s: S.SettlementState, results: seq<CallbackResult>)
    requires s.results == []
    ensures RecordAll(s, results).results == Listed(results)
    ensures |S.Successes(Listed(results))| == Successful(results)
    ensures |Listed(results)| == |results|
    ensures forall k :: 0 <= k < |results| ==> Listed(results)[k].legIndex == k && Listed(results)[k].status == results[k].status
  {
    ResultsOnNone(s, results);
    ListedSuccesses(results);
    ListedInOrder(results);
  }

  function Repeated(n: nat): seq<CallbackResult> {
    if n == 0 then [] else Repeated(n - 1) + [CallbackResult(SELLER, TRANSFER_SUCCESS)]
  }

  lemma {:induction false} RepeatedSuccess(first: seq<CallbackResult>, n: nat)
    ensures |Repeated(n)| == n && Successful(first + Repeated(n)) == Successful(first) + n
    decreases n
  {
    if n == 0 {
      assert first + Repeated(0) == first;
    } else {
      RepeatedSuccess(first, n - 1);
      assert first + Repeated(n) == first + Repeated(n - 1) + [CallbackResult(SELLER, TRANSFER_SUCCESS)];
      assert (first + Repeated(n))[..|first| + n - 1] == first + Repeated(n - 1);
    }
  }

  function SuccessCallback(s: S.SettlementState, results: Option<seq<CallbackResult>>): BankCallback {
    BankCallback(s.referenceId, TRANSFER_SUCCESS, results, "")
  }

  /** A callback with one success for each leg makes every leg successful. */
  lemma FullReport(s: S.SettlementState)
    requires s.results == []
    ensures S.AreAllBankTransfersSuccessful(Recorded(s, SuccessCallback(s, Some(Repeated(s.split.LegCount())))))
  {
    var n := s.split.LegCount();
    RepeatedSuccess([], n);
    assert [] + Repeated(n) == Repeated(n);
    RecordedOnNone(s, Repeated(n));
    RecordedKeepsTerms(s, SuccessCallback(s, Some(Repeated(n))));
  }

  // ---- The first attempt ----

  lemma FirstPending(env: Environment, contractId: string, accounts: TransferAccounts, aid: string, sid: string, amount: int)
    returns (w: World)
    requires Payable(env, contractId, accounts) && amount >= env.payout(contractId).totalAmount
    ensures Reachable(env, w) && Leads(env, Initial(), w, sid, 1)
    ensures sid in w.settlements && aid in w.accounts
    ensures var s, a := w.settlements[sid], w.accounts[aid];
      && s.status == BANK_PENDING && s.retryCount == 0 && s.results == []
      && s.contractId == contractId && s.escrowAccountId == aid
      && s.split == Create(env.payout(contractId), accounts).value
      && a.balance == amount && Credits(a) == amount && a.frozenAmount == Total(s)
  {
    var locked := ToLocked(env, contractId, accounts, aid, sid, amount);
    w := ToBankPending(env, locked, sid);
    LeadsOn(env, Initial(), locked, w, sid, 0, 1);
  }

  lemma FirstSuccess(env: Environment, contractId: string, accounts: TransferAccounts, aid: string, sid: string, amount: int)
    returns (w: World)
    requires Payable(env, contractId, accounts) && amount >= env.payout(contractId).totalAmount
    ensures Reachable(env, w)
    ensures sid in w.settlements && aid in w.accounts
    ensures var s, a := w.settlements[sid], w.accounts[aid];
      && s.status == BANK_SUCCESS && s.retryCount == 0
      && s.contractId == contractId && s.escrowAccountId == aid
      && Total(s) == env.payout(contractId).totalAmount > 0
      && a.balance == amount && Credits(a) == amount && a.frozenAmount == Total(s)
  {
    var pending := FirstPending(env, contractId, accounts, aid, sid, amount);
    var s := pending.settlements[sid];
    FullReport(s);
    w := ToBankSuccess(env, pending, sid, SuccessCallback(s, Some(Repeated(s.split.LegCount()))));
  }

  // ---- The failing cases ----

  /**
   * However many legs there are: a callback that reports the first leg failed and one result too many, all the
   * others successful, is stored as a bank success.
   */
  lemma StraySuccessMisleads(env: Environment, contractId: string, accounts: TransferAccounts, aid: string, sid: string)
    returns (w: World, callback: BankCallback)
    requires Payable(env, contractId, accounts)
    ensures Reachable(env, w) && sid in w.settlements && w.settlements[sid].status == BANK_PENDING
    ensures callback.status == TRANSFER_SUCCESS && callback.referenceId == w.settlements[sid].referenceId
    ensures callback.results.Some? && |callback.results.value| == w.settlements[sid].split.LegCount() + 1
    ensures var w' := CallbackTx(w, sid, callback);
      && Reachable(env, w') && sid in w'.settlements && w'.settlements[sid].status == BANK_SUCCESS
      && w'.settlements[sid].split.LegCount() > 0 && !H.LegSucceeded(w'.settlements[sid], 0)
  {
    w := FirstPending(env, contractId, accounts, aid, sid, env.payout(contractId).totalAmount);
    var s := w.settlements[sid];
    LegsMoveTheTotal(env.payout(contractId), accounts);
    callback := OneTooMany(s);
    var w' := ToBankSuccess(env, w, sid, callback);
  }

  lemma OneTooMany(s: S.SettlementState) returns (callback: BankCallback)
    requires s.results == []
    ensures callback.status == TRANSFER_SUCCESS && callback.referenceId == s.referenceId
    ensures callback.results.Some? && |callback.results.value| == s.split.LegCount() + 1
    ensures S.AreAllBankTransfersSuccessful(Recorded(s, callback))
    ensures forall t: S.SettlementState :: t.results == Recorded(s, callback).results ==> !H.LegSucceeded(t, 0)
  {
    var n := s.split.LegCount();
    var first := [CallbackResult(SELLER, TRANSFER_FAILED)];
    RepeatedSuccess(first, n);
    assert first[..0] == [];
    callback := SuccessCallback(s, Some(first + Repeated(n)));
    RecordedOnNone(s, first + Repeated(n));
    RecordedKeepsTerms(s, callback);
  }

  /** Credited with exactly its total, a settlement paid by the bank rolls back however well the ledger answers. */
  lemma ExactlyFundedCannotComplete(env: Environment, contractId: string, accounts: TransferAccounts, aid: string, sid: string)
    returns (w: World)
    requires Payable(env, contractId, accounts)
    ensures Reachable(env, w) && sid in w.settlements && aid in w.accounts
    ensures w.settlements[sid].status == BANK_SUCCESS && w.settlements[sid].escrowAccountId == aid
    ensures Credits(w.accounts[aid]) == Total(w.settlements[sid])
    ensures forall txHash, block :: CompletionTx(w, sid, Favourable(txHash, block)) == w
  {
    w := FirstSuccess(env, contractId, accounts, aid, sid, env.payout(contractId).totalAmount);
    forall txHash, block ensures CompletionTx(w, sid, Favourable(txHash, block)) == w {
      CompletionGoesThroughExactly(env, w, sid, txHash, block);
    }
  }

  /** Credited with twice its total, it completes at the first attempt. */
  lemma TwiceFundedCompletes(env: Environment, contractId: string, accounts: TransferAccounts, aid: string, sid: string)
    returns (w: World)
    requires Payable(env, contractId, accounts)
    ensures Reachable(env, w) && sid in w.settlements && w.settlements[sid].status == COMPLETED
  {
    var paid := FirstSuccess(env, contractId, accounts, aid, sid, 2 * env.payout(contractId).totalAmount);
    w := ToCompleted(env, paid, sid, "0x", 0);
  }

  /** A failed bank transfer and a dispute: the disputed money does not stay locked. */
  lemma DisputedMoneyIsReleased(env: Environment, contractId: string, accounts: TransferAccounts, aid: string, sid: string)
    returns (w: World)
    requires Payable(env, contractId, accounts)
    ensures Reachable(env, w) && sid in w.settlements && aid in w.accounts
    ensures w.settlements[sid].status == FROZEN_BY_DISPUTE && w.settlements[sid].escrowAccountId == aid
    ensures w.accounts[aid].frozenAmount > 0 && !FreezeLasts(env, w, aid)
  {
    var pending := FirstPending(env, contractId, accounts, aid, sid, env.payout(contractId).totalAmount);
    var failed := ToBankFailed(env, pending, sid);
    w := ToFrozen(env, failed, sid, 0, false);
    assert UnlockCall(aid, pending.settlements[sid].referenceId) in w.calls;
    DisputedMoneyStaysLockedExactly(env, w, sid);
  }

  /** A failure on the ledger and a retry: the completion the retry asks for does nothing. */
  lemma LedgerFailureStalls(env: Environment, contractId: string, accounts: TransferAccounts, aid: string, sid: string)
    returns (w: World)
    requires Payable(env, contractId, accounts)
    ensures Reachable(env, w) && sid in w.settlements && w.settlements[sid].status == BLOCKCHAIN_FAILED
    ensures S.CanRetry(w.settlements[sid])
    ensures forall answers ::
      CompletionTx(RetryTx(w, sid, BLOCKCHAIN_FAILED), sid, answers) == RetryTx(w, sid, BLOCKCHAIN_FAILED)
  {
    var paid := FirstSuccess(env, contractId, accounts, aid, sid, env.payout(contractId).totalAmount);
    w := ToBlockchainFailed(env, paid, sid);
    forall answers
      ensures CompletionTx(RetryTx(w, sid, BLOCKCHAIN_FAILED), sid, answers) == RetryTx(w, sid, BLOCKCHAIN_FAILED)
    {
      RetryAfterLedgerFailureStalls(env, w, sid, BLOCKCHAIN_FAILED, answers);
    }
  }

  /** A first attempt the bank rejects: its total is frozen, and in every run that does not revive it it stays locked. */
  lemma RejectionStalls(env: Environment, contractId: string, accounts: TransferAccounts, aid: string, sid: string)
    returns (w: World)
    requires Payable(env, contractId, accounts)
    ensures Reachable(env, w) && sid in w.settlements && w.settlements[sid].escrowAccountId == aid && aid in w.accounts
    ensures w.accounts[aid].frozenAmount == env.payout(contractId).totalAmount
    ensures forall steps, error | NobodyRevives(contractId, sid, steps) ::
      Stalled(Run(env, Next(env, w, RunBankTransfer(sid, AckRejected(error))), steps), sid)
  {
    w := ToLocked(env, contractId, accounts, aid, sid, env.payout(contractId).totalAmount);
    forall steps, error | NobodyRevives(contractId, sid, steps)
      ensures Stalled(Run(env, Next(env, w, RunBankTransfer(sid, AckRejected(error))), steps), sid)
    {
      RejectedTransferStalls(env, w, sid, error, steps);
    }
  }

  /** A changed ledger status and a dispute: the dispute freezes neither settlement nor money. */
  lemma BlockedSettlementLosesItsDispute(env: Environment, contractId: string, accounts: TransferAccounts, aid: string, sid: string)
    returns (w: World)
    requires Payable(env, contractId, accounts)
    ensures Reachable(env, w) && sid in w.settlements && w.settlements[sid].status == BLOCKED_BY_STATE_CHANGE
    ensures SettlementOf(w, contractId) == Some(sid)
    ensures forall block, hash, bankThrows :: DisputeTx(w, DisputeEvent(contractId, block, hash), bankThrows) == (w, false)
  {
    var paid := FirstSuccess(env, contractId, accounts, aid, sid, env.payout(contractId).totalAmount);
    w := ToBlocked(env, paid, sid, 4);
    ReachableRow(env, w, sid);
    FoundForDispute(env, w, sid, w.settlements[sid].escrowAccountId);
    forall block, hash, bankThrows
      ensures DisputeTx(w, DisputeEvent(contractId, block, hash), bankThrows) == (w, false)
    {
      DisputeOutcome(env, w, DisputeEvent(contractId, block, hash), bankThrows);
    }
  }

  // ---- Sixteen status changes ----

  /** Paid by the bank: from nothing by a full report, or with all legs successful from an earlier attempt. */
  lemma ToPaid(env: Environment, w: World, sid: string) returns (w': World)
    requires Reachable(env, w) && sid in w.settlements && w.settlements[sid].status == ESCROW_LOCKED
    requires w.settlements[sid].results == [] || S.AreAllBankTransfersSuccessful(w.settlements[sid])
    ensures Reachable(env, w') && Leads(env, w, w', sid, 2) && Moved(w, w', sid, BANK_SUCCESS)
    ensures w'.settlements[sid].retryCount == w.settlements[sid].retryCount
    ensures S.AreAllBankTransfersSuccessful(w'.settlements[sid])
  {
    var pending := ToBankPending(env, w, sid);
    var s := pending.settlements[sid];
    var callback := SuccessCallback(s, if s.results == [] then Some(Repeated(s.split.LegCount())) else None);
    if s.results == [] { FullReport(s); }
    w' := ToBankSuccess(env, pending, sid, callback);
    RecordedKeepsTerms(s, callback);
    LeadsOn(env, w, pending, w', sid, 1, 1);
  }

  /** One whole attempt that the ledger fails, and its retry: four status changes. */
  lemma FailedAttempt(env: Environment, w: World, sid: string) returns (w': World)
    requires Reachable(env, w) && sid in w.settlements && w.settlements[sid].status == ESCROW_LOCKED
    requires w.settlements[sid].retryCount < 3
    requires w.settlements[sid].results == [] || S.AreAllBankTransfersSuccessful(w.settlements[sid])
    ensures Reachable(env, w') && Leads(env, w, w', sid, 4) && Moved(w, w', sid, ESCROW_LOCKED)
    ensures w'.settlements[sid].retryCount == w.settlements[sid].retryCount + 1
    ensures S.AreAllBankTransfersSuccessful(w'.settlements[sid])
  {
    var paid := ToPaid(env, w, sid);
    var failed := ToBlockchainFailed(env, paid, sid);
    w' := ToRetried(env, failed, sid);
    LeadsOn(env, w, paid, failed, sid, 2, 1);
    LeadsOn(env, w, failed, w', sid, 3, 1);
  }

  lemma {:induction false} FailedAttempts(env: Environment, w: World, sid: string, n: nat) returns (w': World)
    requires Reachable(env, w) && sid in w.settlements && w.settlements[sid].status == ESCROW_LOCKED
    requires w.settlements[sid].retryCount + n <= 3
    requires w.settlements[sid].results == [] || S.AreAllBankTransfersSuccessful(w.settlements[sid])
    ensures Reachable(env, w') && Leads(env, w, w', sid, 4 * n)
    ensures sid in w'.settlements && w'.settlements[sid].status == ESCROW_LOCKED
    ensures w'.settlements[sid].results == [] || S.AreAllBankTransfersSuccessful(w'.settlements[sid])
    decreases n
  {
    if n == 0 {
      w' := w;
      assert Run(env, w, []) == w && StatusChanges(env, w, [], sid) == 0;
    } else {
      var next := FailedAttempt(env, w, sid);
      w' := FailedAttempts(env, next, sid, n - 1);
      LeadsOn(env, w, next, w', sid, 4, 4 * (n - 1));
    }
  }

  /** The bound of 16 changes is reached: three failed attempts, a fourth that fails, and a dispute. */
  lemma SixteenStatusChangesHappen(env: Environment, contractId: string, accounts: TransferAccounts, aid: string, sid: string)
    returns (steps: seq<Step>)
    requires Payable(env, contractId, accounts)
    ensures StatusChanges(env, Initial(), steps, sid) == 16
  {
    var locked := ToLocked(env, contractId, accounts, aid, sid, env.payout(contractId).totalAmount);
    var fourth := FailedAttempts(env, locked, sid, 3);
    LeadsOn(env, Initial(), locked, fourth, sid, 0, 12);
    var paid := ToPaid(env, fourth, sid);
    LeadsOn(env, Initial(), fourth, paid, sid, 12, 2);
    var failed := ToBlockchainFailed(env, paid, sid);
    LeadsOn(env, Initial(), paid, failed, sid, 14, 1);
    var frozen := ToFrozen(env, failed, sid, 0, false);
    LeadsOn(env, Initial(), failed, frozen, sid, 15, 1);
    steps :| Run(env, Initial(), steps) == frozen && StatusChanges(env, Initial(), steps, sid) == 16;
  }
}
