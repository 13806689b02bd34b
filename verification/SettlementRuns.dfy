/** How a settlement is led from one status to the next: each lemma is a short run from any reachable world. */
module SettlementRuns {
  import opened Common
  import opened SettlementStatuses
  import opened SplitPayments
  import opened SettlementSystem
  import opened SettlementInvariant
  import opened SettlementPreservation
  import opened SettlementTransactions
  import opened EscrowTransactions
  import opened SettlementTheorems
  import S = SettlementEntity
  import A = EscrowAccounts

  /** Some run leads from w to w', with n changes of the settlement's committed status. */
  ghost predicate Leads(env: Environment, w: World, w': World, sid: string, n: nat) {
    exists steps :: Run(env, w, steps) == w' && StatusChanges(env, w, steps, sid) == n
  }

  ghost predicate Changed(w: World, w': World, sid: string) {
    sid in w.settlements && sid in w'.settlements && w.settlements[sid].status != w'.settlements[sid].status
  }

  lemma LeadsOne(env: Environment, w: World, step: Step, sid: string)
    ensures Leads(env, w, Next(env, w, step), sid, if Changed(w, Next(env, w, step), sid) then 1 else 0)
  {
    var w' := Next(env, w, step);
    assert [step][1..] == [];
    assert Run(env, w', []) == w' && StatusChanges(env, w', [], sid) == 0;
    assert Run(env, w, [step]) == w';
    assert StatusChanges(env, w, [step], sid) == if Changed(w, w', sid) then 1 else 0;
  }

  lemma {:induction false} RunInTwo(env: Environment, w: World, first: seq<Step>, second: seq<Step>, sid: string)
    ensures Run(env, w, first + second) == Run(env, Run(env, w, first), second)
    ensures StatusChanges(env, w, first + second, sid)
      == StatusChanges(env, w, first, sid) + StatusChanges(env, Run(env, w, first), second, sid)
    decreases |first|
  {
    if |first| == 0 {
      assert first + second == second;
    } else {
      assert (first + second)[0] == first[0] && (first + second)[1..] == first[1..] + second;
      RunInTwo(env, Next(env, w, first[0]), first[1..], second, sid);
    }
  }

  lemma LeadsOn(env: Environment, w: World, w': World, w'': World, sid: string, n: nat, m: nat)
    requires Leads(env, w, w', sid, n) && Leads(env, w', w'', sid, m)
    ensures Leads(env, w, w'', sid, n + m)
  {
    var first :| Run(env, w, first) == w' && StatusChanges(env, w, first, sid) == n;
    var second :| Run(env, w', second) == w'' && StatusChanges(env, w', second, sid) == m;
    RunInTwo(env, w, first, second, sid);
  }

  lemma LeadsKeepsReachable(env: Environment, w: World, w': World, sid: string, n: nat)
    requires Reachable(env, w) && Leads(env, w, w', sid, n)
    ensures Reachable(env, w')
  {
    var first :| Run(env, Initial(), first) == w;
    var second :| Run(env, w, second) == w' && StatusChanges(env, w, second, sid) == n;
    RunInTwo(env, Initial(), first, second, sid);
  }

  lemma TakeAsked(w: World, call: Call)
    ensures call in Ask(w, call).calls && Take(Ask(w, call), call) == w
  {
    assert w.calls + multiset{call} - multiset{call} == w.calls;
  }

  /** A call that is asked for and run at once. */
  lemma AskAndRun(env: Environment, w: World, ask: Step, call: Call, run: Step, sid: string)
    requires Reachable(env, w) && Next(env, w, ask) == Ask(w, call)
    ensures var w' := Next(env, Ask(w, call), run);
      Leads(env, w, w', sid, if Changed(w, w', sid) then 1 else 0) && Reachable(env, w')
  {
    var w' := Next(env, Ask(w, call), run);
    LeadsOne(env, w, ask, sid);
    LeadsOne(env, Ask(w, call), run, sid);
    LeadsOn(env, w, Ask(w, call), w', sid, 0, if Changed(w, w', sid) then 1 else 0);
    LeadsKeepsReachable(env, w, w', sid, if Changed(w, w', sid) then 1 else 0);
  }

  /** The settlement has moved to a status; its terms, leg results and accounts are as before. */
  ghost predicate Moved(w: World, w': World, sid: string, status: SettlementStatus)
    requires sid in w.settlements
  {
    && sid in w'.settlements && w'.accounts == w.accounts
    && var s, t := w.settlements[sid], w'.settlements[sid];
    && t.status == status && t.split == s.split && t.contractId == s.contractId
    && t.escrowAccountId == s.escrowAccountId && t.referenceId == s.referenceId
  }

  // ---- One status after the other ----

  /** What the runs need to know of a row. */
  lemma RowBasics(env: Environment, w: World, sid: string)
    requires Reachable(env, w) && sid in w.settlements
    ensures w.settlements[sid].id == sid && w.settlements[sid].retryCount <= 3
    ensures w.settlements[sid].escrowAccountId in w.accounts
  {
    ReachableRow(env, w, sid);
  }

  lemma BankTransferRuns(env: Environment, w: World, sid: string, ack: BankAck)
    ensures Next(env, w, AskBankTransfer(sid)) == Ask(w, BankTransferCall(sid))
    ensures Next(env, Ask(w, BankTransferCall(sid)), RunBankTransfer(sid, ack)) == BankTransferTx(w, sid, ack)
  {
    TakeAsked(w, BankTransferCall(sid));
  }

  lemma PendingRow(w: World, sid: string)
    requires sid in w.settlements && w.settlements[sid].id == sid && w.settlements[sid].status == ESCROW_LOCKED
    ensures var w' := BankTransferTx(w, sid, AckAccepted(None));
      && Moved(w, w', sid, BANK_PENDING)
      && w'.settlements[sid].retryCount == w.settlements[sid].retryCount
      && w'.settlements[sid].results == w.settlements[sid].results
  {
  }

  lemma ToBankPending(env: Environment, w: World, sid: string) returns (w': World)
    requires Reachable(env, w) && sid in w.settlements && w.settlements[sid].status == ESCROW_LOCKED
    ensures Reachable(env, w') && Leads(env, w, w', sid, 1) && Moved(w, w', sid, BANK_PENDING)
    ensures w'.settlements[sid].retryCount == w.settlements[sid].retryCount
    ensures w'.settlements[sid].results == w.settlements[sid].results
  {
    RowBasics(env, w, sid);
    w' := BankTransferTx(w, sid, AckAccepted(None));
    PendingRow(w, sid);
    BankTransferRuns(env, w, sid, AckAccepted(None));
    AskAndRun(env, w, AskBankTransfer(sid), BankTransferCall(sid), RunBankTransfer(sid, AckAccepted(None)), sid);
  }

  lemma FoundByReference(w: World, sid: string)
    requires KeysUnique(w) && sid in w.settlements
    ensures SettlementByReference(w, w.settlements[sid].referenceId) == Some(sid)
  {
    assert HasReference(w, sid, w.settlements[sid].referenceId);
  }

  /** A callback for a pending settlement passes its unlocked check. */
  lemma CallbackPassesCheck(env: Environment, w: World, sid: string, callback: BankCallback)
    requires Reachable(env, w) && sid in w.settlements && w.settlements[sid].status == BANK_PENDING
    requires callback.referenceId == w.settlements[sid].referenceId
    ensures Next(env, w, CheckCallback(callback)) == Ask(w, CallbackCall(sid, callback))
  {
    ReachableSatisfiesInv(env, w);
    FoundByReference(w, sid);
  }

  lemma CallbackRuns(env: Environment, w: World, sid: string, callback: BankCallback)
    ensures Next(env, Ask(w, CallbackCall(sid, callback)), RunCallback(sid, callback)) == CallbackTx(w, sid, callback)
  {
    TakeAsked(w, CallbackCall(sid, callback));
  }

  lemma RecordedKeepsTerms(s: S.SettlementState, callback: BankCallback)
    ensures var r := Recorded(s, callback);
      r.split == s.split && r.contractId == s.contractId && r.escrowAccountId == s.escrowAccountId
      && r.referenceId == s.referenceId && r.retryCount == s.retryCount && r.status == s.status && r.id == s.id
  {
    RecordedEffect(s, callback);
  }

  lemma SuccessRow(w: World, sid: string, callback: BankCallback)
    requires sid in w.settlements && w.settlements[sid].id == sid && w.settlements[sid].status == BANK_PENDING
    requires callback.status == TRANSFER_SUCCESS
    requires S.AreAllBankTransfersSuccessful(Recorded(w.settlements[sid], callback))
    ensures var w' := CallbackTx(w, sid, callback);
      && Moved(w, w', sid, BANK_SUCCESS)
      && w'.settlements[sid].retryCount == w.settlements[sid].retryCount
      && w'.settlements[sid].results == Recorded(w.settlements[sid], callback).results
  {
    RecordedKeepsTerms(w.settlements[sid], callback);
  }

  lemma FailedRow(w: World, sid: string, callback: BankCallback)
    requires sid in w.settlements && w.settlements[sid].id == sid && w.settlements[sid].status == BANK_PENDING
    requires callback.status == TRANSFER_FAILED && callback.results.None?
    ensures var w' := CallbackTx(w, sid, callback);
      && Moved(w, w', sid, BANK_FAILED)
      && w'.settlements[sid].retryCount == w.settlements[sid].retryCount
      && UnlockCall(w.settlements[sid].escrowAccountId, w.settlements[sid].referenceId) in w'.calls
  {
  }

  lemma ToBankSuccess(env: Environment, w: World, sid: string, callback: BankCallback) returns (w': World)
    requires Reachable(env, w) && sid in w.settlements && w.settlements[sid].status == BANK_PENDING
    requires callback.referenceId == w.settlements[sid].referenceId && callback.status == TRANSFER_SUCCESS
    requires S.AreAllBankTransfersSuccessful(Recorded(w.settlements[sid], callback))
    ensures Reachable(env, w') && Leads(env, w, w', sid, 1) && Moved(w, w', sid, BANK_SUCCESS)
    ensures w' == CallbackTx(w, sid, callback)
    ensures w'.settlements[sid].retryCount == w.settlements[sid].retryCount
    ensures w'.settlements[sid].results == Recorded(w.settlements[sid], callback).results
  {
    RowBasics(env, w, sid);
    w' := CallbackTx(w, sid, callback);
    SuccessRow(w, sid, callback);
    CallbackPassesCheck(env, w, sid, callback);
    CallbackRuns(env, w, sid, callback);
    AskAndRun(env, w, CheckCallback(callback), CallbackCall(sid, callback), RunCallback(sid, callback), sid);
  }

  lemma ToBankFailed(env: Environment, w: World, sid: string) returns (w': World)
    requires Reachable(env, w) && sid in w.settlements && w.settlements[sid].status == BANK_PENDING
    ensures Reachable(env, w') && Leads(env, w, w', sid, 1) && Moved(w, w', sid, BANK_FAILED)
    ensures w'.settlements[sid].retryCount == w.settlements[sid].retryCount
    ensures UnlockCall(w.settlements[sid].escrowAccountId, w.settlements[sid].referenceId) in w'.calls
  {
    RowBasics(env, w, sid);
    var callback := BankCallback(w.settlements[sid].referenceId, TRANSFER_FAILED, None, "");
    w' := CallbackTx(w, sid, callback);
    FailedRow(w, sid, callback);
    CallbackPassesCheck(env, w, sid, callback);
    CallbackRuns(env, w, sid, callback);
    AskAndRun(env, w, CheckCallback(callback), CallbackCall(sid, callback), RunCallback(sid, callback), sid);
  }

  lemma CompletionRuns(env: Environment, w: World, sid: string, answers: LedgerAnswers)
    requires Reachable(env, w)
    ensures var w' := CompletionTx(w, sid, answers);
      Reachable(env, w') && Leads(env, w, w', sid, if Changed(w, w', sid) then 1 else 0)
  {
    var call := CompletionCall(sid);
    TakeAsked(w, call);
    assert Next(env, w, AskCompletion(sid)) == Ask(w, call);
    assert Next(env, Ask(w, call), RunCompletion(sid, answers)) == CompletionTx(w, sid, answers);
    AskAndRun(env, w, AskCompletion(sid), call, RunCompletion(sid, answers), sid);
  }

  lemma ToBlockchainFailed(env: Environment, w: World, sid: string) returns (w': World)
    requires Reachable(env, w) && sid in w.settlements && w.settlements[sid].status == BANK_SUCCESS
    ensures Reachable(env, w') && Leads(env, w, w', sid, 1) && Moved(w, w', sid, BLOCKCHAIN_FAILED)
    ensures w'.settlements[sid].retryCount == w.settlements[sid].retryCount
    ensures w'.settlements[sid].results == w.settlements[sid].results
  {
    RowBasics(env, w, sid);
    var answers := LedgerAnswers(Some(EXPECTED_STATUS_VERIFIED), Some("0x"), Reverted(""));
    w' := CompletionTx(w, sid, answers);
    CompletionShape(w, sid, answers);
    FailedEffect(w.settlements[sid], "0x", "");
    LedgerFailureKeepsResults(w.settlements[sid]);
    CompletionRuns(env, w, sid, answers);
  }

  lemma LedgerFailureKeepsResults(s: S.SettlementState)
    requires s.status == BANK_SUCCESS
    ensures FailedOnChain(s, "0x", "").results == s.results
  {
  }

  lemma ToBlocked(env: Environment, w: World, sid: string, current: int) returns (w': World)
    requires Reachable(env, w) && sid in w.settlements && w.settlements[sid].status == BANK_SUCCESS
    requires current != EXPECTED_STATUS_VERIFIED
    ensures Reachable(env, w') && Leads(env, w, w', sid, 1) && Moved(w, w', sid, BLOCKED_BY_STATE_CHANGE)
    ensures w'.settlements[sid].retryCount == w.settlements[sid].retryCount
  {
    RowBasics(env, w, sid);
    var answers := LedgerAnswers(Some(current), None, Reverted(""));
    w' := CompletionTx(w, sid, answers);
    CompletionShape(w, sid, answers);
    BlockedEffect(w.settlements[sid], current);
    CompletionRuns(env, w, sid, answers);
  }

  lemma ToCompleted(env: Environment, w: World, sid: string, txHash: string, block: int) returns (w': World)
    requires Reachable(env, w) && sid in w.settlements && w.settlements[sid].status == BANK_SUCCESS
    requires w.settlements[sid].escrowAccountId in w.accounts
    requires A.Available(w.accounts[w.settlements[sid].escrowAccountId]) >= Total(w.settlements[sid])
    ensures Reachable(env, w') && Leads(env, w, w', sid, 1)
    ensures w' == CompletionTx(w, sid, Favourable(txHash, block))
    ensures sid in w'.settlements && w'.settlements[sid].status == COMPLETED
  {
    w' := CompletionTx(w, sid, Favourable(txHash, block));
    CompletionGoesThroughExactly(env, w, sid, txHash, block);
    CompletionRuns(env, w, sid, Favourable(txHash, block));
  }

  lemma RetriedRow(w: World, sid: string, seen: SettlementStatus)
    requires sid in w.settlements && w.settlements[sid].id == sid && S.CanRetry(w.settlements[sid])
    ensures var w' := RetryTx(w, sid, seen);
      && Moved(w, w', sid, ESCROW_LOCKED)
      && w'.settlements[sid].retryCount == w.settlements[sid].retryCount + 1
      && w'.settlements[sid].results == w.settlements[sid].results
  {
  }

  lemma RetryRuns(env: Environment, w: World, sid: string)
    requires sid in w.settlements && S.CanRetry(w.settlements[sid])
    ensures var seen := w.settlements[sid].status;
      && Next(env, w, CheckRetry(sid)) == Ask(w, RetryCall(sid, seen))
      && Next(env, Ask(w, RetryCall(sid, seen)), RunRetry(sid, seen)) == RetryTx(w, sid, seen)
  {
    TakeAsked(w, RetryCall(sid, w.settlements[sid].status));
  }

  lemma ToRetried(env: Environment, w: World, sid: string) returns (w': World)
    requires Reachable(env, w) && sid in w.settlements && S.CanRetry(w.settlements[sid])
    ensures Reachable(env, w') && Leads(env, w, w', sid, 1) && Moved(w, w', sid, ESCROW_LOCKED)
    ensures w'.settlements[sid].retryCount == w.settlements[sid].retryCount + 1
    ensures w'.settlements[sid].results == w.settlements[sid].results
  {
    var seen := w.settlements[sid].status;
    RowBasics(env, w, sid);
    w' := RetryTx(w, sid, seen);
    RetriedRow(w, sid, seen);
    RetryRuns(env, w, sid);
    AskAndRun(env, w, CheckRetry(sid), RetryCall(sid, seen), RunRetry(sid, seen), sid);
  }

  /** What a dispute leaves of an active settlement and its account. */
  ghost predicate Disputed(w: World, w': World, sid: string)
    requires sid in w.settlements
  {
    var aid := w.settlements[sid].escrowAccountId;
    && sid in w'.settlements && w'.settlements[sid].status == FROZEN_BY_DISPUTE
    && w'.settlements[sid].escrowAccountId == aid
    && aid in w.accounts && aid in w'.accounts
    && w'.accounts[aid].frozenAmount >= w.accounts[aid].frozenAmount
    && w'.calls == w.calls
  }

  lemma DisputeEffect(env: Environment, w: World, sid: string, event: DisputeEvent, bankThrows: bool)
    requires Inv(env, w) && sid in w.settlements && RowOk(env, w, sid) && event.contractId == w.settlements[sid].contractId
    requires CanBeFrozenByDispute(w.settlements[sid].status) && w.settlements[sid].status != BLOCKED_BY_STATE_CHANGE
    ensures Disputed(w, DisputeTx(w, event, bankThrows).0, sid)
  {
    var s := w.settlements[sid];
    FoundForDispute(env, w, sid, s.escrowAccountId);
    DisputeShape(env, w, event, bankThrows);
    DisputeEscrowShape(w, event, bankThrows, s.escrowAccountId);
    FrozenByDisputeEffect(s, event.blockNumber);
    FreezeKeepsTerms(s, event.blockNumber);
  }

  /** A dispute is processed; its account is frozen as far as possible unless the bank throws. */
  lemma ToFrozen(env: Environment, w: World, sid: string, block: int, bankThrows: bool) returns (w': World)
    requires Reachable(env, w) && sid in w.settlements
    requires CanBeFrozenByDispute(w.settlements[sid].status) && w.settlements[sid].status != BLOCKED_BY_STATE_CHANGE
    ensures Reachable(env, w') && Leads(env, w, w', sid, 1) && Disputed(w, w', sid)
  {
    var event := DisputeEvent(w.settlements[sid].contractId, block, "0x");
    w' := Next(env, w, DisputeOpened(event, bankThrows));
    DisputeStep(env, w, sid, event, bankThrows);
    LeadsOne(env, w, DisputeOpened(event, bankThrows), sid);
    LeadsKeepsReachable(env, w, w', sid, 1);
  }

  lemma DisputeStep(env: Environment, w: World, sid: string, event: DisputeEvent, bankThrows: bool)
    requires Reachable(env, w) && sid in w.settlements && event.contractId == w.settlements[sid].contractId
    requires CanBeFrozenByDispute(w.settlements[sid].status) && w.settlements[sid].status != BLOCKED_BY_STATE_CHANGE
    ensures Disputed(w, Next(env, w, DisputeOpened(event, bankThrows)), sid)
  {
    ReachableRow(env, w, sid);
    DisputeEffect(env, w, sid, event, bankThrows);
    DisputeIsNext(env, w, event, bankThrows);
  }

  lemma DisputeIsNext(env: Environment, w: World, event: DisputeEvent, bankThrows: bool)
    ensures Next(env, w, DisputeOpened(event, bankThrows)) == DisputeTx(w, event, bankThrows).0
  {
  }

  lemma FreezeKeepsTerms(s: S.SettlementState, block: int)
    ensures S.Apply(s, S.MarkFrozenByDispute(block, "")).state.escrowAccountId == s.escrowAccountId
  {
  }

  lemma FoundForDispute(env: Environment, w: World, sid: string, aid: string)
    requires Inv(env, w) && sid in w.settlements && RowOk(env, w, sid) && aid == w.settlements[sid].escrowAccountId
    ensures SettlementOf(w, w.settlements[sid].contractId) == Some(sid)
    ensures AccountOf(w, w.settlements[sid].contractId) == Some(aid)
  {
    var contractId := w.settlements[sid].contractId;
    assert HasContract(w, sid, contractId) && AccountFor(w, aid, contractId);
    OneSettlementPerContract(env, w, sid, SettlementOf(w, contractId).value);
  }

  // ---- The beginning ----

  /** The ledger's payout and the accounts make a split the orchestrator accepts. */
  ghost predicate Payable(env: Environment, contractId: string, accounts: TransferAccounts) {
    Create(env.payout(contractId), accounts).Ok? && AccountsValid(Create(env.payout(contractId), accounts).value.legs)
  }

  function FundedAccount(aid: string, contractId: string, amount: int): A.AccountState {
    A.Apply(A.New(aid, contractId), A.Credit(amount, "")).state
  }

  function OneAccount(aid: string, contractId: string, amount: int): World {
    World(map[], map[aid := FundedAccount(aid, contractId, amount)], multiset{})
  }

  lemma OneAccountIsReachable(env: Environment, aid: string, contractId: string, amount: int, sid: string)
    ensures Reachable(env, OneAccount(aid, contractId, amount))
    ensures Leads(env, Initial(), OneAccount(aid, contractId, amount), sid, 0)
  {
    var w1 := World(map[], map[aid := A.New(aid, contractId)], multiset{});
    assert Next(env, Initial(), OpenAccount(aid, contractId)) == w1;
    LeadsOne(env, Initial(), OpenAccount(aid, contractId), sid);
    assert FundedAccount(aid, contractId, amount).id == aid;
    assert Next(env, w1, CreditEscrow(aid, amount, "")) == OneAccount(aid, contractId, amount);
    LeadsOne(env, w1, CreditEscrow(aid, amount, ""), sid);
    LeadsOn(env, Initial(), w1, OneAccount(aid, contractId, amount), sid, 0, 0);
    assert Run(env, Initial(), []) == Initial();
    LeadsKeepsReachable(env, Initial(), OneAccount(aid, contractId, amount), sid, 0);
  }

  lemma NewAccountIsValid(aid: string, contractId: string)
    ensures A.Valid(A.New(aid, contractId)) && A.TotalOf(A.DEBIT, A.New(aid, contractId).transactions) == 0
  {
  }

  lemma CreditedAccount(aid: string, contractId: string, amount: int)
    requires amount > 0
    ensures var a := FundedAccount(aid, contractId, amount);
      && a.id == aid && a.contractId == contractId && a.balance == amount && a.frozenAmount == 0
      && Credits(a) == amount && A.Valid(a) && a.status != CLOSED
  {
    NewAccountIsValid(aid, contractId);
    CreditEffect(A.New(aid, contractId), amount, "");
    FundedFields(aid, contractId, amount);
  }

  lemma FundedFields(aid: string, contractId: string, amount: int)
    requires amount > 0
    ensures var a := FundedAccount(aid, contractId, amount);
      a.id == aid && a.contractId == contractId && a.balance == amount && a.frozenAmount == 0
  {
  }

  /** For every payable contract and every sufficient credit there is a run that locks its settlement. */
  lemma ToLocked(env: Environment, contractId: string, accounts: TransferAccounts, aid: string, sid: string, amount: int)
    returns (w: World)
    requires Payable(env, contractId, accounts) && amount >= env.payout(contractId).totalAmount
    ensures Reachable(env, w) && Leads(env, Initial(), w, sid, 0)
    ensures sid in w.settlements && aid in w.accounts
    ensures var s, a := w.settlements[sid], w.accounts[aid];
      && s.status == ESCROW_LOCKED && s.retryCount == 0 && s.results == []
      && s.contractId == contractId && s.escrowAccountId == aid
      && s.split == Create(env.payout(contractId), accounts).value
      && a.balance == amount && Credits(a) == amount && a.frozenAmount == Total(s)
    ensures w.calls == multiset{BankTransferCall(sid)}
  {
    var w1 := OneAccount(aid, contractId, amount);
    OneAccountIsReachable(env, aid, contractId, amount, sid);
    CreditedAccount(aid, contractId, amount);
    var call := InitiateCall(contractId);
    TakeAsked(w1, call);
    assert SettlementOf(w1, contractId).None?;
    assert Next(env, w1, CheckInitiate(contractId, EXPECTED_STATUS_VERIFIED)) == Ask(w1, call);
    w := Next(env, Ask(w1, call), RunInitiate(contractId, sid, accounts));
    AskAndRun(env, w1, CheckInitiate(contractId, EXPECTED_STATUS_VERIFIED), call, RunInitiate(contractId, sid, accounts), sid);
    LeadsOn(env, Initial(), w1, w, sid, 0, 0);
    Initiated(env, contractId, accounts, aid, sid, amount);
  }

  lemma Initiated(env: Environment, contractId: string, accounts: TransferAccounts, aid: string, sid: string, amount: int)
    requires Payable(env, contractId, accounts) && amount >= env.payout(contractId).totalAmount
    ensures var w1, payout := OneAccount(aid, contractId, amount), env.payout(contractId);
      var w := InitiateTx(w1, contractId, payout, env.reference(contractId, payout), sid, accounts);
      && sid in w.settlements && aid in w.accounts && w.calls == multiset{BankTransferCall(sid)}
      && var s, a := w.settlements[sid], w.accounts[aid];
      && s.status == ESCROW_LOCKED && s.retryCount == 0 && s.results == []
      && s.contractId == contractId && s.escrowAccountId == aid
      && s.split == Create(payout, accounts).value
      && a.balance == amount && Credits(a) == amount && a.frozenAmount == Total(s)
  {
    var w1, payout := OneAccount(aid, contractId, amount), env.payout(contractId);
    var a := FundedAccount(aid, contractId, amount);
    CreditedAccount(aid, contractId, amount);
    assert AccountFor(w1, aid, contractId);
    assert AccountOf(w1, contractId) == Some(aid);
    assert SettlementByReference(w1, env.reference(contractId, payout)).None?;
    FreezeEffect(a, payout.totalAmount, env.reference(contractId, payout));
  }
}
