/** When the sandbox bank's reports agree with its debits. */
module MockBankReports {
  import opened Common
  import opened SettlementStatuses
  import opened SplitPayments
  import opened MockBanks
  import opened MockBankTheorems

  /** What has happened to a batch: whether its timer paid it, and how it was last completed by hand, if at all. */
  datatype History = History(paidByTimer: bool, byHand: Option<bool>)

  predicate PaysNow(b: BankState, step: BankStep, x: string) {
    step == AutoComplete(x, false) && x in b.timers && x in b.transfers && b.transfers[x].status == TRANSFER_PENDING
  }

  ghost function After(b: BankState, h: History, step: BankStep, auto: bool, x: string): History {
    if x !in b.transfers then History(false, None)
    else if PaysNow(b, step, x) then h.(paidByTimer := true)
    else if step.ManuallyComplete? && step.batchId == x then h.(byHand := Some(step.success))
    else h
  }

  ghost function HistoryOf(b: BankState, h: History, steps: seq<BankStep>, auto: bool, x: string): History
    decreases |steps|
  {
    if |steps| == 0 then h else HistoryOf(Next(b, steps[0], auto), After(b, h, steps[0], auto, x), steps[1..], auto, x)
  }

  /** Some account's log debits the whole amount of the batch. */
  ghost predicate Debited(b: BankState, x: string) {
    && x in b.transfers
    && exists id :: DebitedAt(b, id, b.transfers[x].referenceId) && PaidBy(b, id, b.transfers[x].referenceId, x)
  }

  ghost predicate NeverDebited(b: BankState, reference: string) {
    forall id :: !DebitedAt(b, id, reference)
  }

  function Reported(success: bool): BankTransferStatus {
    if success then TRANSFER_SUCCESS else TRANSFER_FAILED
  }

  ghost predicate HistoryOk(b: BankState, h: History, x: string) {
    x in b.transfers ==>
      && (if h.paidByTimer then Debited(b, x) else NeverDebited(b, b.transfers[x].referenceId))
      && match h.byHand
         case Some(success) => b.transfers[x].status == Reported(success)
         case None => if h.paidByTimer then b.transfers[x].status == TRANSFER_SUCCESS
                      else b.transfers[x].status in {TRANSFER_PENDING, TRANSFER_FAILED}
  }

  // ---- Every step keeps the history true ----

  /** For the reference, every account's debits are the same, and new accounts have none. */
  ghost predicate SameDebitLog(b: BankState, b': BankState, reference: string) {
    && SameDebitsFor(b, b', reference)
    && (forall id :: id in b'.accounts && id !in b.accounts ==> PaymentsFor(reference, b'.accounts[id].transactions) == [])
  }

  /** The batch keeps its reference and amount; its status and the history move together. */
  lemma HistoryPersists(b: BankState, b': BankState, h: History, h': History, x: string)
    requires HistoryOk(b, h, x) && x in b.transfers && x in b'.transfers
    requires b'.transfers[x].referenceId == b.transfers[x].referenceId
    requires PaymentsOf(b'.transfers[x].transfers) == PaymentsOf(b.transfers[x].transfers)
    requires SameDebitLog(b, b', b.transfers[x].referenceId) && h'.paidByTimer == h.paidByTimer
    requires (h' == h && b'.transfers[x].status == b.transfers[x].status)
      || (h'.byHand.Some? && b'.transfers[x].status == Reported(h'.byHand.value))
    ensures HistoryOk(b', h', x)
  {
    var reference := b.transfers[x].referenceId;
    if h.paidByTimer {
      var id :| DebitedAt(b, id, reference) && PaidBy(b, id, reference, x);
      assert DebitedAt(b', id, reference) && PaidBy(b', id, reference, x);
    } else {
      forall id ensures !DebitedAt(b', id, reference) {
        assert !DebitedAt(b, id, reference);
      }
    }
  }

  lemma OpeningDebitsNothing(initialDeposit: int, contractId: string, reference: string)
    ensures PaymentsFor(reference, OpenedAccount(initialDeposit, contractId).transactions) == []
  {
    OpeningPaysNobody(initialDeposit, contractId);
  }

  lemma DepositDebitsNothing(a: MockAccount, amount: int, r: string, reference: string)
    ensures PaymentsFor(reference, Deposited(a, amount, r).transactions) == PaymentsFor(reference, a.transactions)
  {
    OneMoreCredit(a.transactions, BankTransaction(BANK_CREDIT, amount, a.balance + amount, r, ""));
  }

  lemma AccountStepLogs(b: BankState, step: BankStep, auto: bool, reference: string)
    requires step.CreateAccount? || step.Deposit? || step.Freeze? || step.Unfreeze?
    ensures SameDebitLog(b, Next(b, step, auto), reference) && Next(b, step, auto).transfers == b.transfers
  {
    match step
    case CreateAccount(id, initialDeposit, contractId) => OpeningDebitsNothing(initialDeposit, contractId, reference);
    case Deposit(id, amount, r) => if id in b.accounts { DepositDebitsNothing(b.accounts[id], amount, r, reference); }
    case _ =>
  }

  lemma NewReferenceIsUndebited(b: BankState, reference: string)
    requires Inv(b) && FindByReference(b, reference).None?
    ensures NeverDebited(b, reference)
  {
    forall id ensures !DebitedAt(b, id, reference) {
      assert id in b.accounts ==> DebitOk(b, id, reference);
    }
  }

  lemma ExecuteKeepsHistory(b: BankState, h: History, r: SplitTransferRequest, y: string, auto: bool, x: string)
    requires Inv(b) && HistoryOk(b, h, x) && FreshBatch(b, y)
    ensures HistoryOk(ExecuteSplitTransfer(b, r, y, auto).0, if x in b.transfers then h else History(false, None), x)
  {
    var b' := ExecuteSplitTransfer(b, r, y, auto).0;
    if x in b.transfers {
      HistoryPersists(b, b', h, h, x);
    } else if x in b'.transfers {
      NewReferenceIsUndebited(b, r.referenceId);
      assert forall id :: DebitedAt(b', id, r.referenceId) ==> DebitedAt(b, id, r.referenceId);
    }
  }

  lemma CompleteKeepsHistory(b: BankState, h: History, y: string, success: bool, x: string)
    requires HistoryOk(b, h, x) && x in b.transfers && y in b.transfers
    ensures HistoryOk(Complete(b, y, Reported(success)), if y == x then h.(byHand := Some(success)) else h, x)
  {
    StatusKeepsPayments(b.transfers[y].transfers, Reported(success));
    HistoryPersists(b, Complete(b, y, Reported(success)), h, if y == x then h.(byHand := Some(success)) else h, x);
  }

  /** The timer of another batch debits, if at all, for another reference. */
  lemma OtherTimerLogs(b: BankState, y: string, shouldFail: bool, x: string)
    requires Inv(b) && x in b.transfers && y != x
    ensures SameDebitLog(b, TimerFires(b, y, shouldFail), b.transfers[x].referenceId)
    ensures x in TimerFires(b, y, shouldFail).transfers && TimerFires(b, y, shouldFail).transfers[x] == b.transfers[x]
  {
    if y in b.timers && y in b.transfers && b.timers[y].escrowAccountId in b.accounts {
      var r := b.timers[y];
      assert TimerOk(b, y);
      assert r.referenceId != b.transfers[x].referenceId by {
        assert HasBatch(b, y, r.referenceId) && HasBatch(b, x, b.transfers[x].referenceId);
      }
      var a := b.accounts[r.escrowAccountId];
      DebitEntriesPay(a.transactions, r.transfers, a.balance - r.totalAmount, r.referenceId);
    }
  }

  /** The batch's own timer, going off while the batch is pending: a failure is reported, or everything is paid. */
  lemma OwnTimerPays(b: BankState, x: string)
    requires Inv(b) && PaysNow(b, AutoComplete(x, false), x)
    ensures var b' := TimerFires(b, x, false); Debited(b', x) && b'.transfers[x].status == TRANSFER_SUCCESS
  {
    assert TimerOk(b, x);
    PendingMeansNotDebited(b, x, b.timers[x].escrowAccountId);
    PaidInFull(b, x);
  }

  lemma PaidInFull(b: BankState, x: string)
    requires PaysNow(b, AutoComplete(x, false), x) && TimerOk(b, x)
    requires !DebitedAt(b, b.timers[x].escrowAccountId, b.timers[x].referenceId)
    ensures var b' := TimerFires(b, x, false); Debited(b', x) && b'.transfers[x].status == TRANSFER_SUCCESS
  {
    var r := b.timers[x];
    DebitedInFull(b.accounts[r.escrowAccountId], r);
    TimerOutcome(b, x);
    StatusKeepsPayments(b.transfers[x].transfers, TRANSFER_SUCCESS);
    var b' := TimerFires(b, x, false);
    assert DebitedAt(b', r.escrowAccountId, r.referenceId) && PaidBy(b', r.escrowAccountId, r.referenceId, x);
  }

  lemma DebitedInFull(a: MockAccount, r: SplitTransferRequest)
    requires PaymentsFor(r.referenceId, a.transactions) == []
    ensures PaymentsFor(r.referenceId, DebitedFor(a, r).transactions) == PaymentsIn(r.transfers)
  {
    DebitEntriesPay(a.transactions, r.transfers, a.balance - r.totalAmount, r.referenceId);
  }

  lemma TimerOutcome(b: BankState, x: string)
    requires PaysNow(b, AutoComplete(x, false), x) && b.timers[x].escrowAccountId in b.accounts
    ensures var b', r := TimerFires(b, x, false), b.timers[x];
      && r.escrowAccountId in b'.accounts && b'.accounts[r.escrowAccountId] == DebitedFor(b.accounts[r.escrowAccountId], r)
      && x in b'.transfers && b'.transfers[x].referenceId == b.transfers[x].referenceId
      && b'.transfers[x].status == TRANSFER_SUCCESS
      && b'.transfers[x].transfers == WithStatus(b.transfers[x].transfers, TRANSFER_SUCCESS)
  {
  }

  lemma OwnTimerFails(b: BankState, x: string)
    requires x in b.timers && x in b.transfers && b.transfers[x].status == TRANSFER_PENDING
    ensures var b' := TimerFires(b, x, true);
      b'.accounts == b.accounts && x in b'.transfers && b'.transfers[x].status == TRANSFER_FAILED
      && b'.transfers[x].referenceId == b.transfers[x].referenceId
  {
  }

  lemma OwnTimerKeepsHistory(b: BankState, h: History, shouldFail: bool, x: string)
    requires Inv(b) && HistoryOk(b, h, x) && x in b.transfers
    ensures HistoryOk(TimerFires(b, x, shouldFail), if PaysNow(b, AutoComplete(x, shouldFail), x) then h.(paidByTimer := true) else h, x)
  {
    var b' := TimerFires(b, x, shouldFail);
    if x !in b.timers || b.transfers[x].status != TRANSFER_PENDING {
      HistoryPersists(b, b', h, h, x);
    } else if shouldFail {
      OwnTimerFails(b, x);
      assert forall id, r :: DebitedAt(b', id, r) ==> DebitedAt(b, id, r);
    } else {
      OwnTimerPays(b, x);
    }
  }

  lemma TimerKeepsHistory(b: BankState, h: History, y: string, shouldFail: bool, x: string)
    requires Inv(b) && HistoryOk(b, h, x) && x in b.transfers
    ensures HistoryOk(TimerFires(b, y, shouldFail), if PaysNow(b, AutoComplete(y, shouldFail), x) then h.(paidByTimer := true) else h, x)
  {
    if y == x {
      OwnTimerKeepsHistory(b, h, shouldFail, x);
    } else {
      OtherTimerLogs(b, y, shouldFail, x);
      HistoryPersists(b, TimerFires(b, y, shouldFail), h, h, x);
    }
  }

  lemma StepOnBatchKeepsHistory(b: BankState, h: History, step: BankStep, auto: bool, x: string)
    requires Inv(b) && HistoryOk(b, h, x) && x in b.transfers
    ensures HistoryOk(Next(b, step, auto), After(b, h, step, auto, x), x)
  {
    match step
    case ExecuteSplit(r, y) => if FreshBatch(b, y) { ExecuteKeepsHistory(b, h, r, y, auto, x); }
    case AutoComplete(y, shouldFail) => TimerKeepsHistory(b, h, y, shouldFail, x);
    case ManuallyComplete(y, success) => if y in b.transfers { CompleteKeepsHistory(b, h, y, success, x); }
    case Reset =>
    case _ =>
      AccountStepLogs(b, step, auto, b.transfers[x].referenceId);
      HistoryPersists(b, Next(b, step, auto), h, h, x);
  }

  lemma NextKeepsHistory(b: BankState, h: History, step: BankStep, auto: bool, x: string)
    requires Inv(b) && HistoryOk(b, h, x)
    ensures HistoryOk(Next(b, step, auto), After(b, h, step, auto, x), x)
  {
    if x in b.transfers {
      StepOnBatchKeepsHistory(b, h, step, auto, x);
    } else if step.ExecuteSplit? && FreshBatch(b, step.batchId) {
      ExecuteKeepsHistory(b, h, step.request, step.batchId, auto, x);
    }
  }

  lemma {:induction false} RunKeepsHistory(b: BankState, h: History, steps: seq<BankStep>, auto: bool, x: string)
    requires Inv(b) && AllFed(steps) && HistoryOk(b, h, x)
    ensures HistoryOk(Run(b, steps, auto), HistoryOf(b, h, steps, auto, x), x)
    decreases |steps|
  {
    if |steps| > 0 {
      NextKeeps(b, steps[0], auto);
      NextKeepsHistory(b, h, steps[0], auto, x);
      assert forall k :: 0 <= k < |steps[1..]| ==> steps[1..][k] == steps[k + 1];
      RunKeepsHistory(Next(b, steps[0], auto), After(b, h, steps[0], auto, x), steps[1..], auto, x);
    }
  }

  // ---- Reports and debits ----

  /** The reported status says success exactly when the whole amount has been debited. */
  ghost predicate ReportAgrees(b: BankState, x: string)
    requires x in b.transfers
  {
    b.transfers[x].status == TRANSFER_SUCCESS <==> Debited(b, x)
  }

  /**
   * In every run fed by valid splits, resets included, the report on a batch agrees with the debits exactly when
   * its last completion by hand, if there was one, said what its timer had done: success if the timer had paid,
   * failure if not. In particular a batch never completed by hand and reported successful was debited in full.
   */
  lemma ReportAgreesExactly(steps: seq<BankStep>, auto: bool, x: string)
    requires SplitsOnly(steps) && x in Run(EmptyBank(), steps, auto).transfers
    ensures var b, h := Run(EmptyBank(), steps, auto), HistoryOf(EmptyBank(), History(false, None), steps, auto, x);
      && (ReportAgrees(b, x) <==> h.byHand.None? || h.byHand.value == h.paidByTimer)
      && (h.byHand.None? && b.transfers[x].status == TRANSFER_SUCCESS ==> Debited(b, x))
      && (Debited(b, x) <==> h.paidByTimer)
  {
    SplitsAreFed(steps);
    RunKeepsHistory(EmptyBank(), History(false, None), steps, auto, x);
    var b := Run(EmptyBank(), steps, auto);
    assert NeverDebited(b, b.transfers[x].referenceId) ==> !Debited(b, x);
  }

  /** What a caller can check: completing by hand leaves an agreeing report exactly if it says what was debited. */
  lemma CompletingByHandAgreesExactly(b: BankState, x: string, success: bool, auto: bool)
    requires x in b.transfers
    ensures var done := Next(b, ManuallyComplete(x, success), auto);
      x in done.transfers && (ReportAgrees(done, x) <==> (success <==> Debited(done, x)))
      && (b.transfers[x].status != TRANSFER_PENDING ==> (Debited(done, x) <==> Debited(b, x)))
  {
    StatusKeepsPayments(b.transfers[x].transfers, Reported(success));
    var done, reference := Next(b, ManuallyComplete(x, success), auto), b.transfers[x].referenceId;
    if b.transfers[x].status != TRANSFER_PENDING {
      forall id | DebitedAt(b, id, reference) ensures PaidBy(b, id, reference, x) <==> PaidBy(done, id, reference, x) {
      }
      assert forall id :: DebitedAt(b, id, reference) <==> DebitedAt(done, id, reference);
    }
  }

  /** All three disagreements happen to a pending batch whose timer is running. */
  lemma DisagreementsHappen(b: BankState, x: string, auto: bool)
    requires Inv(b) && PaysNow(b, AutoComplete(x, false), x)
    ensures var unpaid := Next(b, ManuallyComplete(x, true), auto);
      x in unpaid.transfers && unpaid.transfers[x].status == TRANSFER_SUCCESS && !Debited(unpaid, x)
    ensures var unpaid := Next(Next(b, AutoComplete(x, true), auto), ManuallyComplete(x, true), auto);
      x in unpaid.transfers && unpaid.transfers[x].status == TRANSFER_SUCCESS && !Debited(unpaid, x)
    ensures var paid := Next(Next(b, AutoComplete(x, false), auto), ManuallyComplete(x, false), auto);
      x in paid.transfers && paid.transfers[x].status == TRANSFER_FAILED && Debited(paid, x)
  {
    forall id ensures !DebitedAt(b, id, b.transfers[x].referenceId) {
      PendingMeansNotDebited(b, x, id);
    }
    assert HistoryOk(b, History(false, None), x);
    DisagreementAfter(b, History(false, None), x, true, auto);
    OwnTimerKeepsHistory(b, History(false, None), true, x);
    DisagreementAfter(Next(b, AutoComplete(x, true), auto), History(false, None), x, true, auto);
    OwnTimerKeepsHistory(b, History(false, None), false, x);
    DisagreementAfter(Next(b, AutoComplete(x, false), auto), History(true, None), x, false, auto);
  }

  lemma DisagreementAfter(b: BankState, h: History, x: string, success: bool, auto: bool)
    requires HistoryOk(b, h, x) && x in b.transfers && h.paidByTimer == !success
    ensures var done := Next(b, ManuallyComplete(x, success), auto);
      x in done.transfers && done.transfers[x].status == Reported(success) && (Debited(done, x) <==> !success)
  {
    CompleteKeepsHistory(b, h, x, success, x);
    var done := Next(b, ManuallyComplete(x, success), auto);
    assert NeverDebited(done, done.transfers[x].referenceId) ==> !Debited(done, x);
  }
}
