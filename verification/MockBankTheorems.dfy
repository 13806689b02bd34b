/** What holds in every run of the sandbox bank that is fed by valid splits. */
module MockBankTheorems {
  import opened Common
  import opened SettlementStatuses
  import opened SplitPayments
  import opened MockBanks

  // ---- Sums over the log ----

  function Logged(kind: BankEntryType, log: seq<BankTransaction>): int {
    if |log| == 0 then 0
    else
      var last := log[|log| - 1];
      Logged(kind, log[..|log| - 1]) + (if last.kind == kind then last.amount else 0)
  }

  datatype Payment = Payment(account: string, amount: int)

  /** What the log debits for one reference, payment by payment. */
  function PaymentsFor(reference: string, log: seq<BankTransaction>): seq<Payment> {
    if |log| == 0 then []
    else
      var last := log[|log| - 1];
      PaymentsFor(reference, log[..|log| - 1])
      + (if last.kind == BANK_DEBIT && last.referenceNumber == reference then [Payment(last.counterparty, last.amount)] else [])
  }

  function PaymentsOf(transfers: seq<TransferResult>): seq<Payment> {
    if |transfers| == 0 then []
    else
      var last := transfers[|transfers| - 1];
      PaymentsOf(transfers[..|transfers| - 1]) + [Payment(last.toAccountNumber, last.amount)]
  }

  function PaymentsIn(legs: seq<TransferLeg>): seq<Payment> {
    if |legs| == 0 then []
    else
      var last := legs[|legs| - 1];
      PaymentsIn(legs[..|legs| - 1]) + [Payment(last.account.accountNumber, last.amount)]
  }

  function Amount(payments: seq<Payment>): int {
    if |payments| == 0 then 0 else Amount(payments[..|payments| - 1]) + payments[|payments| - 1].amount
  }

  /** What the log debits for one reference, in all. */
  function DebitsFor(reference: string, log: seq<BankTransaction>): int {
    if |log| == 0 then 0
    else
      var last := log[|log| - 1];
      DebitsFor(reference, log[..|log| - 1])
      + (if last.kind == BANK_DEBIT && last.referenceNumber == reference then last.amount else 0)
  }

  lemma {:induction false} DebitsAreThePayments(reference: string, log: seq<BankTransaction>)
    ensures DebitsFor(reference, log) == Amount(PaymentsFor(reference, log))
    decreases |log|
  {
    if |log| > 0 {
      var before := PaymentsFor(reference, log[..|log| - 1]);
      DebitsAreThePayments(reference, log[..|log| - 1]);
      var last := log[|log| - 1];
      assert (before + [Payment(last.counterparty, last.amount)])[..|before|] == before;
      assert before + [] == before;
    }
  }

  lemma {:induction false} LegsAreThePayments(legs: seq<TransferLeg>)
    ensures Amount(PaymentsIn(legs)) == SumOfLegs(legs) && |PaymentsIn(legs)| == |legs|
    ensures forall k :: 0 <= k < |legs| ==> PaymentsIn(legs)[k] == Payment(legs[k].account.accountNumber, legs[k].amount)
    decreases |legs|
  {
    if |legs| > 0 {
      var front := PaymentsIn(legs[..|legs| - 1]);
      LegsAreThePayments(legs[..|legs| - 1]);
      assert PaymentsIn(legs)[..|front|] == front;
    }
  }

  lemma OneMoreEntry(log: seq<BankTransaction>, t: BankTransaction)
    ensures forall kind :: Logged(kind, log + [t]) == Logged(kind, log) + (if t.kind == kind then t.amount else 0)
    ensures forall r ::
      PaymentsFor(r, log + [t]) ==
      PaymentsFor(r, log) + (if t.kind == BANK_DEBIT && t.referenceNumber == r then [Payment(t.counterparty, t.amount)] else [])
  {
    assert (log + [t])[..|log|] == log;
  }

  /** A credit pays nobody. */
  lemma OneMoreCredit(log: seq<BankTransaction>, t: BankTransaction)
    requires t.kind == BANK_CREDIT
    ensures forall r :: PaymentsFor(r, log + [t]) == PaymentsFor(r, log)
  {
    OneMoreEntry(log, t);
  }

  /** The entries of one settlement debit exactly its legs, in order, for its reference alone. */
  lemma {:induction false} DebitEntriesPay(log: seq<BankTransaction>, legs: seq<TransferLeg>, balance: int, reference: string)
    ensures var more := log + DebitEntries(legs, balance, reference);
      forall r :: PaymentsFor(r, more) == PaymentsFor(r, log) + (if r == reference then PaymentsIn(legs) else [])
    decreases |legs|
  {
    if |legs| == 0 {
      assert log + DebitEntries(legs, balance, reference) == log;
    } else {
      var front, leg := legs[..|legs| - 1], legs[|legs| - 1];
      DebitEntriesPay(log, front, balance, reference);
      var entry := BankTransaction(BANK_DEBIT, leg.amount, balance, reference, leg.account.accountNumber);
      OneMoreEntry(log + DebitEntries(front, balance, reference), entry);
      assert log + DebitEntries(legs, balance, reference) == log + DebitEntries(front, balance, reference) + [entry];
    }
  }

  lemma {:induction false} DebitEntriesSum(log: seq<BankTransaction>, legs: seq<TransferLeg>, balance: int, reference: string)
    ensures var more := log + DebitEntries(legs, balance, reference);
      && Logged(BANK_DEBIT, more) == Logged(BANK_DEBIT, log) + SumOfLegs(legs)
      && Logged(BANK_CREDIT, more) == Logged(BANK_CREDIT, log)
    decreases |legs|
  {
    if |legs| == 0 {
      assert log + DebitEntries(legs, balance, reference) == log;
    } else {
      var front, leg := legs[..|legs| - 1], legs[|legs| - 1];
      DebitEntriesSum(log, front, balance, reference);
      var entry := BankTransaction(BANK_DEBIT, leg.amount, balance, reference, leg.account.accountNumber);
      OneMoreEntry(log + DebitEntries(front, balance, reference), entry);
      assert log + DebitEntries(legs, balance, reference) == log + DebitEntries(front, balance, reference) + [entry];
    }
  }

  lemma {:induction false} PendingTransfersPay(legs: seq<TransferLeg>)
    ensures PaymentsOf(PendingTransfers(legs)) == PaymentsIn(legs)
    decreases |legs|
  {
    if |legs| > 0 {
      var front := PendingTransfers(legs[..|legs| - 1]);
      PendingTransfersPay(legs[..|legs| - 1]);
      assert PendingTransfers(legs)[..|front|] == front;
    }
  }

  lemma {:induction false} StatusKeepsPayments(transfers: seq<TransferResult>, status: BankTransferStatus)
    ensures PaymentsOf(WithStatus(transfers, status)) == PaymentsOf(transfers)
    decreases |transfers|
  {
    if |transfers| > 0 {
      var front := WithStatus(transfers[..|transfers| - 1], status);
      StatusKeepsPayments(transfers[..|transfers| - 1], status);
      assert WithStatus(transfers, status)[..|front|] == front;
    }
  }

  // ---- The invariant ----

  /** The request of a valid split, as the orchestrator builds it. */
  ghost predicate OfValidSplit(r: SplitTransferRequest) {
    exists p, a :: Create(p, a).Ok? && r.totalAmount == p.totalAmount && r.transfers == Create(p, a).value.legs
  }

  lemma ValidSplitMovesTotal(r: SplitTransferRequest)
    requires OfValidSplit(r)
    ensures SumOfLegs(r.transfers) == r.totalAmount > 0
  {
    var p, a :| Create(p, a).Ok? && r.totalAmount == p.totalAmount && r.transfers == Create(p, a).value.legs;
    LegsMoveTheTotal(p, a);
  }

  ghost predicate TimerOk(b: BankState, batchId: string)
    requires batchId in b.timers
  {
    var r := b.timers[batchId];
    && SumOfLegs(r.transfers) == r.totalAmount > 0
    && (batchId in b.transfers ==>
          && b.transfers[batchId].referenceId == r.referenceId
          && PaymentsOf(b.transfers[batchId].transfers) == PaymentsIn(r.transfers)
          && r.escrowAccountId in b.accounts)
  }

  /** The batch of the reference is over, and the account's debits for it are its whole amount. */
  ghost predicate PaidBy(b: BankState, id: string, reference: string, batchId: string)
    requires id in b.accounts
  {
    && HasBatch(b, batchId, reference) && b.transfers[batchId].status != TRANSFER_PENDING
    && PaymentsFor(reference, b.accounts[id].transactions) == PaymentsOf(b.transfers[batchId].transfers)
  }

  /** The account's debits for a reference are those of the one batch that has it, and that batch is over. */
  ghost predicate DebitOk(b: BankState, id: string, reference: string)
    requires id in b.accounts
  {
    PaymentsFor(reference, b.accounts[id].transactions) != [] ==> exists batchId :: PaidBy(b, id, reference, batchId)
  }

  ghost predicate DebitedAt(b: BankState, id: string, reference: string) {
    id in b.accounts && PaymentsFor(reference, b.accounts[id].transactions) != []
  }

  ghost predicate DebitsOk(b: BankState) {
    && (forall id, r | id in b.accounts :: DebitOk(b, id, r))
    && (forall x, y, r :: DebitedAt(b, x, r) && DebitedAt(b, y, r) ==> x == y)
  }

  ghost predicate Inv(b: BankState) {
    && ReferencesUnique(b)
    && (forall batchId :: batchId in b.timers ==> TimerOk(b, batchId))
    && DebitsOk(b)
  }

  predicate Fed(step: BankStep) {
    step.ExecuteSplit? ==> SumOfLegs(step.request.transfers) == step.request.totalAmount > 0
  }

  /** The account's own log changes by nothing that debits. */
  ghost predicate SameDebits(a: MockAccount, x: MockAccount) {
    forall r :: PaymentsFor(r, x.transactions) == PaymentsFor(r, a.transactions)
  }

  /** Every finished batch is still there, finished and of the same amount. */
  ghost predicate FinishedPersist(b: BankState, b': BankState) {
    forall x | x in b.transfers && b.transfers[x].status != TRANSFER_PENDING ::
      && x in b'.transfers && b'.transfers[x].referenceId == b.transfers[x].referenceId
      && b'.transfers[x].status != TRANSFER_PENDING
      && PaymentsOf(b'.transfers[x].transfers) == PaymentsOf(b.transfers[x].transfers)
  }

  lemma DebitOkPersists(b: BankState, b': BankState, id: string, reference: string)
    requires id in b.accounts && id in b'.accounts && DebitOk(b, id, reference) && FinishedPersist(b, b')
    requires PaymentsFor(reference, b'.accounts[id].transactions) == PaymentsFor(reference, b.accounts[id].transactions)
    ensures DebitOk(b', id, reference)
  {
    if PaymentsFor(reference, b.accounts[id].transactions) != [] {
      var x :| PaidBy(b, id, reference, x);
      assert PaidBy(b', id, reference, x);
    }
  }

  lemma DebitsPersist(b: BankState, b': BankState)
    requires DebitsOk(b) && FinishedPersist(b, b') && b'.accounts == b.accounts
    ensures DebitsOk(b')
  {
    forall y, r | y in b'.accounts ensures DebitOk(b', y, r) {
      DebitOkPersists(b, b', y, r);
    }
    assert forall y, r :: DebitedAt(b', y, r) ==> DebitedAt(b, y, r);
  }

  lemma AccountChangeKeepsDebits(b: BankState, id: string, x: MockAccount)
    requires DebitsOk(b)
    requires if id in b.accounts then SameDebits(b.accounts[id], x) else (forall r :: PaymentsFor(r, x.transactions) == [])
    ensures DebitsOk(OnAccount(b, id, x))
  {
    var b' := OnAccount(b, id, x);
    forall y, r | y in b'.accounts ensures DebitOk(b', y, r) {
      if y in b.accounts {
        assert DebitOk(b, y, r);
        DebitOkPersists(b, b', y, r);
      }
    }
    forall y, r | DebitedAt(b', y, r) ensures DebitedAt(b, y, r) {
      assert y == id || b'.accounts[y] == b.accounts[y];
    }
  }

  lemma AccountChangeKeeps(b: BankState, id: string, x: MockAccount)
    requires Inv(b)
    requires if id in b.accounts then SameDebits(b.accounts[id], x) else (forall r :: PaymentsFor(r, x.transactions) == [])
    ensures Inv(OnAccount(b, id, x))
  {
    var b' := OnAccount(b, id, x);
    AccountChangeKeepsDebits(b, id, x);
    forall y, r ensures HasBatch(b', y, r) <==> HasBatch(b, y, r) {
    }
    forall batchId | batchId in b'.timers ensures TimerOk(b', batchId) {
      assert TimerOk(b, batchId);
    }
  }

  lemma OpeningPaysNobody(initialDeposit: int, contractId: string)
    ensures forall r :: PaymentsFor(r, OpenedAccount(initialDeposit, contractId).transactions) == []
  {
    var x := OpenedAccount(initialDeposit, contractId);
    if initialDeposit > 0 {
      OneMoreCredit([], x.transactions[0]);
      assert [] + [x.transactions[0]] == x.transactions;
    }
  }

  lemma AccountStepKeeps(b: BankState, step: BankStep, auto: bool)
    requires Inv(b) && (step.CreateAccount? || step.Deposit? || step.Freeze? || step.Unfreeze?)
    ensures Inv(Next(b, step, auto))
  {
    match step
    case CreateAccount(id, initialDeposit, contractId) =>
      if FreshAccount(b, id) {
        var x := OpenedAccount(initialDeposit, contractId);
        OpeningPaysNobody(initialDeposit, contractId);
        AccountChangeKeeps(b, id, x);
      }
    case Deposit(id, amount, reference) =>
      if id in b.accounts {
        var a := b.accounts[id];
        OneMoreCredit(a.transactions, BankTransaction(BANK_CREDIT, amount, a.balance + amount, reference, ""));
        AccountChangeKeeps(b, id, Deposited(a, amount, reference));
      }
    case Freeze(id, amount, reference, freezeId) =>
      if id in b.accounts { AccountChangeKeeps(b, id, FreezeOn(b.accounts[id], amount, reference, freezeId)); }
    case Unfreeze(id, freezeId) =>
      if id in b.accounts { AccountChangeKeeps(b, id, UnfreezeOn(b.accounts[id], freezeId)); }
  }

  lemma NewBatch(b: BankState, r: SplitTransferRequest, batchId: string, auto: bool)
    requires Inv(b) && FreshBatch(b, batchId) && SumOfLegs(r.transfers) == r.totalAmount > 0
    ensures Inv(ExecuteSplitTransfer(b, r, batchId, auto).0)
  {
    var b' := ExecuteSplitTransfer(b, r, batchId, auto).0;
    if b' != b {
      PendingTransfersPay(r.transfers);
      DebitsPersist(b, b');
      forall x | x in b'.timers ensures TimerOk(b', x) {
        if x != batchId { assert TimerOk(b, x); }
      }
      NewReferenceStaysUnique(b, b', batchId, r.referenceId);
    }
  }

  lemma NewReferenceStaysUnique(b: BankState, b': BankState, batchId: string, reference: string)
    requires ReferencesUnique(b) && batchId !in b.transfers && FindByReference(b, reference).None?
    requires b'.transfers.Keys == b.transfers.Keys + {batchId}
    requires forall x | x in b.transfers :: b'.transfers[x] == b.transfers[x]
    requires b'.transfers[batchId].referenceId == reference
    ensures ReferencesUnique(b')
  {
    forall x, y, r | HasBatch(b', x, r) && HasBatch(b', y, r) ensures x == y {
      assert x != batchId ==> HasBatch(b, x, r);
      assert y != batchId ==> HasBatch(b, y, r);
    }
  }

  lemma CompletionKeeps(b: BankState, batchId: string, status: BankTransferStatus)
    requires Inv(b) && batchId in b.transfers && status != TRANSFER_PENDING
    ensures Inv(Complete(b, batchId, status))
  {
    var b' := Complete(b, batchId, status);
    StatusKeepsPayments(b.transfers[batchId].transfers, status);
    DebitsPersist(b, b');
    forall x, r ensures HasBatch(b', x, r) <==> HasBatch(b, x, r) {
    }
    forall x | x in b'.timers ensures TimerOk(b', x) {
      assert TimerOk(b, x);
    }
  }

  lemma TimerEndKeeps(b: BankState, batchId: string)
    requires Inv(b)
    ensures Inv(b.(timers := b.timers - {batchId}))
  {
    var b' := b.(timers := b.timers - {batchId});
    DebitsPersist(b, b');
    forall x, r ensures HasBatch(b', x, r) <==> HasBatch(b, x, r) {
    }
    forall x | x in b'.timers ensures TimerOk(b', x) {
      assert TimerOk(b, x);
    }
  }

  /** No account has been debited for the reference of a batch that is still pending. */
  lemma PendingMeansNotDebited(b: BankState, batchId: string, id: string)
    requires Inv(b) && batchId in b.transfers && b.transfers[batchId].status == TRANSFER_PENDING
    ensures !DebitedAt(b, id, b.transfers[batchId].referenceId)
  {
    var r := b.transfers[batchId].referenceId;
    forall x | HasBatch(b, x, r) ensures x == batchId {
      assert HasBatch(b, batchId, r);
    }
    assert id in b.accounts ==> DebitOk(b, id, r);
  }

  /** The debit itself, after the batch has been marked. */
  lemma DebitKeepsDebits(b: BankState, b': BankState, batchId: string, id: string, reference: string)
    requires DebitsOk(b) && HasBatch(b, batchId, reference) && b.transfers[batchId].status != TRANSFER_PENDING
    requires id in b.accounts && id in b'.accounts && b' == OnAccount(b, id, b'.accounts[id])
    requires PaymentsFor(reference, b'.accounts[id].transactions) == PaymentsOf(b.transfers[batchId].transfers)
    requires forall r | r != reference ::
      PaymentsFor(r, b'.accounts[id].transactions) == PaymentsFor(r, b.accounts[id].transactions)
    requires forall y :: !DebitedAt(b, y, reference)
    ensures DebitsOk(b')
  {
    assert PaidBy(b', id, reference, batchId);
    forall y, r | y in b'.accounts ensures DebitOk(b', y, r) {
      if y != id || r != reference {
        assert DebitOk(b, y, r);
        DebitOkPersists(b, b', y, r);
      }
    }
    forall y, z, r | DebitedAt(b', y, r) && DebitedAt(b', z, r) ensures y == z {
      if r == reference {
        assert !DebitedAt(b, y, r) && !DebitedAt(b, z, r);
      } else {
        assert DebitedAt(b, y, r) && DebitedAt(b, z, r);
      }
    }
  }

  lemma DebitKeeps(b: BankState, batchId: string, r: SplitTransferRequest)
    requires Inv(b) && batchId in b.transfers && r.escrowAccountId in b.accounts
    requires b.transfers[batchId].referenceId == r.referenceId && b.transfers[batchId].status != TRANSFER_PENDING
    requires PaymentsOf(b.transfers[batchId].transfers) == PaymentsIn(r.transfers)
    requires forall id :: !DebitedAt(b, id, r.referenceId)
    ensures Inv(OnAccount(b, r.escrowAccountId, DebitedFor(b.accounts[r.escrowAccountId], r)))
  {
    var a := b.accounts[r.escrowAccountId];
    var b' := OnAccount(b, r.escrowAccountId, DebitedFor(a, r));
    assert !DebitedAt(b, r.escrowAccountId, r.referenceId);
    DebitEntriesPay(a.transactions, r.transfers, a.balance - r.totalAmount, r.referenceId);
    assert [] + PaymentsIn(r.transfers) == PaymentsIn(r.transfers);
    DebitKeepsDebits(b, b', batchId, r.escrowAccountId, r.referenceId);
    forall x, ref ensures HasBatch(b', x, ref) <==> HasBatch(b, x, ref) {
    }
    forall y | y in b'.timers ensures TimerOk(b', y) {
      assert TimerOk(b, y);
    }
  }

  lemma TimerKeeps(b: BankState, batchId: string, shouldFail: bool)
    requires Inv(b)
    ensures Inv(TimerFires(b, batchId, shouldFail))
  {
    if batchId in b.timers {
      var rest, r := b.(timers := b.timers - {batchId}), b.timers[batchId];
      TimerEndKeeps(b, batchId);
      if batchId in b.transfers && b.transfers[batchId].status == TRANSFER_PENDING {
        CompletionKeeps(rest, batchId, if shouldFail then TRANSFER_FAILED else TRANSFER_SUCCESS);
        if !shouldFail {
          assert TimerOk(b, batchId);
          var done := Complete(rest, batchId, TRANSFER_SUCCESS);
          StatusKeepsPayments(b.transfers[batchId].transfers, TRANSFER_SUCCESS);
          forall id ensures !DebitedAt(done, id, r.referenceId) {
            PendingMeansNotDebited(b, batchId, id);
          }
          DebitKeeps(done, batchId, r);
        }
      }
    }
  }

  lemma NextKeeps(b: BankState, step: BankStep, auto: bool)
    requires Inv(b) && Fed(step)
    ensures Inv(Next(b, step, auto))
  {
    match step
    case ExecuteSplit(request, batchId) => if FreshBatch(b, batchId) { NewBatch(b, request, batchId, auto); }
    case AutoComplete(batchId, shouldFail) => TimerKeeps(b, batchId, shouldFail);
    case ManuallyComplete(batchId, success) =>
      if batchId in b.transfers { CompletionKeeps(b, batchId, if success then TRANSFER_SUCCESS else TRANSFER_FAILED); }
    case Reset => ResetKeeps(b);
    case _ => AccountStepKeeps(b, step, auto);
  }

  lemma ResetKeeps(b: BankState)
    requires Inv(b)
    ensures Inv(BankState(map[], map[], b.timers))
  {
    forall x | x in b.timers ensures TimerOk(BankState(map[], map[], b.timers), x) {
      assert TimerOk(b, x);
    }
  }

  ghost predicate AllFed(steps: seq<BankStep>) {
    forall k :: 0 <= k < |steps| ==> Fed(steps[k])
  }

  lemma {:induction false} RunKeeps(b: BankState, steps: seq<BankStep>, auto: bool)
    requires Inv(b) && AllFed(steps)
    ensures Inv(Run(b, steps, auto))
    decreases |steps|
  {
    if |steps| > 0 {
      NextKeeps(b, steps[0], auto);
      assert forall k :: 0 <= k < |steps[1..]| ==> steps[1..][k] == steps[k + 1];
      RunKeeps(Next(b, steps[0], auto), steps[1..], auto);
    }
  }

  function EmptyBank(): BankState {
    BankState(map[], map[], map[])
  }

  // ---- At most one batch and one debit for a reference ----

  ghost predicate SplitsOnly(steps: seq<BankStep>) {
    forall k :: 0 <= k < |steps| && steps[k].ExecuteSplit? ==> OfValidSplit(steps[k].request)
  }

  lemma SplitsAreFed(steps: seq<BankStep>)
    requires SplitsOnly(steps)
    ensures AllFed(steps)
  {
    forall k | 0 <= k < |steps| ensures Fed(steps[k]) {
      if steps[k].ExecuteSplit? { ValidSplitMovesTotal(steps[k].request); }
    }
  }

  /**
   * In every run fed by valid splits a reference has at most one batch, and it is debited at most once, on one
   * account, in full: whatever an account's log debits for it is the total of that batch, which is over.
   */
  lemma ReferencePaysAtMostOnce(steps: seq<BankStep>, auto: bool, reference: string)
    requires SplitsOnly(steps)
    ensures var b := Run(EmptyBank(), steps, auto);
      && (forall x, y :: HasBatch(b, x, reference) && HasBatch(b, y, reference) ==> x == y)
      && (forall x, y :: DebitedAt(b, x, reference) && DebitedAt(b, y, reference) ==> x == y)
      && (forall id :: DebitedAt(b, id, reference) ==> exists batchId :: PaidBy(b, id, reference, batchId))
  {
    SplitsAreFed(steps);
    RunKeeps(EmptyBank(), steps, auto);
    var b := Run(EmptyBank(), steps, auto);
    forall id | DebitedAt(b, id, reference) ensures exists batchId :: PaidBy(b, id, reference, batchId) {
      assert DebitOk(b, id, reference);
    }
  }

  // ---- A batch that is over never pays again ----

  /** The batch is over; what the accounts have logged for its reference does not change. */
  ghost predicate Over(b: BankState, batchId: string, reference: string) {
    HasBatch(b, batchId, reference) && b.transfers[batchId].status != TRANSFER_PENDING
  }

  ghost predicate SameDebitsFor(b: BankState, b': BankState, reference: string) {
    forall id :: id in b.accounts ==>
      id in b'.accounts
      && PaymentsFor(reference, b'.accounts[id].transactions) == PaymentsFor(reference, b.accounts[id].transactions)
  }

  lemma OverStaysOver(b: BankState, step: BankStep, auto: bool, batchId: string, reference: string)
    requires Inv(b) && Fed(step) && !step.Reset? && Over(b, batchId, reference)
    ensures var b' := Next(b, step, auto); Over(b', batchId, reference) && SameDebitsFor(b, b', reference)
  {
    match step
    case Deposit(id, amount, r) =>
      if id in b.accounts {
        OneMoreCredit(b.accounts[id].transactions,
                      BankTransaction(BANK_CREDIT, amount, b.accounts[id].balance + amount, r, ""));
      }
    case AutoComplete(x, shouldFail) => OtherTimer(b, x, shouldFail, batchId, reference);
    case _ =>
  }

  /** A timer that still debits is the timer of a pending batch, which has another reference. */
  lemma OtherTimer(b: BankState, x: string, shouldFail: bool, batchId: string, reference: string)
    requires Inv(b) && Over(b, batchId, reference)
    ensures var b' := TimerFires(b, x, shouldFail); Over(b', batchId, reference) && SameDebitsFor(b, b', reference)
  {
    if x in b.timers && x in b.transfers && b.transfers[x].status == TRANSFER_PENDING {
      var r := b.timers[x];
      assert TimerOk(b, x);
      assert r.referenceId != reference by {
        assert HasBatch(b, x, r.referenceId);
      }
      if r.escrowAccountId in b.accounts {
        var a := b.accounts[r.escrowAccountId];
        DebitEntriesPay(a.transactions, r.transfers, a.balance - r.totalAmount, r.referenceId);
      }
    }
  }

  /**
   * Once a batch is over, reported as a success or a failure, by its timer or by hand, no later step short of a
   * reset debits anything for its reference, and asking for it again is answered with the old batch. So a
   * success reported by hand never takes money, and a failed transfer cannot be tried again.
   */
  lemma {:induction false} OverNeverPaysAgain(b: BankState, steps: seq<BankStep>, auto: bool, batchId: string, reference: string)
    requires Inv(b) && AllFed(steps) && Over(b, batchId, reference)
    requires forall k :: 0 <= k < |steps| ==> !steps[k].Reset?
    ensures var b' := Run(b, steps, auto);
      && Over(b', batchId, reference) && SameDebitsFor(b, b', reference)
      && forall r: SplitTransferRequest, other | r.referenceId == reference ::
           ExecuteSplitTransfer(b', r, other, auto) == (b', Accepted(batchId))
    decreases |steps|
  {
    if |steps| > 0 {
      var b1 := Next(b, steps[0], auto);
      NextKeeps(b, steps[0], auto);
      OverStaysOver(b, steps[0], auto, batchId, reference);
      assert forall k :: 0 <= k < |steps[1..]| ==> steps[1..][k] == steps[k + 1];
      OverNeverPaysAgain(b1, steps[1..], auto, batchId, reference);
    }
  }

  /**
   * Completing a batch by hand, whatever its status was, sets the report and nothing else: what has been debited
   * for it stays as it was in any later run without a reset, nothing at all if the batch was pending.
   */
  lemma CompletionByHandNeverPays(b: BankState, steps: seq<BankStep>, auto: bool, batchId: string, success: bool)
    requires Inv(b) && AllFed(steps) && batchId in b.transfers
    requires forall k :: 0 <= k < |steps| ==> !steps[k].Reset?
    ensures var done, reference := Next(b, ManuallyComplete(batchId, success), auto), b.transfers[batchId].referenceId;
      && batchId in done.transfers
      && done.transfers[batchId].status == (if success then TRANSFER_SUCCESS else TRANSFER_FAILED)
      && SameDebitsFor(b, Run(done, steps, auto), reference)
      && (b.transfers[batchId].status == TRANSFER_PENDING ==>
            forall id :: id in b.accounts ==> !DebitedAt(Run(done, steps, auto), id, reference))
  {
    var done, reference := Next(b, ManuallyComplete(batchId, success), auto), b.transfers[batchId].referenceId;
    NextKeeps(b, ManuallyComplete(batchId, success), auto);
    assert Over(done, batchId, reference);
    OverNeverPaysAgain(done, steps, auto, batchId, reference);
    if b.transfers[batchId].status == TRANSFER_PENDING {
      forall id | id in b.accounts ensures !DebitedAt(Run(done, steps, auto), id, reference) {
        PendingMeansNotDebited(b, batchId, id);
      }
    }
  }

  // ---- What the bank answers and reports ----

  lemma {:induction false} PendingLegByLeg(legs: seq<TransferLeg>)
    ensures |PendingTransfers(legs)| == |legs|
    ensures forall k | 0 <= k < |legs| ::
      PendingTransfers(legs)[k] == TransferResult(legs[k].recipientType, legs[k].account.accountNumber, legs[k].amount, TRANSFER_PENDING)
    decreases |legs|
  {
    if |legs| > 0 { PendingLegByLeg(legs[..|legs| - 1]); }
  }

  lemma {:induction false} StatusLegByLeg(transfers: seq<TransferResult>, status: BankTransferStatus)
    ensures |WithStatus(transfers, status)| == |transfers|
    ensures forall k | 0 <= k < |transfers| ::
      WithStatus(transfers, status)[k] == TransferResult(transfers[k].recipientType, transfers[k].toAccountNumber, transfers[k].amount, status)
    decreases |transfers|
  {
    if |transfers| > 0 { StatusLegByLeg(transfers[..|transfers| - 1], status); }
  }

  /**
   * The answer to a request: the batch that has the reference, if any; an error for an unknown account; a rejection
   * of anything above the balance; otherwise a new pending batch with one pending transfer for each leg. Only the
   * last changes anything, and no money.
   */
  lemma AnswersExactly(b: BankState, r: SplitTransferRequest, batchId: string, auto: bool)
    requires ReferencesUnique(b) && FreshBatch(b, batchId)
    ensures var (b', ack) := ExecuteSplitTransfer(b, r, batchId, auto);
      && (forall x :: HasBatch(b, x, r.referenceId) ==> b' == b && ack == Accepted(x))
      && ((forall x :: !HasBatch(b, x, r.referenceId)) ==>
            if r.escrowAccountId !in b.accounts then b' == b && ack == AccountNotFound
            else if r.totalAmount > b.accounts[r.escrowAccountId].balance then b' == b && ack == Rejected
            else
              && ack == Accepted(batchId) && b'.accounts == b.accounts
              && batchId in b'.transfers && b'.transfers == b.transfers[batchId := b'.transfers[batchId]]
              && b'.timers == (if auto then b.timers[batchId := r] else b.timers)
              && var batch := b'.transfers[batchId];
              && batch.referenceId == r.referenceId && batch.status == TRANSFER_PENDING
              && |batch.transfers| == |r.transfers|
              && forall k | 0 <= k < |r.transfers| ::
                   batch.transfers[k] == TransferResult(r.transfers[k].recipientType, r.transfers[k].account.accountNumber, r.transfers[k].amount, TRANSFER_PENDING))
  {
    PendingLegByLeg(r.transfers);
    var found := FindByReference(b, r.referenceId);
    assert found.Some? ==> HasBatch(b, found.value, r.referenceId);
  }

  /** A completion, by hand or by the timer, reports its status for the batch and for every one of its transfers. */
  lemma CompletionReportsEveryLeg(b: BankState, x: string, success: bool, auto: bool)
    requires x in b.transfers
    ensures Reports(b, Next(b, ManuallyComplete(x, success), auto), x, if success then TRANSFER_SUCCESS else TRANSFER_FAILED)
    ensures Next(b, ManuallyComplete(x, success), auto).accounts == b.accounts
    ensures Next(b, ManuallyComplete(x, success), auto).timers == b.timers
    ensures x in b.timers && b.transfers[x].status == TRANSFER_PENDING ==>
      Reports(b, Next(b, AutoComplete(x, !success), auto), x, if success then TRANSFER_SUCCESS else TRANSFER_FAILED)
    ensures x in b.timers && b.transfers[x].status != TRANSFER_PENDING ==>
      Next(b, AutoComplete(x, !success), auto) == b.(timers := b.timers - {x})
    ensures x !in b.timers ==> Next(b, AutoComplete(x, !success), auto) == b
  {
    StatusLegByLeg(b.transfers[x].transfers, if success then TRANSFER_SUCCESS else TRANSFER_FAILED);
  }

  ghost predicate Reports(b: BankState, b': BankState, x: string, status: BankTransferStatus)
    requires x in b.transfers
  {
    && x in b'.transfers && b'.transfers == b.transfers[x := b'.transfers[x]]
    && b'.transfers[x].referenceId == b.transfers[x].referenceId && b'.transfers[x].status == status
    && |b'.transfers[x].transfers| == |b.transfers[x].transfers|
    && forall k :: 0 <= k < |b.transfers[x].transfers| ==>
         b'.transfers[x].transfers[k] == b.transfers[x].transfers[k].(status := status)
  }

  // ---- The balance and the log ----

  /** The last entry shows the balance the account has. */
  ghost predicate ShowsBalance(a: MockAccount) {
    |a.transactions| > 0 ==> a.transactions[|a.transactions| - 1].balanceAfter == a.balance
  }

  lemma {:induction false} EntriesShowBalance(legs: seq<TransferLeg>, balance: int, reference: string)
    ensures |DebitEntries(legs, balance, reference)| == |legs|
    ensures forall k | 0 <= k < |legs| ::
      DebitEntries(legs, balance, reference)[k] == BankTransaction(BANK_DEBIT, legs[k].amount, balance, reference, legs[k].account.accountNumber)
    decreases |legs|
  {
    if |legs| > 0 { EntriesShowBalance(legs[..|legs| - 1], balance, reference); }
  }

  lemma NextShowsBalance(b: BankState, step: BankStep, auto: bool)
    requires Inv(b) && forall id :: id in b.accounts ==> ShowsBalance(b.accounts[id])
    ensures forall id :: id in Next(b, step, auto).accounts ==> ShowsBalance(Next(b, step, auto).accounts[id])
  {
    if step.AutoComplete? && step.batchId in b.timers && b.timers[step.batchId].escrowAccountId in b.accounts {
      var r := b.timers[step.batchId];
      assert TimerOk(b, step.batchId);
      EntriesShowBalance(r.transfers, b.accounts[r.escrowAccountId].balance - r.totalAmount, r.referenceId);
    }
  }

  /** In every run fed by valid splits the last entry of an account's log shows its balance. */
  lemma {:induction false} LogEndsWithBalance(b: BankState, steps: seq<BankStep>, auto: bool)
    requires Inv(b) && AllFed(steps) && forall id :: id in b.accounts ==> ShowsBalance(b.accounts[id])
    ensures forall id :: id in Run(b, steps, auto).accounts ==> ShowsBalance(Run(b, steps, auto).accounts[id])
    decreases |steps|
  {
    if |steps| > 0 {
      NextKeeps(b, steps[0], auto);
      NextShowsBalance(b, steps[0], auto);
      assert forall k :: 0 <= k < |steps[1..]| ==> steps[1..][k] == steps[k + 1];
      LogEndsWithBalance(Next(b, steps[0], auto), steps[1..], auto);
    }
  }

  /** Each account's balance is what its log says, short of a negative opening deposit nobody logged. */
  ghost predicate Balanced(b: BankState, openings: map<string, int>) {
    forall id :: id in b.accounts ==>
      id in openings
      && AccountBalanced(b.accounts[id], openings[id])
  }

  /** The opening deposits of the accounts, as the steps made them. */
  ghost function Openings(b: BankState, openings: map<string, int>, steps: seq<BankStep>, auto: bool): map<string, int>
    decreases |steps|
  {
    if |steps| == 0 then openings
    else
      var step := steps[0];
      var more := if step.CreateAccount? && FreshAccount(b, step.id) then openings[step.id := step.initialDeposit] else openings;
      Openings(Next(b, step, auto), more, steps[1..], auto)
  }

  lemma TimerStaysBalanced(b: BankState, openings: map<string, int>, batchId: string, shouldFail: bool)
    requires Inv(b) && Balanced(b, openings)
    ensures Balanced(TimerFires(b, batchId, shouldFail), openings)
  {
    if batchId in b.timers && b.timers[batchId].escrowAccountId in b.accounts {
      var r := b.timers[batchId];
      var a := b.accounts[r.escrowAccountId];
      assert TimerOk(b, batchId);
      DebitEntriesSum(a.transactions, r.transfers, a.balance - r.totalAmount, r.referenceId);
    }
  }

  ghost predicate AccountBalanced(a: MockAccount, opening: int) {
    a.balance == Logged(BANK_CREDIT, a.transactions) - Logged(BANK_DEBIT, a.transactions) + Min(opening, 0)
  }

  lemma OpensBalanced(initialDeposit: int, contractId: string)
    ensures AccountBalanced(OpenedAccount(initialDeposit, contractId), initialDeposit)
  {
    var x := OpenedAccount(initialDeposit, contractId);
    OneMoreEntry([], BankTransaction(BANK_CREDIT, initialDeposit, initialDeposit, "INIT-" + contractId, ""));
    assert [] + x.transactions == x.transactions;
  }

  lemma DepositStaysBalanced(a: MockAccount, opening: int, amount: int, reference: string)
    requires AccountBalanced(a, opening)
    ensures AccountBalanced(Deposited(a, amount, reference), opening)
  {
    OneMoreEntry(a.transactions, BankTransaction(BANK_CREDIT, amount, a.balance + amount, reference, ""));
  }

  lemma NextStaysBalanced(b: BankState, openings: map<string, int>, step: BankStep, auto: bool)
    requires Inv(b) && Balanced(b, openings) && Fed(step)
    ensures var more := if step.CreateAccount? && FreshAccount(b, step.id) then openings[step.id := step.initialDeposit] else openings;
      Balanced(Next(b, step, auto), more)
  {
    match step
    case CreateAccount(id, initialDeposit, contractId) => OpensBalanced(initialDeposit, contractId);
    case Deposit(id, amount, r) => if id in b.accounts { DepositStaysBalanced(b.accounts[id], openings[id], amount, r); }
    case AutoComplete(batchId, shouldFail) => TimerStaysBalanced(b, openings, batchId, shouldFail);
    case _ =>
  }

  lemma {:induction false} RunStaysBalanced(b: BankState, openings: map<string, int>, steps: seq<BankStep>, auto: bool)
    requires Inv(b) && Balanced(b, openings) && AllFed(steps)
    ensures Balanced(Run(b, steps, auto), Openings(b, openings, steps, auto))
    decreases |steps|
  {
    if |steps| > 0 {
      NextKeeps(b, steps[0], auto);
      NextStaysBalanced(b, openings, steps[0], auto);
      assert forall k :: 0 <= k < |steps[1..]| ==> steps[1..][k] == steps[k + 1];
      var step := steps[0];
      var more := if step.CreateAccount? && FreshAccount(b, step.id) then openings[step.id := step.initialDeposit] else openings;
      RunStaysBalanced(Next(b, step, auto), more, steps[1..], auto);
    }
  }

  /**
   * In every run fed by valid splits, an account's balance equals its logged credits minus its logged debits
   * exactly when it was not opened with a negative deposit.
   */
  lemma BalanceMatchesLogExactly(steps: seq<BankStep>, auto: bool, id: string)
    requires SplitsOnly(steps) && id in Run(EmptyBank(), steps, auto).accounts
    ensures var a := Run(EmptyBank(), steps, auto).accounts[id];
      var openings := Openings(EmptyBank(), map[], steps, auto);
      && id in openings
      && (a.balance == Logged(BANK_CREDIT, a.transactions) - Logged(BANK_DEBIT, a.transactions) <==> openings[id] >= 0)
  {
    SplitsAreFed(steps);
    RunStaysBalanced(EmptyBank(), map[], steps, auto);
  }

  // ---- What the balance test does not cover ----

  /** Two transfers, each within the balance, are both accepted; when both complete the account is overdrawn. */
  lemma AcceptedTransfersCanOverdraw(b: BankState, r: SplitTransferRequest, s: SplitTransferRequest, x: string, y: string)
    requires r.escrowAccountId == s.escrowAccountId && r.escrowAccountId in b.accounts && r.referenceId != s.referenceId
    requires FindByReference(b, r.referenceId).None? && FindByReference(b, s.referenceId).None?
    requires FreshBatch(b, x) && FreshBatch(b, y) && x != y
    requires r.totalAmount <= b.accounts[r.escrowAccountId].balance
    requires s.totalAmount <= b.accounts[r.escrowAccountId].balance
    ensures var w := Next(Next(b, ExecuteSplit(r, x), true), ExecuteSplit(s, y), true);
      var w' := Next(Next(w, AutoComplete(x, false), true), AutoComplete(y, false), true);
      && r.escrowAccountId in w'.accounts
      && (w'.accounts[r.escrowAccountId].balance < 0 <==>
            b.accounts[r.escrowAccountId].balance < r.totalAmount + s.totalAmount)
  {
    var id := r.escrowAccountId;
    var b1 := Next(b, ExecuteSplit(r, x), true);
    assert b1.timers == b.timers[x := r];
    assert FindByReference(b1, s.referenceId).None? by {
      assert forall z :: HasBatch(b1, z, s.referenceId) ==> HasBatch(b, z, s.referenceId);
    }
    var w := Next(b1, ExecuteSplit(s, y), true);
    assert w.timers == b.timers[x := r][y := s] && w.accounts == b.accounts;
    assert w.transfers[x].status == TRANSFER_PENDING && w.transfers[y].status == TRANSFER_PENDING;
    var w1 := Next(w, AutoComplete(x, false), true);
    assert w1.accounts == b.accounts[id := DebitedFor(b.accounts[id], r)];
    assert w1.transfers[y] == w.transfers[y] && w1.timers[y] == s;
  }

  /** Settling consumes frozen money but not the freeze record: releasing it afterwards goes below zero. */
  lemma UnfreezeAfterSettlementExactly(a: MockAccount, amount: int, reference: string, freezeId: string, r: SplitTransferRequest)
    requires a.frozenAmount >= 0 && 0 <= amount <= a.balance - a.frozenAmount && r.totalAmount > 0
    ensures var frozen := FreezeOn(a, amount, reference, freezeId);
      var released := UnfreezeOn(DebitedFor(frozen, r), freezeId);
      released.frozenAmount < 0 <==> amount > 0 && r.totalAmount > a.frozenAmount
  {
  }

  /**
   * A freeze is refused exactly above the unfrozen balance. Its id releases exactly what it froze, and only once;
   * freezing never moves money or logs anything.
   */
  lemma FreezeAndUnfreezeExactly(b: BankState, id: string, amount: int, reference: string, freezeId: string, auto: bool)
    requires id in b.accounts && freezeId !in b.accounts[id].freezeRecords
    ensures var frozen := Next(b, Freeze(id, amount, reference, freezeId), auto);
      && (frozen == b <==> amount > b.accounts[id].balance - b.accounts[id].frozenAmount)
      && (frozen != b ==> frozen.accounts[id].frozenAmount == b.accounts[id].frozenAmount + amount)
      && frozen.accounts[id].balance == b.accounts[id].balance && frozen.accounts[id].transactions == b.accounts[id].transactions
      && Next(frozen, Unfreeze(id, freezeId), auto) == b
      && Next(b, Unfreeze(id, freezeId), auto) == b
  {
    var a := b.accounts[id];
    var frozen := FreezeOn(a, amount, reference, freezeId);
    assert freezeId in frozen.freezeRecords ==> frozen.freezeRecords - {freezeId} == a.freezeRecords;
    assert UnfreezeOn(frozen, freezeId) == a;
    assert Next(b, Freeze(id, amount, reference, freezeId), auto).accounts[id] == frozen;
    assert b.accounts[id := a] == b.accounts;
  }

  /** A timer whose batch is gone. */
  ghost predicate Orphaned(b: BankState, batchId: string) {
    batchId in b.timers && batchId !in b.transfers
  }

  lemma OrphanStays(b: BankState, step: BankStep, auto: bool, batchId: string)
    requires Orphaned(b, batchId)
    ensures var b' := Next(b, step, auto); if step.AutoComplete? && step.batchId == batchId then b' == b.(timers := b'.timers) else Orphaned(b', batchId)
  {
  }

  lemma {:induction false} OrphanStaysInRun(b: BankState, steps: seq<BankStep>, auto: bool, batchId: string)
    requires Orphaned(b, batchId)
    requires forall k :: 0 <= k < |steps| && steps[k].AutoComplete? ==> steps[k].batchId != batchId
    ensures Orphaned(Run(b, steps, auto), batchId)
    decreases |steps|
  {
    if |steps| > 0 {
      OrphanStays(b, steps[0], auto, batchId);
      assert forall k :: 0 <= k < |steps[1..]| ==> steps[1..][k] == steps[k + 1];
      OrphanStaysInRun(Next(b, steps[0], auto), steps[1..], auto, batchId);
    }
  }

  lemma OrphanFires(b: BankState, auto: bool, batchId: string, shouldFail: bool)
    requires Orphaned(b, batchId)
    ensures Next(b, AutoComplete(batchId, shouldFail), auto) == b.(timers := b.timers - {batchId})
  {
  }

  lemma ResetOrphans(b: BankState, auto: bool, batchId: string)
    requires batchId in b.timers
    ensures Next(b, Reset, auto) == BankState(map[], map[], b.timers) && Orphaned(Next(b, Reset, auto), batchId)
  {
  }

  /**
   * A reset forgets every account and batch but stops no timer: whatever the bank does next, a timer set before
   * it still goes off, and then changes neither an account nor a batch.
   */
  lemma ResetLeavesOrphans(b: BankState, steps: seq<BankStep>, auto: bool, batchId: string, shouldFail: bool)
    requires batchId in b.timers
    requires forall k :: 0 <= k < |steps| && steps[k].AutoComplete? ==> steps[k].batchId != batchId
    ensures var reset := Next(b, Reset, auto);
      && reset.accounts == map[] && reset.transfers == map[]
      && var before := Run(reset, steps, auto);
      && batchId in before.timers
      && var after := Next(before, AutoComplete(batchId, shouldFail), auto);
      && after.accounts == before.accounts && after.transfers == before.transfers && batchId !in after.timers
  {
    ResetOrphans(b, auto, batchId);
    OrphanStaysInRun(Next(b, Reset, auto), steps, auto, batchId);
    OrphanFires(Run(Next(b, Reset, auto), steps, auto), auto, batchId, shouldFail);
  }
}
