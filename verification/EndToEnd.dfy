/**
 * The settlement system and the sandbox bank run together: a bank transfer that is asked for reaches the bank
 * with the request built from the locked row, and its answer comes back into the transaction, unless that
 * transaction is lost after the bank has accepted. Everything else of both goes on in between.
 */
module EndToEnd {
  import opened Common
  import opened SettlementStatuses
  import opened SplitPayments
  import opened SettlementSystem
  import T = SettlementTheorems
  import I = SettlementInvariant
  import R = SettlementRecords
  import B = MockBanks
  import BT = MockBankTheorems
  import BR = MockBankReports
  import S = SettlementEntity

  datatype Joint = Joint(world: World, bank: B.BankState)

  datatype JointStep =
    | SystemStep(step: Step)
    | Pay(settlementId: string, batchId: string, lost: bool)
    | BankStep(own: B.BankStep)

  function RequestOf(s: S.SettlementState): B.SplitTransferRequest {
    B.SplitTransferRequest(s.escrowAccountId, s.referenceId, s.split.payout.totalAmount, s.split.legs)
  }

  function Answer(ack: B.Ack): BankAck {
    match ack
    case Accepted(batchId) => AckAccepted(Some(batchId))
    case Rejected => AckRejected("Insufficient balance")
    case AccountNotFound => AckThrew
  }

  /** executeBankTransfer against this bank; `lost` stands for a transaction that fails after the bank's answer. */
  ghost function PayTx(env: Environment, j: Joint, sid: string, batchId: string, lost: bool, auto: bool): Joint {
    if BankTransferCall(sid) !in j.world.calls || !B.FreshBatch(j.bank, batchId) then j
    else if sid !in j.world.settlements || j.world.settlements[sid].status != ESCROW_LOCKED
    then j.(world := Next(env, j.world, RunBankTransfer(sid, AckThrew)))
    else
      var r := B.ExecuteSplitTransfer(j.bank, RequestOf(j.world.settlements[sid]), batchId, auto);
      Joint(Next(env, j.world, RunBankTransfer(sid, if lost then AckThrew else Answer(r.1))), r.0)
  }

  ghost function JointNext(env: Environment, j: Joint, step: JointStep, auto: bool): Joint {
    match step
    case SystemStep(s) => if s.RunBankTransfer? then j else j.(world := Next(env, j.world, s))
    case Pay(sid, batchId, lost) => PayTx(env, j, sid, batchId, lost, auto)
    case BankStep(own) => if own.ExecuteSplit? then j else j.(bank := B.Next(j.bank, own, auto))
  }

  ghost function JointRun(env: Environment, j: Joint, steps: seq<JointStep>, auto: bool): Joint
    decreases |steps|
  {
    if |steps| == 0 then j else JointRun(env, JointNext(env, j, steps[0], auto), steps[1..], auto)
  }

  function Start(): Joint {
    Joint(Initial(), BT.EmptyBank())
  }

  // ---- Every batch is the transfer of one settlement ----

  /** The batch has the settlement's reference and makes its payments. */
  ghost predicate PaysFor(w: World, sid: string, batch: B.Batch) {
    && sid in w.settlements && w.settlements[sid].referenceId == batch.referenceId
    && BT.PaymentsIn(w.settlements[sid].split.legs) == BT.PaymentsOf(batch.transfers)
  }

  /** The settlement's reference and its escrow account. */
  ghost predicate Bills(w: World, sid: string, reference: string, accountId: string) {
    && sid in w.settlements && w.settlements[sid].referenceId == reference
    && w.settlements[sid].escrowAccountId == accountId
  }

  ghost predicate Billed(w: World, reference: string, accountId: string) {
    exists sid :: Bills(w, sid, reference, accountId)
  }

  /** Timers debit, and have debited, the escrow account of the settlement whose reference they carry. */
  ghost predicate RightAccounts(w: World, b: B.BankState) {
    && (forall x :: x in b.timers ==> Billed(w, b.timers[x].referenceId, b.timers[x].escrowAccountId))
    && (forall id, r :: BT.DebitedAt(b, id, r) ==> Billed(w, r, id))
  }

  ghost predicate BatchesOwned(j: Joint) {
    forall x :: x in j.bank.transfers ==> exists sid :: PaysFor(j.world, sid, j.bank.transfers[x])
  }

  ghost predicate JointInv(env: Environment, j: Joint) {
    I.Inv(env, j.world) && R.RowsSound(j.world, false) && BT.Inv(j.bank) && BatchesOwned(j)
    && RightAccounts(j.world, j.bank)
  }

  /** Rows keep reference and total, so batches keep their settlements. */
  lemma SystemKeeps(env: Environment, j: Joint, step: Step)
    requires JointInv(env, j)
    ensures JointInv(env, j.(world := Next(env, j.world, step)))
  {
    var w, w' := j.world, Next(env, j.world, step);
    T.NextKeeps(env, w, step);
    R.NextKeepsRecords(env, w, step, false);
    forall x | x in j.bank.transfers ensures exists sid :: PaysFor(w', sid, j.bank.transfers[x]) {
      var sid :| PaysFor(w, sid, j.bank.transfers[x]);
      TermsPersist(env, w, w', sid);
      assert PaysFor(w', sid, j.bank.transfers[x]);
    }
    forall r, id | Billed(w, r, id) ensures Billed(w', r, id) {
      var sid :| Bills(w, sid, r, id);
      TermsPersist(env, w, w', sid);
      assert Bills(w', sid, r, id);
    }
  }

  lemma TermsPersist(env: Environment, w: World, w': World, sid: string)
    requires I.Inv(env, w) && I.AllEvolve(env, w, w') && sid in w.settlements
    ensures sid in w'.settlements && w'.settlements[sid].referenceId == w.settlements[sid].referenceId
    ensures w'.settlements[sid].split == w.settlements[sid].split
    ensures w'.settlements[sid].escrowAccountId == w.settlements[sid].escrowAccountId
  {
    assert I.RowOk(env, w, sid) && I.RowEvolves(w, w', sid);
  }

  /** The request of a row moves the row's total. */
  lemma RequestMovesTotal(s: S.SettlementState)
    requires R.FromSplit(s.split)
    ensures SumOfLegs(RequestOf(s).transfers) == RequestOf(s).totalAmount == I.Total(s)
    ensures I.Total(s) > 0
  {
    var p, a :| Create(p, a).Ok? && Create(p, a).value == s.split;
    LegsMoveTheTotal(p, a);
  }

  /** Batches stay, with their reference and amount, or vanish. */
  ghost predicate BatchesPersist(b: B.BankState, b': B.BankState) {
    forall x | x in b'.transfers ::
      && x in b.transfers && b'.transfers[x].referenceId == b.transfers[x].referenceId
      && BT.PaymentsOf(b'.transfers[x].transfers) == BT.PaymentsOf(b.transfers[x].transfers)
  }

  lemma CompletionPersists(b: B.BankState, x: string, status: BankTransferStatus)
    requires x in b.transfers
    ensures BatchesPersist(b, B.Complete(b, x, status))
  {
    BT.StatusKeepsPayments(b.transfers[x].transfers, status);
  }

  lemma TimerPersists(b: B.BankState, x: string, shouldFail: bool)
    ensures BatchesPersist(b, B.TimerFires(b, x, shouldFail))
  {
    if x in b.timers && x in b.transfers {
      CompletionPersists(b, x, if shouldFail then TRANSFER_FAILED else TRANSFER_SUCCESS);
    }
  }

  lemma OwnStepPersists(b: B.BankState, own: B.BankStep, auto: bool)
    requires !own.ExecuteSplit?
    ensures BatchesPersist(b, B.Next(b, own, auto))
  {
    match own
    case AutoComplete(x, shouldFail) => TimerPersists(b, x, shouldFail);
    case ManuallyComplete(x, success) =>
      if x in b.transfers { CompletionPersists(b, x, if success then TRANSFER_SUCCESS else TRANSFER_FAILED); }
    case _ =>
  }

  lemma DebitsUnchanged(w: World, b: B.BankState, b': B.BankState)
    requires RightAccounts(w, b) && (forall x :: x in b'.timers ==> x in b.timers && b'.timers[x] == b.timers[x])
    requires forall id, r :: BT.DebitedAt(b', id, r) ==> BT.DebitedAt(b, id, r)
    ensures RightAccounts(w, b')
  {
  }

  lemma AccountStepBills(w: World, b: B.BankState, own: B.BankStep, auto: bool)
    requires RightAccounts(w, b) && (own.CreateAccount? || own.Deposit? || own.Freeze? || own.Unfreeze?)
    ensures RightAccounts(w, B.Next(b, own, auto))
  {
    var b' := B.Next(b, own, auto);
    forall id, r | BT.DebitedAt(b', id, r) ensures BT.DebitedAt(b, id, r) {
      BR.AccountStepLogs(b, own, auto, r);
    }
    DebitsUnchanged(w, b, b');
  }

  /** A timer debits the account and the reference it carries. */
  lemma TimerBills(w: World, b: B.BankState, x: string, shouldFail: bool)
    requires RightAccounts(w, b)
    ensures RightAccounts(w, B.TimerFires(b, x, shouldFail))
  {
    var b' := B.TimerFires(b, x, shouldFail);
    if x in b.timers {
      var q := b.timers[x];
      if b'.accounts != b.accounts {
        BT.DebitEntriesPay(b.accounts[q.escrowAccountId].transactions, q.transfers,
                           b.accounts[q.escrowAccountId].balance - q.totalAmount, q.referenceId);
      }
      forall id, r | BT.DebitedAt(b', id, r) ensures Billed(w, r, id) {
        assert BT.DebitedAt(b, id, r) || (id == q.escrowAccountId && r == q.referenceId);
      }
    }
  }

  lemma OwnStepBills(w: World, b: B.BankState, own: B.BankStep, auto: bool)
    requires RightAccounts(w, b) && !own.ExecuteSplit?
    ensures RightAccounts(w, B.Next(b, own, auto))
  {
    match own
    case AutoComplete(x, shouldFail) => TimerBills(w, b, x, shouldFail);
    case ManuallyComplete(x, success) =>
      if x in b.transfers {
        DebitsUnchanged(w, b, B.Complete(b, x, if success then TRANSFER_SUCCESS else TRANSFER_FAILED));
      }
    case Reset => DebitsUnchanged(w, b, B.Next(b, own, auto));
    case _ => AccountStepBills(w, b, own, auto);
  }

  lemma BankKeeps(env: Environment, j: Joint, own: B.BankStep, auto: bool)
    requires JointInv(env, j) && !own.ExecuteSplit?
    ensures JointInv(env, j.(bank := B.Next(j.bank, own, auto)))
  {
    var b' := B.Next(j.bank, own, auto);
    BT.NextKeeps(j.bank, own, auto);
    OwnStepPersists(j.bank, own, auto);
    OwnStepBills(j.world, j.bank, own, auto);
    forall x | x in b'.transfers ensures exists sid :: PaysFor(j.world, sid, b'.transfers[x]) {
      var sid :| PaysFor(j.world, sid, j.bank.transfers[x]);
      assert PaysFor(j.world, sid, b'.transfers[x]);
    }
  }

  lemma AcceptedBatchIsOwned(j: Joint, sid: string, batchId: string, auto: bool)
    requires BatchesOwned(j) && sid in j.world.settlements && B.FreshBatch(j.bank, batchId)
    ensures BatchesOwned(j.(bank := B.ExecuteSplitTransfer(j.bank, RequestOf(j.world.settlements[sid]), batchId, auto).0))
  {
    var s := j.world.settlements[sid];
    var b' := B.ExecuteSplitTransfer(j.bank, RequestOf(s), batchId, auto).0;
    BT.PendingTransfersPay(s.split.legs);
    forall x | x in b'.transfers ensures exists y :: PaysFor(j.world, y, b'.transfers[x]) {
      if x in j.bank.transfers {
        assert b'.transfers[x] == j.bank.transfers[x];
      } else {
        assert PaysFor(j.world, sid, b'.transfers[x]);
      }
    }
  }

  /** The bank takes the request of a row. */
  lemma AcceptingKeeps(env: Environment, j: Joint, sid: string, batchId: string, auto: bool)
    requires JointInv(env, j) && sid in j.world.settlements && B.FreshBatch(j.bank, batchId)
    ensures JointInv(env, j.(bank := B.ExecuteSplitTransfer(j.bank, RequestOf(j.world.settlements[sid]), batchId, auto).0))
  {
    var s := j.world.settlements[sid];
    RowFromSplit(j.world, sid);
    RequestMovesTotal(s);
    BT.NewBatch(j.bank, RequestOf(s), batchId, auto);
    AcceptedBatchIsOwned(j, sid, batchId, auto);
    AcceptingBills(j.world, j.bank, sid, batchId, auto);
  }

  lemma AcceptingBills(w: World, b: B.BankState, sid: string, batchId: string, auto: bool)
    requires RightAccounts(w, b) && sid in w.settlements
    ensures RightAccounts(w, B.ExecuteSplitTransfer(b, RequestOf(w.settlements[sid]), batchId, auto).0)
  {
    var s := w.settlements[sid];
    var b' := B.ExecuteSplitTransfer(b, RequestOf(s), batchId, auto).0;
    assert Bills(w, sid, s.referenceId, s.escrowAccountId);
    forall id, r | BT.DebitedAt(b', id, r) ensures Billed(w, r, id) {
      assert BT.DebitedAt(b, id, r);
    }
  }

  lemma RowFromSplit(w: World, sid: string)
    requires R.RowsSound(w, false) && sid in w.settlements
    ensures R.FromSplit(w.settlements[sid].split)
  {
    assert R.Sound(w.settlements[sid], false);
  }

  lemma PayKeeps(env: Environment, j: Joint, sid: string, batchId: string, lost: bool, auto: bool)
    requires JointInv(env, j)
    ensures JointInv(env, PayTx(env, j, sid, batchId, lost, auto))
  {
    if BankTransferCall(sid) in j.world.calls && B.FreshBatch(j.bank, batchId) {
      if sid !in j.world.settlements || j.world.settlements[sid].status != ESCROW_LOCKED {
        SystemKeeps(env, j, RunBankTransfer(sid, AckThrew));
      } else {
        var r := B.ExecuteSplitTransfer(j.bank, RequestOf(j.world.settlements[sid]), batchId, auto);
        AcceptingKeeps(env, j, sid, batchId, auto);
        SystemKeeps(env, j.(bank := r.0), RunBankTransfer(sid, if lost then AckThrew else Answer(r.1)));
      }
    }
  }

  lemma {:induction false} JointRunKeeps(env: Environment, j: Joint, steps: seq<JointStep>, auto: bool)
    requires JointInv(env, j)
    ensures JointInv(env, JointRun(env, j, steps, auto))
    decreases |steps|
  {
    if |steps| > 0 {
      match steps[0] {
        case SystemStep(s) => if !s.RunBankTransfer? { SystemKeeps(env, j, s); }
        case Pay(sid, batchId, lost) => PayKeeps(env, j, sid, batchId, lost, auto);
        case BankStep(own) => if !own.ExecuteSplit? { BankKeeps(env, j, own, auto); }
      }
      JointRunKeeps(env, JointNext(env, j, steps[0], auto), steps[1..], auto);
    }
  }

  /** The payment of one party of a split. */
  predicate PartyPayment(x: BT.Payment, account: BankAccount, amount: int) {
    amount > 0 && x == BT.Payment(account.accountNumber, amount)
  }

  /** What the bank is to pay out for a settlement: each party its amount, to its own account. */
  ghost predicate PaysTheParties(s: S.SettlementState, payments: seq<BT.Payment>) {
    var p, a := s.split.payout, s.split.accounts;
    && BT.Amount(payments) == p.totalAmount
    && (forall x :: x in payments <==>
          || PartyPayment(x, a.seller, p.sellerAmount)
          || PartyPayment(x, a.platform, p.platformFee)
          || (a.mediator.Some? && PartyPayment(x, a.mediator.value, p.mediatorFee)))
  }

  lemma LegsArePartyPayments(s: S.SettlementState)
    requires R.FromSplit(s.split)
    ensures PaysTheParties(s, BT.PaymentsIn(s.split.legs))
  {
    var p, a :| Create(p, a).Ok? && Create(p, a).value == s.split;
    LegsMoveTheTotal(p, a);
    BT.LegsAreThePayments(s.split.legs);
    forall x ensures x in BT.PaymentsIn(s.split.legs) <==> ToAParty(p, a, x) {
      PaymentToAParty(p, a, x);
    }
  }

  ghost predicate ToAParty(p: Payout, a: TransferAccounts, x: BT.Payment) {
    || PartyPayment(x, a.seller, p.sellerAmount)
    || PartyPayment(x, a.platform, p.platformFee)
    || (a.mediator.Some? && PartyPayment(x, a.mediator.value, p.mediatorFee))
  }

  lemma PaymentToAParty(p: Payout, a: TransferAccounts, x: BT.Payment)
    requires Create(p, a).Ok?
    ensures x in BT.PaymentsIn(Create(p, a).value.legs) <==> ToAParty(p, a, x)
  {
    var legs := Create(p, a).value.legs;
    LegsPayTheParties(p, a);
    if x in BT.PaymentsIn(legs) {
      var leg := LegOf(legs, x);
    } else {
      if PartyPayment(x, a.seller, p.sellerAmount) { PaidLeg(legs, TransferLeg(a.seller, p.sellerAmount, SELLER), x); }
      if PartyPayment(x, a.platform, p.platformFee) { PaidLeg(legs, TransferLeg(a.platform, p.platformFee, PLATFORM), x); }
      if a.mediator.Some? && PartyPayment(x, a.mediator.value, p.mediatorFee) {
        PaidLeg(legs, TransferLeg(a.mediator.value, p.mediatorFee, MEDIATOR), x);
      }
    }
  }

  lemma LegOf(legs: seq<TransferLeg>, x: BT.Payment) returns (leg: TransferLeg)
    requires x in BT.PaymentsIn(legs)
    ensures leg in legs && x == BT.Payment(leg.account.accountNumber, leg.amount)
  {
    BT.LegsAreThePayments(legs);
    var k :| 0 <= k < |legs| && BT.PaymentsIn(legs)[k] == x;
    leg := legs[k];
  }

  lemma PaidLeg(legs: seq<TransferLeg>, leg: TransferLeg, x: BT.Payment)
    requires leg in legs && x == BT.Payment(leg.account.accountNumber, leg.amount)
    ensures x in BT.PaymentsIn(legs)
  {
    BT.LegsAreThePayments(legs);
    var k :| 0 <= k < |legs| && legs[k] == leg;
    assert BT.PaymentsIn(legs)[k] == x;
  }

  /**
   * End to end: however often a settlement is retried, answered, disputed or lost in between, its reference has at
   * most one batch and is debited at most once, on the settlement's own escrow account, and then for exactly the
   * payments of its parties: seller, platform and mediator their amounts to their accounts, the total in all.
   * Whatever the bank has debited for any reference belongs to a settlement.
   */
  lemma BankPaysEachSettlementAtMostOnce(env: Environment, steps: seq<JointStep>, auto: bool)
    ensures var j := JointRun(env, Start(), steps, auto);
      && (forall sid | sid in j.world.settlements ::
            var s := j.world.settlements[sid];
            && (forall x, y :: B.HasBatch(j.bank, x, s.referenceId) && B.HasBatch(j.bank, y, s.referenceId) ==> x == y)
            && (forall id :: BT.DebitedAt(j.bank, id, s.referenceId) ==>
                  && id == s.escrowAccountId
                  && PaysTheParties(s, BT.PaymentsFor(s.referenceId, j.bank.accounts[id].transactions))
                  && BT.DebitsFor(s.referenceId, j.bank.accounts[id].transactions) == I.Total(s)))
      && (forall id, reference :: BT.DebitedAt(j.bank, id, reference) ==> HasReferenceSomewhere(j.world, reference))
  {
    JointRunKeeps(env, Start(), steps, auto);
    var j := JointRun(env, Start(), steps, auto);
    forall id, reference | BT.DebitedAt(j.bank, id, reference) ensures HasReferenceSomewhere(j.world, reference) {
      var sid :| Bills(j.world, sid, reference, id);
      assert HasReference(j.world, sid, reference);
    }
    forall sid, id | sid in j.world.settlements && BT.DebitedAt(j.bank, id, j.world.settlements[sid].referenceId)
      ensures var s := j.world.settlements[sid];
        && id == s.escrowAccountId
        && PaysTheParties(s, BT.PaymentsFor(s.referenceId, j.bank.accounts[id].transactions))
        && BT.DebitsFor(s.referenceId, j.bank.accounts[id].transactions) == I.Total(s)
    {
      DebitPaysTheParties(env, j, sid, id);
    }
  }

  ghost predicate HasReferenceSomewhere(w: World, reference: string) {
    exists sid :: HasReference(w, sid, reference)
  }

  lemma DebitPaysTheParties(env: Environment, j: Joint, sid: string, id: string)
    requires JointInv(env, j) && sid in j.world.settlements
    requires BT.DebitedAt(j.bank, id, j.world.settlements[sid].referenceId)
    ensures var s := j.world.settlements[sid];
      && id == s.escrowAccountId
      && PaysTheParties(s, BT.PaymentsFor(s.referenceId, j.bank.accounts[id].transactions))
      && BT.DebitsFor(s.referenceId, j.bank.accounts[id].transactions) == I.Total(s)
  {
    var s := j.world.settlements[sid];
    assert BT.DebitOk(j.bank, id, s.referenceId);
    var x :| BT.PaidBy(j.bank, id, s.referenceId, x);
    var owner :| PaysFor(j.world, owner, j.bank.transfers[x]);
    var biller :| Bills(j.world, biller, s.referenceId, id);
    assert owner == sid && biller == sid;
    RowFromSplit(j.world, sid);
    LegsArePartyPayments(s);
    BT.DebitsAreThePayments(s.referenceId, j.bank.accounts[id].transactions);
  }
}
