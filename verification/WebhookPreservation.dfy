/** Every step of the webhook protocol keeps the invariant. */
module WebhookPreservation {
  import opened Common
  import opened LockKey
  import opened WebhookSystem
  import opened WebhookInvariant

  /** A step that adds no row, lock or ledger entry. */
  ghost predicate Quiet(w: World, w': World, d: nat, s: nat) {
    && OnlyTouches(w, w', d, s) && FreeFor(w, s, d) && Persist(w, w')
    && w'.claims == w.claims && w'.fundedRows == w.fundedRows && w'.ledger == w.ledger
    && var x, y := w.sessions[s], w'.sessions[s];
    && y.open == x.open && (!x.open ==> y.user == Idle) && y.locks <= x.locks
    && (y == x.(user := y.user, locks := y.locks)
        || (!y.inTx && y.pending == map[] && y.funded == {}))
    && DeliveryOk(w', d)
  }

  lemma QuietIsAllowed(w: World, w': World, d: nat, s: nat)
    requires s in w.sessions && SessionOk(w, s) && RowsOk(w) && Quiet(w, w', d, s)
    ensures Allowed(w, w', d, s)
  {
    RowsPersist(w, w');
    forall i | i in w'.sessions[s].pending ensures ClaimOk(w', i, w'.sessions[s].pending[i]) {
      ClaimPersists(w, w', i, w.sessions[s].pending[i]);
    }
    assert forall key | key in w'.sessions[s].locks :: key in w.sessions[s].locks;
  }

  lemma QuietStepKeeps(w: World, w': World, d: nat, s: nat)
    requires Inv(w) && Quiet(w, w', d, s)
    ensures Inv(w')
  {
    assert SessionOk(w, s);
    QuietIsAllowed(w, w', d, s);
    StepKeeps(w, w', d, s);
  }

  predicate InTime(w: World, d: nat) {
    d in w.deliveries && w.deliveries[d].session in w.sessions
  }

  // ---- Steps of the body ----

  lemma GivenBackIsOk(w: World, d: nat, phase: Phase)
    requires InTime(w, d) && DeliveryOk(w, d)
    requires phase.Leaving? || phase.Dangling? || phase.Done?
    requires phase.result == SUCCESS ==> w.deliveries[d].phase.Committed?
    ensures DeliveryOk(Phased(GiveBack(w, w.deliveries[d].session), d, phase), d)
  {
  }

  /** The session is given back in the same breath as the delivery moves on. */
  lemma GiveBackEffect(w: World, d: nat, phase: Phase)
    requires InTime(w, d) && DeliveryOk(w, d)
    requires InBody(w.deliveries[d].phase) || w.deliveries[d].phase.Recovered?
    requires phase.Leaving? || phase.Dangling? || phase.Done?
    requires phase.result == SUCCESS ==> w.deliveries[d].phase.Committed?
    ensures Quiet(w, Phased(GiveBack(w, w.deliveries[d].session), d, phase), d, w.deliveries[d].session)
  {
    GivenBackIsOk(w, d, phase);
  }

  lemma GiveBackKeeps(w: World, d: nat, phase: Phase)
    requires Inv(w) && InTime(w, d)
    requires InBody(w.deliveries[d].phase) || w.deliveries[d].phase.Recovered?
    requires phase.Leaving? || phase.Dangling? || phase.Done?
    requires phase.result == SUCCESS ==> w.deliveries[d].phase.Committed?
    ensures Inv(Phased(GiveBack(w, w.deliveries[d].session), d, phase))
  {
    assert DeliveryOk(w, d);
    GiveBackEffect(w, d, phase);
    QuietStepKeeps(w, Phased(GiveBack(w, w.deliveries[d].session), d, phase), d, w.deliveries[d].session);
  }

  lemma LockEffect(w: World, d: nat)
    requires InTime(w, d) && DeliveryOk(w, d) && SessionOk(w, w.deliveries[d].session) && RowsOk(w)
    requires w.deliveries[d].phase.Begun? && !HeldElsewhere(w, w.deliveries[d].session, KeyOf(w, d))
    ensures Allowed(w, TryLockTx(w, d), d, w.deliveries[d].session)
  {
    var s, w' := w.deliveries[d].session, TryLockTx(w, d);
    assert w' == Phased(Set(w, s, w.sessions[s].(locks := w.sessions[s].locks + multiset{KeyOf(w, d)})), d, Locked);
    RowsPersist(w, w');
    forall i | i in w'.sessions[s].pending ensures ClaimOk(w', i, w'.sessions[s].pending[i]) {
      ClaimPersists(w, w', i, w.sessions[s].pending[i]);
    }
    assert DeliveryOk(w', d);
  }

  lemma TryLockKeeps(w: World, d: nat)
    requires Inv(w) && InTime(w, d) && w.deliveries[d].phase.Begun?
    ensures Inv(TryLockTx(w, d))
  {
    assert DeliveryOk(w, d);
    var s := w.deliveries[d].session;
    if HeldElsewhere(w, s, KeyOf(w, d)) {
      GiveBackKeeps(w, d, Dangling(DUPLICATE, false));
    } else {
      assert SessionOk(w, s);
      LockEffect(w, d);
      StepKeeps(w, TryLockTx(w, d), d, s);
    }
  }

  lemma UnlockedDuplicate(w: World, d: nat)
    requires InTime(w, d) && DeliveryOk(w, d) && w.deliveries[d].phase.Locked?
    requires Visible(w, w.deliveries[d].session, w.deliveries[d].invoice).Some?
    ensures Quiet(w, CheckClaimTx(w, d), d, w.deliveries[d].session)
  {
    var s := w.deliveries[d].session;
    var x := w.sessions[s];
    assert CheckClaimTx(w, d).sessions[s] == x.(user := Idle, locks := x.locks - multiset{KeyOf(w, d)});
    assert CheckClaimTx(w, d).deliveries[d] == w.deliveries[d].(phase := Dangling(DUPLICATE, false));
  }

  lemma CheckClaimKeeps(w: World, d: nat)
    requires Inv(w) && InTime(w, d) && w.deliveries[d].phase.Locked?
    ensures Inv(CheckClaimTx(w, d))
  {
    assert DeliveryOk(w, d);
    if Visible(w, w.deliveries[d].session, w.deliveries[d].invoice).None? {
      PhaseKeeps(w, d, Unclaimed);
    } else {
      UnlockedDuplicate(w, d);
      QuietStepKeeps(w, CheckClaimTx(w, d), d, w.deliveries[d].session);
    }
  }

  lemma ThrowEffect(w: World, d: nat)
    requires InTime(w, d) && DeliveryOk(w, d) && InBody(w.deliveries[d].phase)
    ensures Quiet(w, ThrowTx(w, d), d, w.deliveries[d].session)
  {
    var s := w.deliveries[d].session;
    var w' := ThrowTx(w, d);
    assert w'.sessions[s] == w.sessions[s].(inTx := false, pending := map[], funded := {});
    assert w'.deliveries[d].phase in {Recovering, Recovered};
    assert DeliveryOk(w', d);
  }

  lemma ThrowKeeps(w: World, d: nat)
    requires Inv(w) && InTime(w, d) && InBody(w.deliveries[d].phase)
    ensures Inv(ThrowTx(w, d))
  {
    assert DeliveryOk(w, d);
    ThrowEffect(w, d);
    QuietStepKeeps(w, ThrowTx(w, d), d, w.deliveries[d].session);
  }

  function ClaimedInTx(w: World, d: nat): World
    requires InTime(w, d)
  {
    var s, i := w.deliveries[d].session, w.deliveries[d].invoice;
    var x := w.sessions[s];
    Phased(Set(w, s, x.(pending := x.pending[i := Claim(d, PROCESSING)])), d, Claimed)
  }

  lemma ClaimingDeliveryIsOk(w: World, d: nat)
    requires InTime(w, d) && DeliveryOk(w, d) && w.deliveries[d].phase.Unclaimed?
    ensures DeliveryOk(ClaimedInTx(w, d), d)
  {
  }

  lemma ClaimingSessionIsOk(w: World, d: nat)
    requires InTime(w, d) && SessionOk(w, w.deliveries[d].session) && w.sessions[w.deliveries[d].session].inTx
    requires w.deliveries[d].phase.Unclaimed? && w.deliveries[d].invoice !in w.claims
    ensures SessionOk(ClaimedInTx(w, d), w.deliveries[d].session)
  {
    var s, i, w' := w.deliveries[d].session, w.deliveries[d].invoice, ClaimedInTx(w, d);
    forall j | j in w'.sessions[s].pending ensures ClaimOk(w', j, w'.sessions[s].pending[j]) {
      if j != i { ClaimPersists(w, w', j, w.sessions[s].pending[j]); }
    }
  }

  lemma InsertedRowInTx(w: World, d: nat)
    requires InTime(w, d) && DeliveryOk(w, d) && SessionOk(w, w.deliveries[d].session) && RowsOk(w)
    requires w.deliveries[d].phase.Unclaimed? && w.sessions[w.deliveries[d].session].inTx
    requires !InsertBlocked(w, w.deliveries[d].session, w.deliveries[d].invoice)
    requires Visible(w, w.deliveries[d].session, w.deliveries[d].invoice).None?
    ensures InsertClaimTx(w, d) == ClaimedInTx(w, d)
    ensures Allowed(w, ClaimedInTx(w, d), d, w.deliveries[d].session)
  {
    ClaimingDeliveryIsOk(w, d);
    ClaimingSessionIsOk(w, d);
    RowsPersist(w, ClaimedInTx(w, d));
  }

  lemma InsertedRowAutocommitted(w: World, d: nat)
    requires InTime(w, d) && DeliveryOk(w, d) && SessionOk(w, w.deliveries[d].session) && RowsOk(w)
    requires w.deliveries[d].phase.Unclaimed? && !w.sessions[w.deliveries[d].session].inTx
    requires !InsertBlocked(w, w.deliveries[d].session, w.deliveries[d].invoice)
    requires Visible(w, w.deliveries[d].session, w.deliveries[d].invoice).None?
    ensures Allowed(w, InsertClaimTx(w, d), d, w.deliveries[d].session)
  {
    var s, i := w.deliveries[d].session, w.deliveries[d].invoice;
    var w' := InsertClaimTx(w, d);
    assert w' == Phased(w.(claims := w.claims[i := Claim(d, PROCESSING)]), d, Claimed);
    forall j | j in w'.claims ensures ClaimOk(w', j, w'.claims[j]) {
      if j != i { ClaimPersists(w, w', j, w.claims[j]); }
    }
    assert DeliveryOk(w', d);
    assert NotAwaitedElsewhere(w, w', s);
  }

  lemma InsertClaimKeeps(w: World, d: nat)
    requires Inv(w) && InTime(w, d) && w.deliveries[d].phase.Unclaimed?
    ensures Inv(InsertClaimTx(w, d))
  {
    assert DeliveryOk(w, d);
    var s, i := w.deliveries[d].session, w.deliveries[d].invoice;
    assert SessionOk(w, s);
    if !InsertBlocked(w, s, i) {
      if Visible(w, s, i).Some? {
        ThrowKeeps(w, d);
      } else {
        if w.sessions[s].inTx { InsertedRowInTx(w, d); } else { InsertedRowAutocommitted(w, d); }
        StepKeeps(w, InsertClaimTx(w, d), d, s);
      }
    }
  }

  lemma FundEffect(w: World, d: nat)
    requires InTime(w, d) && DeliveryOk(w, d)
    requires w.deliveries[d].contract !in w.ledger && w.deliveries[d].phase.Ready?
    ensures OnlyTouches(w, FundTx(w, d), d, w.deliveries[d].session)
    ensures DeliveryOk(FundTx(w, d), d) && Persist(w, FundTx(w, d)) && Grows(w, FundTx(w, d))
  {
  }

  lemma FundKeeps(w: World, d: nat)
    requires Inv(w) && InTime(w, d) && w.deliveries[d].contract !in w.ledger && w.deliveries[d].phase.Ready?
    ensures Inv(FundTx(w, d))
  {
    var s, w' := w.deliveries[d].session, FundTx(w, d);
    assert DeliveryOk(w, d);
    assert SessionOk(w, s);
    FundEffect(w, d);
    RowsPersist(w, w');
    SessionPersists(w, w', s);
    StepKeeps(w, w', d, s);
  }

  lemma WritingDeliveryIsOk(w: World, d: nat)
    requires InTime(w, d) && DeliveryOk(w, d) && w.deliveries[d].phase.Confirmed?
    ensures DeliveryOk(WriteTx(w, d), d)
  {
  }

  lemma WritingSessionIsOk(w: World, d: nat)
    requires InTime(w, d) && DeliveryOk(w, d) && SessionOk(w, w.deliveries[d].session) && w.deliveries[d].phase.Confirmed?
    ensures SessionOk(WriteTx(w, d), w.deliveries[d].session)
  {
    var s, w' := w.deliveries[d].session, WriteTx(w, d);
    forall i | i in w'.sessions[s].pending ensures ClaimOk(w', i, w'.sessions[s].pending[i]) {
      ClaimPersists(w, w', i, w.sessions[s].pending[i]);
    }
  }

  lemma WritingKeepsRows(w: World, d: nat)
    requires InTime(w, d) && DeliveryOk(w, d) && RowsOk(w) && w.deliveries[d].phase.Confirmed?
    ensures RowsOk(WriteTx(w, d))
  {
    var w' := WriteTx(w, d);
    forall i | i in w'.claims ensures ClaimOk(w', i, w'.claims[i]) {
      ClaimPersists(w, w', i, w.claims[i]);
    }
  }

  lemma WriteEffect(w: World, d: nat)
    requires InTime(w, d) && DeliveryOk(w, d) && SessionOk(w, w.deliveries[d].session) && RowsOk(w)
    requires w.deliveries[d].phase.Confirmed?
    ensures Allowed(w, WriteTx(w, d), d, w.deliveries[d].session)
  {
    WritingDeliveryIsOk(w, d);
    WritingSessionIsOk(w, d);
    WritingKeepsRows(w, d);
  }

  lemma WriteKeeps(w: World, d: nat)
    requires Inv(w) && InTime(w, d) && w.deliveries[d].phase.Confirmed?
    ensures Inv(WriteTx(w, d))
  {
    assert DeliveryOk(w, d);
    assert SessionOk(w, w.deliveries[d].session);
    WriteEffect(w, d);
    StepKeeps(w, WriteTx(w, d), d, w.deliveries[d].session);
  }

  // ---- COMMIT ----

  lemma CommitKeepsDelivery(w: World, s: nat, e: nat)
    requires s in w.sessions && SessionOk(w, s)
    requires e in w.deliveries && DeliveryOk(w, e)
    ensures DeliveryOk(CommitOn(w, s), e)
  {
  }

  lemma CommitKeepsSession(w: World, s: nat, t: nat)
    requires s in w.sessions && t in w.sessions && SessionOk(w, s) && SessionOk(w, t) && InsertsUnique(w)
    ensures SessionOk(CommitOn(w, s), t)
  {
    var w' := CommitOn(w, s);
    if t != s {
      forall i | i in w'.sessions[t].pending && i in w'.claims
        ensures w'.sessions[t].pending[i].owner == w'.claims[i].owner {
        if i in w.sessions[s].pending {
          assert i in w.claims;
        }
      }
      forall i | i in w'.sessions[t].pending ensures ClaimOk(w', i, w'.sessions[t].pending[i]) {
        assert ClaimOk(w, i, w.sessions[t].pending[i]);
      }
    }
  }

  lemma CommitKeepsRows(w: World, s: nat)
    requires s in w.sessions && SessionOk(w, s) && RowsOk(w)
    ensures RowsOk(CommitOn(w, s))
  {
    var w' := CommitOn(w, s);
    forall i | i in w'.claims ensures ClaimOk(w', i, w'.claims[i]) {
      if i in w.sessions[s].pending {
        assert ClaimOk(w, i, w.sessions[s].pending[i]);
      } else {
        assert ClaimOk(w, i, w.claims[i]);
      }
    }
  }

  /** Whoever uses the session: ending its transaction by COMMIT breaks nothing. */
  lemma CommitKeeps(w: World, s: nat)
    requires Inv(w) && s in w.sessions
    ensures Inv(CommitOn(w, s))
  {
    var w' := CommitOn(w, s);
    assert SessionOk(w, s);
    forall e | e in w'.deliveries ensures DeliveryOk(w', e) {
      CommitKeepsDelivery(w, s, e);
    }
    forall t | t in w'.sessions ensures SessionOk(w', t) {
      CommitKeepsSession(w, s, t);
    }
    CommitKeepsRows(w, s);
    LocksStayExclusive(w, w', s);
    InsertsStayUnique(w, w', s);
  }

  lemma PhaseKeepsDelivery(w: World, d: nat, phase: Phase, e: nat)
    requires InTime(w, d) && e in w.deliveries && e != d && DeliveryOk(w, e)
    ensures DeliveryOk(Phased(w, d, phase), e)
  {
    assert Undisturbed(w, Phased(w, d, phase), e);
    UndisturbedKept(w, Phased(w, d, phase), e);
  }

  lemma PhaseKeepsRows(w: World, d: nat, phase: Phase)
    requires SessionsOk(w) && RowsOk(w) && InTime(w, d)
    requires ReturnedSuccess(w.deliveries[d].phase) ==> ReturnedSuccess(phase)
    ensures SessionsOk(Phased(w, d, phase)) && RowsOk(Phased(w, d, phase))
  {
    var w' := Phased(w, d, phase);
    assert Persist(w, w');
    forall t | t in w'.sessions ensures SessionOk(w', t) {
      SessionPersists(w, w', t);
    }
    RowsPersist(w, w');
  }

  /** Moving on to a later phase of d, with database and sessions as they are. */
  lemma PhaseKeeps(w: World, d: nat, phase: Phase)
    requires Inv(w) && InTime(w, d)
    requires ReturnedSuccess(w.deliveries[d].phase) ==> ReturnedSuccess(phase)
    requires DeliveryOk(Phased(w, d, phase), d)
    ensures Inv(Phased(w, d, phase))
  {
    var w' := Phased(w, d, phase);
    PhaseKeepsRows(w, d, phase);
    forall e | e in w'.deliveries ensures DeliveryOk(w', e) {
      if e != d { PhaseKeepsDelivery(w, d, phase, e); }
    }
  }

  lemma CommitEffect(w: World, d: nat)
    requires InTime(w, d) && DeliveryOk(w, d)
    requires DeliveryOk(CommitOn(w, w.deliveries[d].session), d)
    ensures var w', phase := CommitOn(w, w.deliveries[d].session), w.deliveries[d].phase;
      && (phase.Written? ==> DeliveryOk(Phased(w', d, Committed), d))
      && (phase.Dangling? ==> DeliveryOk(Phased(w', d, Done(phase.result)), d))
  {
    if w.deliveries[d].phase.Written? { CommitOwns(w, d); }
  }

  lemma BodyCommitKeeps(w: World, d: nat)
    requires Inv(w) && InTime(w, d) && w.deliveries[d].phase.Written?
    ensures Inv(Phased(CommitOn(w, w.deliveries[d].session), d, Committed))
  {
    CommitKeeps(w, w.deliveries[d].session);
    CommittedIsOk(w, d);
    PhaseKeeps(CommitOn(w, w.deliveries[d].session), d, Committed);
  }

  lemma LastCommitKeeps(w: World, d: nat)
    requires Inv(w) && InTime(w, d) && w.deliveries[d].phase.Dangling?
    ensures Inv(Phased(CommitOn(w, w.deliveries[d].session), d, Done(w.deliveries[d].phase.result)))
  {
    CommitKeeps(w, w.deliveries[d].session);
    CommittedIsOk(w, d);
    PhaseKeeps(CommitOn(w, w.deliveries[d].session), d, Done(w.deliveries[d].phase.result));
  }

  lemma CommittedIsOk(w: World, d: nat)
    requires DeliveriesOk(w) && SessionsOk(w) && InTime(w, d)
    ensures var w', phase := CommitOn(w, w.deliveries[d].session), w.deliveries[d].phase;
      && (phase.Written? ==> DeliveryOk(Phased(w', d, Committed), d))
      && (phase.Dangling? ==> DeliveryOk(Phased(w', d, Done(phase.result)), d))
  {
    assert DeliveryOk(w, d) && SessionOk(w, w.deliveries[d].session);
    CommitKeepsDelivery(w, w.deliveries[d].session, d);
    CommitEffect(w, d);
  }

  /** The COMMIT of a body makes its claim and its contract update permanent. */
  lemma CommitOwns(w: World, d: nat)
    requires InTime(w, d) && DeliveryOk(w, d) && w.deliveries[d].phase.Written?
    ensures var w' := CommitOn(w, w.deliveries[d].session);
      OwnsClaim(w', w.deliveries[d].invoice, d) && w.deliveries[d].contract in w'.fundedRows
  {
  }

  lemma ClaimStepKeeps(w: World, d: nat, step: Step)
    requires Inv(w) && InTime(w, d)
    ensures Inv(ClaimStep(w, d, step))
  {
    var phase := w.deliveries[d].phase;
    if step.RefuseEarly? {
      if phase.Begun? && step.result in {INVALID_TIMESTAMP, CONTRACT_NOT_FOUND} { GiveBackKeeps(w, d, Dangling(step.result, false)); }
    } else if step.TryLock? {
      if phase.Begun? { TryLockKeeps(w, d); }
    } else if step.CheckClaim? {
      if phase.Locked? { CheckClaimKeeps(w, d); }
    } else if step.InsertClaim? {
      if phase.Unclaimed? { InsertClaimKeeps(w, d); }
    }
  }

  lemma ValidateEffect(w: World, d: nat)
    requires InTime(w, d) && DeliveryOk(w, d) && w.deliveries[d].phase.Claimed?
    ensures DeliveryOk(Phased(w, d, Ready), d)
  {
  }

  lemma ValidateKeeps(w: World, d: nat)
    requires Inv(w) && InTime(w, d) && w.deliveries[d].phase.Claimed?
    ensures Inv(Phased(w, d, Ready))
  {
    assert DeliveryOk(w, d);
    ValidateEffect(w, d);
    PhaseKeeps(w, d, Ready);
  }

  lemma RejectKeeps(w: World, d: nat, result: WebhookResult)
    requires Inv(w) && InTime(w, d) && CanReject(w.deliveries[d].phase, result)
    ensures Inv(Phased(GiveBack(w, w.deliveries[d].session), d, Leaving(result)))
  {
    GiveBackKeeps(w, d, Leaving(result));
  }

  lemma LedgerStepShape(w: World, d: nat, step: Step)
    requires InTime(w, d) && (step.Validate? || step.Fund?)
    ensures var phase, w' := w.deliveries[d].phase, PaymentStep(w, d, step);
      || w' == w
      || (phase.Claimed? && w' == Phased(w, d, Ready))
      || (phase.Ready? && w.deliveries[d].contract !in w.ledger && w' == FundTx(w, d))
  {
  }

  lemma LedgerStepKeeps(w: World, d: nat, w': World)
    requires Inv(w) && InTime(w, d)
    requires var phase := w.deliveries[d].phase;
      || w' == w
      || (phase.Claimed? && w' == Phased(w, d, Ready))
      || (phase.Ready? && w.deliveries[d].contract !in w.ledger && w' == FundTx(w, d))
    ensures Inv(w')
  {
    if w' != w {
      if w.deliveries[d].phase.Claimed? {
        ValidateKeeps(w, d);
      } else {
        FundKeeps(w, d);
      }
    }
  }

  lemma PaymentStepKeeps(w: World, d: nat, step: Step)
    requires Inv(w) && InTime(w, d)
    ensures Inv(PaymentStep(w, d, step))
  {
    var phase := w.deliveries[d].phase;
    if step.Validate? || step.Fund? {
      LedgerStepShape(w, d, step);
      LedgerStepKeeps(w, d, PaymentStep(w, d, step));
    } else if step.Reject? {
      if CanReject(phase, step.result) { RejectKeeps(w, d, step.result); }
    } else if step.Write? {
      if phase.Confirmed? { WriteKeeps(w, d); }
    }
  }

  ghost predicate CommitOutcome(w: World, d: nat, w': World)
    requires InTime(w, d)
  {
    var s, phase := w.deliveries[d].session, w.deliveries[d].phase;
    || w' == w
    || (phase.Written? && w' == Phased(CommitOn(w, s), d, Committed))
    || (phase.Dangling? && w' == Phased(CommitOn(w, s), d, Done(phase.result)))
  }

  lemma CommitStepShape(w: World, d: nat, step: Step)
    requires InTime(w, d) && (step.Commit? || step.FinalCommit?)
    ensures CommitOutcome(w, d, EndingStep(w, d, step))
  {
  }

  lemma CommitsKeep(w: World, d: nat, w': World)
    requires Inv(w) && InTime(w, d) && CommitOutcome(w, d, w')
    ensures Inv(w')
  {
    if w' != w {
      if w.deliveries[d].phase.Written? { BodyCommitKeeps(w, d); } else { LastCommitKeeps(w, d); }
    }
  }

  lemma EndingStepKeeps(w: World, d: nat, step: Step)
    requires Inv(w) && InTime(w, d)
    ensures Inv(EndingStep(w, d, step))
  {
    var phase := w.deliveries[d].phase;
    if step.Commit? || step.FinalCommit? {
      CommitStepShape(w, d, step);
      CommitsKeep(w, d, EndingStep(w, d, step));
    } else if step.Succeed? {
      if phase.Committed? { GiveBackKeeps(w, d, Leaving(SUCCESS)); }
    } else if step.Throw? {
      if InBody(phase) { ThrowKeeps(w, d); }
    } else if step.EndRecovery? {
      if phase.Recovered? { GiveBackKeeps(w, d, Done(UNKNOWN_ERROR)); }
    }
  }

  lemma BodyStepKeeps(w: World, d: nat, step: Step)
    requires Inv(w) && InTime(w, d)
    ensures Inv(BodyStep(w, d, step))
  {
    ClaimStepKeeps(w, d, step);
    PaymentStepKeeps(w, d, step);
    EndingStepKeeps(w, d, step);
  }

  // ---- The finalizer ----

  lemma TakenIsOk(w: World, d: nat, s: nat)
    requires InTime(w, d) && DeliveryOk(w, d) && TakeSessionTx(w, d, s) != w
    ensures DeliveryOk(TakeSessionTx(w, d, s), d)
  {
  }

  lemma TakeSessionEffect(w: World, d: nat, s: nat)
    requires InTime(w, d) && DeliveryOk(w, d) && TakeSessionTx(w, d, s) != w
    ensures Quiet(w, TakeSessionTx(w, d, s), d, s)
  {
    TakenIsOk(w, d, s);
  }

  lemma TakeSessionKeeps(w: World, d: nat, s: nat)
    requires Inv(w) && InTime(w, d)
    ensures Inv(TakeSessionTx(w, d, s))
  {
    if TakeSessionTx(w, d, s) != w {
      assert DeliveryOk(w, d);
      TakeSessionEffect(w, d, s);
      QuietStepKeeps(w, TakeSessionTx(w, d, s), d, s);
    }
  }

  function UpdatedWorld(w: World, d: nat): World
    requires InTime(w, d) && w.deliveries[d].phase.Releasing? && w.deliveries[d].phase.on in w.sessions
  {
    var phase, i := w.deliveries[d].phase, w.deliveries[d].invoice;
    var x := w.sessions[phase.on];
    Phased(Set(w, phase.on, x.(pending := x.pending[i := Claim(d, Processed(phase.result))])), d, phase.(updated := true))
  }

  lemma UpdatingDeliveryIsOk(w: World, d: nat)
    requires InTime(w, d) && DeliveryOk(w, d)
    requires w.deliveries[d].phase.Releasing? && w.deliveries[d].phase.on in w.sessions
    ensures DeliveryOk(UpdatedWorld(w, d), d)
  {
  }

  lemma UpdatingSessionIsOk(w: World, d: nat)
    requires InTime(w, d) && w.deliveries[d].phase.Releasing? && w.deliveries[d].phase.on in w.sessions
    requires SessionOk(w, w.deliveries[d].phase.on) && w.sessions[w.deliveries[d].phase.on].inTx
    requires w.deliveries[d].phase.recovering ==> w.deliveries[d].phase.result == UNKNOWN_ERROR
    requires OwnsVisible(w, w.deliveries[d].phase.on, w.deliveries[d].invoice, d)
    ensures SessionOk(UpdatedWorld(w, d), w.deliveries[d].phase.on)
  {
    var s, i, w' := w.deliveries[d].phase.on, w.deliveries[d].invoice, UpdatedWorld(w, d);
    forall j | j in w'.sessions[s].pending ensures ClaimOk(w', j, w'.sessions[s].pending[j]) {
      if j != i { ClaimPersists(w, w', j, w.sessions[s].pending[j]); }
    }
  }

  /** The row is updated inside a transaction another delivery has left open on the session. */
  lemma UpdatedInTx(w: World, d: nat)
    requires InTime(w, d) && DeliveryOk(w, d) && RowsOk(w)
    requires w.deliveries[d].phase.Releasing? && w.deliveries[d].phase.on in w.sessions
    requires SessionOk(w, w.deliveries[d].phase.on) && w.sessions[w.deliveries[d].phase.on].inTx
    requires OwnsVisible(w, w.deliveries[d].phase.on, w.deliveries[d].invoice, d)
    ensures UpdateClaimTx(w, d) == UpdatedWorld(w, d)
    ensures Allowed(w, UpdatedWorld(w, d), d, w.deliveries[d].phase.on)
  {
    UpdatingDeliveryIsOk(w, d);
    UpdatingSessionIsOk(w, d);
    RowsPersist(w, UpdatedWorld(w, d));
    UpdateRespects(w, d);
  }

  lemma UpdateRespects(w: World, d: nat)
    requires InTime(w, d) && w.deliveries[d].phase.Releasing? && w.deliveries[d].phase.on in w.sessions
    requires OwnsVisible(w, w.deliveries[d].phase.on, w.deliveries[d].invoice, d)
    ensures Respects(w, UpdatedWorld(w, d), w.deliveries[d].phase.on)
  {
  }

  lemma UpdatedAtOnce(w: World, d: nat)
    requires InTime(w, d) && DeliveryOk(w, d) && RowsOk(w)
    requires w.deliveries[d].phase.Releasing? && w.deliveries[d].phase.on in w.sessions
    requires SessionOk(w, w.deliveries[d].phase.on) && !w.sessions[w.deliveries[d].phase.on].inTx
    requires OwnsVisible(w, w.deliveries[d].phase.on, w.deliveries[d].invoice, d)
    ensures Allowed(w, UpdateClaimTx(w, d), d, w.deliveries[d].phase.on)
  {
    var phase, i := w.deliveries[d].phase, w.deliveries[d].invoice;
    var s, row, w' := phase.on, Claim(d, Processed(phase.result)), UpdateClaimTx(w, d);
    assert w'.claims == w.claims[i := row] && w'.sessions == w.sessions;
    assert w'.deliveries[d] == w.deliveries[d].(phase := phase.(updated := true));
    forall j | j in w'.claims ensures ClaimOk(w', j, w'.claims[j]) {
      if j != i { ClaimPersists(w, w', j, w.claims[j]); }
    }
    assert DeliveryOk(w', d);
  }

  lemma UpdateClaimKeeps(w: World, d: nat)
    requires Inv(w) && InTime(w, d)
    requires w.deliveries[d].phase.Releasing? && w.deliveries[d].phase.on in w.sessions
    ensures Inv(UpdateClaimTx(w, d))
  {
    var phase := w.deliveries[d].phase;
    assert DeliveryOk(w, d);
    assert SessionOk(w, phase.on);
    if !OwnsVisible(w, phase.on, w.deliveries[d].invoice, d) {
      NothingToUpdate(w, d);
      PhaseKeeps(w, d, phase.(updated := true));
    } else {
      if w.sessions[phase.on].inTx { UpdatedInTx(w, d); } else { UpdatedAtOnce(w, d); }
      StepKeeps(w, UpdateClaimTx(w, d), d, phase.on);
    }
  }

  lemma NothingToUpdate(w: World, d: nat)
    requires InTime(w, d) && DeliveryOk(w, d)
    requires w.deliveries[d].phase.Releasing? && w.deliveries[d].phase.on in w.sessions
    requires !OwnsVisible(w, w.deliveries[d].phase.on, w.deliveries[d].invoice, d)
    ensures UpdateClaimTx(w, d) == Phased(w, d, w.deliveries[d].phase.(updated := true))
    ensures DeliveryOk(UpdateClaimTx(w, d), d)
  {
  }

  lemma UnlockedIsOk(w: World, d: nat)
    requires InTime(w, d) && DeliveryOk(w, d)
    requires w.deliveries[d].phase.Releasing? && w.deliveries[d].phase.on in w.sessions
    ensures DeliveryOk(UnlockTx(w, d), d)
  {
  }

  lemma UnlockEffect(w: World, d: nat)
    requires InTime(w, d) && DeliveryOk(w, d)
    requires w.deliveries[d].phase.Releasing? && w.deliveries[d].phase.on in w.sessions
    ensures Quiet(w, UnlockTx(w, d), d, w.deliveries[d].phase.on)
  {
    UnlockedIsOk(w, d);
  }

  lemma UnlockKeeps(w: World, d: nat)
    requires Inv(w) && InTime(w, d)
    requires w.deliveries[d].phase.Releasing? && w.deliveries[d].phase.on in w.sessions
    ensures Inv(UnlockTx(w, d))
  {
    assert DeliveryOk(w, d);
    UnlockEffect(w, d);
    QuietStepKeeps(w, UnlockTx(w, d), d, w.deliveries[d].phase.on);
  }

  lemma FailWhileReleasing(w: World, d: nat)
    requires InTime(w, d) && DeliveryOk(w, d)
    requires w.deliveries[d].phase.Releasing?
    ensures Quiet(w, FailReleaseTx(w, d), d, w.deliveries[d].phase.on)
  {
    var phase := w.deliveries[d].phase;
    var w' := FailReleaseTx(w, d);
    assert w'.sessions[phase.on] == w.sessions[phase.on].(user := Idle);
    assert w'.deliveries[d].phase == if phase.recovering then Recovered else Abandoned(phase.result);
    assert DeliveryOk(w', d);
  }

  lemma FailBeforeReleasing(w: World, d: nat)
    requires InTime(w, d) && DeliveryOk(w, d)
    requires w.deliveries[d].phase.Leaving? || w.deliveries[d].phase.Recovering?
    ensures var phase := w.deliveries[d].phase;
      FailReleaseTx(w, d) == Phased(w, d, if phase.Leaving? then Abandoned(phase.result) else Recovered)
    ensures DeliveryOk(FailReleaseTx(w, d), d)
  {
  }

  lemma FailReleaseKeeps(w: World, d: nat)
    requires Inv(w) && InTime(w, d)
    ensures Inv(FailReleaseTx(w, d))
  {
    var phase := w.deliveries[d].phase;
    assert DeliveryOk(w, d);
    if phase.Releasing? {
      FailWhileReleasing(w, d);
      QuietStepKeeps(w, FailReleaseTx(w, d), d, phase.on);
    } else if phase.Leaving? || phase.Recovering? {
      FailBeforeReleasing(w, d);
      PhaseKeeps(w, d, if phase.Leaving? then Abandoned(phase.result) else Recovered);
    }
  }

  // ---- The environment ----

  /** Deliveries that rely on a session have it in use. */
  lemma IdleSessionDisturbsNobody(w: World, w': World, s: nat)
    requires DeliveriesOk(w) && Grows(w, w') && w'.deliveries == w.deliveries
    requires s in w.sessions ==> w.sessions[s].user == Idle
    requires forall t | t in w.sessions && t != s :: t in w'.sessions && w'.sessions[t] == w.sessions[t]
    requires s in w.sessions ==> s in w'.sessions
    ensures DeliveriesOk(w')
  {
    forall e | e in w.deliveries ensures Undisturbed(w, w', e) {
      assert SessionKept(w, e);
    }
    DeliveriesPersist(w, w');
  }

  lemma OtherSessionsPersist(w: World, w': World, s: nat)
    requires SessionsOk(w) && Persist(w, w') && Grows(w, w') && w'.claims.Keys == w.claims.Keys
    requires forall t | t in w'.sessions && t != s :: t in w.sessions && w'.sessions[t] == w.sessions[t]
    requires s in w'.sessions ==> SessionOk(w', s)
    ensures SessionsOk(w')
  {
    forall t | t in w'.sessions ensures SessionOk(w', t) {
      if t != s { SessionPersists(w, w', t); }
    }
  }

  /** Locks and pending rows of the sessions are as before, or gone. */
  lemma SmallerPoolStaysExclusive(w: World, w': World)
    requires LocksExclusive(w) && InsertsUnique(w) && w'.claims.Keys == w.claims.Keys
    requires forall t | t in w'.sessions && t in w.sessions ::
      && (w'.sessions[t].locks == w.sessions[t].locks || w'.sessions[t].locks == multiset{})
      && (w'.sessions[t].pending == w.sessions[t].pending || w'.sessions[t].pending == map[])
    requires forall t | t in w'.sessions && t !in w.sessions ::
      w'.sessions[t].locks == multiset{} && w'.sessions[t].pending == map[]
    ensures LocksExclusive(w') && InsertsUnique(w')
  {
  }

  lemma FreshSessionIsOk(w: World, w': World, s: nat)
    requires w' == Set(w, s, OpenedSession()) || w' == Set(w, s, OpenedSession().(open := false))
    ensures SessionOk(w', s) && Persist(w, w') && Grows(w, w')
  {
  }

  lemma SessionChangeKeeps(w: World, w': World, s: nat)
    requires Inv(w) && (s in w.sessions ==> w.sessions[s].user == Idle)
    requires w' == Set(w, s, OpenedSession()) || w' == Set(w, s, OpenedSession().(open := false))
    ensures Inv(w')
  {
    FreshSessionIsOk(w, w', s);
    IdleSessionDisturbsNobody(w, w', s);
    RowsPersist(w, w');
    OtherSessionsPersist(w, w', s);
    SmallerPoolStaysExclusive(w, w');
  }

  lemma ConnectKeepsSession(w: World, d: nat, i: Invoice, c: Contract, s: nat)
    requires d !in w.deliveries && s in w.sessions && SessionOk(w, s)
    requires w.sessions[s].user == Idle && w.sessions[s].open
    ensures SessionOk(ConnectTx(w, d, i, c, s), s)
  {
    var w' := ConnectTx(w, d, i, c, s);
    forall j | j in w'.sessions[s].pending ensures ClaimOk(w', j, w'.sessions[s].pending[j]) {
      ClaimPersists(w, w', j, w.sessions[s].pending[j]);
    }
  }

  lemma ConnectKeepsDeliveries(w: World, d: nat, i: Invoice, c: Contract, s: nat)
    requires DeliveriesOk(w) && d !in w.deliveries
    requires s in w.sessions && w.sessions[s].user == Idle && w.sessions[s].open
    ensures DeliveriesOk(ConnectTx(w, d, i, c, s))
  {
    var w' := ConnectTx(w, d, i, c, s);
    forall e | e in w'.deliveries ensures DeliveryOk(w', e) {
      if e != d {
        assert SessionKept(w, e) && Undisturbed(w, w', e);
        UndisturbedKept(w, w', e);
      }
    }
  }

  lemma ConnectKeepsRows(w: World, d: nat, i: Invoice, c: Contract, s: nat)
    requires SessionsOk(w) && RowsOk(w) && d !in w.deliveries
    requires s in w.sessions && w.sessions[s].user == Idle && w.sessions[s].open
    ensures SessionsOk(ConnectTx(w, d, i, c, s)) && RowsOk(ConnectTx(w, d, i, c, s))
  {
    var w' := ConnectTx(w, d, i, c, s);
    assert SessionOk(w, s);
    ConnectKeepsSession(w, d, i, c, s);
    assert Persist(w, w');
    OtherSessionsPersist(w, w', s);
    RowsPersist(w, w');
  }

  lemma UserChangesNoLock(w: World, s: nat, user: User, inTx: bool)
    requires LocksExclusive(w) && s in w.sessions
    ensures LocksExclusive(Set(w, s, w.sessions[s].(user := user, inTx := inTx)))
  {
  }

  lemma UserChangesNoInsert(w: World, s: nat, user: User, inTx: bool)
    requires InsertsUnique(w) && s in w.sessions
    ensures InsertsUnique(Set(w, s, w.sessions[s].(user := user, inTx := inTx)))
  {
  }

  lemma ConnectKeepsExclusive(w: World, d: nat, i: Invoice, c: Contract, s: nat)
    requires LocksExclusive(w) && InsertsUnique(w) && s in w.sessions
    ensures LocksExclusive(ConnectTx(w, d, i, c, s)) && InsertsUnique(ConnectTx(w, d, i, c, s))
  {
    var w', taken := ConnectTx(w, d, i, c, s), Set(w, s, w.sessions[s].(user := Body(d), inTx := true));
    UserChangesNoLock(w, s, Body(d), true);
    UserChangesNoInsert(w, s, Body(d), true);
    assert w' == w || (w'.sessions == taken.sessions && w'.claims == taken.claims);
  }

  lemma ConnectKeeps(w: World, d: nat, i: Invoice, c: Contract, s: nat)
    requires Inv(w) && d !in w.deliveries
    requires s in w.sessions && w.sessions[s].user == Idle && w.sessions[s].open
    ensures Inv(ConnectTx(w, d, i, c, s))
  {
    ConnectKeepsDeliveries(w, d, i, c, s);
    ConnectKeepsRows(w, d, i, c, s);
    ConnectKeepsExclusive(w, d, i, c, s);
  }

  lemma LedgerMoveKeeps(w: World, c: Contract)
    requires Inv(w) && c !in w.ledger
    ensures Inv(w.(ledger := w.ledger[c := Elsewhere]))
  {
    var w' := w.(ledger := w.ledger[c := Elsewhere]);
    NothingDisturbed(w, w');
    RowsPersist(w, w');
    SmallerPoolStaysExclusive(w, w');
  }

  function Stale(w: World, i: Invoice): World
    requires i in w.claims
  {
    w.(claims := w.claims[i := w.claims[i].(status := Processed(UNKNOWN_ERROR))])
  }

  lemma CleanupKeepsRows(w: World, i: Invoice)
    requires RowsOk(w) && i in w.claims
    ensures RowsOk(Stale(w, i))
  {
    var w' := Stale(w, i);
    forall j | j in w'.claims ensures ClaimOk(w', j, w'.claims[j]) {
      ClaimPersists(w, w', j, w.claims[j]);
    }
  }

  lemma CleanupKeepsOwners(w: World, i: Invoice)
    requires i in w.claims
    ensures Grows(w, Stale(w, i)) && Stale(w, i).claims.Keys == w.claims.Keys
  {
  }

  lemma CleanupKeeps(w: World, i: Invoice)
    requires Inv(w) && i in w.claims
    ensures Inv(Stale(w, i))
  {
    CleanupKeepsOwners(w, i);
    CleanupKeepsRows(w, i);
    NothingDisturbed(w, Stale(w, i));
    SmallerPoolStaysExclusive(w, Stale(w, i));
  }

  lemma NothingDisturbed(w: World, w': World)
    requires DeliveriesOk(w) && SessionsOk(w) && Grows(w, w')
    requires w'.deliveries == w.deliveries && w'.sessions == w.sessions && w'.claims.Keys == w.claims.Keys
    ensures DeliveriesOk(w') && SessionsOk(w')
  {
    forall e | e in w.deliveries ensures Undisturbed(w, w', e) {
      assert SessionKept(w, e);
    }
    DeliveriesPersist(w, w');
    forall t | t in w'.sessions ensures SessionOk(w', t) {
      SessionPersists(w, w', t);
    }
  }

  lemma EnvironmentStepKeeps(w: World, step: Step)
    requires Inv(w)
    ensures Inv(EnvironmentStep(w, step))
  {
    var w' := EnvironmentStep(w, step);
    if w' != w {
      match step
      case OpenSession(s) => SessionChangeKeeps(w, w', s);
      case CloseIdle(s) => SessionChangeKeeps(w, w', s);
      case Connect(d, i, c, s) => ConnectKeeps(w, d, i, c, s);
      case LedgerMoves(c) => LedgerMoveKeeps(w, c);
      case Cleanup(i) => CleanupKeeps(w, i);
      case _ =>
    }
  }

  lemma ReleaseStepKeeps(w: World, d: nat, step: Step)
    requires Inv(w) && InTime(w, d) && w.deliveries[d].phase.Releasing? && w.deliveries[d].phase.on in w.sessions
    requires step.UpdateClaim? || step.Unlock?
    ensures Inv(FinalizerStep(w, d, step))
  {
    if step.UpdateClaim? && !w.deliveries[d].phase.updated {
      UpdateClaimKeeps(w, d);
    } else if step.Unlock? && w.deliveries[d].phase.updated {
      UnlockKeeps(w, d);
    }
  }

  lemma FinalizerStepKeeps(w: World, d: nat, step: Step)
    requires Inv(w) && InTime(w, d)
    ensures Inv(FinalizerStep(w, d, step))
  {
    if step.TakeSession? {
      TakeSessionKeeps(w, d, step.session);
    } else if step.FailRelease? {
      FailReleaseKeeps(w, d);
    } else if step.UpdateClaim? || step.Unlock? {
      if w.deliveries[d].phase.Releasing? && w.deliveries[d].phase.on in w.sessions { ReleaseStepKeeps(w, d, step); }
    }
  }

  lemma NextKeeps(w: World, step: Step)
    requires Inv(w)
    ensures Inv(Next(w, step))
  {
    if IsEnvironmentStep(step) {
      EnvironmentStepKeeps(w, step);
    } else if InTime(w, step.delivery) {
      if IsFinalizerStep(step) {
        FinalizerStepKeeps(w, step.delivery, step);
      } else {
        BodyStepKeeps(w, step.delivery, step);
      }
    }
  }

  lemma {:induction false} RunKeeps(w: World, steps: seq<Step>)
    requires Inv(w)
    ensures Inv(Run(w, steps))
    decreases |steps|
  {
    if |steps| > 0 {
      NextKeeps(w, steps[0]);
      RunKeeps(Next(w, steps[0]), steps[1..]);
    }
  }

  lemma ReachableSatisfiesInv(w: World)
    requires Reachable(w)
    ensures Inv(w)
  {
    var steps :| Run(Initial(), steps) == w;
    RunKeeps(Initial(), steps);
  }
}
