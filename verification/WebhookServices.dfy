/**
 * The webhook classes in their own form, run without interference: what one delivery does step by step is a run
 * of the interleaved protocol, and its answer is decided by the database and ledger it finds.
 */
module WebhookServices {
  import opened Common
  import opened LockKey
  import opened WebhookSystem
  import opened WebhookInvariant
  import opened WebhookPreservation
  import opened WebhookTheorems

  class WebhookDatabase {
    var world: World

    constructor ()
      ensures world == Initial()
    {
      world := Initial();
    }
  }

  /** The lock would be granted and no row for the invoice is visible or on its way. */
  ghost predicate Free(w: World, s: nat, i: Invoice)
    requires s in w.sessions
  {
    !HeldElsewhere(w, s, Key(i)) && Visible(w, s, i).None? && !InsertBlocked(w, s, i)
  }

  function Answered(w: World, d: nat): World
    requires InTime(w, d)
  {
    Phased(GiveBack(w, w.deliveries[d].session), d, Dangling(DUPLICATE, false))
  }

  function WithLock(w: World, d: nat, phase: Phase): World
    requires InTime(w, d)
  {
    var s := w.deliveries[d].session;
    Phased(Set(w, s, w.sessions[s].(locks := w.sessions[s].locks + multiset{KeyOf(w, d)})), d, phase)
  }

  lemma AcquireRefused(w: World, d: nat)
    requires InTime(w, d) && w.deliveries[d].phase.Begun?
    requires HeldElsewhere(w, w.deliveries[d].session, KeyOf(w, d))
    ensures Acquired(w, d) == Answered(w, d)
  {
    assert Next(w, TryLock(d)) == Answered(w, d);
  }

  lemma AcquireSeen(w: World, d: nat)
    requires InTime(w, d) && w.deliveries[d].phase.Begun?
    requires !HeldElsewhere(w, w.deliveries[d].session, KeyOf(w, d))
    requires Visible(w, w.deliveries[d].session, w.deliveries[d].invoice).Some?
    ensures Acquired(w, d) == Answered(w, d)
  {
    SeenAfterLock(w, d);
    assert Next(w, TryLock(d)) == WithLock(w, d, Locked);
    assert Next(WithLock(w, d, Locked), CheckClaim(d)) == CheckClaimTx(WithLock(w, d, Locked), d);
    assert Next(Answered(w, d), InsertClaim(d)) == Answered(w, d);
  }

  /** The lock is given back with the session: nothing remains of the attempt. */
  lemma SeenAfterLock(w: World, d: nat)
    requires InTime(w, d) && Visible(w, w.deliveries[d].session, w.deliveries[d].invoice).Some?
    ensures CheckClaimTx(WithLock(w, d, Locked), d) == Answered(w, d)
  {
    var s, key := w.deliveries[d].session, KeyOf(w, d);
    assert w.sessions[s].locks + multiset{key} - multiset{key} == w.sessions[s].locks;
    assert CheckClaimTx(WithLock(w, d, Locked), d).sessions == Answered(w, d).sessions;
  }

  lemma AcquireUnseen(w: World, d: nat)
    requires InTime(w, d) && w.deliveries[d].phase.Begun?
    requires !HeldElsewhere(w, w.deliveries[d].session, KeyOf(w, d))
    requires Visible(w, w.deliveries[d].session, w.deliveries[d].invoice).None?
    ensures Acquired(w, d) == InsertClaimTx(WithLock(w, d, Unclaimed), d)
  {
    var w1 := Next(w, TryLock(d));
    assert w1 == WithLock(w, d, Locked);
    var w2 := Next(w1, CheckClaim(d));
    assert w2 == WithLock(w, d, Unclaimed);
  }

  lemma InsertAfterLock(w: World, d: nat)
    requires InTime(w, d) && Visible(w, w.deliveries[d].session, w.deliveries[d].invoice).None?
    ensures var s, i, u := w.deliveries[d].session, w.deliveries[d].invoice, WithLock(w, d, Unclaimed);
      InsertClaimTx(u, d) ==
        if InsertBlocked(w, s, i) then u else Phased(WriteClaim(u, s, i, Claim(d, PROCESSING)), d, Claimed)
  {
    var s, i, u := w.deliveries[d].session, w.deliveries[d].invoice, WithLock(w, d, Unclaimed);
    assert forall t | t in w.sessions && t != s :: u.sessions[t] == w.sessions[t];
    assert InsertBlocked(u, s, i) <==> InsertBlocked(w, s, i);
  }

  /** Acquiring leaves ledger and other sessions alone, and the transaction open if it was. */
  ghost predicate AcquireOutcome(w: World, w': World, d: nat, acquired: bool)
    requires InTime(w, d)
  {
    var s := w.deliveries[d].session;
    && d in w'.deliveries
    && var phase := w'.deliveries[d].phase;
    && w'.deliveries == w.deliveries[d := w.deliveries[d].(phase := phase)]
    && (if acquired then phase == Claimed else phase == Unclaimed || phase == Dangling(DUPLICATE, false))
    && w'.ledger == w.ledger && w'.sessions.Keys == w.sessions.Keys
    && (forall t | t in w.sessions && t != s :: w'.sessions[t] == w.sessions[t])
    && w'.sessions[s].open == w.sessions[s].open && w'.sessions[s].inTx == w.sessions[s].inTx
    && InTime(w', d)
    && (phase.Dangling? ==> w'.sessions[s].user == Idle)
    && (acquired && w.sessions[s].inTx ==> ClaimsInTx(w', d))
  }

  /** The delivery's claim is pending in its own transaction, and nowhere else. */
  ghost predicate ClaimsInTx(w: World, d: nat)
    requires InTime(w, d)
  {
    var s, i := w.deliveries[d].session, w.deliveries[d].invoice;
    && w.sessions[s].inTx && i in w.sessions[s].pending && w.sessions[s].pending[i] == Claim(d, PROCESSING)
    && (forall t | t in w.sessions && t != s :: i !in w.sessions[t].pending)
  }

  lemma AnsweredOutcome(w: World, d: nat)
    requires InTime(w, d)
    ensures AcquireOutcome(w, Answered(w, d), d, false)
  {
  }

  lemma GrantedOutcome(w: World, d: nat)
    requires InTime(w, d) && Visible(w, w.deliveries[d].session, w.deliveries[d].invoice).None?
    ensures var s, i := w.deliveries[d].session, w.deliveries[d].invoice;
      AcquireOutcome(w, InsertClaimTx(WithLock(w, d, Unclaimed), d), d, !InsertBlocked(w, s, i))
  {
    InsertAfterLock(w, d);
  }

  lemma AcquireDecides(w: World, d: nat)
    requires InTime(w, d) && w.deliveries[d].phase.Begun?
    ensures AcquireOutcome(w, Acquired(w, d), d, Free(w, w.deliveries[d].session, w.deliveries[d].invoice))
  {
    var s, i := w.deliveries[d].session, w.deliveries[d].invoice;
    AnsweredOutcome(w, d);
    if HeldElsewhere(w, s, KeyOf(w, d)) {
      AcquireRefused(w, d);
    } else if Visible(w, s, i).Some? {
      AcquireSeen(w, d);
    } else {
      AcquireUnseen(w, d);
      GrantedOutcome(w, d);
    }
  }

  class IdempotencyGuard {
    const db: WebhookDatabase

    constructor (db: WebhookDatabase)
      ensures this.db == db
    {
      this.db := db;
    }

    /** Not blocked, that is; an insert that another transaction holds up leaves the delivery waiting, unclaimed. */
    method AcquireProcessingLock(d: nat) returns (acquired: bool)
      requires InTime(db.world, d) && db.world.deliveries[d].phase.Begun?
      modifies db
      ensures db.world == Acquired(old(db.world), d)
      ensures acquired <==> Free(old(db.world), old(db.world).deliveries[d].session, old(db.world).deliveries[d].invoice)
      ensures InTime(db.world, d)
      ensures AcquireOutcome(old(db.world), db.world, d, acquired)
    {
      var w := db.world;
      var s, i := w.deliveries[d].session, w.deliveries[d].invoice;
      var x := w.sessions[s];
      var key := GenerateLockKey(i);
      AcquireDecides(w, d);
      if exists t :: t in w.sessions && t != s && key in w.sessions[t].locks {
        AcquireRefused(w, d);
        db.world := Answered(w, d);
        return false;
      }
      if i in x.pending || i in w.claims {
        AcquireSeen(w, d);
        db.world := Answered(w, d);
        return false;
      }
      AcquireUnseen(w, d);
      InsertAfterLock(w, d);
      db.world := Phased(Set(w, s, x.(locks := x.locks + multiset{key})), d, Unclaimed);
      if i !in w.claims && exists t :: t in w.sessions && t != s && i in w.sessions[t].pending {
        return false;
      }
      db.world := Phased(WriteClaim(db.world, s, i, Claim(d, PROCESSING)), d, Claimed);
      acquired := true;
    }

    /**
     * From the finalizer, or from the catch block while the delivery still has its own session. Whatever session
     * the pool hands out: a row it does not see is not updated, a key it does not hold stays.
     */
    method ReleaseProcessingLock(d: nat, t: nat)
      requires InTime(db.world, d) && OwesRelease(db.world.deliveries[d].phase)
      requires Handed(db.world, t)
      modifies db
      ensures db.world == Released(old(db.world), d, t)
      ensures AfterRelease(old(db.world), db.world, d)
    {
      var i, phase := db.world.deliveries[d].invoice, db.world.deliveries[d].phase;
      ReleaseSteps(db.world, d, t);
      ReleaseKeepsOwners(db.world, d, t);
      db.world := TakeSessionTx(db.world, d, t);
      var row := Visible(db.world, t, i);
      if row.Some? && row.value.owner == d {
        db.world := WriteClaim(db.world, t, i, Claim(d, Processed(ResultOf(phase))));
      }
      db.world := Phased(db.world, d, Releasing(ResultOf(phase), t, true, phase.Recovering?));
      db.world := UnlockTx(db.world, d);
    }
  }

  predicate OwesRelease(phase: Phase) {
    phase.Leaving? || phase.Recovering?
  }

  /** The result a release stores: the body's, or UNKNOWN_ERROR after an exception. */
  function ResultOf(phase: Phase): WebhookResult
    requires OwesRelease(phase)
  {
    if phase.Leaving? then phase.result else UNKNOWN_ERROR
  }

  /** The lock id has been given back for good: only the last COMMIT, or the end of the catch block, is left. */
  ghost predicate AfterRelease(w: World, w': World, d: nat)
    requires InTime(w, d) && OwesRelease(w.deliveries[d].phase)
  {
    var phase := w.deliveries[d].phase;
    && w'.deliveries == w.deliveries[d := w.deliveries[d].(
         phase := if phase.Leaving? then Dangling(phase.result, true) else Recovered)]
    && w'.sessions.Keys == w.sessions.Keys
    && w'.ledger == w.ledger && w'.fundedRows == w.fundedRows
    && (forall i | i in w.claims :: i in w'.claims && w'.claims[i].owner == w.claims[i].owner)
  }

  /** The pool can hand out t once d has given its own session back. */
  predicate HandedAfter(w: World, d: nat, t: nat)
    requires InTime(w, d)
  {
    var s := w.deliveries[d].session;
    if t == s then w.sessions[s].open && w.sessions[s].inTx else Handed(w, t)
  }

  predicate Handed(w: World, t: nat) {
    && t in w.sessions && w.sessions[t].user == Idle && w.sessions[t].open
    && (!w.sessions[t].inTx ==> w.sessions[t].pending == map[])
  }

  lemma UpdateKeepsOwners(w: World, d: nat)
    requires InTime(w, d) && w.deliveries[d].phase.Releasing? && w.deliveries[d].phase.on in w.sessions
    requires !w.sessions[w.deliveries[d].phase.on].inTx ==> w.sessions[w.deliveries[d].phase.on].pending == map[]
    ensures var w' := UpdateClaimTx(w, d);
      && w'.deliveries == w.deliveries[d := w.deliveries[d].(phase := w.deliveries[d].phase.(updated := true))]
      && w'.sessions.Keys == w.sessions.Keys
      && w'.ledger == w.ledger && w'.fundedRows == w.fundedRows
      && (forall i | i in w.claims :: i in w'.claims && w'.claims[i].owner == w.claims[i].owner)
  {
  }

  lemma TakenFromPool(w: World, d: nat, t: nat)
    requires InTime(w, d) && OwesRelease(w.deliveries[d].phase) && Handed(w, t)
    ensures var phase, taken := w.deliveries[d].phase, TakeSessionTx(w, d, t);
      && taken == Phased(Set(w, t, w.sessions[t].(user := Finalizer(d))), d, Releasing(ResultOf(phase), t, false, phase.Recovering?))
      && Next(w, TakeSession(d, t)) == taken
  {
  }

  lemma ReleaseSteps(w: World, d: nat, t: nat)
    requires InTime(w, d) && OwesRelease(w.deliveries[d].phase) && Handed(w, t)
    ensures var phase, taken := w.deliveries[d].phase, TakeSessionTx(w, d, t);
      && taken == Phased(Set(w, t, w.sessions[t].(user := Finalizer(d))), d, Releasing(ResultOf(phase), t, false, phase.Recovering?))
      && UpdateClaimTx(taken, d).deliveries[d].phase == Releasing(ResultOf(phase), t, true, phase.Recovering?)
      && t in UpdateClaimTx(taken, d).sessions
      && Released(w, d, t) == UnlockTx(UpdateClaimTx(taken, d), d)
  {
    TakenFromPool(w, d, t);
    var taken := TakeSessionTx(w, d, t);
    UpdateKeepsOwners(taken, d);
    ReleaseIsNext(taken, d);
  }

  lemma ReleaseIsNext(taken: World, d: nat)
    requires InTime(taken, d) && taken.deliveries[d].phase.Releasing? && !taken.deliveries[d].phase.updated
    requires taken.deliveries[d].phase.on in taken.sessions
    requires var updated := UpdateClaimTx(taken, d);
      InTime(updated, d) && updated.deliveries[d].phase == taken.deliveries[d].phase.(updated := true)
      && taken.deliveries[d].phase.on in updated.sessions
    ensures Next(Next(taken, UpdateClaim(d)), Unlock(d)) == UnlockTx(UpdateClaimTx(taken, d), d)
  {
    assert Next(taken, UpdateClaim(d)) == UpdateClaimTx(taken, d);
  }

  lemma ReleaseKeepsOwners(w: World, d: nat, t: nat)
    requires InTime(w, d) && OwesRelease(w.deliveries[d].phase) && Handed(w, t)
    ensures AfterRelease(w, Released(w, d, t), d)
  {
    TakenFromPool(w, d, t);
    ReleaseSteps(w, d, t);
    UpdateKeepsOwners(TakeSessionTx(w, d, t), d);
  }

  /** The committed claim of d, and what session t has pending for its invoice, if anything, is d's too. */
  ghost predicate ClaimAt(w: World, d: nat, t: nat)
    requires d in w.deliveries && t in w.sessions
  {
    var i := w.deliveries[d].invoice;
    OwnsClaim(w, i, d) && (i in w.sessions[t].pending ==> w.sessions[t].pending[i].owner == d)
  }

  /** What a release stores for a committed claim: at once, or pending in a transaction left open on the session. */
  ghost predicate ResultStored(w: World, w': World, d: nat, t: nat)
    requires InTime(w, d) && OwesRelease(w.deliveries[d].phase) && t in w.sessions && w.deliveries[d].invoice in w.claims
  {
    var i, stored := w.deliveries[d].invoice, Claim(d, Processed(ResultOf(w.deliveries[d].phase)));
    if w.sessions[t].inTx then
      w'.claims == w.claims && t in w'.sessions && i in w'.sessions[t].pending && w'.sessions[t].pending[i] == stored
    else
      w'.claims == w.claims[i := stored]
  }

  lemma UpdateStores(w: World, d: nat, t: nat)
    requires InTime(w, d) && OwesRelease(w.deliveries[d].phase) && Handed(w, t) && ClaimAt(w, d, t)
    requires InTime(TakeSessionTx(w, d, t), d)
    requires TakeSessionTx(w, d, t) == Phased(Set(w, t, w.sessions[t].(user := Finalizer(d))), d,
      Releasing(ResultOf(w.deliveries[d].phase), t, false, w.deliveries[d].phase.Recovering?))
    ensures ResultStored(w, UpdateClaimTx(TakeSessionTx(w, d, t), d), d, t)
  {
  }

  lemma ReleaseStores(w: World, d: nat, t: nat)
    requires InTime(w, d) && OwesRelease(w.deliveries[d].phase) && Handed(w, t) && ClaimAt(w, d, t)
    ensures ResultStored(w, Released(w, d, t), d, t)
  {
    TakenFromPool(w, d, t);
    ReleaseSteps(w, d, t);
    UpdateStores(w, d, t);
  }

  /**
   * In every reachable world: releasing a committed claim, whoever calls it, on an idle session stores the result in
   * the claim row at once, exactly if no transaction was left open on that session; otherwise it waits there.
   */
  lemma CommittedClaimGetsItsResult(w: World, d: nat, t: nat)
    requires Reachable(w) && InTime(w, d) && OwesRelease(w.deliveries[d].phase)
    requires OwnsClaim(w, w.deliveries[d].invoice, d)
    requires t in w.sessions && w.sessions[t].user == Idle && w.sessions[t].open
    ensures var i, w' := w.deliveries[d].invoice, Released(w, d, t);
      var result := if w.deliveries[d].phase.Leaving? then w.deliveries[d].phase.result else UNKNOWN_ERROR;
      && i in w'.claims && t in w'.sessions
      && (!w.sessions[t].inTx ==> w'.claims == w.claims[i := Claim(d, Processed(result))])
      && (w.sessions[t].inTx ==>
            && w'.claims == w.claims
            && i in w'.sessions[t].pending && w'.sessions[t].pending[i] == Claim(d, Processed(result)))
  {
    ReachableSatisfiesInv(w);
    SessionFits(w, t, d);
    ReleaseStores(w, d, t);
    ReleaseKeepsOwners(w, d, t);
  }

  lemma SessionFits(w: World, t: nat, d: nat)
    requires SessionsOk(w) && InTime(w, d) && t in w.sessions && OwnsClaim(w, w.deliveries[d].invoice, d)
    requires w.sessions[t].user == Idle && w.sessions[t].open
    ensures Handed(w, t) && ClaimAt(w, d, t)
  {
    assert SessionOk(w, t);
  }

  /** One step taken in a reachable world. */
  ghost predicate Follows(w: World, w': World) {
    Reachable(w) ==> Reachable(w')
  }

  lemma OneStepFollows(w: World, step: Step)
    ensures Follows(w, Next(w, step))
  {
    if Reachable(w) { ReachableNext(w, step); }
  }

  lemma AcquiredFollows(w: World, d: nat)
    ensures Follows(w, Acquired(w, d))
  {
    if Reachable(w) { AcquiredIsReachable(w, d); }
  }

  lemma ReleasedFollows(w: World, d: nat, t: nat)
    ensures Follows(w, Released(w, d, t))
  {
    OneStepFollows(w, TakeSession(d, t));
    OneStepFollows(Next(w, TakeSession(d, t)), UpdateClaim(d));
    OneStepFollows(Next(Next(w, TakeSession(d, t)), UpdateClaim(d)), Unlock(d));
  }

  /** Where something the body calls may throw. What markFunded itself throws is caught and counts as unconfirmed. */
  datatype Fault = TimestampThrows | ValidationThrows | WaitThrows | StoreThrows

  /** What the body asks of others: its checks, the ledger's confirmation, and what throws, if anything. */
  datatype Answers = Answers(
    timestampValid: bool, contractFound: bool, rejection: Option<WebhookResult>, confirmed: bool, fault: Option<Fault>)

  /** Everything the body asks after the lock is in its favour, up to the funding. */
  predicate Funds(w: World, c: Contract, a: Answers) {
    a.rejection.None? && c !in w.ledger && a.confirmed
    && (a.fault.Some? ==> a.fault.value !in {TimestampThrows, ValidationThrows, WaitThrows})
  }

  predicate CanAnswer(a: Answers) {
    a.rejection.Some? ==> a.rejection.value in {INVALID_AMOUNT, INVALID_STATE, CONTRACT_NOT_FOUND}
  }

  /** The payment is on the ledger and in the database, and the session back in the pool. */
  ghost predicate Stored(w: World, w': World, d: nat)
    requires InTime(w, d)
  {
    var c, s := w.deliveries[d].contract, w.deliveries[d].session;
    && w'.deliveries == w.deliveries[d := w.deliveries[d].(phase := Leaving(SUCCESS))]
    && w'.ledger == w.ledger[c := MarkFunded(d)]
    && w'.fundedRows == w.fundedRows + w.sessions[s].funded + {c}
    && w'.claims == w.claims + w.sessions[s].pending
    && w'.sessions == w.sessions[s := w.sessions[s].(user := Idle, inTx := false, pending := map[], funded := {})]
  }

  lemma StoreEffect(w: World, d: nat)
    requires InTime(w, d) && w.deliveries[d].phase.Ready? && w.deliveries[d].contract !in w.ledger
    requires w.sessions[w.deliveries[d].session].inTx
    ensures var s := w.deliveries[d].session;
      Stored(w, Phased(GiveBack(CommitOn(WriteTx(FundTx(w, d), d), s), s), d, Leaving(SUCCESS)), d)
  {
  }

  lemma FundIsNext(w: World, d: nat)
    requires InTime(w, d) && w.deliveries[d].phase.Ready? && w.deliveries[d].contract !in w.ledger
    ensures Next(w, Fund(d)) == FundTx(w, d)
    ensures FundTx(w, d).sessions == w.sessions
    ensures FundTx(w, d).deliveries == w.deliveries[d := w.deliveries[d].(phase := Confirmed)]
  {
  }

  lemma WriteIsNext(w: World, d: nat)
    requires InTime(w, d) && w.deliveries[d].phase.Confirmed?
    ensures Next(w, Write(d)) == WriteTx(w, d)
    ensures WriteTx(w, d).sessions.Keys == w.sessions.Keys
    ensures WriteTx(w, d).deliveries == w.deliveries[d := w.deliveries[d].(phase := Written)]
  {
  }

  function CommitAndLeave(w: World, d: nat): World
    requires InTime(w, d)
  {
    var s := w.deliveries[d].session;
    Phased(GiveBack(CommitOn(w, s), s), d, Leaving(SUCCESS))
  }

  lemma CommitAndLeaveIsNext(w: World, d: nat)
    requires InTime(w, d) && w.deliveries[d].phase.Written?
    ensures Next(Next(w, Commit(d)), Succeed(d)) == CommitAndLeave(w, d)
  {
    var w' := Phased(CommitOn(w, w.deliveries[d].session), d, Committed);
    assert Next(w, Commit(d)) == w';
    assert Next(w', Succeed(d)) == Phased(GiveBack(w', w.deliveries[d].session), d, Leaving(SUCCESS));
  }

  lemma StoreFollows(w: World, d: nat)
    requires InTime(w, d) && w.deliveries[d].phase.Ready? && w.deliveries[d].contract !in w.ledger
    ensures InTime(FundTx(w, d), d) && InTime(WriteTx(FundTx(w, d), d), d)
    ensures Follows(w, CommitAndLeave(WriteTx(FundTx(w, d), d), d))
  {
    var w1 := FundTx(w, d);
    FundIsNext(w, d);
    OneStepFollows(w, Fund(d));
    var w2 := WriteTx(w1, d);
    WriteIsNext(w1, d);
    OneStepFollows(w1, Write(d));
    CommitAndLeaveIsNext(w2, d);
    OneStepFollows(w2, Commit(d));
    OneStepFollows(Next(w2, Commit(d)), Succeed(d));
  }

  /** With nothing pending on the delivery's own session, the last COMMIT adds no row to what the release has stored. */
  lemma FinalizerClaims(w: World, d: nat, t: nat)
    requires InTime(w, d) && Handed(w, t)
    ensures var s, i := w.deliveries[d].session, w.deliveries[d].invoice;
      w.deliveries[d].phase.Leaving? && !w.sessions[s].inTx && w.sessions[s].pending == map[] && OwnsClaim(w, i, d)
        && i !in w.sessions[t].pending ==>
          && s in Released(w, d, t).sessions
          && CommitOn(Released(w, d, t), s).claims == if w.sessions[t].inTx then w.claims
               else w.claims[i := Claim(d, Processed(w.deliveries[d].phase.result))]
  {
    var s := w.deliveries[d].session;
    if w.deliveries[d].phase.Leaving? && !w.sessions[s].inTx && w.sessions[s].pending == map[]
      && OwnsClaim(w, w.deliveries[d].invoice, d) && w.deliveries[d].invoice !in w.sessions[t].pending {
      ReleaseStores(w, d, t);
      ReleaseKeepsOwners(w, d, t);
      OwnSessionStaysEmpty(w, d, t);
    }
  }

  lemma OwnSessionStaysEmpty(w: World, d: nat, t: nat)
    requires InTime(w, d) && OwesRelease(w.deliveries[d].phase) && Handed(w, t)
    requires !w.sessions[w.deliveries[d].session].inTx && w.sessions[w.deliveries[d].session].pending == map[]
    ensures var s := w.deliveries[d].session; s in Released(w, d, t).sessions && Released(w, d, t).sessions[s].pending == map[]
  {
    TakenFromPool(w, d, t);
    ReleaseSteps(w, d, t);
  }

  lemma FinalCommitFollows(w: World, d: nat)
    requires InTime(w, d) && w.deliveries[d].phase.Dangling?
    ensures Follows(w, Phased(CommitOn(w, w.deliveries[d].session), d, Done(w.deliveries[d].phase.result)))
  {
    OneStepFollows(w, FinalCommit(d));
  }

  lemma ValidateFollows(w: World, d: nat)
    requires InTime(w, d) && w.deliveries[d].phase.Claimed? && w.deliveries[d].contract !in w.ledger
    ensures Follows(w, Phased(w, d, Ready))
  {
    OneStepFollows(w, Validate(d));
  }

  lemma ThrownIsRecovering(w: World, d: nat)
    requires InTime(w, d)
    ensures var w', phase := ThrowTx(w, d), if HasClaimed(w.deliveries[d].phase) then Recovering else Recovered;
      && w'.deliveries == w.deliveries[d := w.deliveries[d].(phase := phase)]
      && w'.ledger == w.ledger && w'.sessions.Keys == w.sessions.Keys
      && (forall t | t in w.sessions && t != w.deliveries[d].session :: w'.sessions[t] == w.sessions[t])
  {
  }

  lemma ThrowFollows(w: World, d: nat)
    requires InTime(w, d) && InBody(w.deliveries[d].phase)
    ensures Follows(w, ThrowTx(w, d))
  {
    OneStepFollows(w, Throw(d));
  }

  lemma FailFollows(w: World, d: nat)
    requires InTime(w, d) && w.deliveries[d].phase.Recovering?
    ensures Follows(w, Phased(w, d, Recovered))
  {
    OneStepFollows(w, FailRelease(d));
  }

  lemma RecoveryFollows(w: World, d: nat)
    requires InTime(w, d) && w.deliveries[d].phase.Recovered?
    ensures Follows(w, Phased(GiveBack(w, w.deliveries[d].session), d, Done(UNKNOWN_ERROR)))
  {
    OneStepFollows(w, EndRecovery(d));
  }

  /** The claim row of a success says so, unless a transaction was left open on the session the pool handed out. */
  ghost predicate StoredClaim(w: World, w': World, d: nat, t: nat)
    requires InTime(w, d) && t in w.sessions
  {
    var i, s := w.deliveries[d].invoice, w.deliveries[d].session;
    && i in w'.claims
    && w'.claims[i] == Claim(d, if t != s && w.sessions[t].inTx then PROCESSING else Processed(SUCCESS))
  }

  lemma ConnectKeepsFree(w: World, d: nat, i: Invoice, c: Contract, s: nat)
    requires d !in w.deliveries && Handed(w, s)
    ensures Free(ConnectTx(w, d, i, c, s), s, i) <==> Free(w, s, i)
  {
    var w' := ConnectTx(w, d, i, c, s);
    assert forall t :: t in w'.sessions <==> t in w.sessions;
    assert forall t | t in w.sessions && t != s :: w'.sessions[t] == w.sessions[t];
    assert HeldElsewhere(w', s, Key(i)) <==> HeldElsewhere(w, s, Key(i));
    assert InsertBlocked(w', s, i) <==> InsertBlocked(w, s, i);
  }

  class XenditService {
    const db: WebhookDatabase
    const idempotencyGuard: IdempotencyGuard

    constructor (db: WebhookDatabase)
      ensures this.db == db && idempotencyGuard.db == db
    {
      this.db := db;
      idempotencyGuard := new IdempotencyGuard(db);
    }

    /** A return before the claim, or after it: the session goes back to the pool at once. */
    method Return(d: nat, result: WebhookResult)
      requires InTime(db.world, d)
      requires
        || (db.world.deliveries[d].phase.Begun? && result in {INVALID_TIMESTAMP, CONTRACT_NOT_FOUND})
        || CanReject(db.world.deliveries[d].phase, result)
        || (db.world.deliveries[d].phase.Committed? && result == SUCCESS)
      modifies db
      ensures var w := old(db.world);
        db.world == Phased(GiveBack(w, w.deliveries[d].session), d,
                           if w.deliveries[d].phase.Begun? then Dangling(result, false) else Leaving(result))
      ensures Follows(old(db.world), db.world)
    {
      var phase := db.world.deliveries[d].phase;
      OneStepFollows(db.world, if phase.Begun? then RefuseEarly(d, result) else if phase.Committed? then Succeed(d) else Reject(d, result));
      db.world := GiveBack(db.world, db.world.deliveries[d].session);
      db.world := Phased(db.world, d, if phase.Begun? then Dangling(result, false) else Leaving(result));
    }

    /** From the ledger's confirmation to the end of the body. */
    method StorePayment(d: nat)
      requires InTime(db.world, d) && db.world.deliveries[d].phase.Ready?
      requires db.world.deliveries[d].contract !in db.world.ledger
      requires db.world.sessions[db.world.deliveries[d].session].inTx
      modifies db
      ensures InTime(db.world, d)
      ensures Stored(old(db.world), db.world, d)
      ensures Follows(old(db.world), db.world)
    {
      var s := db.world.deliveries[d].session;
      StoreEffect(db.world, d);
      StoreFollows(db.world, d);
      db.world := FundTx(db.world, d);
      db.world := WriteTx(db.world, d);
      db.world := CommitOn(db.world, s);
      db.world := Phased(GiveBack(db.world, s), d, Leaving(SUCCESS));
    }

    /** Unawaited by the body; alone, it still ends with the result the body has chosen. */
    method FinalizeProcessing(d: nat, t: nat)
      requires idempotencyGuard.db == db && InTime(db.world, d) && Handed(db.world, t)
      requires db.world.deliveries[d].phase.Leaving? || db.world.deliveries[d].phase.Dangling?
      modifies db
      ensures var w, w', result := old(db.world), db.world, old(db.world).deliveries[d].phase.result;
        && w'.deliveries == w.deliveries[d := w.deliveries[d].(phase := Done(result))]
        && w'.ledger == w.ledger && w.fundedRows <= w'.fundedRows
      ensures var w, s := old(db.world), old(db.world).deliveries[d].session;
        w.deliveries[d].phase.Leaving? && !w.sessions[s].inTx && w.sessions[s].pending == map[] && OwnsClaim(w, w.deliveries[d].invoice, d)
          && w.deliveries[d].invoice !in w.sessions[t].pending ==>
            db.world.claims == if w.sessions[t].inTx then w.claims
              else w.claims[w.deliveries[d].invoice := Claim(d, Processed(w.deliveries[d].phase.result))]
      ensures Follows(old(db.world), db.world)
    {
      var phase := db.world.deliveries[d].phase;
      FinalizerClaims(db.world, d, t);
      if phase.Leaving? {
        ReleasedFollows(db.world, d, t);
        idempotencyGuard.ReleaseProcessingLock(d, t);
      }
      FinalCommitFollows(db.world, d);
      db.world := Phased(CommitOn(db.world, db.world.deliveries[d].session), d, Done(phase.result));
    }

    /** return this.finalizeProcessing(...), with nobody in between. */
    method Finish(d: nat, result: WebhookResult, t: nat)
      requires idempotencyGuard.db == db && InTime(db.world, d) && HandedAfter(db.world, d, t)
      requires
        || (db.world.deliveries[d].phase.Begun? && result in {INVALID_TIMESTAMP, CONTRACT_NOT_FOUND})
        || CanReject(db.world.deliveries[d].phase, result)
      modifies db
      ensures db.world.deliveries == old(db.world).deliveries[d := old(db.world).deliveries[d].(phase := Done(result))]
      ensures db.world.ledger == old(db.world).ledger && Follows(old(db.world), db.world)
    {
      Return(d, result);
      FinalizeProcessing(d, t);
    }

    /** The release in the catch block; with no other session in the pool it fails, and the failure is swallowed. */
    method ReleaseInCatch(d: nat, t: nat)
      requires idempotencyGuard.db == db && InTime(db.world, d) && db.world.deliveries[d].phase.Recovering?
      requires t != db.world.deliveries[d].session ==> Handed(db.world, t)
      modifies db
      ensures db.world.deliveries == old(db.world).deliveries[d := old(db.world).deliveries[d].(phase := Recovered)]
      ensures db.world.ledger == old(db.world).ledger && db.world.sessions.Keys == old(db.world).sessions.Keys
      ensures Follows(old(db.world), db.world)
    {
      if t == db.world.deliveries[d].session {
        FailFollows(db.world, d);
        db.world := Phased(db.world, d, Recovered);
      } else {
        ReleasedFollows(db.world, d, t);
        idempotencyGuard.ReleaseProcessingLock(d, t);
      }
    }

    /** The catch block and the finally block. */
    method Recover(d: nat, t: nat)
      requires idempotencyGuard.db == db && InTime(db.world, d) && HandedAfter(db.world, d, t)
      requires InBody(db.world.deliveries[d].phase)
      modifies db
      ensures db.world.deliveries == old(db.world).deliveries[d := old(db.world).deliveries[d].(phase := Done(UNKNOWN_ERROR))]
      ensures db.world.ledger == old(db.world).ledger && Follows(old(db.world), db.world)
    {
      ThrowFollows(db.world, d);
      ThrownIsRecovering(db.world, d);
      db.world := ThrowTx(db.world, d);
      if db.world.deliveries[d].phase.Recovering? {
        ReleaseInCatch(d, t);
      }
      RecoveryFollows(db.world, d);
      db.world := Phased(GiveBack(db.world, db.world.deliveries[d].session), d, Done(UNKNOWN_ERROR));
    }

    /** The ledger has the payment, and the body throws before its COMMIT. */
    method FundAndRecover(d: nat, t: nat)
      requires idempotencyGuard.db == db && InTime(db.world, d) && HandedAfter(db.world, d, t)
      requires db.world.deliveries[d].phase.Ready? && db.world.deliveries[d].contract !in db.world.ledger
      modifies db
      ensures db.world.deliveries == old(db.world).deliveries[d := old(db.world).deliveries[d].(phase := Done(UNKNOWN_ERROR))]
      ensures db.world.ledger == old(db.world).ledger[old(db.world).deliveries[d].contract := MarkFunded(d)]
      ensures Follows(old(db.world), db.world)
    {
      FundIsNext(db.world, d);
      OneStepFollows(db.world, Fund(d));
      db.world := FundTx(db.world, d);
      Recover(d, t);
    }

    /** From a granted claim to the end. */
    method ProcessClaimed(d: nat, t: nat, answers: Answers) returns (result: WebhookResult)
      requires idempotencyGuard.db == db && InTime(db.world, d) && HandedAfter(db.world, d, t) && CanAnswer(answers)
      requires db.world.deliveries[d].phase.Claimed? && db.world.sessions[db.world.deliveries[d].session].inTx
      requires answers.fault != Some(TimestampThrows)
      requires ClaimsInTx(db.world, d)
      modifies db
      ensures db.world.deliveries == old(db.world).deliveries[d := old(db.world).deliveries[d].(phase := Done(result))]
      ensures var w, c := old(db.world), old(db.world).deliveries[d].contract;
        && (result == SUCCESS <==> Funds(w, c, answers) && answers.fault.None?)
        && db.world.ledger == if Funds(w, c, answers) then w.ledger[c := MarkFunded(d)] else w.ledger
      ensures result == SUCCESS ==> StoredClaim(old(db.world), db.world, d, t)
      ensures Follows(old(db.world), db.world)
    {
      if answers.fault == Some(ValidationThrows) {
        Recover(d, t);
        return UNKNOWN_ERROR;
      }
      if answers.rejection.Some? || db.world.deliveries[d].contract in db.world.ledger {
        result := if answers.rejection.Some? then answers.rejection.value else INVALID_STATE;
        Finish(d, result, t);
        return;
      }
      ValidateFollows(db.world, d);
      db.world := Phased(db.world, d, Ready);
      result := ProcessReady(d, t, answers);
    }

    /** From the call of markFunded to the end. */
    method ProcessReady(d: nat, t: nat, answers: Answers) returns (result: WebhookResult)
      requires idempotencyGuard.db == db && InTime(db.world, d) && HandedAfter(db.world, d, t)
      requires db.world.deliveries[d].phase.Ready? && db.world.sessions[db.world.deliveries[d].session].inTx
      requires db.world.deliveries[d].contract !in db.world.ledger && answers.rejection.None?
      requires answers.fault.Some? ==> answers.fault.value.WaitThrows? || answers.fault.value.StoreThrows?
      requires ClaimsInTx(db.world, d)
      modifies db
      ensures db.world.deliveries == old(db.world).deliveries[d := old(db.world).deliveries[d].(phase := Done(result))]
      ensures var w, c := old(db.world), old(db.world).deliveries[d].contract;
        && (result == SUCCESS <==> Funds(w, c, answers) && answers.fault.None?)
        && db.world.ledger == if Funds(w, c, answers) then w.ledger[c := MarkFunded(d)] else w.ledger
      ensures result == SUCCESS ==> StoredClaim(old(db.world), db.world, d, t)
      ensures Follows(old(db.world), db.world)
    {
      if !answers.confirmed {
        result := BLOCKCHAIN_ERROR;
        Finish(d, result, t);
      } else if answers.fault == Some(WaitThrows) {
        result := UNKNOWN_ERROR;
        Recover(d, t);
      } else if answers.fault == Some(StoreThrows) {
        result := UNKNOWN_ERROR;
        FundAndRecover(d, t);
      } else {
        result := SUCCESS;
        StorePayment(d);
        FinalizeProcessing(d, t);
      }
    }

    /** From BEGIN on; None: an insert of another transaction keeps the delivery waiting. */
    method ProcessBegun(d: nat, t: nat, answers: Answers) returns (result: Option<WebhookResult>)
      requires idempotencyGuard.db == db && InTime(db.world, d) && HandedAfter(db.world, d, t) && CanAnswer(answers)
      requires db.world.deliveries[d].phase.Begun? && db.world.sessions[db.world.deliveries[d].session].inTx
      modifies db
      ensures d in db.world.deliveries
      ensures result.Some? ==>
        db.world.deliveries == old(db.world).deliveries[d := old(db.world).deliveries[d].(phase := Done(result.value))]
      ensures var w, c, i, s := old(db.world), old(db.world).deliveries[d].contract, old(db.world).deliveries[d].invoice, old(db.world).deliveries[d].session;
        var funds := answers.timestampValid && answers.contractFound && Free(w, s, i) && Funds(w, c, answers);
        && (result == Some(SUCCESS) <==> funds && answers.fault.None?)
        && db.world.ledger == if funds then w.ledger[c := MarkFunded(d)] else w.ledger
      ensures result == Some(SUCCESS) ==> StoredClaim(old(db.world), db.world, d, t)
      ensures Follows(old(db.world), db.world)
    {
      if answers.fault == Some(TimestampThrows) {
        Recover(d, t);
        return Some(UNKNOWN_ERROR);
      }
      if !answers.timestampValid || !answers.contractFound {
        var reason := if !answers.timestampValid then INVALID_TIMESTAMP else CONTRACT_NOT_FOUND;
        Finish(d, reason, t);
        return Some(reason);
      }
      AcquiredFollows(db.world, d);
      var acquired := idempotencyGuard.AcquireProcessingLock(d);
      if acquired {
        var answer := ProcessClaimed(d, t, answers);
        return Some(answer);
      }
      if !db.world.deliveries[d].phase.Dangling? {
        return None;
      }
      FinalizeProcessing(d, t);
      result := Some(DUPLICATE);
    }

    /**
     * One delivery by itself. It funds the contract on the ledger exactly when everything it asks is in its favour,
     * and succeeds if moreover nothing throws; then claim, contract row and ledger are its own
     * (SuccessIsRecorded), and the claim row says SUCCESS unless the pool hands the finalizer a session on which another
     * delivery has left a transaction open. A store that throws leaves the ledger funded by a delivery that ends in UNKNOWN_ERROR.
     */
    method ProcessPaymentWebhook(d: nat, i: Invoice, c: Contract, s: nat, t: nat, answers: Answers)
      returns (result: Option<WebhookResult>)
      requires idempotencyGuard.db == db && Reachable(db.world)
      requires d !in db.world.deliveries && CanAnswer(answers)
      requires Handed(db.world, s) && Handed(db.world, t)
      modifies db
      ensures Reachable(db.world)
      ensures d in db.world.deliveries
      ensures result.Some? ==> db.world.deliveries[d] == Delivery(i, c, s, Done(result.value))
      ensures var w := old(db.world);
        var funds := answers.timestampValid && answers.contractFound && Free(w, s, i) && Funds(w, c, answers);
        && (result == Some(SUCCESS) <==> funds && answers.fault.None?)
        && db.world.ledger == if funds then w.ledger[c := MarkFunded(d)] else w.ledger
      ensures result == Some(SUCCESS) ==>
        && i in db.world.claims
        && db.world.claims[i] == Claim(d, if t != s && old(db.world).sessions[t].inTx then PROCESSING else Processed(SUCCESS))
    {
      OneStepFollows(db.world, Connect(d, i, c, s));
      ConnectKeepsFree(db.world, d, i, c, s);
      db.world := ConnectTx(db.world, d, i, c, s);
      result := ProcessBegun(d, t, answers);
    }
  }
}
