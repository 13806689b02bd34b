/** What holds for any number of webhook deliveries, in any interleaving, over any pool of sessions. */
module WebhookTheorems {
  import opened Common
  import opened LockKey
  import opened WebhookSystem
  import opened WebhookInvariant
  import opened WebhookPreservation

  // ---- Mutual exclusion ----

  /** From the lock being granted until the session is given back, one delivery per key. */
  lemma BodiesExclude(w: World, d: nat, e: nat)
    requires Reachable(w) && d in w.deliveries && e in w.deliveries
    requires HoldsKey(w.deliveries[d].phase) && HoldsKey(w.deliveries[e].phase)
    requires KeyOf(w, d) == KeyOf(w, e)
    ensures d == e
  {
    ReachableSatisfiesInv(w);
    assert SessionKept(w, d) && SessionKept(w, e);
  }

  /** The body has returned without an exception, but its transaction has not been ended by its own COMMIT. */
  predicate LeftUncommitted(phase: Phase) {
    || (phase.Leaving? && phase.result != SUCCESS)
    || (phase.Releasing? && !phase.recovering && phase.result != SUCCESS)
    || (phase.Dangling? && phase.acquired && phase.result != SUCCESS)
  }

  /** Between acquire and commit. */
  predicate AwaitsCommit(phase: Phase) {
    (HoldsKey(phase) && !phase.Committed?) || LeftUncommitted(phase)
  }

  ghost predicate Overlap(w: World, d: nat, e: nat) {
    && d in w.deliveries && e in w.deliveries && d != e && KeyOf(w, d) == KeyOf(w, e)
    && AwaitsCommit(w.deliveries[d].phase) && AwaitsCommit(w.deliveries[e].phase)
  }

  ghost predicate OverlapsSomebody(w: World, d: nat) {
    exists e :: Overlap(w, d, e)
  }

  ghost predicate LeftBehind(w: World, d: nat, e: nat) {
    && d in w.deliveries && e in w.deliveries && d != e && KeyOf(w, d) == KeyOf(w, e)
    && LeftUncommitted(w.deliveries[e].phase)
  }

  /** Granting the lock changes the phase of that delivery, and nobody else's. */
  lemma LockGranted(w: World, d: nat)
    requires InTime(w, d) && w.deliveries[d].phase.Begun?
    requires !HeldElsewhere(w, w.deliveries[d].session, KeyOf(w, d))
    ensures var w' := Next(w, TryLock(d));
      && w' == TryLockTx(w, d)
      && w'.deliveries == w.deliveries[d := w.deliveries[d].(phase := Locked)]
  {
  }

  /**
   * Exclusion from acquire to commit is not kept. When a delivery is granted the lock, it overlaps with another
   * one between acquire and commit exactly when such a delivery has left its body without committing.
   */
  lemma GrantedLockOverlapsExactly(w: World, d: nat)
    requires Reachable(w) && InTime(w, d) && w.deliveries[d].phase.Begun?
    requires !HeldElsewhere(w, w.deliveries[d].session, KeyOf(w, d))
    ensures OverlapsSomebody(Next(w, TryLock(d)), d) <==> exists e :: LeftBehind(w, d, e)
  {
    var w' := Next(w, TryLock(d));
    LockGranted(w, d);
    if OverlapsSomebody(w', d) {
      var e :| Overlap(w', d, e);
      ReachableNext(w, TryLock(d));
      if HoldsKey(w'.deliveries[e].phase) { BodiesExclude(w', d, e); }
      assert LeftBehind(w, d, e);
    }
    if e :| LeftBehind(w, d, e) {
      assert Overlap(w', d, e);
    }
  }

  /**
   * Where a granted lock comes from that overlaps: it is granted on the very session the other delivery has given
   * back, re-entrantly, or that session has lost the key, by an unlock that landed there or by being closed.
   */
  lemma OverlappingLockComesFrom(w: World, d: nat, e: nat)
    requires Reachable(w) && InTime(w, d) && w.deliveries[d].phase.Begun?
    requires !HeldElsewhere(w, w.deliveries[d].session, KeyOf(w, d))
    requires Overlap(Next(w, TryLock(d)), d, e)
    ensures InTime(w, e) && !KeepsSession(w.deliveries[e].phase)
    ensures w.deliveries[e].session == w.deliveries[d].session
      || KeyOf(w, d) !in w.sessions[w.deliveries[e].session].locks
  {
    LockGranted(w, d);
    ReachableNext(w, TryLock(d));
    OverlapNeedsAReturnedSession(Next(w, TryLock(d)), d, e);
    InPlace(w, e);
  }

  lemma ReachableNext(w: World, step: Step)
    requires Reachable(w)
    ensures Reachable(Next(w, step))
  {
    var steps :| Run(Initial(), steps) == w;
    RunAppend(Initial(), steps, step);
  }

  lemma {:induction false} RunAppend(w: World, steps: seq<Step>, step: Step)
    ensures Run(w, steps + [step]) == Next(Run(w, steps), step)
    decreases |steps|
  {
    if |steps| == 0 {
      assert (steps + [step])[1..] == [];
      assert Run(Next(w, step), []) == Next(w, step);
    } else {
      assert (steps + [step])[1..] == steps[1..] + [step];
      RunAppend(Next(w, steps[0]), steps[1..], step);
    }
  }

  /** Of two deliveries with one key between acquire and commit, one has already given its session back. */
  lemma OverlapNeedsAReturnedSession(w: World, d: nat, e: nat)
    requires Reachable(w) && Overlap(w, d, e)
    ensures LeftUncommitted(w.deliveries[d].phase) || LeftUncommitted(w.deliveries[e].phase)
  {
    if HoldsKey(w.deliveries[d].phase) && HoldsKey(w.deliveries[e].phase) {
      BodiesExclude(w, d, e);
    }
  }

  /** acquireProcessingLock without interference, on the only session of the pool. */
  lemma AcquireOnTheOnlySession(w: World, d: nat)
    requires w.sessions.Keys == {0} && w.sessions[0].inTx
    requires d in w.deliveries && w.deliveries[d].session == 0 && w.deliveries[d].phase.Begun?
    requires w.deliveries[d].invoice !in w.sessions[0].pending && w.deliveries[d].invoice !in w.claims
    ensures var x, i := w.sessions[0], w.deliveries[d].invoice;
      Acquired(w, d) == w.(
        sessions := w.sessions[0 := x.(locks := x.locks + multiset{Key(i)}, pending := x.pending[i := Claim(d, PROCESSING)])],
        deliveries := w.deliveries[d := w.deliveries[d].(phase := Claimed)])
  {
    var x, i := w.sessions[0], w.deliveries[d].invoice;
    LockOnTheOnlySession(w, d);
    var w2 := Phased(Set(w, 0, x.(locks := x.locks + multiset{Key(i)})), d, Unclaimed);
    assert forall t :: t in w2.sessions ==> t == 0;
    assert !InsertBlocked(w2, 0, i);
    assert Next(w2, InsertClaim(d)) == Phased(WriteClaim(w2, 0, i, Claim(d, PROCESSING)), d, Claimed);
  }

  lemma LockOnTheOnlySession(w: World, d: nat)
    requires w.sessions.Keys == {0}
    requires d in w.deliveries && w.deliveries[d].session == 0 && w.deliveries[d].phase.Begun?
    requires w.deliveries[d].invoice !in w.sessions[0].pending && w.deliveries[d].invoice !in w.claims
    ensures var x, i := w.sessions[0], w.deliveries[d].invoice;
      Next(Next(w, TryLock(d)), CheckClaim(d)) == Phased(Set(w, 0, x.(locks := x.locks + multiset{Key(i)})), d, Unclaimed)
  {
    var x, i := w.sessions[0], w.deliveries[d].invoice;
    assert forall t :: t in w.sessions ==> t == 0;
    assert !HeldElsewhere(w, 0, KeyOf(w, d));
    var w1 := Next(w, TryLock(d));
    assert w1 == Phased(Set(w, 0, x.(locks := x.locks + multiset{Key(i)})), d, Locked);
    assert Next(w1, CheckClaim(d)) == Phased(w1, d, Unclaimed);
  }

  lemma AcquiredIsReachable(w: World, d: nat)
    requires Reachable(w)
    ensures Reachable(Acquired(w, d))
  {
    ReachableNext(w, TryLock(d));
    ReachableNext(Next(w, TryLock(d)), CheckClaim(d));
    ReachableNext(Next(Next(w, TryLock(d)), CheckClaim(d)), InsertClaim(d));
  }

  function OnlySession(user: User, locks: multiset<int>, pending: map<Invoice, Claim>): map<nat, Session> {
    map[0 := Session(true, user, true, locks, pending, {})]
  }

  function FirstBegun(i: Invoice, c: Contract): World {
    World(OnlySession(Body(1), multiset{}, map[]), map[], {}, map[], map[1 := Delivery(i, c, 0, Begun)])
  }

  lemma FirstBegunIsReachable(i: Invoice, c: Contract)
    ensures Reachable(FirstBegun(i, c))
  {
    assert Run(Initial(), []) == Initial();
    ReachableNext(Initial(), OpenSession(0));
    var w1 := World(map[0 := OpenedSession()], map[], {}, map[], map[]);
    assert Next(Initial(), OpenSession(0)) == w1;
    ReachableNext(w1, Connect(1, i, c, 0));
    assert Next(w1, Connect(1, i, c, 0)) == FirstBegun(i, c);
  }

  /** One delivery alone, rejected: its session is idle, with the lock and an open transaction. */
  function RejectedWorld(i: Invoice, c: Contract, result: WebhookResult): World {
    World(OnlySession(Idle, multiset{Key(i)}, map[i := Claim(1, PROCESSING)]), map[], {}, map[],
          map[1 := Delivery(i, c, 0, Leaving(result))])
  }

  function FirstClaimed(i: Invoice, c: Contract): World {
    World(OnlySession(Body(1), multiset{Key(i)}, map[i := Claim(1, PROCESSING)]), map[], {}, map[],
          map[1 := Delivery(i, c, 0, Claimed)])
  }

  lemma FirstAcquires(i: Invoice, c: Contract)
    ensures Acquired(FirstBegun(i, c), 1) == FirstClaimed(i, c)
  {
    AcquireOnTheOnlySession(FirstBegun(i, c), 1);
    assert multiset{} + multiset{Key(i)} == multiset{Key(i)};
  }

  lemma FirstClaimedIsReachable(i: Invoice, c: Contract)
    ensures Reachable(FirstClaimed(i, c))
  {
    FirstBegunIsReachable(i, c);
    AcquiredIsReachable(FirstBegun(i, c), 1);
    FirstAcquires(i, c);
  }

  lemma RejectedWorldIsReachable(i: Invoice, c: Contract, result: WebhookResult)
    requires result in {INVALID_AMOUNT, INVALID_STATE, CONTRACT_NOT_FOUND}
    ensures Reachable(RejectedWorld(i, c, result))
  {
    FirstClaimedIsReachable(i, c);
    ReachableNext(FirstClaimed(i, c), Reject(1, result));
    assert Next(FirstClaimed(i, c), Reject(1, result)) == RejectedWorld(i, c, result);
  }

  /** Two invoices with one key, on the same session: the second one claims while the first has yet to commit. */
  lemma OverlapHappens(i: Invoice, j: Invoice, c: Contract)
    requires i != j && Key(i) == Key(j)
    ensures exists w :: Reachable(w) && Overlap(w, 1, 2) && w.deliveries[2].phase.Claimed?
  {
    var w := RejectedWorld(i, c, INVALID_AMOUNT);
    RejectedWorldIsReachable(i, c, INVALID_AMOUNT);
    ReachableNext(w, Connect(2, j, c, 0));
    var w' := World(OnlySession(Body(2), multiset{Key(i)}, map[i := Claim(1, PROCESSING)]), map[], {}, map[],
                    map[1 := w.deliveries[1], 2 := Delivery(j, c, 0, Begun)]);
    assert Next(w, Connect(2, j, c, 0)) == w';
    AcquiredIsReachable(w', 2);
    AcquireOnTheOnlySession(w', 2);
    assert Overlap(Acquired(w', 2), 1, 2);
  }

  // ---- At most once ----

  /** What a success amounts to: its claim, the contract row and the ledger, all by this delivery. */
  lemma SuccessIsRecorded(w: World, d: nat)
    requires Reachable(w) && d in w.deliveries && Succeeded(w.deliveries[d].phase)
    ensures OwnsClaim(w, w.deliveries[d].invoice, d)
    ensures w.deliveries[d].contract in w.fundedRows
    ensures FundedBy(w, w.deliveries[d].contract, d)
  {
    ReachableSatisfiesInv(w);
    assert DeliveryOk(w, d);
  }

  /** At most one delivery succeeds for an invoice, and at most one for a contract. */
  lemma SuccessIsUnique(w: World, d: nat, e: nat)
    requires Reachable(w) && d in w.deliveries && e in w.deliveries
    requires Succeeded(w.deliveries[d].phase) && Succeeded(w.deliveries[e].phase)
    requires w.deliveries[d].invoice == w.deliveries[e].invoice || w.deliveries[d].contract == w.deliveries[e].contract
    ensures d == e
  {
    SuccessIsRecorded(w, d);
    SuccessIsRecorded(w, e);
  }

  /** A claim row that says SUCCESS is the row of a delivery whose body went all the way. */
  lemma SuccessRowsAreTrue(w: World, i: Invoice)
    requires Reachable(w) && i in w.claims && w.claims[i].status == Processed(SUCCESS)
    ensures var d := w.claims[i].owner;
      && d in w.deliveries && w.deliveries[d].invoice == i && ReturnedSuccess(w.deliveries[d].phase)
      && FundedBy(w, w.deliveries[d].contract, d) && w.deliveries[d].contract in w.fundedRows
  {
    ReachableSatisfiesInv(w);
    assert ClaimOk(w, i, w.claims[i]);
    SuccessIsRecorded(w, w.claims[i].owner);
  }

  /** A contract row is FUNDED, committed or not, only if a delivery has made the ledger leave CREATED. */
  lemma FundedRowsLeftCreated(w: World, c: Contract)
    requires Reachable(w)
    requires c in w.fundedRows || exists s :: s in w.sessions && c in w.sessions[s].funded
    ensures FundedByDelivery(w, c)
  {
    ReachableSatisfiesInv(w);
    if c !in w.fundedRows {
      var s :| s in w.sessions && c in w.sessions[s].funded;
      assert SessionOk(w, s);
    }
  }

  /** Once the claim of an invoice is committed, only the delivery that made it is ever past the claim. */
  lemma CommittedClaimExcludes(w: World, d: nat)
    requires Reachable(w) && d in w.deliveries && HasClaimed(w.deliveries[d].phase)
    requires w.deliveries[d].invoice in w.claims
    ensures w.claims[w.deliveries[d].invoice].owner == d
  {
    ReachableSatisfiesInv(w);
    assert DeliveryOk(w, d);
    assert SessionOk(w, w.deliveries[d].session);
  }

  // ---- Claims are for ever ----

  ghost predicate ClaimsStay(w: World, w': World) {
    forall i | i in w.claims :: i in w'.claims && w'.claims[i].owner == w.claims[i].owner
  }

  lemma CommitKeepsClaims(w: World, s: nat)
    requires s in w.sessions && SessionOk(w, s)
    ensures ClaimsStay(w, CommitOn(w, s))
  {
  }

  lemma ClaimStepKeepsClaims(w: World, d: nat, step: Step)
    requires InTime(w, d)
    ensures ClaimsStay(w, ClaimStep(w, d, step))
  {
  }

  lemma EndingKeepsClaims(w: World, d: nat, step: Step)
    requires InTime(w, d) && SessionOk(w, w.deliveries[d].session)
    ensures ClaimsStay(w, EndingStep(w, d, step))
  {
    CommitKeepsClaims(w, w.deliveries[d].session);
  }

  lemma PaymentKeepsClaims(w: World, d: nat, step: Step)
    requires InTime(w, d)
    ensures ClaimsStay(w, PaymentStep(w, d, step))
  {
  }

  lemma BodyKeepsClaims(w: World, d: nat, step: Step)
    requires InTime(w, d) && SessionOk(w, w.deliveries[d].session)
    ensures ClaimsStay(w, BodyStep(w, d, step))
  {
    ClaimStepKeepsClaims(w, d, step);
    PaymentKeepsClaims(w, d, step);
    EndingKeepsClaims(w, d, step);
  }

  lemma UpdateKeepsClaims(w: World, d: nat)
    requires InTime(w, d) && w.deliveries[d].phase.Releasing? && w.deliveries[d].phase.on in w.sessions
    requires SessionOk(w, w.deliveries[d].phase.on)
    ensures ClaimsStay(w, UpdateClaimTx(w, d))
  {
  }

  lemma FinalizerKeepsClaims(w: World, d: nat, step: Step)
    requires InTime(w, d) && IsFinalizerStep(step)
    requires w.deliveries[d].phase.Releasing? ==> w.deliveries[d].phase.on in w.sessions && SessionOk(w, w.deliveries[d].phase.on)
    ensures ClaimsStay(w, FinalizerStep(w, d, step))
  {
    if step.UpdateClaim? && w.deliveries[d].phase.Releasing? {
      UpdateKeepsClaims(w, d);
    }
  }

  lemma NextKeepsClaims(w: World, step: Step)
    requires SessionsOk(w) && DeliveriesOk(w)
    ensures ClaimsStay(w, Next(w, step))
  {
    if !IsEnvironmentStep(step) && InTime(w, step.delivery) {
      var d := step.delivery;
      assert SessionKept(w, d);
      if IsFinalizerStep(step) {
        FinalizerKeepsClaims(w, d, step);
      } else {
        BodyKeepsClaims(w, d, step);
      }
    }
  }

  /** No run ever removes a committed claim or gives it to another delivery, whatever it says. */
  lemma {:induction false} ClaimsAreForever(w: World, steps: seq<Step>)
    requires Inv(w)
    ensures ClaimsStay(w, Run(w, steps))
    decreases |steps|
  {
    if |steps| > 0 {
      NextKeeps(w, steps[0]);
      NextKeepsClaims(w, steps[0]);
      ClaimsAreForever(Next(w, steps[0]), steps[1..]);
    }
  }

  lemma ThrownSessions(w: World, d: nat)
    requires InTime(w, d) && HasClaimed(w.deliveries[d].phase)
    ensures var w', s := Next(w, Throw(d)), w.deliveries[d].session;
      && w'.claims == w.claims && w'.sessions.Keys == w.sessions.Keys
      && w'.sessions[s].pending == map[]
      && (forall t | t in w.sessions && t != s :: w'.sessions[t] == w.sessions[t])
  {
    assert Next(w, Throw(d)) == EndingStep(w, d, Throw(d)) == ThrowTx(w, d);
  }

  ghost predicate Unclaimable(w: World, i: Invoice) {
    i in w.claims || exists s :: s in w.sessions && i in w.sessions[s].pending
  }

  lemma UncommittedClaimIsPendingHere(w: World, d: nat)
    requires Reachable(w) && d in w.deliveries && HasClaimed(w.deliveries[d].phase)
    requires w.deliveries[d].invoice !in w.claims
    ensures InTime(w, d)
    ensures forall t | t in w.sessions :: w.deliveries[d].invoice in w.sessions[t].pending <==> t == w.deliveries[d].session
  {
    ReachableSatisfiesInv(w);
    assert DeliveryOk(w, d);
    assert w.deliveries[d].invoice in w.sessions[w.deliveries[d].session].pending;
  }

  /**
   * An exception after the claim frees the invoice for another attempt exactly when the claim has not been
   * committed, be it by the delivery itself or by the last COMMIT of an earlier user of its session.
   */
  lemma ExceptionFreesInvoiceExactly(w: World, d: nat)
    requires Reachable(w) && d in w.deliveries && HasClaimed(w.deliveries[d].phase)
    ensures !Unclaimable(Next(w, Throw(d)), w.deliveries[d].invoice) <==> w.deliveries[d].invoice !in w.claims
  {
    var w', i := Next(w, Throw(d)), w.deliveries[d].invoice;
    InPlace(w, d);
    ThrownSessions(w, d);
    if i !in w.claims {
      UncommittedClaimIsPendingHere(w, d);
      forall t | t in w'.sessions ensures i !in w'.sessions[t].pending {
        assert t in w.sessions.Keys;
      }
    }
  }

  lemma InPlace(w: World, d: nat)
    requires Reachable(w) && d in w.deliveries
    ensures InTime(w, d)
  {
    ReachableSatisfiesInv(w);
    assert SessionKept(w, d);
  }

  // ---- Locks and results that are lost ----

  lemma LostUnlock(w: World, d: nat)
    requires InTime(w, d) && SessionKept(w, d)
    requires w.deliveries[d].phase.Releasing? && w.deliveries[d].phase.recovering && w.deliveries[d].phase.updated
    ensures var u, s := Next(w, Unlock(d)), w.deliveries[d].session;
      && u == UnlockTx(w, d)
      && s in u.sessions && u.sessions[s] == w.sessions[s]
      && d in u.deliveries && u.deliveries[d] == w.deliveries[d].(phase := Recovered)
  {
    assert w.deliveries[d].session != w.deliveries[d].phase.on;
  }

  lemma RecoveryEnds(u: World, d: nat)
    requires InTime(u, d) && u.deliveries[d].phase.Recovered?
    ensures var w', s := Next(u, EndRecovery(d)), u.deliveries[d].session;
      s in w'.sessions && w'.sessions[s] == u.sessions[s].(user := Idle)
  {
    assert Next(u, EndRecovery(d)) == Phased(GiveBack(u, u.deliveries[d].session), d, Done(UNKNOWN_ERROR));
  }

  /**
   * After an exception the unlock goes to another session: the key stays locked on the one given back, and
   * every later delivery of the invoice on another session is answered DUPLICATE.
   */
  lemma UnlockAfterAnExceptionIsLost(w: World, d: nat)
    requires Reachable(w) && d in w.deliveries
    requires w.deliveries[d].phase.Releasing? && w.deliveries[d].phase.recovering && w.deliveries[d].phase.updated
    ensures var s := w.deliveries[d].session;
      var w' := Next(Next(w, Unlock(d)), EndRecovery(d));
      && s in w'.sessions && w'.sessions[s].open && w'.sessions[s].user == Idle
      && KeyOf(w, d) in w'.sessions[s].locks
      && (forall t :: t != s ==> HeldElsewhere(w', t, KeyOf(w, d)))
  {
    ReachableSatisfiesInv(w);
    assert SessionKept(w, d);
    LostUnlock(w, d);
    RecoveryEnds(Next(w, Unlock(d)), d);
  }

  /** A rejected delivery as it leaves its body: claim and lock on the session just given back. */
  ghost predicate JustRejected(w: World, d: nat) {
    && InTime(w, d) && w.deliveries[d].phase.Leaving?
    && var x, i := w.sessions[w.deliveries[d].session], w.deliveries[d].invoice;
    && x.open && x.user == Idle && x.inTx
    && i in x.pending && x.pending[i].owner == d && i !in w.claims && KeyOf(w, d) in x.locks
  }

  /** The finalizer has its session; what it updates and unlocks is that session alone. */
  lemma TakenForRelease(w: World, d: nat, t: nat)
    requires InTime(w, d) && w.deliveries[d].phase.Leaving?
    requires t in w.sessions && w.sessions[t].open && w.sessions[t].user == Idle
    ensures Next(w, TakeSession(d, t)) ==
      Phased(Set(w, t, w.sessions[t].(user := Finalizer(d))), d, Releasing(w.deliveries[d].phase.result, t, false, false))
  {
  }

  lemma ReleaseOnTheSameSession(w: World, d: nat)
    requires JustRejected(w, d)
    ensures var s, i, result := w.deliveries[d].session, w.deliveries[d].invoice, w.deliveries[d].phase.result;
      var x, w' := w.sessions[s], Released(w, d, s);
      w'.sessions == w.sessions[s := x.(pending := x.pending[i := Claim(d, Processed(result))],
                                        locks := x.locks - multiset{KeyOf(w, d)})]
  {
    var s := w.deliveries[d].session;
    TakenForRelease(w, d, s);
    UpdatedOnItsSession(w, d, Next(w, TakeSession(d, s)));
    var w2 := Next(Next(w, TakeSession(d, s)), UpdateClaim(d));
    assert Next(w2, Unlock(d)) == UnlockTx(w2, d);
  }

  /** The row pending on the session is seen there, and updated. */
  lemma UpdatedOnItsSession(w: World, d: nat, taken: World)
    requires JustRejected(w, d)
    requires var s, result := w.deliveries[d].session, w.deliveries[d].phase.result;
      taken == Phased(Set(w, s, w.sessions[s].(user := Finalizer(d))), d, Releasing(result, s, false, false))
    ensures var s, i, result, w2 := w.deliveries[d].session, w.deliveries[d].invoice, w.deliveries[d].phase.result, Next(taken, UpdateClaim(d));
      var x := w.sessions[s].(user := Finalizer(d));
      && w2.sessions == w.sessions[s := x.(pending := x.pending[i := Claim(d, Processed(result))])]
      && d in w2.deliveries && w2.deliveries[d] == w.deliveries[d].(phase := Releasing(result, s, true, false))
  {
    assert Next(taken, UpdateClaim(d)) == UpdateClaimTx(taken, d);
  }

  lemma ReleaseOnAnotherSession(w: World, d: nat, t: nat)
    requires JustRejected(w, d) && t != w.deliveries[d].session
    requires t in w.sessions && w.sessions[t].open && w.sessions[t].user == Idle
    requires w.deliveries[d].invoice !in w.sessions[t].pending
    ensures var s := w.deliveries[d].session;
      s in Released(w, d, t).sessions && Released(w, d, t).sessions[s] == w.sessions[s]
  {
    var result := w.deliveries[d].phase.result;
    TakenForRelease(w, d, t);
    var w1 := Next(w, TakeSession(d, t));
    var w2 := Next(w1, UpdateClaim(d));
    assert w2 == Phased(w1, d, Releasing(result, t, true, false));
    assert Next(w2, Unlock(d)) == UnlockTx(w2, d);
  }

  /**
   * After a rejection the finalizer stores the result and releases the lock exactly when the pool hands it the
   * very session the body has just given back. On any other the claim keeps what it says, PROCESSING, and the
   * key stays locked.
   */
  lemma ReleaseTakesEffectExactly(w: World, d: nat, t: nat)
    requires Reachable(w) && JustRejected(w, d)
    requires t in w.sessions && w.sessions[t].open && w.sessions[t].user == Idle
    ensures var s, i, result := w.deliveries[d].session, w.deliveries[d].invoice, w.deliveries[d].phase.result;
      var x, w' := w.sessions[s], Released(w, d, t);
      var released := x.(pending := x.pending[i := Claim(d, Processed(result))], locks := x.locks - multiset{KeyOf(w, d)});
      && s in w'.sessions
      && (w'.sessions[s] == released <==> t == s)
      && (t != s ==> w'.sessions[s] == x)
  {
    var s := w.deliveries[d].session;
    if t == s {
      ReleaseOnTheSameSession(w, d);
    } else {
      ReachableSatisfiesInv(w);
      assert w.deliveries[d].invoice !in w.sessions[t].pending;
      ReleaseOnAnotherSession(w, d, t);
      var key, locks := KeyOf(w, d), w.sessions[s].locks;
      assert (locks - multiset{key})[key] < locks[key];
    }
  }

  // ---- What becomes of a rejected claim ----

  lemma LastCommitOf(u: World, d: nat)
    requires InTime(u, d) && u.deliveries[d].phase.Dangling?
    ensures var s, w' := u.deliveries[d].session, Next(u, FinalCommit(d));
      && w'.claims == u.claims + u.sessions[s].pending
      && w'.fundedRows == u.fundedRows + u.sessions[s].funded
      && s in w'.sessions && !w'.sessions[s].inTx && w'.sessions[s].pending == map[] && w'.sessions[s].locks == u.sessions[s].locks
      && d in w'.deliveries && w'.deliveries[d].phase == Done(u.deliveries[d].phase.result)
  {
  }

  /** Updated, the delivery unlocks and awaits its last commit. */
  lemma UnlockedIsDangling(u: World, d: nat)
    requires InTime(u, d) && u.deliveries[d].phase.Releasing? && u.deliveries[d].phase.updated
    requires u.deliveries[d].phase.on in u.sessions && !u.deliveries[d].phase.recovering
    ensures var phase := u.deliveries[d].phase;
      InTime(Next(u, Unlock(d)), d) && Next(u, Unlock(d)).deliveries[d] == u.deliveries[d].(phase := Dangling(phase.result, true))
  {
    assert Next(u, Unlock(d)) == UnlockTx(u, d);
  }

  lemma UpdatedIsReleasing(u: World, d: nat)
    requires InTime(u, d) && u.deliveries[d].phase.Releasing? && !u.deliveries[d].phase.updated
    requires u.deliveries[d].phase.on in u.sessions
    ensures var u' := Next(u, UpdateClaim(d));
      && InTime(u', d) && u.deliveries[d].phase.on in u'.sessions
      && u'.deliveries[d] == u.deliveries[d].(phase := u.deliveries[d].phase.(updated := true))
  {
    assert Next(u, UpdateClaim(d)) == UpdateClaimTx(u, d);
  }

  lemma ReleasedIsDangling(w: World, d: nat, t: nat)
    requires JustRejected(w, d) && t in w.sessions && w.sessions[t].open && w.sessions[t].user == Idle
    ensures InTime(Released(w, d, t), d)
    ensures Released(w, d, t).deliveries[d] == w.deliveries[d].(phase := Dangling(w.deliveries[d].phase.result, true))
  {
    TakenForRelease(w, d, t);
    var taken := Next(w, TakeSession(d, t));
    UpdatedIsReleasing(taken, d);
    UnlockedIsDangling(Next(taken, UpdateClaim(d)), d);
  }

  /**
   * A rejected delivery uses up its invoice: the last COMMIT makes its claim permanent, with the rejection's result
   * if the release ran on its own session, and as it was, PROCESSING with the key still locked, on any other.
   */
  lemma RejectedClaimIsCommitted(w: World, d: nat, t: nat)
    requires Reachable(w) && JustRejected(w, d)
    requires t in w.sessions && w.sessions[t].open && w.sessions[t].user == Idle
    ensures var s, i := w.deliveries[d].session, w.deliveries[d].invoice;
      var w' := Next(Released(w, d, t), FinalCommit(d));
      && i in w'.claims && s in w'.sessions && d in w'.deliveries
      && w'.claims[i] == (if t == s then Claim(d, Processed(w.deliveries[d].phase.result)) else w.sessions[s].pending[i])
      && w'.sessions[s].locks == (if t == s then w.sessions[s].locks - multiset{KeyOf(w, d)} else w.sessions[s].locks)
      && w'.deliveries[d].phase == Done(w.deliveries[d].phase.result)
  {
    ReleasedIsDangling(w, d, t);
    LastCommitOf(Released(w, d, t), d);
    if t == w.deliveries[d].session {
      ReleaseOnTheSameSession(w, d);
    } else {
      PendingOnlyHere(w, d, t);
      ReleaseOnAnotherSession(w, d, t);
    }
  }

  lemma PendingOnlyHere(w: World, d: nat, t: nat)
    requires Reachable(w) && JustRejected(w, d) && t in w.sessions && t != w.deliveries[d].session
    ensures w.deliveries[d].invoice !in w.sessions[t].pending
  {
    ReachableSatisfiesInv(w);
  }

  /** The cleanup marks a committed claim that still says PROCESSING, and only that; the invoice stays used up. */
  lemma CleanupMarksStaleClaims(w: World, i: Invoice)
    ensures var w' := Next(w, Cleanup(i));
      && w'.claims.Keys == w.claims.Keys
      && (forall j | j in w.claims :: w'.claims[j] ==
            if j == i && w.claims[j].status == PROCESSING then Claim(w.claims[j].owner, Processed(UNKNOWN_ERROR)) else w.claims[j])
      && w' == w.(claims := w'.claims)
  {
  }
}
