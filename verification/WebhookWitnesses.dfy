/** Runs in which a lock or a result of the webhook protocol is lost. */
module WebhookWitnesses {
  import opened Common
  import opened LockKey
  import opened WebhookSystem
  import opened WebhookInvariant
  import opened WebhookPreservation
  import opened WebhookTheorems
  import opened WebhookServices

  lemma OpenedIsIdle(w: World, s: nat)
    requires Reachable(w) && s !in w.sessions
    ensures var w' := Next(w, OpenSession(s));
      Reachable(w') && w' == Set(w, s, OpenedSession())
  {
    ReachableNext(w, OpenSession(s));
  }

  /**
   * For every invoice and every rejection there is a run in which the rejected delivery releases on another
   * session: the claim row and the lock of its own session are untouched.
   */
  lemma RejectionLosesItsResult(i: Invoice, c: Contract, result: WebhookResult) returns (w: World)
    requires result in {INVALID_AMOUNT, INVALID_STATE, CONTRACT_NOT_FOUND}
    ensures Reachable(w) && JustRejected(w, 1)
    ensures w.deliveries[1].invoice == i && w.deliveries[1].phase == Leaving(result)
    ensures 1 in w.sessions && w.sessions[1].open && w.sessions[1].user == Idle
    ensures 0 in Released(w, 1, 1).sessions
    ensures Key(i) in Released(w, 1, 1).sessions[0].locks
    ensures i in Released(w, 1, 1).sessions[0].pending && Released(w, 1, 1).sessions[0].pending[i] == Claim(1, PROCESSING)
  {
    RejectedWorldIsReachable(i, c, result);
    OpenedIsIdle(RejectedWorld(i, c, result), 1);
    w := Set(RejectedWorld(i, c, result), 1, OpenedSession());
    ReleaseTakesEffectExactly(w, 1, 1);
  }

  lemma Step(w: World, step: Step, w': World)
    requires Reachable(w) && Next(w, step) == w'
    ensures Reachable(w')
  {
    ReachableNext(w, step);
  }

  /** The session of the first delivery, rolled back after its claim, and a second one. */
  function ThrownSessionsOf(i: Invoice, second: User): map<nat, Session> {
    map[0 := Session(true, Body(1), false, multiset{Key(i)}, map[], {}),
        1 := Session(true, second, false, multiset{}, map[], {})]
  }

  function ThrownWorld(i: Invoice, c: Contract, second: User, phase: Phase): World {
    World(ThrownSessionsOf(i, second), map[], {}, map[], map[1 := Delivery(i, c, 0, phase)])
  }

  lemma ThrownWorldIsReachable(i: Invoice, c: Contract)
    ensures Reachable(ThrownWorld(i, c, Idle, Recovering))
  {
    FirstClaimedIsReachable(i, c);
    var thrown := ThrowTx(FirstClaimed(i, c), 1);
    assert Next(FirstClaimed(i, c), Throw(1)) == thrown;
    Step(FirstClaimed(i, c), Throw(1), thrown);
    OpenedIsIdle(thrown, 1);
    assert Set(thrown, 1, OpenedSession()) == ThrownWorld(i, c, Idle, Recovering);
  }

  lemma TakingIsReachable(i: Invoice, c: Contract)
    ensures Reachable(ThrownWorld(i, c, Finalizer(1), Releasing(UNKNOWN_ERROR, 1, false, true)))
  {
    var w := ThrownWorld(i, c, Idle, Recovering);
    ThrownWorldIsReachable(i, c);
    var taken := ThrownWorld(i, c, Finalizer(1), Releasing(UNKNOWN_ERROR, 1, false, true));
    assert TakeSessionTx(w, 1, 1) == taken;
    Step(w, TakeSession(1, 1), taken);
  }

  lemma ReleasingIsReachable(i: Invoice, c: Contract)
    ensures Reachable(ThrownWorld(i, c, Finalizer(1), Releasing(UNKNOWN_ERROR, 1, true, true)))
  {
    var taken := ThrownWorld(i, c, Finalizer(1), Releasing(UNKNOWN_ERROR, 1, false, true));
    TakingIsReachable(i, c);
    var updated := ThrownWorld(i, c, Finalizer(1), Releasing(UNKNOWN_ERROR, 1, true, true));
    assert UpdateClaimTx(taken, 1) == updated;
    Step(taken, UpdateClaim(1), updated);
  }

  /** After the recovery; the session of the delivery is idle, with its key. */
  function RecoveredWorld(i: Invoice, c: Contract, open: bool): World {
    World(map[0 := Session(open, Idle, false, if open then multiset{Key(i)} else multiset{}, map[], {}), 1 := OpenedSession()],
          map[], {}, map[], map[1 := Delivery(i, c, 0, Done(UNKNOWN_ERROR))])
  }

  lemma UnlockedIsReachable(i: Invoice, c: Contract)
    ensures Reachable(ThrownWorld(i, c, Idle, Recovered))
  {
    var before := ThrownWorld(i, c, Finalizer(1), Releasing(UNKNOWN_ERROR, 1, true, true));
    ReleasingIsReachable(i, c);
    var unlocked := ThrownWorld(i, c, Idle, Recovered);
    assert multiset{} - multiset{Key(i)} == multiset{};
    assert UnlockTx(before, 1) == unlocked;
    Step(before, Unlock(1), unlocked);
  }

  lemma RecoveredWorldIsReachable(i: Invoice, c: Contract)
    ensures Reachable(RecoveredWorld(i, c, true))
  {
    var unlocked := ThrownWorld(i, c, Idle, Recovered);
    UnlockedIsReachable(i, c);
    assert Phased(GiveBack(unlocked, 0), 1, Done(UNKNOWN_ERROR)) == RecoveredWorld(i, c, true);
    Step(unlocked, EndRecovery(1), RecoveredWorld(i, c, true));
  }

  /**
   * For every invoice there is a run after which nobody processes it, yet every other session is refused its key;
   * and once the pool has closed the session that holds it, the next delivery of the invoice gets its claim.
   */
  lemma ExceptionLosesItsLock(i: Invoice, c: Contract) returns (w: World)
    ensures Reachable(w) && 1 in w.deliveries && w.deliveries[1] == Delivery(i, c, 0, Done(UNKNOWN_ERROR))
    ensures forall d :: d in w.deliveries ==> d == 1
    ensures i !in w.claims
    ensures forall t :: t != 0 ==> HeldElsewhere(w, t, Key(i))
    ensures var retried := Acquired(Next(Next(w, CloseIdle(0)), Connect(2, i, c, 1)), 2);
      2 in retried.deliveries && retried.deliveries[2].phase == Claimed
  {
    w := RecoveredWorld(i, c, true);
    RecoveredWorldIsReachable(i, c);
    forall t | t != 0 ensures HeldElsewhere(w, t, Key(i)) {
      assert Key(i) in w.sessions[0].locks;
    }
    RetryAfterClosing(i, c);
  }

  lemma RetryAfterClosing(i: Invoice, c: Contract)
    ensures var retried := Acquired(Next(Next(RecoveredWorld(i, c, true), CloseIdle(0)), Connect(2, i, c, 1)), 2);
      2 in retried.deliveries && retried.deliveries[2].phase == Claimed
  {
    var closed := RecoveredWorld(i, c, false);
    assert Next(RecoveredWorld(i, c, true), CloseIdle(0)) == closed;
    var connected := ConnectTx(closed, 2, i, c, 1);
    assert Next(closed, Connect(2, i, c, 1)) == connected;
    FreeAfterClosing(i, c);
    AcquireDecides(connected, 2);
  }

  lemma FreeAfterClosing(i: Invoice, c: Contract)
    ensures var connected := ConnectTx(RecoveredWorld(i, c, false), 2, i, c, 1);
      InTime(connected, 2) && connected.deliveries[2] == Delivery(i, c, 1, Begun) && Free(connected, 1, i)
  {
    var connected := ConnectTx(RecoveredWorld(i, c, false), 2, i, c, 1);
    assert forall t :: t in connected.sessions && t != 1 ==> t == 0;
  }
}
