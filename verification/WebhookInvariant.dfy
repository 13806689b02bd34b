/** What every step of the webhook protocol keeps, in any interleaving over any pool of sessions. */
module WebhookInvariant {
  import opened Common
  import opened LockKey
  import opened WebhookSystem

  // ---- Sessions ----

  /** A claim row belongs to a delivery of its invoice, and says SUCCESS only if that delivery succeeded. */
  ghost predicate ClaimOk(w: World, i: Invoice, claim: Claim) {
    && claim.owner in w.deliveries && w.deliveries[claim.owner].invoice == i
    && (claim.status == Processed(SUCCESS) ==> ReturnedSuccess(w.deliveries[claim.owner].phase))
  }

  /** The ledger has left CREATED, by the markFunded of a webhook delivery. */
  ghost predicate FundedByDelivery(w: World, c: Contract) {
    c in w.ledger && w.ledger[c].MarkFunded?
  }

  ghost predicate SessionOk(w: World, s: nat)
    requires s in w.sessions
  {
    var x := w.sessions[s];
    && (!x.open ==> x.user == Idle && !x.inTx && x.locks == multiset{})
    && (!x.inTx ==> x.pending == map[] && x.funded == {})
    && (forall c :: c in x.funded ==> FundedByDelivery(w, c))
    && (forall i :: i in x.pending ==> ClaimOk(w, i, x.pending[i]))
    && (forall i :: i in x.pending && i in w.claims ==> x.pending[i].owner == w.claims[i].owner)
  }

  ghost predicate SessionsOk(w: World) {
    forall s :: s in w.sessions ==> SessionOk(w, s)
  }

  /** An advisory lock is held by one session only, however often. */
  ghost predicate LocksExclusive(w: World) {
    forall s, t, key | s in w.sessions && t in w.sessions ::
      key in w.sessions[s].locks && key in w.sessions[t].locks ==> s == t
  }

  /** The unique index: only one transaction at a time can be inserting a row for an invoice. */
  ghost predicate InsertsUnique(w: World) {
    forall s, t, i | s in w.sessions && t in w.sessions ::
      i in w.sessions[s].pending && i in w.sessions[t].pending && i !in w.claims ==> s == t
  }

  // ---- Deliveries ----

  /** The body has gone all the way and returned, whatever the finalizer still does. */
  predicate ReturnedSuccess(phase: Phase) {
    && (phase.Leaving? || phase.Releasing? || phase.Dangling? || phase.Done? || phase.Abandoned?)
    && phase.result == SUCCESS
  }

  predicate Succeeded(phase: Phase) {
    phase.Committed? || ReturnedSuccess(phase)
  }

  predicate KeepsSession(phase: Phase) {
    InBody(phase) || phase.Recovering? || phase.Recovered? || (phase.Releasing? && phase.recovering)
  }

  /** Until the session is given back, its advisory lock is held; the unlock after an exception misses it. */
  predicate KeepsKey(phase: Phase) {
    HoldsKey(phase) || phase.Recovering? || (phase.Releasing? && phase.recovering)
  }

  ghost predicate OwnsVisible(w: World, s: nat, i: Invoice, d: nat)
    requires s in w.sessions
  {
    var row := Visible(w, s, i);
    row.Some? && row.value.owner == d
  }

  ghost predicate OwnsClaim(w: World, i: Invoice, d: nat) {
    i in w.claims && w.claims[i].owner == d
  }

  ghost predicate FundedBy(w: World, c: Contract, d: nat) {
    c in w.ledger && w.ledger[c] == MarkFunded(d)
  }

  ghost predicate SessionKept(w: World, d: nat)
    requires d in w.deliveries
  {
    var x := w.deliveries[d];
    && x.session in w.sessions
    && (KeepsSession(x.phase) ==> w.sessions[x.session].open && w.sessions[x.session].user == Body(d))
    && (KeepsKey(x.phase) ==> Key(x.invoice) in w.sessions[x.session].locks)
    && (x.phase.Releasing? ==>
          x.phase.on in w.sessions && w.sessions[x.phase.on].open && w.sessions[x.phase.on].user == Finalizer(d))
  }

  ghost predicate ProgressOk(w: World, d: nat)
    requires d in w.deliveries && w.deliveries[d].session in w.sessions
  {
    var x := w.deliveries[d];
    && (x.phase.Claimed? || x.phase.Ready? || x.phase.Confirmed? || x.phase.Written? ==>
          OwnsVisible(w, x.session, x.invoice, d))
    && (x.phase.Confirmed? || x.phase.Written? || Succeeded(x.phase) ==> FundedBy(w, x.contract, d))
    && (x.phase.Written? ==> x.contract in w.sessions[x.session].funded || x.contract in w.fundedRows)
    && (Succeeded(x.phase) ==> OwnsClaim(w, x.invoice, d) && x.contract in w.fundedRows)
    && (x.phase.Releasing? && x.phase.recovering ==> x.phase.result == UNKNOWN_ERROR)
  }

  ghost predicate DeliveryOk(w: World, d: nat)
    requires d in w.deliveries
  {
    SessionKept(w, d) && ProgressOk(w, d)
  }

  ghost predicate DeliveriesOk(w: World) {
    forall d :: d in w.deliveries ==> DeliveryOk(w, d)
  }

  ghost predicate RowsOk(w: World) {
    && (forall i :: i in w.claims ==> ClaimOk(w, i, w.claims[i]))
    && (forall c :: c in w.fundedRows ==> FundedByDelivery(w, c))
  }

  ghost predicate Inv(w: World) {
    SessionsOk(w) && LocksExclusive(w) && InsertsUnique(w) && DeliveriesOk(w) && RowsOk(w)
  }

  // ---- Frames ----

  /** Only the delivery d and the session s change. */
  ghost predicate OnlyTouches(w: World, w': World, d: nat, s: nat) {
    && d in w.deliveries && w'.deliveries.Keys == w.deliveries.Keys
    && s in w.sessions && w'.sessions.Keys == w.sessions.Keys
    && (forall e | e in w.deliveries && e != d :: w'.deliveries[e] == w.deliveries[e])
    && w'.deliveries[d] == w.deliveries[d].(phase := w'.deliveries[d].phase)
    && (forall t | t in w.sessions && t != s :: w'.sessions[t] == w.sessions[t])
  }

  /** Rows and ledger entries stay. */
  ghost predicate Grows(w: World, w': World) {
    && (forall i | i in w.claims :: i in w'.claims && w'.claims[i].owner == w.claims[i].owner)
    && w.fundedRows <= w'.fundedRows
    && (forall c | c in w.ledger :: c in w'.ledger && w'.ledger[c] == w.ledger[c])
  }

  /** A new row was not on its way in the transaction of session t. */
  ghost predicate NotAwaited(w: World, w': World, t: nat)
    requires t in w.sessions
  {
    forall i | i in w.sessions[t].pending :: i in w'.claims ==> i in w.claims
  }

  ghost predicate NotAwaitedElsewhere(w: World, w': World, s: nat) {
    forall t | t in w.sessions && t != s :: NotAwaited(w, w', t)
  }

  /** The session is not in use by another delivery. */
  ghost predicate FreeFor(w: World, s: nat, d: nat)
    requires s in w.sessions
  {
    w.sessions[s].user in {Idle, Body(d), Finalizer(d)}
  }

  /** The session's new locks and pending rows respect the other sessions. */
  ghost predicate Respects(w: World, w': World, s: nat)
    requires s in w.sessions && s in w'.sessions
  {
    && (forall key | key in w'.sessions[s].locks :: key in w.sessions[s].locks || !HeldElsewhere(w, s, key))
    && (forall i | i in w'.sessions[s].pending :: i in w.sessions[s].pending || !InsertBlocked(w, s, i))
  }

  /** Deliveries stay, and success stays success. */
  ghost predicate Persist(w: World, w': World) {
    forall e | e in w.deliveries ::
      && e in w'.deliveries && w'.deliveries[e].invoice == w.deliveries[e].invoice
      && (ReturnedSuccess(w.deliveries[e].phase) ==> ReturnedSuccess(w'.deliveries[e].phase))
  }

  lemma ClaimPersists(w: World, w': World, i: Invoice, claim: Claim)
    requires Persist(w, w') && ClaimOk(w, i, claim)
    ensures ClaimOk(w', i, claim)
  {
  }

  lemma SessionPersists(w: World, w': World, t: nat)
    requires t in w.sessions && t in w'.sessions && w'.sessions[t] == w.sessions[t]
    requires SessionOk(w, t) && Persist(w, w') && Grows(w, w') && NotAwaited(w, w', t)
    ensures SessionOk(w', t)
  {
    forall i | i in w'.sessions[t].pending ensures ClaimOk(w', i, w'.sessions[t].pending[i]) {
      ClaimPersists(w, w', i, w.sessions[t].pending[i]);
    }
  }

  lemma RowsPersist(w: World, w': World)
    requires RowsOk(w) && Persist(w, w') && Grows(w, w')
    requires w'.claims == w.claims && w'.fundedRows == w.fundedRows
    ensures RowsOk(w')
  {
    forall i | i in w'.claims ensures ClaimOk(w', i, w'.claims[i]) {
      ClaimPersists(w, w', i, w.claims[i]);
    }
  }

  /** Neither the delivery nor a session it relies on changes. */
  ghost predicate Undisturbed(w: World, w': World, e: nat)
    requires e in w.deliveries
  {
    var x := w.deliveries[e];
    && e in w'.deliveries && w'.deliveries[e] == x
    && x.session in w'.sessions
    && (KeepsSession(x.phase) && x.session in w.sessions ==> w'.sessions[x.session] == w.sessions[x.session])
    && (x.phase.Releasing? && x.phase.on in w.sessions ==>
          x.phase.on in w'.sessions && w'.sessions[x.phase.on] == w.sessions[x.phase.on])
  }

  lemma UndisturbedKept(w: World, w': World, e: nat)
    requires e in w.deliveries && DeliveryOk(w, e) && Grows(w, w') && Undisturbed(w, w', e)
    ensures DeliveryOk(w', e)
  {
  }

  lemma DeliveriesPersist(w: World, w': World)
    requires DeliveriesOk(w) && Grows(w, w') && w'.deliveries == w.deliveries
    requires forall e | e in w.deliveries :: Undisturbed(w, w', e)
    ensures DeliveriesOk(w')
  {
    forall e | e in w'.deliveries ensures DeliveryOk(w', e) {
      UndisturbedKept(w, w', e);
    }
  }

  lemma OtherDeliveryUndisturbed(w: World, w': World, d: nat, s: nat, e: nat)
    requires OnlyTouches(w, w', d, s) && FreeFor(w, s, d)
    requires e in w.deliveries && e != d && DeliveryOk(w, e)
    ensures Undisturbed(w, w', e)
  {
  }

  lemma LocksStayExclusive(w: World, w': World, s: nat)
    requires LocksExclusive(w) && s in w.sessions && w'.sessions.Keys == w.sessions.Keys
    requires forall t | t in w.sessions && t != s :: w'.sessions[t] == w.sessions[t]
    requires forall key | key in w'.sessions[s].locks :: key in w.sessions[s].locks || !HeldElsewhere(w, s, key)
    ensures LocksExclusive(w')
  {
    forall a, b, key | a in w'.sessions && b in w'.sessions
      && key in w'.sessions[a].locks && key in w'.sessions[b].locks
      ensures a == b
    {
      assert a in w.sessions && b in w.sessions;
    }
  }

  lemma InsertsStayUnique(w: World, w': World, s: nat)
    requires InsertsUnique(w) && s in w.sessions && w'.sessions.Keys == w.sessions.Keys
    requires forall t | t in w.sessions && t != s :: w'.sessions[t] == w.sessions[t]
    requires forall i | i in w'.sessions[s].pending :: i in w.sessions[s].pending || !InsertBlocked(w, s, i)
    requires forall i | i in w.claims :: i in w'.claims
    ensures InsertsUnique(w')
  {
    forall a, b, i | a in w'.sessions && b in w'.sessions
      && i in w'.sessions[a].pending && i in w'.sessions[b].pending && i !in w'.claims
      ensures a == b
    {
      assert a in w.sessions && b in w.sessions && i !in w.claims;
    }
  }

  /** What a step of delivery d on session s has to show: everything else follows. */
  ghost predicate Allowed(w: World, w': World, d: nat, s: nat) {
    && OnlyTouches(w, w', d, s) && FreeFor(w, s, d) && Persist(w, w')
    && Grows(w, w') && NotAwaitedElsewhere(w, w', s) && Respects(w, w', s)
    && SessionOk(w', s) && DeliveryOk(w', d) && RowsOk(w')
  }

  lemma SessionsStayOk(w: World, w': World, d: nat, s: nat)
    requires SessionsOk(w) && Allowed(w, w', d, s)
    ensures SessionsOk(w')
  {
    forall t | t in w'.sessions ensures SessionOk(w', t) {
      if t != s { SessionPersists(w, w', t); }
    }
  }

  lemma DeliveriesStayOk(w: World, w': World, d: nat, s: nat)
    requires DeliveriesOk(w) && Allowed(w, w', d, s)
    ensures DeliveriesOk(w')
  {
    forall e | e in w'.deliveries ensures DeliveryOk(w', e) {
      if e != d {
        OtherDeliveryUndisturbed(w, w', d, s, e);
        UndisturbedKept(w, w', e);
      }
    }
  }

  /** A step of delivery d on a session no other delivery uses. */
  lemma StepKeeps(w: World, w': World, d: nat, s: nat)
    requires Inv(w) && Allowed(w, w', d, s)
    ensures Inv(w')
  {
    SessionsStayOk(w, w', d, s);
    DeliveriesStayOk(w, w', d, s);
    LocksStayExclusive(w, w', s);
    InsertsStayUnique(w, w', s);
  }
}
