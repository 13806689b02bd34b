/**
 * Payment webhooks (src/payments/xendit/xendit.service.ts, src/payments/xendit/xendit.idempotency.ts): many
 * deliveries over pooled database sessions. A session has re-entrant advisory locks, at most one open
 * transaction and, while that is open, claim rows and contract updates nobody else sees.
 *
 * processPaymentWebhook returns the promise of finalizeProcessing without awaiting it, so its finally block
 * gives the session back to the pool first. What the finalizer does, on another session for the lock and on
 * the returned one for the last COMMIT, are therefore steps of their own that any delivery may overtake.
 */
module WebhookSystem {
  import opened Common
  import opened LockKey

  type Invoice = seq<CodeUnit>
  type Contract = string

  datatype WebhookResult =
    | SUCCESS | DUPLICATE | INVALID_SIGNATURE | INVALID_TIMESTAMP | CONTRACT_NOT_FOUND | INVALID_AMOUNT
    | INVALID_STATE | BLOCKCHAIN_ERROR | DATABASE_ERROR | UNKNOWN_ERROR

  datatype ClaimStatus = PROCESSING | Processed(result: WebhookResult)

  /** A row of xendit_idempotency; the lock id identifies the delivery that inserted it. */
  datatype Claim = Claim(owner: nat, status: ClaimStatus)

  datatype User = Idle | Body(delivery: nat) | Finalizer(delivery: nat)

  datatype Session = Session(
    open: bool, user: User, inTx: bool, locks: multiset<int>, pending: map<Invoice, Claim>, funded: set<Contract>)

  datatype Phase =
    | Begun                              // session taken from the pool, BEGIN sent
    | Locked                             // advisory lock granted
    | Unclaimed                          // no row for the invoice seen
    | Claimed                            // acquireProcessingLock has returned
    | Ready                              // amount valid, ledger status CREATED
    | Confirmed                          // markFunded confirmed
    | Written                            // contract row updated
    | Committed
    | Leaving(result: WebhookResult)     // session given back, lock still to be released
    | Recovering                         // rolled back, session kept, lock still to be released
    | Releasing(result: WebhookResult, on: nat, updated: bool, recovering: bool)
    | Recovered
    | Dangling(result: WebhookResult, acquired: bool)  // only the last COMMIT, on the returned session, is left
    | Done(result: WebhookResult)
    | Abandoned(result: WebhookResult)   // the finalizer threw; there is no last COMMIT

  datatype Delivery = Delivery(invoice: Invoice, contract: Contract, session: nat, phase: Phase)

  /** Who made the ledger leave CREATED: the markFunded of a delivery, or anything else. */
  datatype Mover = MarkFunded(delivery: nat) | Elsewhere

  datatype World = World(
    sessions: map<nat, Session>,
    claims: map<Invoice, Claim>,
    fundedRows: set<Contract>,
    ledger: map<Contract, Mover>,
    deliveries: map<nat, Delivery>)

  // ---- Database ----

  function OpenedSession(): Session {
    Session(true, Idle, false, multiset{}, map[], {})
  }

  function Set(w: World, s: nat, session: Session): World {
    w.(sessions := w.sessions[s := session])
  }

  /** The row a query on session s sees for the invoice. */
  function Visible(w: World, s: nat, i: Invoice): Option<Claim>
    requires s in w.sessions
  {
    if i in w.sessions[s].pending then Some(w.sessions[s].pending[i])
    else if i in w.claims then Some(w.claims[i]) else None
  }

  /** Another transaction has inserted a row for the invoice and not ended yet: an insert waits. */
  ghost predicate InsertBlocked(w: World, s: nat, i: Invoice) {
    i !in w.claims && exists t :: t != s && t in w.sessions && i in w.sessions[t].pending
  }

  /** pg_try_advisory_lock fails exactly when another session holds the key. */
  ghost predicate HeldElsewhere(w: World, s: nat, key: int) {
    exists t :: t != s && t in w.sessions && key in w.sessions[t].locks
  }

  function WriteClaim(w: World, s: nat, i: Invoice, claim: Claim): World
    requires s in w.sessions
  {
    if w.sessions[s].inTx then Set(w, s, w.sessions[s].(pending := w.sessions[s].pending[i := claim]))
    else w.(claims := w.claims[i := claim])
  }

  function WriteFunded(w: World, s: nat, c: Contract): World
    requires s in w.sessions
  {
    if w.sessions[s].inTx then Set(w, s, w.sessions[s].(funded := w.sessions[s].funded + {c}))
    else w.(fundedRows := w.fundedRows + {c})
  }

  /** COMMIT ends whatever transaction the session has open, whoever began it. */
  function CommitOn(w: World, s: nat): World
    requires s in w.sessions
  {
    var x := w.sessions[s];
    Set(w, s, x.(inTx := false, pending := map[], funded := {}))
      .(claims := w.claims + x.pending, fundedRows := w.fundedRows + x.funded)
  }

  function RollbackOn(w: World, s: nat): World
    requires s in w.sessions
  {
    Set(w, s, w.sessions[s].(inTx := false, pending := map[], funded := {}))
  }

  /** client.release(): locks and an open transaction stay with the session. */
  function GiveBack(w: World, s: nat): World
    requires s in w.sessions
  {
    Set(w, s, w.sessions[s].(user := Idle))
  }

  function Phased(w: World, d: nat, phase: Phase): World
    requires d in w.deliveries
  {
    w.(deliveries := w.deliveries[d := w.deliveries[d].(phase := phase)])
  }

  function KeyOf(w: World, d: nat): int
    requires d in w.deliveries
  {
    Key(w.deliveries[d].invoice)
  }

  // ---- Steps ----

  datatype Step =
    | OpenSession(session: nat)
    | CloseIdle(session: nat)
    | Connect(delivery: nat, invoice: Invoice, contract: Contract, session: nat)
    | RefuseEarly(delivery: nat, result: WebhookResult)
    | TryLock(delivery: nat)
    | CheckClaim(delivery: nat)
    | InsertClaim(delivery: nat)
    | Validate(delivery: nat)
    | Reject(delivery: nat, result: WebhookResult)
    | Fund(delivery: nat)
    | Write(delivery: nat)
    | Commit(delivery: nat)
    | Succeed(delivery: nat)
    | Throw(delivery: nat)
    | TakeSession(delivery: nat, session: nat)
    | UpdateClaim(delivery: nat)
    | Unlock(delivery: nat)
    | FailRelease(delivery: nat)
    | EndRecovery(delivery: nat)
    | FinalCommit(delivery: nat)
    | LedgerMoves(contract: Contract)
    | Cleanup(invoice: Invoice)

  /** The phases between taking the session and giving it back without an exception. */
  predicate InBody(phase: Phase) {
    phase.Begun? || HoldsKey(phase)
  }

  /** The advisory lock has been granted and the session not yet given back. */
  predicate HoldsKey(phase: Phase) {
    phase.Locked? || phase.Unclaimed? || HasClaimed(phase)
  }

  /** acquireProcessingLock has returned a lock id. */
  predicate HasClaimed(phase: Phase) {
    phase.Claimed? || phase.Ready? || phase.Confirmed? || phase.Written? || phase.Committed?
  }

  /** The answers with which the body returns after the claim, without an exception. */
  predicate CanReject(phase: Phase, result: WebhookResult) {
    || (phase.Claimed? && result in {INVALID_AMOUNT, INVALID_STATE, CONTRACT_NOT_FOUND})
    || (phase.Ready? && result == BLOCKCHAIN_ERROR)
  }

  function CloseTx(w: World, s: nat): World {
    if s !in w.sessions || w.sessions[s].user != Idle || !w.sessions[s].open then w
    else Set(w, s, Session(false, Idle, false, multiset{}, map[], {}))
  }

  function ConnectTx(w: World, d: nat, i: Invoice, c: Contract, s: nat): World {
    if d in w.deliveries || s !in w.sessions || w.sessions[s].user != Idle || !w.sessions[s].open then w
    else
      Set(w, s, w.sessions[s].(user := Body(d), inTx := true))
        .(deliveries := w.deliveries[d := Delivery(i, c, s, Begun)])
  }

  ghost function TryLockTx(w: World, d: nat): World
    requires d in w.deliveries && w.deliveries[d].session in w.sessions
  {
    var s := w.deliveries[d].session;
    if HeldElsewhere(w, s, KeyOf(w, d)) then Phased(GiveBack(w, s), d, Dangling(DUPLICATE, false))
    else Phased(Set(w, s, w.sessions[s].(locks := w.sessions[s].locks + multiset{KeyOf(w, d)})), d, Locked)
  }

  function CheckClaimTx(w: World, d: nat): World
    requires d in w.deliveries && w.deliveries[d].session in w.sessions
  {
    var s := w.deliveries[d].session;
    if Visible(w, s, w.deliveries[d].invoice).None? then Phased(w, d, Unclaimed)
    else
      var unlocked := Set(w, s, w.sessions[s].(locks := w.sessions[s].locks - multiset{KeyOf(w, d)}));
      Phased(GiveBack(unlocked, s), d, Dangling(DUPLICATE, false))
  }

  /** The catch block up to the release: only a delivery that knows its lock id has one to release. */
  function ThrowTx(w: World, d: nat): World
    requires d in w.deliveries && w.deliveries[d].session in w.sessions
  {
    var s := w.deliveries[d].session;
    if HasClaimed(w.deliveries[d].phase) then Phased(RollbackOn(w, s), d, Recovering)
    else Phased(RollbackOn(w, s), d, Recovered)
  }

  ghost function InsertClaimTx(w: World, d: nat): World
    requires d in w.deliveries && w.deliveries[d].session in w.sessions
  {
    var s, i := w.deliveries[d].session, w.deliveries[d].invoice;
    if InsertBlocked(w, s, i) then w
    else if Visible(w, s, i).Some? then ThrowTx(w, d)
    else Phased(WriteClaim(w, s, i, Claim(d, PROCESSING)), d, Claimed)
  }

  /** The finalizer takes a session from the pool; after an exception its own is still taken. */
  function TakeSessionTx(w: World, d: nat, s: nat): World
    requires d in w.deliveries
  {
    var phase := w.deliveries[d].phase;
    if s !in w.sessions || w.sessions[s].user != Idle || !w.sessions[s].open then w
    else
      var taken := Set(w, s, w.sessions[s].(user := Finalizer(d)));
      match phase
      case Leaving(result) => Phased(taken, d, Releasing(result, s, false, false))
      case Recovering => Phased(taken, d, Releasing(UNKNOWN_ERROR, s, false, true))
      case _ => w
  }

  function UpdateClaimTx(w: World, d: nat): World
    requires d in w.deliveries && w.deliveries[d].phase.Releasing? && w.deliveries[d].phase.on in w.sessions
  {
    var phase, i := w.deliveries[d].phase, w.deliveries[d].invoice;
    var row := Visible(w, phase.on, i);
    var updated := if row.Some? && row.value.owner == d
      then WriteClaim(w, phase.on, i, Claim(d, Processed(phase.result))) else w;
    Phased(updated, d, phase.(updated := true))
  }

  /** pg_advisory_unlock releases nothing when its session does not hold the key. */
  function UnlockTx(w: World, d: nat): World
    requires d in w.deliveries && w.deliveries[d].phase.Releasing? && w.deliveries[d].phase.on in w.sessions
  {
    var phase := w.deliveries[d].phase;
    var unlocked := Set(w, phase.on, w.sessions[phase.on].(locks := w.sessions[phase.on].locks - multiset{KeyOf(w, d)}));
    Phased(GiveBack(unlocked, phase.on), d, if phase.recovering then Recovered else Dangling(phase.result, true))
  }

  /** releaseProcessingLock throws: swallowed after an exception, otherwise the finalizer ends there. */
  function FailReleaseTx(w: World, d: nat): World
    requires d in w.deliveries
  {
    match w.deliveries[d].phase
    case Leaving(result) => Phased(w, d, Abandoned(result))
    case Recovering => Phased(w, d, Recovered)
    case Releasing(result, s, _, recovering) =>
      if s !in w.sessions then w
      else Phased(GiveBack(w, s), d, if recovering then Recovered else Abandoned(result))
    case _ => w
  }

  predicate IsClaimStep(step: Step) {
    step.RefuseEarly? || step.TryLock? || step.CheckClaim? || step.InsertClaim?
  }

  /** Up to the claim. */
  ghost function ClaimStep(w: World, d: nat, step: Step): World
    requires d in w.deliveries && w.deliveries[d].session in w.sessions
  {
    var s, phase := w.deliveries[d].session, w.deliveries[d].phase;
    match step
    case RefuseEarly(_, result) =>
      if phase.Begun? && result in {INVALID_TIMESTAMP, CONTRACT_NOT_FOUND}
      then Phased(GiveBack(w, s), d, Dangling(result, false)) else w
    case TryLock(_) => if phase.Begun? then TryLockTx(w, d) else w
    case CheckClaim(_) => if phase.Locked? then CheckClaimTx(w, d) else w
    case InsertClaim(_) => if phase.Unclaimed? then InsertClaimTx(w, d) else w
    case _ => w
  }

  function FundTx(w: World, d: nat): World
    requires d in w.deliveries
  {
    Phased(w.(ledger := w.ledger[w.deliveries[d].contract := MarkFunded(d)]), d, Confirmed)
  }

  function WriteTx(w: World, d: nat): World
    requires d in w.deliveries && w.deliveries[d].session in w.sessions
  {
    Phased(WriteFunded(w, w.deliveries[d].session, w.deliveries[d].contract), d, Written)
  }

  predicate IsPaymentStep(step: Step) {
    step.Validate? || step.Reject? || step.Fund? || step.Write?
  }

  /** From the claim to the contract row. */
  function PaymentStep(w: World, d: nat, step: Step): World
    requires d in w.deliveries && w.deliveries[d].session in w.sessions
  {
    var s, phase, c := w.deliveries[d].session, w.deliveries[d].phase, w.deliveries[d].contract;
    match step
    case Validate(_) => if phase.Claimed? && c !in w.ledger then Phased(w, d, Ready) else w
    case Reject(_, result) => if CanReject(phase, result) then Phased(GiveBack(w, s), d, Leaving(result)) else w
    case Fund(_) =>
      if phase.Ready? && c !in w.ledger then FundTx(w, d) else w
    case Write(_) => if phase.Confirmed? then WriteTx(w, d) else w
    case _ => w
  }

  /** Every way to end the body, and the last COMMIT, on the delivery's own session. */
  function EndingStep(w: World, d: nat, step: Step): World
    requires d in w.deliveries && w.deliveries[d].session in w.sessions
  {
    var s, phase := w.deliveries[d].session, w.deliveries[d].phase;
    match step
    case Commit(_) => if phase.Written? then Phased(CommitOn(w, s), d, Committed) else w
    case Succeed(_) => if phase.Committed? then Phased(GiveBack(w, s), d, Leaving(SUCCESS)) else w
    case Throw(_) => if InBody(phase) then ThrowTx(w, d) else w
    case EndRecovery(_) => if phase.Recovered? then Phased(GiveBack(w, s), d, Done(UNKNOWN_ERROR)) else w
    case FinalCommit(_) => if phase.Dangling? then Phased(CommitOn(w, s), d, Done(phase.result)) else w
    case _ => w
  }

  /** One step of one delivery, on its own session. */
  ghost function BodyStep(w: World, d: nat, step: Step): World
    requires d in w.deliveries && w.deliveries[d].session in w.sessions
  {
    if IsClaimStep(step) then ClaimStep(w, d, step)
    else if IsPaymentStep(step) then PaymentStep(w, d, step)
    else EndingStep(w, d, step)
  }

  function FinalizerStep(w: World, d: nat, step: Step): World
    requires d in w.deliveries
  {
    var phase := w.deliveries[d].phase;
    match step
    case TakeSession(_, s) => TakeSessionTx(w, d, s)
    case UpdateClaim(_) => if phase.Releasing? && !phase.updated && phase.on in w.sessions then UpdateClaimTx(w, d) else w
    case Unlock(_) => if phase.Releasing? && phase.updated && phase.on in w.sessions then UnlockTx(w, d) else w
    case FailRelease(_) => FailReleaseTx(w, d)
    case _ => w
  }

  predicate IsFinalizerStep(step: Step) {
    step.TakeSession? || step.UpdateClaim? || step.Unlock? || step.FailRelease?
  }

  /** Everything that is not a step of one delivery. */
  function EnvironmentStep(w: World, step: Step): World {
    match step
    case OpenSession(s) => if s in w.sessions then w else Set(w, s, OpenedSession())
    case CloseIdle(s) => CloseTx(w, s)
    case Connect(d, i, c, s) => ConnectTx(w, d, i, c, s)
    case LedgerMoves(c) => if c in w.ledger then w else w.(ledger := w.ledger[c := Elsewhere])
    case Cleanup(i) =>
      if i in w.claims && w.claims[i].status.PROCESSING?
      then w.(claims := w.claims[i := w.claims[i].(status := Processed(UNKNOWN_ERROR))]) else w
    case _ => w
  }

  predicate IsEnvironmentStep(step: Step) {
    step.OpenSession? || step.CloseIdle? || step.Connect? || step.LedgerMoves? || step.Cleanup?
  }

  /** A step whose moment has not come does nothing. */
  ghost function Next(w: World, step: Step): World {
    if IsEnvironmentStep(step) then EnvironmentStep(w, step)
    else if step.delivery !in w.deliveries || w.deliveries[step.delivery].session !in w.sessions then w
    else if IsFinalizerStep(step) then FinalizerStep(w, step.delivery, step)
    else BodyStep(w, step.delivery, step)
  }

  /** acquireProcessingLock, its three statements in a row. */
  ghost function Acquired(w: World, d: nat): World {
    Next(Next(Next(w, TryLock(d)), CheckClaim(d)), InsertClaim(d))
  }

  /** releaseProcessingLock on the session t, its statements in a row. */
  ghost function Released(w: World, d: nat, t: nat): World {
    Next(Next(Next(w, TakeSession(d, t)), UpdateClaim(d)), Unlock(d))
  }

  ghost function Run(w: World, steps: seq<Step>): World
    decreases |steps|
  {
    if |steps| == 0 then w else Run(Next(w, steps[0]), steps[1..])
  }

  function Initial(): World {
    World(map[], map[], {}, map[], map[])
  }

  ghost predicate Reachable(w: World) {
    exists steps :: Run(Initial(), steps) == w
  }
}
