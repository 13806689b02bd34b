/** What every interleaving of the settlement transactions keeps, and how each row may evolve. */
module SettlementInvariant {
  import opened Common
  import opened SettlementStatuses
  import opened SplitPayments
  import opened SettlementSystem
  import S = SettlementEntity
  import A = EscrowAccounts

  // ---- The log without leg results ----

  /** The audit log once BANK_LEG_RESULT entries are dropped. */
  function Strip(events: seq<S.Event>): seq<S.Event> {
    if |events| == 0 then []
    else
      var last := events[|events| - 1];
      Strip(events[..|events| - 1]) + (if last.action.BankLegResult? then [] else [last])
  }

  lemma StripAppend(events: seq<S.Event>, e: S.Event)
    ensures Strip(events + [e]) == Strip(events) + (if e.action.BankLegResult? then [] else [e])
  {
    assert (events + [e])[..|events|] == events;
  }

  ghost predicate EndsPaid(log: seq<S.Event>) {
    |log| >= 1 && log[|log| - 1] == S.Event(BANK_SUCCESS, S.BankTransferSuccess)
  }

  /** The last four entries of a completed settlement, in order. */
  ghost predicate EndsSettled(log: seq<S.Event>) {
    && |log| >= 4
    && log[|log| - 4] == S.Event(BANK_SUCCESS, S.BankTransferSuccess)
    && log[|log| - 3] == S.Event(BANK_SUCCESS, S.OnChainStatusVerified(EXPECTED_STATUS_VERIFIED))
    && log[|log| - 2].status == BLOCKCHAIN_PENDING && log[|log| - 2].action.BlockchainTxSubmitted?
    && log[|log| - 1].status == COMPLETED && log[|log| - 1].action.SettlementCompleted?
  }

  // ---- One settlement and its account ----

  /** The statuses a committed row can have without operator intervention. */
  predicate Committed(status: SettlementStatus) {
    status in {ESCROW_LOCKED, BANK_PENDING, BANK_SUCCESS, BANK_FAILED, BLOCKCHAIN_FAILED, COMPLETED,
               BLOCKED_BY_STATE_CHANGE, FROZEN_BY_DISPUTE}
  }

  /** A first attempt that has neither failed at the bank, nor finished, nor been frozen. */
  predicate HoldsFunds(s: S.SettlementState) {
    s.retryCount == 0
    && s.status in {ESCROW_LOCKED, BANK_PENDING, BANK_SUCCESS, BLOCKCHAIN_FAILED, BLOCKED_BY_STATE_CHANGE}
  }

  /** The settlement has failed at the bank at some point, so an unlock may be on its way. */
  predicate MayBeUnlocked(s: S.SettlementState) {
    s.retryCount >= 1 || s.status in {BANK_FAILED, FROZEN_BY_DISPUTE}
  }

  function Total(s: S.SettlementState): int {
    s.split.payout.totalAmount
  }

  ghost predicate LogMatches(s: S.SettlementState) {
    && (s.status == BANK_SUCCESS ==> EndsPaid(Strip(s.events)))
    && (s.status == COMPLETED ==> EndsSettled(Strip(s.events)))
  }

  ghost predicate MoneyMatches(s: S.SettlementState, a: A.AccountState) {
    && A.TotalOf(A.DEBIT, a.transactions) == (if s.status == COMPLETED then Total(s) else 0)
    && (HoldsFunds(s) ==> a.frozenAmount >= Total(s))
    && (s.status == COMPLETED && s.retryCount == 0 ==> A.TotalOf(A.CREDIT, a.transactions) >= 2 * Total(s))
  }

  ghost predicate Agreed(env: Environment, s: S.SettlementState) {
    && s.split.payout == env.payout(s.contractId)
    && s.referenceId == env.reference(s.contractId, s.split.payout)
    && Total(s) > 0
  }

  ghost predicate RowOk(env: Environment, w: World, sid: string)
    requires sid in w.settlements
  {
    var s := w.settlements[sid];
    && s.id == sid
    && s.escrowAccountId in w.accounts
    && w.accounts[s.escrowAccountId].contractId == s.contractId
    && Agreed(env, s)
    && Committed(s.status) && s.retryCount <= 3
    && LogMatches(s)
    && MoneyMatches(s, w.accounts[s.escrowAccountId])
    && (forall r :: UnlockCall(s.escrowAccountId, r) in w.calls ==> MayBeUnlocked(s))
  }

  ghost predicate Owns(w: World, sid: string, aid: string) {
    sid in w.settlements && w.settlements[sid].escrowAccountId == aid
  }

  ghost predicate Unowned(w: World, aid: string) {
    forall sid :: !Owns(w, sid, aid)
  }

  ghost predicate AccountOk(w: World, aid: string)
    requires aid in w.accounts
  {
    && w.accounts[aid].id == aid
    && A.Valid(w.accounts[aid])
    && w.accounts[aid].status != CLOSED
    && (Unowned(w, aid) ==> A.TotalOf(A.DEBIT, w.accounts[aid].transactions) == 0)
    && (Unowned(w, aid) ==> forall r :: UnlockCall(aid, r) !in w.calls)
  }

  ghost predicate RowsOk(env: Environment, w: World) {
    forall sid :: sid in w.settlements ==> RowOk(env, w, sid)
  }

  ghost predicate AccountsOk(w: World) {
    forall aid :: aid in w.accounts ==> AccountOk(w, aid)
  }

  ghost predicate UnlocksKnown(w: World) {
    forall aid, r :: UnlockCall(aid, r) in w.calls ==> aid in w.accounts
  }

  /** Migration 003: the contract of an escrow account and the reference of a settlement are unique. */
  ghost predicate KeysUnique(w: World) {
    && (forall a1, a2 | a1 in w.accounts && a2 in w.accounts ::
          w.accounts[a1].contractId == w.accounts[a2].contractId ==> a1 == a2)
    && (forall s1, s2 | s1 in w.settlements && s2 in w.settlements ::
          w.settlements[s1].referenceId == w.settlements[s2].referenceId ==> s1 == s2)
  }

  ghost predicate Inv(env: Environment, w: World) {
    RowsOk(env, w) && AccountsOk(w) && UnlocksKnown(w) && KeysUnique(w)
  }

  /** Two settlements of one contract would share their reference, so there is at most one. */
  lemma OneSettlementPerContract(env: Environment, w: World, s1: string, s2: string)
    requires Inv(env, w)
    requires s1 in w.settlements && s2 in w.settlements
    requires w.settlements[s1].contractId == w.settlements[s2].contractId
    ensures s1 == s2
  {
    assert RowOk(env, w, s1) && RowOk(env, w, s2);
  }

  lemma OneOwner(env: Environment, w: World, s1: string, s2: string, aid: string)
    requires Inv(env, w)
    requires Owns(w, s1, aid) && Owns(w, s2, aid)
    ensures s1 == s2
  {
    assert RowOk(env, w, s1) && RowOk(env, w, s2);
    OneSettlementPerContract(env, w, s1, s2);
  }

  // ---- How a row may evolve in one step ----

  /** The rank of a status inside one attempt; it falls along every committed change but a retry. */
  function Rank(status: SettlementStatus): nat {
    match status
    case INITIATED => 5
    case ESCROW_LOCKED => 4
    case BANK_PENDING => 3
    case BANK_SUCCESS => 2
    case BLOCKCHAIN_PENDING => 2
    case BANK_FAILED => 1
    case BLOCKCHAIN_FAILED => 1
    case MANUAL_REVIEW => 0
    case COMPLETED => 0
    case CANCELLED => 0
    case BLOCKED_BY_STATE_CHANGE => 0
    case FROZEN_BY_DISPUTE => 0
  }

  /** (3 - retryCount, rank) as one number: an attempt has ranks 4 to 0, and a retry costs 4. */
  function Potential(s: S.SettlementState): int {
    4 * (3 - s.retryCount) + Rank(s.status)
  }

  ghost predicate Evolves(s: S.SettlementState, t: S.SettlementState) {
    && t.id == s.id && t.contractId == s.contractId && t.escrowAccountId == s.escrowAccountId
    && t.split == s.split && t.referenceId == s.referenceId
    && s.events <= t.events
    && (t.status == s.status ==> t.retryCount == s.retryCount)
    && (t.status != s.status ==> Potential(t) < Potential(s))
    && (s.status in {COMPLETED, FROZEN_BY_DISPUTE, BLOCKED_BY_STATE_CHANGE} ==> t.status == s.status)
  }

  /** Money leaves an account only when a settlement becomes completed. */
  ghost predicate AccountEvolves(a: A.AccountState, b: A.AccountState, completing: bool) {
    && b.id == a.id && b.contractId == a.contractId
    && a.transactions <= b.transactions
    && (!completing ==> b.balance >= a.balance)
  }

  predicate Completing(s: S.SettlementState, t: S.SettlementState) {
    s.status != COMPLETED && t.status == COMPLETED
  }

  ghost predicate NoUnlockWaiting(w: World, aid: string) {
    forall r :: UnlockCall(aid, r) !in w.calls
  }

  /** One row from world to world: the settlement, its account, and a dispute freeze nobody can still undo. */
  ghost predicate RowEvolves(w: World, w': World, sid: string)
    requires sid in w.settlements && w.settlements[sid].escrowAccountId in w.accounts
  {
    && sid in w'.settlements
    && var s, t := w.settlements[sid], w'.settlements[sid];
    && Evolves(s, t)
    && s.escrowAccountId in w'.accounts
    && var a, b := w.accounts[s.escrowAccountId], w'.accounts[s.escrowAccountId];
    && AccountEvolves(a, b, Completing(s, t))
    && (s.status == FROZEN_BY_DISPUTE && NoUnlockWaiting(w, a.id) ==>
          b.frozenAmount >= a.frozenAmount && NoUnlockWaiting(w', a.id))
  }

  ghost predicate AllEvolve(env: Environment, w: World, w': World)
    requires Inv(env, w)
  {
    forall sid :: sid in w.settlements ==> RowOk(env, w, sid) && RowEvolves(w, w', sid)
  }
}
