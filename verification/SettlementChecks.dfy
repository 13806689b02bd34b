/** Exactly when the unlocked checks let a call through, and exactly when an initiation is stored. */
module SettlementChecks {
  import opened Common
  import opened SettlementStatuses
  import opened SplitPayments
  import opened SettlementSystem
  import opened SettlementInvariant
  import opened SettlementPreservation
  import opened SettlementTheorems
  import S = SettlementEntity
  import A = EscrowAccounts

  // ---- Initiation ----

  ghost predicate Enough(w: World, aid: string, contractId: string, total: int) {
    AccountFor(w, aid, contractId) && w.accounts[aid].balance - w.accounts[aid].frozenAmount >= total
  }

  /** Everything an initiation asks for: the money, an acceptable split, complete accounts, a new id and reference. */
  ghost predicate Initiable(env: Environment, w: World, contractId: string, sid: string, accounts: TransferAccounts, aid: string) {
    var p := env.payout(contractId);
    && Enough(w, aid, contractId, p.totalAmount)
    && (forall e :: !Violates(p, accounts, e))
    && Create(p, accounts).Ok?
    && (forall leg :: leg in Create(p, accounts).value.legs ==> |leg.account.accountNumber| >= 10 && |leg.account.bankCode| >= 2)
    && sid !in w.settlements
    && (forall other :: other in w.settlements ==> w.settlements[other].referenceId != env.reference(contractId, p))
  }

  /** A fresh settlement, locked, of this contract on this account. */
  ghost predicate NewlyLocked(env: Environment, t: S.SettlementState, sid: string, contractId: string, aid: string, accounts: TransferAccounts) {
    var p := env.payout(contractId);
    && t.id == sid && t.contractId == contractId && t.escrowAccountId == aid
    && t.referenceId == env.reference(contractId, p) && Create(p, accounts) == Ok(t.split)
    && t.status == ESCROW_LOCKED && t.retryCount == 0 && t.results == []
    && t.txHash == None && t.blockNumber == None && t.errorMessage == None
    && t.events == [S.Event(INITIATED, S.SettlementInitiated), S.Event(ESCROW_LOCKED, S.EscrowLocked)]
  }

  /** The account has frozen the total, and nothing else about its money has changed. */
  predicate FrozenMore(a: A.AccountState, b: A.AccountState, total: int) {
    && b.id == a.id && b.contractId == a.contractId
    && b.balance == a.balance && b.frozenAmount == a.frozenAmount + total
    && |b.transactions| == |a.transactions| + 1 && b.transactions[..|a.transactions|] == a.transactions
    && b.transactions[|a.transactions|].kind == A.FREEZE && b.transactions[|a.transactions|].amount == total
  }

  lemma LockedRow(env: Environment, contractId: string, sid: string, aid: string, accounts: TransferAccounts)
    requires Create(env.payout(contractId), accounts).Ok?
    ensures var p := env.payout(contractId);
      var o := S.Apply(S.New(sid, contractId, aid, Create(p, accounts).value, env.reference(contractId, p)), S.MarkEscrowLocked);
      o.accepted && NewlyLocked(env, o.state, sid, contractId, aid, accounts)
  {
  }

  lemma FreezingTotal(a: A.AccountState, total: int, reference: string)
    requires total > 0 && a.balance - a.frozenAmount >= total
    ensures var o := A.Apply(a, A.FreezeFunds(total, reference)); o.accepted && FrozenMore(a, o.state, total)
  {
  }

  lemma AcceptableSplit(p: Payout, accounts: TransferAccounts)
    requires Create(p, accounts).Ok?
    ensures p.totalAmount > 0 && Create(p, accounts).value.payout == p
    ensures AccountsValid(Create(p, accounts).value.legs) <==>
      forall leg :: leg in Create(p, accounts).value.legs ==> |leg.account.accountNumber| >= 10 && |leg.account.bankCode| >= 2
  {
    var legs := Create(p, accounts).value.legs;
    LegsMoveTheTotal(p, accounts);
    forall k | 0 <= k < |legs| ensures legs[k] in legs {
    }
  }

  ghost predicate Stored(env: Environment, w: World, w': World, contractId: string, sid: string, accounts: TransferAccounts, aid: string)
    requires aid in w.accounts
  {
    && sid in w'.settlements && w'.settlements == w.settlements[sid := w'.settlements[sid]]
    && NewlyLocked(env, w'.settlements[sid], sid, contractId, aid, accounts)
    && aid in w'.accounts && w'.accounts == w.accounts[aid := w'.accounts[aid]]
    && FrozenMore(w.accounts[aid], w'.accounts[aid], env.payout(contractId).totalAmount)
    && w'.calls == w.calls + multiset{BankTransferCall(sid)}
  }

  lemma InitiateOnExactly(env: Environment, w: World, aid: string, contractId: string, sid: string, accounts: TransferAccounts)
    requires aid in w.accounts && w.accounts[aid].id == aid && w.accounts[aid].contractId == contractId
    ensures var p := env.payout(contractId);
      var w' := InitiateOn(w, aid, contractId, p, env.reference(contractId, p), sid, accounts);
      if Initiable(env, w, contractId, sid, accounts, aid) then Stored(env, w, w', contractId, sid, accounts, aid) else w' == w
  {
    var p := env.payout(contractId);
    CreateSucceedsExactly(p, accounts);
    if Create(p, accounts).Ok? && w.accounts[aid].balance - w.accounts[aid].frozenAmount >= p.totalAmount {
      AcceptableSplit(p, accounts);
      LockedRow(env, contractId, sid, aid, accounts);
      FreezingTotal(w.accounts[aid], p.totalAmount, env.reference(contractId, p));
      UsedReference(w, env.reference(contractId, p));
    }
  }

  lemma UsedReference(w: World, reference: string)
    ensures SettlementByReference(w, reference).None? <==>
      forall other :: other in w.settlements ==> w.settlements[other].referenceId != reference
  {
    forall other | other in w.settlements ensures w.settlements[other].referenceId == reference <==> HasReference(w, other, reference) {
    }
  }

  /**
   * An initiation that has passed its check is stored exactly when the contract's account has its total available,
   * the payout violates no rule, every leg's account is complete, and id and reference are new. It then adds one
   * locked settlement, freezes the total and asks for the bank transfer; otherwise only its call is used up.
   */
  lemma InitiationStoredExactly(env: Environment, w: World, contractId: string, sid: string, accounts: TransferAccounts)
    requires Reachable(env, w) && InitiateCall(contractId) in w.calls
    ensures var w' := Next(env, w, RunInitiate(contractId, sid, accounts));
      && (forall aid :: Initiable(env, w, contractId, sid, accounts, aid) ==>
            Stored(env, Take(w, InitiateCall(contractId)), w', contractId, sid, accounts, aid))
      && ((forall aid :: !Initiable(env, w, contractId, sid, accounts, aid)) ==> w' == Take(w, InitiateCall(contractId)))
  {
    ReachableSatisfiesInv(env, w);
    var w0 := Take(w, InitiateCall(contractId));
    var account := AccountOf(w0, contractId);
    TakenLookup(w, InitiateCall(contractId), contractId);
    if account.Some? {
      var aid := account.value;
      AccountIsOk(w, aid);
      InitiateOnExactly(env, w0, aid, contractId, sid, accounts);
      SameInitiable(env, w, w0, contractId, sid, accounts, aid);
      forall other | AccountFor(w, other, contractId) ensures other == aid {
        assert AccountFor(w, aid, contractId);
      }
    }
  }

  lemma TakenLookup(w: World, call: Call, contractId: string)
    ensures AccountOf(Take(w, call), contractId).Some? ==> AccountFor(w, AccountOf(Take(w, call), contractId).value, contractId)
    ensures AccountOf(Take(w, call), contractId).None? ==> forall aid :: !AccountFor(w, aid, contractId)
  {
    assert forall aid :: AccountFor(Take(w, call), aid, contractId) <==> AccountFor(w, aid, contractId);
  }

  lemma SameInitiable(env: Environment, w: World, w0: World, contractId: string, sid: string, accounts: TransferAccounts, aid: string)
    requires w0.accounts == w.accounts && w0.settlements == w.settlements
    ensures Initiable(env, w0, contractId, sid, accounts, aid) <==> Initiable(env, w, contractId, sid, accounts, aid)
  {
  }

  // ---- Checks ----

  /** An initiation passes its check exactly when the ledger says VERIFIED and the contract has no settlement yet. */
  lemma InitiateCheckExactly(env: Environment, w: World, contractId: string, onChainStatus: int)
    requires Reachable(env, w)
    ensures Next(env, w, CheckInitiate(contractId, onChainStatus)) ==
      if onChainStatus == 2 && (forall sid :: !HasContract(w, sid, contractId)) then w.(calls := w.calls + multiset{InitiateCall(contractId)}) else w
  {
    var existing := SettlementOf(w, contractId);
    if existing.Some? { ReachableRow(env, w, existing.value); }
  }

  /** A callback passes its check exactly when its reference is that of a settlement waiting for the bank. */
  lemma CallbackCheckExactly(env: Environment, w: World, callback: BankCallback)
    requires Reachable(env, w)
    ensures var w' := Next(env, w, CheckCallback(callback));
      && (forall sid :: HasReference(w, sid, callback.referenceId) && w.settlements[sid].status == BANK_PENDING ==>
            w' == w.(calls := w.calls + multiset{CallbackCall(sid, callback)}))
      && ((forall sid :: HasReference(w, sid, callback.referenceId) ==> w.settlements[sid].status != BANK_PENDING) ==> w' == w)
  {
    ReachableSatisfiesInv(env, w);
    forall sid | HasReference(w, sid, callback.referenceId)
      ensures SettlementByReference(w, callback.referenceId) == Some(sid)
    {
      assert HasReference(w, SettlementByReference(w, callback.referenceId).value, callback.referenceId);
    }
  }

  /** A retry passes its check exactly after a failure and with retries left, and remembers the failure it saw. */
  lemma RetryCheckExactly(env: Environment, w: World, sid: string)
    ensures Next(env, w, CheckRetry(sid)) ==
      if sid in w.settlements && w.settlements[sid].status in {BANK_FAILED, BLOCKCHAIN_FAILED} && w.settlements[sid].retryCount < 3
      then w.(calls := w.calls + multiset{RetryCall(sid, w.settlements[sid].status)}) else w
  {
  }
}
