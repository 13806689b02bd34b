/** The transactions that open, fund, lock, unlock or freeze an escrow account keep the invariant. */
module EscrowTransactions {
  import opened Common
  import opened SettlementStatuses
  import opened SplitPayments
  import opened SettlementSystem
  import opened SettlementInvariant
  import opened SettlementPreservation
  import opened SettlementTransactions
  import S = SettlementEntity
  import A = EscrowAccounts

  // ---- Taking a waiting call ----

  lemma TakeKeeps(env: Environment, w: World, call: Call)
    requires Inv(env, w)
    ensures Inv(env, Take(w, call)) && AllEvolve(env, w, Take(w, call))
  {
    CallsOnly(env, w, Take(w, call));
  }

  /** What holds of a transaction run after taking its call holds of both together. */
  lemma AfterTake(env: Environment, w: World, call: Call, w': World)
    requires Inv(env, w) && Inv(env, Take(w, call))
    requires AllEvolve(env, Take(w, call), w')
    ensures AllEvolve(env, w, w')
  {
    var w0 := Take(w, call);
    forall x | x in w.settlements ensures RowOk(env, w, x) && RowEvolves(w, w', x) {
      assert RowOk(env, w, x) && RowOk(env, w0, x) && RowEvolves(w0, w', x);
      RowEvolvesAfterTake(w, call, w', x);
    }
  }

  lemma RowEvolvesAfterTake(w: World, call: Call, w': World, x: string)
    requires x in w.settlements && w.settlements[x].escrowAccountId in w.accounts
    requires RowEvolves(Take(w, call), w', x)
    ensures RowEvolves(w, w', x)
  {
  }

  // ---- Accounts ----

  lemma CreditKeeps(env: Environment, w: World, aid: string, amount: int, reference: string)
    requires Inv(env, w) && aid in w.accounts
    ensures var w' := SaveAccount(w, A.Apply(w.accounts[aid], A.Credit(amount, reference)).state);
      Inv(env, w') && AllEvolve(env, w, w')
  {
    assert AccountOk(w, aid);
    CreditEffect(w.accounts[aid], amount, reference);
    var b := A.Apply(w.accounts[aid], A.Credit(amount, reference)).state;
    AccountUpdate(env, w, SaveAccount(w, b), aid, b);
  }

  lemma AccountsAfterOpening(env: Environment, w: World, aid: string, contractId: string)
    requires Inv(env, w) && aid !in w.accounts
    ensures AccountsOk(SaveAccount(w, A.New(aid, contractId)))
  {
    var w' := SaveAccount(w, A.New(aid, contractId));
    forall y | y in w'.accounts ensures AccountOk(w', y) {
      if y != aid {
        assert AccountOk(w, y);
        if Unowned(w', y) {
          forall x ensures !Owns(w, x, y) {
            assert !Owns(w', x, y);
          }
        }
      }
    }
  }

  lemma KeysAfterOpening(w: World, aid: string, contractId: string)
    requires KeysUnique(w) && aid !in w.accounts && AccountOf(w, contractId).None?
    ensures KeysUnique(SaveAccount(w, A.New(aid, contractId)))
  {
    forall y | y in w.accounts ensures w.accounts[y].contractId != contractId {
      assert !AccountFor(w, y, contractId);
    }
  }

  lemma OpenKeeps(env: Environment, w: World, aid: string, contractId: string)
    requires Inv(env, w) && aid !in w.accounts && AccountOf(w, contractId).None?
    ensures var w' := SaveAccount(w, A.New(aid, contractId)); Inv(env, w') && AllEvolve(env, w, w')
  {
    var w' := SaveAccount(w, A.New(aid, contractId));
    forall x | x in w.settlements ensures RowOk(env, w', x) && RowOk(env, w, x) && RowEvolves(w, w', x) {
      assert RowOk(env, w, x);
      assert AccountOk(w, w.settlements[x].escrowAccountId);
      UntouchedRow(env, w, w', x);
    }
    AccountsAfterOpening(env, w, aid, contractId);
    KeysAfterOpening(w, aid, contractId);
  }

  // ---- Unlock ----

  /** An unlock releases all that is frozen, unless there is nothing frozen or the bank throws. */
  lemma UnlockShape(w: World, aid: string, reference: string, bankThrows: bool)
    requires aid in w.accounts && w.accounts[aid].id == aid
    ensures var a := w.accounts[aid];
      UnlockTx(w, aid, reference, bankThrows) ==
        if a.frozenAmount <= 0 || bankThrows then w
        else SaveAccount(w, A.Apply(a, A.UnfreezeFunds(a.frozenAmount, reference)).state)
  {
  }

  /** What is released, and that no row changes otherwise. */
  lemma UnlockReleases(w: World, aid: string, reference: string, bankThrows: bool)
    requires aid in w.accounts && AccountOk(w, aid) && UnlockCall(aid, reference) in w.calls
    ensures var call := UnlockCall(aid, reference);
      var w', a := UnlockTx(Take(w, call), aid, reference, bankThrows), w.accounts[aid];
      if a.frozenAmount <= 0 || bankThrows then w' == Take(w, call)
      else
        && w'.settlements == w.settlements && NoNewUnlocks(w, w')
        && w'.accounts == w.accounts[aid := A.Apply(a, A.UnfreezeFunds(a.frozenAmount, reference)).state]
  {
    UnlockShape(Take(w, UnlockCall(aid, reference)), aid, reference, bankThrows);
  }

  lemma UnlockKeeps(env: Environment, w: World, aid: string, reference: string, bankThrows: bool)
    requires Inv(env, w) && UnlockCall(aid, reference) in w.calls
    ensures var w' := UnlockTx(Take(w, UnlockCall(aid, reference)), aid, reference, bankThrows);
      Inv(env, w') && AllEvolve(env, w, w')
  {
    assert aid in w.accounts && AccountOk(w, aid);
    UnlockReleases(w, aid, reference, bankThrows);
    UnlockOutcomeKeeps(env, w, UnlockTx(Take(w, UnlockCall(aid, reference)), aid, reference, bankThrows), aid, reference);
  }

  lemma UnlockOutcomeKeeps(env: Environment, w: World, w': World, aid: string, reference: string)
    requires Inv(env, w) && aid in w.accounts && UnlockCall(aid, reference) in w.calls
    requires
      || w' == Take(w, UnlockCall(aid, reference))
      || (&& w.accounts[aid].frozenAmount > 0 && w'.settlements == w.settlements && NoNewUnlocks(w, w')
          && w'.accounts == w.accounts[aid := A.Apply(w.accounts[aid], A.UnfreezeFunds(w.accounts[aid].frozenAmount, reference)).state])
    ensures Inv(env, w') && AllEvolve(env, w, w')
  {
    if w' == Take(w, UnlockCall(aid, reference)) {
      TakeKeeps(env, w, UnlockCall(aid, reference));
    } else {
      var sid := UnlockedOwner(w, aid, reference);
      UnlockedRow(env, w, w', sid, aid, reference);
    }
  }

  /** An unlock waits only for the account of a settlement. */
  lemma UnlockedOwner(w: World, aid: string, reference: string) returns (sid: string)
    requires AccountsOk(w) && aid in w.accounts && UnlockCall(aid, reference) in w.calls
    ensures Owns(w, sid, aid)
  {
    assert AccountOk(w, aid) && !Unowned(w, aid);
    sid :| Owns(w, sid, aid);
  }

  function Unfrozen(a: A.AccountState, reference: string): A.AccountState {
    A.Apply(a, A.UnfreezeFunds(a.frozenAmount, reference)).state
  }

  /** A settlement whose account may be unlocked keeps what it promises when everything is released. */
  lemma UnlockedPair(s: S.SettlementState, a: A.AccountState, reference: string)
    requires A.Valid(a) && a.status != CLOSED && MoneyMatches(s, a) && LogMatches(s)
    requires Committed(s.status) && s.retryCount <= 3 && MayBeUnlocked(s) && a.frozenAmount > 0
    ensures GoodPair(s, a, s, Unfrozen(a, reference))
  {
    UnfreezeEffect(a, a.frozenAmount, reference);
  }

  lemma UnlockedRow(env: Environment, w: World, w': World, sid: string, aid: string, reference: string)
    requires Inv(env, w) && Owns(w, sid, aid) && aid in w.accounts && UnlockCall(aid, reference) in w.calls
    requires w.accounts[aid].frozenAmount > 0
    requires w'.settlements == w.settlements && NoNewUnlocks(w, w')
    requires w'.accounts == w.accounts[aid := Unfrozen(w.accounts[aid], reference)]
    ensures Inv(env, w') && AllEvolve(env, w, w')
  {
    assert RowOk(env, w, sid) && AccountOk(w, aid);
    var s, a := w.settlements[sid], w.accounts[aid];
    UnlockedPair(s, a, reference);
    assert w'.settlements == w.settlements[sid := s];
    RowUpdate(env, w, w', sid, s, Unfrozen(a, reference));
  }

  // ---- Initiation ----

  /** The rows after an initiation, described without the branches that lead to it. */
  ghost predicate Initiates(env: Environment, w: World, w': World, aid: string, sid: string, s: S.SettlementState, b: A.AccountState) {
    && aid in w.accounts && sid !in w.settlements
    && w'.settlements == w.settlements[sid := s] && w'.accounts == w.accounts[aid := b]
    && NoNewUnlocks(w, w')
    && s.id == sid && s.escrowAccountId == aid && s.contractId == w.accounts[aid].contractId
    && Agreed(env, s)
    && s.status == ESCROW_LOCKED && s.retryCount == 0
    && (forall x :: x in w.settlements ==> w.settlements[x].referenceId != s.referenceId)
    && GoodAccount(w.accounts[aid], b)
    && b.frozenAmount >= Total(s)
  }

  lemma AccountIsFree(env: Environment, w: World, w': World, aid: string, sid: string, s: S.SettlementState, b: A.AccountState)
    requires Inv(env, w) && Initiates(env, w, w', aid, sid, s, b)
    ensures Unowned(w, aid)
  {
    forall x | x in w.settlements ensures w.settlements[x].escrowAccountId != aid {
      assert RowOk(env, w, x);
      assert Agreed(env, w.settlements[x]);
    }
  }

  lemma AccountsAfterInitiation(env: Environment, w: World, w': World, aid: string, sid: string, s: S.SettlementState, b: A.AccountState)
    requires AccountsOk(w) && Initiates(env, w, w', aid, sid, s, b)
    ensures AccountsOk(w')
  {
    forall y | y in w'.accounts ensures AccountOk(w', y) {
      if y == aid {
        assert Owns(w', sid, y);
      } else {
        assert forall x :: Owns(w, x, y) ==> Owns(w', x, y);
        AccountPersists(w, w', y);
      }
    }
  }

  /** A row that was there before the initiation has another account. */
  lemma EarlierRowKept(env: Environment, w: World, w': World, aid: string, sid: string, s: S.SettlementState, b: A.AccountState, x: string)
    requires RowsOk(env, w) && AccountsOk(w) && Initiates(env, w, w', aid, sid, s, b)
    requires Unowned(w, aid) && x in w.settlements
    ensures RowOk(env, w', x) && RowOk(env, w, x) && RowEvolves(w, w', x)
  {
    assert RowOk(env, w, x) && !Owns(w, x, aid);
    assert AccountOk(w, w.settlements[x].escrowAccountId);
    UntouchedRow(env, w, w', x);
  }

  lemma InitiationKeeps(env: Environment, w: World, w': World, aid: string, sid: string, s: S.SettlementState, b: A.AccountState)
    requires Inv(env, w) && Initiates(env, w, w', aid, sid, s, b)
    ensures Inv(env, w') && AllEvolve(env, w, w')
  {
    AccountIsFree(env, w, w', aid, sid, s, b);
    forall x | x in w.settlements ensures RowOk(env, w', x) && RowOk(env, w, x) && RowEvolves(w, w', x) {
      EarlierRowKept(env, w, w', aid, sid, s, b, x);
    }
    assert AccountOk(w, aid);
    InitiatedRow(env, w, w', aid, sid, s, b);
    AccountsAfterInitiation(env, w, w', aid, sid, s, b);
    KeysAfterInitiation(env, w, w', aid, sid, s, b);
  }

  lemma InitiatedRow(env: Environment, w: World, w': World, aid: string, sid: string, s: S.SettlementState, b: A.AccountState)
    requires Inv(env, w) && Initiates(env, w, w', aid, sid, s, b) && AccountOk(w, aid) && Unowned(w, aid)
    ensures RowOk(env, w', sid)
  {
  }

  lemma KeysAfterInitiation(env: Environment, w: World, w': World, aid: string, sid: string, s: S.SettlementState, b: A.AccountState)
    requires KeysUnique(w) && Initiates(env, w, w', aid, sid, s, b)
    ensures KeysUnique(w')
  {
  }

  /** The new row and the account it freezes, on the account found for the contract. */
  lemma InitiateOnShape(env: Environment, w: World, aid: string, contractId: string, sid: string, accounts: TransferAccounts)
    requires aid in w.accounts && AccountOk(w, aid) && w.accounts[aid].contractId == contractId
    ensures var payout := env.payout(contractId);
      var w' := InitiateOn(w, aid, contractId, payout, env.reference(contractId, payout), sid, accounts);
      || w' == w
      || exists s, b :: Initiates(env, w, w', aid, sid, s, b)
  {
    var payout := env.payout(contractId);
    var reference := env.reference(contractId, payout);
    var w' := InitiateOn(w, aid, contractId, payout, reference, sid, accounts);
    if w' != w {
      var split := Create(payout, accounts).value;
      var s := S.Apply(S.New(sid, contractId, aid, split, reference), S.MarkEscrowLocked).state;
      FreezeEffect(w.accounts[aid], payout.totalAmount, reference);
      var b := A.Apply(w.accounts[aid], A.FreezeFunds(payout.totalAmount, reference)).state;
      forall x | x in w.settlements ensures w.settlements[x].referenceId != reference {
        assert !HasReference(w, x, reference);
      }
      assert Initiates(env, w, w', aid, sid, s, b);
    }
  }

  /** An initiation either changes nothing or adds one locked settlement and freezes its total. */
  lemma InitiateShape(env: Environment, w: World, contractId: string, sid: string, accounts: TransferAccounts)
    requires AccountsOk(w)
    ensures var payout := env.payout(contractId);
      var w' := InitiateTx(w, contractId, payout, env.reference(contractId, payout), sid, accounts);
      || w' == w
      || exists aid, s, b :: Initiates(env, w, w', aid, sid, s, b)
  {
    var account := AccountOf(w, contractId);
    if account.Some? {
      InitiateOnShape(env, w, account.value, contractId, sid, accounts);
    }
  }

  lemma InitiateKeeps(env: Environment, w: World, w': World, contractId: string, sid: string, accounts: TransferAccounts)
    requires Inv(env, w)
    requires w' == InitiateTx(w, contractId, env.payout(contractId), env.reference(contractId, env.payout(contractId)), sid, accounts)
    ensures Inv(env, w') && AllEvolve(env, w, w')
  {
    InitiateShape(env, w, contractId, sid, accounts);
    if w' == w {
      CallsOnly(env, w, w');
    } else {
      var aid, s, b :| Initiates(env, w, w', aid, sid, s, b);
      InitiationKeeps(env, w, w', aid, sid, s, b);
    }
  }

  // ---- Dispute ----

  /** The account of the contract after the first half of the dispute transaction. */
  function FrozenAccount(a: A.AccountState, bankThrows: bool): A.AccountState {
    if A.Available(a) <= 0 || bankThrows then a
    else A.Apply(a, A.FreezeFunds(A.Available(a), "DISPUTE")).state
  }

  /** The freeze is never refused: unless the bank throws, nothing remains available. */
  lemma DisputeFreezeEffect(w: World, a: A.AccountState, bankThrows: bool)
    requires A.Valid(a) && a.status != CLOSED
    ensures var b := FrozenAccount(a, bankThrows);
      && GoodAccount(a, b)
      && b.balance == a.balance
      && (!bankThrows ==> A.Available(b) == 0)
      && (a.id in w.accounts && w.accounts[a.id] == a ==>
            FreezeForDispute(w, a, "DISPUTE", bankThrows) == SaveAccount(w, b))
  {
    if A.Available(a) > 0 && !bankThrows {
      FreezeEffect(a, A.Available(a), "DISPUTE");
    }
    if a.id in w.accounts && w.accounts[a.id] == a {
      assert w.accounts[a.id := a] == w.accounts;
    }
  }

  lemma DisputeEscrowShape(w: World, event: DisputeEvent, bankThrows: bool, aid: string)
    requires AccountsOk(w) && AccountOf(w, event.contractId) == Some(aid)
    ensures aid in w.accounts
    ensures DisputeEscrow(w, event, bankThrows) == SaveAccount(w, FrozenAccount(w.accounts[aid], bankThrows))
    ensures GoodAccount(w.accounts[aid], FrozenAccount(w.accounts[aid], bankThrows))
    ensures w.accounts[aid].id == aid
  {
    assert AccountOk(w, aid);
    DisputeFreezeEffect(w, w.accounts[aid], bankThrows);
  }

  lemma FrozenByDisputeEffect(s: S.SettlementState, block: int)
    requires CanBeFrozenByDispute(s.status)
    ensures var o := S.Apply(s, S.MarkFrozenByDispute(block, ""));
      && (o.accepted <==> s.status != BLOCKED_BY_STATE_CHANGE)
      && (o.accepted ==>
            && o.state.status == FROZEN_BY_DISPUTE && o.state.retryCount == s.retryCount
            && o.state.id == s.id && LogMatches(o.state)
            && (Rank(s.status) > 0 ==> Evolves(s, o.state)))
  {
    FreezableWithoutEdge(s.status);
  }

  /** The three outcomes of the dispute transaction, in terms of the rows they change. */
  lemma DisputeShape(env: Environment, w: World, event: DisputeEvent, bankThrows: bool)
    requires Inv(env, w)
    ensures var found := SettlementOf(w, event.contractId);
      var escrow := DisputeEscrow(w, event, bankThrows);
      DisputeTx(w, event, bankThrows) ==
        if found.None? || !CanBeFrozenByDispute(w.settlements[found.value].status) then (escrow, true)
        else if w.settlements[found.value].status == BLOCKED_BY_STATE_CHANGE then (w, false)
        else (Save(escrow, S.Apply(w.settlements[found.value], S.MarkFrozenByDispute(event.blockNumber, "")).state), true)
  {
    var found := SettlementOf(w, event.contractId);
    if found.Some? && CanBeFrozenByDispute(w.settlements[found.value].status) {
      FrozenByDisputeEffect(w.settlements[found.value], event.blockNumber);
    }
  }

  lemma DisputeEscrowKeeps(env: Environment, w: World, event: DisputeEvent, bankThrows: bool)
    requires Inv(env, w)
    ensures var w' := DisputeEscrow(w, event, bankThrows); Inv(env, w') && AllEvolve(env, w, w')
  {
    var account := AccountOf(w, event.contractId);
    if account.None? {
      CallsOnly(env, w, w);
    } else {
      var aid := account.value;
      DisputeEscrowShape(w, event, bankThrows, aid);
      assert AccountOk(w, aid);
      var b := FrozenAccount(w.accounts[aid], bankThrows);
      AccountUpdate(env, w, SaveAccount(w, b), aid, b);
    }
  }

  /** The settlement of a contract and the account of the contract belong together. */
  lemma SameAccount(env: Environment, w: World, contractId: string, sid: string)
    requires Inv(env, w) && HasContract(w, sid, contractId)
    ensures AccountOf(w, contractId) == Some(w.settlements[sid].escrowAccountId)
  {
    assert RowOk(env, w, sid);
    assert AccountFor(w, w.settlements[sid].escrowAccountId, contractId);
  }

  lemma DisputeKeeps(env: Environment, w: World, w': World, event: DisputeEvent, bankThrows: bool)
    requires Inv(env, w) && w' == DisputeTx(w, event, bankThrows).0
    ensures Inv(env, w') && AllEvolve(env, w, w')
  {
    var found := SettlementOf(w, event.contractId);
    DisputeShape(env, w, event, bankThrows);
    if found.None? || !CanBeFrozenByDispute(w.settlements[found.value].status) {
      DisputeEscrowKeeps(env, w, event, bankThrows);
    } else if w.settlements[found.value].status == BLOCKED_BY_STATE_CHANGE {
      CallsOnly(env, w, w');
    } else {
      DisputedSettlementKeeps(env, w, w', event, bankThrows, found.value);
    }
  }

  function Marked(s: S.SettlementState, block: int): S.SettlementState {
    S.Apply(s, S.MarkFrozenByDispute(block, "")).state
  }

  /** The world after a dispute over an active settlement, row by row. */
  lemma DisputedWorld(w: World, event: DisputeEvent, bankThrows: bool, sid: string, aid: string)
    requires AccountsOk(w) && sid in w.settlements && w.settlements[sid].id == sid
    requires AccountOf(w, event.contractId) == Some(aid)
    requires CanBeFrozenByDispute(w.settlements[sid].status) && w.settlements[sid].status != BLOCKED_BY_STATE_CHANGE
    ensures aid in w.accounts && GoodAccount(w.accounts[aid], FrozenAccount(w.accounts[aid], bankThrows))
    ensures Save(DisputeEscrow(w, event, bankThrows), Marked(w.settlements[sid], event.blockNumber)) ==
      w.(settlements := w.settlements[sid := Marked(w.settlements[sid], event.blockNumber)],
         accounts := w.accounts[aid := FrozenAccount(w.accounts[aid], bankThrows)])
  {
    DisputeEscrowShape(w, event, bankThrows, aid);
    FrozenByDisputeEffect(w.settlements[sid], event.blockNumber);
  }

  lemma DisputedSettlementKeeps(env: Environment, w: World, w': World, event: DisputeEvent, bankThrows: bool, sid: string)
    requires Inv(env, w) && HasContract(w, sid, event.contractId)
    requires CanBeFrozenByDispute(w.settlements[sid].status) && w.settlements[sid].status != BLOCKED_BY_STATE_CHANGE
    requires w' == Save(DisputeEscrow(w, event, bankThrows), Marked(w.settlements[sid], event.blockNumber))
    ensures Inv(env, w') && AllEvolve(env, w, w')
  {
    var s := w.settlements[sid];
    assert RowOk(env, w, sid) && AccountOk(w, s.escrowAccountId);
    SameAccount(env, w, event.contractId, sid);
    DisputedWorld(w, event, bankThrows, sid, s.escrowAccountId);
    FrozenByDisputeEffect(s, event.blockNumber);
    DisputedRow(env, w, w', sid, Marked(s, event.blockNumber), FrozenAccount(w.accounts[s.escrowAccountId], bankThrows));
  }

  /** Settlement and account of a dispute, apart from the rest of the world. */
  lemma DisputedPair(s: S.SettlementState, a: A.AccountState, t: S.SettlementState, b: A.AccountState)
    requires MoneyMatches(s, a) && s.status !in {COMPLETED, FROZEN_BY_DISPUTE} && s.retryCount <= 3
    requires t.status == FROZEN_BY_DISPUTE && t.retryCount == s.retryCount && Evolves(s, t) && LogMatches(t)
    requires GoodAccount(a, b)
    ensures GoodPair(s, a, t, b)
  {
  }

  lemma DisputedCalls(w: World, w': World, s: S.SettlementState, a: A.AccountState, t: S.SettlementState, b: A.AccountState)
    requires w'.calls == w.calls && s.status != FROZEN_BY_DISPUTE && t.status == FROZEN_BY_DISPUTE
    ensures GoodCalls(w, w', s, a, t, b)
  {
  }

  lemma DisputedRow(env: Environment, w: World, w': World, sid: string, t: S.SettlementState, b: A.AccountState)
    requires Inv(env, w) && sid in w.settlements && RowOk(env, w, sid)
    requires var s := w.settlements[sid];
      var a := w.accounts[s.escrowAccountId];
      && AccountOk(w, s.escrowAccountId)
      && s.status !in {COMPLETED, FROZEN_BY_DISPUTE}
      && t.status == FROZEN_BY_DISPUTE && t.retryCount == s.retryCount && Evolves(s, t) && LogMatches(t)
      && GoodAccount(a, b)
      && w' == w.(settlements := w.settlements[sid := t], accounts := w.accounts[s.escrowAccountId := b])
    ensures Inv(env, w') && AllEvolve(env, w, w')
  {
    var s := w.settlements[sid];
    var a := w.accounts[s.escrowAccountId];
    DisputedPair(s, a, t, b);
    DisputedCalls(w, w', s, a, t, b);
    RowUpdate(env, w, w', sid, t, b);
  }
}
