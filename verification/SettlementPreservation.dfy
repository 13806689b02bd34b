/** Each transaction keeps the invariant and lets every row evolve only as allowed. */
module SettlementPreservation {
  import opened Common
  import opened SettlementStatuses
  import opened SplitPayments
  import opened SettlementSystem
  import opened SettlementInvariant
  import S = SettlementEntity
  import A = EscrowAccounts

  // ---- Generic updates ----

  /** The unlock calls waiting after a step were waiting before, except perhaps for one account. */
  ghost predicate UnlocksFrom(w: World, w': World, aid: string) {
    forall a, r :: UnlockCall(a, r) in w'.calls ==> UnlockCall(a, r) in w.calls || a == aid
  }

  ghost predicate NoNewUnlocks(w: World, w': World) {
    forall a, r :: UnlockCall(a, r) in w'.calls ==> UnlockCall(a, r) in w.calls
  }

  /** An account that a step leaves alone, with all its owners. */
  lemma AccountPersists(w: World, w': World, y: string)
    requires y in w.accounts && AccountOk(w, y) && y in w'.accounts && w'.accounts[y] == w.accounts[y]
    requires forall x :: Owns(w, x, y) ==> Owns(w', x, y)
    requires forall r :: UnlockCall(y, r) in w'.calls ==> UnlockCall(y, r) in w.calls
    ensures AccountOk(w', y)
  {
    assert Unowned(w', y) ==> Unowned(w, y);
  }

  lemma AccountsUntouched(w: World, w': World)
    requires AccountsOk(w) && w'.settlements == w.settlements && w'.accounts == w.accounts && NoNewUnlocks(w, w')
    ensures AccountsOk(w')
  {
    forall y | y in w'.accounts ensures AccountOk(w', y) {
      assert forall x :: Owns(w, x, y) ==> Owns(w', x, y);
      AccountPersists(w, w', y);
    }
  }

  /** Same rows, other calls. */
  lemma CallsOnly(env: Environment, w: World, w': World)
    requires Inv(env, w)
    requires w'.settlements == w.settlements && w'.accounts == w.accounts
    requires NoNewUnlocks(w, w')
    ensures Inv(env, w') && AllEvolve(env, w, w')
  {
    forall sid | sid in w.settlements ensures RowOk(env, w', sid) && RowOk(env, w, sid) && RowEvolves(w, w', sid) {
      assert RowOk(env, w, sid);
      assert AccountOk(w, w.settlements[sid].escrowAccountId);
      UntouchedRow(env, w, w', sid);
    }
    AccountsUntouched(w, w');
  }

  /** What a transaction must establish about the one settlement it saves and that settlement's account. */
  ghost predicate GoodPair(s: S.SettlementState, a: A.AccountState, t: S.SettlementState, b: A.AccountState) {
    && Evolves(s, t) && AccountEvolves(a, b, Completing(s, t))
    && A.Valid(b) && b.status != CLOSED
    && Committed(t.status) && t.retryCount <= 3 && LogMatches(t) && MoneyMatches(t, b)
  }

  ghost predicate GoodCalls(w: World, w': World, s: S.SettlementState, a: A.AccountState, t: S.SettlementState, b: A.AccountState) {
    && UnlocksFrom(w, w', a.id)
    && (forall r :: UnlockCall(a.id, r) in w'.calls ==> MayBeUnlocked(t))
    && (s.status == FROZEN_BY_DISPUTE && NoUnlockWaiting(w, a.id) ==>
          b.frozenAmount >= a.frozenAmount && NoUnlockWaiting(w', a.id))
  }

  /** A row whose settlement, account and unlocks a step does not touch. */
  lemma UntouchedRow(env: Environment, w: World, w': World, x: string)
    requires x in w.settlements && RowOk(env, w, x)
    requires x in w'.settlements && w'.settlements[x] == w.settlements[x]
    requires var aid := w.settlements[x].escrowAccountId;
      && w.accounts[aid].id == aid
      && aid in w'.accounts && w'.accounts[aid] == w.accounts[aid]
      && (forall r :: UnlockCall(aid, r) in w'.calls ==> UnlockCall(aid, r) in w.calls)
    ensures RowOk(env, w', x) && RowEvolves(w, w', x)
  {
  }

  lemma OtherRow(env: Environment, w: World, w': World, sid: string, t: S.SettlementState, aid: string, b: A.AccountState, x: string)
    requires Inv(env, w) && sid in w.settlements && x in w.settlements && x != sid
    requires w.settlements[sid].escrowAccountId == aid
    requires w'.settlements == w.settlements[sid := t] && w'.accounts == w.accounts[aid := b]
    requires UnlocksFrom(w, w', aid)
    ensures RowOk(env, w', x) && RowOk(env, w, x) && RowEvolves(w, w', x)
  {
    assert RowOk(env, w, x);
    assert AccountOk(w, w.settlements[x].escrowAccountId);
    assert w.settlements[x].escrowAccountId != aid by {
      if Owns(w, x, aid) {
        assert Owns(w, sid, aid);
        OneOwner(env, w, sid, x, aid);
      }
    }
    UntouchedRow(env, w, w', x);
  }

  lemma SavedRow(env: Environment, w: World, w': World, sid: string, t: S.SettlementState, aid: string, b: A.AccountState)
    requires Inv(env, w) && sid in w.settlements && aid in w.accounts && RowOk(env, w, sid) && AccountOk(w, aid)
    requires w.settlements[sid].escrowAccountId == aid
    requires w'.settlements == w.settlements[sid := t] && w'.accounts == w.accounts[aid := b]
    requires GoodPair(w.settlements[sid], w.accounts[aid], t, b)
    requires GoodCalls(w, w', w.settlements[sid], w.accounts[aid], t, b)
    ensures RowOk(env, w', sid) && RowEvolves(w, w', sid)
  {
  }

  lemma AccountsAfterSave(w: World, w': World, sid: string, t: S.SettlementState, aid: string, b: A.AccountState)
    requires AccountsOk(w) && sid in w.settlements && aid in w.accounts
    requires w.settlements[sid].escrowAccountId == aid == t.escrowAccountId
    requires w'.settlements == w.settlements[sid := t] && w'.accounts == w.accounts[aid := b]
    requires b.id == aid && A.Valid(b) && b.status != CLOSED
    requires UnlocksFrom(w, w', aid)
    ensures AccountsOk(w')
  {
    forall y | y in w'.accounts ensures AccountOk(w', y) {
      if y == aid {
        assert Owns(w', sid, y);
      } else {
        assert forall x :: Owns(w, x, y) ==> Owns(w', x, y);
        AccountPersists(w, w', y);
      }
    }
  }

  lemma KeysAfterSave(w: World, w': World, sid: string, t: S.SettlementState, aid: string, b: A.AccountState)
    requires KeysUnique(w) && sid in w.settlements && aid in w.accounts
    requires w'.settlements == w.settlements[sid := t] && w'.accounts == w.accounts[aid := b]
    requires t.referenceId == w.settlements[sid].referenceId && b.contractId == w.accounts[aid].contractId
    ensures KeysUnique(w')
  {
  }

  /** One settlement and its account get new values. */
  lemma RowUpdate(env: Environment, w: World, w': World, sid: string, t: S.SettlementState, b: A.AccountState)
    requires Inv(env, w) && sid in w.settlements && RowOk(env, w, sid)
    requires var s := w.settlements[sid];
      var a := w.accounts[s.escrowAccountId];
      && w'.settlements == w.settlements[sid := t]
      && w'.accounts == w.accounts[s.escrowAccountId := b]
      && GoodPair(s, a, t, b) && AccountOk(w, s.escrowAccountId) && GoodCalls(w, w', s, a, t, b)
    ensures Inv(env, w') && AllEvolve(env, w, w')
  {
    var aid := w.settlements[sid].escrowAccountId;
    SavedRow(env, w, w', sid, t, aid, b);
    forall x | x in w'.settlements ensures RowOk(env, w', x) && RowOk(env, w, x) && RowEvolves(w, w', x) {
      if x != sid {
        OtherRow(env, w, w', sid, t, aid, b, x);
      }
    }
    assert RowsOk(env, w');
    AccountsAfterSave(w, w', sid, t, aid, b);
    assert UnlocksKnown(w');
    KeysAfterSave(w, w', sid, t, aid, b);
  }

  /** An account after a step that takes neither money nor frozen money from it. */
  ghost predicate GoodAccount(a: A.AccountState, b: A.AccountState) {
    && AccountEvolves(a, b, false)
    && A.Valid(b) && b.status != CLOSED
    && A.TotalOf(A.DEBIT, b.transactions) == A.TotalOf(A.DEBIT, a.transactions)
    && A.TotalOf(A.CREDIT, b.transactions) >= A.TotalOf(A.CREDIT, a.transactions)
    && b.frozenAmount >= a.frozenAmount
  }

  lemma RowAfterAccountUpdate(env: Environment, w: World, w': World, aid: string, b: A.AccountState, x: string)
    requires Inv(env, w) && aid in w.accounts && GoodAccount(w.accounts[aid], b) && x in w.settlements
    requires w'.settlements == w.settlements && w'.accounts == w.accounts[aid := b] && NoNewUnlocks(w, w')
    ensures RowOk(env, w', x) && RowOk(env, w, x) && RowEvolves(w, w', x)
  {
    assert RowOk(env, w, x);
    assert AccountOk(w, w.settlements[x].escrowAccountId);
  }

  lemma AccountsAfterUpdate(w: World, w': World, aid: string, b: A.AccountState)
    requires AccountsOk(w) && aid in w.accounts && GoodAccount(w.accounts[aid], b) && AccountOk(w, aid)
    requires w'.settlements == w.settlements && w'.accounts == w.accounts[aid := b] && NoNewUnlocks(w, w')
    ensures AccountsOk(w')
  {
    forall y | y in w'.accounts ensures AccountOk(w', y) {
      assert forall x :: Owns(w, x, y) <==> Owns(w', x, y);
      if y == aid {
        assert Unowned(w', y) ==> Unowned(w, y);
      } else {
        AccountPersists(w, w', y);
      }
    }
  }

  lemma KeysAfterUpdate(w: World, w': World, aid: string, b: A.AccountState)
    requires KeysUnique(w) && UnlocksKnown(w) && aid in w.accounts && b.contractId == w.accounts[aid].contractId
    requires w'.settlements == w.settlements && w'.accounts == w.accounts[aid := b] && NoNewUnlocks(w, w')
    ensures KeysUnique(w') && UnlocksKnown(w')
  {
  }

  /** One account gains money or frozen money, whoever owns it. */
  lemma AccountUpdate(env: Environment, w: World, w': World, aid: string, b: A.AccountState)
    requires Inv(env, w) && aid in w.accounts && AccountOk(w, aid) && GoodAccount(w.accounts[aid], b)
    requires w'.settlements == w.settlements && w'.accounts == w.accounts[aid := b] && NoNewUnlocks(w, w')
    ensures Inv(env, w') && AllEvolve(env, w, w')
  {
    forall x | x in w'.settlements ensures RowOk(env, w', x) && RowOk(env, w, x) && RowEvolves(w, w', x) {
      RowAfterAccountUpdate(env, w, w', aid, b, x);
    }
    AccountsAfterUpdate(w, w', aid, b);
    KeysAfterUpdate(w, w', aid, b);
  }

  // ---- Effects on one account ----

  lemma CreditEffect(a: A.AccountState, amount: int, r: string)
    requires A.Valid(a) && a.status != CLOSED
    ensures var b := A.Apply(a, A.Credit(amount, r)).state;
      && A.Valid(b) && b.status != CLOSED && AccountEvolves(a, b, false) && b.frozenAmount == a.frozenAmount
      && A.TotalOf(A.DEBIT, b.transactions) == A.TotalOf(A.DEBIT, a.transactions)
      && A.TotalOf(A.CREDIT, b.transactions) >= A.TotalOf(A.CREDIT, a.transactions)
  {
    A.ApplyKeepsValid(a, A.Credit(amount, r));
    A.Appending(a.transactions, A.Entry(a, A.Credit(amount, r)));
  }

  lemma FreezeEffect(a: A.AccountState, amount: int, r: string)
    requires A.Valid(a) && a.status != CLOSED
    requires A.Apply(a, A.FreezeFunds(amount, r)).accepted
    ensures var b := A.Apply(a, A.FreezeFunds(amount, r)).state;
      && A.Valid(b) && b.status != CLOSED && AccountEvolves(a, b, false)
      && b.frozenAmount == a.frozenAmount + amount && b.balance == a.balance
      && (forall kind :: kind != A.FREEZE ==> A.TotalOf(kind, b.transactions) == A.TotalOf(kind, a.transactions))
  {
    A.ApplyKeepsValid(a, A.FreezeFunds(amount, r));
    A.Appending(a.transactions, A.Entry(a, A.FreezeFunds(amount, r)));
  }

  lemma UnfreezeEffect(a: A.AccountState, amount: int, r: string)
    requires A.Valid(a) && a.status != CLOSED
    requires A.Apply(a, A.UnfreezeFunds(amount, r)).accepted
    ensures var b := A.Apply(a, A.UnfreezeFunds(amount, r)).state;
      && A.Valid(b) && b.status != CLOSED && AccountEvolves(a, b, false)
      && b.frozenAmount == a.frozenAmount - amount && b.balance == a.balance
      && (forall kind :: kind != A.UNFREEZE ==> A.TotalOf(kind, b.transactions) == A.TotalOf(kind, a.transactions))
  {
    A.ApplyKeepsValid(a, A.UnfreezeFunds(amount, r));
    A.Appending(a.transactions, A.Entry(a, A.UnfreezeFunds(amount, r)));
  }

  lemma DebitEffect(a: A.AccountState, amount: int, r: string)
    requires A.Valid(a) && a.status != CLOSED
    requires A.Apply(a, A.Debit(amount, r)).accepted
    ensures var b := A.Apply(a, A.Debit(amount, r)).state;
      && A.Valid(b) && b.status != CLOSED && AccountEvolves(a, b, true)
      && A.TotalOf(A.DEBIT, b.transactions) == A.TotalOf(A.DEBIT, a.transactions) + amount
      && A.TotalOf(A.CREDIT, b.transactions) == A.TotalOf(A.CREDIT, a.transactions)
  {
    A.ApplyKeepsValid(a, A.Debit(amount, r));
    A.Appending(a.transactions, A.Entry(a, A.Debit(amount, r)));
  }

  // ---- Transactions ----

  /** The account stays; the settlement moves without completing. */
  lemma SettlementMoves(s: S.SettlementState, a: A.AccountState, t: S.SettlementState)
    requires A.Valid(a) && a.status != CLOSED && MoneyMatches(s, a)
    requires Evolves(s, t) && (s.status == COMPLETED <==> t.status == COMPLETED)
    requires HoldsFunds(t) ==> HoldsFunds(s)
    requires Committed(t.status) && t.retryCount <= 3 && LogMatches(t)
    ensures GoodPair(s, a, t, a)
  {
  }

  lemma BankPendingMoves(s: S.SettlementState, batch: Option<string>)
    requires s.status == ESCROW_LOCKED && s.retryCount <= 3
    ensures var o := S.Apply(s, S.MarkBankPending(batch));
      && o.accepted && o.state.status == BANK_PENDING && Evolves(s, o.state) && LogMatches(o.state)
      && o.state.retryCount == s.retryCount
  {
  }

  lemma BankTransferShape(w: World, sid: string, ack: BankAck)
    ensures BankTransferTx(w, sid, ack) ==
      if sid in w.settlements && w.settlements[sid].status == ESCROW_LOCKED && ack.AckAccepted?
      then Save(w, S.Apply(w.settlements[sid], S.MarkBankPending(ack.batch)).state)
      else w
  {
  }

  lemma BankPendingKeeps(env: Environment, w: World, w': World, sid: string, batch: Option<string>)
    requires Inv(env, w) && sid in w.settlements && w.settlements[sid].status == ESCROW_LOCKED
    requires w' == Save(w, S.Apply(w.settlements[sid], S.MarkBankPending(batch)).state)
    ensures Inv(env, w') && AllEvolve(env, w, w')
  {
    var s := w.settlements[sid];
    assert RowOk(env, w, sid) && AccountOk(w, s.escrowAccountId);
    var a := w.accounts[s.escrowAccountId];
    BankPendingMoves(s, batch);
    var t := S.Apply(s, S.MarkBankPending(batch)).state;
    SettlementMoves(s, a, t);
    assert w'.accounts == w.accounts[s.escrowAccountId := a];
    RowUpdate(env, w, w', sid, t, a);
  }

  lemma BankTransferKeeps(env: Environment, w: World, w': World, sid: string, ack: BankAck)
    requires Inv(env, w) && w' == BankTransferTx(w, sid, ack)
    ensures Inv(env, w') && AllEvolve(env, w, w')
  {
    BankTransferShape(w, sid, ack);
    if sid in w.settlements && w.settlements[sid].status == ESCROW_LOCKED && ack.AckAccepted? {
      BankPendingKeeps(env, w, w', sid, ack.batch);
    } else {
      CallsOnly(env, w, w);
    }
  }
}
