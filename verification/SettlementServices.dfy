/**
 * The services in their own form: methods that load a row into an entity, mutate the entity, and save it or
 * leave the database as it was. Each is proved to be the transaction of the same name in SettlementSystem.
 */
module SettlementServices {
  import opened Common
  import opened SettlementStatuses
  import opened SplitPayments
  import opened SettlementSystem
  import S = SettlementEntity
  import A = EscrowAccounts

  class Database {
    var world: World

    constructor ()
      ensures world == Initial()
    {
      world := Initial();
    }
  }

  /** At most one row for each lookup by contract. */
  ghost predicate LookupsUnique(w: World) {
    && (forall x, y, c :: AccountFor(w, x, c) && AccountFor(w, y, c) ==> x == y)
    && (forall x, y, c :: HasContract(w, x, c) && HasContract(w, y, c) ==> x == y)
  }

  class SettlementOrchestrator {
    const db: Database

    constructor (db: Database)
      ensures this.db == db
    {
      this.db := db;
    }

    /** From the escrow lookup to the commit; the unlocked checks before it are steps of their own. */
    method InitiateSettlement(contractId: string, payout: Payout, reference: string, sid: string, accounts: TransferAccounts)
      requires LookupsUnique(db.world)
      modifies db
      ensures db.world == InitiateTx(old(db.world), contractId, payout, reference, sid, accounts)
    {
      var w := db.world;
      if aid :| aid in w.accounts && w.accounts[aid].contractId == contractId {
        assert AccountFor(w, aid, contractId);
        var escrow := new A.EscrowAccount.FromPersistence(w.accounts[aid]);
        if escrow.balance - escrow.frozenAmount < payout.totalAmount {
          return;
        }
        var split := Create(payout, accounts);
        if split.Err? {
          return;
        }
        var valid, _ := ValidateAccounts(split.value.legs);
        if !valid {
          return;
        }
        var settlement := new S.Settlement.Create(sid, contractId, aid, split.value, reference);
        var frozen := escrow.Freeze(payout.totalAmount, reference);
        if !frozen {
          return;
        }
        var locked := settlement.LockEscrow();
        var taken := sid in w.settlements || exists x :: x in w.settlements && w.settlements[x].referenceId == reference;
        assert (exists x :: x in w.settlements && w.settlements[x].referenceId == reference)
          <==> SettlementByReference(w, reference).Some? by {
          if x :| x in w.settlements && w.settlements[x].referenceId == reference {
            assert HasReference(w, x, reference);
          }
        }
        if locked && !taken {
          db.world := Ask(Save(SaveAccount(w, escrow.ToPersistence()), settlement.ToPersistence()), BankTransferCall(sid));
        }
      } else {
        assert forall aid :: !AccountFor(w, aid, contractId);
      }
    }

    method ExecuteBankTransfer(sid: string, ack: BankAck)
      modifies db
      ensures db.world == BankTransferTx(old(db.world), sid, ack)
    {
      var w := db.world;
      if sid !in w.settlements {
        return;
      }
      var settlement := new S.Settlement.FromPersistence(w.settlements[sid]);
      if settlement.status != ESCROW_LOCKED {
        return;
      }
      match ack
      case AckThrew =>
      case AckRejected(error) =>
        var failed := settlement.BankFailed(error);
        if failed {
          db.world := Ask(Save(w, settlement.ToPersistence()), UnlockCall(settlement.escrowAccountId, settlement.referenceId));
        }
      case AckAccepted(batch) =>
        var pending := settlement.BankPending(batch);
        if pending {
          db.world := Save(w, settlement.ToPersistence());
        }
    }

    method RecordResults(settlement: S.Settlement, callback: BankCallback)
      modifies settlement
      ensures settlement.ToPersistence() == Recorded(old(settlement.ToPersistence()), callback)
    {
      if callback.results.None? {
        return;
      }
      var results := callback.results.value;
      var i := 0;
      while i < |results|
        invariant 0 <= i <= |results|
        invariant settlement.ToPersistence() == RecordAll(old(settlement.ToPersistence()), results[..i])
      {
        settlement.RecordResult(S.BankTransferResult(i, results[i].recipientType, results[i].status));
        assert results[..i + 1][..i] == results[..i];
        i := i + 1;
      }
      assert results[..i] == results;
    }

    method HandleBankCallback(sid: string, callback: BankCallback)
      modifies db
      ensures db.world == CallbackTx(old(db.world), sid, callback)
    {
      var w := db.world;
      if sid !in w.settlements {
        return;
      }
      var settlement := new S.Settlement.FromPersistence(w.settlements[sid]);
      RecordResults(settlement, callback);
      if callback.status == TRANSFER_SUCCESS {
        var success := settlement.BankSuccess();
        if success {
          db.world := Ask(Save(w, settlement.ToPersistence()), CompletionCall(sid));
        }
      } else if callback.status == TRANSFER_FAILED || callback.status == TRANSFER_REJECTED {
        var failed := settlement.BankFailed(callback.errorText);
        if failed {
          db.world := Ask(Save(w, settlement.ToPersistence()), UnlockCall(settlement.escrowAccountId, settlement.referenceId));
        }
      } else {
        db.world := Save(w, settlement.ToPersistence());
      }
    }

    /** The inner catch of completeSettlementOnChain. */
    method StoreChainFailure(w: World, settlement: S.Settlement, error: string)
      requires db.world == w
      modifies db, settlement
      ensures db.world == ChainFailure(w, old(settlement.ToPersistence()), error)
    {
      var failed := settlement.BlockchainFailed(error);
      if failed {
        db.world := Save(w, settlement.ToPersistence());
      }
    }

    method StoreConfirmation(w: World, settlement: S.Settlement, confirmation: Confirmation, txHash: string)
      requires db.world == w
      modifies db, settlement
      ensures db.world == Confirm(w, old(settlement.ToPersistence()), confirmation, txHash)
    {
      if confirmation.Reverted? || confirmation.ConfirmationThrew? {
        StoreChainFailure(w, settlement, confirmation.error);
        return;
      }
      var completed := settlement.Completed(confirmation.blockNumber);
      if !completed {
        StoreChainFailure(w, settlement, "");
      } else if settlement.escrowAccountId !in w.accounts {
        db.world := Save(w, settlement.ToPersistence());
      } else {
        var escrow := new A.EscrowAccount.FromPersistence(w.accounts[settlement.escrowAccountId]);
        var debited := escrow.DebitAccount(settlement.split.payout.totalAmount, settlement.referenceId);
        if debited {
          db.world := SaveAccount(Save(w, settlement.ToPersistence()), escrow.ToPersistence());
        } else {
          StoreChainFailure(w, settlement, "");
        }
      }
    }

    method CompleteSettlementOnChain(sid: string, answers: LedgerAnswers)
      modifies db
      ensures db.world == CompletionTx(old(db.world), sid, answers)
    {
      var w := db.world;
      if sid !in w.settlements {
        return;
      }
      var settlement := new S.Settlement.FromPersistence(w.settlements[sid]);
      if settlement.status != BANK_SUCCESS {
        return;
      }
      if answers.reading.None? {
        var review := settlement.ManualReview("");
        if review {
          db.world := Save(w, settlement.ToPersistence());
        }
        return;
      }
      var current := answers.reading.value;
      if current != EXPECTED_STATUS_VERIFIED {
        var blocked := settlement.BlockByStateChange(current, EXPECTED_STATUS_VERIFIED, "");
        if blocked {
          db.world := Save(w, settlement.ToPersistence());
        }
        return;
      }
      settlement.RecordVerified(current);
      if answers.submission.None? {
        StoreChainFailure(w, settlement, "");
        return;
      }
      var pending := settlement.BlockchainPending(answers.submission.value);
      if pending {
        StoreConfirmation(w, settlement, answers.confirmation, answers.submission.value);
      } else {
        StoreChainFailure(w, settlement, "");
      }
    }

    method RetrySettlement(sid: string, seen: SettlementStatus)
      modifies db
      ensures db.world == RetryTx(old(db.world), sid, seen)
    {
      var w := db.world;
      if sid !in w.settlements {
        return;
      }
      var settlement := new S.Settlement.FromPersistence(w.settlements[sid]);
      var prepared := settlement.Retry();
      if prepared {
        db.world := Save(w, settlement.ToPersistence());
        if seen == BANK_FAILED {
          db.world := Ask(db.world, BankTransferCall(sid));
        } else if seen == BLOCKCHAIN_FAILED {
          db.world := Ask(db.world, CompletionCall(sid));
        }
      }
    }

    method UnlockEscrow(aid: string, reference: string, bankThrows: bool)
      modifies db
      ensures db.world == UnlockTx(old(db.world), aid, reference, bankThrows)
    {
      var w := db.world;
      if aid !in w.accounts {
        return;
      }
      var escrow := new A.EscrowAccount.FromPersistence(w.accounts[aid]);
      if escrow.frozenAmount > 0 && !bankThrows {
        var unfrozen := escrow.Unfreeze(escrow.frozenAmount, reference);
        if unfrozen {
          db.world := SaveAccount(w, escrow.ToPersistence());
        }
      }
    }
  }
}
