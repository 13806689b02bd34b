/** The dispute listener (src/escrow/blockchain/dispute-listener.service.ts): polling and processing. */
module DisputeListeners {
  import opened Common
  import opened SettlementStatuses
  import opened SettlementSystem
  import opened SettlementServices
  import opened PollWindows
  import S = SettlementEntity
  import A = EscrowAccounts

  /** The database together with what the listener remembers in memory. */
  datatype ListenerState = ListenerState(world: World, processed: set<DisputeEvent>, lastProcessedBlock: int)

  /** processDisputeOpened: known events are skipped, and only successful ones become known. */
  ghost function Process(l: ListenerState, event: DisputeEvent, bankThrows: bool): (ListenerState, bool) {
    if event in l.processed then (l, true)
    else
      var r := DisputeTx(l.world, event, bankThrows);
      (l.(world := r.0, processed := if r.1 then l.processed + {event} else l.processed), r.1)
  }

  /** One event of a poll, and whether the bank throws while it is processed. */
  datatype PolledEvent = PolledEvent(event: DisputeEvent, bankThrows: bool)

  ghost function ProcessAll(l: ListenerState, events: seq<PolledEvent>): ListenerState {
    if |events| == 0 then l
    else
      var last := events[|events| - 1];
      Process(ProcessAll(l, events[..|events| - 1]), last.event, last.bankThrows).0
  }

  /** One poll: the reported height, the events found, and after how many of them something threw, if at all. */
  datatype Poll = Poll(currentBlock: int, events: seq<PolledEvent>, failure: Option<nat>)

  function EventsSeen(poll: Poll): seq<PolledEvent> {
    if poll.failure.Some? && poll.failure.value < |poll.events| then poll.events[..poll.failure.value] else poll.events
  }

  ghost function PollOnce(l: ListenerState, maxBlocks: nat, poll: Poll): ListenerState {
    var window := WindowAt(l.lastProcessedBlock, maxBlocks, poll.currentBlock);
    if window.from > window.to then l
    else
      var l' := ProcessAll(l, EventsSeen(poll));
      if poll.failure.Some? then l' else l'.(lastProcessedBlock := window.to)
  }

  class DisputeListener {
    const db: Database
    const maxBlocksPerPoll: nat
    var processed: set<DisputeEvent>
    var lastProcessedBlock: int

    constructor (db: Database, maxBlocksPerPoll: nat, startBlock: int)
      ensures this.db == db && this.maxBlocksPerPoll == maxBlocksPerPoll
      ensures State() == ListenerState(db.world, {}, startBlock)
    {
      this.db, this.maxBlocksPerPoll := db, maxBlocksPerPoll;
      processed, lastProcessedBlock := {}, startBlock;
    }

    ghost function State(): ListenerState
      reads this, db
    {
      ListenerState(db.world, processed, lastProcessedBlock)
    }

    method FreezeEscrow(event: DisputeEvent, bankThrows: bool) returns (w: World)
      requires LookupsUnique(db.world)
      ensures w == DisputeEscrow(db.world, event, bankThrows)
      ensures w.settlements == db.world.settlements
    {
      w := db.world;
      if aid :| aid in w.accounts && w.accounts[aid].contractId == event.contractId {
        assert AccountFor(w, aid, event.contractId);
        var escrow := new A.EscrowAccount.FromPersistence(w.accounts[aid]);
        var available := escrow.balance - escrow.frozenAmount;
        if available > 0 && !bankThrows {
          var frozen := escrow.Freeze(available, "DISPUTE");
          if frozen {
            w := SaveAccount(w, escrow.ToPersistence());
          }
        }
      } else {
        assert forall aid :: !AccountFor(w, aid, event.contractId);
      }
    }

    method ProcessDisputeOpened(event: DisputeEvent, bankThrows: bool) returns (success: bool)
      requires LookupsUnique(db.world)
      modifies this, db
      ensures (State(), success) == Process(old(State()), event, bankThrows)
    {
      if event in processed {
        return true;
      }
      var w := db.world;
      var frozen := FreezeEscrow(event, bankThrows);
      success := true;
      if sid :| sid in w.settlements && w.settlements[sid].contractId == event.contractId {
        assert HasContract(w, sid, event.contractId);
        var settlement := new S.Settlement.FromPersistence(w.settlements[sid]);
        if CanBeFrozenByDispute(settlement.status) {
          success := settlement.FreezeByDispute(event.blockNumber, "");
          frozen := Save(frozen, settlement.ToPersistence());
        }
      } else {
        assert forall sid :: !HasContract(w, sid, event.contractId);
      }
      if success {
        db.world := frozen;
        processed := processed + {event};
      }
    }

    method PollForEvents(poll: Poll)
      requires LookupsUnique(db.world) && RowsKeyed(db.world)
      modifies this, db
      ensures State() == PollOnce(old(State()), maxBlocksPerPoll, poll)
      ensures LookupsUnique(db.world) && RowsKeyed(db.world)
    {
      var fromBlock := lastProcessedBlock + 1;
      var toBlock := Min(poll.currentBlock, fromBlock + maxBlocksPerPoll);
      if fromBlock > toBlock {
        return;
      }
      var events := EventsSeen(poll);
      var i := 0;
      while i < |events|
        invariant 0 <= i <= |events|
        invariant LookupsUnique(db.world) && RowsKeyed(db.world)
        invariant State() == ProcessAll(old(State()), events[..i])
        invariant lastProcessedBlock == old(lastProcessedBlock)
      {
        assert events[..i + 1][..i] == events[..i];
        ProcessKeepsLookups(State(), events[i].event, events[i].bankThrows);
        var _ := ProcessDisputeOpened(events[i].event, events[i].bankThrows);
        i := i + 1;
      }
      assert events[..i] == events;
      if poll.failure.None? {
        lastProcessedBlock := toBlock;
      }
    }
  }

  /** Rows and accounts are stored under their own ids. */
  ghost predicate RowsKeyed(w: World) {
    && (forall x :: x in w.settlements ==> w.settlements[x].id == x)
    && (forall x :: x in w.accounts ==> w.accounts[x].id == x)
  }

  /** The freeze of an account keeps its id and contract. */
  lemma FreezeKeepsRows(w: World, event: DisputeEvent, bankThrows: bool)
    requires RowsKeyed(w)
    ensures var w' := DisputeEscrow(w, event, bankThrows);
      && w'.settlements == w.settlements && w'.accounts.Keys == w.accounts.Keys
      && forall x | x in w.accounts :: w'.accounts[x].id == x && w'.accounts[x].contractId == w.accounts[x].contractId
  {
  }

  lemma DisputeKeepsRows(w: World, event: DisputeEvent, bankThrows: bool)
    requires RowsKeyed(w)
    ensures SameRows(w, DisputeTx(w, event, bankThrows).0)
  {
    FreezeKeepsRows(w, event, bankThrows);
    var found := SettlementOf(w, event.contractId);
    if found.Some? { MarkingKeepsKeys(w.settlements[found.value], event.blockNumber); }
  }

  lemma MarkingKeepsKeys(s: S.SettlementState, block: int)
    ensures var t := S.Apply(s, S.MarkFrozenByDispute(block, "")).state; t.id == s.id && t.contractId == s.contractId
  {
  }

  ghost predicate SameRows(w: World, w': World) {
    && w'.settlements.Keys == w.settlements.Keys && w'.accounts.Keys == w.accounts.Keys
    && (forall x | x in w.accounts :: w'.accounts[x].id == x && w'.accounts[x].contractId == w.accounts[x].contractId)
    && (forall x | x in w.settlements ::
          w'.settlements[x].id == x && w'.settlements[x].contractId == w.settlements[x].contractId)
  }

  lemma SameRowsKeepLookups(w: World, w': World)
    requires LookupsUnique(w) && SameRows(w, w')
    ensures LookupsUnique(w') && RowsKeyed(w')
  {
    forall x, c ensures AccountFor(w', x, c) <==> AccountFor(w, x, c) {
      assert x in w'.accounts <==> x in w'.accounts.Keys;
    }
    forall x, c ensures HasContract(w', x, c) <==> HasContract(w, x, c) {
      assert x in w'.settlements <==> x in w'.settlements.Keys;
    }
  }

  /** Processing an event changes no id and no contract. */
  lemma ProcessKeepsLookups(l: ListenerState, event: DisputeEvent, bankThrows: bool)
    requires LookupsUnique(l.world) && RowsKeyed(l.world)
    ensures LookupsUnique(Process(l, event, bankThrows).0.world) && RowsKeyed(Process(l, event, bankThrows).0.world)
  {
    if event !in l.processed {
      DisputeKeepsRows(l.world, event, bankThrows);
      SameRowsKeepLookups(l.world, DisputeTx(l.world, event, bankThrows).0);
    }
  }
}
