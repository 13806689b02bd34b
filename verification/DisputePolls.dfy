/** What one poll of the dispute listener does to every event it has found, whatever else it found. */
module DisputePolls {
  import opened Common
  import opened SettlementStatuses
  import opened SettlementSystem
  import opened SettlementServices
  import opened SettlementInvariant
  import opened EscrowTransactions
  import opened SettlementTheorems
  import opened DisputeListeners
  import opened DisputeDelivery
  import A = EscrowAccounts

  /** Nothing of the contract is available any more, and its settlement, if any, is terminal or frozen. */
  ghost predicate Locked(w: World, contractId: string) {
    && (forall aid :: AccountFor(w, aid, contractId) ==> A.Available(w.accounts[aid]) == 0)
    && (forall sid :: HasContract(w, sid, contractId) ==> w.settlements[sid].status in {COMPLETED, CANCELLED, FROZEN_BY_DISPUTE})
  }

  ghost predicate BlockedContract(w: World, contractId: string) {
    exists sid :: Blocked(w, sid, contractId)
  }

  // ---- One event ----

  lemma SingleRow(env: Environment, w: World, contractId: string)
    requires Inv(env, w)
    ensures forall sid :: HasContract(w, sid, contractId) ==> SettlementOf(w, contractId) == Some(sid)
    ensures forall aid :: AccountFor(w, aid, contractId) ==> AccountOf(w, contractId) == Some(aid)
  {
    forall sid | HasContract(w, sid, contractId) ensures SettlementOf(w, contractId) == Some(sid) {
      OneSettlementPerContract(env, w, sid, SettlementOf(w, contractId).value);
    }
  }

  lemma RowsKeyedIn(env: Environment, w: World)
    requires RowsOk(env, w) && AccountsOk(w)
    ensures RowsKeyed(w)
  {
    forall x | x in w.settlements ensures w.settlements[x].id == x {
      assert RowOk(env, w, x);
    }
    forall x | x in w.accounts ensures w.accounts[x].id == x {
      assert AccountOk(w, x);
    }
  }

  /** The rows of another contract are not touched. */
  lemma OtherContractUntouched(env: Environment, w: World, event: DisputeEvent, bankThrows: bool, contractId: string)
    requires Inv(env, w) && contractId != event.contractId
    ensures var w' := DisputeTx(w, event, bankThrows).0;
      && (forall aid :: AccountFor(w', aid, contractId) <==> AccountFor(w, aid, contractId))
      && (forall aid :: AccountFor(w, aid, contractId) ==> w'.accounts[aid] == w.accounts[aid])
      && (forall sid :: HasContract(w', sid, contractId) <==> HasContract(w, sid, contractId))
      && (forall sid :: HasContract(w, sid, contractId) ==> w'.settlements[sid] == w.settlements[sid])
  {
    var w' := DisputeTx(w, event, bankThrows).0;
    RowsKeyedIn(env, w);
    DisputeKeepsRows(w, event, bankThrows);
    forall aid ensures AccountFor(w', aid, contractId) <==> AccountFor(w, aid, contractId) {
      assert aid in w'.accounts.Keys <==> aid in w.accounts.Keys;
    }
    forall sid ensures HasContract(w', sid, contractId) <==> HasContract(w, sid, contractId) {
      assert sid in w'.settlements.Keys <==> sid in w.settlements.Keys;
    }
    forall aid | AccountFor(w, aid, contractId) ensures w'.accounts[aid] == w.accounts[aid] {
      OtherAccountUntouched(w, event, bankThrows, aid);
    }
    forall sid | HasContract(w, sid, contractId) ensures w'.settlements[sid] == w.settlements[sid] {
      OtherDisputeLeavesAlone(env, w, sid, event, bankThrows);
    }
  }

  lemma OtherAccountUntouched(w: World, event: DisputeEvent, bankThrows: bool, aid: string)
    requires AccountsOk(w) && aid in w.accounts && w.accounts[aid].contractId != event.contractId
    ensures var w' := DisputeTx(w, event, bankThrows).0; aid in w'.accounts && w'.accounts[aid] == w.accounts[aid]
  {
    EscrowTouches(w, event, bankThrows, aid);
  }

  /** A contract that is locked already is left exactly as it is. */
  lemma LockedStays(env: Environment, w: World, event: DisputeEvent, bankThrows: bool)
    requires Inv(env, w) && Locked(w, event.contractId)
    ensures DisputeTx(w, event, bankThrows) == (w, true)
  {
    SingleRow(env, w, event.contractId);
    var account, found := AccountOf(w, event.contractId), SettlementOf(w, event.contractId);
    assert account.Some? ==> AccountFor(w, account.value, event.contractId);
    assert found.Some? ==> HasContract(w, found.value, event.contractId);
  }

  /** The contract of the event, in terms of its rows. */
  lemma OwnContract(env: Environment, w: World, event: DisputeEvent, bankThrows: bool)
    requires Inv(env, w)
    ensures var r := DisputeTx(w, event, bankThrows);
      && Inv(env, r.0)
      && (r.1 <==> !BlockedContract(w, event.contractId))
      && (!r.1 ==> r.0 == w)
      && (r.1 ==> !BlockedContract(r.0, event.contractId))
      && (r.1 && !bankThrows ==> Locked(r.0, event.contractId))
  {
    var r, c := DisputeTx(w, event, bankThrows), event.contractId;
    DisputeKeeps(env, w, r.0, event, bankThrows);
    DisputeOutcomeFrom(env, w, event, bankThrows);
    SingleRow(env, w, c);
    SingleRow(env, r.0, c);
    SameFound(env, w, event, bankThrows);
    assert BlockedContract(w, c) <==> SettlementOf(w, c).Some? && w.settlements[SettlementOf(w, c).value].status == BLOCKED_BY_STATE_CHANGE by {
      if SettlementOf(w, c).Some? && w.settlements[SettlementOf(w, c).value].status == BLOCKED_BY_STATE_CHANGE {
        assert Blocked(w, SettlementOf(w, c).value, c);
      }
    }
  }

  lemma SameFound(env: Environment, w: World, event: DisputeEvent, bankThrows: bool)
    requires Inv(env, w) && Inv(env, DisputeTx(w, event, bankThrows).0)
    ensures var w' := DisputeTx(w, event, bankThrows).0;
      SettlementOf(w', event.contractId) == SettlementOf(w, event.contractId)
      && AccountOf(w', event.contractId) == AccountOf(w, event.contractId)
  {
    var w', c := DisputeTx(w, event, bankThrows).0, event.contractId;
    RowsKeyedIn(env, w);
    DisputeKeepsRows(w, event, bankThrows);
    forall aid ensures AccountFor(w', aid, c) <==> AccountFor(w, aid, c) {
      assert aid in w'.accounts.Keys <==> aid in w.accounts.Keys;
    }
    forall sid ensures HasContract(w', sid, c) <==> HasContract(w, sid, c) {
      assert sid in w'.settlements.Keys <==> sid in w.settlements.Keys;
    }
    SingleRow(env, w, c);
    SingleRow(env, w', c);
  }

  /** One event: its own contract is locked unless blocked, locked contracts stay locked, blocked ones blocked. */
  lemma EventEffect(env: Environment, w: World, event: DisputeEvent, bankThrows: bool, contractId: string)
    requires Inv(env, w)
    ensures var r := DisputeTx(w, event, bankThrows);
      && (BlockedContract(r.0, contractId) <==> BlockedContract(w, contractId))
      && (Locked(w, contractId) ==> Locked(r.0, contractId))
  {
    if contractId == event.contractId {
      OwnContract(env, w, event, bankThrows);
      if Locked(w, contractId) { LockedStays(env, w, event, bankThrows); }
    } else {
      OtherContractUntouched(env, w, event, bankThrows, contractId);
      var w' := DisputeTx(w, event, bankThrows).0;
      forall sid ensures Blocked(w', sid, contractId) <==> Blocked(w, sid, contractId) {
      }
    }
  }

  // ---- All events of a poll ----

  /** The event at k is seen for the first time, by the listener and in this poll. */
  predicate FirstSeen(l: ListenerState, events: seq<PolledEvent>, k: nat)
    requires k < |events|
  {
    events[k].event !in l.processed && forall j :: 0 <= j < k ==> events[j].event != events[k].event
  }

  /** The event at k has to be handled for good: seen for the first time, the bank answering, its contract not blocked. */
  ghost predicate MustLock(l: ListenerState, events: seq<PolledEvent>, k: nat)
    requires k < |events|
  {
    FirstSeen(l, events, k) && !events[k].bankThrows && !BlockedContract(l.world, events[k].event.contractId)
  }

  /** After the first n events of the poll. */
  ghost predicate Handled(env: Environment, l: ListenerState, events: seq<PolledEvent>, n: nat, l': ListenerState)
    requires n <= |events|
  {
    && Inv(env, l'.world)
    && KnowsProcessed(l, events, n, l'.processed)
    && (forall c :: BlockedContract(l'.world, c) <==> BlockedContract(l.world, c))
    && KeepsLocked(l, events, n, l'.world)
  }

  ghost predicate KnowsProcessed(l: ListenerState, events: seq<PolledEvent>, n: nat, processed: set<DisputeEvent>)
    requires n <= |events|
  {
    forall e :: e in processed <==> e in l.processed || ProcessedAmong(l, events, n, e)
  }

  ghost predicate KeepsLocked(l: ListenerState, events: seq<PolledEvent>, n: nat, w: World)
    requires n <= |events|
  {
    forall k :: 0 <= k < n && MustLock(l, events, k) ==> Locked(w, events[k].event.contractId)
  }

  ghost predicate ProcessedAmong(l: ListenerState, events: seq<PolledEvent>, n: nat, e: DisputeEvent)
    requires n <= |events|
  {
    !BlockedContract(l.world, e.contractId) && exists j :: 0 <= j < n && events[j].event == e
  }

  /** One event on top of whatever has been processed. */
  ghost predicate Advances(env: Environment, before: ListenerState, e: PolledEvent, after: ListenerState) {
    && Inv(env, after.world)
    && (forall c :: BlockedContract(after.world, c) <==> BlockedContract(before.world, c))
    && (forall c :: Locked(before.world, c) ==> Locked(after.world, c))
    && (forall x :: x in after.processed <==>
          x in before.processed || (x == e.event && !BlockedContract(before.world, e.event.contractId)))
    && (e.event !in before.processed && !e.bankThrows && !BlockedContract(before.world, e.event.contractId) ==>
          Locked(after.world, e.event.contractId))
  }

  lemma NewEventAdvances(env: Environment, before: ListenerState, e: PolledEvent)
    requires Inv(env, before.world) && e.event !in before.processed
    ensures Advances(env, before, e, Process(before, e.event, e.bankThrows).0)
  {
    OwnContract(env, before.world, e.event, e.bankThrows);
    forall c ensures (BlockedContract(DisputeTx(before.world, e.event, e.bankThrows).0, c) <==> BlockedContract(before.world, c))
        && (Locked(before.world, c) ==> Locked(DisputeTx(before.world, e.event, e.bankThrows).0, c))
    {
      EventEffect(env, before.world, e.event, e.bankThrows, c);
    }
  }

  ghost predicate Took(env: Environment, before: ListenerState, e: PolledEvent, after: ListenerState) {
    if e.event in before.processed then after == before else Advances(env, before, e, after)
  }

  /** If the event at n must be handled for good, it is not among the processed ones yet. */
  lemma NotYetProcessed(env: Environment, l: ListenerState, events: seq<PolledEvent>, n: nat, before: ListenerState)
    requires n < |events| && Handled(env, l, events, n, before) && FirstSeen(l, events, n)
    ensures events[n].event !in before.processed
  {
    assert !ProcessedAmong(l, events, n, events[n].event);
  }

  lemma OneMoreLocked(env: Environment, l: ListenerState, events: seq<PolledEvent>, n: nat, before: ListenerState, after: ListenerState, k: nat)
    requires n < |events| && Handled(env, l, events, n, before) && Took(env, before, events[n], after)
    requires k < n + 1 && MustLock(l, events, k)
    ensures Locked(after.world, events[k].event.contractId)
  {
    if k == n {
      NotYetProcessed(env, l, events, n, before);
      assert !BlockedContract(before.world, events[n].event.contractId);
    } else {
      assert Locked(before.world, events[k].event.contractId);
    }
  }

  lemma OneMoreTaken(env: Environment, l: ListenerState, events: seq<PolledEvent>, n: nat, before: ListenerState, after: ListenerState, x: DisputeEvent)
    requires n < |events| && Handled(env, l, events, n, before) && Took(env, before, events[n], after)
    ensures x in after.processed <==> x in l.processed || ProcessedAmong(l, events, n + 1, x)
  {
    OneMoreProcessed(l, events, n, x);
    assert BlockedContract(before.world, events[n].event.contractId) <==> BlockedContract(l.world, events[n].event.contractId);
    assert x in before.processed <==> x in l.processed || ProcessedAmong(l, events, n, x);
  }

  lemma OneMoreHandled(env: Environment, l: ListenerState, events: seq<PolledEvent>, n: nat, before: ListenerState, after: ListenerState)
    requires n < |events| && Handled(env, l, events, n, before) && Took(env, before, events[n], after)
    ensures Handled(env, l, events, n + 1, after)
  {
    MoreTaken(env, l, events, n, before, after);
    MoreLocked(env, l, events, n, before, after);
  }

  lemma MoreTaken(env: Environment, l: ListenerState, events: seq<PolledEvent>, n: nat, before: ListenerState, after: ListenerState)
    requires n < |events| && Handled(env, l, events, n, before) && Took(env, before, events[n], after)
    ensures KnowsProcessed(l, events, n + 1, after.processed)
  {
    forall x ensures x in after.processed <==> x in l.processed || ProcessedAmong(l, events, n + 1, x) {
      OneMoreTaken(env, l, events, n, before, after, x);
    }
  }

  lemma MoreLocked(env: Environment, l: ListenerState, events: seq<PolledEvent>, n: nat, before: ListenerState, after: ListenerState)
    requires n < |events| && Handled(env, l, events, n, before) && Took(env, before, events[n], after)
    ensures KeepsLocked(l, events, n + 1, after.world)
  {
    forall k | 0 <= k < n + 1 && MustLock(l, events, k) ensures Locked(after.world, events[k].event.contractId) {
      OneMoreLocked(env, l, events, n, before, after, k);
    }
  }

  lemma OneMoreProcessed(l: ListenerState, events: seq<PolledEvent>, n: nat, x: DisputeEvent)
    requires n < |events|
    ensures ProcessedAmong(l, events, n + 1, x) <==>
      ProcessedAmong(l, events, n, x) || (x == events[n].event && !BlockedContract(l.world, x.contractId))
  {
  }

  lemma {:induction false} EventsHandled(env: Environment, l: ListenerState, events: seq<PolledEvent>, n: nat)
    requires Inv(env, l.world) && n <= |events|
    ensures Handled(env, l, events, n, ProcessAll(l, events[..n]))
    decreases n
  {
    if n > 0 {
      EventsHandled(env, l, events, n - 1);
      assert events[..n][..n - 1] == events[..n - 1];
      var before, e := ProcessAll(l, events[..n - 1]), events[n - 1];
      if e.event !in before.processed { NewEventAdvances(env, before, e); }
      OneMoreHandled(env, l, events, n - 1, before, Process(before, e.event, e.bankThrows).0);
    }
  }

  /** How many of its events a poll gets to. */
  function Reaches(poll: Poll): nat {
    if poll.failure.None? || poll.failure.value > |poll.events| then |poll.events| else poll.failure.value
  }

  lemma PollProcesses(l: ListenerState, maxBlocks: nat, poll: Poll)
    ensures var l', done := PollOnce(l, maxBlocks, poll), ProcessAll(l, poll.events[..Reaches(poll)]);
      if poll.currentBlock <= l.lastProcessedBlock then l' == l
      else
        && l'.world == done.world && l'.processed == done.processed
        && l'.lastProcessedBlock == (if poll.failure.Some? then l.lastProcessedBlock
                                     else Min(poll.currentBlock, l.lastProcessedBlock + 1 + maxBlocks))
  {
    assert poll.events[..|poll.events|] == poll.events;
    EventsKeepLastBlock(l, poll.events[..Reaches(poll)]);
  }

  /**
   * What a poll does, event by event, in every reachable world and whatever else the poll brings. Every event before
   * the failure, all of them if there is none, ends among the processed ones, unless its contract's settlement is
   * blocked by a state change; nothing else does. For each of them that is seen for the first time while the bank
   * answers, nothing is left available and the settlement, if any, is terminal or frozen. A poll that does not fail
   * advances to the reported height, or as far as its window goes; without new blocks nothing happens.
   */
  lemma PollHandlesEveryEvent(env: Environment, l: ListenerState, maxBlocks: nat, poll: Poll)
    requires Reachable(env, l.world)
    ensures var l', n := PollOnce(l, maxBlocks, poll), Reaches(poll);
      if poll.currentBlock <= l.lastProcessedBlock then l' == l
      else
        && (forall e :: e in l'.processed <==> e in l.processed || ProcessedAmong(l, poll.events, n, e))
        && (forall k :: 0 <= k < n && MustLock(l, poll.events, k) ==> Locked(l'.world, poll.events[k].event.contractId))
        && l'.lastProcessedBlock == (if poll.failure.Some? then l.lastProcessedBlock
                                     else Min(poll.currentBlock, l.lastProcessedBlock + 1 + maxBlocks))
  {
    ReachableSatisfiesInv(env, l.world);
    EventsHandled(env, l, poll.events, Reaches(poll));
    PollProcesses(l, maxBlocks, poll);
  }
}
