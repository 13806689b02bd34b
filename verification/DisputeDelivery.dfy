/** What the dispute listener guarantees across deliveries, restarts and polls. */
module DisputeDelivery {
  import opened Common
  import opened SettlementStatuses
  import opened SettlementSystem
  import opened SettlementInvariant
  import opened EscrowTransactions
  import opened SettlementTheorems
  import opened SettlementServices
  import opened DisputeListeners
  import P = PollWindows
  import A = EscrowAccounts

  /** What the services' lookups ask for holds in every reachable world. */
  lemma LookupsAreUnique(env: Environment, w: World)
    requires Reachable(env, w)
    ensures LookupsUnique(w) && RowsKeyed(w)
  {
    ReachableSatisfiesInv(env, w);
    forall x, y, c | HasContract(w, x, c) && HasContract(w, y, c) ensures x == y {
      OneSettlementPerContract(env, w, x, y);
    }
    forall x | x in w.settlements ensures w.settlements[x].id == x {
      assert RowOk(env, w, x);
    }
    forall x | x in w.accounts ensures w.accounts[x].id == x {
      assert AccountOk(w, x);
    }
  }

  // ---- The same event again ----

  /** The listener's memory after a restart; what was recorded in the database is never read back. */
  function Restarted(l: ListenerState, currentBlock: int): ListenerState {
    ListenerState(l.world, {}, currentBlock)
  }

  /** The contract's account has money that a freeze would still take. */
  ghost predicate LeftAvailable(w: World, contractId: string) {
    AccountOf(w, contractId).Some? && A.Available(w.accounts[AccountOf(w, contractId).value]) > 0
  }

  /** After a successful delivery the settlement is out of reach of another freeze. */
  lemma SettledByFirstDelivery(env: Environment, w: World, event: DisputeEvent, bankThrows: bool)
    requires Reachable(env, w) && DisputeTx(w, event, bankThrows).1
    ensures var w' := DisputeTx(w, event, bankThrows).0;
      var found := SettlementOf(w', event.contractId);
      && Inv(env, w')
      && (found.Some? ==> !CanBeFrozenByDispute(w'.settlements[found.value].status))
  {
    ReachableSatisfiesInv(env, w);
    var w' := DisputeTx(w, event, bankThrows).0;
    DisputeKeeps(env, w, w', event, bankThrows);
    DisputeOutcome(env, w, event, bankThrows);
    DisputeKeepsRows(w, event, bankThrows);
    var found, before := SettlementOf(w', event.contractId), SettlementOf(w, event.contractId);
    if found.Some? {
      assert found.value in w.settlements.Keys;
      assert HasContract(w, found.value, event.contractId);
      OneSettlementPerContract(env, w, found.value, before.value);
    }
  }

  /** Delivering again, with the bank answering, changes nothing exactly when no money was left available. */
  lemma SecondDelivery(env: Environment, w: World, event: DisputeEvent, bankThrows: bool)
    requires Inv(env, w)
    requires var found := SettlementOf(w, event.contractId);
      found.Some? ==> !CanBeFrozenByDispute(w.settlements[found.value].status)
    ensures DisputeTx(w, event, bankThrows).1
    ensures DisputeTx(w, event, bankThrows).0 == w <==> bankThrows || !LeftAvailable(w, event.contractId)
  {
    DisputeShape(env, w, event, bankThrows);
    var account := AccountOf(w, event.contractId);
    if account.Some? {
      DisputeEscrowShape(w, event, bankThrows, account.value);
      assert AccountOk(w, account.value);
      DisputeFreezeEffect(w, w.accounts[account.value], bankThrows);
    }
  }

  lemma AvailableAfterFirst(env: Environment, w: World, event: DisputeEvent, bankThrows: bool)
    requires Reachable(env, w) && DisputeTx(w, event, bankThrows).1
    ensures LeftAvailable(DisputeTx(w, event, bankThrows).0, event.contractId)
      <==> bankThrows && LeftAvailable(w, event.contractId)
  {
    ReachableSatisfiesInv(env, w);
    var w' := DisputeTx(w, event, bankThrows).0;
    DisputeShape(env, w, event, bankThrows);
    DisputeKeepsRows(w, event, bankThrows);
    var before, after := AccountOf(w, event.contractId), AccountOf(w', event.contractId);
    assert before.Some? ==> before.value in w'.accounts.Keys;
    assert after.Some? ==> after.value in w.accounts.Keys;
    assert before.Some? ==> AccountFor(w', before.value, event.contractId);
    assert after.Some? ==> AccountFor(w, after.value, event.contractId);
    if before.Some? {
      DisputeEscrowShape(w, event, bankThrows, before.value);
      assert AccountOk(w, before.value);
      DisputeFreezeEffect(w, w.accounts[before.value], bankThrows);
    }
  }

  /**
   * Redelivery. After a successful first delivery, delivering the event again is harmless, even to a restarted
   * listener, exactly when the first delivery froze what there was to freeze: no account, nothing available,
   * or a bank that did not throw.
   */
  lemma RedeliveryIsHarmlessExactly(env: Environment, l: ListenerState, event: DisputeEvent, bankThrows: bool, block: int)
    requires Reachable(env, l.world) && event !in l.processed
    requires Process(l, event, bankThrows).1
    ensures var l' := Process(l, event, bankThrows).0;
      && event in l'.processed
      && Process(l', event, false) == (l', true)
      && Process(Restarted(l', block), event, false).1
      && (Process(Restarted(l', block), event, false).0.world == l'.world
          <==> !(bankThrows && LeftAvailable(l.world, event.contractId)))
  {
    var l' := Process(l, event, bankThrows).0;
    SettledByFirstDelivery(env, l.world, event, bankThrows);
    SecondDelivery(env, l'.world, event, false);
    AvailableAfterFirst(env, l.world, event, bankThrows);
  }

  // ---- Polls in sequence ----

  ghost function PollAll(l: ListenerState, maxBlocks: nat, polls: seq<Poll>): ListenerState {
    if |polls| == 0 then l
    else PollOnce(PollAll(l, maxBlocks, polls[..|polls| - 1]), maxBlocks, polls[|polls| - 1])
  }

  /** The same polls as steps of the window machine. */
  function StepsOf(polls: seq<Poll>): seq<P.PollStep> {
    if |polls| == 0 then []
    else
      var poll := polls[|polls| - 1];
      StepsOf(polls[..|polls| - 1])
      + [P.Begin(0, poll.currentBlock)] + [if poll.failure.Some? then P.Fail(0) else P.Complete(0)]
  }

  lemma {:induction false} EventsKeepLastBlock(l: ListenerState, events: seq<PolledEvent>)
    ensures ProcessAll(l, events).lastProcessedBlock == l.lastProcessedBlock
  {
    if |events| > 0 {
      EventsKeepLastBlock(l, events[..|events| - 1]);
    }
  }

  lemma OnePoll(p: P.PollState, maxBlocks: nat, currentBlock: int, end: P.PollStep)
    requires p.open == map[] && end in {P.Fail(0), P.Complete(0)}
    ensures var window := P.WindowAt(p.last, maxBlocks, currentBlock);
      var q := P.Next(maxBlocks, p, P.Begin(0, currentBlock));
      var r := P.Next(maxBlocks, q, end);
      && |q.open| <= 1 && r.open == map[]
      && r.last == if end.Fail? || window.from > window.to then p.last else window.to
  {
  }

  /** One more poll after a serial run that has left no poll open. */
  lemma OneMorePoll(start: int, maxBlocks: nat, steps: seq<P.PollStep>, currentBlock: int, failed: bool)
    requires P.Serial(start, maxBlocks, steps) && P.Run(start, maxBlocks, steps).open == map[]
    ensures var p := P.Run(start, maxBlocks, steps);
      var window := P.WindowAt(p.last, maxBlocks, currentBlock);
      var all := steps + [P.Begin(0, currentBlock)] + [if failed then P.Fail(0) else P.Complete(0)];
      && P.Serial(start, maxBlocks, all)
      && P.Run(start, maxBlocks, all).open == map[]
      && P.Run(start, maxBlocks, all).last == if failed || window.from > window.to then p.last else window.to
  {
    var end := if failed then P.Fail(0) else P.Complete(0);
    var begun := steps + [P.Begin(0, currentBlock)];
    P.RunOneMore(start, maxBlocks, steps, P.Begin(0, currentBlock));
    P.RunOneMore(start, maxBlocks, begun, end);
    OnePoll(P.Run(start, maxBlocks, steps), maxBlocks, currentBlock, end);
  }

  /** Polls in sequence are a serial run of the window machine, ending with no poll open. */
  lemma {:induction false} PollsAreSerial(l: ListenerState, maxBlocks: nat, polls: seq<Poll>)
    ensures var p := P.Run(l.lastProcessedBlock, maxBlocks, StepsOf(polls));
      && P.Serial(l.lastProcessedBlock, maxBlocks, StepsOf(polls))
      && p.open == map[]
      && p.last == PollAll(l, maxBlocks, polls).lastProcessedBlock
  {
    if |polls| > 0 {
      var before, poll := polls[..|polls| - 1], polls[|polls| - 1];
      PollsAreSerial(l, maxBlocks, before);
      OneMorePoll(l.lastProcessedBlock, maxBlocks, StepsOf(before), poll.currentBlock, poll.failure.Some?);
      EventsKeepLastBlock(PollAll(l, maxBlocks, before), EventsSeen(poll));
    }
  }

  /**
   * Over any sequence of successful, failed and empty polls with any reported heights, the windows of the
   * completed polls are disjoint and in order, at most maxBlocksPerPoll + 1 blocks long, and contain exactly
   * the blocks after the starting point up to lastProcessedBlock.
   */
  lemma PolledBlocksExactly(l: ListenerState, maxBlocks: nat, polls: seq<Poll>)
    ensures var p := P.Run(l.lastProcessedBlock, maxBlocks, StepsOf(polls));
      var last := PollAll(l, maxBlocks, polls).lastProcessedBlock;
      && (forall i, j :: 0 <= i < j < |p.completed| ==> p.completed[i].to < p.completed[j].from)
      && (forall i :: 0 <= i < |p.completed| ==> P.WindowOk(l.lastProcessedBlock, maxBlocks, p.completed[i]))
      && (forall b :: P.Covered(p.completed, b) <==> l.lastProcessedBlock < b <= last)
      && l.lastProcessedBlock <= last
  {
    PollsAreSerial(l, maxBlocks, polls);
    P.SerialPollsCoverExactly(l.lastProcessedBlock, maxBlocks, StepsOf(polls));
    P.NoBlockIsSkipped(l.lastProcessedBlock, maxBlocks, StepsOf(polls));
  }

  // ---- A dispute that is lost ----

  /** The contract's settlement is blocked by a state change. */
  ghost predicate Blocked(w: World, sid: string, contractId: string) {
    HasContract(w, sid, contractId) && w.settlements[sid].status == BLOCKED_BY_STATE_CHANGE
  }

  /** Settlement and account of a blocked settlement are what they were. */
  ghost predicate LeftAlone(w: World, w': World, sid: string)
    requires sid in w.settlements
  {
    var aid := w.settlements[sid].escrowAccountId;
    && sid in w'.settlements && w'.settlements[sid] == w.settlements[sid]
    && aid in w.accounts && aid in w'.accounts && w'.accounts[aid] == w.accounts[aid]
  }

  lemma OwnDisputeFails(env: Environment, w: World, sid: string, event: DisputeEvent, bankThrows: bool)
    requires Inv(env, w) && Blocked(w, sid, event.contractId)
    ensures DisputeTx(w, event, bankThrows) == (w, false)
  {
    OneSettlementPerContract(env, w, sid, SettlementOf(w, event.contractId).value);
    BlockedDisputeFails(w, sid, event, bankThrows);
  }

  lemma BlockedDisputeFails(w: World, sid: string, event: DisputeEvent, bankThrows: bool)
    requires SettlementOf(w, event.contractId) == Some(sid) && sid in w.settlements
    requires w.settlements[sid].status == BLOCKED_BY_STATE_CHANGE
    ensures DisputeTx(w, event, bankThrows) == (w, false)
  {
  }

  /** The first half of a dispute touches only the account found for its contract. */
  lemma EscrowTouches(w: World, event: DisputeEvent, bankThrows: bool, aid: string)
    requires AccountsOk(w) && aid in w.accounts && w.accounts[aid].contractId != event.contractId
    ensures var w' := DisputeEscrow(w, event, bankThrows);
      w'.settlements == w.settlements && aid in w'.accounts && w'.accounts[aid] == w.accounts[aid]
  {
    var account := AccountOf(w, event.contractId);
    if account.Some? { DisputeEscrowShape(w, event, bankThrows, account.value); }
  }

  /** The second half saves at most the settlement found for its contract. */
  lemma DisputeTouches(w: World, event: DisputeEvent, bankThrows: bool, sid: string)
    requires sid in w.settlements && w.settlements[sid].contractId != event.contractId
    requires var found := SettlementOf(w, event.contractId);
      found.Some? ==> Marked(w.settlements[found.value], event.blockNumber).id == found.value
    requires DisputeEscrow(w, event, bankThrows).settlements == w.settlements
    ensures var w' := DisputeTx(w, event, bankThrows).0;
      && sid in w'.settlements && w'.settlements[sid] == w.settlements[sid]
      && (w'.accounts == w.accounts || w'.accounts == DisputeEscrow(w, event, bankThrows).accounts)
  {
  }

  lemma FoundKeepsId(env: Environment, w: World, contractId: string, block: int)
    requires RowsOk(env, w) && SettlementOf(w, contractId).Some?
    ensures var found := SettlementOf(w, contractId).value; Marked(w.settlements[found], block).id == found
  {
    assert RowOk(env, w, SettlementOf(w, contractId).value);
  }

  lemma OtherDisputeLeavesAlone(env: Environment, w: World, sid: string, event: DisputeEvent, bankThrows: bool)
    requires Inv(env, w) && sid in w.settlements && w.settlements[sid].contractId != event.contractId
    ensures LeftAlone(w, DisputeTx(w, event, bankThrows).0, sid)
  {
    RowHasAccount(env, w, sid);
    EscrowTouches(w, event, bankThrows, w.settlements[sid].escrowAccountId);
    if SettlementOf(w, event.contractId).Some? { FoundKeepsId(env, w, event.contractId, event.blockNumber); }
    DisputeTouches(w, event, bankThrows, sid);
  }

  lemma RowHasAccount(env: Environment, w: World, sid: string)
    requires RowsOk(env, w) && sid in w.settlements
    ensures var s := w.settlements[sid];
      s.escrowAccountId in w.accounts && w.accounts[s.escrowAccountId].contractId == s.contractId
  {
    assert RowOk(env, w, sid);
  }

  lemma DisputeLeavesBlockedAlone(env: Environment, w: World, sid: string, contractId: string, event: DisputeEvent, bankThrows: bool)
    requires Inv(env, w) && Blocked(w, sid, contractId)
    ensures var r := DisputeTx(w, event, bankThrows);
      Inv(env, r.0) && LeftAlone(w, r.0, sid) && (event.contractId == contractId ==> !r.1)
  {
    DisputeKeeps(env, w, DisputeTx(w, event, bankThrows).0, event, bankThrows);
    RowHasAccount(env, w, sid);
    if event.contractId == contractId {
      OwnDisputeFails(env, w, sid, event, bankThrows);
    } else {
      OtherDisputeLeavesAlone(env, w, sid, event, bankThrows);
    }
  }

  lemma ProcessLeavesBlockedAlone(env: Environment, l: ListenerState, sid: string, contractId: string, event: DisputeEvent, bankThrows: bool)
    requires Inv(env, l.world) && Blocked(l.world, sid, contractId)
    ensures var l' := Process(l, event, bankThrows).0;
      && Inv(env, l'.world) && LeftAlone(l.world, l'.world, sid)
      && (event.contractId == contractId ==> l'.processed == l.processed)
      && l'.processed <= l.processed + {event}
  {
    RowHasAccount(env, l.world, sid);
    DisputeLeavesBlockedAlone(env, l.world, sid, contractId, event, bankThrows);
    ProcessWorld(l, event, bankThrows);
  }

  lemma ProcessWorld(l: ListenerState, event: DisputeEvent, bankThrows: bool)
    ensures var l', r := Process(l, event, bankThrows).0, DisputeTx(l.world, event, bankThrows);
      && (l'.world == r.0 || l' == l)
      && l'.processed <= l.processed + {event}
      && (!r.1 ==> l'.processed == l.processed)
  {
  }

  /** One more event after some that have left the settlement alone. */
  lemma OneMoreEvent(env: Environment, w: World, l: ListenerState, sid: string, event: DisputeEvent, last: PolledEvent)
    requires sid in w.settlements && LeftAlone(w, l.world, sid) && Blocked(w, sid, event.contractId)
    requires Inv(env, l.world) && event !in l.processed
    ensures var l' := Process(l, last.event, last.bankThrows).0;
      Inv(env, l'.world) && LeftAlone(w, l'.world, sid) && event !in l'.processed
  {
    ProcessLeavesBlockedAlone(env, l, sid, event.contractId, last.event, last.bankThrows);
    LeftAloneTwice(w, l.world, Process(l, last.event, last.bankThrows).0.world, sid);
  }

  lemma LeftAloneTwice(w: World, w': World, w'': World, sid: string)
    requires sid in w.settlements && LeftAlone(w, w', sid) && LeftAlone(w', w'', sid)
    ensures LeftAlone(w, w'', sid)
  {
  }

  /** Whatever else a poll brings, a blocked settlement and its account stay, and its disputes stay unprocessed. */
  lemma {:induction false} EventsLeaveBlockedAlone(env: Environment, l: ListenerState, sid: string, event: DisputeEvent, events: seq<PolledEvent>)
    requires Inv(env, l.world) && Blocked(l.world, sid, event.contractId) && event !in l.processed
    ensures var l' := ProcessAll(l, events);
      Inv(env, l'.world) && LeftAlone(l.world, l'.world, sid) && event !in l'.processed
    decreases |events|
  {
    if |events| == 0 {
      RowHasAccount(env, l.world, sid);
    } else {
      EventsLeaveBlockedAlone(env, l, sid, event, events[..|events| - 1]);
      OneMoreEvent(env, l.world, ProcessAll(l, events[..|events| - 1]), sid, event, events[|events| - 1]);
    }
  }

  /**
   * A dispute over a settlement that is blocked by a state change is lost whatever a poll brings with it: neither
   * settlement nor money is frozen, and the event stays unprocessed. If the poll completes over its block and
   * polls do not overlap, every later window starts behind the event. (With overlap, it is read again exactly if
   * another open poll ends before it: PollWindows.CompletedBlockIsReadAgainExactly.)
   */
  lemma FailedDisputeIsNeverPolledAgain(env: Environment, l: ListenerState, maxBlocks: nat, event: DisputeEvent,
                                        sid: string, poll: Poll, later: seq<Poll>, height: int)
    requires Reachable(env, l.world) && event !in l.processed && Blocked(l.world, sid, event.contractId)
    ensures var l' := PollOnce(l, maxBlocks, poll);
      && LeftAlone(l.world, l'.world, sid) && event !in l'.processed
      && (var window := P.WindowAt(l.lastProcessedBlock, maxBlocks, poll.currentBlock);
          poll.failure.None? && window.from <= event.blockNumber <= window.to ==>
            P.WindowAt(PollAll(l', maxBlocks, later).lastProcessedBlock, maxBlocks, height).from > event.blockNumber)
  {
    ReachableRow(env, l.world, sid);
    EventsLeaveBlockedAlone(env, l, sid, event, EventsSeen(poll));
    PolledBlocksExactly(PollOnce(l, maxBlocks, poll), maxBlocks, later);
  }
}
