/**
 * The block windows of pollForEvents (src/escrow/blockchain/dispute-listener.service.ts). A timer starts a poll
 * every few seconds without waiting for the previous one, so polls may overlap: each reads its starting point
 * when it begins and stores its end when it completes.
 */
module PollWindows {
  import opened Common

  datatype Window = Window(from: int, to: int)

  /** A poll reads its height, completes, or throws on the way. */
  datatype PollStep = Begin(id: nat, currentBlock: int) | Complete(id: nat) | Fail(id: nat)

  datatype PollState = PollState(last: int, open: map<nat, Window>, completed: seq<Window>)

  /** The blocks a poll that begins now looks at; empty when from exceeds to. */
  function WindowAt(last: int, maxBlocks: nat, currentBlock: int): Window {
    var from := last + 1;
    Window(from, Min(currentBlock, from + maxBlocks))
  }

  function Next(maxBlocks: nat, p: PollState, step: PollStep): PollState {
    match step
    case Begin(id, currentBlock) =>
      var window := WindowAt(p.last, maxBlocks, currentBlock);
      if id in p.open || window.from > window.to then p else p.(open := p.open[id := window])
    case Complete(id) =>
      if id !in p.open then p
      else PollState(p.open[id].to, p.open - {id}, p.completed + [p.open[id]])
    case Fail(id) => p.(open := p.open - {id})
  }

  /** The state after the steps, the last of them outermost. */
  function Run(start: int, maxBlocks: nat, steps: seq<PollStep>): PollState {
    if |steps| == 0 then PollState(start, map[], [])
    else Next(maxBlocks, Run(start, maxBlocks, steps[..|steps| - 1]), steps[|steps| - 1])
  }

  ghost predicate Covered(completed: seq<Window>, block: int) {
    exists i :: 0 <= i < |completed| && completed[i].from <= block <= completed[i].to
  }

  predicate WindowOk(start: int, maxBlocks: nat, w: Window) {
    start < w.from <= w.to && w.to - w.from + 1 <= maxBlocks + 1
  }

  ghost predicate RunOk(start: int, maxBlocks: nat, p: PollState) {
    && start <= p.last
    && (forall b :: start < b <= p.last ==> Covered(p.completed, b))
    && (forall i :: 0 <= i < |p.completed| ==> WindowOk(start, maxBlocks, p.completed[i]))
    && (forall id :: id in p.open ==> WindowOk(start, maxBlocks, p.open[id]))
    && (forall id, b :: id in p.open && start < b < p.open[id].from ==> Covered(p.completed, b))
  }

  lemma CoveredByMore(completed: seq<Window>, w: Window, block: int)
    ensures Covered(completed + [w], block) <==> Covered(completed, block) || w.from <= block <= w.to
  {
    var more := completed + [w];
    if Covered(completed, block) {
      var i :| 0 <= i < |completed| && completed[i].from <= block <= completed[i].to;
      assert more[i] == completed[i];
    }
    if w.from <= block <= w.to {
      assert more[|completed|] == w;
    }
  }

  lemma NextKeepsOk(start: int, maxBlocks: nat, p: PollState, step: PollStep)
    requires RunOk(start, maxBlocks, p)
    ensures RunOk(start, maxBlocks, Next(maxBlocks, p, step))
  {
    if step.Complete? && step.id in p.open {
      forall b ensures Covered(p.completed + [p.open[step.id]], b)
          <==> Covered(p.completed, b) || p.open[step.id].from <= b <= p.open[step.id].to {
        CoveredByMore(p.completed, p.open[step.id], b);
      }
    }
  }

  /**
   * However polls overlap and fail: every block after the starting point up to lastProcessedBlock lies in the
   * window of a completed poll, and no window is longer than maxBlocksPerPoll + 1 blocks.
   */
  lemma {:induction false} NoBlockIsSkipped(start: int, maxBlocks: nat, steps: seq<PollStep>)
    ensures RunOk(start, maxBlocks, Run(start, maxBlocks, steps))
  {
    if |steps| > 0 {
      NoBlockIsSkipped(start, maxBlocks, steps[..|steps| - 1]);
      NextKeepsOk(start, maxBlocks, Run(start, maxBlocks, steps[..|steps| - 1]), steps[|steps| - 1]);
    }
  }

  /** The windows follow each other without gap or overlap, from the block after start up to last. */
  ghost predicate Tiles(start: int, completed: seq<Window>, last: int) {
    if |completed| == 0 then last == start
    else
      var w := completed[|completed| - 1];
      w.from <= w.to == last && Tiles(start, completed[..|completed| - 1], w.from - 1)
  }

  /** Every poll that completes still finds lastProcessedBlock where it found it when it began. */
  ghost predicate NeverOvertaken(start: int, maxBlocks: nat, steps: seq<PollStep>) {
    if |steps| == 0 then true
    else
      var p := Run(start, maxBlocks, steps[..|steps| - 1]);
      var step := steps[|steps| - 1];
      && NeverOvertaken(start, maxBlocks, steps[..|steps| - 1])
      && (step.Complete? && step.id in p.open ==> p.last == p.open[step.id].from - 1)
  }

  lemma {:induction false} TilesMoveForward(start: int, completed: seq<Window>, last: int)
    requires Tiles(start, completed, last)
    ensures start <= last
    ensures forall i :: 0 <= i < |completed| ==> start < completed[i].from <= completed[i].to <= last
    ensures forall i, j :: 0 <= i < j < |completed| ==> completed[i].to < completed[j].from
    ensures forall b :: Covered(completed, b) <==> start < b <= last
    decreases |completed|
  {
    if |completed| == 0 {
      assert forall b :: !Covered(completed, b);
    } else {
      var front, w := completed[..|completed| - 1], completed[|completed| - 1];
      TilesMoveForward(start, front, w.from - 1);
      assert completed == front + [w];
      forall b ensures Covered(completed, b) <==> start < b <= last {
        CoveredByMore(front, w, b);
      }
    }
  }

  /**
   * Completed windows tile the blocks up to lastProcessedBlock, contiguous and disjoint, exactly when no poll
   * was overtaken; at every moment of such a run, so lastProcessedBlock never decreases.
   */
  lemma {:induction false} TilingExactlyWhenNeverOvertaken(start: int, maxBlocks: nat, steps: seq<PollStep>)
    ensures var p := Run(start, maxBlocks, steps);
      Tiles(start, p.completed, p.last) <==> NeverOvertaken(start, maxBlocks, steps)
  {
    if |steps| > 0 {
      var before := steps[..|steps| - 1];
      var p, step := Run(start, maxBlocks, before), steps[|steps| - 1];
      TilingExactlyWhenNeverOvertaken(start, maxBlocks, before);
      NoBlockIsSkipped(start, maxBlocks, before);
      if step.Complete? && step.id in p.open {
        var w := p.open[step.id];
        assert (p.completed + [w])[..|p.completed|] == p.completed;
        if Tiles(start, p.completed, w.from - 1) {
          EndOfTiling(start, maxBlocks, before);
          TilesAreAtLast(start, p.completed, w.from - 1);
        }
      }
    }
  }

  /** lastProcessedBlock is where the last completed window ends. */
  lemma {:induction false} EndOfTiling(start: int, maxBlocks: nat, steps: seq<PollStep>)
    ensures var p := Run(start, maxBlocks, steps);
      p.last == (if |p.completed| == 0 then start else p.completed[|p.completed| - 1].to)
  {
    if |steps| > 0 {
      EndOfTiling(start, maxBlocks, steps[..|steps| - 1]);
    }
  }

  lemma TilesAreAtLast(start: int, completed: seq<Window>, last: int)
    requires Tiles(start, completed, last)
    ensures last == if |completed| == 0 then start else completed[|completed| - 1].to
  {
  }

  /** At most one poll is ever open: each is over before the next begins. */
  ghost predicate Serial(start: int, maxBlocks: nat, steps: seq<PollStep>) {
    && (|steps| > 0 ==> Serial(start, maxBlocks, steps[..|steps| - 1]))
    && |Run(start, maxBlocks, steps).open| <= 1
  }

  lemma RunOneMore(start: int, maxBlocks: nat, steps: seq<PollStep>, step: PollStep)
    ensures Run(start, maxBlocks, steps + [step]) == Next(maxBlocks, Run(start, maxBlocks, steps), step)
    ensures Serial(start, maxBlocks, steps) && |Run(start, maxBlocks, steps + [step]).open| <= 1
      ==> Serial(start, maxBlocks, steps + [step])
  {
    assert (steps + [step])[..|steps|] == steps;
  }

  /** While one poll is open in a serial run, the starting point it read is still the current one. */
  lemma {:induction false} SerialPollsStartAtLast(start: int, maxBlocks: nat, steps: seq<PollStep>, id: nat)
    requires Serial(start, maxBlocks, steps)
    requires id in Run(start, maxBlocks, steps).open
    ensures Run(start, maxBlocks, steps).open[id].from == Run(start, maxBlocks, steps).last + 1
  {
    var before := steps[..|steps| - 1];
    var p, p' := Run(start, maxBlocks, before), Run(start, maxBlocks, steps);
    match steps[|steps| - 1]
    case Begin(other, _) =>
      if id in p.open {
        SerialPollsStartAtLast(start, maxBlocks, before, id);
      }
    case Fail(other) => SerialPollsStartAtLast(start, maxBlocks, before, id);
    case Complete(other) =>
      if other in p.open {
        SmallSet(p.open.Keys, id, other);
      } else {
        SerialPollsStartAtLast(start, maxBlocks, before, id);
      }
  }

  lemma SmallSet(s: set<nat>, x: nat, y: nat)
    requires x in s && y in s && |s| <= 1
    ensures x == y
  {
    assert |s - {x}| == 0;
    assert y !in s - {x};
  }

  lemma {:induction false} SerialPollsAreNeverOvertaken(start: int, maxBlocks: nat, steps: seq<PollStep>)
    requires Serial(start, maxBlocks, steps)
    ensures NeverOvertaken(start, maxBlocks, steps)
  {
    if |steps| > 0 {
      var before := steps[..|steps| - 1];
      SerialPollsAreNeverOvertaken(start, maxBlocks, before);
      var p, step := Run(start, maxBlocks, before), steps[|steps| - 1];
      if step.Complete? && step.id in p.open {
        SerialPollsStartAtLast(start, maxBlocks, before, step.id);
      }
    }
  }

  /**
   * Any sequence of successful, failed and empty polls, one after the other, with any reported heights: the
   * completed windows are disjoint and in order, at most maxBlocksPerPoll + 1 long, and contain exactly the
   * blocks from the starting point to lastProcessedBlock.
   */
  lemma SerialPollsCoverExactly(start: int, maxBlocks: nat, steps: seq<PollStep>)
    requires Serial(start, maxBlocks, steps)
    ensures var p := Run(start, maxBlocks, steps);
      && Tiles(start, p.completed, p.last)
      && (forall i, j :: 0 <= i < j < |p.completed| ==> p.completed[i].to < p.completed[j].from)
      && (forall i :: 0 <= i < |p.completed| ==> WindowOk(start, maxBlocks, p.completed[i]))
      && (forall b :: Covered(p.completed, b) <==> start < b <= p.last)
  {
    SerialPollsAreNeverOvertaken(start, maxBlocks, steps);
    TilingExactlyWhenNeverOvertaken(start, maxBlocks, steps);
    NoBlockIsSkipped(start, maxBlocks, steps);
    var p := Run(start, maxBlocks, steps);
    TilesMoveForward(start, p.completed, p.last);
  }

  lemma OneMoreStep(start: int, maxBlocks: nat, steps: seq<PollStep>, step: PollStep)
    ensures Run(start, maxBlocks, steps + [step]) == Next(maxBlocks, Run(start, maxBlocks, steps), step)
  {
    assert (steps + [step])[..|steps|] == steps;
  }

  /** Step k completes a poll that ends before the block the listener has already reached. */
  ghost predicate FallsBehind(start: int, maxBlocks: nat, steps: seq<PollStep>, k: nat)
    requires k < |steps|
  {
    var p := Run(start, maxBlocks, steps[..k]);
    steps[k].Complete? && steps[k].id in p.open && p.open[steps[k].id].to < p.last
  }

  ghost predicate StepsBack(start: int, maxBlocks: nat, steps: seq<PollStep>, k: nat)
    requires k < |steps|
  {
    Run(start, maxBlocks, steps[..k + 1]).last < Run(start, maxBlocks, steps[..k]).last
  }

  /**
   * In every run lastProcessedBlock decreases at exactly those steps that complete a poll falling behind; so it
   * never decreases along a run exactly when no completing poll ends before the block already reached.
   */
  lemma LastNeverDecreasesExactly(start: int, maxBlocks: nat, steps: seq<PollStep>)
    ensures forall k :: 0 <= k < |steps| ==>
      (StepsBack(start, maxBlocks, steps, k) <==> FallsBehind(start, maxBlocks, steps, k))
  {
    forall k | 0 <= k < |steps|
      ensures StepsBack(start, maxBlocks, steps, k) <==> FallsBehind(start, maxBlocks, steps, k)
    {
      assert steps[..k + 1] == steps[..k] + [steps[k]];
      OneMoreStep(start, maxBlocks, steps[..k], steps[k]);
    }
  }

  /** A poll that is never overtaken never falls behind. */
  lemma {:induction false} NeverOvertakenNeverFallsBehind(start: int, maxBlocks: nat, steps: seq<PollStep>, k: nat)
    requires NeverOvertaken(start, maxBlocks, steps) && k < |steps|
    ensures !FallsBehind(start, maxBlocks, steps, k)
    decreases |steps|
  {
    var before := steps[..|steps| - 1];
    if k < |before| {
      NeverOvertakenNeverFallsBehind(start, maxBlocks, before, k);
      assert before[..k] == steps[..k];
    } else {
      NoBlockIsSkipped(start, maxBlocks, before);
      assert steps[..k] == before;
    }
  }

  // ---- Reading a block again ----

  /** The step begins a poll whose window contains the block. */
  predicate Opens(maxBlocks: nat, p: PollState, step: PollStep, block: int) {
    && step.Begin? && step.id !in p.open
    && WindowAt(p.last, maxBlocks, step.currentBlock).from <= block <= WindowAt(p.last, maxBlocks, step.currentBlock).to
  }

  ghost predicate Reads(maxBlocks: nat, p: PollState, steps: seq<PollStep>, block: int)
    decreases |steps|
  {
    |steps| > 0 && (Opens(maxBlocks, p, steps[0], block) || Reads(maxBlocks, Next(maxBlocks, p, steps[0]), steps[1..], block))
  }

  /** The listener is, or an open poll will bring it, before the block. */
  ghost predicate Behind(p: PollState, block: int) {
    p.last < block || exists id :: id in p.open && p.open[id].to < block
  }

  lemma {:induction false} OnlyBehindReads(maxBlocks: nat, p: PollState, steps: seq<PollStep>, block: int)
    requires !Behind(p, block)
    ensures !Reads(maxBlocks, p, steps, block)
    decreases |steps|
  {
    if |steps| > 0 {
      OnlyBehindReads(maxBlocks, Next(maxBlocks, p, steps[0]), steps[1..], block);
    }
  }

  /** One poll after the other, with the block as the reported height, gets to the block. */
  lemma {:induction false} CatchUp(maxBlocks: nat, p: PollState, block: int) returns (steps: seq<PollStep>)
    requires p.last < block
    ensures Reads(maxBlocks, p, steps, block)
    decreases block - p.last
  {
    var free := Next(maxBlocks, p, Fail(0));
    var begin := Begin(0, block);
    var begun := Next(maxBlocks, free, begin);
    var rest: seq<PollStep> := [];
    if WindowAt(p.last, maxBlocks, block).to < block {
      var done := Next(maxBlocks, begun, Complete(0));
      var more := CatchUp(maxBlocks, done, block);
      rest := [Complete(0)] + more;
      assert rest[1..] == more;
      assert Reads(maxBlocks, begun, rest, block);
    }
    var two := [begin] + rest;
    assert two[1..] == rest;
    assert Reads(maxBlocks, free, two, block);
    steps := [Fail(0)] + two;
    assert steps[1..] == two;
  }

  ghost predicate CanRead(maxBlocks: nat, p: PollState, block: int) {
    exists steps :: Reads(maxBlocks, p, steps, block)
  }

  lemma ReadBy(maxBlocks: nat, p: PollState, steps: seq<PollStep>, block: int)
    requires Reads(maxBlocks, p, steps, block)
    ensures CanRead(maxBlocks, p, block)
  {
  }

  /** Some continuation reads a block again exactly when the listener is behind it or an open poll will bring it there. */
  lemma ReadAgainExactly(maxBlocks: nat, p: PollState, block: int)
    ensures CanRead(maxBlocks, p, block) <==> Behind(p, block)
  {
    if Behind(p, block) {
      if p.last < block {
        var steps := CatchUp(maxBlocks, p, block);
        ReadBy(maxBlocks, p, steps, block);
      } else {
        var id :| id in p.open && p.open[id].to < block;
        var more := CatchUp(maxBlocks, Next(maxBlocks, p, Complete(id)), block);
        var steps := [Complete(id)] + more;
        assert steps[1..] == more;
        ReadBy(maxBlocks, p, steps, block);
      }
    } else {
      forall steps ensures !Reads(maxBlocks, p, steps, block) {
        OnlyBehindReads(maxBlocks, p, steps, block);
      }
    }
  }

  /** After the poll that read a block has completed, it can be read again exactly if another open poll ends before it. */
  lemma CompletedBlockIsReadAgainExactly(maxBlocks: nat, p: PollState, id: nat, block: int)
    requires id in p.open && p.open[id].from <= block <= p.open[id].to
    ensures CanRead(maxBlocks, Next(maxBlocks, p, Complete(id)), block)
      <==> exists other :: other in p.open && p.open[other].to < block
  {
    var p' := Next(maxBlocks, p, Complete(id));
    ReadAgainExactly(maxBlocks, p', block);
    forall other ensures other in p'.open && p'.open[other].to < block <==> other in p.open && p.open[other].to < block {
    }
  }

  /** Overlapping polls can step back: the slower of two polls that began together resets the block. */
  lemma OverlappingPollsStepBack()
    ensures var steps := [Begin(1, 10), Begin(2, 20), Complete(2), Complete(1)];
      && Run(0, 100, steps[..3]).last == 20
      && Run(0, 100, steps).last == 10
  {
    var steps := [Begin(1, 10), Begin(2, 20), Complete(2), Complete(1)];
    var p2 := Run(0, 100, steps[..2]);
    assert steps[..2][..1] == steps[..1] && steps[..1][..0] == [];
    assert Run(0, 100, steps[..1]) == PollState(0, map[1 := Window(1, 10)], []);
    assert p2 == PollState(0, map[1 := Window(1, 10), 2 := Window(1, 20)], []);
    assert steps[..3][..2] == steps[..2];
    assert Run(0, 100, steps[..3]).open == map[1 := Window(1, 10)];
  }
}
