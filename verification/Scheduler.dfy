/**
  One FIFO dispatcher serving any number of cells.  Each cell is the cell system of module
  Cells; `schedule_now` appends to the shared queue and the dispatcher takes entries from
  its front, running one work item at a time.
 */
module Scheduler {
  import opened Prelude
  import C = Cells

  type Cid = nat

  datatype State = State(
    cells: map<Cid, C.State>,
    queue: seq<Cid>,
    current: Option<Cid>,   // the cell whose run is in progress
    log: seq<Cid>,          // every entry ever queued
    dispatched: seq<Cid>)   // every entry ever taken off

  function Init(cells: set<Cid>, threads: set<Tid>): State {
    State(map c | c in cells :: C.Init(threads), [], None, [], [])
  }

  /** A step of one cell. */
  datatype Move = Move(c: Cid, step: C.Step)

  /** The step by which a waking or spawning thread calls `schedule_now`. */
  predicate Schedules(cell: C.State, step: C.Step) {
    step.Advance? && step.t in cell.pcs && (cell.pcs[step.t].WakeSchedule? || cell.pcs[step.t].SpawnSchedule?)
  }

  predicate Enabled(s: State, mv: Move) {
    && mv.c in s.cells
    && C.Enabled(s.cells[mv.c], mv.step)
    && C.Careful(s.cells[mv.c], mv.step)
    && (mv.step.Pop? ==> s.current.None? && s.queue != [] && s.queue[0] == mv.c)
  }

  function Exec(s: State, mv: Move): State
    requires Enabled(s, mv)
  {
    var cell := C.Exec(s.cells[mv.c], mv.step);
    var s1 := s.(cells := s.cells[mv.c := cell]);
    if mv.step.Pop? then
      s1.(queue := s.queue[1..], current := Some(mv.c), dispatched := s.dispatched + [mv.c])
    else if Schedules(s.cells[mv.c], mv.step) then
      s1.(queue := s.queue + [mv.c], log := s.log + [mv.c])
    else
      s1.(current := if s.current == Some(mv.c) && cell.run.Rest? then None else s.current)
  }

  // ------------------------------------------------------------------ invariant

  ghost predicate CellOk(s: State, c: Cid)
    requires c in s.cells
  {
    && C.Inv(s.cells[c])
    && s.cells[c].entries == multiset(s.queue)[c]
    && (s.cells[c].run.Rest? <==> s.current != Some(c))
  }

  ghost predicate Inv(s: State) {
    && (forall c :: c in s.cells ==> CellOk(s, c))
    && (forall c :: c in s.queue ==> c in s.cells)
    && (s.current.Some? ==> s.current.value in s.cells)
    && s.log == s.dispatched + s.queue
  }

  lemma CellEffects(cell: C.State, step: C.Step)
    requires C.Enabled(cell, step)
    ensures C.Exec(cell, step).entries
            == cell.entries + C.Bit(Schedules(cell, step)) - C.Bit(step.Pop?)
    ensures step.Pop? ==> cell.run.Rest? && !C.Exec(cell, step).run.Rest?
    ensures !step.Pop? && cell.run.Rest? ==> C.Exec(cell, step).run.Rest?
    ensures Schedules(cell, step) ==> C.Exec(cell, step).run == cell.run
  {
  }

  lemma StepKeepsInv(s: State, mv: Move)
    requires Inv(s) && Enabled(s, mv)
    ensures Inv(Exec(s, mv))
  {
    hide C.Inv, C.Exec, C.Enabled, C.Careful, CellOk;
    var s' := Exec(s, mv);
    forall c | c in s'.cells
      ensures CellOk(s', c)
    {
      StepKeepsCell(s, mv, c);
    }
    StepKeepsLog(s, mv);
    if mv.step.Pop? { assert s.queue == [mv.c] + s'.queue; }
  }

  lemma StepKeepsCell(s: State, mv: Move, c: Cid)
    requires Inv(s) && Enabled(s, mv) && c in s.cells
    ensures CellOk(Exec(s, mv), c)
  {
    hide C.Inv, C.Exec, C.Enabled, C.Careful;
    assert CellOk(s, c) && CellOk(s, mv.c);
    C.StepKeepsInv(s.cells[mv.c], mv.step);
    CellEffects(s.cells[mv.c], mv.step);
    StepCounts(s, mv, c);
  }

  /** How a step changes the number of entries of cell `c`. */
  lemma StepCounts(s: State, mv: Move, c: Cid)
    requires Enabled(s, mv)
    ensures mv.step.Pop? && c == mv.c ==> multiset(s.queue)[c] > 0
    ensures multiset(Exec(s, mv).queue)[c] ==
              if c != mv.c then multiset(s.queue)[c]
              else multiset(s.queue)[c] + C.Bit(!mv.step.Pop? && Schedules(s.cells[c], mv.step)) - C.Bit(mv.step.Pop?)
  {
    hide C.Exec, C.Enabled, C.Careful, Schedules;
    if mv.step.Pop? {
      assert s.queue == [mv.c] + s.queue[1..];
    }
  }

  /** Entries are logged when queued, and leave the queue for the dispatcher. */
  lemma StepKeepsLog(s: State, mv: Move)
    requires Enabled(s, mv) && s.log == s.dispatched + s.queue
    ensures Exec(s, mv).log == Exec(s, mv).dispatched + Exec(s, mv).queue
    ensures s.log <= Exec(s, mv).log && s.dispatched <= Exec(s, mv).dispatched
    ensures Exec(s, mv).cells.Keys == s.cells.Keys
  {
    hide C.Exec, C.Enabled, C.Careful;
    if mv.step.Pop? {
      assert s.queue == [mv.c] + s.queue[1..];
      assert s.dispatched + [mv.c] + s.queue[1..] == s.dispatched + s.queue;
    }
  }

  lemma InitKeepsInv(cells: set<Cid>, threads: set<Tid>)
    ensures Inv(Init(cells, threads))
  {
    C.InitKeepsInv(threads);
  }

  // ------------------------------------------------------------------ runs

  ghost predicate Runs(s: State, script: seq<Move>, last: State)
    decreases |script|
  {
    if script == [] then s == last
    else Enabled(s, script[0]) && Runs(Exec(s, script[0]), script[1..], last)
  }

  lemma {:induction false} RunKeepsInv(s: State, script: seq<Move>, last: State)
    requires Inv(s) && Runs(s, script, last)
    ensures Inv(last) && last.cells.Keys == s.cells.Keys
    ensures s.log <= last.log && s.dispatched <= last.dispatched
    decreases |script|
  {
    hide CellOk, Exec, Enabled;
    if script != [] {
      StepKeepsInv(s, script[0]);
      StepKeepsLog(s, script[0]);
      RunKeepsInv(Exec(s, script[0]), script[1..], last);
    }
  }

  lemma {:induction false} DistinctFit(queue: seq<Cid>, cells: set<Cid>)
    requires forall c :: c in queue ==> c in cells
    requires forall c :: c in queue ==> multiset(queue)[c] == 1
    ensures |queue| <= |cells|
    decreases |queue|
  {
    if queue != [] {
      var c, rest := queue[0], queue[1..];
      assert queue == [c] + rest;
      assert multiset(queue) == multiset{c} + multiset(rest);
      assert forall x :: x in rest ==> multiset(queue)[x] == 1 && x in queue;
      DistinctFit(rest, cells - {c});
    }
  }

  lemma QueueFits(s: State)
    requires Inv(s)
    ensures |s.queue| <= |s.cells|
  {
    forall c | c in s.queue
      ensures multiset(s.queue)[c] == 1
    {
      assert CellOk(s, c);
    }
    DistinctFit(s.queue, s.cells.Keys);
  }

  /**
    The scheduler bound.  Wakes coalesce: in every interleaving each of the K cells has at
    most one run pending (queued, being scheduled, or taken off and not begun), so the queue
    never holds more than K entries.
   */
  lemma QueueNeverExceedsCells(cells: set<Cid>, threads: set<Tid>, script: seq<Move>, s: State)
    requires Runs(Init(cells, threads), script, s)
    ensures |s.queue| <= |cells|
    ensures forall c :: c in s.cells ==> C.Pending(s.cells[c]) <= 1
  {
    InitKeepsInv(cells, threads);
    RunKeepsInv(Init(cells, threads), script, s);
    QueueFits(s);
    assert s.cells.Keys == cells;
    forall c | c in s.cells
      ensures C.Pending(s.cells[c]) <= 1
    {
      assert CellOk(s, c);
    }
  }

  /** First in, first out: if `d + q` only grew at its end into `d' + q'`, entries left `q` from the front, in order. */
  lemma InTurn(d: seq<Cid>, q: seq<Cid>, d': seq<Cid>, q': seq<Cid>, i: nat)
    requires d <= d' && d + q <= d' + q' && i < |q|
    ensures var taken := |d'| - |d|;
            if taken > i then d'[|d|..][..i + 1] == q[..i + 1]
            else i - taken < |q'| && q'[i - taken] == q[i]
  {
    forall j | 0 <= j <= i
      ensures (d' + q')[|d| + j] == q[j]
    {
      assert (d + q)[|d| + j] == q[j];
    }
  }

  /**
    No starvation.  The entry at position i of the queue is dispatched after exactly the i
    entries ahead of it, in their order, and i is at most K - 1: whatever else happens, it is
    either still waiting with fewer ahead of it, or was the dispatch that followed those i.
   */
  lemma EntryIsDispatchedInTurn(s: State, i: nat, script: seq<Move>, last: State)
    requires Inv(s) && i < |s.queue| && Runs(s, script, last)
    ensures i <= |s.cells| - 1
    ensures |last.dispatched| >= |s.dispatched|
    ensures var taken := |last.dispatched| - |s.dispatched|;
            if taken > i then last.dispatched[|s.dispatched|..][..i + 1] == s.queue[..i + 1]
            else i - taken < |last.queue| && last.queue[i - taken] == s.queue[i]
  {
    hide CellOk, Exec, Enabled;
    QueueFits(s);
    RunKeepsInv(s, script, last);
    InTurn(s.dispatched, s.queue, last.dispatched, last.queue, i);
  }

  /** An idle dispatcher with a non-empty queue can always take the front entry: its cell is at rest and expects it. */
  lemma FrontEntryCanBeTaken(s: State)
    requires Inv(s) && s.current.None? && s.queue != []
    ensures Enabled(s, Move(s.queue[0], C.Pop))
  {
    assert s.queue[0] in s.queue && CellOk(s, s.queue[0]);
  }

  /** The host dispatcher: a FIFO channel of work items and the loop that serves it. */
  class Dispatcher {
    var queue: seq<Cid>
    ghost var sys: State

    ghost predicate Valid()
      reads this
    {
      Inv(sys) && sys.queue == queue
    }

    constructor (ghost cells: set<Cid>, ghost threads: set<Tid>)
      ensures Valid() && sys == Init(cells, threads)
    {
      queue := [];
      sys := Init(cells, threads);
      new;
      InitKeepsInv(cells, threads);
    }

    /** `wi_schedule_now`, called by thread `t` for cell `c`. */
    method ScheduleNow(c: Cid, ghost t: Tid, ghost granted: bool)
      requires Valid() && Enabled(sys, Move(c, C.Advance(t, granted)))
      requires Schedules(sys.cells[c], C.Advance(t, granted))
      modifies this
      ensures Valid() && sys == Exec(old(sys), Move(c, C.Advance(t, granted)))
      ensures queue == old(queue) + [c] && c !in old(queue)
      ensures |queue| <= |sys.cells|
    {
      assert CellOk(sys, c);
      StepKeepsInv(sys, Move(c, C.Advance(t, granted)));
      sys := Exec(sys, Move(c, C.Advance(t, granted)));
      queue := queue + [c];
      QueueFits(sys);
      assert CellOk(sys, c);
    }

    /** `rx.recv()` in the dispatcher's loop: the oldest entry leaves the queue. */
    method TakeNext() returns (c: Cid)
      requires Valid() && sys.current.None? && queue != []
      modifies this
      ensures Valid() && [c] + queue == old(queue)
      ensures c in sys.cells && sys.cells[c].run.Popped? && c !in queue
    {
      c := queue[0];
      FrontEntryCanBeTaken(sys);
      assert CellOk(sys, c);
      StepKeepsInv(sys, Move(c, C.Pop));
      sys := Exec(sys, Move(c, C.Pop));
      queue := queue[1..];
      assert CellOk(sys, c);
    }
  }

  // ------------------------------------------------------------------ pending runs are dispatched

  /** What was dispatched between two states of a run. */
  ghost function After(s: State, last: State): seq<Cid>
    requires s.dispatched <= last.dispatched
  {
    last.dispatched[|s.dispatched|..]
  }

  /** A run of the cell is queued or about to be. */
  ghost predicate Owed(cell: C.State) {
    && |C.Active(cell)| + cell.entries > 0
    && forall t :: t in cell.pcs ==> !cell.pcs[t].Spawns()
  }

  lemma StepKeepsOwed(cell: C.State, step: C.Step)
    requires C.Inv(cell) && C.Enabled(cell, step) && C.Careful(cell, step) && Owed(cell) && !step.Pop?
    ensures Owed(C.Exec(cell, step))
  {
    var cell' := C.Exec(cell, step);
    if step.Wake? {
      C.ActiveAfter(cell, step.t, cell');
    } else if step.Advance? {
      assert C.ThreadOk(cell, step.t);
      C.ActiveAfter(cell, step.t, cell');
    } else {
      assert C.Pending(cell) > 0;
      assert cell'.pcs == cell.pcs && C.Active(cell') == C.Active(cell);
    }
  }

  lemma MoveKeepsOwed(s: State, mv: Move, c: Cid)
    requires Inv(s) && Enabled(s, mv) && c in s.cells && Owed(s.cells[c])
    ensures c in Exec(s, mv).cells
    ensures if mv == Move(c, C.Pop) then Exec(s, mv).dispatched == s.dispatched + [c] else Owed(Exec(s, mv).cells[c])
  {
    assert CellOk(s, c);
    hide C.Inv, C.Exec, C.Careful, Owed;
    if mv.c == c && !mv.step.Pop? { StepKeepsOwed(s.cells[c], mv.step); }
  }

  /** A pending run does not vanish: until the cell is dispatched it stays queued or about to be. */
  lemma {:induction false} OwedUntilDispatched(s: State, c: Cid, script: seq<Move>, last: State)
    requires Inv(s) && c in s.cells && Owed(s.cells[c]) && Runs(s, script, last)
    ensures s.dispatched <= last.dispatched && c in last.cells
    ensures c in After(s, last) || Owed(last.cells[c])
    decreases |script|
  {
    hide Inv, Exec, Enabled, Owed, After;
    if script != [] {
      var mv, next := script[0], Exec(s, script[0]);
      MoveKeepsOwed(s, mv, c);
      StepKeepsInv(s, mv);
      InvKeepsLog(s);
      StepKeepsLog(s, mv);
      RunKeepsInv(next, script[1..], last);
      if mv == Move(c, C.Pop) {
        DispatchedNext(s, next, last, c);
      } else {
        OwedUntilDispatched(next, c, script[1..], last);
        if c in After(next, last) { LaterDispatches(s, next, last, c); }
      }
    }
  }

  lemma InvKeepsLog(s: State)
    requires Inv(s)
    ensures s.log == s.dispatched + s.queue
  {
  }

  lemma DispatchedNext(s: State, next: State, last: State, c: Cid)
    requires next.dispatched == s.dispatched + [c] && next.dispatched <= last.dispatched
    ensures s.dispatched <= last.dispatched && c in After(s, last)
  {
    assert last.dispatched[|s.dispatched|] == c;
    assert After(s, last)[0] == c;
  }

  lemma LaterDispatches(s: State, mid: State, last: State, c: Cid)
    requires s.dispatched <= mid.dispatched <= last.dispatched && c in After(mid, last)
    ensures c in After(s, last)
  {
    var j :| 0 <= j < |After(mid, last)| && After(mid, last)[j] == c;
    assert After(s, last)[|mid.dispatched| - |s.dispatched| + j] == c;
  }

  /**
    The bound, from `schedule_now` on.  An entry queued by it is dispatched after exactly the
    entries queued at that moment, of which there are at most K - 1.
   */
  lemma ScheduledIsServedWithinBound(s: State, mv: Move, script: seq<Move>, last: State)
    requires Inv(s) && Enabled(s, mv) && Schedules(s.cells[mv.c], mv.step) && Runs(Exec(s, mv), script, last)
    ensures |s.queue| <= |s.cells| - 1
    ensures s.dispatched <= last.dispatched
    ensures if |After(s, last)| > |s.queue| then After(s, last)[..|s.queue| + 1] == s.queue + [mv.c] else mv.c in last.queue
  {
    var s1 := Exec(s, mv);
    StepKeepsInv(s, mv);
    QueuedByMove(s, mv);
    hide Inv, Runs, Exec, Enabled, Schedules;
    QueueFits(s1);
    RunKeepsInv(s1, script, last);
    InvKeepsLog(s1);
    InvKeepsLog(last);
    LastInTurn(s.dispatched, s.queue, mv.c, last.dispatched, last.queue);
  }

  lemma LastInTurn(d: seq<Cid>, q: seq<Cid>, c: Cid, d': seq<Cid>, q': seq<Cid>)
    requires d <= d' && d + (q + [c]) <= d' + q'
    ensures if |d'| - |d| > |q| then d'[|d|..][..|q| + 1] == q + [c] else c in q'
  {
    InTurn(d, q + [c], d', q', |q|);
    assert (q + [c])[..|q| + 1] == q + [c];
  }

  lemma QueuedByMove(s: State, mv: Move)
    requires Enabled(s, mv) && Schedules(s.cells[mv.c], mv.step)
    ensures Exec(s, mv).queue == s.queue + [mv.c] && Exec(s, mv).dispatched == s.dispatched
    ensures Exec(s, mv).cells.Keys == s.cells.Keys
  {
    hide C.Exec, C.Careful;
  }

  /**
    A wake is served.  When the fetch-or of a wake finds a cell spawned and not queued, in
    every run from there the cell is dispatched, or is still queued or about to be; at rest it
    has been dispatched.
   */
  lemma WakeIsServed(s: State, c: Cid, t: Tid, script: seq<Move>, last: State)
    requires Inv(s) && c in s.cells && C.Spawned(s.cells[c].word) && !C.Queued(s.cells[c].word)
    requires Enabled(s, Move(c, C.Wake(t))) && Runs(Exec(s, Move(c, C.Wake(t))), script, last)
    ensures s.dispatched <= last.dispatched && c in last.cells
    ensures c in After(s, last) || Owed(last.cells[c])
    ensures last.queue == [] && (forall u :: u in last.cells[c].pcs ==> last.cells[c].pcs[u].Idle?) ==> c in After(s, last)
  {
    var mv := Move(c, C.Wake(t));
    assert CellOk(s, c);
    StepKeepsInv(s, mv);
    StepKeepsLog(s, mv);
    WakeOwes(s.cells[c], t);
    OwedUntilDispatched(Exec(s, mv), c, script, last);
    RunKeepsInv(Exec(s, mv), script, last);
    assert CellOk(last, c);
    assert last.queue == [] ==> multiset(last.queue)[c] == 0;
    assert (forall u :: u in last.cells[c].pcs ==> last.cells[c].pcs[u].Idle?) ==> C.Active(last.cells[c]) == {};
  }

  lemma WakeOwes(cell: C.State, t: Tid)
    requires C.Inv(cell) && C.Enabled(cell, C.Wake(t)) && C.Spawned(cell.word) && !C.Queued(cell.word)
    ensures Owed(C.Exec(cell, C.Wake(t)))
  {
    C.ActiveAfter(cell, t, C.Exec(cell, C.Wake(t)));
    forall u | u in cell.pcs
      ensures !cell.pcs[u].Spawns()
    {
      assert C.ThreadOk(cell, u);
      assert C.Queued(C.SPAWNED | C.RUN_QUEUED);
    }
  }

  // ------------------------------------------------------------------ yielding

  /** `YieldNow`: the first poll wakes the task itself and returns Pending, the next returns Ready. */
  class YieldNow {
    var yielded: bool

    constructor ()
      ensures !yielded
    {
      yielded := false;
    }

    /**
      `poll`, in a task with cell `cell` on thread `t`.  The first poll makes one `wake_by_ref` of
      the task's own cell, with its fetch-or in state `seen`, and schedules it if it was not
      queued yet; every later poll is Ready and makes no step.
     */
    method Poll(cell: C.WorkItemCell, ghost t: Tid)
      returns (ready: bool, ghost before: seq<C.Step>, ghost seen: C.State, ghost steps: seq<C.Step>)
      requires cell.Valid() && cell.At(t, C.Idle)
      modifies this, cell
      ensures cell.Valid() && cell.At(t, C.Idle) && ready == old(yielded) && yielded
      ensures ready ==> unchanged(cell)
      ensures !ready ==> old(cell.trail) <= before && cell.Made(before, seen, C.Wake(t))
      ensures !ready ==> C.Own(cell.trail, t) == C.Own(old(cell.trail), t) + ([C.Wake(t)] + steps) && C.Advances(steps, t)
      ensures !ready && cell.CarefulSoFar() && C.Spawned(seen.word) ==> (|steps| == 2 <==> !C.Queued(seen.word))
    {
      before, seen, steps := cell.trail, cell.sys, [];
      if yielded {
        return true, before, seen, steps;
      }
      yielded := true;
      var scheduled;
      ghost var own := C.Own(cell.trail, t);
      scheduled, before, seen := cell.WakeByRef(t);
      steps := if !C.Spawned(seen.word) || C.Queued(seen.word) then []
        else if scheduled then [C.Advance(t, false), C.Advance(t, false)] else [C.Advance(t, false)];
      assert C.Advances(steps, t);
      assert C.Own(cell.trail, t) == own + ([C.Wake(t)] + steps);
      ready := false;
    }
  }

  /** On a cell that is queued already a self-wake changes nothing at all. */
  lemma QueuedSelfWakeChangesNothing(s: State, c: Cid, t: Tid)
    requires Inv(s) && Enabled(s, Move(c, C.Wake(t))) && C.Queued(s.cells[c].word) && s.current == Some(c)
    ensures Exec(s, Move(c, C.Wake(t))) == s
  {
    var cell := s.cells[c];
    assert CellOk(s, c);
    assert cell.word | C.RUN_QUEUED == cell.word;
    assert cell.pcs[t := C.Idle] == cell.pcs;
    assert C.Exec(cell, C.Wake(t)) == cell;
    assert s.cells[c := cell] == s.cells;
  }

  function Front(queue: seq<Cid>): seq<Cid> {
    if queue == [] then [] else queue[..|queue| - 1]
  }

  lemma TakenFromFront(s: State, last: State, k: nat)
    requires s.dispatched <= last.dispatched && s.dispatched + s.queue <= last.dispatched + last.queue
    requires k < |After(s, last)| < |s.queue|
    ensures After(s, last)[k] in Front(s.queue)
  {
    InTurn(s.dispatched, s.queue, last.dispatched, last.queue, k);
    assert After(s, last)[..k + 1][k] == s.queue[..k + 1][k];
    assert Front(s.queue)[k] == s.queue[k];
  }

  /** A cell with nothing queued behind an entry of its own is not dispatched before all that is queued. */
  lemma NotAheadWaits(s: State, c: Cid, script: seq<Move>, last: State)
    requires Inv(s) && c !in Front(s.queue) && Runs(s, script, last)
    ensures s.dispatched <= last.dispatched
    ensures c in After(s, last) ==> s.queue <= After(s, last)
  {
    hide CellOk, Exec, Enabled;
    RunKeepsInv(s, script, last);
    var after, n := After(s, last), |s.queue|;
    if c in after {
      var k :| 0 <= k < |after| && after[k] == c;
      if |after| < n {
        TakenFromFront(s, last, k);
      } else if n > 0 {
        InTurn(s.dispatched, s.queue, last.dispatched, last.queue, n - 1);
        assert after[..n] == s.queue[..n] == s.queue;
      }
    }
  }

  lemma OneMove(s: State, mv: Move, rest: seq<Move>, last: State)
    requires Enabled(s, mv) && Runs(Exec(s, mv), rest, last)
    ensures Runs(s, [mv] + rest, last)
  {
    assert ([mv] + rest)[1..] == rest;
  }

  /** The dispatcher can always bring the run in progress to its end, touching nothing in the queue. */
  lemma RunCanEnd(s: State) returns (script: seq<Move>, last: State)
    requires Inv(s)
    ensures Runs(s, script, last) && Inv(last)
    ensures last.current.None? && last.queue == s.queue && last.dispatched == s.dispatched
    decreases if s.current.None? then 0 else StepsLeft(s)
  {
    if s.current.None? {
      script, last := [], s;
    } else {
      var c := s.current.value;
      CurrentRuns(s);
      var step := match s.cells[c].run
        case Popped => C.Begin case Polling => C.PollPending case Dropping => C.DropFuture case _ => C.Clear;
      var mv := Move(c, step);
      StepKeepsInv(s, mv);
      RunGoesOn(s, mv);
      var rest;
      rest, last := RunCanEnd(Exec(s, mv));
      OneMove(s, mv, rest, last);
      script := [mv] + rest;
    }
  }

  ghost function StepsLeft(s: State): nat {
    if s.current.None? || s.current.value !in s.cells then 0
    else match s.cells[s.current.value].run
      case Popped => 3 case Polling => 2 case Dropping => 2 case _ => 1
  }

  lemma CurrentRuns(s: State)
    requires Inv(s) && s.current.Some?
    ensures s.current.value in s.cells && !s.cells[s.current.value].run.Rest?
  {
    assert s.current.value in s.cells;
    assert CellOk(s, s.current.value);
  }

  lemma RunGoesOn(s: State, mv: Move)
    requires Enabled(s, mv) && s.current == Some(mv.c)
    requires mv.step.Begin? || mv.step.PollPending? || mv.step.DropFuture? || mv.step.Clear?
    ensures Exec(s, mv).queue == s.queue && Exec(s, mv).dispatched == s.dispatched
    ensures Exec(s, mv).current.None? || StepsLeft(Exec(s, mv)) < StepsLeft(s)
    ensures StepsLeft(s) > 0
  {
  }

  /** The dispatcher can serve the first `n` entries of the queue with no other thread moving. */
  lemma {:induction false} FrontCanBeServed(s: State, n: nat) returns (script: seq<Move>, last: State)
    requires Inv(s) && n <= |s.queue|
    ensures Runs(s, script, last) && last.dispatched == s.dispatched + s.queue[..n]
    decreases n
  {
    if n == 0 {
      script, last := [], s;
      assert s.dispatched + s.queue[..0] == s.dispatched;
    } else {
      hide Exec, Enabled, Inv, Runs;
      var a, mid := RunCanEnd(s);
      FrontEntryCanBeTaken(mid);
      var pop := Move(mid.queue[0], C.Pop);
      StepKeepsInv(mid, pop);
      PopTakesFront(mid);
      var next := Exec(mid, pop);
      var b;
      b, last := FrontCanBeServed(next, n - 1);
      OneMove(mid, pop, b, last);
      RunsConcat(s, a, mid, [pop] + b, last);
      script := a + ([pop] + b);
      FirstThenRest(s.dispatched, s.queue, n);
    }
  }

  lemma FirstThenRest(d: seq<Cid>, q: seq<Cid>, n: nat)
    requires 0 < n <= |q|
    ensures d + [q[0]] + q[1..][..n - 1] == d + q[..n]
  {
    assert [q[0]] + q[1..][..n - 1] == q[..n];
  }

  lemma PopTakesFront(s: State)
    requires s.queue != [] && Enabled(s, Move(s.queue[0], C.Pop))
    ensures Exec(s, Move(s.queue[0], C.Pop)).queue == s.queue[1..]
    ensures Exec(s, Move(s.queue[0], C.Pop)).dispatched == s.dispatched + [s.queue[0]]
  {
  }

  lemma {:induction false} RunsConcat(s: State, a: seq<Move>, mid: State, b: seq<Move>, last: State)
    requires Runs(s, a, mid) && Runs(mid, b, last)
    ensures Runs(s, a + b, last)
    decreases |a|
  {
    hide Exec, Enabled;
    if a == [] {
      assert [] + b == b;
    } else {
      RunsConcat(Exec(s, a[0]), a[1..], mid, b, last);
      assert (a + b)[1..] == a[1..] + b;
    }
  }

  /** The cell resumes only after everything queued in state `s`, whatever is interleaved. */
  ghost predicate ResumesBehind(s: State, c: Cid) {
    forall script, last :: Runs(s, script, last) && s.dispatched <= last.dispatched && c in After(s, last) ==> s.queue <= After(s, last)
  }

  /**
    Yielding is fair, exactly when it can be.  Let a task be polled, and take any run from
    there: its self-wake may come anywhere in it, with any moves of other threads, other cells
    and the dispatcher before, between and after its operations.  The task resumes only after
    everything that is queued, if and only if it is not queued itself ahead of something else
    (by an earlier wake during the same poll).
   */
  lemma YieldGoesBehindTheQueue(s: State, c: Cid)
    requires Inv(s)
    ensures ResumesBehind(s, c) <==> c !in Front(s.queue)
  {
    if c !in Front(s.queue) {
      forall script, last | Runs(s, script, last) && s.dispatched <= last.dispatched && c in After(s, last)
        ensures s.queue <= After(s, last)
      {
        NotAheadWaits(s, c, script, last);
      }
    } else {
      var i :| 0 <= i < |s.queue| - 1 && s.queue[i] == c;
      var script, last := FrontCanBeServed(s, i + 1);
      assert After(s, last) == s.queue[..i + 1];
      assert After(s, last)[i] == c;
      assert !(s.queue <= After(s, last));
    }
  }

  /**
    What the condition means for a task in its poll.  If no wake has reached it since the poll
    began it is not queued, so it resumes behind the queue; and once its self-wake has made
    its fetch-or it is not forgotten: in every run it is dispatched, or still queued or about
    to be.
   */
  lemma YieldResumes(s: State, c: Cid, t: Tid, script: seq<Move>, last: State)
    requires Inv(s) && c in s.cells && s.cells[c].run.Polling? && Enabled(s, Move(c, C.Wake(t)))
    ensures !C.Queued(s.cells[c].word) ==> c !in s.queue && ResumesBehind(s, c)
    ensures Runs(Exec(s, Move(c, C.Wake(t))), script, last) ==>
              && s.dispatched <= last.dispatched && c in last.cells
              && (c in After(s, last) || Owed(last.cells[c]))
  {
    assert CellOk(s, c);
    var mv := Move(c, C.Wake(t));
    if !C.Queued(s.cells[c].word) {
      assert multiset(s.queue)[c] == 0;
      YieldGoesBehindTheQueue(s, c);
    }
    if Runs(Exec(s, mv), script, last) {
      PollingWakeOwes(s.cells[c], t);
      StepKeepsInv(s, mv);
      StepKeepsLog(s, mv);
      OwedUntilDispatched(Exec(s, mv), c, script, last);
    }
  }

  lemma PollingWakeOwes(cell: C.State, t: Tid)
    requires C.Inv(cell) && cell.run.Polling? && C.Enabled(cell, C.Wake(t))
    ensures Owed(C.Exec(cell, C.Wake(t)))
  {
    var cell' := C.Exec(cell, C.Wake(t));
    C.ActiveAfter(cell, t, cell');
    forall u | u in cell'.pcs
      ensures !cell'.pcs[u].Spawns()
    {
      assert C.ThreadOk(cell, u);
    }
  }
}
