/**
  One task cell: the two state bits, the work-item handle, the future slot, the queue
  entries of its work item and the run in progress.  `try_spawn`, the waker's
  `wake_by_ref` and `poll_once` are split into their atomic operations; any number of
  threads spawn and wake at once, over any number of lives of the cell.
 */
module Cells {
  import opened Prelude

  type Word = bv8

  const SPAWNED: Word := 1
  const RUN_QUEUED: Word := 2

  predicate Spawned(w: Word) { w & SPAWNED != 0 }
  predicate Queued(w: Word) { w & RUN_QUEUED != 0 }

  /** The future slot.  `Done` is a future that returned Ready and is not dropped yet. */
  datatype Future = Empty | Live | Done

  /** Next operation of a thread inside `try_spawn` or `wake_by_ref`. */
  datatype Pc =
    | Idle
    | WakeLoad      // set RUN_QUEUED on a spawned, unqueued cell; will load the handle
    | WakeSchedule  // will call schedule_now
    | SpawnWrite    // won the cell; will write the future
    | SpawnLoad     // will load the handle
    | SpawnNew      // will allocate the work item
    | SpawnStore    // will store the handle
    | SpawnSchedule // will call schedule_now
    | UndoDrop      // allocation failed; will drop the future
    | UndoClear     // will store 0
  {
    predicate Spawns() { !Idle? && !WakeLoad? && !WakeSchedule? }
  }

  /** The dispatcher's run of this cell. */
  datatype RunPc =
    | Rest
    | Popped    // took the entry; will clear RUN_QUEUED
    | Polling   // inside the future's poll
    | Dropping  // the future returned Ready; will drop it
    | Clearing  // will store 0

  datatype State = State(
    word: Word,
    handle: bool,
    future: Future,
    entries: nat,
    run: RunPc,
    pcs: map<Tid, Pc>,
    writes: nat,
    drops: nat)

  function Init(threads: set<Tid>): State {
    State(0, false, Empty, 0, Rest, map t | t in threads :: Idle, 0, 0)
  }

  datatype Step =
    | Wake(t: Tid)
    | Spawn(t: Tid)
    | Advance(t: Tid, granted: bool)  // `granted` is the answer of the allocator, read by SpawnNew only
    | Pop
    | Begin
    | PollPending
    | PollReady
    | DropFuture
    | Clear

  predicate Enabled(s: State, step: Step) {
    match step
    case Wake(t) => t in s.pcs && s.pcs[t].Idle?
    case Spawn(t) => t in s.pcs && s.pcs[t].Idle?
    case Advance(t, _) => t in s.pcs && !s.pcs[t].Idle?
    case Pop => s.run.Rest? && s.entries > 0
    case Begin => s.run.Popped?
    case PollPending => s.run.Polling?
    case PollReady => s.run.Polling?
    case DropFuture => s.run.Dropping?
    case Clear => s.run.Clearing?
  }

  /** `wake_by_ref`: fetch-or of RUN_QUEUED; only the wake that finds SPAWNED alone goes on to schedule. */
  function WakeFetchOr(s: State, t: Tid): State {
    var next := if Spawned(s.word) && !Queued(s.word) then WakeLoad else Idle;
    s.(word := s.word | RUN_QUEUED, pcs := s.pcs[t := next])
  }

  /** `try_spawn`: the compare-exchange from 0; any other word is Busy. */
  function SpawnCas(s: State, t: Tid): State {
    if s.word == 0 then s.(word := SPAWNED | RUN_QUEUED, pcs := s.pcs[t := SpawnWrite]) else s
  }

  function AdvanceThread(s: State, t: Tid, granted: bool): State
    requires t in s.pcs && !s.pcs[t].Idle?
  {
    match s.pcs[t]
    case WakeLoad => s.(pcs := s.pcs[t := if s.handle then WakeSchedule else Idle])
    case WakeSchedule => s.(entries := s.entries + 1, pcs := s.pcs[t := Idle])
    case SpawnWrite => s.(future := Live, writes := s.writes + 1, pcs := s.pcs[t := SpawnLoad])
    case SpawnLoad => s.(pcs := s.pcs[t := if s.handle then SpawnSchedule else SpawnNew])
    case SpawnNew => s.(pcs := s.pcs[t := if granted then SpawnStore else UndoDrop])
    case SpawnStore => s.(handle := true, pcs := s.pcs[t := SpawnSchedule])
    case SpawnSchedule => s.(entries := s.entries + 1, pcs := s.pcs[t := Idle])
    case UndoDrop => s.(future := Empty, drops := s.drops + 1, pcs := s.pcs[t := UndoClear])
    case UndoClear => s.(word := 0, pcs := s.pcs[t := Idle])
  }

  /** `poll_once`: fetch-and of !RUN_QUEUED; a cell that is not spawned is left alone. */
  function BeginRun(s: State): State {
    s.(word := s.word & !RUN_QUEUED, run := if Spawned(s.word) then Polling else Rest)
  }

  function Exec(s: State, step: Step): State
    requires Enabled(s, step)
  {
    match step
    case Wake(t) => WakeFetchOr(s, t)
    case Spawn(t) => SpawnCas(s, t)
    case Advance(t, granted) => AdvanceThread(s, t, granted)
    case Pop => s.(entries := s.entries - 1, run := Popped)
    case Begin => BeginRun(s)
    case PollPending => s.(run := Rest)
    case PollReady => s.(run := Dropping, future := Done)
    case DropFuture => s.(run := Clearing, future := Empty, drops := s.drops + 1)
    case Clear => s.(run := Rest, word := 0)
  }

  /** What must never be seen: polling or dropping a slot that does not hold the right future. */
  predicate Fault(s: State) {
    || (s.run.Polling? && !s.future.Live?)
    || (s.run.Dropping? && !s.future.Done?)
  }

  // ------------------------------------------------------------------ pending runs

  function Bit(b: bool): nat { if b then 1 else 0 }

  function Active(s: State): set<Tid> {
    set t | t in s.pcs && !s.pcs[t].Idle?
  }

  /** Queue entries, an entry taken off and not begun, and threads on their way to schedule one. */
  function Pending(s: State): nat {
    |Active(s)| + s.entries + Bit(s.run.Popped?)
  }

  lemma ActiveAfter(s: State, t: Tid, s': State)
    requires t in s.pcs && t in s'.pcs && s'.pcs == s.pcs[t := s'.pcs[t]]
    ensures Active(s') == if s'.pcs[t].Idle? then Active(s) - {t} else Active(s) + {t}
    ensures |Active(s')| + Bit(!s.pcs[t].Idle?) == |Active(s)| + Bit(!s'.pcs[t].Idle?)
  {
    assert t in Active(s) <==> !s.pcs[t].Idle?;
    assert Active(s') == if s'.pcs[t].Idle? then Active(s) - {t} else Active(s) + {t};
  }

  lemma OneActive(s: State, t: Tid, u: Tid)
    requires |Active(s)| <= 1 && t in Active(s) && u in Active(s)
    ensures t == u
  {
    if t != u {
      assert {t, u} <= Active(s);
      assert |{t, u}| <= |Active(s)| by { Subset({t, u}, Active(s)); }
    }
  }

  lemma Subset(a: set<Tid>, b: set<Tid>)
    requires a <= b
    ensures |a| <= |b|
  {
    assert b == a + (b - a);
  }

  // ------------------------------------------------------------------ invariant

  ghost predicate ThreadOk(s: State, t: Tid)
    requires t in s.pcs
  {
    var pc := s.pcs[t];
    && (pc.WakeLoad? || pc.WakeSchedule? || pc.SpawnSchedule? ==> s.handle)
    && (pc.WakeLoad? || pc.WakeSchedule? ==> !Spawned(s.word) || s.run.Clearing? || !s.future.Empty?)
    && (pc.Spawns() ==>
          && s.word == SPAWNED | RUN_QUEUED
          && s.run.Rest?
          && (s.future.Empty? <==> pc.SpawnWrite? || pc.UndoClear?)
          && !s.future.Done?)
  }

  ghost predicate FutureOk(s: State) {
    && (s.run.Polling? || s.run.Dropping? || s.run.Clearing? ==> Spawned(s.word) && s.handle)
    && (s.run.Polling? ==> s.future.Live?)
    && (s.run.Dropping? <==> s.future.Done?)
    && (s.run.Clearing? ==> s.future.Empty?)
    && (!Spawned(s.word) ==> s.future.Empty?)
    && (Spawned(s.word) && s.future.Empty? && !s.run.Clearing? ==> |Active(s)| == 1)
    && s.writes == s.drops + Bit(!s.future.Empty?)
  }

  ghost predicate PendingOk(s: State) {
    && s.word in {0, SPAWNED, RUN_QUEUED, SPAWNED | RUN_QUEUED}
    && Pending(s) <= 1
    && (Spawned(s.word) ==> Pending(s) == Bit(Queued(s.word)))
    && (Spawned(s.word) && !Queued(s.word) ==> s.handle)
    && (s.entries > 0 || s.run.Popped? ==> s.handle)
  }

  ghost predicate Inv(s: State) {
    && PendingOk(s)
    && FutureOk(s)
    && (forall t :: t in s.pcs ==> ThreadOk(s, t))
  }

  /** A spawn is careful when nothing left over from an earlier life can still run. */
  predicate Careful(s: State, step: Step) {
    step.Spawn? && s.word == 0 ==> Pending(s) == 0
  }

  lemma WakeKeepsInv(s: State, t: Tid)
    requires Inv(s) && t in s.pcs && s.pcs[t].Idle?
    ensures Inv(WakeFetchOr(s, t))
  {
    ActiveAfter(s, t, WakeFetchOr(s, t));
    hide Active, Careful, Fault;
    assert PendingOk(WakeFetchOr(s, t));
    hide Pending, PendingOk;
    forall u | u in s.pcs
      ensures ThreadOk(WakeFetchOr(s, t), u)
    {
      assert ThreadOk(s, u);
    }
  }

  lemma SpawnKeepsInv(s: State, t: Tid)
    requires Inv(s) && t in s.pcs && s.pcs[t].Idle? && Careful(s, Spawn(t))
    ensures Inv(SpawnCas(s, t))
  {
    var s' := SpawnCas(s, t);
    if s.word == 0 {
      assert Active(s) == {};
      assert forall u :: u in s.pcs && !s.pcs[u].Idle? ==> u in Active(s);
      ActiveAfter(s, t, s');
    }
  }

  lemma AdvanceKeepsInv(s: State, t: Tid, granted: bool)
    requires Inv(s) && t in s.pcs && !s.pcs[t].Idle?
    ensures Inv(AdvanceThread(s, t, granted))
  {
    var s' := AdvanceThread(s, t, granted);
    ActiveAfter(s, t, s');
    assert ThreadOk(s, t);
    assert t in Active(s);
    hide Active;
    forall u | u in s.pcs
      ensures ThreadOk(s', u)
    {
      if u != t && !s.pcs[u].Idle? { OneActive(s, t, u); }
    }
  }

  lemma DispatchKeepsInv(s: State, step: Step)
    requires Inv(s) && Enabled(s, step)
    requires !step.Wake? && !step.Spawn? && !step.Advance?
    ensures Inv(Exec(s, step))
  {
    var s' := Exec(s, step);
    assert Active(s') == Active(s);
    forall t | t in s.pcs
      ensures ThreadOk(s', t)
    {
      assert ThreadOk(s, t);
      if !s.pcs[t].Idle? { assert t in Active(s); }
    }
  }

  lemma StepKeepsInv(s: State, step: Step)
    requires Inv(s) && Enabled(s, step) && Careful(s, step)
    ensures Inv(Exec(s, step))
  {
    match step
    case Wake(t) => WakeKeepsInv(s, t);
    case Spawn(t) => SpawnKeepsInv(s, t);
    case Advance(t, granted) => AdvanceKeepsInv(s, t, granted);
    case _ => DispatchKeepsInv(s, step);
  }

  // ------------------------------------------------------------------ runs

  /**
    `script` can be run from `s` and ends in `last`: one interleaving of all threads, in
    which every spawn is careful.  The spawn that starts a first life always is.
   */
  ghost predicate Runs(s: State, script: seq<Step>, last: State)
    decreases |script|
  {
    if script == [] then s == last
    else Enabled(s, script[0]) && Careful(s, script[0]) && Runs(Exec(s, script[0]), script[1..], last)
  }

  /** The same without the condition on spawns: whatever the code can do. */
  ghost predicate Happens(s: State, script: seq<Step>, last: State)
    decreases |script|
  {
    if script == [] then s == last
    else Enabled(s, script[0]) && Happens(Exec(s, script[0]), script[1..], last)
  }

  lemma {:induction false} HappensThen(s: State, script: seq<Step>, mid: State, step: Step)
    requires Happens(s, script, mid) && Enabled(mid, step)
    ensures Happens(s, script + [step], Exec(mid, step))
    decreases |script|
  {
    hide Exec, Enabled;
    if script == [] {
      assert [] + [step] == [step] && [step][1..] == [];
    } else {
      HappensThen(Exec(s, script[0]), script[1..], mid, step);
      assert (script + [step])[1..] == script[1..] + [step];
    }
  }

  /** What went before in a careful run was careful. */
  lemma {:induction false} CarefulPrefix(s: State, before: seq<Step>, mid: State, script: seq<Step>, last: State)
    requires Happens(s, before, mid) && before <= script && Runs(s, script, last)
    ensures Runs(s, before, mid)
    decreases |before|
  {
    hide Exec, Enabled, Careful;
    if before != [] {
      assert before[0] == script[0] && before[1..] <= script[1..];
      CarefulPrefix(Exec(s, before[0]), before[1..], mid, script[1..], last);
    }
  }

  lemma Prepend(s: State, step: Step, script: seq<Step>, last: State)
    requires Enabled(s, step) && Careful(s, step) && Runs(Exec(s, step), script, last)
    ensures Runs(s, [step] + script, last)
  {
    assert ([step] + script)[1..] == script;
  }

  lemma InitKeepsInv(threads: set<Tid>)
    ensures Inv(Init(threads))
  {
    assert Active(Init(threads)) == {};
  }

  lemma {:induction false} RunKeepsInv(s: State, script: seq<Step>, last: State)
    requires Inv(s) && Runs(s, script, last)
    ensures Inv(last)
    decreases |script|
  {
    if script != [] {
      StepKeepsInv(s, script[0]);
      RunKeepsInv(Exec(s, script[0]), script[1..], last);
    }
  }

  /**
    Life cycle.  In every careful interleaving, over any number of lives: the future is
    polled only while it is written, unresolved and not dropped; what is dropped has been
    written and each write is dropped at most once, exactly once when the slot is empty; and
    a spawn during a life is Busy, changing nothing.
   */
  lemma LifeCycle(threads: set<Tid>, script: seq<Step>, s: State)
    requires Runs(Init(threads), script, s)
    ensures !Fault(s)
    ensures s.writes == s.drops + Bit(!s.future.Empty?)
    ensures forall t :: t in s.pcs && s.pcs[t].SpawnWrite? ==> s.future.Empty?
    ensures forall t :: t in s.pcs && s.pcs[t].UndoDrop? ==> s.future.Live?
    ensures !s.future.Empty? ==> forall t :: SpawnCas(s, t) == s
  {
    InitKeepsInv(threads);
    RunKeepsInv(Init(threads), script, s);
    forall t | t in s.pcs
      ensures s.pcs[t].SpawnWrite? ==> s.future.Empty?
      ensures s.pcs[t].UndoDrop? ==> s.future.Live?
    {
      assert ThreadOk(s, t);
    }
  }

  /**
    Exactly one run is pending while SPAWNED and RUN_QUEUED are both set: a queue entry, an
    entry taken off and not begun, or one thread about to schedule.  None is while SPAWNED
    stands alone, and then the handle is there for the next wake.
   */
  lemma OnePendingRun(threads: set<Tid>, script: seq<Step>, s: State)
    requires Runs(Init(threads), script, s)
    ensures Pending(s) <= 1
    ensures Spawned(s.word) && Queued(s.word) ==>
              || (s.entries == 1 && !s.run.Popped? && forall t :: t in s.pcs ==> s.pcs[t].Idle?)
              || (s.entries == 0 && s.run.Popped? && forall t :: t in s.pcs ==> s.pcs[t].Idle?)
              || (s.entries == 0 && !s.run.Popped?
                  && exists t :: t in s.pcs && !s.pcs[t].Idle? && forall u :: u in s.pcs && u != t ==> s.pcs[u].Idle?)
    ensures Spawned(s.word) && !Queued(s.word) ==>
              s.handle && s.entries == 0 && !s.run.Popped? && forall t :: t in s.pcs ==> s.pcs[t].Idle?
  {
    InitKeepsInv(threads);
    RunKeepsInv(Init(threads), script, s);
    assert forall t :: t in s.pcs && !s.pcs[t].Idle? ==> t in Active(s);
    if |Active(s)| == 1 {
      var t :| t in Active(s);
      forall u | u in s.pcs && u != t
        ensures s.pcs[u].Idle?
      {
        if !s.pcs[u].Idle? { OneActive(s, t, u); }
      }
    }
  }

  // ------------------------------------------------------------------ a wake is followed by a run

  /** The step by which a failed allocation gives the cell back. */
  predicate GivesUp(s: State, step: Step) {
    step.Advance? && step.t in s.pcs && s.pcs[step.t].UndoClear?
  }

  /** Only the start of a run, or giving up after a failed allocation, uses up a pending run. */
  lemma StepKeepsPending(s: State, step: Step)
    requires Inv(s) && Enabled(s, step) && !step.Begin? && !GivesUp(s, step)
    ensures Pending(Exec(s, step)) >= Pending(s)
  {
    var s' := Exec(s, step);
    match step
    case Wake(t) => ActiveAfter(s, t, s');
    case Spawn(t) => if s.word == 0 { ActiveAfter(s, t, s'); }
    case Advance(t, _) =>
      assert ThreadOk(s, t);
      ActiveAfter(s, t, s');
    case Begin =>
    case _ => assert Active(s') == Active(s);
  }

  ghost predicate BeginsOrGivesUp(s: State, script: seq<Step>)
    decreases |script|
  {
    script != [] && Enabled(s, script[0])
    && (script[0].Begin? || GivesUp(s, script[0]) || BeginsOrGivesUp(Exec(s, script[0]), script[1..]))
  }

  lemma {:induction false} PendingIsUsedByARun(s: State, script: seq<Step>, last: State)
    requires Inv(s) && Runs(s, script, last)
    requires Pending(s) > 0 && Pending(last) == 0
    ensures BeginsOrGivesUp(s, script)
    decreases |script|
  {
    if script == [] {
    } else if !script[0].Begin? && !GivesUp(s, script[0]) {
      StepKeepsInv(s, script[0]);
      StepKeepsPending(s, script[0]);
      PendingIsUsedByARun(Exec(s, script[0]), script[1..], last);
    }
  }

  /**
    No wake is lost.  After a wake whose fetch-or found SPAWNED, the system cannot come to
    rest (nothing queued, taken off, or about to be scheduled) without a run of the cell that
    began after that wake; the one exception is a spawn whose allocation fails.
   */
  lemma WakeIsFollowedByRun(s: State, t: Tid, script: seq<Step>, last: State)
    requires Inv(s) && Enabled(s, Wake(t)) && Spawned(s.word)
    requires Runs(Exec(s, Wake(t)), script, last)
    requires Pending(last) == 0
    ensures BeginsOrGivesUp(Exec(s, Wake(t)), script)
  {
    WakeKeepsInv(s, t);
    PendingIsUsedByARun(Exec(s, Wake(t)), script, last);
  }

  // ------------------------------------------------------------------ respawning

  /** From a state with an entry waiting and no life started, two steps reach the poll. */
  lemma EntryReachesPoll(s: State) returns (script: seq<Step>, bad: State)
    requires Spawned(s.word) && s.run.Rest? && s.entries > 0
    ensures Runs(s, script, bad) && bad == s.(entries := s.entries - 1, word := s.word & !RUN_QUEUED, run := Polling)
  {
    var popped := Exec(s, Pop);
    bad := Exec(popped, Begin);
    Prepend(popped, Begin, [], bad);
    Prepend(s, Pop, [Begin], bad);
    script := [Pop] + [Begin];
  }

  /** A respawn that leaves a run pending can have it poll the slot before the new future is written. */
  lemma LeftoverRunFaults(s: State, t: Tid) returns (script: seq<Step>, bad: State)
    requires Inv(s) && Enabled(s, Spawn(t)) && s.word == 0 && Pending(s) > 0
    ensures Runs(SpawnCas(s, t), script, bad) && Fault(bad)
  {
    var s0 := SpawnCas(s, t);
    if s.run.Popped? {
      bad := Exec(s0, Begin);
      Prepend(s0, Begin, [], bad);
      script := [Begin] + [];
    } else if s.entries > 0 {
      script, bad := EntryReachesPoll(s0);
    } else {
      var u :| u in Active(s);
      assert ThreadOk(s, u);
      var move := Advance(u, false);
      var s1 := Exec(s0, move);
      if s.pcs[u].WakeSchedule? {
        script, bad := EntryReachesPoll(s1);
      } else {
        var s2 := Exec(s1, move);
        script, bad := EntryReachesPoll(s2);
        Prepend(s1, move, script, bad);
        script := [move] + script;
      }
      Prepend(s0, move, script, bad);
      script := [move] + script;
    }
  }

  /**
    When a respawn is safe.  The compare-exchange that starts a new life is followed only by
    faultless runs if and only if nothing from the previous life is pending at that moment.
   */
  lemma RespawnIsSafeIffNothingPending(s: State, t: Tid)
    requires Inv(s) && Enabled(s, Spawn(t)) && s.word == 0
    ensures Pending(s) == 0 ==> forall script, last :: Runs(SpawnCas(s, t), script, last) ==> !Fault(last)
    ensures Pending(s) != 0 ==> exists script, last :: Runs(SpawnCas(s, t), script, last) && Fault(last)
  {
    if Pending(s) == 0 {
      SpawnKeepsInv(s, t);
      forall script, last | Runs(SpawnCas(s, t), script, last)
        ensures !Fault(last)
      {
        RunKeepsInv(SpawnCas(s, t), script, last);
      }
    } else {
      var script, bad := LeftoverRunFaults(s, t);
      assert Runs(SpawnCas(s, t), script, bad) && Fault(bad);
    }
  }

  /**
    The unsafe situation does occur.  Whenever a cell is being polled, one wake by another
    thread followed by the future's completion leaves the cell free to respawn with an entry
    still in the queue.
   */
  lemma LastPollCanLeaveAnEntry(s: State, t: Tid) returns (script: seq<Step>, last: State)
    requires Inv(s) && s.run.Polling? && !Queued(s.word) && Enabled(s, Wake(t))
    ensures Runs(s, script, last)
    ensures last.word == 0 && last.entries > 0 && Enabled(last, Spawn(t))
  {
    var move := Advance(t, false);
    var s1 := Exec(s, Wake(t));
    var s2 := Exec(s1, move);
    var s3 := Exec(s2, move);
    var s4 := Exec(s3, PollReady);
    var s5 := Exec(s4, DropFuture);
    last := Exec(s5, Clear);
    Prepend(s5, Clear, [], last);
    Prepend(s4, DropFuture, [Clear], last);
    Prepend(s3, PollReady, [DropFuture] + [Clear], last);
    Prepend(s2, move, [PollReady] + ([DropFuture] + [Clear]), last);
    script := [move] + ([PollReady] + ([DropFuture] + [Clear]));
    Prepend(s1, move, script, last);
    script := [move] + script;
    Prepend(s, Wake(t), script, last);
    script := [Wake(t)] + script;
  }

  // ------------------------------------------------------------------ the same from a new cell

  lemma {:induction false} RunsConcat(s: State, a: seq<Step>, mid: State, b: seq<Step>, last: State)
    requires Runs(s, a, mid) && Runs(mid, b, last)
    ensures Runs(s, a + b, last)
    decreases |a|
  {
    hide Exec, Enabled, Careful;
    if a == [] {
      assert [] + b == b;
    } else {
      RunsConcat(Exec(s, a[0]), a[1..], mid, b, last);
      assert (a + b)[1..] == a[1..] + b;
    }
  }

  lemma {:induction false} RunsHappen(s: State, script: seq<Step>, last: State)
    requires Runs(s, script, last)
    ensures Happens(s, script, last)
    decreases |script|
  {
    hide Exec, Enabled, Careful;
    if script != [] { RunsHappen(Exec(s, script[0]), script[1..], last); }
  }

  lemma {:induction false} HappensConcat(s: State, a: seq<Step>, mid: State, b: seq<Step>, last: State)
    requires Happens(s, a, mid) && Happens(mid, b, last)
    ensures Happens(s, a + b, last)
    decreases |a|
  {
    hide Exec, Enabled;
    if a == [] {
      assert [] + b == b;
    } else {
      HappensConcat(Exec(s, a[0]), a[1..], mid, b, last);
      assert (a + b)[1..] == a[1..] + b;
    }
  }

  /** A new cell, spawned by thread `t`, is in its first poll six of its steps and two of the dispatcher's later. */
  lemma NewCellIsPolled(threads: set<Tid>, t: Tid) returns (script: seq<Step>, s: State)
    requires t in threads
    ensures Runs(Init(threads), script, s) && Inv(s)
    ensures s.run.Polling? && s.word == SPAWNED && s.entries == 0 && Enabled(s, Wake(t))
  {
    var s0 := Init(threads);
    InitKeepsInv(threads);
    assert Active(s0) == {};
    var s1 := Exec(s0, Spawn(t));
    assert s1.pcs[t] == SpawnWrite;
    var s2 := AdvanceThread(s1, t, true);
    var s3 := AdvanceThread(s2, t, true);
    var s4 := AdvanceThread(s3, t, true);
    var s5 := AdvanceThread(s4, t, true);
    var s6 := AdvanceThread(s5, t, true);
    Prepend(s5, Advance(t, true), [], s6);
    Prepend(s4, Advance(t, true), [Advance(t, true)] + [], s6);
    script := [Advance(t, true)] + ([Advance(t, true)] + []);
    Prepend(s3, Advance(t, true), script, s6);
    script := [Advance(t, true)] + script;
    Prepend(s2, Advance(t, true), script, s6);
    script := [Advance(t, true)] + script;
    Prepend(s1, Advance(t, true), script, s6);
    script := [Advance(t, true)] + script;
    Prepend(s0, Spawn(t), script, s6);
    script := [Spawn(t)] + script;
    var rest;
    rest, s := EntryReachesPoll(s6);
    RunsConcat(s0, script, s6, rest, s);
    script := script + rest;
    RunKeepsInv(s0, script, s);
  }

  /**
    The unsafe respawn is reached from a new cell.  Spawned, polled once, woken during that
    poll and finished, the cell can be respawned, and its leftover run polls the slot before
    the new future is written.  Every spawn of the run but the last is careful.
   */
  lemma RespawnFaultsFromNewCell(threads: set<Tid>, t: Tid) returns (life: seq<Step>, s: State, script: seq<Step>, bad: State)
    requires t in threads
    ensures Runs(Init(threads), life, s) && Enabled(s, Spawn(t)) && !Careful(s, Spawn(t))
    ensures Happens(Init(threads), life + ([Spawn(t)] + script), bad) && Fault(bad)
  {
    hide Inv, Fault;
    var polled;
    life, polled := NewCellIsPolled(threads, t);
    var ending;
    ending, s := LastPollCanLeaveAnEntry(polled, t);
    RunsConcat(Init(threads), life, polled, ending, s);
    life := life + ending;
    RunKeepsInv(polled, ending, s);
    script, bad := LeftoverRunFaults(s, t);
    RunsHappen(Init(threads), life, s);
    RunsHappen(SpawnCas(s, t), script, bad);
    assert ([Spawn(t)] + script)[1..] == script;
    HappensConcat(Init(threads), life, s, [Spawn(t)] + script, bad);
  }

  // ------------------------------------------------------------------ stale wakes

  ghost predicate SpawnsNothing(script: seq<Step>) {
    forall i :: 0 <= i < |script| ==> !script[i].Spawn?
  }

  /** Whether a stale wake of `script` is still unanswered: some wake comes after the last run that began. */
  ghost predicate StaleWake(script: seq<Step>, before: bool) {
    if script == [] then before else StaleWake(script[1..], script[0].Wake? || (before && !script[0].Begin?))
  }

  lemma UnspawnedStep(s: State, step: Step)
    requires Inv(s) && Enabled(s, step) && !Spawned(s.word) && !step.Spawn?
    ensures Exec(s, step).word == if step.Wake? || (Queued(s.word) && !step.Begin?) then RUN_QUEUED else 0
  {
    hide Pending;
    if step.Advance? { assert ThreadOk(s, step.t); }
  }

  lemma {:induction false} UnspawnedWord(s: State, script: seq<Step>, last: State)
    requires Inv(s) && !Spawned(s.word) && SpawnsNothing(script) && Runs(s, script, last)
    ensures last.word == if StaleWake(script, Queued(s.word)) then RUN_QUEUED else 0
    decreases |script|
  {
    if script == [] {
      assert s.word in {0, RUN_QUEUED};
    } else {
      hide Inv;
      var next := Exec(s, script[0]);
      UnspawnedStep(s, script[0]);
      hide Exec;
      StepKeepsInv(s, script[0]);
      assert Queued(RUN_QUEUED) && !Queued(0) && !Spawned(RUN_QUEUED) && !Spawned(0);
      UnspawnedWord(next, script[1..], last);
    }
  }

  lemma UnspawnedStepTouchesNothing(s: State, step: Step)
    requires Inv(s) && Enabled(s, step) && !Spawned(s.word) && !step.Spawn?
    ensures var s' := Exec(s, step);
            && s'.future == s.future && s'.handle == s.handle && s'.writes == s.writes && s'.drops == s.drops
            && !s'.run.Polling? && !s'.run.Dropping?
  {
    hide Pending;
    if step.Advance? { assert ThreadOk(s, step.t); }
  }

  /**
    Stale runs touch nothing.  From any state in which the life of the future is over, whatever
    wakes, queued entries and runs follow before the next spawn, nothing is polled or dropped
    and the future slot and the handle stay as they are.
   */
  lemma {:induction false} StaleRunsTouchNothing(s: State, script: seq<Step>, last: State)
    requires Inv(s) && !Spawned(s.word) && SpawnsNothing(script) && Runs(s, script, last)
    ensures !Spawned(last.word) && last.future == Empty && last.handle == s.handle
    ensures last.writes == s.writes && last.drops == s.drops
    ensures !last.run.Polling? && !last.run.Dropping?
    decreases |script|
  {
    if script == [] {
      hide Pending;
    } else {
      hide Inv;
      UnspawnedStepTouchesNothing(s, script[0]);
      UnspawnedStep(s, script[0]);
      assert !Spawned(RUN_QUEUED) && !Spawned(0);
      hide Exec;
      StepKeepsInv(s, script[0]);
      StaleRunsTouchNothing(Exec(s, script[0]), script[1..], last);
    }
  }

  /** A finished cell can be spawned again if and only if no stale wake has hit it since its last run began. */
  lemma RespawnSucceedsIffNoStaleWake(s: State, t: Tid, script: seq<Step>, last: State)
    requires Inv(s) && s.word == 0 && SpawnsNothing(script) && Runs(s, script, last) && t in last.pcs
    requires last.pcs[t].Idle?
    ensures SpawnCas(last, t) != last <==> !StaleWake(script, false)
  {
    UnspawnedWord(s, script, last);
    assert !Queued(s.word);
  }

  /** A cell on which a stale wake found nothing pending is never spawned again. */
  lemma {:induction false} StaleWakeBlocksForever(s: State, script: seq<Step>, last: State)
    requires Inv(s) && s.word == RUN_QUEUED && Pending(s) == 0 && Runs(s, script, last)
    ensures last.word == RUN_QUEUED && Pending(last) == 0 && forall t :: SpawnCas(last, t) == last
    decreases |script|
  {
    if script != [] {
      BlockedStep(s, script[0]);
      StepKeepsInv(s, script[0]);
      hide Exec, Enabled, Inv, Pending, Careful;
      StaleWakeBlocksForever(Exec(s, script[0]), script[1..], last);
    }
  }

  lemma BlockedStep(s: State, step: Step)
    requires Inv(s) && Enabled(s, step) && s.word == RUN_QUEUED && Pending(s) == 0
    ensures Exec(s, step).word == RUN_QUEUED && Pending(Exec(s, step)) == 0
  {
    assert Active(s) == {} && !Spawned(s.word) && Queued(s.word);
    assert forall t :: t in s.pcs && !s.pcs[t].Idle? ==> t in Active(s);
    if step.Wake? { ActiveAfter(s, step.t, Exec(s, step)); }
  }

  /** A blocked cell is reached from a new one: spawned, polled to its end, and woken once more. */
  lemma NewCellCanBeBlocked(threads: set<Tid>, t: Tid) returns (script: seq<Step>, s: State)
    requires t in threads
    ensures Runs(Init(threads), script, s) && s.word == RUN_QUEUED && Pending(s) == 0
  {
    hide Inv;
    var polled;
    script, polled := NewCellIsPolled(threads, t);
    var s1 := Exec(polled, PollReady);
    var s2 := Exec(s1, DropFuture);
    var s3 := Exec(s2, Clear);
    s := Exec(s3, Wake(t));
    Prepend(s3, Wake(t), [], s);
    Prepend(s2, Clear, [Wake(t)] + [], s);
    Prepend(s1, DropFuture, [Clear] + ([Wake(t)] + []), s);
    Prepend(polled, PollReady, [DropFuture] + ([Clear] + ([Wake(t)] + [])), s);
    RunsConcat(Init(threads), script, polled, [PollReady] + ([DropFuture] + ([Clear] + ([Wake(t)] + []))), s);
    script := script + ([PollReady] + ([DropFuture] + ([Clear] + ([Wake(t)] + []))));
    NothingPendingAfterLife(polled, s3, t);
  }

  lemma NothingPendingAfterLife(polled: State, finished: State, t: Tid)
    requires Inv(polled) && polled.word == SPAWNED && t in finished.pcs && finished.pcs[t].Idle?
    requires finished.pcs == polled.pcs && finished.entries == polled.entries && finished.run.Rest?
    ensures Pending(WakeFetchOr(finished, t)) == if Spawned(finished.word) && !Queued(finished.word) then 1 else 0
  {
    assert Spawned(SPAWNED) && !Queued(SPAWNED) && Pending(polled) == 0;
    assert Active(finished) == Active(polled) == {};
    ActiveAfter(finished, t, WakeFetchOr(finished, t));
  }

  /** Such a wake can always come: a finished cell at rest is one wake away from being blocked. */
  lemma OneWakeBlocks(s: State, t: Tid)
    requires Inv(s) && s.word == 0 && Pending(s) == 0 && Enabled(s, Wake(t))
    ensures Inv(Exec(s, Wake(t))) && Exec(s, Wake(t)).word == RUN_QUEUED && Pending(Exec(s, Wake(t))) == 0
  {
    WakeKeepsInv(s, t);
    ActiveAfter(s, t, Exec(s, Wake(t)));
  }

  // ------------------------------------------------------------------ the code, under interference

  predicate MovedBy(step: Step, t: Tid) {
    (step.Wake? || step.Spawn? || step.Advance?) && step.t == t
  }

  predicate Dispatches(step: Step) {
    !step.Wake? && !step.Spawn? && !step.Advance?
  }

  /** What other threads and the dispatcher may do while thread `t` stands still. */
  ghost predicate Rely(s: State, s': State, t: Tid) {
    s'.pcs.Keys == s.pcs.Keys && (t in s.pcs ==> s'.pcs[t] == s.pcs[t])
  }

  /** What all threads may do while the dispatcher stands still inside a run. */
  ghost predicate RelyRun(s: State, s': State) {
    s'.pcs.Keys == s.pcs.Keys && s'.run == s.run
  }

  lemma StepSatisfiesRely(s: State, step: Step, t: Tid)
    requires Enabled(s, step) && !MovedBy(step, t)
    ensures Rely(s, Exec(s, step), t)
    ensures !Dispatches(step) ==> RelyRun(s, Exec(s, step))
  {
  }

  /** Both rely conditions are justified by the runs in which the caller does not move. */
  lemma {:induction false} OthersSatisfyRely(s: State, script: seq<Step>, last: State, t: Tid)
    requires Happens(s, script, last)
    requires forall i :: 0 <= i < |script| ==> !MovedBy(script[i], t)
    ensures Rely(s, last, t)
    ensures (forall i :: 0 <= i < |script| ==> !Dispatches(script[i])) ==> RelyRun(s, last)
    decreases |script|
  {
    hide Exec, Enabled;
    if script != [] {
      StepSatisfiesRely(s, script[0], t);
      OthersSatisfyRely(Exec(s, script[0]), script[1..], last, t);
    }
  }

  /** The steps of thread `t` in a run, in order. */
  ghost function Own(script: seq<Step>, t: Tid): seq<Step> {
    if script == [] then []
    else
      var n := |script| - 1;
      Own(script[..n], t) + if MovedBy(script[n], t) then [script[n]] else []
  }

  /** The steps of the dispatcher. */
  ghost function Dispatched(script: seq<Step>): seq<Step> {
    if script == [] then []
    else
      var n := |script| - 1;
      Dispatched(script[..n]) + if Dispatches(script[n]) then [script[n]] else []
  }

  /** Operations of a call of `try_spawn` that thread `t` is inside of. */
  predicate Advances(steps: seq<Step>, t: Tid) {
    forall i :: 0 <= i < |steps| ==> steps[i].Advance? && steps[i].t == t
  }

  lemma OwnThen(script: seq<Step>, step: Step, t: Tid)
    ensures Own(script + [step], t) == Own(script, t) + if MovedBy(step, t) then [step] else []
    ensures Dispatched(script + [step]) == Dispatched(script) + if Dispatches(step) then [step] else []
  {
    assert (script + [step])[..|script|] == script;
  }

  /** A spawn about to store 0 is the only thing pending. */
  lemma GiveBackIsFinal(s: State, t: Tid)
    requires Inv(s) && t in s.pcs && s.pcs[t].UndoClear?
    ensures Pending(AdvanceThread(s, t, false)) == 0
  {
    assert t in Active(s);
    Subset({t}, Active(s));
    ActiveAfter(s, t, AdvanceThread(s, t, false));
  }

  datatype SpawnError = Busy | AllocFailed

  /**
    `WorkItemCell` as the code has it, with the methods written as their sequences of atomic
    operations.  The ghost `sys` is the transition system, `trail` everything that has
    happened to it since the cell was made, and every operation on the fields is checked to
    be the step of the caller; other threads and the dispatcher run in between.  Nothing is
    asked of the spawns in the trail: what needs them to be careful says so.
   */
  class WorkItemCell {
    var state: Word
    var handle: bool
    var future: Future
    ghost const threads: set<Tid>
    ghost var sys: State
    ghost var trail: seq<Step>

    ghost predicate Valid()
      reads this
    {
      && Happens(Init(threads), trail, sys)
      && sys.word == state && sys.handle == handle && sys.future == future
    }

    /** Every spawn so far was careful. */
    ghost predicate CarefulSoFar()
      reads this
    {
      Runs(Init(threads), trail, sys)
    }

    ghost predicate At(t: Tid, pc: Pc)
      reads this
    {
      t in sys.pcs && sys.pcs[t] == pc
    }

    /** In the course of the trail, after `before` and in state `seen`, the step was made. */
    ghost predicate Made(before: seq<Step>, seen: State, step: Step)
      reads this
    {
      before + [step] <= trail && Happens(Init(threads), before, seen)
    }

    constructor (ghost threads: set<Tid>)
      ensures Valid() && CarefulSoFar() && sys == Init(threads) && trail == []
    {
      state, handle, future := 0, false, Empty;
      this.threads, sys, trail := threads, Init(threads), [];
    }

    /** Steps of other threads and of the dispatcher, any number of them. */
    method Interfere(ghost t: Tid)
      requires Valid()
      modifies this
      ensures Valid() && Rely(old(sys), sys, t)
      ensures old(trail) <= trail && Own(trail, t) == Own(old(trail), t)
    {
    }

    /** Steps of any thread while the dispatcher is busy with a run. */
    method InterfereWithRun()
      requires Valid()
      modifies this
      ensures Valid() && RelyRun(old(sys), sys)
      ensures old(trail) <= trail && Dispatched(trail) == Dispatched(old(trail))
    {
    }

    /** Enters a step in the trail. */
    ghost method Record(step: Step)
      requires Happens(Init(threads), trail, sys) && Enabled(sys, step)
      modifies this`sys, this`trail
      ensures Happens(Init(threads), trail, sys)
      ensures sys == Exec(old(sys), step) && trail == old(trail) + [step]
      ensures forall u :: Own(trail, u) == Own(old(trail), u) + if MovedBy(step, u) then [step] else []
      ensures Dispatched(trail) == Dispatched(old(trail)) + if Dispatches(step) then [step] else []
    {
      hide Exec, Enabled, Happens;
      HappensThen(Init(threads), trail, sys, step);
      forall u
        ensures Own(trail + [step], u) == Own(trail, u) + if MovedBy(step, u) then [step] else []
        ensures Dispatched(trail + [step]) == Dispatched(trail) + if Dispatches(step) then [step] else []
      {
        OwnThen(trail, step, u);
      }
      sys, trail := Exec(sys, step), trail + [step];
    }

    /** After a careful trail the invariant holds, and it held at every point on the way. */
    lemma CarefulThroughout(before: seq<Step>, mid: State)
      requires Happens(Init(threads), before, mid) && before <= trail && CarefulSoFar()
      ensures Runs(Init(threads), before, mid) && Inv(mid)
    {
      hide Runs, Happens;
      CarefulPrefix(Init(threads), before, mid, trail, sys);
      InitKeepsInv(threads);
      RunKeepsInv(Init(threads), before, mid);
    }

    /** `fetch_or(RUN_QUEUED)`. */
    method FetchOrQueued(ghost t: Tid) returns (prev: Word)
      requires Valid() && At(t, Idle)
      modifies this
      ensures Valid() && sys == WakeFetchOr(old(sys), t) && prev == old(state)
      ensures trail == old(trail) + [Wake(t)] && Own(trail, t) == Own(old(trail), t) + [Wake(t)]
    {
      hide Happens, Own;
      Record(Wake(t));
      prev, state := state, state | RUN_QUEUED;
    }

    /** The load of the handle, by a wake or a spawn. */
    method LoadHandle(ghost t: Tid) returns (h: bool)
      requires Valid() && (At(t, WakeLoad) || At(t, SpawnLoad))
      modifies this
      ensures Valid() && sys == AdvanceThread(old(sys), t, false) && h == old(handle)
      ensures Inv(old(sys)) && old(At(t, WakeLoad)) ==> h
      ensures trail == old(trail) + [Advance(t, false)] && Own(trail, t) == Own(old(trail), t) + [Advance(t, false)]
    {
      hide Happens, Own;
      if Inv(sys) { assert ThreadOk(sys, t); }
      Record(Advance(t, false));
      h := handle;
    }

    /** `wi_schedule_now`: one more queue entry. */
    method ScheduleNow(ghost t: Tid)
      requires Valid() && (At(t, WakeSchedule) || At(t, SpawnSchedule))
      modifies this
      ensures Valid() && sys == AdvanceThread(old(sys), t, false)
      ensures sys.entries == old(sys.entries) + 1 && (Inv(old(sys)) ==> sys.entries == 1)
      ensures trail == old(trail) + [Advance(t, false)] && Own(trail, t) == Own(old(trail), t) + [Advance(t, false)]
    {
      hide Happens, Own;
      assert t in Active(sys) && |Active(sys)| >= 1 by { Subset({t}, Active(sys)); }
      Record(Advance(t, false));
    }

    /**
      `wake_by_ref`, whose fetch-or was made after `before`, in state `seen`.  The call goes on
      to schedule the work item if and only if the cell was spawned and not queued then, and
      makes no other step; the handle it loads is never null after careful spawns.
     */
    method WakeByRef(ghost t: Tid) returns (scheduled: bool, ghost before: seq<Step>, ghost seen: State)
      requires Valid() && At(t, Idle)
      modifies this
      ensures Valid() && At(t, Idle)
      ensures old(trail) <= before && Made(before, seen, Wake(t)) && Rely(old(sys), seen, t)
      ensures Own(trail, t) == Own(old(trail), t) + ([Wake(t)]
                + if !Spawned(seen.word) || Queued(seen.word) then []
                  else if scheduled then [Advance(t, false), Advance(t, false)] else [Advance(t, false)])
      ensures scheduled ==> Spawned(seen.word) && !Queued(seen.word)
      ensures CarefulSoFar() ==> (scheduled <==> Spawned(seen.word) && !Queued(seen.word))
    {
      hide Happens, Own, Inv, Runs;
      Interfere(t);
      before, seen := trail, sys;
      scheduled := false;
      ghost var own := Own(trail, t);
      var prev := FetchOrQueued(t);
      if Spawned(prev) && !Queued(prev) {
        Interfere(t);
        ghost var loading, atLoad := trail, sys;
        var h := LoadHandle(t);
        if CarefulSoFar() { CarefulThroughout(loading, atLoad); }
        if h {
          Interfere(t);
          ScheduleNow(t);
          scheduled := true;
        }
        assert own + [Wake(t)] + [Advance(t, false)] == own + ([Wake(t)] + [Advance(t, false)]);
        assert own + [Wake(t)] + [Advance(t, false)] + [Advance(t, false)]
            == own + ([Wake(t)] + [Advance(t, false), Advance(t, false)]);
      }
    }

    /** The compare-exchange of `try_spawn`. */
    method TryOwn(ghost t: Tid) returns (ok: bool)
      requires Valid() && At(t, Idle)
      modifies this
      ensures Valid() && sys == SpawnCas(old(sys), t)
      ensures ok <==> old(state) == 0
      ensures trail == old(trail) + [Spawn(t)] && Own(trail, t) == Own(old(trail), t) + [Spawn(t)]
    {
      hide Happens, Own;
      Record(Spawn(t));
      ok := state == 0;
      if ok {
        state := SPAWNED | RUN_QUEUED;
      }
    }

    method WriteFuture(ghost t: Tid)
      requires Valid() && At(t, SpawnWrite)
      modifies this
      ensures Valid() && sys == AdvanceThread(old(sys), t, false)
      ensures Inv(old(sys)) ==> old(future) == Empty
      ensures trail == old(trail) + [Advance(t, false)] && Own(trail, t) == Own(old(trail), t) + [Advance(t, false)]
    {
      hide Happens, Own;
      if Inv(sys) { assert ThreadOk(sys, t); }
      Record(Advance(t, false));
      future := Live;
    }

    /** `wi_new`; `granted` is the answer of the work-queue manager. */
    method NewWorkItem(ghost t: Tid, granted: bool)
      requires Valid() && At(t, SpawnNew)
      modifies this
      ensures Valid() && sys == AdvanceThread(old(sys), t, granted)
      ensures trail == old(trail) + [Advance(t, granted)] && Own(trail, t) == Own(old(trail), t) + [Advance(t, granted)]
    {
      hide Happens, Own;
      Record(Advance(t, granted));
    }

    method StoreHandle(ghost t: Tid)
      requires Valid() && At(t, SpawnStore)
      modifies this
      ensures Valid() && sys == AdvanceThread(old(sys), t, false)
      ensures trail == old(trail) + [Advance(t, false)] && Own(trail, t) == Own(old(trail), t) + [Advance(t, false)]
    {
      hide Happens, Own;
      Record(Advance(t, false));
      handle := true;
    }

    /** Rolling back: dropping the future just written, then storing 0. */
    method UndoFuture(ghost t: Tid)
      requires Valid() && At(t, UndoDrop)
      modifies this
      ensures Valid() && sys == AdvanceThread(old(sys), t, false)
      ensures Inv(old(sys)) ==> old(future) == Live
      ensures trail == old(trail) + [Advance(t, false)] && Own(trail, t) == Own(old(trail), t) + [Advance(t, false)]
    {
      hide Happens, Own;
      if Inv(sys) { assert ThreadOk(sys, t); }
      Record(Advance(t, false));
      future := Empty;
    }

    method UndoState(ghost t: Tid)
      requires Valid() && At(t, UndoClear)
      modifies this
      ensures Valid() && At(t, Idle) && state == 0 && (Inv(old(sys)) ==> Pending(sys) == 0)
      ensures trail == old(trail) + [Advance(t, false)] && Own(trail, t) == Own(old(trail), t) + [Advance(t, false)]
    {
      hide Happens, Own, Pending, Inv;
      if Inv(sys) { GiveBackIsFinal(sys, t); }
      Record(Advance(t, false));
      state := 0;
    }

    /** The middle of `try_spawn`: reuse the handle, or allocate and store one. */
    method BindWorkItem(ghost t: Tid, granted: bool) returns (bound: bool, ghost steps: seq<Step>)
      requires Valid() && At(t, SpawnLoad)
      modifies this
      ensures Valid() && old(trail) <= trail
      ensures if bound then At(t, SpawnSchedule) else !granted && At(t, UndoDrop)
      ensures Own(trail, t) == Own(old(trail), t) + steps
      ensures steps == if !bound then [Advance(t, false), Advance(t, false)]
                       else if |steps| == 1 then [Advance(t, false)]
                       else [Advance(t, false), Advance(t, true), Advance(t, false)]
      ensures |steps| == 3 ==> granted
    {
      hide Happens, Own;
      ghost var own := Own(trail, t);
      Interfere(t);
      bound := LoadHandle(t);
      steps := [Advance(t, false)];
      if !bound {
        Interfere(t);
        NewWorkItem(t, granted);
        assert own + [Advance(t, false)] + [Advance(t, granted)] == own + [Advance(t, false), Advance(t, granted)];
        steps := [Advance(t, false), Advance(t, granted)];
        if granted {
          Interfere(t);
          StoreHandle(t);
          assert own + [Advance(t, false), Advance(t, true)] + [Advance(t, false)]
              == own + [Advance(t, false), Advance(t, true), Advance(t, false)];
          steps := [Advance(t, false), Advance(t, true), Advance(t, false)];
          bound := true;
        }
      }
    }

    /** The end of a successful `try_spawn`. */
    method FirstSchedule(ghost t: Tid)
      requires Valid() && At(t, SpawnSchedule)
      modifies this
      ensures Valid() && At(t, Idle)
      ensures Inv(old(sys)) ==> sys.entries == 1 && state == SPAWNED | RUN_QUEUED && future == Live
      ensures trail == old(trail) + [Advance(t, false)] && Own(trail, t) == Own(old(trail), t) + [Advance(t, false)]
    {
      hide Happens, Own;
      if Inv(sys) { assert ThreadOk(sys, t); }
      ScheduleNow(t);
    }

    /** The roll-back of a `try_spawn` that got no work item. */
    method RollBack(ghost t: Tid)
      requires Valid() && At(t, UndoDrop)
      modifies this
      ensures Valid() && At(t, Idle) && old(trail) <= trail && state == 0
      ensures CarefulSoFar() ==> Pending(sys) == 0
      ensures Own(trail, t) == Own(old(trail), t) + [Advance(t, false), Advance(t, false)]
    {
      hide Happens, Own, Inv, Pending, Runs;
      ghost var own := Own(trail, t);
      UndoFuture(t);
      Interfere(t);
      ghost var before, seen := trail, sys;
      UndoState(t);
      if CarefulSoFar() { CarefulThroughout(before, seen); }
      assert own + [Advance(t, false)] + [Advance(t, false)] == own + [Advance(t, false), Advance(t, false)];
    }

    /** `try_spawn` after its compare-exchange: write the future, bind a work item, and schedule it or roll back. */
    method Launch(ghost t: Tid, granted: bool) returns (bound: bool, ghost steps: seq<Step>)
      requires Valid() && At(t, SpawnWrite)
      modifies this
      ensures Valid() && At(t, Idle) && old(trail) <= trail
      ensures Own(trail, t) == Own(old(trail), t) + steps && Advances(steps, t)
      ensures !bound ==> !granted && state == 0 && |steps| == 5 && (CarefulSoFar() ==> Pending(sys) == 0)
      ensures bound ==> |steps| == 3 || (granted && |steps| == 5)
      ensures bound && CarefulSoFar() ==> sys.entries == 1 && state == SPAWNED | RUN_QUEUED && future == Live
    {
      hide Happens, Own, Inv, Pending, Runs;
      ghost var own := Own(trail, t);
      WriteFuture(t);
      ghost var binding;
      bound, binding := BindWorkItem(t, granted);
      Interfere(t);
      if bound {
        ghost var last, atLast := trail, sys;
        FirstSchedule(t);
        if CarefulSoFar() { CarefulThroughout(last, atLast); }
        steps := [Advance(t, false)] + binding + [Advance(t, false)];
        assert own + [Advance(t, false)] + binding + [Advance(t, false)] == own + steps;
      } else {
        RollBack(t);
        steps := [Advance(t, false)] + binding + [Advance(t, false), Advance(t, false)];
        assert own + [Advance(t, false)] + binding + [Advance(t, false), Advance(t, false)] == own + steps;
      }
    }

    /**
      `try_spawn`, whose compare-exchange was made after `before`, in state `seen`.  It is
      Busy if and only if the word was not 0 then, and then it does nothing else; it fails to
      allocate only when the manager refuses a first work item, and then gives the cell back;
      otherwise, after careful spawns, the first run is queued and the future is there for it.
     */
    method TrySpawn(ghost t: Tid, granted: bool)
      returns (result: Result<(), SpawnError>, ghost before: seq<Step>, ghost seen: State, ghost steps: seq<Step>)
      requires Valid() && At(t, Idle)
      modifies this
      ensures Valid() && At(t, Idle)
      ensures old(trail) <= before && Made(before, seen, Spawn(t)) && Rely(old(sys), seen, t)
      ensures Own(trail, t) == Own(old(trail), t) + ([Spawn(t)] + steps) && Advances(steps, t)
      ensures result == Err(Busy) <==> seen.word != 0
      ensures result == Err(Busy) ==> sys == seen && steps == []
      ensures result == Err(AllocFailed) ==> !granted && state == 0 && |steps| == 5
      ensures result == Err(AllocFailed) && CarefulSoFar() ==> Pending(sys) == 0
      ensures result.Ok? ==> |steps| == 3 || (granted && |steps| == 5)
      ensures result.Ok? && CarefulSoFar() ==> sys.entries == 1 && state == SPAWNED | RUN_QUEUED && future == Live
    {
      hide Happens, Own, Inv, Pending, Runs;
      Interfere(t);
      before, seen, steps := trail, sys, [];
      ghost var own := Own(trail, t);
      var ok := TryOwn(t);
      assert own + [Spawn(t)] == own + ([Spawn(t)] + []);
      if !ok {
        result := Err(Busy);
        return;
      }
      Interfere(t);
      var bound;
      bound, steps := Launch(t, granted);
      assert own + [Spawn(t)] + steps == own + ([Spawn(t)] + steps);
      result := if bound then Ok(()) else Err(AllocFailed);
    }

    /** `poll_once` up to the poll: true if the cell was spawned, and then the future may be polled. */
    method FetchAndNotQueued() returns (spawned: bool)
      requires Valid() && sys.run.Popped?
      modifies this
      ensures Valid() && sys == BeginRun(old(sys))
      ensures spawned <==> Spawned(old(state))
      ensures Inv(old(sys)) && spawned ==> future == Live
      ensures trail == old(trail) + [Begin] && Dispatched(trail) == Dispatched(old(trail)) + [Begin]
    {
      hide Happens, Dispatched;
      if Inv(sys) { DispatchKeepsInv(sys, Begin); }
      Record(Begin);
      spawned := Spawned(state);
      state := state & !RUN_QUEUED;
    }

    /**
      `poll_once`, for a future whose poll returns `ready`, whose fetch-and was made after
      `before`, in state `seen`.  The dispatcher polls the future if and only if the cell was
      spawned then, drops it and stores 0 if and only if it is finished, and does nothing else;
      after careful spawns the poll and the drop find the future they need.
     */
    method PollOnce(ready: bool) returns (polled: bool, ghost before: seq<Step>, ghost seen: State)
      requires Valid() && sys.run.Popped?
      modifies this
      ensures Valid() && sys.run.Rest?
      ensures old(trail) <= before && Made(before, seen, Begin) && RelyRun(old(sys), seen)
      ensures polled <==> Spawned(seen.word)
      ensures Dispatched(trail) == Dispatched(old(trail)) + ([Begin]
                + if !polled then [] else if ready then [PollReady, DropFuture, Clear] else [PollPending])
      ensures !polled ==> sys == BeginRun(seen)
      ensures polled && ready ==> state == 0
      ensures polled && CarefulSoFar() ==> if ready then future == Empty else Spawned(state) && future == Live
    {
      hide Happens, Dispatched, Inv, Runs, Pending;
      InterfereWithRun();
      before, seen := trail, sys;
      ghost var done := Dispatched(trail);
      polled := FetchAndNotQueued();
      assert done + [Begin] == done + ([Begin] + []);
      if !polled {
        return;
      }
      InterfereWithRun();
      ghost var polling, atPoll := trail, sys;
      if ready {
        Record(PollReady);
        future := Done;
        FinishLife();
        assert done + [Begin] + [PollReady] + [DropFuture, Clear] == done + ([Begin] + [PollReady, DropFuture, Clear]);
      } else {
        Record(PollPending);
        assert done + [Begin] + [PollPending] == done + ([Begin] + [PollPending]);
        if CarefulSoFar() {
          CarefulThroughout(polling, atPoll);
          PollFindsFuture(atPoll);
        }
      }
    }

    /** The end of `poll_once` on Ready: drop the future, then store 0. */
    method FinishLife()
      requires Valid() && sys.run.Dropping?
      modifies this
      ensures Valid() && sys.run.Rest? && old(trail) <= trail && state == 0
      ensures Dispatched(trail) == Dispatched(old(trail)) + [DropFuture, Clear]
      ensures CarefulSoFar() ==> future == Empty
    {
      hide Happens, Dispatched, Inv, Runs, Pending;
      ghost var done := Dispatched(trail);
      InterfereWithRun();
      Record(DropFuture);
      future := Empty;
      InterfereWithRun();
      Record(Clear);
      state := 0;
      if CarefulSoFar() {
        CarefulThroughout(trail, sys);
        UnspawnedIsEmpty(sys);
      }
      assert done + [DropFuture] + [Clear] == done + [DropFuture, Clear];
    }
  }

  lemma PollFindsFuture(s: State)
    requires Inv(s) && s.run.Polling?
    ensures s.future == Live && Spawned(s.word)
  {
  }

  lemma UnspawnedIsEmpty(s: State)
    requires Inv(s) && s.word == 0
    ensures s.future == Empty
  {
    assert !Spawned(0);
  }
}
