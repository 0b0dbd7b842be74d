/**
  The pattern behind `Channel`, `Notify` and uORB `recv`: check, register, check again,
  return Pending.  One task, run by thread `poller`, waits for a condition `ready`; any
  number of other threads make it true and then call `wake` on the task's waker slot.  The
  system composes the slot protocol, the cell with its queue entries, and the condition,
  and shows that a task parked by this pattern is never left behind.
 */
module Parking {
  import opened Prelude
  import AW = AtomicWakers
  import C = Cells

  /** How far the task is in the pattern. */
  datatype Phase =
    | Free         // elsewhere in its code
    | Registering  // inside `register`
    | Registered   // `register` has returned, the second check is to come
    | Blocked      // the second check failed: the poll returns, or has returned, Pending

  datatype State = State(
    aw: AW.State,
    cell: C.State,
    poller: Tid,
    ready: bool,
    phase: Phase,
    signals: set<Tid>)  // threads that made the condition true and have not begun their wake

  function Init(threads: set<Tid>, poller: Tid, ready: bool): State {
    State(AW.Init(threads), C.Init(threads), poller, ready, Free, {})
  }

  datatype Action =
    | CellStep(step: C.Step)  // a spawn, a stray wake of the task, a scheduling or dispatching step
    | Slot(t: Tid)            // the next operation of a thread inside `register` or `wake`
    | Call(t: Tid)            // a thread calls the waker it carries: `wake_by_ref` on the cell
    | Register
    | Return                  // `register` returns to the task
    | CheckAgain(left: bool)  // the second check; finding the condition true it may also use it up
    | Abandon                 // the task goes on with something else in the same poll
    | MakeReady(t: Tid)
    | Consume(left: bool)     // the task uses the condition up; `left` tells whether it still holds
    | Wake(t: Tid)            // a signalling thread begins its `wake`
    | Skip(t: Tid)            // a signalling thread finds no one to wake
    | Renew(ready: bool)      // outside the pattern the task turns to a new condition of the same kind, with a new slot

  /** The thread is outside `register`, `wake`, `wake_by_ref` and `try_spawn`. */
  predicate Outside(s: State, t: Tid) {
    t in s.aw.pcs && t in s.cell.pcs && s.aw.pcs[t].Idle? && s.cell.pcs[t].Idle?
  }

  predicate CellEnabled(s: State, step: C.Step) {
    && C.Enabled(s.cell, step)
    && C.Careful(s.cell, step)
    && (step.Wake? || step.Spawn? ==> Outside(s, step.t))
    && (step.PollPending? || step.PollReady? ==> Outside(s, s.poller) && !s.phase.Registering? && !s.phase.Registered?)
  }

  predicate Enabled(s: State, a: Action) {
    match a
    case CellStep(step) => CellEnabled(s, step)
    case Slot(t) => t in s.aw.pcs && !s.aw.pcs[t].Idle? && !s.aw.pcs[t].Invoke?
    case Call(t) => t in s.aw.pcs && s.aw.pcs[t].Invoke? && t in s.cell.pcs && s.cell.pcs[t].Idle?
    case Register => s.phase.Free? && s.cell.run.Polling? && Outside(s, s.poller)
    case Return => s.phase.Registering? && Outside(s, s.poller)
    case CheckAgain(_) => s.phase.Registered?
    case Abandon => !s.phase.Registering? && (!s.phase.Free? ==> s.cell.run.Polling?)
    case MakeReady(t) => Outside(s, t)
    case Consume(left) => !s.phase.Blocked? && (left ==> s.ready)
    case Wake(t) => Outside(s, t) && !(t == s.poller && s.phase.Registering?)
    case Skip(t) => !s.phase.Blocked?
    case Renew(_) => s.phase.Free? && Outside(s, s.poller)
  }

  function Exec(s: State, a: Action): State
    requires Enabled(s, a)
  {
    match a
    case CellStep(step) =>
      s.(cell := C.Exec(s.cell, step), phase := if step.Begin? || step.PollReady? then Free else s.phase)
    case Slot(t) => s.(aw := AW.Exec(s.aw, t, AW.Resume))
    case Call(t) => s.(aw := AW.InvokeWaker(s.aw, t), cell := C.WakeFetchOr(s.cell, t))
    case Register => s.(aw := AW.RegisterCas(s.aw, s.poller), phase := Registering)
    case Return => s.(phase := Registered)
    case CheckAgain(left) => s.(phase := if s.ready then Free else Blocked, ready := s.ready && left)
    case Abandon => s.(phase := Free)
    case MakeReady(t) => s.(ready := true, signals := s.signals + {t})
    case Consume(left) => s.(ready := left)
    case Wake(t) => s.(aw := AW.WakeFetchOr(s.aw, t), signals := s.signals - {t})
    case Skip(t) => s.(signals := s.signals - {t})
    case Renew(ready) => s.(ready := ready, aw := AW.RenewSlot(s.aw))
  }

  /** The actions by which thread `t` enters a call. */
  predicate Starts(s: State, a: Action, t: Tid) {
    match a
    case CellStep(step) => (step.Wake? || step.Spawn?) && step.t == t
    case Register => t == s.poller
    case Wake(u) => u == t
    case _ => false
  }

  /** A thread outside the protocol stays outside until it enters a call itself. */
  lemma StaysOutside(s: State, a: Action, t: Tid)
    requires Enabled(s, a) && Outside(s, t) && !Starts(s, a, t)
    ensures Outside(Exec(s, a), t)
  {
    match a
    case CellStep(step) => C.StepSatisfiesRely(s.cell, step, t); hide C.Exec;
    case Slot(u) => AW.StepKeepsThreads(s.aw, u, AW.Resume); hide AW.Exec;
    case Wake(u) => AW.StepKeepsThreads(s.aw, u, AW.Wake);
    case Register => AW.StepKeepsThreads(s.aw, s.poller, AW.Register);
    case _ =>
  }

  lemma StepKeepsThreads(s: State, a: Action)
    requires Enabled(s, a)
    ensures Exec(s, a).aw.pcs.Keys == s.aw.pcs.Keys
    ensures Exec(s, a).poller == s.poller
  {
    match a
    case Slot(t) => AW.StepKeepsThreads(s.aw, t, AW.Resume);
    case Wake(t) => AW.StepKeepsThreads(s.aw, t, AW.Wake);
    case Register => AW.StepKeepsThreads(s.aw, s.poller, AW.Register);
    case _ =>
  }

  // ------------------------------------------------------------------ invariant

  /** Thread `t` has a waker and is bound to call it. */
  ghost predicate Carrying(aw: AW.State, t: Tid) {
    && t in aw.pcs
    && (match aw.pcs[t]
        case Invoke(_) => true
        case TakeRelease(held) => held.Some?
        case RegRelease(held) => held.Some?
        case TakeSlot => aw.slot.Some?
        case RegDrain(_) => aw.slot.Some?
        case _ => false)
  }

  /** A run of the task is on its way: queued, or about to be asked for by a thread with the waker. */
  ghost predicate Notified(s: State) {
    (C.Spawned(s.cell.word) && C.Queued(s.cell.word)) || exists t :: Carrying(s.aw, t)
  }

  /** Notified already, or the waker lies in a slot at rest, where the next wake finds it. */
  ghost predicate Armed(s: State) {
    Notified(s) || (s.aw.word == AW.WAITING && s.aw.slot.Some?)
  }

  ghost predicate TaskOk(s: State) {
    && (!s.phase.Free? ==>
          && C.Spawned(s.cell.word)
          && !s.cell.run.Dropping? && !s.cell.run.Clearing?
          && (forall t :: t in s.cell.pcs ==> !s.cell.pcs[t].Spawns()))
    && (s.phase.Registering? || s.phase.Registered? ==> s.cell.run.Polling?)
    && (s.phase.Registering? && s.poller in s.aw.pcs ==> !s.aw.pcs[s.poller].Takes())
    && (forall t :: t in s.aw.pcs && s.aw.pcs[t].Registers() ==> t == s.poller && s.phase.Registering?)
  }

  ghost predicate ParkingOk(s: State) {
    && (s.phase.Registering? && s.poller in s.aw.pcs && s.aw.pcs[s.poller].Idle? ==> Armed(s))
    && (s.phase.Registered? || s.phase.Blocked? ==> Armed(s))
    && (s.phase.Blocked? && s.ready ==> Notified(s) || s.signals != {})
  }

  ghost predicate Inv(s: State) {
    && AW.Inv(s.aw)
    && C.Inv(s.cell)
    && s.aw.pcs.Keys == s.cell.pcs.Keys
    && s.poller in s.aw.pcs
    && TaskOk(s)
    && ParkingOk(s)
  }

  predicate Begins(e: Action) { e.CellStep? && e.step.Begin? }

  /** What a slot, cell or queue step does to the parts of the system that the users of the pattern rely on. */
  lemma EnvKeepsTask(s: State, e: Action)
    requires Enabled(s, e) && TaskOk(s) && (e.CellStep? || e.Slot? || e.Call?)
    requires e.CellStep? ==> !e.step.PollPending? && !e.step.PollReady?
    ensures var s' := Exec(s, e);
            && s'.ready == s.ready && s'.signals == s.signals
            && s'.phase == (if Begins(e) then Free else s.phase)
            && (s.cell.run.Polling? ==> s'.cell.run.Polling? && !Begins(e))
  {
  }

  /** Such a step moves no thread that is outside the slot into it. */
  lemma EnvKeepsIdle(s: State, e: Action, t: Tid)
    requires Enabled(s, e) && (e.CellStep? || e.Slot? || e.Call?) && t in s.aw.pcs && s.aw.pcs[t].Idle?
    ensures t in Exec(s, e).aw.pcs && Exec(s, e).aw.pcs[t].Idle?
  {
    match e
    case Slot(u) => AW.StepKeepsThreads(s.aw, u, AW.Resume); hide AW.Exec;
    case _ => hide C.Exec, C.WakeFetchOr;
  }

  // ------------------------------------------------------------------ the slot steps keep a waker on its way

  lemma SlotStepKeepsCarrying(aw: AW.State, u: Tid, op: AW.Op, t: Tid)
    requires AW.Inv(aw) && AW.Enabled(aw, u, op) && Carrying(aw, t)
    requires !(u == t && aw.pcs[t].Invoke?)
    ensures Carrying(AW.Exec(aw, u, op), t)
  {
    assert AW.ThreadOk(aw, t) && AW.ThreadOk(aw, u);
  }

  /** A slot step other than a call keeps a notified task notified. */
  lemma SlotStepKeepsNotified(s: State, s': State, u: Tid, op: AW.Op)
    requires Inv(s) && AW.Enabled(s.aw, u, op) && !s.aw.pcs[u].Invoke?
    requires s'.aw == AW.Exec(s.aw, u, op) && s'.cell == s.cell
    ensures Notified(s) ==> Notified(s')
  {
    if exists t :: Carrying(s.aw, t) {
      var t :| Carrying(s.aw, t);
      SlotStepKeepsCarrying(s.aw, u, op, t);
    }
  }

  /** A wake that begins on an armed task, outside a registration, notifies it. */
  lemma WakeNotifies(s: State, s': State, u: Tid)
    requires Inv(s) && Armed(s) && AW.Enabled(s.aw, u, AW.Wake)
    requires s'.aw == AW.WakeFetchOr(s.aw, u) && s'.cell == s.cell
    ensures Notified(s')
  {
    if Notified(s) {
      SlotStepKeepsNotified(s, s', u, AW.Wake);
    } else {
      assert Carrying(s'.aw, u);
    }
  }

  lemma CallNotifies(s: State, s': State, u: Tid)
    requires Inv(s) && Enabled(s, Call(u)) && s' == Exec(s, Call(u))
    ensures C.Spawned(s.cell.word) ==> Notified(s')
  {
  }

  lemma CallKeepsInv(s: State, u: Tid)
    requires Inv(s) && Enabled(s, Call(u))
    ensures Inv(Exec(s, Call(u)))
  {
    hide AW.Inv, C.Inv, Notified;
    var s' := Exec(s, Call(u));
    AW.InvokeKeepsInv(s.aw, u);
    C.WakeKeepsInv(s.cell, u);
    CallNotifies(s, s', u);
  }

  lemma WakeKeepsInv(s: State, u: Tid)
    requires Inv(s) && Enabled(s, Wake(u))
    ensures Inv(Exec(s, Wake(u)))
  {
    hide AW.Inv, C.Inv, Notified;
    var s' := Exec(s, Wake(u));
    AW.WakeFetchOrKeepsInv(s.aw, u);
    SlotStepKeepsNotified(s, s', u, AW.Wake);
    if Armed(s) { WakeNotifies(s, s', u); }
  }

  /** A registration that comes to its end has armed the task. */
  lemma RegistrationArms(s: State, u: Tid)
    requires Inv(s) && Enabled(s, Slot(u)) && s.aw.pcs[u].Registers()
    requires Exec(s, Slot(u)).aw.pcs[u].Idle?
    ensures Armed(Exec(s, Slot(u)))
  {
    assert AW.ThreadOk(s.aw, u);
  }

  lemma SlotKeepsArmed(s: State, u: Tid)
    requires Inv(s) && Enabled(s, Slot(u)) && Armed(s)
    ensures Armed(Exec(s, Slot(u)))
  {
    SlotStepKeepsNotified(s, Exec(s, Slot(u)), u, AW.Resume);
    assert AW.ThreadOk(s.aw, u);
  }

  lemma SlotKeepsInv(s: State, u: Tid)
    requires Inv(s) && Enabled(s, Slot(u))
    ensures Inv(Exec(s, Slot(u)))
  {
    hide AW.Inv, C.Inv, AW.Exec, Armed, Notified, TaskOk;
    var s' := Exec(s, Slot(u));
    AW.StepKeepsInv(s.aw, u, AW.Resume);
    StepKeepsThreads(s, Slot(u));
    AW.StepKeepsThreads(s.aw, u, AW.Resume);
    SlotKeepsTask(s, u);
    SlotStepKeepsNotified(s, s', u, AW.Resume);
    if Armed(s) { SlotKeepsArmed(s, u); }
    if s.aw.pcs[u].Registers() && s'.aw.pcs[u].Idle? { RegistrationArms(s, u); }
  }

  lemma SlotKeepsTask(s: State, u: Tid)
    requires Inv(s) && Enabled(s, Slot(u))
    ensures TaskOk(Exec(s, Slot(u)))
    ensures u == s.poller && s.phase.Registering? ==> s.aw.pcs[u].Registers()
  {
    AW.StepKeepsThreads(s.aw, u, AW.Resume);
    AW.ResumeKeepsKind(s.aw, u);
    hide C.Inv, AW.Inv, AW.Exec, ParkingOk;
  }

  lemma RegisterKeepsInv(s: State)
    requires Inv(s) && Enabled(s, Register)
    ensures Inv(Exec(s, Register))
  {
    hide AW.CallsOk, AW.WakerOk, C.PendingOk;
    var s' := Exec(s, Register);
    AW.RegisterCasKeepsInv(s.aw, s.poller);
    if s.aw.owner.Some? {
      assert AW.ThreadOk(s.aw, s.aw.owner.value);
    }
    assert forall t :: t in s.cell.pcs ==> C.ThreadOk(s.cell, t);
  }

  /** While the task is in the pattern, its cell stays spawned and keeps RUN_QUEUED until the next run begins. */
  lemma CellStepDuringPattern(s: State, step: C.Step)
    requires Inv(s) && Enabled(s, CellStep(step)) && !Exec(s, CellStep(step)).phase.Free?
    ensures var c := C.Exec(s.cell, step);
            && C.Spawned(c.word)
            && (C.Queued(s.cell.word) ==> C.Queued(c.word))
            && !c.run.Dropping? && !c.run.Clearing?
            && (forall t :: t in c.pcs ==> !c.pcs[t].Spawns())
            && (s.phase.Registering? || s.phase.Registered? ==> c.run.Polling?)
  {
    if step.Advance? { assert C.ThreadOk(s.cell, step.t); }
  }

  lemma CellKeepsInv(s: State, step: C.Step)
    requires Inv(s) && Enabled(s, CellStep(step))
    ensures Inv(Exec(s, CellStep(step)))
  {
    hide AW.Inv, C.Inv, Carrying;
    var s' := Exec(s, CellStep(step));
    C.StepKeepsInv(s.cell, step);
    CellStepKeepsThreads(s, step);
    if !s'.phase.Free? {
      CellStepDuringPattern(s, step);
      hide C.Exec;
      assert Notified(s) ==> Notified(s');
    }
  }

  lemma CellStepKeepsThreads(s: State, step: C.Step)
    requires Enabled(s, CellStep(step))
    ensures Exec(s, CellStep(step)).cell.pcs.Keys == s.cell.pcs.Keys
  {
    match step
    case Wake(t) =>
    case Spawn(t) =>
    case Advance(t, granted) =>
      var pcs := C.AdvanceThread(s.cell, t, granted).pcs;
      assert pcs == s.cell.pcs[t := pcs[t]];
    case _ =>
  }

  lemma OtherKeepsInv(s: State, a: Action)
    requires Inv(s) && Enabled(s, a)
    requires a.Return? || a.CheckAgain? || a.Abandon? || a.MakeReady? || a.Consume? || a.Skip?
    ensures Inv(Exec(s, a))
  {
    var s' := Exec(s, a);
    assert Notified(s') == Notified(s);
  }

  lemma RenewKeepsInv(s: State, ready: bool)
    requires Inv(s) && Enabled(s, Renew(ready))
    ensures Inv(Exec(s, Renew(ready)))
  {
    hide AW.Inv, C.Inv;
    AW.RenewKeepsInv(s.aw);
  }

  lemma StepKeepsInv(s: State, a: Action)
    requires Inv(s) && Enabled(s, a)
    ensures Inv(Exec(s, a))
  {
    match a
    case CellStep(step) => CellKeepsInv(s, step);
    case Slot(t) => SlotKeepsInv(s, t);
    case Call(t) => CallKeepsInv(s, t);
    case Register => RegisterKeepsInv(s);
    case Wake(t) => WakeKeepsInv(s, t);
    case Renew(ready) => RenewKeepsInv(s, ready);
    case _ => OtherKeepsInv(s, a);
  }

  // ------------------------------------------------------------------ runs

  ghost predicate Runs(s: State, script: seq<Action>, last: State)
    decreases |script|
  {
    if script == [] then s == last
    else Enabled(s, script[0]) && Runs(Exec(s, script[0]), script[1..], last)
  }

  lemma {:induction false} RunKeepsInv(s: State, script: seq<Action>, last: State)
    requires Inv(s) && Runs(s, script, last)
    ensures Inv(last)
    decreases |script|
  {
    if script != [] {
      StepKeepsInv(s, script[0]);
      RunKeepsInv(Exec(s, script[0]), script[1..], last);
    }
  }

  /** Nothing moves any more: no thread inside the protocol, no signal to deliver, nothing queued or running. */
  ghost predicate Quiescent(s: State) {
    && (forall t :: t in s.aw.pcs ==> Outside(s, t))
    && s.signals == {}
    && s.cell.entries == 0
    && s.cell.run.Rest?
  }

  lemma QuiescentIsNotNotified(s: State)
    requires Inv(s) && Quiescent(s)
    ensures !Notified(s)
  {
    assert C.Active(s.cell) == {};
  }

  lemma InitKeepsInv(threads: set<Tid>, poller: Tid, ready: bool)
    requires poller in threads
    ensures Inv(Init(threads, poller, ready))
  {
    C.InitKeepsInv(threads);
  }

  /** No lost wake-up, from any state of the invariant. */
  lemma ParkedTaskHasNothingToDoFrom(s: State)
    requires Inv(s) && Quiescent(s) && s.phase.Blocked?
    ensures !s.ready
    ensures s.aw.word == AW.WAITING && s.aw.slot.Some?
  {
    QuiescentIsNotNotified(s);
  }

  /**
    No lost wake-up.  In every interleaving of the task, the dispatcher, the signalling
    threads and stray wakes: a task parked in a quiescent system has nothing to do, and its
    waker lies in the slot for the next signal.
   */
  lemma ParkedTaskHasNothingToDo(threads: set<Tid>, poller: Tid, ready: bool, script: seq<Action>, s: State)
    requires poller in threads
    requires Runs(Init(threads, poller, ready), script, s)
    requires Quiescent(s) && s.phase.Blocked?
    ensures !s.ready
    ensures s.aw.word == AW.WAITING && s.aw.slot.Some?
  {
    InitKeepsInv(threads, poller, ready);
    RunKeepsInv(Init(threads, poller, ready), script, s);
    ParkedTaskHasNothingToDoFrom(s);
  }

  // ------------------------------------------------------------------ the code, under interference

  /** The thread that performs an action; runs of the task are the poller's. */
  function Actor(poller: Tid, a: Action): Tid {
    match a
    case CellStep(step) => if step.Wake? || step.Spawn? || step.Advance? then step.t else poller
    case Slot(t) => t
    case Call(t) => t
    case MakeReady(t) => t
    case Wake(t) => t
    case Skip(t) => t
    case _ => poller
  }

  /** The actions of thread `t` in a run, in order. */
  ghost function Own(poller: Tid, script: seq<Action>, t: Tid): seq<Action> {
    if script == [] then []
    else
      var n := |script| - 1;
      Own(poller, script[..n], t) + if Actor(poller, script[n]) == t then [script[n]] else []
  }

  lemma OwnThen(poller: Tid, script: seq<Action>, a: Action, t: Tid)
    ensures Own(poller, script + [a], t) == Own(poller, script, t) + if Actor(poller, a) == t then [a] else []
  {
    assert (script + [a])[..|script|] == script;
  }

  lemma {:induction false} RunsThen(s: State, script: seq<Action>, mid: State, a: Action)
    requires Runs(s, script, mid) && Enabled(mid, a)
    ensures Runs(s, script + [a], Exec(mid, a))
    decreases |script|
  {
    hide Exec, Enabled;
    if script == [] {
      assert [] + [a] == [a] && [a][1..] == [];
    } else {
      RunsThen(Exec(s, script[0]), script[1..], mid, a);
      assert (script + [a])[1..] == script[1..] + [a];
    }
  }

  /** Thread `t` is at these points of the slot protocol and of the cell. */
  ghost predicate At(s: State, t: Tid, slot: AW.Pc, cell: C.Pc) {
    t in s.aw.pcs && t in s.cell.pcs && s.aw.pcs[t] == slot && s.cell.pcs[t] == cell
  }

  /** Nothing that is thread `t`'s own, beyond its place in the protocols, has changed. */
  ghost predicate Same(s: State, s': State, t: Tid) {
    && s'.poller == s.poller
    && (t in s.signals <==> t in s'.signals)
    && (t == s.poller ==> s'.cell.run == s.cell.run && s'.phase == s.phase && (s.ready ==> s'.ready))
  }

  /** What the other threads may do, as seen by thread `t`. */
  ghost predicate Rely(s: State, s': State, t: Tid) {
    Inv(s') && Same(s, s', t) && forall slot, cell :: At(s, t, slot, cell) ==> At(s', t, slot, cell)
  }

  lemma StepKeepsCaller(s: State, a: Action, t: Tid)
    requires Enabled(s, a) && Actor(s.poller, a) != t
    ensures forall slot, cell :: At(s, t, slot, cell) ==> At(Exec(s, a), t, slot, cell)
  {
    match a
    case CellStep(step) => C.StepSatisfiesRely(s.cell, step, t);
    case Slot(u) => AW.StepKeepsThreads(s.aw, u, AW.Resume);
    case Call(u) =>
    case Register => AW.StepKeepsThreads(s.aw, s.poller, AW.Register);
    case Wake(u) => AW.StepKeepsThreads(s.aw, u, AW.Wake);
    case _ =>
  }

  lemma StepKeepsSame(s: State, a: Action, t: Tid)
    requires Enabled(s, a) && Actor(s.poller, a) != t
    ensures Same(s, Exec(s, a), t)
  {
    hide AW.Exec, AW.RegisterCas, AW.WakeFetchOr, AW.InvokeWaker, Outside;
    if a.CellStep? {
      C.StepSatisfiesRely(s.cell, a.step, t);
      hide C.Exec;
    }
  }

  lemma StepSatisfiesRely(s: State, a: Action, t: Tid)
    requires Inv(s) && Enabled(s, a) && Actor(s.poller, a) != t
    ensures Rely(s, Exec(s, a), t)
  {
    hide Inv, Exec, Enabled, Same, At;
    StepKeepsInv(s, a);
    StepKeepsSame(s, a, t);
    StepKeepsCaller(s, a, t);
  }

  /** The rely condition is justified: every run in which `t` does nothing satisfies it. */
  lemma {:induction false} OthersSatisfyRely(s: State, script: seq<Action>, last: State, t: Tid)
    requires Inv(s) && Runs(s, script, last)
    requires forall i :: 0 <= i < |script| ==> Actor(s.poller, script[i]) != t
    ensures Rely(s, last, t)
    decreases |script|
  {
    if script != [] {
      hide Inv, Exec, Enabled;
      StepSatisfiesRely(s, script[0], t);
      OthersSatisfyRely(Exec(s, script[0]), script[1..], last, t);
    }
  }

  /** Actions by which thread `t` goes on inside `register`, `wake` or the `wake_by_ref` they end in. */
  predicate Within(steps: seq<Action>, t: Tid) {
    forall i :: 0 <= i < |steps| ==>
      || steps[i] == Slot(t) || steps[i] == Call(t)
      || (steps[i].CellStep? && steps[i].step.Advance? && steps[i].step.t == t)
  }

  /** The actions by which thread `t` registers and, once that is over, checks again. */
  predicate Parks(steps: seq<Action>, t: Tid, left: bool) {
    && |steps| >= 3 && steps[0] == Register
    && Within(steps[1..|steps| - 2], t)
    && steps[|steps| - 2..] == [Return, CheckAgain(left)]
  }

  lemma ParksWith(within: seq<Action>, t: Tid, left: bool)
    requires Within(within, t)
    ensures Parks([Register] + within + [Return, CheckAgain(left)], t, left)
  {
    var steps := [Register] + within + [Return, CheckAgain(left)];
    assert steps[1..|steps| - 2] == within;
  }

  /** The actions of one call of `wake` by thread `t`. */
  predicate Waking(steps: seq<Action>, t: Tid) {
    |steps| >= 1 && steps[0] == Wake(t) && Within(steps[1..], t)
  }

  /** The actions of a check: the second one is recorded as such, and one that finds something uses it up. */
  predicate Checks(steps: seq<Action>, again: bool, found: bool) {
    var first := if again then [CheckAgain(true)] else [];
    if found then steps == first + [Consume(true)] || steps == first + [Consume(false)] else steps == first
  }

  /** Registering, what completes it, the return and the check after that; if it finds something, that is used up. */
  ghost predicate ParksOrFinds(steps: seq<Action>, t: Tid, found: bool) {
    if found then |steps| >= 1 && steps[|steps| - 1].Consume? && Parks(steps[..|steps| - 1], t, true)
    else Parks(steps, t, true)
  }

  lemma ParksOrFindsWith(within: seq<Action>, steps: seq<Action>, t: Tid, found: bool)
    requires Within(within, t) && Checks(steps, true, found)
    ensures ParksOrFinds([Register] + within + [Return] + steps, t, found)
  {
    hide Parks, Within;
    ParksWith(within, t, true);
    var parking := [Register] + within + [Return, CheckAgain(true)];
    var all := [Register] + within + [Return] + steps;
    if found {
      assert all[..|all| - 1] == parking;
    } else {
      assert all == parking;
    }
  }

  lemma NothingFound(steps: seq<Action>)
    requires Checks(steps, false, false)
    ensures steps == []
  {
  }

  /** A task about to register is alone in doing so, so its registration is not refused. */
  lemma RegistersAlone(s: State)
    requires Inv(s) && s.phase.Free?
    ensures s.aw.word == AW.WAITING || s.aw.word == AW.WAKING
  {
    if s.aw.owner.Some? { assert AW.ThreadOk(s.aw, s.aw.owner.value); }
  }

  /** The call of a waker, from the place of the thread that makes it. */
  lemma CallFrom(s: State, t: Tid, k: nat)
    requires At(s, t, AW.Invoke(k), C.Idle)
    ensures Enabled(s, Call(t)) && Exec(s, Call(t)) == s.(aw := AW.InvokeWaker(s.aw, t), cell := C.WakeFetchOr(s.cell, t))
    ensures At(Exec(s, Call(t)), t, AW.Idle, if C.Spawned(s.cell.word) && !C.Queued(s.cell.word) then C.WakeLoad else C.Idle)
    ensures Same(s, Exec(s, Call(t)), t)
  {
  }

  lemma RenewFrom(s: State, t: Tid, holds: bool)
    requires t == s.poller && s.phase.Free? && At(s, t, AW.Idle, C.Idle)
    ensures Enabled(s, Renew(holds)) && Exec(s, Renew(holds)) == s.(ready := holds, aw := AW.RenewSlot(s.aw))
    ensures At(Exec(s, Renew(holds)), t, AW.Idle, C.Idle)
  {
  }

  lemma WakesWithHandle(s: State, t: Tid)
    requires Inv(s) && t in s.cell.pcs && s.cell.pcs[t].WakeLoad?
    ensures s.cell.handle
  {
    assert C.ThreadOk(s.cell, t);
  }

  lemma DrainFindsOwn(s: State, t: Tid)
    requires Inv(s) && t in s.aw.pcs && s.aw.pcs[t].RegDrain?
    ensures s.aw.slot == Some(s.aw.pcs[t].k)
  {
    AW.DrainFindsOwn(s.aw, t);
  }

  /**
    A waker slot together with the cell of the task that registers in it, as the code of
    `register` and `wake` works on both: a waker called from the slot is the cell's
    `wake_by_ref`.  `ready` shadows the condition that the task waits for, which the users of
    the class hold in fields of their own.  `sys` is the system above and `trail` all that has
    happened to it; between two operations any actions of other threads may be added.
   */
  class WakeChain {
    const waker: AW.AtomicWaker
    const cell: C.WorkItemCell
    var ready: bool
    ghost const poller: Tid
    ghost const start: State
    ghost var sys: State
    ghost var trail: seq<Action>

    ghost predicate Valid()
      reads this, waker, cell
    {
      && Inv(sys) && Runs(start, trail, sys) && sys.poller == poller
      && waker.Valid() && cell.Valid()
      && waker.sys == sys.aw && cell.sys == sys.cell && ready == sys.ready
    }

    lemma IsPollers()
      requires Valid()
      ensures sys.poller == poller
    {
    }

    lemma ShadowsReady()
      requires Valid()
      ensures ready == sys.ready
    {
    }

    ghost function Mine(t: Tid): seq<Action>
      reads this
    {
      Own(poller, trail, t)
    }

    constructor (ghost threads: set<Tid>, ghost poller: Tid, ready: bool)
      requires poller in threads
      ensures Valid() && fresh(waker) && fresh(cell)
      ensures this.poller == poller && start == sys == Init(threads, poller, ready) && trail == []
    {
      waker := new AW.AtomicWaker(threads);
      cell := new C.WorkItemCell(threads);
      this.ready := ready;
      this.poller, start, sys, trail := poller, Init(threads, poller, ready), Init(threads, poller, ready), [];
      new;
      InitKeepsInv(threads, poller, ready);
    }

    /**
      Actions of the other threads, any number of them: none if `t` is left `alone`, none that
      changes the condition if it is `still`.
     */
    method Others(ghost t: Tid, ghost alone: bool := false, ghost still: bool := false)
      requires Valid()
      modifies this, waker, cell
      ensures Valid() && Rely(old(sys), sys, t)
      ensures still ==> sys.ready == old(sys.ready)
      ensures old(trail) <= trail && Mine(t) == old(Mine(t))
      ensures alone ==> sys == old(sys)
    {
    }

    /** Enters an action in the trail. */
    ghost method Record(a: Action)
      requires Inv(sys) && Runs(start, trail, sys) && sys.poller == poller && Enabled(sys, a)
      modifies this`sys, this`trail
      ensures Inv(sys) && Runs(start, trail, sys) && sys.poller == poller
      ensures sys == Exec(old(sys), a) && trail == old(trail) + [a]
      ensures forall u :: Mine(u) == old(Mine(u)) + if Actor(poller, a) == u then [a] else []
    {
      hide Inv, Exec, Enabled, Runs, Own;
      StepKeepsInv(sys, a);
      StepKeepsThreads(sys, a);
      RunsThen(start, trail, sys, a);
      forall u
        ensures Own(poller, trail + [a], u) == Own(poller, trail, u) + if Actor(poller, a) == u then [a] else []
      {
        OwnThen(poller, trail, a, u);
      }
      sys, trail := Exec(sys, a), trail + [a];
    }

    /** The thread makes the condition true; its signal is still to come. */
    method MakeReady(ghost t: Tid)
      requires Valid() && At(sys, t, AW.Idle, C.Idle)
      modifies this
      ensures Valid() && sys == old(sys).(ready := true, signals := old(sys).signals + {t})
      ensures trail == old(trail) + [Action.MakeReady(t)] && Mine(t) == old(Mine(t)) + [Action.MakeReady(t)]
    {
      hide Inv, Runs, Own, AW.AtomicWaker.Valid, C.WorkItemCell.Valid;
      ready := true;
      Record(Action.MakeReady(t));
    }

    /** The thread finds no one to wake. */
    ghost method Skip(t: Tid)
      requires Valid() && !sys.phase.Blocked?
      modifies this`sys, this`trail
      ensures Valid() && sys == old(sys).(signals := old(sys).signals - {t})
      ensures forall slot, cell :: At(old(sys), t, slot, cell) ==> At(sys, t, slot, cell)
      ensures trail == old(trail) + [Action.Skip(t)] && Mine(t) == old(Mine(t)) + [Action.Skip(t)]
    {
      hide Inv, Runs, Own, AW.AtomicWaker.Valid, C.WorkItemCell.Valid;
      Record(Action.Skip(t));
    }

    /** The task starts over, outside the pattern. */
    ghost method Abandon(t: Tid)
      requires Valid() && t == poller && !sys.phase.Registering? && (!sys.phase.Free? ==> sys.cell.run.Polling?)
      modifies this`sys, this`trail
      ensures Valid() && sys == old(sys).(phase := Free)
      ensures forall slot, cell :: At(old(sys), t, slot, cell) ==> At(sys, t, slot, cell)
      ensures trail == old(trail) + [Action.Abandon] && Mine(t) == old(Mine(t)) + [Action.Abandon]
    {
      hide Inv, Runs, Own, AW.AtomicWaker.Valid, C.WorkItemCell.Valid;
      Record(Action.Abandon);
    }

    /** The task uses the condition up; `left` tells whether it still holds. */
    method Consume(ghost t: Tid, left: bool)
      requires Valid() && t == poller && !sys.phase.Blocked? && (left ==> ready)
      modifies this
      ensures Valid() && sys == old(sys).(ready := left)
      ensures forall slot, cell :: At(old(sys), t, slot, cell) ==> At(sys, t, slot, cell)
      ensures trail == old(trail) + [Action.Consume(left)] && Mine(t) == old(Mine(t)) + [Action.Consume(left)]
    {
      hide Inv, Runs, Own, AW.AtomicWaker.Valid, C.WorkItemCell.Valid;
      ready := left;
      Record(Action.Consume(left));
    }

    /** The second check; `left` tells whether the condition still holds after it. */
    method CheckAgain(ghost t: Tid, left: bool) returns (found: bool)
      requires Valid() && t == poller && sys.phase.Registered?
      modifies this
      ensures Valid() && found == old(ready)
      ensures sys == old(sys).(phase := if found then Free else Blocked, ready := found && left)
      ensures trail == old(trail) + [Action.CheckAgain(left)] && Mine(t) == old(Mine(t)) + [Action.CheckAgain(left)]
    {
      hide Inv, Runs, Own, AW.AtomicWaker.Valid, C.WorkItemCell.Valid;
      found, ready := ready, ready && left;
      Record(Action.CheckAgain(left));
    }

    /** The second check, when finding the condition leaves it as it is. */
    ghost method Checked(t: Tid)
      requires Valid() && t == poller && sys.phase.Registered?
      modifies this`sys, this`trail
      ensures Valid() && sys == old(sys).(phase := if old(sys).ready then Free else Blocked)
      ensures forall slot, cell :: At(old(sys), t, slot, cell) ==> At(sys, t, slot, cell)
      ensures trail == old(trail) + [Action.CheckAgain(true)] && Mine(t) == old(Mine(t)) + [Action.CheckAgain(true)]
    {
      hide Inv, Runs, Own, AW.AtomicWaker.Valid, C.WorkItemCell.Valid;
      Record(Action.CheckAgain(true));
    }

    /** Outside the pattern the task turns to a new condition of the same kind, with a new slot. */
    method Renew(ghost t: Tid, holds: bool)
      requires Valid() && t == poller && sys.phase.Free? && At(sys, t, AW.Idle, C.Idle)
      modifies this, waker
      ensures Valid() && sys == old(sys).(ready := holds, aw := AW.RenewSlot(old(sys).aw))
      ensures At(sys, t, AW.Idle, C.Idle)
      ensures trail == old(trail) + [Action.Renew(holds)] && Mine(t) == old(Mine(t)) + [Action.Renew(holds)]
    {
      hide Inv, Runs, Own, AW.AtomicWaker.Valid, C.WorkItemCell.Valid, Exec, Enabled, AW.RenewSlot;
      RenewFrom(sys, t, holds);
      ready := holds;
      waker.Renew(t);
      Record(Action.Renew(holds));
    }

    /** A waker taken from the slot is called: the fetch-or of the cell's `wake_by_ref`. */
    method Invoke(ghost t: Tid, k: nat) returns (schedule: bool)
      requires Valid() && At(sys, t, AW.Invoke(k), C.Idle)
      modifies this, waker, cell
      ensures Valid() && Same(old(sys), sys, t) && sys.ready == old(sys.ready) && At(sys, t, AW.Idle, if schedule then C.WakeLoad else C.Idle)
      ensures trail == old(trail) + [Call(t)] && Mine(t) == old(Mine(t)) + [Call(t)]
    {
      hide Inv, Runs, Own, AW.AtomicWaker.Valid, Exec, Enabled, Same, AW.InvokeWaker, C.WakeFetchOr;
      CallFrom(sys, t, k);
      var prev := cell.FetchOrQueued(t);
      waker.CallWaker(t, k);
      Record(Call(t));
      schedule := C.Spawned(prev) && !C.Queued(prev);
    }

    method LoadHandle(ghost t: Tid) returns (h: bool)
      requires Valid() && At(sys, t, AW.Idle, C.WakeLoad)
      modifies this, waker, cell
      ensures Valid() && Same(old(sys), sys, t) && sys.ready == old(sys.ready) && At(sys, t, AW.Idle, C.WakeSchedule) && h
      ensures trail == old(trail) + [CellStep(C.Advance(t, false))]
      ensures Mine(t) == old(Mine(t)) + [CellStep(C.Advance(t, false))]
    {
      hide Inv, Runs, Own, AW.AtomicWaker.Valid;
      WakesWithHandle(sys, t);
      h := cell.LoadHandle(t);
      Record(CellStep(C.Advance(t, false)));
    }

    method ScheduleNow(ghost t: Tid)
      requires Valid() && At(sys, t, AW.Idle, C.WakeSchedule)
      modifies this, waker, cell
      ensures Valid() && Same(old(sys), sys, t) && sys.ready == old(sys.ready) && At(sys, t, AW.Idle, C.Idle)
      ensures trail == old(trail) + [CellStep(C.Advance(t, false))]
      ensures Mine(t) == old(Mine(t)) + [CellStep(C.Advance(t, false))]
    {
      hide Inv, Runs, Own, AW.AtomicWaker.Valid, C.WorkItemCell.Valid;
      cell.ScheduleNow(t);
      Record(CellStep(C.Advance(t, false)));
    }

    /** The whole call of a waker: `wake_by_ref`. */
    method CallWaker(ghost t: Tid, k: nat, ghost alone: bool := false, ghost still: bool := false)
      returns (ghost steps: seq<Action>)
      requires Valid() && At(sys, t, AW.Invoke(k), C.Idle)
      modifies this, waker, cell
      ensures Valid() && Same(old(sys), sys, t) && At(sys, t, AW.Idle, C.Idle) && old(trail) <= trail
      ensures alone || still ==> sys.ready == old(sys.ready)
      ensures Mine(t) == old(Mine(t)) + steps && Within(steps, t)
    {
      hide Inv, Valid, Mine, At;
      ghost var own := Mine(t);
      var schedule := Invoke(t, k);
      steps := [Call(t)];
      if schedule {
        Others(t, alone, still);
        var h := LoadHandle(t);
        if h {
          Others(t, alone, still);
          ScheduleNow(t);
        }
        steps := [Call(t), CellStep(C.Advance(t, false)), CellStep(C.Advance(t, false))];
        assert own + [Call(t)] + [CellStep(C.Advance(t, false))] + [CellStep(C.Advance(t, false))] == own + steps;
      }
    }

    method TryOwn(ghost t: Tid) returns (won: bool, k: nat)
      requires Valid() && t == poller && At(sys, t, AW.Idle, C.Idle) && sys.phase.Free? && sys.cell.run.Polling?
      modifies this, waker, cell
      ensures Valid() && At(sys, t, if won then AW.RegWrite(k) else AW.Invoke(k), C.Idle)
      ensures sys.poller == poller && sys.phase == Registering && sys.cell == old(sys.cell) && sys.ready == old(sys.ready) && sys.signals == old(sys.signals)
      ensures trail == old(trail) + [Action.Register] && Mine(t) == old(Mine(t)) + [Action.Register]
    {
      hide Inv, Runs, Own;
      RegistersAlone(sys);
      var word;
      word, k := waker.TryOwn(t);
      Record(Action.Register);
      won := word == AW.WAITING;
    }

    method Store(ghost t: Tid, k: nat)
      requires Valid() && At(sys, t, AW.RegWrite(k), C.Idle)
      modifies this, waker, cell
      ensures Valid() && Same(old(sys), sys, t) && sys.ready == old(sys.ready) && At(sys, t, AW.RegFinish(k), C.Idle)
      ensures trail == old(trail) + [Slot(t)] && Mine(t) == old(Mine(t)) + [Slot(t)]
    {
      hide Inv, Runs, Own, AW.AtomicWaker.Valid, C.WorkItemCell.Valid;
      waker.Store(t, k);
      Record(Slot(t));
    }

    method TryFinish(ghost t: Tid, ghost k: nat) returns (ok: bool)
      requires Valid() && At(sys, t, AW.RegFinish(k), C.Idle)
      modifies this, waker, cell
      ensures Valid() && Same(old(sys), sys, t) && sys.ready == old(sys.ready) && At(sys, t, if ok then AW.Idle else AW.RegDrain(k), C.Idle)
      ensures trail == old(trail) + [Slot(t)] && Mine(t) == old(Mine(t)) + [Slot(t)]
    {
      hide Inv, Runs, Own;
      ok := waker.TryFinish(t, k);
      Record(Slot(t));
    }

    /** Empties the slot for a wake. */
    method TakeOut(ghost t: Tid) returns (held: Option<nat>)
      requires Valid() && At(sys, t, AW.TakeSlot, C.Idle)
      modifies this, waker, cell
      ensures Valid() && Same(old(sys), sys, t) && sys.ready == old(sys.ready) && At(sys, t, AW.TakeRelease(held), C.Idle)
      ensures trail == old(trail) + [Slot(t)] && Mine(t) == old(Mine(t)) + [Slot(t)]
    {
      hide Inv, Runs, Own;
      held := waker.TakeOut(t);
      Record(Slot(t));
    }

    /** Empties the slot for a registration that a wake has overtaken. */
    method DrainOut(ghost t: Tid, ghost k: nat) returns (held: Option<nat>)
      requires Valid() && At(sys, t, AW.RegDrain(k), C.Idle)
      modifies this, waker, cell
      ensures Valid() && Same(old(sys), sys, t) && sys.ready == old(sys.ready) && held.Some? && At(sys, t, AW.RegRelease(held), C.Idle)
      ensures trail == old(trail) + [Slot(t)] && Mine(t) == old(Mine(t)) + [Slot(t)]
    {
      hide Inv, Runs, Own;
      DrainFindsOwn(sys, t);
      held := waker.TakeOut(t);
      Record(Slot(t));
    }

    method SwapWaiting(ghost t: Tid, held: Option<nat>)
      requires Valid() && At(sys, t, AW.RegRelease(held), C.Idle) && held.Some?
      modifies this, waker, cell
      ensures Valid() && Same(old(sys), sys, t) && sys.ready == old(sys.ready) && At(sys, t, AW.Invoke(held.value), C.Idle)
      ensures trail == old(trail) + [Slot(t)] && Mine(t) == old(Mine(t)) + [Slot(t)]
    {
      hide Inv, Runs, Own, AW.AtomicWaker.Valid, C.WorkItemCell.Valid;
      waker.SwapWaiting(t, held);
      Record(Slot(t));
    }

    method FetchOrWaking(ghost t: Tid) returns (found: bool)
      requires Valid() && At(sys, t, AW.Idle, C.Idle) && (t == poller ==> !sys.phase.Registering?)
      modifies this, waker, cell
      ensures Valid() && At(sys, t, if found then AW.TakeSlot else AW.Idle, C.Idle)
      ensures sys.poller == poller && sys.signals == old(sys.signals) - {t} && sys.cell == old(sys.cell)
      ensures sys.phase == old(sys.phase) && sys.ready == old(sys.ready)
      ensures Armed(old(sys)) ==> Notified(sys)
      ensures trail == old(trail) + [Action.Wake(t)] && Mine(t) == old(Mine(t)) + [Action.Wake(t)]
    {
      ghost var before := sys;
      hide Runs, Own;
      var prev := waker.FetchOrWaking(t);
      Record(Action.Wake(t));
      if Armed(before) { WakeNotifies(before, sys, t); }
      found := prev == AW.WAITING;
    }

    method ClearWaking(ghost t: Tid, held: Option<nat>)
      requires Valid() && At(sys, t, AW.TakeRelease(held), C.Idle)
      modifies this, waker, cell
      ensures Valid() && Same(old(sys), sys, t) && sys.ready == old(sys.ready)
      ensures At(sys, t, if held.Some? then AW.Invoke(held.value) else AW.Idle, C.Idle)
      ensures trail == old(trail) + [Slot(t)] && Mine(t) == old(Mine(t)) + [Slot(t)]
    {
      hide Inv, Runs, Own, AW.AtomicWaker.Valid, C.WorkItemCell.Valid;
      waker.ClearWaking(t, held);
      Record(Slot(t));
    }

    /** The drain at the end of `register`. */
    method TakeBack(ghost t: Tid, ghost k: nat, ghost still: bool) returns (ghost steps: seq<Action>)
      requires Valid() && At(sys, t, AW.RegDrain(k), C.Idle)
      modifies this, waker, cell
      ensures Valid() && Same(old(sys), sys, t) && At(sys, t, AW.Idle, C.Idle) && old(trail) <= trail
      ensures still ==> sys.ready == old(sys.ready)
      ensures Mine(t) == old(Mine(t)) + steps && Within(steps, t)
    {
      hide Inv, Valid, Mine, At;
      ghost var own := Mine(t);
      Others(t, false, still);
      var drained := DrainOut(t, k);
      Others(t, false, still);
      SwapWaiting(t, drained);
      Others(t, false, still);
      steps := CallWaker(t, drained.value, false, still);
      steps := [Slot(t), Slot(t)] + steps;
      assert Mine(t) == own + steps;
    }

    /** The part of `register` that owns the slot. */
    method Deposit(ghost t: Tid, k: nat, ghost still: bool) returns (ghost steps: seq<Action>)
      requires Valid() && At(sys, t, AW.RegWrite(k), C.Idle)
      modifies this, waker, cell
      ensures Valid() && Same(old(sys), sys, t) && At(sys, t, AW.Idle, C.Idle) && old(trail) <= trail
      ensures still ==> sys.ready == old(sys.ready)
      ensures Mine(t) == old(Mine(t)) + steps && Within(steps, t)
    {
      hide Inv, Valid, Mine, At;
      ghost var own := Mine(t);
      Store(t, k);
      Others(t, false, still);
      var ok := TryFinish(t, k);
      steps := [Slot(t), Slot(t)];
      assert Mine(t) == own + steps;
      if !ok {
        ghost var more := TakeBack(t, k, still);
        assert own + steps + more == own + (steps + more);
        steps := steps + more;
      }
    }

    /**
      `register`, called by the task in its poll.  The task's own part of what happens is the
      registration, the operations that complete it, and the return.
     */
    method Register(ghost t: Tid, ghost still: bool := false) returns (ghost steps: seq<Action>)
      requires Valid() && t == poller && At(sys, t, AW.Idle, C.Idle) && sys.phase.Free? && sys.cell.run.Polling?
      modifies this, waker, cell
      ensures Valid() && At(sys, t, AW.Idle, C.Idle) && old(trail) <= trail
      ensures sys.phase.Registered? && sys.cell.run.Polling? && (old(sys.ready) ==> sys.ready) && sys.poller == poller
      ensures t in sys.signals <==> t in old(sys.signals)
      ensures still ==> sys.ready == old(sys.ready)
      ensures Mine(t) == old(Mine(t)) + ([Action.Register] + steps + [Return]) && Within(steps, t)
    {
      hide Inv, Valid, Mine, At;
      IsPollers();
      ghost var own := Mine(t);
      Others(t, false, still);
      var won, k := TryOwn(t);
      Others(t, false, still);
      if won {
        steps := Deposit(t, k, still);
      } else {
        steps := CallWaker(t, k, false, still);
      }
      Others(t, false, still);
      Returned(t);
      assert own + [Action.Register] + steps + [Return] == own + ([Action.Register] + steps + [Return]);
    }

    /** `register` has returned to the task. */
    ghost method Returned(t: Tid)
      requires Valid() && t == poller && At(sys, t, AW.Idle, C.Idle) && sys.phase.Registering?
      modifies this
      ensures Valid() && At(sys, t, AW.Idle, C.Idle) && old(trail) <= trail
      ensures sys == old(sys).(phase := Phase.Registered) && Mine(t) == old(Mine(t)) + [Return]
    {
      hide Inv, Runs, Own, AW.AtomicWaker.Valid, C.WorkItemCell.Valid;
      Record(Return);
    }

    /** The part of `wake` that owns the slot: take the waker out, give the slot back, call the waker. */
    method Deliver(ghost t: Tid, ghost alone: bool) returns (ghost steps: seq<Action>)
      requires Valid() && At(sys, t, AW.TakeSlot, C.Idle)
      modifies this, waker, cell
      ensures Valid() && Same(old(sys), sys, t) && At(sys, t, AW.Idle, C.Idle) && old(trail) <= trail
      ensures alone ==> sys.ready == old(sys.ready)
      ensures Mine(t) == old(Mine(t)) + steps && Within(steps, t)
    {
      hide Inv, Valid, Mine, At;
      ghost var own := Mine(t);
      var taken := TakeOut(t);
      Others(t, alone);
      ClearWaking(t, taken);
      steps := [Slot(t), Slot(t)];
      assert Mine(t) == own + steps;
      if taken.Some? {
        Others(t, alone);
        ghost var more := CallWaker(t, taken.value, alone);
        assert own + steps + more == own + (steps + more);
        steps := steps + more;
      }
    }

    /**
      `wake`.  The caller's own part is the fetch-or and the operations that complete the call,
      down to queueing the task; an armed task is on its way to a run when the fetch-or is done.
     */
    method Wake(ghost t: Tid, ghost alone: bool := false) returns (ghost steps: seq<Action>)
      requires Valid() && At(sys, t, AW.Idle, C.Idle) && (t == poller ==> !sys.phase.Registering?)
      modifies this, waker, cell
      ensures Valid() && At(sys, t, AW.Idle, C.Idle) && old(trail) <= trail && t !in sys.signals && sys.poller == poller
      ensures t == poller ==> sys.cell.run == old(sys.cell.run) && sys.phase == old(sys.phase) && (old(sys.ready) ==> sys.ready)
      ensures alone ==> sys.ready == old(sys.ready)
      ensures Mine(t) == old(Mine(t)) + ([Action.Wake(t)] + steps) && Within(steps, t)
    {
      hide Inv, Valid, Mine, At;
      IsPollers();
      ghost var own := Mine(t);
      Others(t, alone);
      var found := FetchOrWaking(t);
      steps := [];
      if found {
        Others(t, alone);
        steps := Deliver(t, alone);
      }
      assert Mine(t) == own + ([Action.Wake(t)] + steps);
    }
  }
}
