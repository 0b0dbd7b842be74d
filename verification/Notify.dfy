/**
  `Notify`: a permit flag and one waiter, composed with the waker slot, the cell and its
  queue.  Any number of threads call `notify`; one task awaits `notified` over and over.
 */
module Notification {
  import opened Prelude
  import AW = AtomicWakers
  import C = Cells
  import P = Parking

  /** Next step of a thread inside `notify`. */
  datatype NotifyPc =
    | NIdle
    | NWake    // has stored the permit; will call `AtomicWaker::wake`
    | NWaking  // inside that call

  /** Next step of the waiting task. */
  datatype WaitPc =
    | WUser
    | WSwap(again: bool)  // will swap the permit for false
    | WRegister           // will call `register`
    | WRegistering
    | WPending            // returns, or has returned, Pending

  /** The permit is `park.ready`.  `unsaved` counts the calls of `notify` that found no permit stored. */
  datatype State = State(
    park: P.State,
    notifiers: map<Tid, NotifyPc>,
    wait: WaitPc,
    calls: nat,
    unsaved: nat,
    completions: nat)

  function Init(threads: set<Tid>, poller: Tid): State {
    State(P.Init(threads, poller, false), map t | t in threads :: NIdle, WUser, 0, 0, 0)
  }

  datatype Action =
    | Env(a: P.Action)
    | Store(t: Tid)       // `notify`: stores the permit
    | NotifyStep(t: Tid)
    | StartWait           // the task polls `notified`
    | WaitStep
    | GiveUp              // the task drops a pending wait and goes on
    | EndPoll(ready: bool)

  predicate Free(s: State, t: Tid) {
    P.Outside(s.park, t) && t in s.notifiers && s.notifiers[t].NIdle? && (t == s.park.poller ==> s.wait.WUser? || s.wait.WPending?)
  }

  predicate InTask(s: State) {
    s.park.cell.run.Polling? && Free(s, s.park.poller)
  }

  predicate EnvEnabled(s: State, a: P.Action) {
    && P.Enabled(s.park, a)
    && (match a
        case CellStep(step) => !step.PollPending? && !step.PollReady? && (step.Wake? || step.Spawn? ==> Free(s, step.t))
        case Slot(t) => true
        case Call(t) => true
        case _ => false)
  }

  predicate Enabled(s: State, a: Action) {
    match a
    case Env(e) => EnvEnabled(s, e)
    case Store(t) => Free(s, t)
    case NotifyStep(t) => t in s.notifiers && !s.notifiers[t].NIdle? && P.Outside(s.park, t)
    case StartWait => InTask(s)
    case WaitStep => s.park.cell.run.Polling? && P.Outside(s.park, s.park.poller) && !s.wait.WUser? && !s.wait.WPending?
    case GiveUp => InTask(s) && s.wait.WPending?
    case EndPoll(ready) => InTask(s) && (ready ==> s.wait.WUser?)
  }

  function Bit(b: bool): nat { if b then 1 else 0 }

  function NotifierStep(s: State, t: Tid): State
    requires Enabled(s, NotifyStep(t))
  {
    match s.notifiers[t]
    case NWake =>
      s.(park := s.park.(aw := AW.WakeFetchOr(s.park.aw, t), signals := s.park.signals - {t}),
         notifiers := s.notifiers[t := NWaking])
    case NWaking => s.(notifiers := s.notifiers[t := NIdle])
  }

  function WaiterStep(s: State): State
    requires Enabled(s, WaitStep)
  {
    match s.wait
    case WSwap(again) =>
      var phase := if !again then s.park.phase else if s.park.ready then P.Free else P.Blocked;
      s.(park := s.park.(ready := false, phase := phase),
         completions := s.completions + Bit(s.park.ready),
         wait := if s.park.ready then WUser else if again then WPending else WRegister)
    case WRegister => s.(wait := WRegistering, park := s.park.(aw := AW.RegisterCas(s.park.aw, s.park.poller), phase := P.Registering))
    case WRegistering => s.(wait := WSwap(true), park := s.park.(phase := P.Registered))
  }

  function Exec(s: State, a: Action): State
    requires Enabled(s, a)
  {
    match a
    case Env(e) => s.(park := P.Exec(s.park, e), wait := if e.CellStep? && e.step.Begin? then WUser else s.wait)
    case Store(t) =>
      s.(park := P.Exec(s.park, P.MakeReady(t)), notifiers := s.notifiers[t := NWake],
         calls := s.calls + 1, unsaved := s.unsaved + Bit(!s.park.ready))
    case NotifyStep(t) => NotifierStep(s, t)
    case StartWait => s.(wait := WSwap(false), park := s.park.(phase := P.Free))
    case WaitStep => WaiterStep(s)
    case GiveUp => s.(wait := WUser, park := s.park.(phase := P.Free))
    case EndPoll(ready) =>
      s.(park := s.park.(cell := C.Exec(s.park.cell, if ready then C.PollReady else C.PollPending),
                         phase := if ready then P.Free else s.park.phase))
  }

  // ------------------------------------------------------------------ invariant

  function Signalling(notifiers: map<Tid, NotifyPc>): set<Tid> {
    set t | t in notifiers && notifiers[t].NWake?
  }

  lemma SignallingAfter(notifiers: map<Tid, NotifyPc>, t: Tid, pc: NotifyPc)
    requires t in notifiers
    ensures Signalling(notifiers[t := pc]) == if pc.NWake? then Signalling(notifiers) + {t} else Signalling(notifiers) - {t}
  {
    var after := notifiers[t := pc];
    assert Signalling(after) == if pc.NWake? then Signalling(notifiers) + {t} else Signalling(notifiers) - {t};
  }

  ghost predicate NotifierOk(s: State, t: Tid)
    requires t in s.notifiers
  {
    && (s.notifiers[t].NWake? ==> P.Outside(s.park, t))
    && (!s.notifiers[t].NIdle? && t == s.park.poller ==> s.wait.WUser? || s.wait.WPending?)
  }

  ghost predicate NotifiersOk(s: State) {
    && s.notifiers.Keys == s.park.aw.pcs.Keys
    && s.park.signals == Signalling(s.notifiers)
    && (forall t :: t in s.notifiers ==> NotifierOk(s, t))
  }

  ghost predicate WaitOk(s: State) {
    && (s.wait.WRegistering? <==> s.park.phase.Registering?)
    && (s.wait == WSwap(true) <==> s.park.phase.Registered?)
    && (s.wait.WPending? <==> s.park.phase.Blocked?)
    && (!s.wait.WUser? && !s.wait.WPending? ==> s.park.cell.run.Polling?)
    && (!s.wait.WUser? && !s.wait.WPending? && !s.wait.WRegistering? ==> P.Outside(s.park, s.park.poller))
  }

  ghost predicate CountOk(s: State) {
    s.completions + Bit(s.park.ready) == s.unsaved <= s.calls
  }

  ghost predicate WaiterInv(s: State) {
    NotifiersOk(s) && WaitOk(s) && CountOk(s)
  }

  ghost predicate Inv(s: State) {
    P.Inv(s.park) && WaiterInv(s)
  }

  // ------------------------------------------------------------------ refinement of the parking pattern

  function ParkAction(s: State, a: Action): Option<P.Action> {
    match a
    case Env(e) => Some(e)
    case Store(t) => Some(P.MakeReady(t))
    case NotifyStep(t) => if t in s.notifiers && s.notifiers[t].NWake? then Some(P.Wake(t)) else None
    case StartWait => Some(P.Abandon)
    case WaitStep =>
      (match s.wait
       case WSwap(again) => Some(if again then P.CheckAgain(false) else P.Consume(false))
       case WRegister => Some(P.Register)
       case WRegistering => Some(P.Return)
       case _ => None)
    case GiveUp => Some(P.Abandon)
    case EndPoll(ready) => Some(P.CellStep(if ready then C.PollReady else C.PollPending))
  }

  /** Every action is a step of the parking pattern, or leaves it alone. */
  lemma RefinesParking(s: State, a: Action)
    requires Inv(s) && Enabled(s, a)
    ensures match ParkAction(s, a)
            case None => Exec(s, a).park == s.park
            case Some(e) => P.Enabled(s.park, e) && Exec(s, a).park == P.Exec(s.park, e)
  {
    match a
    case NotifyStep(t) => assert NotifierOk(s, t);
    case WaitStep =>
    case Env(_) =>
    case _ =>
  }

  lemma ParkKeepsInv(s: State, a: Action)
    requires Inv(s) && Enabled(s, a)
    ensures P.Inv(Exec(s, a).park)
  {
    RefinesParking(s, a);
    match ParkAction(s, a)
    case None =>
    case Some(e) => P.StepKeepsInv(s.park, e);
  }

  lemma EnvKeepsInv(s: State, e: P.Action)
    requires WaiterInv(s) && P.TaskOk(s.park) && Enabled(s, Env(e))
    ensures WaiterInv(Exec(s, Env(e)))
  {
    var s' := Exec(s, Env(e));
    P.StepKeepsThreads(s.park, e);
    assert NotifiersOk(s') by {
      forall t | t in s.notifiers
        ensures NotifierOk(s', t)
      {
        assert NotifierOk(s, t);
        if P.Outside(s.park, t) && !s.notifiers[t].NIdle? { P.StaysOutside(s.park, e, t); }
      }
    }
    assert WaitOk(s') by {
      if P.Outside(s.park, s.park.poller) && !s.wait.WUser? && !s.wait.WPending? { P.StaysOutside(s.park, e, s.park.poller); }
    }
  }

  lemma NotifierKeepsInv(s: State, a: Action)
    requires WaiterInv(s) && Enabled(s, a) && (a.Store? || a.NotifyStep?)
    ensures WaiterInv(Exec(s, a))
  {
    var s' := Exec(s, a);
    assert NotifierOk(s, a.t);
    SignallingAfter(s.notifiers, a.t, s'.notifiers[a.t]);
    assert NotifiersOk(s') by {
      forall t | t in s.notifiers
        ensures NotifierOk(s', t)
      {
        assert NotifierOk(s, t);
      }
    }
  }

  lemma WaiterKeepsInv(s: State, a: Action)
    requires WaiterInv(s) && P.TaskOk(s.park) && Enabled(s, a) && (a.StartWait? || a.WaitStep? || a.GiveUp? || a.EndPoll?)
    ensures WaiterInv(Exec(s, a))
  {
    var s' := Exec(s, a);
    assert NotifiersOk(s') by {
      forall t | t in s.notifiers
        ensures NotifierOk(s', t)
      {
        assert NotifierOk(s, t);
      }
    }
  }

  lemma StepKeepsInv(s: State, a: Action)
    requires Inv(s) && Enabled(s, a)
    ensures Inv(Exec(s, a))
  {
    ParkKeepsInv(s, a);
    match a
    case Env(e) => EnvKeepsInv(s, e);
    case Store(_) => NotifierKeepsInv(s, a);
    case NotifyStep(_) => NotifierKeepsInv(s, a);
    case _ => WaiterKeepsInv(s, a);
  }

  lemma InitKeepsInv(threads: set<Tid>, poller: Tid)
    requires poller in threads
    ensures Inv(Init(threads, poller))
  {
    P.InitKeepsInv(threads, poller, false);
    assert Signalling(Init(threads, poller).notifiers) == {};
  }

  // ------------------------------------------------------------------ runs

  ghost predicate Runs(s: State, script: seq<Action>, last: State)
    decreases |script|
  {
    if script == [] then s == last
    else Enabled(s, script[0]) && Runs(Exec(s, script[0]), script[1..], last)
  }

  lemma {:induction false} RunKeepsInv(s: State, script: seq<Action>, last: State)
    requires Inv(s) && Runs(s, script, last)
    ensures Inv(last)
    decreases |script|
  {
    if script != [] {
      StepKeepsInv(s, script[0]);
      RunKeepsInv(Exec(s, script[0]), script[1..], last);
    }
  }

  ghost predicate Reachable(s: State) {
    exists threads, poller, script :: poller in threads && Runs(Init(threads, poller), script, s)
  }

  lemma ReachableKeepsInv(s: State)
    requires Reachable(s)
    ensures Inv(s)
  {
    var threads, poller, script :| poller in threads && Runs(Init(threads, poller), script, s);
    InitKeepsInv(threads, poller);
    RunKeepsInv(Init(threads, poller), script, s);
  }

  ghost predicate Quiescent(s: State) {
    && (forall t :: t in s.notifiers ==> s.notifiers[t].NIdle? && P.Outside(s.park, t))
    && s.park.cell.entries == 0
    && s.park.cell.run.Rest?
  }

  /** A waiter parked in a quiescent system leaves no permit unclaimed. */
  lemma ParkedWaiterLeavesNoPermit(s: State)
    requires Reachable(s) && Quiescent(s) && s.wait.WPending?
    ensures !s.park.ready
    ensures s.completions == s.unsaved
  {
    ReachableKeepsInv(s);
    assert Signalling(s.notifiers) == {};
    assert P.Quiescent(s.park);
    P.ParkedTaskHasNothingToDoFrom(s.park);
  }

  /** Completions never exceed notifications: a completion or a stored permit for each `notify` that found none stored. */
  lemma CompletionsMatchNotifications(s: State)
    requires Reachable(s)
    ensures s.completions + Bit(s.park.ready) == s.unsaved <= s.calls
  {
    ReachableKeepsInv(s);
  }

  /** A step that completes no wait keeps the permit, and one that notifies leaves it. */
  lemma StepKeepsPermit(s: State, a: Action)
    requires Enabled(s, a)
    ensures s.calls <= Exec(s, a).calls && s.completions <= Exec(s, a).completions
    ensures Exec(s, a).completions == s.completions && (s.park.ready || Exec(s, a).calls > s.calls) ==> Exec(s, a).park.ready
  {
  }

  lemma {:induction false} NotifyWithoutCompletionLeavesPermit(s: State, script: seq<Action>, last: State)
    requires Inv(s) && Runs(s, script, last)
    ensures s.calls <= last.calls && s.completions <= last.completions
    ensures last.completions == s.completions && (s.park.ready || last.calls > s.calls) ==> last.park.ready
    decreases |script|
  {
    if script != [] {
      hide Exec, Enabled, Inv;
      StepKeepsInv(s, script[0]);
      StepKeepsPermit(s, script[0]);
      NotifyWithoutCompletionLeavesPermit(Exec(s, script[0]), script[1..], last);
    }
  }

  /**
    Coalescing.  However many calls of `notify` a run holds, if it holds no completion they
    leave exactly one permit, worth exactly one completion.
   */
  lemma NotificationsCoalesce(s: State, script: seq<Action>, last: State)
    requires Inv(s) && !s.park.ready && Runs(s, script, last)
    requires last.completions == s.completions && last.calls > s.calls
    ensures last.park.ready && last.unsaved == s.unsaved + 1
  {
    NotifyWithoutCompletionLeavesPermit(s, script, last);
    RunKeepsInv(s, script, last);
  }

  // ------------------------------------------------------------------ the code, under interference

  /** The thread that performs an action. */
  function Actor(poller: Tid, a: Action): Tid {
    match a
    case Env(e) => P.Actor(poller, e)
    case Store(t) => t
    case NotifyStep(t) => t
    case _ => poller
  }

  /** What a step of others does, seen from thread `t`: a step, or none, of the parking pattern by the same thread. */
  lemma StepMeetsContract(s: State, a: Action, t: Tid)
    requires Inv(s) && Enabled(s, a)
    ensures ParkAction(s, a).Some? ==> P.Actor(s.park.poller, ParkAction(s, a).value) == Actor(s.park.poller, a)
    ensures Exec(s, a).park.poller == s.park.poller
    ensures !a.WaitStep? ==> Exec(s, a).completions == s.completions
  {
  }

  /**
    The interference contract of the class below is justified.  Every run in which thread `t`
    does nothing is a run of the parking pattern in which it does nothing, and treats permit
    and counters as `Others` says.
   */
  lemma {:induction false} OthersMeetContract(s: State, script: seq<Action>, last: State, t: Tid)
    returns (steps: seq<P.Action>)
    requires Inv(s) && Runs(s, script, last)
    requires forall i :: 0 <= i < |script| ==> Actor(s.park.poller, script[i]) != t
    ensures P.Runs(s.park, steps, last.park) && last.park.poller == s.park.poller
    ensures forall i :: 0 <= i < |steps| ==> P.Actor(s.park.poller, steps[i]) != t
    ensures P.Rely(s.park, last.park, t)
    ensures Progress(s.calls, s.completions, s.park.ready, last.calls, last.completions, last.park.ready)
    ensures t == s.park.poller ==> last.completions == s.completions
    decreases |script|
  {
    hide Inv, Exec, Enabled, P.Inv, P.Exec, P.Enabled;
    if script == [] {
      steps := [];
      P.OthersSatisfyRely(s.park, steps, last.park, t) by { ParkInv(s); }
    } else {
      var a, next := script[0], Exec(s, script[0]);
      StepKeepsInv(s, a);
      StepMeetsContract(s, a, t);
      StepKeepsPermit(s, a);
      RefinesParking(s, a);
      var rest := OthersMeetContract(next, script[1..], last, t);
      if ParkAction(s, a).Some? {
        steps := [ParkAction(s, a).value] + rest;
        assert steps[1..] == rest;
      } else {
        steps := rest;
      }
      ParkInv(s);
      P.OthersSatisfyRely(s.park, steps, last.park, t);
    }
  }

  lemma ParkInv(s: State)
    requires Inv(s)
    ensures P.Inv(s.park)
  {
  }

  /** Calls and completions only grow, and a permit goes away only by a completion. */
  ghost predicate Progress(calls: nat, completions: nat, permit: bool, calls': nat, completions': nat, permit': bool) {
    calls <= calls' && completions <= completions' && (permit && completions' == completions ==> permit')
  }

  /** `Notify`, with its waker and the cell of the task that waits.  The permit is the condition the task waits for. */
  class Notify {
    var permit: bool
    const chain: P.WakeChain
    ghost var calls: nat
    ghost var unsaved: nat           // calls that found no permit stored
    ghost var completions: nat

    ghost predicate Counted()
      reads this
    {
      completions + Bit(permit) == unsaved <= calls
    }

    ghost predicate Valid()
      reads this, chain, chain.waker, chain.cell
    {
      chain.Valid() && chain.sys.poller == chain.poller && permit == chain.sys.ready && Counted()
    }

    constructor (ghost threads: set<Tid>, ghost poller: Tid)
      requires poller in threads
      ensures Valid() && fresh(chain) && fresh(chain.waker) && fresh(chain.cell)
      ensures chain.sys == P.Init(threads, poller, false) && !permit && calls == 0
    {
      permit, calls, unsaved, completions := false, 0, 0, 0;
      chain := new P.WakeChain(threads, poller, false);
    }

    /** Actions of other threads: any may notify, and only the waiting task completes. */
    method Others(ghost t: Tid)
      requires Valid()
      modifies this, chain, chain.waker, chain.cell
      ensures Valid() && P.Rely(old(chain.sys), chain.sys, t)
      ensures old(chain.trail) <= chain.trail && chain.Mine(t) == old(chain.Mine(t))
      ensures Progress(old(calls), old(completions), old(permit), calls, completions, permit)
      ensures t == chain.poller ==> completions == old(completions)
    {
    }

    /** What other threads did to the permit while `t` was inside a call on the waker; the code acts for them. */
    method CatchUp(ghost t: Tid)
      requires chain.Valid() && Counted() && (t == chain.poller && permit ==> chain.sys.ready)
      modifies this
      ensures Valid()
      ensures Progress(old(calls), old(completions), old(permit), calls, completions, permit)
      ensures t == chain.poller ==> completions == old(completions)
    {
      if permit && !chain.ready { completions := completions + 1; }
      if !permit && chain.ready { calls, unsaved := calls + 1, unsaved + 1; }
      permit := chain.ready;
    }

    /** `permit.store(true)`. */
    method Store(ghost t: Tid)
      requires Valid() && P.At(chain.sys, t, AW.Idle, C.Idle)
      modifies this, chain
      ensures Valid() && permit && calls == old(calls) + 1 && completions == old(completions)
      ensures unsaved == old(unsaved) + Bit(!old(permit))
      ensures chain.sys == old(chain.sys).(ready := true, signals := old(chain.sys).signals + {t})
      ensures old(chain.trail) <= chain.trail && chain.Mine(t) == old(chain.Mine(t)) + [P.MakeReady(t)]
    {
      calls, unsaved := calls + 1, unsaved + Bit(!permit);
      permit := true;
      chain.MakeReady(t);
    }

    /** `permit.swap(false)` before registering; finding a permit completes the wait. */
    method Swap(ghost t: Tid) returns (found: bool)
      requires Valid() && t == chain.poller && !chain.sys.phase.Blocked?
      modifies this, chain
      ensures Valid() && found == old(permit) && !permit && calls == old(calls)
      ensures completions == old(completions) + Bit(found)
      ensures chain.sys == old(chain.sys).(ready := false)
      ensures old(chain.trail) <= chain.trail && chain.Mine(t) == old(chain.Mine(t)) + [P.Consume(false)]
    {
      found, permit := permit, false;
      completions := completions + Bit(found);
      chain.Consume(t, false);
    }

    /** `permit.swap(false)` after registering; finding none, the poll is to return Pending. */
    method SwapAgain(ghost t: Tid) returns (found: bool)
      requires Valid() && t == chain.poller && chain.sys.phase.Registered?
      modifies this, chain
      ensures Valid() && found == old(permit) && !permit && calls == old(calls)
      ensures completions == old(completions) + Bit(found)
      ensures chain.sys == old(chain.sys).(phase := if found then P.Free else P.Blocked, ready := false)
      ensures old(chain.trail) <= chain.trail && chain.Mine(t) == old(chain.Mine(t)) + [P.CheckAgain(false)]
    {
      found, permit := permit, false;
      completions := completions + Bit(found);
      var again := chain.CheckAgain(t, false);
    }

    /**
      `notify`.  The caller stores the permit, and after that makes one call of `wake`, whose
      operations are `steps`; it does nothing else.  On return the permit is there unless a
      wait has completed since, and the caller owes no signal.
     */
    method NotifyOne(ghost t: Tid) returns (ghost steps: seq<P.Action>)
      requires Valid() && P.At(chain.sys, t, AW.Idle, C.Idle) && (t == chain.poller ==> !chain.sys.phase.Registering?)
      modifies this, chain, chain.waker, chain.cell
      ensures Valid() && P.At(chain.sys, t, AW.Idle, C.Idle) && t !in chain.sys.signals
      ensures calls > old(calls) && (permit || completions > old(completions))
      ensures old(chain.trail) <= chain.trail && P.Within(steps, t)
      ensures chain.Mine(t) == old(chain.Mine(t)) + ([P.MakeReady(t), P.Wake(t)] + steps)
    {
      hide P.WakeChain.Valid, P.WakeChain.Mine, P.Inv;
      ghost var own := chain.Mine(t);
      Others(t);
      Store(t);
      steps := chain.Wake(t);
      CatchUp(t);
      assert own + [P.MakeReady(t)] + ([P.Wake(t)] + steps) == own + ([P.MakeReady(t), P.Wake(t)] + steps);
    }

    /** The rest of `poll` after a swap that found no permit: register, and only then swap again. */
    method Park(ghost t: Tid) returns (ready: bool, ghost steps: seq<P.Action>)
      requires Valid() && t == chain.poller && P.At(chain.sys, t, AW.Idle, C.Idle)
      requires chain.sys.cell.run.Polling? && chain.sys.phase.Free?
      modifies this, chain, chain.waker, chain.cell
      ensures Valid() && P.At(chain.sys, t, AW.Idle, C.Idle) && chain.sys.cell.run.Polling? && !permit
      ensures completions == old(completions) + Bit(ready)
      ensures chain.sys.phase == if ready then P.Free else P.Blocked
      ensures old(chain.trail) <= chain.trail
      ensures chain.Mine(t) == old(chain.Mine(t)) + steps && P.Parks(steps, t, false)
    {
      hide P.WakeChain.Valid, P.WakeChain.Mine, P.Inv, P.Parks;
      ghost var own := chain.Mine(t);
      ghost var within := chain.Register(t);
      CatchUp(t);
      Others(t);
      ready := SwapAgain(t);
      steps := [P.Register] + within + [P.Return, P.CheckAgain(false)];
      P.ParksWith(within, t, false);
      assert own + ([P.Register] + within + [P.Return]) + [P.CheckAgain(false)] == own + steps;
    }

    /**
      `Notified::poll`.  The task swaps the permit out; finding none it registers, and only
      after that swaps again.  It does nothing else, completes exactly if it takes a permit, and
      returns Pending parked: the system's record of it is Blocked.
     */
    method Poll(ghost t: Tid) returns (ready: bool, ghost steps: seq<P.Action>)
      requires Valid() && t == chain.poller && P.At(chain.sys, t, AW.Idle, C.Idle)
      requires chain.sys.cell.run.Polling? && !chain.sys.phase.Registering?
      modifies this, chain, chain.waker, chain.cell
      ensures Valid() && P.At(chain.sys, t, AW.Idle, C.Idle) && chain.sys.cell.run.Polling? && !permit
      ensures completions == old(completions) + Bit(ready)
      ensures chain.sys.phase == if ready then P.Free else P.Blocked
      ensures old(chain.trail) <= chain.trail
      ensures chain.Mine(t) == old(chain.Mine(t)) + ([P.Abandon, P.Consume(false)] + steps)
      ensures if steps == [] then ready else P.Parks(steps, t, false)
    {
      hide P.WakeChain.Valid, P.WakeChain.Mine, P.Inv, P.Parks;
      ghost var own := chain.Mine(t);
      Others(t);
      chain.Abandon(t);
      assert P.At(chain.sys, t, AW.Idle, C.Idle);
      Others(t);
      ready := Swap(t);
      steps := [];
      assert own + [P.Abandon] + [P.Consume(false)] == own + ([P.Abandon, P.Consume(false)] + []);
      if !ready {
        ready, steps := Park(t);
        assert own + [P.Abandon, P.Consume(false)] + steps == own + ([P.Abandon, P.Consume(false)] + steps);
        ParksIsLong(steps, t);
      }
    }
  }

  lemma ParksIsLong(steps: seq<P.Action>, t: Tid)
    requires P.Parks(steps, t, false)
    ensures steps != []
  {
  }
}
