/**
  `Channel` end to end: the ring, a producing task parked on `send_waker` and a consuming
  task parked on `recv_waker`.  Each task has its own cell and queue entries; inside its
  poll, the producer wakes the consumer and the consumer wakes the producer.  `tx` is the
  parking system of the producer (it waits for room) and `rx` that of the consumer (it
  waits for an item).
 */
module Channels {
  import opened Prelude
  import AW = AtomicWakers
  import C = Cells
  import P = Parking
  import R = Ring

  /** Next step of the producing task. */
  datatype SendPc =
    | SUser
    | SCheck(v: R.Item, again: bool)  // `try_send`: will load `head` and compare
    | SWrite                          // will write the slot
    | SPublish                        // will store `tail`
    | SSignal                         // will call `recv_waker.wake()`
    | SWaking                         // inside that call
    | SRegister(v: R.Item)            // will call `send_waker.register`
    | SRegistering(v: R.Item)
    | SPending(v: R.Item)             // returns, or has returned, Pending
  {
    predicate Resting() { SUser? || SPending? }
  }

  /** Next step of the consuming task. */
  datatype RecvPc =
    | CUser
    | CCheck(again: bool)
    | CRead
    | CStore
    | CSignal
    | CWaking
    | CRegister
    | CRegistering
    | CPending
  {
    predicate Resting() { CUser? || CPending? }
  }

  datatype State = State(ring: R.State, tx: P.State, rx: P.State, send: SendPc, recv: RecvPc)

  function Init(n: nat, m: nat, threads: set<Tid>, producer: Tid, consumer: Tid): State {
    State(R.Init(n, m), P.Init(threads, producer, n > 0), P.Init(threads, consumer, false), SUser, CUser)
  }

  datatype Action =
    | EnvTx(a: P.Action)           // slot, cell and queue steps around the producer's task
    | EnvRx(a: P.Action)           // and around the consumer's
    | StartSend(v: R.Item)
    | SendStep
    | StopSend                     // a bare `try_send` gives the value back
    | GiveUpSend                   // the task drops a pending `send` and goes on
    | EndSendPoll(ready: bool)
    | StartRecv
    | RecvStep
    | StopRecv
    | GiveUpRecv
    | EndRecvPoll(ready: bool)

  predicate Producer(s: State, t: Tid) { t == s.tx.poller }
  predicate Consumer(s: State, t: Tid) { t == s.rx.poller }

  predicate EnvEnabled(s: State, p: P.State, a: P.Action) {
    && P.Enabled(p, a)
    && (match a
        case CellStep(step) =>
          && !step.PollPending? && !step.PollReady?
          && (step.Wake? || step.Spawn? ==>
                (Producer(s, step.t) ==> s.send.Resting()) && (Consumer(s, step.t) ==> s.recv.Resting()))
        case Slot(t) => true
        case Call(t) => true
        case _ => false)
  }

  /** The thread of a task is in none of the calls on either waker or cell. */
  predicate OutsideBoth(s: State, t: Tid) {
    P.Outside(s.tx, t) && P.Outside(s.rx, t)
  }

  predicate ProducerMayStep(s: State) { s.tx.cell.run.Polling? && OutsideBoth(s, s.tx.poller) }
  predicate ConsumerMayStep(s: State) { s.rx.cell.run.Polling? && OutsideBoth(s, s.rx.poller) }

  /** The ring is as far in its operations as the two tasks are.  The invariant below holds this throughout. */
  predicate RingMatches(s: State) {
    && R.Sized(s.ring)
    && (s.send.SWrite? <==> s.ring.p.Writing?)
    && (s.send.SPublish? <==> s.ring.p.Publishing?)
    && (s.recv.CRead? <==> s.ring.c.Reading?)
    && (s.recv.CStore? <==> s.ring.c.Storing?)
    && (!s.ring.p.NoSend? || !s.ring.c.NoRecv? ==> 0 < s.ring.n)
  }

  predicate Enabled(s: State, a: Action) {
    match a
    case EnvTx(e) => EnvEnabled(s, s.tx, e)
    case EnvRx(e) => EnvEnabled(s, s.rx, e)
    case StartSend(v) => ProducerMayStep(s) && s.send.Resting()
    case SendStep => ProducerMayStep(s) && !s.send.Resting() && RingMatches(s)
    case StopSend => s.send.SRegister?
    case GiveUpSend => ProducerMayStep(s) && s.send.SPending?
    case EndSendPoll(ready) => ProducerMayStep(s) && (s.send.SUser? || (s.send.SPending? && !ready))
    case StartRecv => ConsumerMayStep(s) && s.recv.Resting()
    case RecvStep => ConsumerMayStep(s) && !s.recv.Resting() && RingMatches(s)
    case StopRecv => s.recv.CRegister?
    case GiveUpRecv => ConsumerMayStep(s) && s.recv.CPending?
    case EndRecvPoll(ready) => ConsumerMayStep(s) && (s.recv.CUser? || (s.recv.CPending? && !ready))
  }

  /** A second check: on success the task is out of the pattern, on failure it is about to return Pending. */
  function Checked(p: P.State, again: bool): P.State {
    p.(phase := if !again then p.phase else if p.ready then P.Free else P.Blocked)
  }

  function Registered(p: P.State): P.State
    requires p.poller in p.aw.pcs
  {
    p.(aw := AW.RegisterCas(p.aw, p.poller), phase := P.Registering)
  }

  function BegunWake(p: P.State, t: Tid): P.State
    requires t in p.aw.pcs
  {
    p.(aw := AW.WakeFetchOr(p.aw, t), signals := p.signals - {t})
  }

  function Signalled(p: P.State, t: Tid): P.State {
    p.(ready := true, signals := p.signals + {t})
  }

  function Ended(p: P.State, ready: bool): P.State
    requires p.cell.run.Polling?
  {
    p.(cell := C.Exec(p.cell, if ready then C.PollReady else C.PollPending), phase := if ready then P.Free else p.phase)
  }

  function SenderStep(s: State): State
    requires Enabled(s, SendStep)
  {
    var t := s.tx.poller;
    match s.send
    case SCheck(v, again) =>
      var room := R.HasRoom(s.ring);
      s.(ring := R.BeginSend(s.ring, v), tx := Checked(s.tx, again),
         send := if room then SWrite else if again then SPending(v) else SRegister(v))
    case SWrite => s.(ring := R.WriteSlot(s.ring), send := SPublish)
    case SPublish =>
      var ring := R.StoreTail(s.ring);
      s.(ring := ring, send := SSignal, rx := Signalled(s.rx, t),
         tx := s.tx.(ready := |ring.sent| < |ring.received| + ring.n))
    case SSignal => s.(rx := BegunWake(s.rx, t), send := SWaking)
    case SWaking => s.(send := SUser)
    case SRegister(v) => s.(tx := Registered(s.tx), send := SRegistering(v))
    case SRegistering(v) => s.(tx := s.tx.(phase := P.Registered), send := SCheck(v, true))
  }

  function ReceiverStep(s: State): State
    requires Enabled(s, RecvStep)
  {
    var t := s.rx.poller;
    match s.recv
    case CCheck(again) =>
      var some := s.ring.head != s.ring.tail;
      s.(ring := R.BeginRecv(s.ring), rx := Checked(s.rx, again),
         recv := if some then CRead else if again then CPending else CRegister)
    case CRead => s.(ring := R.ReadSlot(s.ring), recv := CStore)
    case CStore =>
      var ring := R.StoreHead(s.ring);
      s.(ring := ring, recv := CSignal, tx := Signalled(s.tx, t),
         rx := s.rx.(ready := |ring.received| < |ring.sent|))
    case CSignal => s.(tx := BegunWake(s.tx, t), recv := CWaking)
    case CWaking => s.(recv := CUser)
    case CRegister => s.(rx := Registered(s.rx), recv := CRegistering)
    case CRegistering => s.(rx := s.rx.(phase := P.Registered), recv := CCheck(true))
  }

  function Exec(s: State, a: Action): State
    requires Enabled(s, a)
  {
    match a
    case EnvTx(e) => s.(tx := P.Exec(s.tx, e), send := if P.Begins(e) then SUser else s.send)
    case EnvRx(e) => s.(rx := P.Exec(s.rx, e), recv := if P.Begins(e) then CUser else s.recv)
    case StartSend(v) => s.(send := SCheck(v, false), tx := s.tx.(phase := P.Free))
    case SendStep => SenderStep(s)
    case StopSend => s.(send := SUser)
    case GiveUpSend => s.(send := SUser, tx := s.tx.(phase := P.Free))
    case EndSendPoll(ready) => s.(tx := Ended(s.tx, ready))
    case StartRecv => s.(recv := CCheck(false), rx := s.rx.(phase := P.Free))
    case RecvStep => ReceiverStep(s)
    case StopRecv => s.(recv := CUser)
    case GiveUpRecv => s.(recv := CUser, rx := s.rx.(phase := P.Free))
    case EndRecvPoll(ready) => s.(rx := Ended(s.rx, ready))
  }

  // ------------------------------------------------------------------ invariant

  ghost predicate TxOk(s: State) {
    && (s.send.SRegistering? <==> s.tx.phase.Registering?)
    && ((s.send.SCheck? && s.send.again) <==> s.tx.phase.Registered?)
    && (s.send.SPending? <==> s.tx.phase.Blocked?)
    && (!s.send.Resting() ==> s.tx.cell.run.Polling?)
    && (!s.send.Resting() && !s.send.SRegistering? ==> P.Outside(s.tx, s.tx.poller))
    && (!s.send.Resting() && !s.send.SWaking? ==> P.Outside(s.rx, s.tx.poller))
    && s.rx.signals == (if s.send.SSignal? then {s.tx.poller} else {})
    && (s.tx.ready <==> |s.ring.sent| < |s.ring.received| + s.ring.n)
  }

  ghost predicate RxOk(s: State) {
    && (s.recv.CRegistering? <==> s.rx.phase.Registering?)
    && ((s.recv.CCheck? && s.recv.again) <==> s.rx.phase.Registered?)
    && (s.recv.CPending? <==> s.rx.phase.Blocked?)
    && (!s.recv.Resting() ==> s.rx.cell.run.Polling?)
    && (!s.recv.Resting() && !s.recv.CRegistering? ==> P.Outside(s.rx, s.rx.poller))
    && (!s.recv.Resting() && !s.recv.CWaking? ==> P.Outside(s.tx, s.rx.poller))
    && s.tx.signals == (if s.recv.CSignal? then {s.rx.poller} else {})
    && (s.rx.ready <==> |s.ring.received| < |s.ring.sent|)
  }

  ghost predicate EndsInv(s: State) {
    TxOk(s) && RxOk(s) && RingMatches(s) && s.tx.poller != s.rx.poller
  }

  ghost predicate Inv(s: State) {
    P.Inv(s.tx) && P.Inv(s.rx) && R.Inv(s.ring) && EndsInv(s)
  }

  // ------------------------------------------------------------------ refinement of the ring and of the parking pattern, twice

  /** The step of the producer's parking system that an action performs, or none. */
  function TxAction(s: State, a: Action): Option<P.Action> {
    match a
    case EnvTx(e) => Some(e)
    case StartSend(_) => Some(P.Abandon)
    case GiveUpSend => Some(P.Abandon)
    case EndSendPoll(ready) => Some(P.CellStep(if ready then C.PollReady else C.PollPending))
    case SendStep =>
      (match s.send
       case SCheck(_, again) => if again then Some(P.CheckAgain(true)) else None
       case SPublish => Some(P.Consume(|s.ring.sent| + 1 < |s.ring.received| + s.ring.n))
       case SRegister(_) => Some(P.Register)
       case SRegistering(_) => Some(P.Return)
       case _ => None)
    case RecvStep =>
      if s.recv.CStore? then Some(P.MakeReady(s.rx.poller))
      else if s.recv.CSignal? then Some(P.Wake(s.rx.poller))
      else None
    case _ => None
  }

  /** And of the consumer's. */
  function RxAction(s: State, a: Action): Option<P.Action> {
    match a
    case EnvRx(e) => Some(e)
    case StartRecv => Some(P.Abandon)
    case GiveUpRecv => Some(P.Abandon)
    case EndRecvPoll(ready) => Some(P.CellStep(if ready then C.PollReady else C.PollPending))
    case RecvStep =>
      (match s.recv
       case CCheck(again) => if again then Some(P.CheckAgain(true)) else None
       case CStore => Some(P.Consume(|s.ring.received| + 1 < |s.ring.sent|))
       case CRegister => Some(P.Register)
       case CRegistering => Some(P.Return)
       case _ => None)
    case SendStep =>
      if s.send.SPublish? then Some(P.MakeReady(s.tx.poller))
      else if s.send.SSignal? then Some(P.Wake(s.tx.poller))
      else None
    case _ => None
  }

  ghost predicate Steps(p: P.State, e: Option<P.Action>, p': P.State) {
    match e
    case None => p' == p
    case Some(e) => P.Enabled(p, e) && p' == P.Exec(p, e)
  }

  lemma SenderRefines(s: State)
    requires EndsInv(s) && R.CountersOk(s.ring) && Enabled(s, SendStep)
    ensures Steps(s.tx, TxAction(s, SendStep), SenderStep(s).tx)
    ensures Steps(s.rx, RxAction(s, SendStep), SenderStep(s).rx)
  {
  }

  lemma ReceiverRefines(s: State)
    requires EndsInv(s) && R.CountersOk(s.ring) && Enabled(s, RecvStep)
    ensures Steps(s.tx, TxAction(s, RecvStep), ReceiverStep(s).tx)
    ensures Steps(s.rx, RxAction(s, RecvStep), ReceiverStep(s).rx)
  {
  }

  /** Every action is a step, or no step, of each parking system. */
  lemma RefinesParking(s: State, a: Action)
    requires Inv(s) && Enabled(s, a)
    ensures Steps(s.tx, TxAction(s, a), Exec(s, a).tx)
    ensures Steps(s.rx, RxAction(s, a), Exec(s, a).rx)
  {
    hide P.AW.Inv, P.C.Inv, P.ParkingOk, P.TaskOk, R.CountersOk, R.BufferOk, SenderStep, ReceiverStep, RingMatches;
    match a
    case SendStep => SenderRefines(s);
    case RecvStep => ReceiverRefines(s);
    case _ =>
  }

  lemma ParkKeepsInv(s: State, a: Action)
    requires Inv(s) && Enabled(s, a)
    ensures P.Inv(Exec(s, a).tx) && P.Inv(Exec(s, a).rx)
  {
    RefinesParking(s, a);
    var tx, rx := TxAction(s, a), RxAction(s, a);
    if tx.Some? { P.StepKeepsInv(s.tx, tx.value); }
    if rx.Some? { P.StepKeepsInv(s.rx, rx.value); }
  }

  lemma RingKeepsInv(s: State, a: Action)
    requires R.Inv(s.ring) && RingMatches(s) && Enabled(s, a)
    ensures R.Inv(Exec(s, a).ring)
  {
    if a.SendStep? {
      match s.send
      case SCheck(v, _) => R.BeginKeepsInv(s.ring, v);
      case SWrite => R.WriteKeepsInv(s.ring);
      case SPublish => R.StoreTailKeepsInv(s.ring);
      case _ =>
    } else if a.RecvStep? {
      match s.recv
      case CCheck(_) => R.BeginKeepsInv(s.ring, 0);
      case CRead => R.ReadKeepsInv(s.ring);
      case CStore => R.StoreHeadKeepsInv(s.ring);
      case _ =>
    }
  }

  // ------------------------------------------------------------------ the invariant is kept

  lemma EnvTxKeepsInv(s: State, e: P.Action)
    requires EndsInv(s) && P.TaskOk(s.tx) && Enabled(s, EnvTx(e))
    ensures EndsInv(Exec(s, EnvTx(e)))
  {
    hide P.TaskOk, R.Sized;
    P.StepKeepsThreads(s.tx, e);
    P.EnvKeepsTask(s.tx, e);
    hide P.Exec, P.Enabled, P.Outside;
    if !s.send.Resting() && !s.send.SRegistering? { P.StaysOutside(s.tx, e, s.tx.poller); }
    if !s.recv.Resting() && !s.recv.CWaking? { P.StaysOutside(s.tx, e, s.rx.poller); }
  }

  lemma EnvRxKeepsInv(s: State, e: P.Action)
    requires EndsInv(s) && P.TaskOk(s.rx) && Enabled(s, EnvRx(e))
    ensures EndsInv(Exec(s, EnvRx(e)))
  {
    hide P.TaskOk, R.Sized;
    P.StepKeepsThreads(s.rx, e);
    P.EnvKeepsTask(s.rx, e);
    hide P.Exec, P.Enabled, P.Outside;
    if !s.recv.Resting() && !s.recv.CRegistering? { P.StaysOutside(s.rx, e, s.rx.poller); }
    if !s.send.Resting() && !s.send.SWaking? { P.StaysOutside(s.rx, e, s.tx.poller); }
  }

  lemma SenderKeepsTx(s: State)
    requires EndsInv(s) && R.CountersOk(s.ring) && Enabled(s, SendStep)
    ensures TxOk(SenderStep(s))
  {
    R.ChecksAreExact(s.ring);
  }

  lemma SenderKeepsRx(s: State)
    requires EndsInv(s) && R.CountersOk(s.ring) && Enabled(s, SendStep)
    ensures RxOk(SenderStep(s))
  {
    hide TxOk;
  }

  lemma SenderKeepsMatch(s: State)
    requires EndsInv(s) && R.CountersOk(s.ring) && Enabled(s, SendStep)
    ensures RingMatches(SenderStep(s))
    ensures SenderStep(s).tx.poller == s.tx.poller && SenderStep(s).rx.poller == s.rx.poller
  {
  }

  lemma ReceiverKeepsTx(s: State)
    requires EndsInv(s) && R.CountersOk(s.ring) && Enabled(s, RecvStep)
    ensures TxOk(ReceiverStep(s))
  {
    hide RxOk;
  }

  lemma ReceiverKeepsRx(s: State)
    requires EndsInv(s) && R.CountersOk(s.ring) && Enabled(s, RecvStep)
    ensures RxOk(ReceiverStep(s))
  {
    R.ChecksAreExact(s.ring);
  }

  lemma ReceiverKeepsMatch(s: State)
    requires EndsInv(s) && R.CountersOk(s.ring) && Enabled(s, RecvStep)
    ensures RingMatches(ReceiverStep(s))
    ensures ReceiverStep(s).tx.poller == s.tx.poller && ReceiverStep(s).rx.poller == s.rx.poller
  {
    R.ChecksAreExact(s.ring);
  }

  lemma SenderTurnKeepsInv(s: State, a: Action)
    requires EndsInv(s) && P.TaskOk(s.tx) && Enabled(s, a) && (a.StartSend? || a.StopSend? || a.GiveUpSend? || a.EndSendPoll?)
    ensures EndsInv(Exec(s, a))
  {
    hide R.Sized;
  }

  lemma ReceiverTurnKeepsInv(s: State, a: Action)
    requires EndsInv(s) && P.TaskOk(s.rx) && Enabled(s, a) && (a.StartRecv? || a.StopRecv? || a.GiveUpRecv? || a.EndRecvPoll?)
    ensures EndsInv(Exec(s, a))
  {
    hide R.Sized;
  }

  lemma EndsKeepInv(s: State, a: Action)
    requires EndsInv(s) && P.TaskOk(s.tx) && P.TaskOk(s.rx) && R.CountersOk(s.ring) && Enabled(s, a)
    ensures EndsInv(Exec(s, a))
  {
    hide P.TaskOk, R.CountersOk, TxOk, RxOk, RingMatches, Enabled, SenderStep, ReceiverStep;
    match a
    case EnvTx(e) => EnvTxKeepsInv(s, e);
    case EnvRx(e) => EnvRxKeepsInv(s, e);
    case SendStep => SenderKeepsTx(s); SenderKeepsRx(s); SenderKeepsMatch(s);
    case RecvStep => ReceiverKeepsTx(s); ReceiverKeepsRx(s); ReceiverKeepsMatch(s);
    case _ =>
      if a.StartSend? || a.StopSend? || a.GiveUpSend? || a.EndSendPoll? {
        SenderTurnKeepsInv(s, a);
      } else {
        ReceiverTurnKeepsInv(s, a);
      }
  }

  lemma StepKeepsInv(s: State, a: Action)
    requires Inv(s) && Enabled(s, a)
    ensures Inv(Exec(s, a))
  {
    ParkKeepsInv(s, a);
    RingKeepsInv(s, a);
    EndsKeepInv(s, a);
  }

  lemma InitKeepsInv(n: nat, m: nat, threads: set<Tid>, producer: Tid, consumer: Tid)
    requires n < m && producer in threads && consumer in threads && producer != consumer
    ensures Inv(Init(n, m, threads, producer, consumer))
  {
    P.InitKeepsInv(threads, producer, n > 0);
    P.InitKeepsInv(threads, consumer, false);
    R.InitKeepsInv(n, m);
  }

  // ------------------------------------------------------------------ runs

  /** `script` interleaves both tasks, both cells' dispatching and stray wakes, from `s` to `last`. */
  ghost predicate Runs(s: State, script: seq<Action>, last: State)
    decreases |script|
  {
    if script == [] then s == last
    else Enabled(s, script[0]) && Runs(Exec(s, script[0]), script[1..], last)
  }

  lemma {:induction false} RunKeepsInv(s: State, script: seq<Action>, last: State)
    requires Inv(s) && Runs(s, script, last)
    ensures Inv(last)
    decreases |script|
  {
    if script != [] {
      StepKeepsInv(s, script[0]);
      RunKeepsInv(Exec(s, script[0]), script[1..], last);
    }
  }

  ghost predicate Reachable(n: nat, m: nat, s: State) {
    exists threads, producer, consumer, script ::
      && producer in threads && consumer in threads && producer != consumer
      && Runs(Init(n, m, threads, producer, consumer), script, s)
  }

  lemma {:induction false} RunKeepsSize(s: State, script: seq<Action>, last: State)
    requires Runs(s, script, last)
    ensures last.ring.n == s.ring.n && last.ring.m == s.ring.m
    decreases |script|
  {
    if script != [] {
      RunKeepsSize(Exec(s, script[0]), script[1..], last);
    }
  }

  lemma ReachableKeepsInv(n: nat, m: nat, s: State)
    requires n < m && Reachable(n, m, s)
    ensures Inv(s) && s.ring.n == n && s.ring.m == m
  {
    var threads, producer, consumer, script :|
      && producer in threads && consumer in threads && producer != consumer
      && Runs(Init(n, m, threads, producer, consumer), script, s);
    InitKeepsInv(n, m, threads, producer, consumer);
    RunKeepsInv(Init(n, m, threads, producer, consumer), script, s);
    RunKeepsSize(Init(n, m, threads, producer, consumer), script, s);
  }

  /** Both tasks are between polls, and nothing around either of them is in flight. */
  ghost predicate Quiescent(s: State) {
    && s.send.Resting() && s.recv.Resting()
    && (forall t :: t in s.tx.aw.pcs ==> P.Outside(s.tx, t))
    && (forall t :: t in s.rx.aw.pcs ==> P.Outside(s.rx, t))
    && s.tx.cell.entries == 0 && s.tx.cell.run.Rest?
    && s.rx.cell.entries == 0 && s.rx.cell.run.Rest?
  }

  /** In a quiescent system a parked receiver faces an empty buffer and a parked sender a full one. */
  lemma ParkedEndsHaveNothingToDo(n: nat, m: nat, s: State)
    requires n < m && Reachable(n, m, s) && Quiescent(s)
    ensures s.recv.CPending? ==> |s.ring.sent| == |s.ring.received|
    ensures s.send.SPending? ==> |s.ring.sent| == |s.ring.received| + n
  {
    ReachableKeepsInv(n, m, s);
    if s.recv.CPending? { P.ParkedTaskHasNothingToDoFrom(s.rx); }
    if s.send.SPending? { P.ParkedTaskHasNothingToDoFrom(s.tx); }
  }

  /** With at least one slot the two ends are never both stuck. */
  lemma EndsAreNeverBothStuck(n: nat, m: nat, s: State)
    requires 0 < n < m && Reachable(n, m, s) && Quiescent(s)
    ensures !(s.recv.CPending? && s.send.SPending?)
  {
    ParkedEndsHaveNothingToDo(n, m, s);
  }

  /** The composed channel delivers in order, under the same condition on wrap-around as the ring alone. */
  lemma ChannelIsFifo(n: nat, m: nat, s: State)
    requires 0 < n < m && Reachable(n, m, s)
    requires m % n == 0 || |s.ring.sent| < m
    ensures s.ring.received <= s.ring.sent
    ensures |s.ring.sent| <= |s.ring.received| + n
  {
    ReachableKeepsInv(n, m, s);
  }
}
