/**
  The in-process uORB broker, its publishers and one receiving task, composed with the
  waker slot, the cell and its queue.  A topic keeps the payload, the sequence number and
  the callback list behind three separate locks; each critical section is one step, and the
  list lock, which is held across a dispatch, is modelled as a lock.
 */
module Uorb {
  import opened Prelude
  import AW = AtomicWakers
  import C = Cells
  import P = Parking

  type Bytes = seq<bv8>

  const U32_MAX: nat := 0xFFFF_FFFF

  /** What a generation is published for. */
  datatype Kind = Advertise(thenPublish: bool) | Publish

  /** Next step of a thread inside `Publication::publish` or `advertise`, for publication `p` and sample `m`. */
  datatype PubPc =
    | PIdle
    | PWrite(p: nat, kind: Kind, m: Bytes)   // will copy the payload
    | PBump(p: nat, kind: Kind, m: Bytes)    // will increment the sequence number
    | PNotify(p: nat, kind: Kind, m: Bytes)  // will lock the callback list
    | PWake(p: nat, kind: Kind, m: Bytes)    // holds the lock, will call `AtomicWaker::wake` if the list says so
    | PWaking(p: nat, kind: Kind, m: Bytes)  // inside that call
    | PInstall(p: nat, kind: Kind, m: Bytes) // will install the handle by compare-exchange
  {
    predicate Signals() { PNotify? || PWake? }
    predicate Locks() { PWake? || PWaking? }
  }

  /** Next step of the receiving task. */
  datatype RecvPc =
    | RUser                              // outside `recv`
    | REnsure                            // first `try_recv`: will make sure the callback is registered
    | RRead(again: bool)                 // `sub_cb_update`: will read the sequence number
    | RTake(cur: nat)                    // saw `cur` ahead of `last_seen`; will copy the payload
    | RRegister                          // will call `register`
    | RRegistering                       // inside `register`
    | RPending                           // returns, or has returned, Pending

  /** A delivery: the generation it observed, the payload, and which data write that payload was. */
  datatype Delivery = Delivery(cur: nat, index: nat, payload: Bytes)

  /** `TopicState`, with every payload ever copied into `data` in order. */
  datatype Topic = Topic(
    zero: Bytes,          // the buffer before any write
    writes: seq<Bytes>,
    seqNo: nat,
    registered: bool,     // the receiver's callback is in the list
    lock: Option<Tid>,    // holder of the callback list
    calls: nat,           // callbacks made to the receiver
    advertised: nat,      // increments made by `advertise` ...
    published: nat)       // ... and by `publish`
  {
    function Data(): Bytes {
      if writes == [] then zero else writes[|writes| - 1]
    }
  }

  /** The task's subscription and its `SubCbInner`, with what was delivered and how many losses were drained. */
  datatype Subscriber = Subscriber(
    alive: bool,          // between its construction and its drop
    lastSeen: nat,
    lost: nat,
    drained: nat,
    overflowed: bool,     // some increment of `lost` went past u32::MAX
    deliveries: seq<Delivery>)

  datatype State = State(
    park: P.State,
    topic: Topic,
    handles: set<nat>,    // publications holding a handle
    pubs: map<Tid, PubPc>,
    recv: RecvPc,
    sub: Subscriber)

  function Init(threads: set<Tid>, poller: Tid, zero: Bytes): State {
    State(P.Init(threads, poller, false), Topic(zero, [], 0, false, None, 0, 0, 0), {}, map t | t in threads :: PIdle,
          RUser, Subscriber(false, 0, 0, 0, false, []))
  }

  datatype Action =
    | Env(a: P.Action)                             // slot, cell and queue steps
    | PubStart(t: Tid, p: nat, m: Bytes, publish: bool)
    | PubStep(t: Tid)
    | Unadvertise(p: nat)
    | StartRecv
    | RecvStep
    | StopTry                                      // a bare `try_recv` returns None
    | GiveUp                                       // the task drops a pending `recv` and goes on
    | DrainLost
    | EndPoll(ready: bool)
    | NewSub                                       // the task constructs a subscription ...
    | DropSub                                      // ... and drops it, with a `recv` on it if any
    | DropTask                                     // the finished task drops its subscription

  /** The thread is in none of the calls modelled here. */
  predicate Free(s: State, t: Tid) {
    P.Outside(s.park, t) && t in s.pubs && s.pubs[t].PIdle? && (t == s.park.poller ==> s.recv.RUser? || s.recv.RPending?)
  }

  /** The task's own code is running. */
  predicate InTask(s: State) {
    s.park.cell.run.Polling? && Free(s, s.park.poller)
  }

  predicate EnvEnabled(s: State, a: P.Action) {
    && P.Enabled(s.park, a)
    && (match a
        case CellStep(step) =>
          && !step.PollPending? && !step.PollReady? && !step.DropFuture?
          && (step.Wake? || step.Spawn? ==> Free(s, step.t))
        case Slot(t) => true
        case Call(t) => true
        case _ => false)
  }

  predicate Enabled(s: State, a: Action) {
    match a
    case Env(e) => EnvEnabled(s, e)
    case PubStart(t, p, m, publish) => Free(s, t)
    case PubStep(t) =>
      && t in s.pubs && !s.pubs[t].PIdle? && P.Outside(s.park, t)
      && (s.pubs[t].PNotify? ==> s.topic.lock.None?)
    case Unadvertise(p) => forall t :: t in s.pubs && !s.pubs[t].PIdle? ==> s.pubs[t].p != p
    case StartRecv => InTask(s) && s.sub.alive
    case RecvStep =>
      && s.park.cell.run.Polling? && P.Outside(s.park, s.park.poller)
      && !s.recv.RUser? && !s.recv.RPending?
      && (s.recv.REnsure? && !s.topic.registered ==> s.topic.lock.None?)
    case StopTry => s.recv.RRegister?
    case GiveUp => InTask(s) && s.recv.RPending?
    case DrainLost => InTask(s) && s.recv.RUser?
    case EndPoll(ready) => InTask(s) && (ready ==> s.recv.RUser?)
    case NewSub => InTask(s) && !s.sub.alive && s.recv.RUser?
    case DropSub => InTask(s) && s.sub.alive && s.topic.lock.None?
    case DropTask => s.park.cell.run.Dropping? && s.topic.lock.None?
  }

  function After(s: State, t: Tid, pc: PubPc): State {
    s.(pubs := s.pubs[t := pc])
  }

  /** Past the dispatch, an advertisement goes on to install its handle and a publication is done. */
  function Unlocked(pc: PubPc): PubPc
    requires !pc.PIdle?
  {
    if pc.kind.Publish? then PIdle else PInstall(pc.p, pc.kind, pc.m)
  }

  /** The sequence increment of a generation of kind `kind`. */
  function Bumped(topic: Topic, kind: Kind): Topic {
    if kind.Publish? then topic.(seqNo := topic.seqNo + 1, published := topic.published + 1)
    else topic.(seqNo := topic.seqNo + 1, advertised := topic.advertised + 1)
  }

  function PublisherStep(s: State, t: Tid): State
    requires Enabled(s, PubStep(t))
  {
    var pc := s.pubs[t];
    match pc
    case PWrite(p, kind, m) =>
      After(s.(topic := s.topic.(writes := s.topic.writes + [m])), t, PBump(p, kind, m))
    case PBump(p, kind, m) =>
      After(s.(topic := Bumped(s.topic, kind), park := P.Exec(s.park, P.MakeReady(t))), t, PNotify(p, kind, m))
    case PNotify(p, kind, m) => After(s.(topic := s.topic.(lock := Some(t))), t, PWake(p, kind, m))
    case PWake(p, kind, m) =>
      if s.topic.registered then
        After(s.(topic := s.topic.(calls := s.topic.calls + 1),
                 park := s.park.(aw := AW.WakeFetchOr(s.park.aw, t), signals := s.park.signals - {t})),
              t, PWaking(p, kind, m))
      else
        After(s.(topic := s.topic.(lock := None), park := s.park.(signals := s.park.signals - {t})), t, Unlocked(pc))
    case PWaking(_, _, _) => After(s.(topic := s.topic.(lock := None)), t, Unlocked(pc))
    case PInstall(p, kind, m) =>
      After(s.(handles := s.handles + {p}), t, if kind == Advertise(true) then PWrite(p, Publish, m) else PIdle)
  }

  /** `lost.fetch_add(u32::try_from(skipped).unwrap_or(MAX))` on a wrapping counter. */
  function AddLost(lost: nat, skipped: nat): nat {
    (lost + if skipped <= U32_MAX then skipped else U32_MAX) % (U32_MAX + 1)
  }

  /** `sub_cb_update` once it saw the newer generation `cur`. */
  function Deliver(topic: Topic, sub: Subscriber, cur: nat): Subscriber {
    var skipped := if cur > sub.lastSeen then cur - sub.lastSeen - 1 else 0;
    Subscriber(sub.alive, cur, AddLost(sub.lost, skipped), sub.drained, sub.overflowed || sub.lost + skipped > U32_MAX,
               sub.deliveries + [Delivery(cur, |topic.writes|, topic.Data())])
  }

  function ReceiverStep(s: State): State
    requires Enabled(s, RecvStep)
  {
    match s.recv
    case REnsure => s.(topic := s.topic.(registered := true), recv := RRead(false))
    case RRead(again) =>
      var next := if s.topic.seqNo > s.sub.lastSeen then RTake(s.topic.seqNo) else if again then RPending else RRegister;
      var phase := if !again then s.park.phase else if s.park.ready then P.Free else P.Blocked;
      s.(recv := next, park := s.park.(phase := phase))
    case RTake(cur) =>
      s.(sub := Deliver(s.topic, s.sub, cur), park := s.park.(ready := s.topic.seqNo > cur), recv := RUser)
    case RRegister => s.(recv := RRegistering, park := s.park.(aw := AW.RegisterCas(s.park.aw, s.park.poller), phase := P.Registering))
    case RRegistering => s.(recv := RRead(true), park := s.park.(phase := P.Registered))
    case _ => s
  }

  function Exec(s: State, a: Action): State
    requires Enabled(s, a)
  {
    match a
    case Env(e) =>
      s.(park := P.Exec(s.park, e), recv := if P.Begins(e) then RUser else s.recv)
    case PubStart(t, p, m, publish) =>
      if p in s.handles then (if publish then After(s, t, PWrite(p, Publish, m)) else s)
      else After(s, t, PWrite(p, Advertise(publish), m))
    case PubStep(t) => PublisherStep(s, t)
    case Unadvertise(p) => s.(handles := s.handles - {p})
    case StartRecv => s.(recv := REnsure, park := s.park.(phase := P.Free))
    case RecvStep => ReceiverStep(s)
    case StopTry => s.(recv := RUser)
    case GiveUp => s.(recv := RUser, park := s.park.(phase := P.Free))
    case DrainLost => s.(sub := s.sub.(drained := s.sub.drained + s.sub.lost, lost := 0))
    case EndPoll(ready) =>
      s.(park := s.park.(cell := C.Exec(s.park.cell, if ready then C.PollReady else C.PollPending),
                         phase := if ready then P.Free else s.park.phase))
    case NewSub =>
      s.(sub := Subscriber(true, 0, 0, 0, false, []),
         park := s.park.(ready := s.topic.seqNo > 0, aw := AW.RenewSlot(s.park.aw)))
    case DropSub =>
      s.(topic := s.topic.(registered := false), sub := s.sub.(alive := false), recv := RUser, park := s.park.(phase := P.Free))
    case DropTask => s.(topic := s.topic.(registered := false), sub := s.sub.(alive := false), park := s.park.(cell := C.Exec(s.park.cell, C.DropFuture)))
  }

  // ------------------------------------------------------------------ invariant

  function Signalling(pubs: map<Tid, PubPc>): set<Tid> {
    set t | t in pubs && pubs[t].Signals()
  }

  /** Publishers that have written and not yet counted their generation. */
  function Bumping(pubs: map<Tid, PubPc>): set<Tid> {
    set t | t in pubs && pubs[t].PBump?
  }

  ghost predicate PubOk(s: State, t: Tid)
    requires t in s.pubs
  {
    && (s.pubs[t].Locks() ==> s.topic.lock == Some(t))
    && (s.pubs[t].PWaking? ==> s.topic.registered)
    && (!s.pubs[t].PIdle? && !s.pubs[t].PWaking? ==> P.Outside(s.park, t))
    && (!s.pubs[t].PIdle? && t == s.park.poller ==> s.recv.RUser? || s.recv.RPending?)
    && (t in s.park.aw.pcs && !s.park.aw.pcs[t].Idle? ==>
          s.pubs[t].PWaking? || (t == s.park.poller && s.recv.RRegistering?))
  }

  ghost predicate RecvOk(s: State) {
    && (s.recv.RRegistering? <==> s.park.phase.Registering?)
    && (s.recv == RRead(true) <==> s.park.phase.Registered?)
    && (s.recv.RPending? <==> s.park.phase.Blocked?)
    && (!s.recv.RUser? && !s.recv.RPending? ==> s.park.cell.run.Polling?)
    && (!s.recv.RUser? && !s.recv.RPending? && !s.recv.RRegistering? ==> P.Outside(s.park, s.park.poller))
    && (!s.recv.RUser? && !s.recv.REnsure? ==> s.topic.registered)
    && (!s.recv.RUser? || s.topic.registered ==> s.sub.alive)
    && (s.recv.RTake? ==> s.sub.lastSeen < s.recv.cur <= s.topic.seqNo)
    && (s.park.ready <==> s.topic.seqNo > s.sub.lastSeen)
  }

  ghost predicate TopicOk(topic: Topic, pubs: map<Tid, PubPc>) {
    && (topic.lock.Some? ==> topic.lock.value in pubs && pubs[topic.lock.value].Locks())
    && |topic.writes| == topic.seqNo + |Bumping(pubs)|
    && topic.seqNo == topic.advertised + topic.published
  }

  ghost predicate DeliveriesOk(topic: Topic, sub: Subscriber) {
    && sub.lastSeen <= topic.seqNo
    && (forall i :: 0 <= i < |sub.deliveries| ==>
          && 0 < sub.deliveries[i].cur <= sub.deliveries[i].index <= |topic.writes|
          && sub.deliveries[i].payload == topic.writes[sub.deliveries[i].index - 1])
    && (forall i, j :: 0 <= i < j < |sub.deliveries| ==>
          sub.deliveries[i].cur < sub.deliveries[j].cur && sub.deliveries[i].index <= sub.deliveries[j].index)
    && sub.lastSeen == (if sub.deliveries == [] then 0 else sub.deliveries[|sub.deliveries| - 1].cur)
  }

  ghost predicate LossOk(sub: Subscriber) {
    && sub.lost <= U32_MAX
    && |sub.deliveries| + sub.drained + sub.lost <= sub.lastSeen
    && (sub.overflowed <==> |sub.deliveries| + sub.drained + sub.lost != sub.lastSeen)
  }

  ghost predicate PubsOk(s: State) {
    && s.pubs.Keys == s.park.aw.pcs.Keys
    && s.park.signals == Signalling(s.pubs)
    && (forall t :: t in s.pubs ==> PubOk(s, t))
  }

  ghost predicate BrokerInv(s: State) {
    PubsOk(s) && RecvOk(s) && TopicOk(s.topic, s.pubs) && DeliveriesOk(s.topic, s.sub) && LossOk(s.sub)
  }

  ghost predicate Inv(s: State) {
    P.Inv(s.park) && BrokerInv(s)
  }

  // ------------------------------------------------------------------ refinement of the parking pattern

  /** The step of the parking pattern that an action performs, or none. */
  function ParkAction(s: State, a: Action): Option<P.Action> {
    match a
    case Env(e) => Some(e)
    case PubStep(t) =>
      if t !in s.pubs then None
      else if s.pubs[t].PBump? then Some(P.MakeReady(t))
      else if s.pubs[t].PWake? then Some(if s.topic.registered then P.Wake(t) else P.Skip(t))
      else None
    case StartRecv => Some(P.Abandon)
    case RecvStep =>
      (match s.recv
       case RRead(again) => if again then Some(P.CheckAgain(true)) else None
       case RTake(cur) => Some(P.Consume(s.topic.seqNo > cur))
       case RRegister => Some(P.Register)
       case RRegistering => Some(P.Return)
       case _ => None)
    case EndPoll(ready) => Some(P.CellStep(if ready then C.PollReady else C.PollPending))
    case NewSub => Some(P.Renew(s.topic.seqNo > 0))
    case GiveUp => Some(P.Abandon)
    case DropSub => Some(P.Abandon)
    case DropTask => Some(P.CellStep(C.DropFuture))
    case _ => None
  }

  ghost predicate Refined(s: State, a: Action)
    requires Enabled(s, a)
  {
    match ParkAction(s, a)
    case None => Exec(s, a).park == s.park
    case Some(e) => P.Enabled(s.park, e) && Exec(s, a).park == P.Exec(s.park, e)
  }

  lemma PublisherRefines(s: State, t: Tid)
    requires RecvOk(s) && Enabled(s, PubStep(t)) && PubOk(s, t)
    ensures Refined(s, PubStep(t))
  {
  }

  lemma ReceiverRefines(s: State)
    requires RecvOk(s) && Enabled(s, RecvStep)
    requires s.park.phase.Free? || s.recv.RRegistering? || s.recv == RRead(true)
    ensures Refined(s, RecvStep)
  {
  }

  /** Every action is a step of the parking pattern, or leaves it alone. */
  lemma RefinesParking(s: State, a: Action)
    requires Inv(s) && Enabled(s, a)
    ensures Refined(s, a)
  {
    hide P.AW.Inv, P.C.Inv, P.ParkingOk, TopicOk, DeliveriesOk, LossOk, PubOk, PublisherStep, ReceiverStep;
    hide P.TaskOk, AW.RenewSlot, Signalling;
    match a
    case PubStep(t) => PublisherRefines(s, t);
    case RecvStep => ReceiverRefines(s);
    case StartRecv =>
    case EndPoll(ready) =>
    case GiveUp =>
    case NewSub =>
    case DropSub =>
    case DropTask =>
    case _ =>
  }

  lemma ParkKeepsInv(s: State, a: Action)
    requires Inv(s) && Enabled(s, a)
    ensures P.Inv(Exec(s, a).park)
  {
    RefinesParking(s, a);
    match ParkAction(s, a)
    case None =>
    case Some(e) => P.StepKeepsInv(s.park, e);
  }

  // ------------------------------------------------------------------ the invariant is kept

  lemma PubsAfter(pubs: map<Tid, PubPc>, t: Tid, pc: PubPc)
    requires t in pubs
    ensures Signalling(pubs[t := pc]) == if pc.Signals() then Signalling(pubs) + {t} else Signalling(pubs) - {t}
    ensures Bumping(pubs[t := pc]) == if pc.PBump? then Bumping(pubs) + {t} else Bumping(pubs) - {t}
    ensures t in Signalling(pubs) <==> pubs[t].Signals()
    ensures t in Bumping(pubs) <==> pubs[t].PBump?
  {
    var after := pubs[t := pc];
    assert Signalling(after) == if pc.Signals() then Signalling(pubs) + {t} else Signalling(pubs) - {t};
    assert Bumping(after) == if pc.PBump? then Bumping(pubs) + {t} else Bumping(pubs) - {t};
  }

  lemma EnvKeepsPub(s: State, e: P.Action, t: Tid)
    requires t in s.pubs && PubOk(s, t) && RecvOk(s) && s.park.aw.pcs.Keys == s.pubs.Keys
    requires P.TaskOk(s.park) && Enabled(s, Env(e))
    ensures PubOk(Exec(s, Env(e)), t)
  {
    P.StepKeepsThreads(s.park, e);
    if !s.pubs[t].PIdle? && !s.pubs[t].PWaking? { P.StaysOutside(s.park, e, t); }
    if s.park.aw.pcs[t].Idle? { P.EnvKeepsIdle(s.park, e, t); }
    P.EnvKeepsTask(s.park, e);
    hide P.Exec, P.Enabled, P.Outside, P.TaskOk;
  }

  lemma EnvKeepsRecv(s: State, e: P.Action)
    requires RecvOk(s) && P.TaskOk(s.park) && Enabled(s, Env(e))
    ensures RecvOk(Exec(s, Env(e)))
  {
    P.StepKeepsThreads(s.park, e);
    P.EnvKeepsTask(s.park, e);
    if !s.recv.RUser? && !s.recv.RPending? && !s.recv.RRegistering? { P.StaysOutside(s.park, e, s.park.poller); }
    hide P.Exec, P.Enabled, P.Outside, P.TaskOk;
  }

  lemma EnvKeepsInv(s: State, e: P.Action)
    requires BrokerInv(s) && P.TaskOk(s.park) && Enabled(s, Env(e))
    ensures BrokerInv(Exec(s, Env(e)))
  {
    P.StepKeepsThreads(s.park, e);
    P.EnvKeepsTask(s.park, e);
    EnvKeepsRecv(s, e);
    forall t | t in s.pubs
      ensures PubOk(Exec(s, Env(e)), t)
    {
      assert PubOk(s, t);
      EnvKeepsPub(s, e, t);
    }
    hide P.Exec, P.Enabled, P.TaskOk, PubOk, RecvOk;
  }

  lemma StartKeepsPubs(s: State, t: Tid, pc: PubPc)
    requires PubsOk(s) && TopicOk(s.topic, s.pubs) && Free(s, t) && pc.PWrite?
    ensures PubsOk(After(s, t, pc)) && TopicOk(s.topic, After(s, t, pc).pubs)
  {
    PubsAfter(s.pubs, t, pc);
    assert PubOk(s, t);
    forall u | u in s.pubs
      ensures PubOk(After(s, t, pc), u)
    {
      assert PubOk(s, u);
    }
  }

  lemma PubStartKeepsInv(s: State, t: Tid, p: nat, m: Bytes, publish: bool)
    requires BrokerInv(s) && Enabled(s, PubStart(t, p, m, publish))
    ensures BrokerInv(Exec(s, PubStart(t, p, m, publish)))
  {
    StartKeepsPubs(s, t, PWrite(p, if p in s.handles then Publish else Advertise(publish), m));
  }

  /** What a publisher's step does to the topic's counts and lock, and to the publishers' places. */
  lemma StepOfPublisher(s: State, t: Tid)
    requires Enabled(s, PubStep(t)) && PubOk(s, t)
    ensures var pc, s' := s.pubs[t], PublisherStep(s, t);
            && t in s'.pubs && s'.pubs == s.pubs[t := s'.pubs[t]]
            && (s'.pubs[t].PBump? <==> pc.PWrite?) && (s'.pubs[t].Signals() <==> pc.PBump? || pc.PNotify?)
            && |s'.topic.writes| == |s.topic.writes| + (if pc.PWrite? then 1 else 0)
            && s'.topic.seqNo == s.topic.seqNo + (if pc.PBump? then 1 else 0)
            && s'.topic.seqNo - s'.topic.advertised - s'.topic.published == s.topic.seqNo - s.topic.advertised - s.topic.published
            && (if s'.pubs[t].Locks() then s'.topic.lock == Some(t)
                else s'.topic.lock == if pc.Locks() then None else s.topic.lock)
  {
    hide P.Outside, P.Exec, AW.WakeFetchOr;
  }

  lemma PublisherKeepsTopic(s: State, t: Tid)
    requires TopicOk(s.topic, s.pubs) && Enabled(s, PubStep(t)) && PubOk(s, t)
    ensures TopicOk(PublisherStep(s, t).topic, PublisherStep(s, t).pubs)
  {
    StepOfPublisher(s, t);
    PubsAfter(s.pubs, t, PublisherStep(s, t).pubs[t]);
    hide PublisherStep, Enabled, Bumping, Signalling, P.Outside;
  }

  lemma PublisherKeepsPubs(s: State, t: Tid)
    requires PubsOk(s) && Enabled(s, PubStep(t)) && TopicOk(s.topic, s.pubs)
    ensures PubsOk(PublisherStep(s, t))
  {
    hide PubOk, P.Outside, Signalling;
    assert PubOk(s, t);
    PublisherKeepsSignals(s, t);
    hide PublisherStep;
    forall u | u in PublisherStep(s, t).pubs
      ensures PubOk(PublisherStep(s, t), u)
    {
      PublisherKeepsPub(s, t, u);
    }
  }

  lemma PublisherKeepsSignals(s: State, t: Tid)
    requires Enabled(s, PubStep(t)) && PubOk(s, t)
    requires s.pubs.Keys == s.park.aw.pcs.Keys && s.park.signals == Signalling(s.pubs)
    ensures PublisherStep(s, t).pubs.Keys == s.pubs.Keys == PublisherStep(s, t).park.aw.pcs.Keys
    ensures PublisherStep(s, t).park.signals == Signalling(PublisherStep(s, t).pubs)
  {
    StepOfPublisher(s, t);
    PubsAfter(s.pubs, t, PublisherStep(s, t).pubs[t]);
    hide Signalling, Bumping, P.Outside, PubOk;
  }

  lemma PublisherKeepsPub(s: State, t: Tid, u: Tid)
    requires Enabled(s, PubStep(t)) && PubOk(s, t) && u in s.pubs && PubOk(s, u)
    ensures u in PublisherStep(s, t).pubs && PubOk(PublisherStep(s, t), u)
  {
  }

  /** Further writes and increments take nothing away from past deliveries. */
  lemma DeliveriesOutliveWrites(topic: Topic, later: Topic, sub: Subscriber)
    requires DeliveriesOk(topic, sub) && topic.writes <= later.writes && topic.seqNo <= later.seqNo
    ensures DeliveriesOk(later, sub)
  {
  }

  lemma PublisherKeepsRecv(s: State, t: Tid)
    requires RecvOk(s) && s.sub.lastSeen <= s.topic.seqNo && Enabled(s, PubStep(t)) && PubOk(s, t)
    ensures RecvOk(PublisherStep(s, t))
  {
    if !s.recv.RUser? && !s.recv.RPending? && !s.recv.RRegistering? { assert P.Outside(PublisherStep(s, t).park, s.park.poller); }
    hide P.Outside, AW.WakeFetchOr;
  }

  lemma PublisherOnlyAdds(s: State, t: Tid)
    requires Enabled(s, PubStep(t))
    ensures PublisherStep(s, t).sub == s.sub
    ensures s.topic.writes <= PublisherStep(s, t).topic.writes
    ensures s.topic.seqNo <= PublisherStep(s, t).topic.seqNo
  {
  }

  lemma PublisherKeepsInv(s: State, t: Tid)
    requires BrokerInv(s) && Enabled(s, PubStep(t))
    ensures BrokerInv(Exec(s, PubStep(t)))
  {
    assert PubOk(s, t);
    PublisherKeepsTopic(s, t);
    PublisherKeepsPubs(s, t);
    PublisherKeepsRecv(s, t);
    PublisherOnlyAdds(s, t);
    DeliveriesOutliveWrites(s.topic, PublisherStep(s, t).topic, s.sub);
  }

  lemma DeliveryKeepsOrder(topic: Topic, sub: Subscriber, cur: nat)
    requires DeliveriesOk(topic, sub) && sub.lastSeen < cur <= topic.seqNo <= |topic.writes|
    ensures DeliveriesOk(topic, Deliver(topic, sub, cur))
  {
    hide AddLost;
    var sub' := Deliver(topic, sub, cur);
    var n := |sub.deliveries|;
    assert sub'.deliveries[n] == Delivery(cur, |topic.writes|, topic.Data());
    assert forall i :: 0 <= i < n ==> sub'.deliveries[i] == sub.deliveries[i];
    forall i, j | 0 <= i < j <= n
      ensures sub'.deliveries[i].cur < sub'.deliveries[j].cur && sub'.deliveries[i].index <= sub'.deliveries[j].index
    {
      if j == n && i < n - 1 {
        assert sub.deliveries[i].cur < sub.deliveries[n - 1].cur;
      }
    }
  }

  lemma DeliveryKeepsLoss(topic: Topic, sub: Subscriber, cur: nat)
    requires LossOk(sub) && sub.lastSeen < cur
    ensures LossOk(Deliver(topic, sub, cur))
  {
  }

  lemma ReceiverKeepsInv(s: State)
    requires BrokerInv(s) && Enabled(s, RecvStep)
    ensures BrokerInv(Exec(s, RecvStep))
  {
    hide PubOk, DeliveriesOk, LossOk;
    ReceiverKeepsPubs(s);
    hide PubsOk;
    if s.recv.RTake? {
      DeliveryFits(s.topic, s.sub);
      DeliveryKeepsOrder(s.topic, s.sub, s.recv.cur);
      DeliveryKeepsLoss(s.topic, s.sub, s.recv.cur);
    } else if s.recv.REnsure? {
      DeliveryFits(s.topic, s.sub);
      DeliveriesOutliveWrites(s.topic, ReceiverStep(s).topic, s.sub);
    }
  }

  lemma DeliveryFits(topic: Topic, sub: Subscriber)
    requires DeliveriesOk(topic, sub)
    ensures sub.lastSeen <= topic.seqNo
  {
  }

  lemma ReceiverKeepsPubs(s: State)
    requires PubsOk(s) && Enabled(s, RecvStep)
    ensures PubsOk(ReceiverStep(s))
  {
    hide Deliver;
    var s' := ReceiverStep(s);
    forall u | u in s.pubs
      ensures PubOk(s', u)
    {
      assert PubOk(s, u);
    }
  }

  lemma OtherKeepsInv(s: State, a: Action)
    requires BrokerInv(s) && P.TaskOk(s.park) && Enabled(s, a)
    requires a.Unadvertise? || a.StartRecv? || a.StopTry? || a.GiveUp? || a.DrainLost? || a.EndPoll? || a.NewSub? || a.DropSub? || a.DropTask?
    ensures BrokerInv(Exec(s, a))
  {
    hide PubsOk, RecvOk, DeliveriesOk, TopicOk;
    OtherKeepsPubs(s, a);
    OtherKeepsRecv(s, a);
    OtherKeepsTopic(s, a);
    if a.DropTask? || a.DropSub? {
      DrainingKeepsDeliveries(s.topic, s.sub, Exec(s, a).sub);
      DeliveryFits(s.topic, s.sub);
      DeliveriesOutliveWrites(s.topic, Exec(s, a).topic, Exec(s, a).sub);
    } else if a.NewSub? {
      NothingDelivered(s.topic, Exec(s, a).sub);
    } else if a.DrainLost? {
      DrainingKeepsDeliveries(s.topic, s.sub, Exec(s, a).sub);
    }
  }

  lemma OtherKeepsTopic(s: State, a: Action)
    requires TopicOk(s.topic, s.pubs) && Enabled(s, a)
    requires a.Unadvertise? || a.StartRecv? || a.StopTry? || a.GiveUp? || a.DrainLost? || a.EndPoll? || a.NewSub? || a.DropSub? || a.DropTask?
    ensures TopicOk(Exec(s, a).topic, Exec(s, a).pubs)
  {
  }

  lemma OtherKeepsRecv(s: State, a: Action)
    requires RecvOk(s) && P.TaskOk(s.park) && Enabled(s, a)
    requires a.Unadvertise? || a.StartRecv? || a.StopTry? || a.GiveUp? || a.DrainLost? || a.EndPoll? || a.NewSub? || a.DropSub? || a.DropTask?
    ensures RecvOk(Exec(s, a))
  {
  }

  lemma NothingDelivered(topic: Topic, sub: Subscriber)
    requires sub.lastSeen == 0 && sub.deliveries == []
    ensures DeliveriesOk(topic, sub)
  {
  }

  lemma NothingLost(sub: Subscriber)
    requires sub.lastSeen == sub.lost == sub.drained == 0 && sub.deliveries == [] && !sub.overflowed
    ensures LossOk(sub)
  {
  }

  lemma DrainingKeepsDeliveries(topic: Topic, sub: Subscriber, sub': Subscriber)
    requires DeliveriesOk(topic, sub) && sub'.lastSeen == sub.lastSeen && sub'.deliveries == sub.deliveries
    ensures DeliveriesOk(topic, sub')
  {
  }

  lemma OtherKeepsPubs(s: State, a: Action)
    requires PubsOk(s) && TopicOk(s.topic, s.pubs) && P.TaskOk(s.park) && Enabled(s, a)
    requires a.Unadvertise? || a.StartRecv? || a.StopTry? || a.GiveUp? || a.DrainLost? || a.EndPoll? || a.NewSub? || a.DropSub? || a.DropTask?
    ensures PubsOk(Exec(s, a))
  {
    var s' := Exec(s, a);
    forall u | u in s.pubs
      ensures PubOk(s', u)
    {
      assert PubOk(s, u);
    }
  }

  lemma StepKeepsInv(s: State, a: Action)
    requires Inv(s) && Enabled(s, a)
    ensures Inv(Exec(s, a))
  {
    ParkKeepsInv(s, a);
    hide BrokerInv, P.AW.Inv, P.C.Inv, P.ParkingOk, P.TaskOk, Exec, Enabled;
    match a
    case Env(e) => EnvKeepsInv(s, e);
    case PubStart(t, p, m, publish) => PubStartKeepsInv(s, t, p, m, publish);
    case PubStep(t) => PublisherKeepsInv(s, t);
    case RecvStep => ReceiverKeepsInv(s);
    case _ => OtherKeepsInv(s, a);
  }

  lemma InitKeepsInv(threads: set<Tid>, poller: Tid, zero: Bytes)
    requires poller in threads
    ensures Inv(Init(threads, poller, zero))
  {
    var s := Init(threads, poller, zero);
    P.InitKeepsInv(threads, poller, false);
    assert Signalling(s.pubs) == {} && Bumping(s.pubs) == {};
  }

  // ------------------------------------------------------------------ runs

  /** `script` is one interleaving of publishers, receiver, dispatcher and stray wakes from `s` to `last`. */
  ghost predicate Runs(s: State, script: seq<Action>, last: State)
    decreases |script|
  {
    if script == [] then s == last
    else Enabled(s, script[0]) && Runs(Exec(s, script[0]), script[1..], last)
  }

  lemma {:induction false} RunKeepsInv(s: State, script: seq<Action>, last: State)
    requires Inv(s) && Runs(s, script, last)
    ensures Inv(last)
    decreases |script|
  {
    if script != [] {
      StepKeepsInv(s, script[0]);
      RunKeepsInv(Exec(s, script[0]), script[1..], last);
    }
  }

  ghost predicate Reachable(s: State) {
    exists threads, poller, zero, script :: poller in threads && Runs(Init(threads, poller, zero), script, s)
  }

  lemma ReachableKeepsInv(s: State)
    requires Reachable(s)
    ensures Inv(s)
  {
    var threads, poller, zero, script :| poller in threads && Runs(Init(threads, poller, zero), script, s);
    InitKeepsInv(threads, poller, zero);
    RunKeepsInv(Init(threads, poller, zero), script, s);
  }

  /** No publish, no wake and no queued or current run is in flight. */
  ghost predicate Quiescent(s: State) {
    && (forall t :: t in s.pubs ==> s.pubs[t].PIdle? && P.Outside(s.park, t))
    && s.park.cell.entries == 0
    && s.park.cell.run.Rest?
  }

  /**
    End to end.  In every interleaving of any number of publishers, the receiving task and the
    dispatcher: if the receiver's last poll returned Pending and nothing is in flight, it has
    seen the latest generation, and the last payload delivered is the last one written.
   */
  lemma ParkedReceiverIsUpToDate(s: State)
    requires Reachable(s) && Quiescent(s) && s.recv.RPending?
    ensures s.sub.lastSeen == s.topic.seqNo == |s.topic.writes|
    ensures s.topic.writes != [] ==>
              && s.sub.deliveries != []
              && s.sub.deliveries[|s.sub.deliveries| - 1].payload == s.topic.writes[|s.topic.writes| - 1]
  {
    ReachableKeepsInv(s);
    assert Signalling(s.pubs) == {} && Bumping(s.pubs) == {};
    assert P.Quiescent(s.park);
    P.ParkedTaskHasNothingToDoFrom(s.park);
  }

  /**
    Freshness under split locks.  A delivery that observed generation `cur` carries the
    payload of the `cur`-th write or of a later one, and successive deliveries observe ever
    newer generations and never go back to an older write.
   */
  lemma DeliveriesAreFresh(s: State)
    requires Reachable(s)
    ensures forall i :: 0 <= i < |s.sub.deliveries| ==>
              var d := s.sub.deliveries[i];
              1 <= d.cur <= d.index <= |s.topic.writes| && d.payload == s.topic.writes[d.index - 1]
    ensures forall i, j :: 0 <= i < j < |s.sub.deliveries| ==>
              s.sub.deliveries[i].cur < s.sub.deliveries[j].cur && s.sub.deliveries[i].index <= s.sub.deliveries[j].index
    ensures s.topic.seqNo <= |s.topic.writes|
  {
    ReachableKeepsInv(s);
  }

  /**
    Losses are accounted for.  In every run every generation up to `last_seen` was delivered,
    drained as lost, or is pending as lost, if and only if no addition to the 32-bit loss
    counter has overflowed; after an overflow the account falls short.
   */
  lemma LossesAreConserved(s: State)
    requires Reachable(s)
    ensures |s.sub.deliveries| + s.sub.drained + s.sub.lost == s.sub.lastSeen <==> !s.sub.overflowed
    ensures |s.sub.deliveries| + s.sub.drained + s.sub.lost <= s.sub.lastSeen
    ensures s.sub.lastSeen <= s.topic.seqNo == s.topic.advertised + s.topic.published
  {
    ReachableKeepsInv(s);
  }

  /** A delivery keeps the account balanced exactly when the 32-bit counter has room for what it skipped. */
  lemma AccountBalancesIffCounterHasRoom(topic: Topic, sub: Subscriber, cur: nat)
    requires sub.lastSeen < cur && sub.lost <= U32_MAX
    requires |sub.deliveries| + sub.drained + sub.lost == sub.lastSeen
    ensures var sub' := Deliver(topic, sub, cur);
            |sub'.deliveries| + sub'.drained + sub'.lost == sub'.lastSeen <==> sub.lost + (cur - sub.lastSeen - 1) <= U32_MAX
  {
  }

  // ------------------------------------------------------------------ an overflow is reached

  lemma {:induction false} RunsConcat(s: State, a: seq<Action>, mid: State, b: seq<Action>, last: State)
    requires Runs(s, a, mid) && Runs(mid, b, last)
    ensures Runs(s, a + b, last)
    decreases |a|
  {
    hide Exec, Enabled;
    if a == [] {
      assert [] + b == b;
    } else {
      RunsConcat(Exec(s, a[0]), a[1..], mid, b, last);
      assert (a + b)[1..] == a[1..] + b;
    }
  }

  lemma OneAction(s: State, a: Action)
    requires Enabled(s, a)
    ensures Runs(s, [a], Exec(s, a))
  {
    assert [a][1..] == [];
  }

  /** Thread `t` can publish, and no subscription is listed. */
  ghost predicate Unheard(s: State, t: Tid) {
    Free(s, t) && t != s.park.poller && s.topic.lock.None? && !s.topic.registered && t !in s.park.signals
  }

  /** The middle of a generation, from the copy to the unlock, when no one is listed. */
  lemma Generate(s: State, t: Tid, pc: PubPc) returns (script: seq<Action>, last: State)
    requires Unheard(s.(pubs := s.pubs[t := PIdle]), t) && t in s.pubs && s.pubs[t] == pc && pc.PWrite?
    ensures Runs(s, script, last)
    ensures last == s.(topic := Bumped(s.topic.(writes := s.topic.writes + [pc.m]), pc.kind),
                       park := s.park.(ready := true), pubs := s.pubs[t := Unlocked(pc)])
  {
    var step := PubStep(t);
    var s1 := Exec(s, step);
    var s2 := Exec(s1, step);
    var s3 := Exec(s2, step);
    last := Exec(s3, step);
    assert s2.park.signals - {t} == s.park.signals;
    assert last.pubs == s.pubs[t := Unlocked(pc)];
    OneAction(s, step);
    OneAction(s1, step);
    OneAction(s2, step);
    OneAction(s3, step);
    hide Exec, Enabled;
    RunsConcat(s, [step], s1, [step], s2);
    RunsConcat(s, [step] + [step], s2, [step], s3);
    RunsConcat(s, [step] + [step] + [step], s3, [step], last);
    script := [step] + [step] + [step] + [step];
  }

  /** `n` publications by thread `t` on an advertised topic. */
  lemma {:induction false} PublishMany(s: State, t: Tid, p: nat, m: Bytes, n: nat) returns (script: seq<Action>, last: State)
    requires Unheard(s, t) && p in s.handles
    ensures Runs(s, script, last) && Unheard(last, t)
    ensures last.topic.seqNo == s.topic.seqNo + n && last.park == s.park.(ready := last.park.ready)
    ensures last.recv == s.recv && last.sub == s.sub
    ensures last.pubs == s.pubs
    decreases n
  {
    if n == 0 {
      script, last := [], s;
    } else {
      var start := PubStart(t, p, m, true);
      var s1 := Exec(s, start);
      OneAction(s, start);
      assert s1.pubs[t := PIdle] == s.pubs;
      var once, s2 := Generate(s1, t, PWrite(p, Publish, m));
      assert s2.pubs == s.pubs;
      var rest;
      rest, last := PublishMany(s2, t, p, m, n - 1);
      RunsConcat(s, [start], s1, once, s2);
      RunsConcat(s, [start] + once, s2, rest, last);
      script := [start] + once + rest;
    }
  }

  /** The first publication of `p`, up to the installed handle. */
  lemma AdvertiseOnce(s: State, t: Tid, p: nat, m: Bytes) returns (script: seq<Action>, last: State)
    requires Unheard(s, t) && p !in s.handles
    ensures Runs(s, script, last) && Unheard(last, t) && p in last.handles
    ensures last.topic.seqNo == s.topic.seqNo + 1 && last.park == s.park.(ready := true)
    ensures last.recv == s.recv && last.sub == s.sub && last.pubs == s.pubs
  {
    var start := PubStart(t, p, m, false);
    var s1 := Exec(s, start);
    OneAction(s, start);
    assert s1.pubs[t := PIdle] == s.pubs;
    var once, s2 := Generate(s1, t, PWrite(p, Advertise(false), m));
    last := Exec(s2, PubStep(t));
    OneAction(s2, PubStep(t));
    assert last.pubs == s.pubs;
    RunsConcat(s, [start], s1, once, s2);
    RunsConcat(s, [start] + once, s2, [PubStep(t)], last);
    script := [start] + once + [PubStep(t)];
  }

  /** One operation of a thread inside `try_spawn`. */
  lemma SpawnGoesOn(s: State, t: Tid) returns (last: State)
    requires t in s.park.cell.pcs && s.park.cell.pcs[t].Spawns()
    ensures last == s.(park := s.park.(cell := C.AdvanceThread(s.park.cell, t, true)))
    ensures Runs(s, [Env(P.CellStep(C.Advance(t, true)))], last)
  {
    var go := Env(P.CellStep(C.Advance(t, true)));
    last := Exec(s, go);
    OneAction(s, go);
  }

  /** The task is spawned: everything but the cell is as in a new system. */
  lemma TaskSpawns(threads: set<Tid>, poller: Tid, zero: Bytes) returns (script: seq<Action>, s: State)
    requires poller in threads
    ensures var s0 := Init(threads, poller, zero);
            && Runs(s0, script, s) && s == s0.(park := s0.park.(cell := s.park.cell))
            && s.park.cell.pcs == s0.park.cell.pcs
            && s.park.cell.entries == 1 && s.park.cell.run.Rest? && C.Spawned(s.park.cell.word)
  {
    var s0 := Init(threads, poller, zero);
    assert C.Active(s0.park.cell) == {};
    var spawn, go := Env(P.CellStep(C.Spawn(poller))), Env(P.CellStep(C.Advance(poller, true)));
    var s1 := Exec(s0, spawn);
    OneAction(s0, spawn);
    hide Exec, Enabled, Runs;
    var four, s5 := SpawnGoesFour(s1, poller);
    s := SpawnGoesOn(s5, poller);
    assert s.park.cell.pcs == s0.park.cell.pcs;
    hide Init;
    RunsConcat(s0, [spawn], s1, four, s5);
    RunsConcat(s0, [spawn] + four, s5, [go], s);
    script := [spawn] + four + [go];
  }

  /** From the won compare-exchange to the work item bound. */
  lemma SpawnGoesFour(s: State, t: Tid) returns (script: seq<Action>, last: State)
    requires t in s.park.cell.pcs && s.park.cell.pcs[t].SpawnWrite? && !s.park.cell.handle
    ensures Runs(s, script, last) && last == s.(park := s.park.(cell := last.park.cell))
    ensures last.park.cell == s.park.cell.(future := C.Live, writes := s.park.cell.writes + 1, handle := true,
                                           pcs := s.park.cell.pcs[t := C.SpawnSchedule])
  {
    var go := Env(P.CellStep(C.Advance(t, true)));
    var s2 := SpawnGoesOn(s, t);
    var s3 := SpawnGoesOn(s2, t);
    var s4 := SpawnGoesOn(s3, t);
    last := SpawnGoesOn(s4, t);
    assert last.park.cell.pcs == s.park.cell.pcs[t := C.SpawnSchedule];
    hide Exec, Enabled, Runs;
    RunsConcat(s, [go], s2, [go], s3);
    RunsConcat(s, [go] + [go], s3, [go], s4);
    RunsConcat(s, [go] + [go] + [go], s4, [go], last);
    script := [go] + [go] + [go] + [go];
  }

  /** A spawned task is polled and constructs its subscription. */
  lemma TaskBegins(s: State) returns (script: seq<Action>, last: State)
    requires s.park.cell.entries == 1 && s.park.cell.run.Rest? && C.Spawned(s.park.cell.word)
    requires Free(s, s.park.poller) && !s.sub.alive && s.recv.RUser? && !s.park.ready && s.park.aw.slot.None? && s.topic.seqNo == 0 && s.park.phase.Free?
    ensures Runs(s, script, last)
    ensures last == s.(sub := Subscriber(true, 0, 0, 0, false, []), park := s.park.(cell := last.park.cell))
    ensures last.park.cell.run.Polling? && last.park.cell.pcs == s.park.cell.pcs
  {
    var pop, begin := Env(P.CellStep(C.Pop)), Env(P.CellStep(C.Begin));
    var s1 := Exec(s, pop);
    OneAction(s, pop);
    var s2 := Exec(s1, begin);
    OneAction(s1, begin);
    last := Exec(s2, NewSub);
    OneAction(s2, NewSub);
    hide Exec, Enabled, Runs;
    RunsConcat(s, [pop], s1, [begin], s2);
    RunsConcat(s, [pop] + [begin], s2, [NewSub], last);
    script := [pop] + [begin] + [NewSub];
  }

  /** A delivery of the latest generation to a subscription that has seen none. */
  lemma ReceiveFirst(s: State) returns (script: seq<Action>, last: State)
    requires InTask(s) && s.recv.RUser? && s.sub == Subscriber(true, 0, 0, 0, false, [])
    requires s.topic.lock.None? && s.topic.seqNo > 0
    ensures Runs(s, script, last) && last.sub == Deliver(s.topic.(registered := true), s.sub, s.topic.seqNo)
  {
    var s1 := Exec(s, StartRecv);
    var s2 := Exec(s1, RecvStep);
    var s3 := Exec(s2, RecvStep);
    last := Exec(s3, RecvStep);
    OneAction(s, StartRecv);
    OneAction(s1, RecvStep);
    OneAction(s2, RecvStep);
    OneAction(s3, RecvStep);
    hide Exec, Enabled, Deliver;
    RunsConcat(s, [StartRecv], s1, [RecvStep], s2);
    RunsConcat(s, [StartRecv] + [RecvStep], s2, [RecvStep], s3);
    RunsConcat(s, [StartRecv] + [RecvStep] + [RecvStep], s3, [RecvStep], last);
    script := [StartRecv] + [RecvStep] + [RecvStep] + [RecvStep];
  }

  /** A first delivery at generation 2^32 + 1 or later skips more than the counter holds. */
  lemma FirstDeliveryOverflows(topic: Topic, sub: Subscriber, cur: nat)
    requires sub == Subscriber(true, 0, 0, 0, false, []) && cur > U32_MAX + 1
    ensures Deliver(topic, sub, cur).overflowed
  {
  }

  /** A task whose subscription has been listening to no one for more than 2^32 generations. */
  lemma LongSilence(threads: set<Tid>, poller: Tid, t: Tid, m: Bytes) returns (script: seq<Action>, s: State)
    requires poller in threads && t in threads && t != poller
    ensures Runs(Init(threads, poller, m), script, s)
    ensures InTask(s) && s.recv.RUser? && s.sub == Subscriber(true, 0, 0, 0, false, [])
    ensures s.topic.lock.None? && s.topic.seqNo > U32_MAX + 1
  {
    hide Runs, Exec, Enabled;
    var s0 := Init(threads, poller, m);
    var a, s1 := TaskSpawns(threads, poller, m);
    var b, s2 := TaskBegins(s1);
    assert Unheard(s2, t) && Free(s2, poller);
    hide Init;
    var c, s3 := AdvertiseOnce(s2, t, 0, m);
    var d;
    d, s := PublishMany(s3, t, 0, m, U32_MAX + 1);
    RunsConcat(s0, a, s1, b, s2);
    RunsConcat(s0, a + b, s2, c, s3);
    RunsConcat(s0, a + b + c, s3, d, s);
    script := a + b + c + d;
  }

  /** The overflow does happen: a subscription left alone for more than 2^32 generations loses count. */
  lemma LossesCanOverflow(m: Bytes) returns (s: State)
    ensures Reachable(s) && s.sub.overflowed
    ensures |s.sub.deliveries| + s.sub.drained + s.sub.lost != s.sub.lastSeen
  {
    hide Runs, Init, Deliver;
    var a, s1 := LongSilence({0, 1}, 0, 1, m);
    var b;
    b, s := ReceiveFirst(s1);
    FirstDeliveryOverflows(s1.topic.(registered := true), s1.sub, s1.topic.seqNo);
    RunsConcat(Init({0, 1}, 0, m), a, s1, b, s);
    assert Reachable(s);
    LossesAreConserved(s);
  }

  /** No thread is inside a call on the waker of a task that is in none of its own and has no subscription. */
  lemma NoneInsideSlot(s: State, t: Tid)
    requires Inv(s) && Enabled(s, NewSub) && t in s.park.aw.pcs
    ensures s.park.aw.pcs[t].Idle?
  {
    hide P.Inv, TopicOk, DeliveriesOk, LossOk;
    assert PubOk(s, t);
  }

  lemma OwnerIsInside(aw: AW.State)
    requires AW.Inv(aw)
    ensures aw.word != AW.WAITING ==> exists t :: t in aw.pcs && !aw.pcs[t].Idle?
  {
    if aw.owner.Some? {
      assert AW.ThreadOk(aw, aw.owner.value);
      assert !aw.pcs[aw.owner.value].Idle?;
    }
  }

  /** A new subscription starts with an empty waker slot: no wake of an earlier one is under way, and its waker is gone. */
  lemma NewSubscriptionHasEmptySlot(s: State)
    requires Reachable(s) && Enabled(s, NewSub)
    ensures s.park.aw.word == AW.WAITING
    ensures Exec(s, NewSub).park.aw.slot == None
  {
    ReachableKeepsInv(s);
    hide AW.Inv, AW.CallsOk;
    forall t | t in s.park.aw.pcs
      ensures s.park.aw.pcs[t].Idle?
    {
      NoneInsideSlot(s, t);
    }
    OwnerIsInside(s.park.aw);
  }

  /** The list lock freezes the list for everyone but its holder. */
  lemma LockFreezesList(s: State, t: Tid, a: Action)
    requires s.topic.lock == Some(t) && t in s.pubs && s.pubs[t].Locks() && Enabled(s, a)
    requires forall u :: u in s.pubs ==> PubOk(s, u)
    ensures Exec(s, a).topic.registered == s.topic.registered
  {
    hide P.Exec, P.Enabled, P.Outside, PubOk;
  }

  /**
    While a publisher dispatches, the subscription that owns the waker cannot be dropped: no
    other thread registers or unregisters it, and none else dispatches.
   */
  lemma SubscriptionOutlivesDispatch(s: State, t: Tid, a: Action)
    requires Reachable(s) && t in s.pubs && s.pubs[t].Locks()
    ensures s.pubs[t].PWaking? ==> s.topic.registered && s.sub.alive
    ensures Enabled(s, a) ==> Exec(s, a).topic.registered == s.topic.registered
    ensures !Enabled(s, DropTask) && !Enabled(s, DropSub)
    ensures forall u :: u in s.pubs && s.pubs[u].Locks() ==> u == t
  {
    hide P.Inv, TopicOk, DeliveriesOk, LossOk;
    ReachableKeepsInv(s);
    assert PubOk(s, t);
    assert forall u :: u in s.pubs ==> PubOk(s, u);
    if Enabled(s, a) { LockFreezesList(s, t, a); }
    hide Exec;
  }
}
