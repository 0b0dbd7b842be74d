/**
  `Channel` as code: the ring with its two wakers, each seen with the cell of the task that
  parks on it, and the futures `Send` and `Recv`.  Between two operations the other end and
  any other thread may do what module Channels allows them; `OthersMeetContract` shows that
  the contracts say no more.
 */
module ChannelEnds {
  import opened Prelude
  import AW = AtomicWakers
  import C = Cells
  import P = Parking
  import R = Ring
  import S = Channels

  // ------------------------------------------------------------------ the interference contracts are those of the system

  /** The thread that performs an action. */
  function Actor(producer: Tid, consumer: Tid, a: S.Action): Tid {
    match a
    case EnvTx(e) => P.Actor(producer, e)
    case EnvRx(e) => P.Actor(consumer, e)
    case StartSend(_) => producer
    case SendStep => producer
    case StopSend => producer
    case GiveUpSend => producer
    case EndSendPoll(_) => producer
    case _ => consumer
  }

  lemma StepKeepsActor(s: S.State, a: S.Action)
    requires S.Enabled(s, a)
    ensures S.TxAction(s, a).Some? ==> P.Actor(s.tx.poller, S.TxAction(s, a).value) == Actor(s.tx.poller, s.rx.poller, a)
    ensures S.RxAction(s, a).Some? ==> P.Actor(s.rx.poller, S.RxAction(s, a).value) == Actor(s.tx.poller, s.rx.poller, a)
    ensures S.Exec(s, a).tx.poller == s.tx.poller && S.Exec(s, a).rx.poller == s.rx.poller
  {
    hide P.Outside, C.Exec, AW.Exec;
  }

  lemma SenderMeetsRing(s: S.State)
    requires S.RingMatches(s) && S.Enabled(s, S.SendStep) && R.Inv(S.SenderStep(s).ring)
    ensures R.ConsumerRely(s.ring, S.SenderStep(s).ring)
  {
    hide P.Outside, R.Inv, R.HasRoom, S.Registered, S.BegunWake, S.Checked, S.Signalled;
  }

  lemma ReceiverMeetsRing(s: S.State)
    requires S.RingMatches(s) && S.Enabled(s, S.RecvStep) && R.Inv(S.ReceiverStep(s).ring)
    ensures R.ProducerRely(s.ring, S.ReceiverStep(s).ring)
  {
    hide P.Outside, R.Inv, S.Registered, S.BegunWake, S.Checked, S.Signalled;
  }

  lemma StepMeetsRing(s: S.State, a: S.Action)
    requires S.Inv(s) && S.Enabled(s, a)
    ensures Actor(s.tx.poller, s.rx.poller, a) != s.tx.poller ==> R.ProducerRely(s.ring, S.Exec(s, a).ring)
    ensures Actor(s.tx.poller, s.rx.poller, a) != s.rx.poller ==> R.ConsumerRely(s.ring, S.Exec(s, a).ring)
  {
    S.RingKeepsInv(s, a);
    hide P.Exec, P.Enabled, P.Outside, P.Inv, P.Actor, R.Inv, S.TxOk, S.RxOk, S.SenderStep, S.ReceiverStep, S.RingMatches;
    hide C.Exec, S.Ended;
    match a
    case SendStep => SenderMeetsRing(s);
    case RecvStep => ReceiverMeetsRing(s);
    case _ =>
  }

  lemma EndsKnow(s: S.State)
    requires S.Inv(s)
    ensures P.Inv(s.tx) && P.Inv(s.rx) && R.Inv(s.ring)
    ensures s.tx.ready <==> |s.ring.sent| < |s.ring.received| + s.ring.n
    ensures s.rx.ready <==> |s.ring.received| < |s.ring.sent|
  {
  }

  /** One more step at the front of the run of a chain. */
  lemma Prepend(s: P.State, e: Option<P.Action>, mid: P.State, rest: seq<P.Action>, last: P.State, t: Tid)
    returns (steps: seq<P.Action>)
    requires S.Steps(s, e, mid) && P.Runs(mid, rest, last) && mid.poller == s.poller
    requires e.Some? ==> P.Actor(s.poller, e.value) != t
    requires forall i :: 0 <= i < |rest| ==> P.Actor(s.poller, rest[i]) != t
    ensures P.Runs(s, steps, last) && forall i :: 0 <= i < |steps| ==> P.Actor(s.poller, steps[i]) != t
  {
    hide P.Exec, P.Enabled;
    steps := rest;
    if e.Some? {
      steps := [e.value] + rest;
      assert steps[1..] == rest;
    }
  }

  /**
    The interference contracts of the class below are justified.  Every run of the composed
    system in which thread `t` does nothing is a run of each wake chain in which it does
    nothing, treats the ring as the other end does, and ends with each task waiting for just
    what the ring can give it.
   */
  lemma {:induction false} OthersMeetContract(s: S.State, script: seq<S.Action>, last: S.State, t: Tid)
    returns (onTx: seq<P.Action>, onRx: seq<P.Action>)
    requires S.Inv(s) && S.Runs(s, script, last)
    requires forall i :: 0 <= i < |script| ==> Actor(s.tx.poller, s.rx.poller, script[i]) != t
    ensures P.Runs(s.tx, onTx, last.tx) && P.Rely(s.tx, last.tx, t)
    ensures P.Runs(s.rx, onRx, last.rx) && P.Rely(s.rx, last.rx, t)
    ensures forall i :: 0 <= i < |onTx| ==> P.Actor(s.tx.poller, onTx[i]) != t
    ensures forall i :: 0 <= i < |onRx| ==> P.Actor(s.rx.poller, onRx[i]) != t
    ensures t == s.tx.poller ==> R.ProducerRely(s.ring, last.ring)
    ensures t == s.rx.poller ==> R.ConsumerRely(s.ring, last.ring)
    ensures last.tx.ready <==> |last.ring.sent| < |last.ring.received| + last.ring.n
    ensures last.rx.ready <==> |last.ring.received| < |last.ring.sent|
    ensures last.tx.poller == s.tx.poller && last.rx.poller == s.rx.poller
    decreases |script|
  {
    hide S.Inv, S.Exec, S.Enabled, S.Steps, S.TxAction, S.RxAction, P.Inv, P.Exec, P.Enabled, P.Rely, P.Actor, Actor, R.Inv;
    if script == [] {
      onTx, onRx := [], [];
    } else {
      var a, next := script[0], S.Exec(s, script[0]);
      S.StepKeepsInv(s, a);
      StepMeetsRing(s, a);
      StepKeepsActor(s, a);
      S.RefinesParking(s, a);
      onTx, onRx := OthersMeetContract(next, script[1..], last, t);
      onTx := Prepend(s.tx, S.TxAction(s, a), next.tx, onTx, last.tx, t);
      onRx := Prepend(s.rx, S.RxAction(s, a), next.rx, onRx, last.rx, t);
    }
    EndsKnow(s);
    P.OthersSatisfyRely(s.tx, onTx, last.tx, t);
    P.OthersSatisfyRely(s.rx, onRx, last.rx, t);
  }

  // ------------------------------------------------------------------ the channel

  /** The actions by which thread `t` makes a condition true and signals it with one call of `wake`. */
  predicate Signals(steps: seq<P.Action>, t: Tid) {
    |steps| >= 1 && steps[0] == P.MakeReady(t) && P.Waking(steps[1..], t)
  }

  lemma SignalsWith(rest: seq<P.Action>, t: Tid)
    requires P.Within(rest, t)
    ensures Signals([P.MakeReady(t)] + ([P.Wake(t)] + rest), t)
  {
    assert ([P.MakeReady(t)] + ([P.Wake(t)] + rest))[1..] == [P.Wake(t)] + rest;
    assert ([P.Wake(t)] + rest)[1..] == rest;
  }

  class Channel {
    const ring: R.Channel
    const tx: P.WakeChain            // `send_waker`, with the cell of the producer's task
    const rx: P.WakeChain            // `recv_waker`, with the cell of the consumer's

    ghost function Repr(): set<object> {
      {ring, ring.buf, tx, tx.waker, tx.cell, rx, rx.waker, rx.cell}
    }

    ghost predicate Valid()
      reads Repr()
    {
      && ring.Valid() && tx.Valid() && rx.Valid()
      && tx.sys.poller == tx.poller && rx.sys.poller == rx.poller
      && tx != rx && tx.waker != rx.waker && tx.cell != rx.cell && tx.poller != rx.poller
    }

    ghost predicate Space()
      reads ring
    {
      |ring.ring.sent| < |ring.ring.received| + ring.n
    }

    ghost predicate Items()
      reads ring
    {
      |ring.ring.received| < |ring.ring.sent|
    }

    /** As the producer sees the channel: its task waits for room. */
    ghost predicate SenderView()
      reads Repr()
    {
      Valid() && (tx.sys.ready <==> Space())
    }

    /** As the consumer sees it: its task waits for an item. */
    ghost predicate ReceiverView()
      reads Repr()
    {
      Valid() && (rx.sys.ready <==> Items())
    }

    constructor (n: nat, m: nat, ghost threads: set<Tid>, ghost producer: Tid, ghost consumer: Tid)
      requires n < m && producer in threads && consumer in threads && producer != consumer
      ensures SenderView() && ReceiverView() && fresh(Repr())
      ensures ring.ring == R.Init(n, m)
      ensures tx.sys == P.Init(threads, producer, n > 0) && rx.sys == P.Init(threads, consumer, false)
    {
      hide P.WakeChain.Valid, P.WakeChain.Mine, P.Inv, R.Inv, R.Channel.Valid, AW.Init, C.Init;
      ring := new R.Channel(n, m);
      tx := new P.WakeChain(threads, producer, n > 0);
      rx := new P.WakeChain(threads, consumer, false);
    }

    /** The thread is in none of the calls on either waker or cell. */
    ghost predicate Outside(t: Tid)
      reads tx, rx
    {
      P.At(tx.sys, t, AW.Idle, C.Idle) && P.At(rx.sys, t, AW.Idle, C.Idle)
    }

    /** Both chains have only grown, thread `t` having added these actions. */
    twostate predicate Added(t: Tid, new onTx: seq<P.Action>, new onRx: seq<P.Action>)
      reads tx, rx
    {
      && old(tx.trail) <= tx.trail && tx.Mine(t) == old(tx.Mine(t)) + onTx
      && old(rx.trail) <= rx.trail && rx.Mine(t) == old(rx.Mine(t)) + onRx
    }

    /** The producer has sent these values and is at rest, and its task is still in the same run. */
    twostate predicate Sent(new vs: seq<R.Item>)
      reads ring, tx
    {
      && ring.ring.sent == old(ring.ring.sent) + vs && old(ring.ring.received) <= ring.ring.received
      && ring.ring.p.NoSend? && tx.sys.cell.run == old(tx.sys.cell.run)
    }

    /** The consumer has received these. */
    twostate predicate Received(new vs: seq<R.Item>)
      reads ring, rx
    {
      && ring.ring.received == old(ring.ring.received) + vs && old(ring.ring.sent) <= ring.ring.sent
      && ring.ring.c.NoRecv? && rx.sys.cell.run == old(rx.sys.cell.run)
    }

    /** Actions of the consumer and of third threads between two operations of the producer. */
    method ConsumerRuns(ghost t: Tid)
      requires SenderView() && t == tx.poller
      modifies Repr()
      ensures SenderView() && R.ProducerRely(old(ring.ring), ring.ring)
      ensures P.Rely(old(tx.sys), tx.sys, t) && P.Rely(old(rx.sys), rx.sys, t)
      ensures Added(t, [], [])
    {
      hide P.WakeChain.Mine, P.Inv, R.Inv, P.Runs;
    }

    /** Actions of the producer and of third threads between two operations of the consumer. */
    method ProducerRuns(ghost t: Tid)
      requires ReceiverView() && t == rx.poller
      modifies Repr()
      ensures ReceiverView() && R.ConsumerRely(old(ring.ring), ring.ring)
      ensures P.Rely(old(tx.sys), tx.sys, t) && P.Rely(old(rx.sys), rx.sys, t)
      ensures Added(t, [], [])
    {
      hide P.WakeChain.Mine, P.Inv, R.Inv, P.Runs;
    }

    lemma StagesFit()
      requires ring.Valid()
      ensures R.Inv(ring.ring) && ring.ring.n == ring.n && ring.ring.m == ring.m
      ensures ring.ring.p.Publishing? ==> Space()
      ensures ring.ring.c.Storing? ==> Items()
      ensures |ring.ring.received| <= |ring.ring.sent| <= |ring.ring.received| + ring.n
    {
    }

    // ---------------------------------------------------------------- the producer's end

    /** The check of `try_send`: the first one or, `again`, the one after registering. */
    method CheckSpace(ghost t: Tid, ghost v: R.Item, ghost again: bool) returns (room: bool)
      requires SenderView() && t == tx.poller && Outside(t) && ring.ring.p.NoSend?
      requires tx.sys.phase == if again then P.Registered else P.Free
      modifies ring, tx
      ensures SenderView() && Outside(t) && room == old(Space())
      ensures ring.ring == old(ring.ring).(p := if room then R.Writing(v) else R.NoSend)
      ensures tx.sys == old(tx.sys).(phase := if again && !room then P.Blocked else P.Free)
      ensures Added(t, if again then [P.CheckAgain(true)] else [], [])
    {
      hide P.WakeChain.Valid, P.WakeChain.Mine, P.Inv, P.At, R.Inv, R.Channel.Valid;
      room := ring.StartSend(v);
      if again { tx.Checked(t); }
    }

    /** The write of the slot that the check has found free. */
    method Write(ghost t: Tid, v: R.Item)
      requires SenderView() && t == tx.poller && ring.ring.p == R.Writing(v)
      modifies ring, ring.buf
      ensures SenderView() && ring.ring == old(ring.ring).(p := R.Publishing(v), buf := ring.ring.buf)
    {
      hide P.WakeChain.Valid, P.WakeChain.Mine, P.Inv, R.Inv, R.Channel.Valid;
      ring.Write(v);
    }

    /** The store of `tail`: the consumer's task has something to do, and the caller owes it a signal. */
    method Put(ghost t: Tid) returns (left: bool)
      requires SenderView() && t == tx.poller && Outside(t) && ring.ring.p.Publishing? && tx.sys.phase.Free?
      modifies ring, tx, rx
      ensures SenderView() && Outside(t) && Items() && ring.ring.p.NoSend?
      ensures ring.ring.sent == old(ring.ring.sent + [ring.ring.p.v]) && ring.ring.received == old(ring.ring.received)
      ensures tx.sys == old(tx.sys).(ready := left)
      ensures rx.sys == old(rx.sys).(ready := true, signals := rx.sys.signals)
      ensures Added(t, [P.Consume(left)], [P.MakeReady(t)])
    {
      hide P.WakeChain.Valid, P.WakeChain.Mine, P.Inv, R.Inv, R.Channel.Valid;
      StagesFit();
      ring.Publish();
      left := ring.HasSpace();
      tx.ShadowsReady();
      tx.Consume(t, left);
      rx.MakeReady(t);
    }

    /** `recv_waker.wake()`. */
    method WakeReceiver(ghost t: Tid) returns (ghost steps: seq<P.Action>)
      requires SenderView() && t == tx.poller && Outside(t)
      modifies rx, rx.waker, rx.cell
      ensures SenderView() && Outside(t) && t !in rx.sys.signals
      ensures P.Within(steps, t) && Added(t, [], [P.Wake(t)] + steps)
    {
      hide P.WakeChain.Valid, P.WakeChain.Mine, P.Inv, P.At, P.Within, R.Inv, R.Channel.Valid;
      steps := rx.Wake(t);
    }

    /** The end of `try_send`: store `tail`, and after that wake the consumer. */
    method Announce(ghost t: Tid) returns (ghost left: bool, ghost steps: seq<P.Action>)
      requires SenderView() && t == tx.poller && Outside(t) && ring.ring.p.Publishing? && tx.sys.phase.Free?
      modifies Repr()
      ensures Signals(steps, t) && Added(t, [P.Consume(left)], steps) && Sent([old(ring.ring.p.v)])
      ensures SenderView() && Outside(t) && t !in rx.sys.signals && tx.sys.phase.Free?
    {
      hide P.WakeChain.Valid, P.WakeChain.Mine, P.Inv, P.At, P.Within, R.Inv, R.Channel.Valid, Signals;
      ghost var onRx := rx.Mine(t);
      left := Put(t);
      ghost var rest := WakeReceiver(t);
      ConsumerRuns(t);
      Regroup(onRx, [P.MakeReady(t)], [P.Wake(t)] + rest);
      steps := [P.MakeReady(t)] + ([P.Wake(t)] + rest);
      SignalsWith(rest, t);
    }

    /** `try_send` once it has found room: write the slot, and after that publish and wake. */
    method Deliver(ghost t: Tid, v: R.Item) returns (ghost left: bool, ghost steps: seq<P.Action>)
      requires SenderView() && t == tx.poller && Outside(t) && ring.ring.p == R.Writing(v) && tx.sys.phase.Free?
      modifies Repr()
      ensures Signals(steps, t) && Added(t, [P.Consume(left)], steps) && Sent([v])
      ensures SenderView() && Outside(t) && t !in rx.sys.signals && tx.sys.phase.Free?
    {
      hide P.WakeChain.Valid, P.WakeChain.Mine, P.Inv, P.At, R.Inv, R.Channel.Valid, Signals;
      ConsumerRuns(t);
      Write(t, v);
      ConsumerRuns(t);
      left, steps := Announce(t);
    }

    /**
      One `try_send`: the first or, `again`, the one after registering.  It succeeds exactly if
      the ring had room in state `seen`; then `v` is the next value sent, and the consumer is
      woken after that.  Otherwise `v` comes back, nothing was sent and no one is woken.
     */
    method Try(ghost t: Tid, v: R.Item, ghost again: bool)
      returns (result: Result<(), R.Item>, ghost seen: R.State, ghost onTx: seq<P.Action>, ghost onRx: seq<P.Action>)
      requires SenderView() && t == tx.poller && Outside(t) && ring.ring.p.NoSend?
      requires tx.sys.phase == if again then P.Registered else P.Free
      modifies Repr()
      ensures Added(t, onTx, onRx) && Sent(if result.Ok? then [v] else []) && (result.Err? ==> result.error == v)
      ensures R.ProducerRely(old(ring.ring), seen)
      ensures result.Ok? <==> |seen.sent| < |seen.received| + ring.n
      ensures P.Checks(onTx, again, result.Ok?) && if result.Ok? then Signals(onRx, t) && t !in rx.sys.signals else onRx == []
      ensures SenderView() && Outside(t) && tx.sys.phase == if again && result.Err? then P.Blocked else P.Free
    {
      hide P.WakeChain.Valid, P.WakeChain.Mine, P.Inv, P.At, R.Inv, R.Channel.Valid, Signals;
      ghost var own := tx.Mine(t);
      ConsumerRuns(t);
      seen := ring.ring;
      var room := CheckSpace(t, v, again);
      onTx, onRx := if again then [P.CheckAgain(true)] else [], [];
      if !room {
        return Err(v), seen, onTx, onRx;
      }
      ghost var left, steps := Deliver(t, v);
      Regroup(own, onTx, [P.Consume(left)]);
      return Ok(()), seen, onTx + [P.Consume(left)], steps;
    }

    /** `try_send`, called by the producer's task. */
    method TrySend(ghost t: Tid, v: R.Item)
      returns (result: Result<(), R.Item>, ghost seen: R.State, ghost onTx: seq<P.Action>, ghost onRx: seq<P.Action>)
      requires SenderView() && t == tx.poller && Outside(t) && ring.ring.p.NoSend?
      requires !tx.sys.phase.Registering? && (!tx.sys.phase.Free? ==> tx.sys.cell.run.Polling?)
      modifies Repr()
      ensures Added(t, [P.Abandon] + onTx, onRx) && Sent(if result.Ok? then [v] else []) && (result.Err? ==> result.error == v)
      ensures R.ProducerRely(old(ring.ring), seen)
      ensures result.Ok? <==> |seen.sent| < |seen.received| + ring.n
      ensures P.Checks(onTx, false, result.Ok?) && if result.Ok? then Signals(onRx, t) && t !in rx.sys.signals else onRx == []
      ensures SenderView() && Outside(t) && tx.sys.phase.Free?
    {
      hide P.WakeChain.Valid, P.WakeChain.Mine, P.Inv, P.At, P.Checks, R.Inv, R.Channel.Valid, Signals;
      ghost var own := tx.Mine(t);
      tx.Abandon(t);
      result, seen, onTx, onRx := Try(t, v, false);
      Regroup(own, [P.Abandon], onTx);
    }

    /** What the consumer did to the ring while the producer was inside `register`; the code acts for it. */
    method CatchUpSender(ghost t: Tid)
      requires Valid() && t == tx.poller && (Space() ==> tx.sys.ready) && (ring.n == 0 ==> !tx.sys.ready)
      modifies ring, ring.buf
      ensures SenderView() && R.ProducerRely(old(ring.ring), ring.ring)
    {
      hide P.WakeChain.Valid, R.Inv, R.Channel.Valid;
      StagesFit();
      tx.ShadowsReady();
      var room := ring.HasSpace();
      if tx.ready && !room {
        ring.ConsumerTakes();
      }
      StagesFit();
    }

    /** The rest of `Send::poll` after a `try_send` that found no room: register, and only then try again. */
    method ParkSender(ghost t: Tid, v: R.Item)
      returns (result: Result<(), R.Item>, ghost seen: R.State, ghost onTx: seq<P.Action>, ghost onRx: seq<P.Action>)
      requires SenderView() && t == tx.poller && Outside(t) && ring.ring.p.NoSend?
      requires tx.sys.phase.Free? && tx.sys.cell.run.Polling?
      modifies Repr()
      ensures Added(t, onTx, onRx) && Sent(if result.Ok? then [v] else []) && (result.Err? ==> result.error == v)
      ensures R.ProducerRely(old(ring.ring), seen)
      ensures result.Ok? <==> |seen.sent| < |seen.received| + ring.n
      ensures P.ParksOrFinds(onTx, t, result.Ok?) && if result.Ok? then Signals(onRx, t) && t !in rx.sys.signals else onRx == []
      ensures SenderView() && Outside(t) && tx.sys.phase == if result.Ok? then P.Free else P.Blocked
    {
      hide P.WakeChain.Valid, P.WakeChain.Mine, P.Inv, P.At, P.Checks, P.ParksOrFinds, R.Inv, R.Channel.Valid, Signals;
      ghost var own := tx.Mine(t);
      StagesFit();
      ghost var within := tx.Register(t, ring.n == 0);
      CatchUpSender(t);
      result, seen, onTx, onRx := Try(t, v, true);
      Regroup(own, [P.Register] + within + [P.Return], onTx);
      P.ParksOrFindsWith(within, onTx, t, result.Ok?);
      onTx := [P.Register] + within + [P.Return] + onTx;
    }

    // ---------------------------------------------------------------- the consumer's end

    /** The check of `try_recv`. */
    method CheckItem(ghost t: Tid, ghost again: bool) returns (some: bool)
      requires ReceiverView() && t == rx.poller && Outside(t) && ring.ring.c.NoRecv?
      requires rx.sys.phase == if again then P.Registered else P.Free
      modifies ring, rx
      ensures ReceiverView() && Outside(t) && some == old(Items())
      ensures ring.ring == old(ring.ring).(c := if some then R.Reading else R.NoRecv)
      ensures rx.sys == old(rx.sys).(phase := if again && !some then P.Blocked else P.Free)
      ensures Added(t, [], if again then [P.CheckAgain(true)] else [])
    {
      hide P.WakeChain.Valid, P.WakeChain.Mine, P.Inv, P.At, R.Inv, R.Channel.Valid;
      some := ring.StartRecv();
      if again { rx.Checked(t); }
    }

    /** The read of the slot that the check has found filled. */
    method Read(ghost t: Tid) returns (v: R.Item)
      requires ReceiverView() && t == rx.poller && ring.ring.c.Reading?
      modifies ring, ring.buf
      ensures ReceiverView() && ring.ring == old(ring.ring).(c := R.Storing(v), buf := ring.ring.buf)
    {
      hide P.WakeChain.Valid, P.WakeChain.Mine, P.Inv, R.Inv, R.Channel.Valid;
      v := ring.Read();
    }

    /** The store of `head`: the producer's task has something to do, and the caller owes it a signal. */
    method Take(ghost t: Tid, ghost v: R.Item) returns (left: bool)
      requires ReceiverView() && t == rx.poller && Outside(t) && ring.ring.c == R.Storing(v) && rx.sys.phase.Free?
      modifies ring, tx, rx
      ensures ReceiverView() && Outside(t) && Space() && ring.ring.c.NoRecv?
      ensures ring.ring.received == old(ring.ring.received) + [v] && ring.ring.sent == old(ring.ring.sent)
      ensures rx.sys == old(rx.sys).(ready := left)
      ensures tx.sys == old(tx.sys).(ready := true, signals := tx.sys.signals)
      ensures Added(t, [P.MakeReady(t)], [P.Consume(left)])
    {
      hide P.WakeChain.Valid, P.WakeChain.Mine, P.Inv, R.Inv, R.Channel.Valid;
      StagesFit();
      ring.Consume(v);
      left := ring.HasItem();
      rx.ShadowsReady();
      rx.Consume(t, left);
      tx.MakeReady(t);
    }

    /** `send_waker.wake()`. */
    method WakeSender(ghost t: Tid) returns (ghost steps: seq<P.Action>)
      requires ReceiverView() && t == rx.poller && Outside(t)
      modifies tx, tx.waker, tx.cell
      ensures ReceiverView() && Outside(t) && t !in tx.sys.signals
      ensures P.Within(steps, t) && Added(t, [P.Wake(t)] + steps, [])
    {
      hide P.WakeChain.Valid, P.WakeChain.Mine, P.Inv, P.At, P.Within, R.Inv, R.Channel.Valid;
      steps := tx.Wake(t);
    }

    /** The end of `try_recv`: store `head`, and after that wake the producer. */
    method GiveBack(ghost t: Tid, ghost v: R.Item) returns (ghost left: bool, ghost steps: seq<P.Action>)
      requires ReceiverView() && t == rx.poller && Outside(t) && ring.ring.c == R.Storing(v) && rx.sys.phase.Free?
      modifies Repr()
      ensures Signals(steps, t) && Added(t, steps, [P.Consume(left)]) && Received([v])
      ensures ReceiverView() && Outside(t) && t !in tx.sys.signals && rx.sys.phase.Free?
    {
      hide P.WakeChain.Valid, P.WakeChain.Mine, P.Inv, P.At, P.Within, R.Inv, R.Channel.Valid, Signals;
      ghost var onTx := tx.Mine(t);
      left := Take(t, v);
      ghost var rest := WakeSender(t);
      ProducerRuns(t);
      Regroup(onTx, [P.MakeReady(t)], [P.Wake(t)] + rest);
      steps := [P.MakeReady(t)] + ([P.Wake(t)] + rest);
      SignalsWith(rest, t);
    }

    /** `try_recv` once it has found an item: read the slot, and after that give it back and wake. */
    method TakeOut(ghost t: Tid) returns (v: R.Item, ghost left: bool, ghost steps: seq<P.Action>)
      requires ReceiverView() && t == rx.poller && Outside(t) && ring.ring.c.Reading? && rx.sys.phase.Free?
      modifies Repr()
      ensures Signals(steps, t) && Added(t, steps, [P.Consume(left)]) && Received([v])
      ensures ReceiverView() && Outside(t) && t !in tx.sys.signals && rx.sys.phase.Free?
    {
      hide P.WakeChain.Valid, P.WakeChain.Mine, P.Inv, P.At, R.Inv, R.Channel.Valid, Signals;
      ProducerRuns(t);
      v := Read(t);
      ProducerRuns(t);
      left, steps := GiveBack(t, v);
    }

    /**
      One `try_recv`: the first or, `again`, the one after registering.  It succeeds exactly if
      the ring had an item in state `seen`; then the producer is woken after the item has been
      taken.  Otherwise nothing was received and no one is woken.
     */
    method Fetch(ghost t: Tid, ghost again: bool)
      returns (result: Option<R.Item>, ghost seen: R.State, ghost onTx: seq<P.Action>, ghost onRx: seq<P.Action>)
      requires ReceiverView() && t == rx.poller && Outside(t) && ring.ring.c.NoRecv?
      requires rx.sys.phase == if again then P.Registered else P.Free
      modifies Repr()
      ensures Added(t, onTx, onRx) && Received(if result.Some? then [result.value] else [])
      ensures R.ConsumerRely(old(ring.ring), seen)
      ensures result.Some? <==> |seen.received| < |seen.sent|
      ensures P.Checks(onRx, again, result.Some?) && if result.Some? then Signals(onTx, t) && t !in tx.sys.signals else onTx == []
      ensures ReceiverView() && Outside(t) && rx.sys.phase == if again && result.None? then P.Blocked else P.Free
    {
      hide P.WakeChain.Valid, P.WakeChain.Mine, P.Inv, P.At, R.Inv, R.Channel.Valid, Signals;
      ghost var own := rx.Mine(t);
      ProducerRuns(t);
      seen := ring.ring;
      var some := CheckItem(t, again);
      onTx, onRx := [], if again then [P.CheckAgain(true)] else [];
      if !some {
        return None, seen, onTx, onRx;
      }
      var v;
      ghost var left, steps;
      v, left, steps := TakeOut(t);
      Regroup(own, onRx, [P.Consume(left)]);
      return Some(v), seen, steps, onRx + [P.Consume(left)];
    }

    /** `try_recv`, called by the consumer's task. */
    method TryRecv(ghost t: Tid)
      returns (result: Option<R.Item>, ghost seen: R.State, ghost onTx: seq<P.Action>, ghost onRx: seq<P.Action>)
      requires ReceiverView() && t == rx.poller && Outside(t) && ring.ring.c.NoRecv?
      requires !rx.sys.phase.Registering? && (!rx.sys.phase.Free? ==> rx.sys.cell.run.Polling?)
      modifies Repr()
      ensures Added(t, onTx, [P.Abandon] + onRx) && Received(if result.Some? then [result.value] else [])
      ensures R.ConsumerRely(old(ring.ring), seen)
      ensures result.Some? <==> |seen.received| < |seen.sent|
      ensures P.Checks(onRx, false, result.Some?) && if result.Some? then Signals(onTx, t) && t !in tx.sys.signals else onTx == []
      ensures ReceiverView() && Outside(t) && rx.sys.phase.Free?
    {
      hide P.WakeChain.Valid, P.WakeChain.Mine, P.Inv, P.At, P.Checks, R.Inv, R.Channel.Valid, Signals;
      ghost var own := rx.Mine(t);
      rx.Abandon(t);
      result, seen, onTx, onRx := Fetch(t, false);
      Regroup(own, [P.Abandon], onRx);
    }

    /** What the producer did to the ring while the consumer was inside `register`; the code acts for it. */
    method CatchUpReceiver(ghost t: Tid)
      requires Valid() && t == rx.poller && (Items() ==> rx.sys.ready) && (ring.n == 0 ==> !rx.sys.ready)
      modifies ring, ring.buf
      ensures ReceiverView() && R.ConsumerRely(old(ring.ring), ring.ring)
    {
      hide P.WakeChain.Valid, R.Inv, R.Channel.Valid;
      StagesFit();
      rx.ShadowsReady();
      var some := ring.HasItem();
      if rx.ready && !some {
        ring.ProducerGives();
      }
      StagesFit();
    }

    /** The rest of `Recv::poll` after a `try_recv` that found nothing: register, and only then try again. */
    method ParkReceiver(ghost t: Tid)
      returns (result: Option<R.Item>, ghost seen: R.State, ghost onTx: seq<P.Action>, ghost onRx: seq<P.Action>)
      requires ReceiverView() && t == rx.poller && Outside(t) && ring.ring.c.NoRecv?
      requires rx.sys.phase.Free? && rx.sys.cell.run.Polling?
      modifies Repr()
      ensures Added(t, onTx, onRx) && Received(if result.Some? then [result.value] else [])
      ensures R.ConsumerRely(old(ring.ring), seen)
      ensures result.Some? <==> |seen.received| < |seen.sent|
      ensures P.ParksOrFinds(onRx, t, result.Some?)
      ensures if result.Some? then Signals(onTx, t) && t !in tx.sys.signals else onTx == []
      ensures ReceiverView() && Outside(t) && rx.sys.phase == if result.Some? then P.Free else P.Blocked
    {
      hide P.WakeChain.Valid, P.WakeChain.Mine, P.Inv, P.At, P.Checks, P.ParksOrFinds, R.Inv, R.Channel.Valid, Signals;
      ghost var own := rx.Mine(t);
      StagesFit();
      ghost var within := rx.Register(t, ring.n == 0);
      CatchUpReceiver(t);
      result, seen, onTx, onRx := Fetch(t, true);
      Regroup(own, [P.Register] + within + [P.Return], onRx);
      P.ParksOrFindsWith(within, onRx, t, result.Some?);
      onRx := [P.Register] + within + [P.Return] + onRx;
    }
  }

  /** `Send`.  A poll takes the value out, and puts it back if it returns Pending. */
  class Send {
    const chan: Channel
    var value: Option<R.Item>        // None after Ready

    constructor (chan: Channel, v: R.Item)
      ensures this.chan == chan && value == Some(v)
    {
      this.chan, value := chan, Some(v);
    }

    /**
      `Send::poll`.  The task tries; finding no room it registers, and only after that tries
      again.  Ready means that the value is the next one sent and that the consumer was woken
      after it; Pending means that the ring was full in state `seen`, and leaves the task parked:
      the system's record of it is Blocked.
     */
    method Poll(ghost t: Tid)
      returns (ready: bool, ghost seen: R.State, ghost onTx: seq<P.Action>, ghost onRx: seq<P.Action>)
      requires chan.SenderView() && t == chan.tx.poller && chan.Outside(t) && chan.ring.ring.p.NoSend? && value.Some?
      requires chan.tx.sys.cell.run.Polling? && !chan.tx.sys.phase.Registering?
      modifies this, chan.Repr()
      ensures value == if ready then None else old(value)
      ensures chan.Added(t, [P.Abandon] + onTx, onRx) && chan.Sent(if ready then [old(value).value] else [])
      ensures R.ProducerRely(old(chan.ring.ring), seen)
      ensures ready <==> |seen.sent| < |seen.received| + chan.ring.n
      ensures (ready && P.Checks(onTx, false, true)) || P.ParksOrFinds(onTx, t, ready)
      ensures if ready then Signals(onRx, t) && t !in chan.rx.sys.signals else onRx == []
      ensures chan.SenderView() && chan.Outside(t) && chan.tx.sys.phase == if ready then P.Free else P.Blocked
    {
      hide P.WakeChain.Valid, P.WakeChain.Mine, P.Inv, P.At, P.Checks, P.ParksOrFinds, R.Inv, R.Channel.Valid, Signals;
      ghost var own := chan.tx.Mine(t);
      var v := value.value;
      value := None;
      var result;
      chan.StagesFit();
      result, seen, onTx, onRx := chan.TrySend(t, v);
      if result.Err? {
        chan.StagesFit();
        P.NothingFound(onTx);
        result, seen, onTx, onRx := chan.ParkSender(t, result.error);
        Regroup(own, [P.Abandon], []);
        Regroup(own, [P.Abandon], onTx);
      }
      ready := result.Ok?;
      if !ready {
        value := Some(result.error);
      }
    }
  }

  /** `Recv`. */
  class Recv {
    const chan: Channel

    constructor (chan: Channel)
      ensures this.chan == chan
    {
      this.chan := chan;
    }

    /**
      `Recv::poll`.  The task tries; finding nothing it registers, and only after that tries
      again.  An item is the next one received, and the producer was woken after it; Pending
      means that the ring was empty in state `seen`, and leaves the task parked: the system's
      record of it is Blocked.
     */
    method Poll(ghost t: Tid)
      returns (result: Option<R.Item>, ghost seen: R.State, ghost onTx: seq<P.Action>, ghost onRx: seq<P.Action>)
      requires chan.ReceiverView() && t == chan.rx.poller && chan.Outside(t) && chan.ring.ring.c.NoRecv?
      requires chan.rx.sys.cell.run.Polling? && !chan.rx.sys.phase.Registering?
      modifies chan.Repr()
      ensures chan.Added(t, onTx, [P.Abandon] + onRx) && chan.Received(if result.Some? then [result.value] else [])
      ensures R.ConsumerRely(old(chan.ring.ring), seen)
      ensures result.Some? <==> |seen.received| < |seen.sent|
      ensures (result.Some? && P.Checks(onRx, false, true)) || P.ParksOrFinds(onRx, t, result.Some?)
      ensures if result.Some? then Signals(onTx, t) && t !in chan.tx.sys.signals else onTx == []
      ensures chan.ReceiverView() && chan.Outside(t) && chan.rx.sys.phase == if result.Some? then P.Free else P.Blocked
    {
      hide P.WakeChain.Valid, P.WakeChain.Mine, P.Inv, P.At, P.Checks, P.ParksOrFinds, R.Inv, R.Channel.Valid, Signals;
      ghost var own := chan.rx.Mine(t);
      chan.StagesFit();
      result, seen, onTx, onRx := chan.TryRecv(t);
      if result.None? {
        chan.StagesFit();
        P.NothingFound(onRx);
        result, seen, onTx, onRx := chan.ParkReceiver(t);
        Regroup(own, [P.Abandon], []);
        Regroup(own, [P.Abandon], onRx);
      }
    }
  }
}
