/**
  The broker's objects as code: a topic behind its three locks, a subscription and a
  publication.  Each topic is seen together with one subscribed task, through the wake chain
  of its subscription; the condition that task waits for is that the sequence number is ahead
  of what it has seen.  Between two critical sections other threads may do anything that
  module Uorb allows them; `OthersMeetContract` shows that the contracts say no more.
 */
module Broker {
  import opened Prelude
  import AW = AtomicWakers
  import C = Cells
  import P = Parking
  import U = Uorb

  type Bytes = U.Bytes

  /** What other threads may do to the history of a topic: add payloads, generations and callbacks. */
  ghost predicate Later(before: U.Topic, after: U.Topic) {
    && after.zero == before.zero && before.writes <= after.writes && before.seqNo <= after.seqNo
    && before.advertised <= after.advertised && before.published <= after.published && before.calls <= after.calls
  }

  // ------------------------------------------------------------------ the interference contracts are those of the system

  /** Whether thread `t` performs action `a`.  Which thread unadvertises is left open. */
  predicate DoneBy(poller: Tid, a: U.Action, t: Tid) {
    match a
    case Env(e) => P.Actor(poller, e) == t
    case PubStart(u, _, _, _) => u == t
    case PubStep(u) => u == t
    case Unadvertise(_) => false
    case _ => t == poller
  }

  /** Threads that carry a share of publication `p` and have not installed it. */
  ghost function Hands(s: U.State, p: nat): set<Tid> {
    set t | t in s.pubs && s.pubs[t].PInstall? && s.pubs[t].p == p
  }

  /** What thread `t` may count on while it does nothing, for a publication `p` that no one unadvertises. */
  ghost predicate Undisturbed(s: U.State, s': U.State, t: Tid, p: nat) {
    && Later(s.topic, s'.topic)
    && (t in s.pubs ==> t in s'.pubs && s'.pubs[t] == s.pubs[t])
    && (t in U.Bumping(s.pubs) <==> t in U.Bumping(s'.pubs))
    && (t in Hands(s, p) <==> t in Hands(s', p))
    && (p in s.handles ==> p in s'.handles)
    && (s.topic.lock == Some(t) ==>
          s'.topic.lock == Some(t) && s'.topic.registered == s.topic.registered && s'.topic.calls == s.topic.calls)
    && (t == s.park.poller ==> s'.sub == s.sub && s'.topic.registered == s.topic.registered)
  }

  lemma MachineSatisfiesLater(s: U.State, a: U.Action)
    requires U.Enabled(s, a)
    ensures Later(s.topic, U.Exec(s, a).topic)
  {
    hide P.Exec, P.Enabled, P.Outside;
    if a.PubStep? { U.PublisherOnlyAdds(s, a.t); }
  }

  lemma StepKeepsPlace(s: U.State, a: U.Action, t: Tid, p: nat)
    requires U.Enabled(s, a) && !DoneBy(s.park.poller, a, t) && a != U.Unadvertise(p)
    ensures t in s.pubs <==> t in U.Exec(s, a).pubs
    ensures t in s.pubs ==> U.Exec(s, a).pubs[t] == s.pubs[t]
    ensures p in s.handles ==> p in U.Exec(s, a).handles
    ensures t == s.park.poller ==> U.Exec(s, a).sub == s.sub && U.Exec(s, a).topic.registered == s.topic.registered
    ensures U.Exec(s, a).park.poller == s.park.poller
  {
    hide P.Outside, C.Exec, AW.Exec;
  }

  lemma StepKeepsLock(s: U.State, a: U.Action, t: Tid)
    requires U.PubsOk(s) && U.TopicOk(s.topic, s.pubs)
    requires U.Enabled(s, a) && !DoneBy(s.park.poller, a, t) && s.topic.lock == Some(t)
    ensures U.Exec(s, a).topic.lock == Some(t)
    ensures U.Exec(s, a).topic.registered == s.topic.registered && U.Exec(s, a).topic.calls == s.topic.calls
  {
    U.LockFreezesList(s, t, a);
    hide P.Exec, P.Enabled, P.Outside;
    if a.PubStep? { assert U.PubOk(s, a.t); }
  }

  lemma StepKeepsActor(s: U.State, a: U.Action, t: Tid)
    requires U.Enabled(s, a) && !DoneBy(s.park.poller, a, t)
    ensures U.ParkAction(s, a).Some? ==> P.Actor(s.park.poller, U.ParkAction(s, a).value) != t
  {
    hide P.Exec, P.Enabled, P.Outside;
  }

  lemma StepLeavesUndisturbed(s: U.State, a: U.Action, t: Tid, p: nat)
    requires U.Inv(s) && U.Enabled(s, a) && !DoneBy(s.park.poller, a, t) && a != U.Unadvertise(p)
    ensures Undisturbed(s, U.Exec(s, a), t, p)
  {
    hide U.Exec, U.Enabled, U.PubsOk, U.RecvOk, U.TopicOk, U.DeliveriesOk, U.LossOk, P.Inv, Later;
    MachineSatisfiesLater(s, a);
    StepKeepsPlace(s, a, t, p);
    if s.topic.lock == Some(t) { StepKeepsLock(s, a, t); }
  }

  /**
    The interference contracts of the classes below are justified.  Every run of the composed
    system in which thread `t` does nothing leaves it undisturbed, and is a run of its wake
    chain in which it does nothing.
   */
  lemma {:induction false} OthersMeetContract(s: U.State, script: seq<U.Action>, last: U.State, t: Tid, p: nat)
    returns (steps: seq<P.Action>)
    requires U.Inv(s) && U.Runs(s, script, last)
    requires forall i :: 0 <= i < |script| ==> !DoneBy(s.park.poller, script[i], t) && script[i] != U.Unadvertise(p)
    ensures Undisturbed(s, last, t, p)
    ensures U.Inv(last) && last.park.poller == s.park.poller
    ensures P.Runs(s.park, steps, last.park) && P.Rely(s.park, last.park, t)
    ensures forall i :: 0 <= i < |steps| ==> P.Actor(s.park.poller, steps[i]) != t
    decreases |script|
  {
    hide U.Inv, U.Exec, U.Enabled, P.Inv, P.Exec, P.Enabled, DoneBy;
    if script == [] {
      steps := [];
    } else {
      var a, next := script[0], U.Exec(s, script[0]);
      U.StepKeepsInv(s, a);
      StepLeavesUndisturbed(s, a, t, p);
      StepKeepsPlace(s, a, t, p);
      StepKeepsActor(s, a, t);
      U.RefinesParking(s, a);
      var rest := OthersMeetContract(next, script[1..], last, t, p);
      if U.ParkAction(s, a).Some? {
        steps := [U.ParkAction(s, a).value] + rest;
        assert steps[1..] == rest;
      } else {
        steps := rest;
      }
    }
    ParkInv(s);
    P.OthersSatisfyRely(s.park, steps, last.park, t);
  }

  lemma ParkInv(s: U.State)
    requires U.Inv(s)
    ensures P.Inv(s.park)
  {
  }

  /** The list without every occurrence of `id`, `retain`. */
  function Without(ids: seq<nat>, id: nat): (rest: seq<nat>)
    ensures id !in rest
    ensures forall k :: k != id ==> (k in rest <==> k in ids)
  {
    if ids == [] then [] else (if ids[0] == id then [] else [ids[0]]) + Without(ids[1..], id)
  }

  // ------------------------------------------------------------------ a topic

  class TopicState {
    const size: nat
    var data: Bytes
    var seqNo: nat
    var callbacks: seq<nat>          // contexts of the registered callbacks, in order of registration
    var calls: multiset<nat>         // callbacks made so far
    var lastSeen: nat                // shadows what the subscribed task has seen
    const chain: P.WakeChain         // waker and cell of one subscribed task ...
    const me: nat                    // ... and the context of its callback
    ghost var topic: U.Topic         // the history: every payload ever copied, every increment
    ghost var between: set<Tid>      // threads that have copied a payload and not counted it

    ghost function Repr(): set<object> {
      {this, chain, chain.waker, chain.cell}
    }

    ghost predicate HistoryOk()
      reads this
    {
      && |data| == size && topic.Data() == data && topic.seqNo == seqNo
      && |topic.writes| == seqNo + |between|
      && seqNo == topic.advertised + topic.published
      && multiset(callbacks)[me] == (if topic.registered then 1 else 0) && topic.calls == calls[me]
      && lastSeen <= seqNo
    }

    /** The task waits for a generation it has not seen, and is listed whenever it is about to park or parked. */
    ghost predicate Valid()
      reads this, chain, chain.waker, chain.cell
    {
      && HistoryOk() && chain.Valid() && chain.sys.poller == chain.poller
      && (chain.sys.ready <==> seqNo > lastSeen)
      && (!chain.sys.phase.Free? ==> topic.registered)
    }

    constructor (size: nat, me: nat, ghost threads: set<Tid>, ghost poller: Tid)
      requires poller in threads
      ensures Valid() && fresh(Repr()) && this.size == size && this.me == me && callbacks == [] && between == {}
      ensures chain.sys == P.Init(threads, poller, false) && lastSeen == 0
      ensures topic == U.Topic(data, [], 0, false, None, 0, 0, 0)
    {
      var zero: Bytes := seq(size, _ => 0);
      this.size, this.me := size, me;
      data, seqNo, callbacks, calls, lastSeen := zero, 0, [], multiset{}, 0;
      topic, between := U.Topic(zero, [], 0, false, None, 0, 0, 0), {};
      chain := new P.WakeChain(threads, poller, false);
    }

    /**
      Steps of threads other than `t`.  With the callback list locked by `t` nothing is
      registered or called; the subscribed task's own state is its own.
     */
    method Interfere(ghost t: Tid, ghost locked: bool, ghost alone: bool)
      requires Valid()
      modifies Repr()
      ensures Valid() && Later(old(topic), topic)
      ensures t in between <==> t in old(between)
      ensures old(calls) <= calls
      ensures locked ==> callbacks == old(callbacks) && calls == old(calls)
      ensures t == chain.poller ==> lastSeen == old(lastSeen) && topic.registered == old(topic.registered)
      ensures P.Rely(old(chain.sys), chain.sys, t)
      ensures old(chain.trail) <= chain.trail && chain.Mine(t) == old(chain.Mine(t))
      ensures alone ==> unchanged(this) && unchanged(chain)
    {
    }

    /** What other threads did to the topic while `t` was inside a call on the task's waker; the code acts for them. */
    method CatchUp(ghost t: Tid)
      requires HistoryOk() && chain.Valid() && chain.sys.poller == chain.poller && topic.registered
      requires t == chain.poller && seqNo > lastSeen ==> chain.sys.ready
      modifies this
      ensures Valid() && Later(old(topic), topic) && callbacks == old(callbacks) && calls == old(calls)
      ensures topic.registered && between == old(between)
      ensures t == chain.poller ==> lastSeen == old(lastSeen)
      ensures old(chain.sys.ready <==> seqNo > lastSeen) ==> unchanged(this)
    {
      if chain.ready && seqNo <= lastSeen {
        seqNo := seqNo + 1;
        topic := U.Bumped(topic.(writes := topic.writes + [data]), U.Publish);
      } else if !chain.ready && seqNo > lastSeen {
        lastSeen := seqNo;
      }
    }

    /** The payload's critical section. */
    method CopyIn(ghost t: Tid, m: Bytes)
      requires Valid() && |m| == size && t !in between
      modifies this`data, this`topic, this`between
      ensures Valid() && topic == old(topic).(writes := old(topic).writes + [m])
      ensures between == old(between) + {t}
    {
      hide P.WakeChain.Valid;
      data := m;
      topic := topic.(writes := topic.writes + [m]);
      between := between + {t};
    }

    /** The sequence number's critical section; the task now has something to do, and the caller owes it a signal. */
    method Count(ghost t: Tid, ghost kind: U.Kind)
      requires Valid() && t in between && P.At(chain.sys, t, AW.Idle, C.Idle)
      modifies this`seqNo, this`topic, this`between, chain
      ensures Valid() && topic == U.Bumped(old(topic), kind) && between == old(between) - {t}
      ensures P.At(chain.sys, t, AW.Idle, C.Idle) && chain.sys.phase == old(chain.sys).phase
      ensures chain.sys.cell.run == old(chain.sys).cell.run && chain.sys.ready
      ensures old(chain.trail) <= chain.trail && chain.Mine(t) == old(chain.Mine(t)) + [P.MakeReady(t)]
    {
      hide P.WakeChain.Valid, P.WakeChain.Mine, P.Inv;
      chain.MakeReady(t);
      seqNo := seqNo + 1;
      topic := U.Bumped(topic, kind);
      between := between - {t};
    }

    /** One callback of a dispatch, made with the list locked. */
    method CallBack(ghost t: Tid, id: nat, ghost alone: bool) returns (ghost steps: seq<P.Action>)
      requires Valid() && id in callbacks && P.At(chain.sys, t, AW.Idle, C.Idle)
      requires t == chain.poller ==> !chain.sys.phase.Registering?
      modifies Repr()
      ensures Valid() && P.At(chain.sys, t, AW.Idle, C.Idle) && (t in between <==> t in old(between))
      ensures Later(old(topic), topic) && callbacks == old(callbacks) && calls == old(calls) + multiset{id}
      ensures Own(t, old(lastSeen), old(chain.sys))
      ensures old(chain.trail) <= chain.trail && chain.Mine(t) == old(chain.Mine(t)) + steps
      ensures if id == me then P.Waking(steps, t) && t !in chain.sys.signals
              else steps == [] && chain.sys == old(chain.sys)
      ensures alone ==> topic == old(topic).(calls := topic.calls) && between == old(between)
    {
      hide P.WakeChain.Valid, P.WakeChain.Mine, P.Inv, P.At;
      calls := calls + multiset{id};
      steps := [];
      if id == me {
        topic := topic.(calls := topic.calls + 1);
        var rest := chain.Wake(t, alone);
        steps := [P.Wake(t)] + rest;
        CatchUp(t);
      } else {
        assert chain.Mine(t) == chain.Mine(t) + [];
      }
    }

    /** The list with the task's own callback, of which there is at most one, left out or in. */
    lemma ListedOnce(i: nat)
      requires Valid() && i < |callbacks| && callbacks[i] == me
      ensures me !in callbacks[..i] && topic.registered
    {
      assert callbacks == callbacks[..i] + callbacks[i..];
      assert callbacks[i..][0] == me;
      assert multiset(callbacks) == multiset(callbacks[..i]) + multiset(callbacks[i..]);
    }

    lemma ListedIffRegistered()
      requires Valid()
      ensures me in callbacks <==> topic.registered
    {
      assert me in callbacks <==> me in multiset(callbacks);
    }

    /** The loop of `notify`, with the list locked. */
    method CallAll(ghost t: Tid, ghost alone: bool) returns (ghost steps: seq<P.Action>)
      requires Valid() && P.At(chain.sys, t, AW.Idle, C.Idle) && (t == chain.poller ==> !chain.sys.phase.Registering?)
      modifies Repr()
      ensures Valid() && P.At(chain.sys, t, AW.Idle, C.Idle) && (t in between <==> t in old(between))
      ensures Later(old(topic), topic) && callbacks == old(callbacks) && calls == old(calls) + multiset(callbacks)
      ensures old(chain.trail) <= chain.trail && chain.Mine(t) == old(chain.Mine(t)) + steps
      ensures if me in callbacks then P.Waking(steps, t) && t !in chain.sys.signals else steps == []
      ensures Own(t, old(lastSeen), old(chain.sys))
      ensures alone ==> topic == old(topic).(calls := topic.calls) && between == old(between)
    {
      hide P.WakeChain.Valid, P.WakeChain.Mine, P.Inv, P.At, P.Waking, Valid, Later;
      steps := [];
      ghost var own, listed := chain.Mine(t), callbacks;
      Regroup(own, [], []);
      LaterIsReflexive(topic);
      var i := 0;
      while i < |callbacks|
        invariant i <= |callbacks| && callbacks == listed
        invariant Valid() && Later(old(topic), topic) && (t in between <==> t in old(between))
        invariant P.At(chain.sys, t, AW.Idle, C.Idle) && old(chain.trail) <= chain.trail
        invariant calls == old(calls) + multiset(listed[..i])
        invariant chain.Mine(t) == own + steps
        invariant if me in listed[..i] then P.Waking(steps, t) && t !in chain.sys.signals else steps == []
        invariant Own(t, old(lastSeen), old(chain.sys))
        invariant alone ==> topic == old(topic).(calls := topic.calls) && between == old(between)
      {
        ghost var atStart := topic;
        Interfere(t, true, alone);
        LaterIsTransitive(old(topic), atStart, topic);
        ghost var atCall := topic;
        OneMore(listed, i);
        if callbacks[i] == me { ListedOnce(i); }
        ghost var called := CallBack(t, callbacks[i], alone);
        LaterIsTransitive(old(topic), atCall, topic);
        Regroup(own, steps, called);
        steps := steps + called;
        i := i + 1;
      }
      assert listed[..i] == listed;
    }

    /** What is the subscribed task's own has stayed as it was, if `t` is that task's thread. */
    ghost predicate Own(t: Tid, seen: nat, sys: P.State)
      reads this, chain
    {
      t == chain.poller ==> lastSeen == seen && chain.sys.phase == sys.phase && chain.sys.cell.run == sys.cell.run
    }

    /**
      `notify`.  With the list locked, at `atLock`, every callback in it is called, as often as
      it is listed; for the subscribed task that is one call of `wake`, after which the caller
      owes it no signal.
     */
    method Notify(ghost t: Tid, ghost alone: bool)
      returns (ghost atLock: U.Topic, ghost listed: seq<nat>, ghost before: multiset<nat>, ghost steps: seq<P.Action>)
      requires Valid() && P.At(chain.sys, t, AW.Idle, C.Idle) && (t == chain.poller ==> !chain.sys.phase.Registering?)
      modifies Repr()
      ensures Valid() && P.At(chain.sys, t, AW.Idle, C.Idle) && (t in between <==> t in old(between))
      ensures Later(old(topic), atLock) && Later(atLock, topic)
      ensures old(calls) <= before && calls == before + multiset(listed) && callbacks == listed
      ensures old(chain.trail) <= chain.trail && chain.Mine(t) == old(chain.Mine(t)) + steps
      ensures if me in listed then P.Waking(steps, t) else steps == [P.Skip(t)]
      ensures t !in chain.sys.signals && Own(t, old(lastSeen), old(chain.sys))
      ensures alone ==> listed == old(callbacks) && before == old(calls)
      ensures alone ==> topic == old(topic).(calls := topic.calls) && between == old(between)
    {
      hide P.WakeChain.Valid, P.WakeChain.Mine, P.Inv, P.At, P.Waking;
      Interfere(t, false, alone);
      atLock, listed, before := topic, callbacks, calls;
      ghost var own := chain.Mine(t);
      steps := CallAll(t, alone);
      ListedIffRegistered();
      if me !in listed {
        chain.Skip(t);
        assert own + [] + [P.Skip(t)] == own + [P.Skip(t)];
        steps := [P.Skip(t)];
      }
    }

    /** The end of a publication: count the payload that was copied, then dispatch. */
    method CountAndNotify(ghost t: Tid, ghost kind: U.Kind, ghost alone: bool)
      returns (ghost atLock: U.Topic, ghost listed: seq<nat>, ghost before: multiset<nat>, ghost steps: seq<P.Action>)
      requires Valid() && t in between && P.At(chain.sys, t, AW.Idle, C.Idle)
      requires t == chain.poller ==> !chain.sys.phase.Registering?
      modifies Repr()
      ensures Valid() && Able(t) && t !in chain.sys.signals
      ensures Later(U.Bumped(old(topic), kind), atLock) && Later(atLock, topic)
      ensures old(calls) <= before && calls == before + multiset(listed) && callbacks == listed
      ensures old(chain.trail) <= chain.trail && chain.Mine(t) == old(chain.Mine(t)) + steps
      ensures Generation(steps, t) && (me in listed <==> steps[1] == P.Wake(t))
      ensures Own(t, old(lastSeen), old(chain.sys))
      ensures alone ==> topic == U.Bumped(old(topic), kind).(calls := topic.calls)
      ensures alone ==> listed == old(callbacks) && before == old(calls) && between == old(between) - {t}
    {
      hide P.WakeChain.Valid, P.WakeChain.Mine, P.Inv, P.At, HistoryOk, P.Waking, Generation, Later, U.Bumped;
      ghost var own := chain.Mine(t);
      Count(t, kind);
      atLock, listed, before, steps := Notify(t, alone);
      Regroup(own, [P.MakeReady(t)], steps);
      GenerationOf(t, steps);
      steps := [P.MakeReady(t)] + steps;
    }

    /**
      The body shared by `advertise` and `publish`: copy, count, dispatch.  The payload is the
      write after those in `atCopy`; it is counted after it was copied, at `atCount`, and before the
      list is locked, at `atLock`, to call the callbacks in `listed`.  Towards the subscribed
      task the caller makes the condition true, and after that wakes it if it is listed.
     */
    method Generate(ghost t: Tid, m: Bytes, ghost kind: U.Kind, ghost alone: bool)
      returns (ghost atCopy: U.Topic, ghost atCount: U.Topic, ghost atLock: U.Topic,
               ghost listed: seq<nat>, ghost before: multiset<nat>, ghost steps: seq<P.Action>)
      requires Valid() && |m| == size && Able(t)
      modifies Repr()
      ensures Valid() && Able(t) && t !in chain.sys.signals
      ensures Later(old(topic), atCopy) && atCopy.writes + [m] <= atCount.writes && Later(atCopy, atCount)
      ensures Later(U.Bumped(atCount, kind), atLock) && Later(atLock, topic)
      ensures old(calls) <= before && calls == before + multiset(listed) && callbacks == listed
      ensures old(chain.trail) <= chain.trail && chain.Mine(t) == old(chain.Mine(t)) + steps
      ensures Generation(steps, t) && (me in listed <==> steps[1] == P.Wake(t))
      ensures Own(t, old(lastSeen), old(chain.sys))
      ensures alone ==> topic == U.Bumped(old(topic).(writes := old(topic).writes + [m]), kind).(calls := topic.calls)
      ensures alone ==> listed == old(callbacks) && before == old(calls) && between == old(between)
    {
      hide P.WakeChain.Valid, P.WakeChain.Mine, P.Inv, P.At, HistoryOk, Generation, U.Bumped;
      Interfere(t, false, alone);
      atCopy := topic;
      CopyIn(t, m);
      Interfere(t, false, alone);
      atCount := topic;
      atLock, listed, before, steps := CountAndNotify(t, kind, alone);
    }

    /** Thread `t` is in none of the calls on the topic or on the task's waker and cell. */
    ghost predicate Able(t: Tid)
      reads this, chain
    {
      t !in between && P.At(chain.sys, t, AW.Idle, C.Idle) && (t == chain.poller ==> !chain.sys.phase.Registering?)
    }

    /** The task turns to a new subscription, which has seen nothing and has a waker slot of its own. */
    method Resubscribe(ghost t: Tid)
      requires Valid() && !topic.registered && t == chain.poller && chain.sys.phase.Free? && P.At(chain.sys, t, AW.Idle, C.Idle)
      modifies this`lastSeen, chain, chain.waker
      ensures Valid() && lastSeen == 0 && P.At(chain.sys, t, AW.Idle, C.Idle)
      ensures chain.sys == old(chain.sys).(ready := seqNo > 0, aw := AW.RenewSlot(old(chain.sys).aw))
      ensures old(chain.trail) <= chain.trail && chain.Mine(t) == old(chain.Mine(t)) + [P.Renew(seqNo > 0)]
    {
      hide P.WakeChain.Valid, P.WakeChain.Mine, P.Inv, P.At;
      chain.Renew(t, seqNo > 0);
      lastSeen := 0;
    }

    /** The task has seen generation `cur`; if that was not the last one it has something to do still. */
    method See(ghost t: Tid, cur: nat)
      requires Valid() && lastSeen < cur <= seqNo && t == chain.poller && !chain.sys.phase.Blocked?
      modifies this`lastSeen, chain
      ensures Valid() && lastSeen == cur && chain.sys == old(chain.sys).(ready := seqNo > cur)
      ensures forall slot, cell :: P.At(old(chain.sys), t, slot, cell) ==> P.At(chain.sys, t, slot, cell)
      ensures old(chain.trail) <= chain.trail && chain.Mine(t) == old(chain.Mine(t)) + [P.Consume(seqNo > cur)]
    {
      hide P.WakeChain.Valid, P.WakeChain.Mine, P.Inv, P.At;
      chain.ShadowsReady();
      chain.Consume(t, seqNo > cur);
      lastSeen := cur;
    }

    /** `callbacks.push` by a subscription. */
    method Add(id: nat)
      requires Valid() && (id == me ==> !topic.registered)
      modifies this`callbacks, this`topic
      ensures Valid() && callbacks == old(callbacks) + [id]
      ensures topic == old(topic).(registered := id == me || old(topic).registered)
    {
      hide P.WakeChain.Valid;
      callbacks := callbacks + [id];
      topic := topic.(registered := id == me || topic.registered);
    }

    /** `callbacks.retain` by a subscription. */
    method Remove(id: nat)
      requires Valid() && (id == me ==> chain.sys.phase.Free?)
      modifies this`callbacks, this`topic
      ensures Valid() && callbacks == Without(old(callbacks), id)
      ensures topic == old(topic).(registered := id != me && old(topic).registered)
    {
      hide P.WakeChain.Valid;
      WithoutKeepsOthers(callbacks, id, me);
      callbacks := Without(callbacks, id);
      topic := topic.(registered := id != me && topic.registered);
    }
  }

  lemma OneMore(ids: seq<nat>, i: nat)
    requires i < |ids|
    ensures multiset(ids[..i + 1]) == multiset(ids[..i]) + multiset{ids[i]}
    ensures forall k :: k in ids[..i + 1] <==> k in ids[..i] || k == ids[i]
  {
    assert ids[..i + 1] == ids[..i] + [ids[i]];
  }

  lemma {:induction false} WithoutKeepsOthers(ids: seq<nat>, id: nat, k: nat)
    ensures multiset(Without(ids, id))[k] == if k == id then 0 else multiset(ids)[k]
    decreases |ids|
  {
    if ids != [] {
      WithoutKeepsOthers(ids[1..], id, k);
      assert ids == [ids[0]] + ids[1..];
      if ids[0] == id { assert [] + Without(ids[1..], id) == Without(ids[1..], id); }
    }
  }

  /** The actions by which thread `t`, having made the condition true, signals it: one call of `wake`, or none if no one is listed. */
  ghost predicate Generation(steps: seq<P.Action>, t: Tid) {
    |steps| >= 2 && steps[0] == P.MakeReady(t) && (steps[1..] == [P.Skip(t)] || P.Waking(steps[1..], t))
  }

  lemma GenerationOf(t: Tid, steps: seq<P.Action>)
    requires steps == [P.Skip(t)] || P.Waking(steps, t)
    ensures Generation([P.MakeReady(t)] + steps, t)
    ensures ([P.MakeReady(t)] + steps)[1] == P.Wake(t) <==> P.Waking(steps, t)
  {
    assert ([P.MakeReady(t)] + steps)[1..] == steps;
  }

  // ------------------------------------------------------------------ a subscription

  /** `SubCbInner`. */
  datatype SubCbInner = SubCbInner(lastSeen: nat, registered: bool, lost: nat)

  /** The subscription of the task that `topic` is seen with; its waker is that of the task's wake chain. */
  class Subscription {
    const topic: TopicState
    var cb: Option<SubCbInner>       // null until first used
    ghost var view: U.Subscriber     // with its deliveries

    ghost predicate ViewOk()
      reads this, topic
    {
      && view.lastSeen == topic.lastSeen == (if cb.Some? then cb.value.lastSeen else 0)
      && view.lost == (if cb.Some? then cb.value.lost else 0)
      && U.DeliveriesOk(topic.topic, view) && U.LossOk(view)
      && (topic.topic.registered <==> cb.Some?) && (cb.Some? ==> cb.value.registered)
    }

    ghost predicate Valid()
      reads this, topic, topic.chain, topic.chain.waker, topic.chain.cell
    {
      topic.Valid() && ViewOk()
    }

    /** The thread is the one the task runs on, and is in none of the calls below. */
    ghost predicate Owner(t: Tid)
      reads topic, topic.chain
    {
      && t == topic.chain.poller && P.At(topic.chain.sys, t, AW.Idle, C.Idle)
      && !topic.chain.sys.phase.Registering?
      && (!topic.chain.sys.phase.Free? ==> topic.chain.sys.cell.run.Polling?)
    }

    /** A new subscription has seen nothing, and its waker slot is new. */
    constructor (ghost t: Tid, topic: TopicState)
      requires topic.Valid() && !topic.topic.registered && t == topic.chain.poller
      requires topic.chain.sys.phase.Free? && P.At(topic.chain.sys, t, AW.Idle, C.Idle)
      modifies topic`lastSeen, topic.chain, topic.chain.waker
      ensures Valid() && this.topic == topic && cb == None && view == U.Subscriber(true, 0, 0, 0, false, [])
      ensures topic.chain.sys == old(topic.chain.sys).(ready := topic.seqNo > 0, aw := AW.RenewSlot(old(topic.chain.sys).aw))
      ensures topic.chain.Mine(t) == old(topic.chain.Mine(t)) + [P.Renew(topic.seqNo > 0)]
    {
      this.topic, cb := topic, None;
      view := U.Subscriber(true, 0, 0, 0, false, []);
      new;
      hide TopicState.Valid, P.WakeChain.Mine, P.At, U.DeliveriesOk, U.LossOk, AW.RenewSlot;
      U.NothingDelivered(topic.topic, view);
      U.NothingLost(view);
      topic.Resubscribe(t);
    }

    /** Steps of other threads; they leave this subscription's own entry alone. */
    method Others(ghost t: Tid)
      requires Valid() && t == topic.chain.poller
      modifies topic.Repr()
      ensures Valid() && Later(old(topic.topic), topic.topic)
      ensures topic.lastSeen == old(topic.lastSeen) && topic.topic.registered == old(topic.topic.registered)
      ensures P.Rely(old(topic.chain.sys), topic.chain.sys, t)
      ensures old(topic.chain.trail) <= topic.chain.trail && topic.chain.Mine(t) == old(topic.chain.Mine(t))
    {
      hide P.WakeChain.Valid, P.WakeChain.Mine, P.Inv, U.DeliveriesOk, U.LossOk;
      ghost var before := topic.topic;
      topic.Interfere(t, false, false);
      U.DeliveriesOutliveWrites(before, topic.topic, view);
    }

    /** `ensure_registered`: afterwards the callback is in the list, and nothing else has changed. */
    method EnsureRegistered()
      requires Valid()
      modifies this`cb, topic`callbacks, topic`topic
      ensures Valid() && cb.Some? && (old(cb).None? ==> topic.topic.registered)
      ensures old(cb).Some? ==> cb == old(cb) && topic.callbacks == old(topic.callbacks) && topic.topic == old(topic.topic)
      ensures old(cb).None? ==> topic.callbacks == old(topic.callbacks) + [topic.me]
      ensures topic.topic == old(topic.topic).(registered := topic.topic.registered)
    {
      hide P.WakeChain.Valid, U.LossOk, U.DeliveriesOk;
      if cb.Some? {
        return;
      }
      ghost var before := topic.topic;
      topic.Add(topic.me);
      U.DeliveriesOutliveWrites(before, topic.topic, view);
      cb := Some(SubCbInner(0, true, 0));
    }

    /** `sub_cb_update` from the point where it found `cur` ahead: add the losses, copy the data, remember `cur`. */
    method CopyOut(ghost t: Tid, cur: nat) returns (payload: Bytes)
      requires Valid() && cb.Some? && view.lastSeen < cur <= topic.seqNo
      requires t == topic.chain.poller && topic.chain.sys.phase.Free?
      modifies this`cb, this`view, topic`lastSeen, topic.chain
      ensures Valid() && cb.Some? && cb.value.registered == old(cb.value.registered)
      ensures view == U.Deliver(topic.topic, old(view), cur) && payload == topic.topic.Data() && |payload| == topic.size
      ensures topic.chain.sys == old(topic.chain.sys).(ready := topic.seqNo > cur)
      ensures forall slot, cell :: P.At(old(topic.chain.sys), t, slot, cell) ==> P.At(topic.chain.sys, t, slot, cell)
      ensures old(topic.chain.trail) <= topic.chain.trail
      ensures topic.chain.Mine(t) == old(topic.chain.Mine(t)) + [P.Consume(topic.seqNo > cur)]
    {
      hide U.DeliveriesOk, U.LossOk, P.WakeChain.Valid, P.WakeChain.Mine, P.Inv, P.At;
      var skipped := cur - cb.value.lastSeen - 1;
      var lost := cb.value.lost;
      if skipped > 0 {
        lost := (lost + if skipped <= U.U32_MAX then skipped else U.U32_MAX) % (U.U32_MAX + 1);
      }
      LostFits(view);
      U.DeliveryKeepsOrder(topic.topic, view, cur);
      U.DeliveryKeepsLoss(topic.topic, view, cur);
      view := U.Deliver(topic.topic, view, cur);
      topic.See(t, cur);
      cb := Some(cb.value.(lastSeen := cur, lost := lost));
      payload := topic.data;
    }

    /**
      `sub_cb_update`, as the first check or, `again`, as the one after registering.  A payload
      comes back exactly if the sequence number, as read at `seen`, is ahead of `last_seen`; it
      is the data of the topic as of `taken`, not earlier than `seen`, and what was skipped has
      been added to the losses.  A second check that finds nothing leaves the task parked.
     */
    method Update(ghost t: Tid, ghost again: bool)
      returns (result: Option<Bytes>, ghost seen: U.Topic, ghost taken: U.Topic, ghost steps: seq<P.Action>)
      requires Valid() && cb.Some? && (topic.topic.registered || !again)
      requires t == topic.chain.poller && P.At(topic.chain.sys, t, AW.Idle, C.Idle)
      requires topic.chain.sys.phase == if again then P.Registered else P.Free
      modifies this, topic.Repr()
      ensures Valid() && cb.Some? && cb.value.registered == old(cb.value.registered)
      ensures Later(old(topic.topic), seen) && Later(seen, taken) && Later(taken, topic.topic)
      ensures result.Some? <==> seen.seqNo > old(view).lastSeen
      ensures result.Some? ==> view == U.Deliver(taken, old(view), seen.seqNo) && result.value == taken.Data()
      ensures result.Some? ==> |result.value| == topic.size
      ensures result.None? ==> view == old(view)
      ensures P.At(topic.chain.sys, t, AW.Idle, C.Idle) && topic.chain.sys.cell.run == old(topic.chain.sys.cell.run)
      ensures topic.chain.sys.phase == if again && result.None? then P.Blocked else P.Free
      ensures old(topic.chain.trail) <= topic.chain.trail
      ensures topic.chain.Mine(t) == old(topic.chain.Mine(t)) + steps
      ensures P.Checks(steps, again, result.Some?)
    {
      hide U.DeliveriesOk, U.LossOk, U.AddLost, P.WakeChain.Valid, P.WakeChain.Mine, P.Inv, P.At, TopicState.HistoryOk;
      ghost var own := topic.chain.Mine(t);
      Others(t);
      seen := topic.topic;
      var cur := topic.seqNo;
      SeenIs(cur, seen);
      steps := if again then [P.CheckAgain(true)] else [];
      assert topic.chain.sys.ready <==> cur > cb.value.lastSeen;
      if again {
        topic.chain.Checked(t);
        assert topic.chain.sys.phase == if cur > cb.value.lastSeen then P.Free else P.Blocked;
      }
      Regroup(own, [], steps);
      Others(t);
      taken := topic.topic;
      SeenIs(topic.seqNo, taken);
      if cur <= cb.value.lastSeen {
        return None, seen, taken, steps;
      }
      ghost var left := topic.seqNo > cur;
      var payload := CopyOut(t, cur);
      Regroup(own, steps, [P.Consume(left)]);
      steps := steps + [P.Consume(left)];
      result := Some(payload);
    }

    /** `try_recv`: registers on first use, then updates. */
    method TryRecv(ghost t: Tid)
      returns (result: Option<Bytes>, ghost seen: U.Topic, ghost taken: U.Topic, ghost steps: seq<P.Action>)
      requires Valid() && Owner(t)
      modifies this, topic.Repr()
      ensures Valid() && Owner(t) && cb.Some? && cb.value.registered == (old(cb).None? || old(cb).value.registered)
      ensures Later(old(topic.topic), seen) && Later(seen, taken) && Later(taken, topic.topic)
      ensures result.Some? <==> seen.seqNo > old(view).lastSeen
      ensures result.Some? ==> view == U.Deliver(taken, old(view), seen.seqNo) && result.value == taken.Data()
      ensures result.Some? ==> |result.value| == topic.size
      ensures result.None? ==> view == old(view)
      ensures topic.chain.sys.phase.Free? && topic.chain.sys.cell.run == old(topic.chain.sys.cell.run)
      ensures old(topic.chain.trail) <= topic.chain.trail
      ensures topic.chain.Mine(t) == old(topic.chain.Mine(t)) + ([P.Abandon] + steps) && P.Checks(steps, false, result.Some?)
    {
      hide U.DeliveriesOk, U.LossOk, U.AddLost, P.WakeChain.Valid, P.WakeChain.Mine, P.Inv, P.At, TopicState.HistoryOk, P.Checks;
      ghost var own, before := topic.chain.Mine(t), topic.topic;
      topic.chain.Abandon(t);
      EnsureRegistered();
      LaterIfRegistered(before, topic.topic);
      result, seen, taken, steps := Update(t, false);
      Regroup(own, [P.Abandon], steps);
    }

    /** The second `try_recv` of a `recv`, after `register` has returned. */
    method TryAgain(ghost t: Tid)
      returns (result: Option<Bytes>, ghost seen: U.Topic, ghost steps: seq<P.Action>)
      requires Valid() && cb.Some? && topic.topic.registered
      requires t == topic.chain.poller && P.At(topic.chain.sys, t, AW.Idle, C.Idle) && topic.chain.sys.phase.Registered?
      modifies this, topic.Repr()
      ensures Valid() && cb.Some? && Later(old(topic.topic), seen) && Later(seen, topic.topic)
      ensures result.Some? <==> seen.seqNo > old(view).lastSeen
      ensures result.None? ==> view == old(view)
      ensures result.Some? ==> view.lastSeen == seen.seqNo && view.deliveries != []
                               && result.value == view.deliveries[|view.deliveries| - 1].payload
      ensures P.At(topic.chain.sys, t, AW.Idle, C.Idle) && topic.chain.sys.cell.run == old(topic.chain.sys.cell.run)
      ensures topic.chain.sys.phase == if result.None? then P.Blocked else P.Free
      ensures old(topic.chain.trail) <= topic.chain.trail
      ensures topic.chain.Mine(t) == old(topic.chain.Mine(t)) + steps && P.Checks(steps, true, result.Some?)
    {
      hide U.DeliveriesOk, U.LossOk, U.AddLost, P.WakeChain.Valid, P.WakeChain.Mine, P.Inv, P.At, TopicState.HistoryOk, P.Checks;
      EnsureRegistered();
      ghost var taken;
      result, seen, taken, steps := Update(t, true);
    }

    /** The rest of `Recv::poll` after a `try_recv` that found nothing: register, and only then try again. */
    method Park(ghost t: Tid) returns (result: Option<Bytes>, ghost seen: U.Topic, ghost steps: seq<P.Action>)
      requires Valid() && cb.Some? && topic.topic.registered && Owner(t)
      requires topic.chain.sys.phase.Free? && topic.chain.sys.cell.run.Polling?
      modifies this, topic.Repr()
      ensures Valid() && cb.Some? && Owner(t) && topic.chain.sys.cell.run.Polling?
      ensures Later(old(topic.topic), seen) && Later(seen, topic.topic)
      ensures result.Some? <==> seen.seqNo > old(view).lastSeen
      ensures result.None? ==> view == old(view)
      ensures result.Some? ==> view.lastSeen == seen.seqNo && view.deliveries != []
                               && result.value == view.deliveries[|view.deliveries| - 1].payload
      ensures topic.chain.sys.phase == if result.None? then P.Blocked else P.Free
      ensures old(topic.chain.trail) <= topic.chain.trail
      ensures topic.chain.Mine(t) == old(topic.chain.Mine(t)) + steps && P.ParksOrFinds(steps, t, result.Some?)
    {
      hide U.DeliveriesOk, U.LossOk, U.AddLost, P.WakeChain.Valid, P.WakeChain.Mine, P.Inv, P.At;
      hide TopicState.HistoryOk, P.Checks, P.ParksOrFinds;
      ghost var own, before := topic.chain.Mine(t), topic.topic;
      ghost var within := topic.chain.Register(t);
      CatchUp(t);
      result, seen, steps := TryAgain(t);
      Regroup(own, [P.Register] + within + [P.Return], steps);
      P.ParksOrFindsWith(within, steps, t, result.Some?);
      steps := [P.Register] + within + [P.Return] + steps;
    }

    /**
      `Recv::poll`.  The task tries; finding nothing it registers, and only after that tries
      again.  Towards its wake chain it does nothing else.  A payload is the latest delivery, of a
      generation read at `seen`; Pending means that the sequence number was not ahead at `seen`, and
      leaves the task parked: the system's record of it is Blocked.
     */
    method Poll(ghost t: Tid) returns (result: Option<Bytes>, ghost seen: U.Topic, ghost steps: seq<P.Action>)
      requires Valid() && Owner(t) && topic.chain.sys.cell.run.Polling?
      modifies this, topic.Repr()
      ensures Valid() && cb.Some? && Owner(t) && topic.chain.sys.cell.run.Polling?
      ensures Later(old(topic.topic), seen) && Later(seen, topic.topic)
      ensures result.Some? <==> seen.seqNo > old(view).lastSeen
      ensures result.None? ==> view == old(view)
      ensures result.Some? ==> view.lastSeen == seen.seqNo && view.deliveries != []
                               && result.value == view.deliveries[|view.deliveries| - 1].payload
      ensures topic.chain.sys.phase == if result.None? then P.Blocked else P.Free
      ensures old(topic.chain.trail) <= topic.chain.trail
      ensures topic.chain.Mine(t) == old(topic.chain.Mine(t)) + ([P.Abandon] + steps)
      ensures (result.Some? && P.Checks(steps, false, true)) || P.ParksOrFinds(steps, t, result.Some?)
    {
      hide U.DeliveriesOk, U.LossOk, U.AddLost, P.WakeChain.Valid, P.WakeChain.Mine, P.Inv, P.At;
      hide TopicState.HistoryOk, P.Checks, P.ParksOrFinds, Later;
      ghost var own, before, taken := topic.chain.Mine(t), topic.topic, topic.topic;
      result, seen, taken, steps := TryRecv(t);
      LaterIsTransitive(before, seen, taken);
      LaterIsTransitive(seen, taken, topic.topic);
      if result.None? {
        ghost var atPark := topic.topic;
        LaterIsTransitive(before, seen, atPark);
        P.NothingFound(steps);
        Regroup(own, [P.Abandon], []);
        result, seen, steps := Park(t);
        LaterIsTransitive(before, atPark, seen);
        Regroup(own, [P.Abandon], steps);
      }
    }

    /** What other threads did to the topic while the task was inside `register`; the code acts for them. */
    method CatchUp(ghost t: Tid)
      requires topic.HistoryOk() && topic.chain.Valid() && topic.chain.sys.poller == topic.chain.poller
      requires ViewOk() && cb.Some? && topic.topic.registered && t == topic.chain.poller
      requires topic.seqNo > topic.lastSeen ==> topic.chain.sys.ready
      modifies topic
      ensures Valid() && Later(old(topic.topic), topic.topic) && topic.topic.registered
    {
      hide P.WakeChain.Valid, U.DeliveriesOk, U.LossOk;
      ghost var before := topic.topic;
      topic.CatchUp(t);
      U.DeliveriesOutliveWrites(before, topic.topic, view);
    }

    lemma SeenIs(cur: nat, seen: U.Topic)
      requires topic.Valid() && cur == topic.seqNo && seen == topic.topic
      ensures cur == seen.seqNo
    {
    }

    /** `RawSubscription::try_recv`: a buffer that is too short is refused before anything is registered. */
    method TryRecvBytes(ghost t: Tid, buf: array<bv8>) returns (n: Option<nat>, ghost seen: U.Topic, ghost taken: U.Topic)
      requires Valid() && Owner(t)
      modifies this, topic.Repr(), buf
      ensures Valid() && Owner(t)
      ensures buf.Length < topic.size ==> n == None && cb == old(cb) && view == old(view) && topic.callbacks == old(topic.callbacks)
      ensures buf.Length >= topic.size ==> (n.Some? <==> seen.seqNo > old(view).lastSeen)
      ensures n.Some? ==> n.value == topic.size <= buf.Length && view == U.Deliver(taken, old(view), seen.seqNo)
      ensures n.Some? ==> buf[..] == taken.Data() + old(buf[topic.size..])
      ensures n.None? ==> view == old(view) && buf[..] == old(buf[..])
    {
      hide U.DeliveriesOk, U.LossOk, U.AddLost, P.WakeChain.Valid, P.WakeChain.Mine, P.Inv, P.At, TopicState.HistoryOk, P.Checks;
      seen, taken := topic.topic, topic.topic;
      if buf.Length < topic.size {
        return None, seen, taken;
      }
      var result;
      ghost var steps;
      result, seen, taken, steps := TryRecv(t);
      if result.None? {
        return None, seen, taken;
      }
      forall i | 0 <= i < topic.size {
        buf[i] := result.value[i];
      }
      return Some(topic.size), seen, taken;
    }

    /** `sub_cb_lost_take`, and `missed_count` with no callback yet: the losses since the last call. */
    method MissedCount() returns (n: nat)
      requires Valid()
      modifies this`cb, this`view
      ensures Valid() && n == old(view).lost && view == old(view).(drained := old(view).drained + n, lost := 0)
    {
      hide TopicState.Valid;
      if cb.None? {
        return 0;
      }
      n := cb.value.lost;
      view := view.(drained := view.drained + n, lost := 0);
      cb := Some(cb.value.(lost := 0));
    }

    /** `Drop` (`sub_cb_delete`, `sub_cb_unregister`): no later dispatch can reach this subscription's waker. */
    method Drop(ghost t: Tid)
      requires Valid() && Owner(t)
      modifies this, topic`callbacks, topic`topic, topic.chain
      ensures topic.Valid() && Owner(t) && cb == None && topic.me !in topic.callbacks && topic.chain.sys.phase.Free?
      ensures topic.topic == old(topic.topic).(registered := false)
      ensures topic.callbacks == if old(cb).Some? then Without(old(topic.callbacks), topic.me) else old(topic.callbacks)
    {
      hide P.WakeChain.Valid, P.WakeChain.Mine, P.Inv, P.At;
      topic.chain.Abandon(t);
      if cb.Some? {
        if cb.value.registered {
          topic.Remove(topic.me);
        }
        cb := None;
      }
      topic.ListedIffRegistered();
    }
  }

  lemma LaterIsReflexive(a: U.Topic)
    ensures Later(a, a)
  {
  }

  lemma LaterIsTransitive(a: U.Topic, b: U.Topic, c: U.Topic)
    requires Later(a, b) && Later(b, c)
    ensures Later(a, c)
  {
  }

  lemma LaterIfRegistered(a: U.Topic, b: U.Topic)
    requires b == a.(registered := b.registered)
    ensures Later(a, b)
  {
  }

  lemma LostFits(view: U.Subscriber)
    requires U.LossOk(view)
    ensures view.lost <= U.U32_MAX
  {
  }

  // ------------------------------------------------------------------ a publication

  datatype PubError = SizeMismatch

  /** `Publication` and its byte-shaped twin.  A handle is a share of the topic, leaked to its holder. */
  class Publication {
    const topic: TopicState
    var handle: bool                 // non-null
    var shares: nat                  // leaked by `advertise` and not reclaimed by `unadvertise`
    ghost var hands: set<Tid>        // threads carrying a share they have not installed

    /** Every share is either the installed handle or in the hands of exactly one thread. */
    ghost predicate SharesOk()
      reads this
    {
      shares == (if handle then 1 else 0) + |hands|
    }

    ghost predicate Valid()
      reads this, topic, topic.chain, topic.chain.waker, topic.chain.cell
    {
      topic.Valid() && SharesOk()
    }

    /** The thread may call a method of the publication. */
    ghost predicate Able(t: Tid)
      reads this, topic, topic.chain
    {
      t !in hands && topic.Able(t)
    }

    constructor (topic: TopicState)
      requires topic.Valid()
      ensures Valid() && this.topic == topic && !handle && shares == 0 && hands == {}
    {
      this.topic, handle, shares, hands := topic, false, 0, {};
    }

    /** Steps of other publishers, of this publication or another one; none unadvertises. */
    method Others(ghost t: Tid, ghost alone: bool)
      requires Valid()
      modifies this, topic.Repr()
      ensures Valid() && Later(old(topic.topic), topic.topic)
      ensures t in hands <==> t in old(hands)
      ensures t in topic.between <==> t in old(topic.between)
      ensures old(handle) ==> handle
      ensures old(Able(t)) ==> Able(t)
      ensures topic.Own(t, old(topic.lastSeen), old(topic.chain.sys))
      ensures P.Rely(old(topic.chain.sys), topic.chain.sys, t)
      ensures old(topic.chain.trail) <= topic.chain.trail && topic.chain.Mine(t) == old(topic.chain.Mine(t))
      ensures alone ==> unchanged(this) && unchanged(topic) && unchanged(topic.chain)
    {
    }

    /** `ffi::advertise`: one generation, and a share for the caller. */
    method Advertise(ghost t: Tid, m: Bytes, ghost alone: bool) returns (ghost steps: seq<P.Action>)
      requires Valid() && |m| == topic.size && Able(t)
      modifies this, topic.Repr()
      ensures Valid() && hands == old(hands) + {t} && handle == old(handle) && topic.Able(t) && t !in topic.chain.sys.signals
      ensures Later(old(topic.topic), topic.topic) && topic.Own(t, old(topic.lastSeen), old(topic.chain.sys))
      ensures old(topic.chain.trail) <= topic.chain.trail
      ensures topic.chain.Mine(t) == old(topic.chain.Mine(t)) + steps && Generation(steps, t)
      ensures alone ==> topic.topic == U.Bumped(old(topic.topic).(writes := old(topic.topic).writes + [m]), U.Advertise(true))
                                       .(calls := topic.topic.calls)
    {
      hide TopicState.Valid, TopicState.Able, P.WakeChain.Mine, Generation;
      ghost var atCopy, atCount, atLock, listed, before;
      atCopy, atCount, atLock, listed, before, steps := topic.Generate(t, m, U.Advertise(true), alone);
      shares := shares + 1;
      hands := hands + {t};
    }

    /** `compare_exchange(null, h)`; the loser's share is given back by `ffi::unadvertise`. */
    method Install(ghost t: Tid)
      requires Valid() && t in hands
      modifies this
      ensures Valid() && handle && hands == old(hands) - {t}
      ensures shares == if old(handle) then old(shares) - 1 else old(shares)
    {
      hide TopicState.Valid;
      hands := hands - {t};
      if !handle {
        handle := true;
      } else {
        shares := shares - 1;
      }
    }

    /** `ensure_advertised`: on return a handle is installed and the caller carries none. */
    method EnsureAdvertised(ghost t: Tid, m: Bytes, ghost alone: bool) returns (ghost steps: seq<P.Action>)
      requires Valid() && |m| == topic.size && Able(t)
      modifies this, topic.Repr()
      ensures Valid() && handle && Able(t) && (old(t !in topic.chain.sys.signals) ==> t !in topic.chain.sys.signals)
      ensures Later(old(topic.topic), topic.topic) && topic.Own(t, old(topic.lastSeen), old(topic.chain.sys))
      ensures old(topic.chain.trail) <= topic.chain.trail
      ensures topic.chain.Mine(t) == old(topic.chain.Mine(t)) + steps && (steps == [] || Generation(steps, t))
      ensures alone && old(handle) ==> topic.topic == old(topic.topic)
      ensures alone && !old(handle) ==>
                topic.topic == U.Bumped(old(topic.topic).(writes := old(topic.topic).writes + [m]), U.Advertise(true))
                               .(calls := topic.topic.calls)
    {
      hide TopicState.Valid, P.WakeChain.Mine, P.Inv, P.At, Generation;
      ghost var own := topic.chain.Mine(t);
      Others(t, alone);
      steps := [];
      Regroup(own, [], []);
      if !handle {
        steps := Advertise(t, m, alone);
        Others(t, alone);
        Install(t);
      }
    }

    /**
      `publish`.  The sample is the topic's next write after those in `atCopy`, and a generation was
      counted after it was written, at `atCount`; towards the subscribed task the caller makes a generation of signals, two if
      it had to advertise.  Undisturbed, the first call makes two generations and each later one one.
     */
    method Publish(ghost t: Tid, m: Bytes, ghost alone: bool)
      returns (ghost adv: seq<P.Action>, ghost gen: seq<P.Action>, ghost atCopy: U.Topic, ghost atCount: U.Topic)
      requires Valid() && |m| == topic.size && Able(t)
      modifies this, topic.Repr()
      ensures Valid() && handle && Able(t) && t !in topic.chain.sys.signals
      ensures Later(old(topic.topic), topic.topic) && topic.topic.published > old(topic.topic.published)
      ensures exists i :: |old(topic.topic.writes)| <= i < |topic.topic.writes| && topic.topic.writes[i] == m
      ensures Later(old(topic.topic), atCopy) && atCopy.writes + [m] <= atCount.writes && Later(atCopy, atCount)
      ensures Later(U.Bumped(atCount, U.Publish), topic.topic)
      ensures topic.Own(t, old(topic.lastSeen), old(topic.chain.sys))
      ensures old(topic.chain.trail) <= topic.chain.trail
      ensures topic.chain.Mine(t) == old(topic.chain.Mine(t)) + (adv + gen)
      ensures Generation(gen, t) && (adv == [] || Generation(adv, t))
      ensures alone ==>
                && topic.topic.published == old(topic.topic.published) + 1
                && topic.topic.advertised == old(topic.topic.advertised) + (if old(handle) then 0 else 1)
                && topic.topic.writes == old(topic.topic.writes) + (if old(handle) then [m] else [m, m])
    {
      hide TopicState.Valid, TopicState.Able, P.WakeChain.Mine, P.Inv, P.At, Generation;
      ghost var own := topic.chain.Mine(t);
      adv := EnsureAdvertised(t, m, alone);
      Others(t, alone);
      ghost var atLock, listed, before;
      atCopy, atCount, atLock, listed, before, gen := topic.Generate(t, m, U.Publish, alone);
      Regroup(own, adv, gen);
      assert topic.topic.writes[|atCopy.writes|] == m;
    }

    /** `RawPublication::publish`: a slice of the wrong length is refused and nothing changes. */
    method PublishBytes(ghost t: Tid, data: Bytes, ghost alone: bool) returns (result: Result<(), PubError>)
      requires Valid() && Able(t)
      modifies this, topic.Repr()
      ensures Valid() && Able(t)
      ensures result.Ok? <==> |data| == topic.size
      ensures result.Err? ==> unchanged(this) && unchanged(topic) && unchanged(topic.chain)
      ensures result.Ok? ==> handle && topic.topic.published > old(topic.topic.published) && t !in topic.chain.sys.signals
      ensures result.Ok? ==>
                exists i :: |old(topic.topic.writes)| <= i < |topic.topic.writes| && topic.topic.writes[i] == data
    {
      hide TopicState.Valid, TopicState.Able, P.WakeChain.Mine, P.Inv, P.At, Generation;
      if |data| != topic.size {
        return Err(SizeMismatch);
      }
      ghost var adv, gen, atCopy, atCount := Publish(t, data, alone);
      return Ok(());
    }

    /**
      `unadvertise` and `Drop`: the installed share is reclaimed, once; a second call does nothing.
      Shares that other threads carry stay theirs.
     */
    method Unadvertise()
      requires Valid()
      modifies this
      ensures Valid() && !handle && hands == old(hands)
      ensures shares == |hands| == if old(handle) then old(shares) - 1 else old(shares)
    {
      hide TopicState.Valid;
      var h := handle;
      handle := false;
      if h {
        shares := shares - 1;
      }
    }
  }
}
