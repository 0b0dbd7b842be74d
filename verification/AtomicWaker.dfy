/**
  The single-slot waker store.  Every atomic operation on the state word and every
  exclusive access to the slot is one step of a transition system in which any number of
  threads call `register` and `wake` at once.  The k-th call of `register` passes waker
  number k, so a number names one registration.

  `owner` and `place` are auxiliary: no step reads them.  They record who won the slot and
  what became of each waker, and the invariant ties them to the real state.
 */
module AtomicWakers {
  import opened Prelude

  type Word = bv8

  const WAITING: Word := 0
  const REGISTERING: Word := 1
  const WAKING: Word := 2

  /** Where a thread stands inside `register` or `wake`: the next operation it will perform. */
  datatype Pc =
    | Idle
    | RegWrite(k: nat)                    // won the slot for registering, will write the waker
    | RegFinish(k: nat)                   // will exchange REGISTERING for WAITING
    | RegDrain(k: nat)                    // that exchange failed, will take the slot
    | RegRelease(held: Option<nat>)       // will swap WAITING in
    | TakeSlot                            // won the slot for waking, will take it
    | TakeRelease(held: Option<nat>)      // will clear WAKING
    | Invoke(k: nat)                      // will call the waker
  {
    predicate Registers() { RegWrite? || RegFinish? || RegDrain? || RegRelease? }
    predicate Takes() { TakeSlot? || TakeRelease? }
    predicate Owns() { Registers() || Takes() }

    /** The waker in the thread's hands, if any. */
    function Carried(): Option<nat> {
      match this
      case RegWrite(k) => Some(k)
      case RegRelease(held) => held
      case TakeRelease(held) => held
      case Invoke(k) => Some(k)
      case _ => None
    }
  }

  datatype Place = Held(holder: Tid) | InSlot | Invoked | Replaced | Refused

  datatype State = State(
    word: Word,
    slot: Option<nat>,
    pcs: map<Tid, Pc>,
    issued: nat,
    calls: seq<nat>,
    owner: Option<Tid>,
    place: map<nat, Place>)

  function Init(threads: set<Tid>): State {
    State(WAITING, None, map t | t in threads :: Idle, 0, [], None, map[])
  }

  datatype Op = Register | Wake | Resume | Renew

  predicate Enabled(s: State, t: Tid, op: Op) {
    t in s.pcs && (s.pcs[t].Idle? <==> op != Resume)
  }

  /** `register`: the opening compare-exchange, and the branch on the value it saw. */
  function RegisterCas(s: State, t: Tid): State
    requires t in s.pcs
  {
    var k := s.issued;
    var s1 := s.(issued := k + 1);
    if s.word == WAITING then
      s1.(word := REGISTERING, pcs := s.pcs[t := RegWrite(k)], owner := Some(t), place := s.place[k := Held(t)])
    else if s.word == WAKING then
      s1.(pcs := s.pcs[t := Invoke(k)], place := s.place[k := Held(t)])
    else
      s1.(place := s.place[k := Refused])
  }

  function WriteSlot(s: State, t: Tid): State
    requires t in s.pcs && s.pcs[t].RegWrite?
  {
    var k := s.pcs[t].k;
    var place := if s.slot.Some? then s.place[s.slot.value := Replaced] else s.place;
    s.(slot := Some(k), pcs := s.pcs[t := RegFinish(k)], place := place[k := InSlot])
  }

  function FinishCas(s: State, t: Tid): State
    requires t in s.pcs && s.pcs[t].RegFinish?
  {
    if s.word == REGISTERING then
      s.(word := WAITING, pcs := s.pcs[t := Idle], owner := None)
    else
      s.(pcs := s.pcs[t := RegDrain(s.pcs[t].k)])
  }

  /** Taking the slot, on either side of the protocol. */
  function TakeFromSlot(s: State, t: Tid, next: Pc): State
    requires t in s.pcs
  {
    s.(slot := None, pcs := s.pcs[t := next],
       place := if s.slot.Some? then s.place[s.slot.value := Held(t)] else s.place)
  }

  /** Giving the slot back with the word set to `word`; the holder goes on to call what it holds. */
  function Release(s: State, t: Tid, word: Word, held: Option<nat>): State
    requires t in s.pcs
  {
    s.(word := word, pcs := s.pcs[t := if held.Some? then Invoke(held.value) else Idle], owner := None)
  }

  function InvokeWaker(s: State, t: Tid): State
    requires t in s.pcs && s.pcs[t].Invoke?
  {
    var k := s.pcs[t].k;
    s.(pcs := s.pcs[t := Idle], calls := s.calls + [k], place := s.place[k := Invoked])
  }

  /** `take`: the opening fetch-or, and the branch on the value it saw. */
  function WakeFetchOr(s: State, t: Tid): State
    requires t in s.pcs
  {
    if s.word == WAITING then
      s.(word := s.word | WAKING, pcs := s.pcs[t := TakeSlot], owner := Some(t))
    else
      s.(word := s.word | WAKING)
  }

  /** The owner of a slot at rest drops it and starts with a new one; the waker in it is dropped with it. */
  function RenewSlot(s: State): (s': State)
    ensures s'.pcs == s.pcs
  {
    if s.word != WAITING then s
    else s.(slot := None, place := if s.slot.Some? then s.place[s.slot.value := Replaced] else s.place)
  }

  function Exec(s: State, t: Tid, op: Op): State
    requires Enabled(s, t, op)
  {
    match op
    case Register => RegisterCas(s, t)
    case Wake => WakeFetchOr(s, t)
    case Renew => RenewSlot(s)
    case Resume =>
      match s.pcs[t]
      case RegWrite(_) => WriteSlot(s, t)
      case RegFinish(_) => FinishCas(s, t)
      case RegDrain(_) => TakeFromSlot(s, t, RegRelease(s.slot))
      case RegRelease(held) => Release(s, t, WAITING, held)
      case TakeSlot => TakeFromSlot(s, t, TakeRelease(s.slot))
      case TakeRelease(held) => Release(s, t, s.word & !WAKING, held)
      case Invoke(_) => InvokeWaker(s, t)
  }

  lemma StepKeepsThreads(s: State, t: Tid, op: Op)
    requires Enabled(s, t, op)
    ensures Exec(s, t, op).pcs.Keys == s.pcs.Keys
    ensures forall u :: u in s.pcs && u != t ==> Exec(s, t, op).pcs[u] == s.pcs[u]
  {
    StepMovesOne(s, t, op);
    hide Exec;
  }

  /** Inside a call a thread stays in the kind of call it is in, or leaves the part that owns the slot. */
  lemma ResumeKeepsKind(s: State, t: Tid)
    requires Enabled(s, t, Resume)
    ensures t in Exec(s, t, Resume).pcs
    ensures Exec(s, t, Resume).pcs[t].Registers() ==> s.pcs[t].Registers()
    ensures Exec(s, t, Resume).pcs[t].Takes() ==> s.pcs[t].Takes()
  {
  }

  lemma StepMovesOne(s: State, t: Tid, op: Op)
    requires Enabled(s, t, op)
    ensures t in Exec(s, t, op).pcs
    ensures Exec(s, t, op).pcs == s.pcs || Exec(s, t, op).pcs == s.pcs[t := Exec(s, t, op).pcs[t]]
  {
    var pcs := Exec(s, t, op).pcs;
    match op
    case Register => assert pcs == s.pcs || pcs == s.pcs[t := pcs[t]];
    case Wake => assert pcs == s.pcs || pcs == s.pcs[t := pcs[t]];
    case Renew => assert pcs == s.pcs;
    case Resume => assert pcs == s.pcs[t := pcs[t]];
  }

  lemma StepKeepsHistory(s: State, t: Tid, op: Op)
    requires Enabled(s, t, op)
    ensures s.issued <= Exec(s, t, op).issued && s.calls <= Exec(s, t, op).calls
  {
    match op
    case Register =>
    case Wake =>
    case Renew =>
    case Resume =>
  }

  // ------------------------------------------------------------------ invariant

  /** The word says whether the slot is owned and on which side. */
  ghost predicate WordAgrees(s: State) {
    match s.owner
    case None => s.word == WAITING
    case Some(t) =>
      && t in s.pcs
      && s.pcs[t].Owns()
      && (if s.pcs[t].Takes() then s.word == WAKING else s.word == REGISTERING || s.word == REGISTERING | WAKING)
  }

  ghost predicate ThreadOk(s: State, t: Tid)
    requires t in s.pcs
  {
    var pc := s.pcs[t];
    && (pc.Owns() ==> s.owner == Some(t))
    && (pc.RegFinish? ==> s.slot == Some(pc.k))
    && (pc.RegDrain? ==> s.slot == Some(pc.k) && s.word == REGISTERING | WAKING)
    && (pc.RegRelease? ==> s.slot.None? && pc.held.Some? && s.word == REGISTERING | WAKING)
    && (pc.TakeRelease? ==> s.slot.None?)
    && (pc.Carried().Some? ==> pc.Carried().value in s.place && s.place[pc.Carried().value] == Held(t))
  }

  ghost predicate WakerOk(s: State, k: nat)
    requires k in s.place
  {
    && k < s.issued
    && (s.place[k].InSlot? ==> s.slot == Some(k))
    && (s.place[k].Held? ==> s.place[k].holder in s.pcs && s.pcs[s.place[k].holder].Carried() == Some(k))
    && (s.place[k].Invoked? <==> k in s.calls)
  }

  ghost predicate CallsOk(s: State) {
    && (forall k :: k in s.calls ==> k in s.place)
    && (forall i, j :: 0 <= i < j < |s.calls| ==> s.calls[i] != s.calls[j])
  }

  ghost predicate Inv(s: State) {
    && WordAgrees(s)
    && CallsOk(s)
    && (s.slot.Some? ==> s.slot.value in s.place && s.place[s.slot.value].InSlot?)
    && (forall k: nat :: k < s.issued ==> k in s.place)
    && (forall k: nat :: k in s.place ==> WakerOk(s, k))
    && (forall t :: t in s.pcs ==> ThreadOk(s, t))
  }

  lemma RegisterCasKeepsInv(s: State, t: Tid)
    requires Inv(s) && t in s.pcs && s.pcs[t].Idle?
    ensures Inv(RegisterCas(s, t))
  {
    var s' := RegisterCas(s, t);
    forall k: nat | k in s.place
      ensures WakerOk(s', k)
    {
      assert WakerOk(s, k);
    }
    forall u | u in s.pcs
      ensures ThreadOk(s', u)
    {
      assert ThreadOk(s, u);
    }
  }

  lemma WakeFetchOrKeepsInv(s: State, t: Tid)
    requires Inv(s) && t in s.pcs && s.pcs[t].Idle?
    ensures Inv(WakeFetchOr(s, t))
  {
  }

  lemma WriteSlotKeepsInv(s: State, t: Tid)
    requires Inv(s) && t in s.pcs && s.pcs[t].RegWrite?
    ensures Inv(WriteSlot(s, t))
  {
  }

  lemma FinishCasKeepsInv(s: State, t: Tid)
    requires Inv(s) && t in s.pcs && s.pcs[t].RegFinish?
    ensures Inv(FinishCas(s, t))
  {
  }

  lemma DrainKeepsInv(s: State, t: Tid)
    requires Inv(s) && t in s.pcs && s.pcs[t].RegDrain?
    ensures Inv(TakeFromSlot(s, t, RegRelease(s.slot)))
  {
  }

  lemma TakeKeepsInv(s: State, t: Tid)
    requires Inv(s) && t in s.pcs && s.pcs[t].TakeSlot?
    ensures Inv(TakeFromSlot(s, t, TakeRelease(s.slot)))
  {
  }

  lemma RegReleaseKeepsInv(s: State, t: Tid)
    requires Inv(s) && t in s.pcs && s.pcs[t].RegRelease?
    ensures Inv(Release(s, t, WAITING, s.pcs[t].held))
  {
  }

  lemma TakeReleaseKeepsInv(s: State, t: Tid)
    requires Inv(s) && t in s.pcs && s.pcs[t].TakeRelease?
    ensures Inv(Release(s, t, s.word & !WAKING, s.pcs[t].held))
  {
  }

  lemma InvokeKeepsInv(s: State, t: Tid)
    requires Inv(s) && t in s.pcs && s.pcs[t].Invoke?
    ensures Inv(InvokeWaker(s, t))
  {
    var s' := InvokeWaker(s, t);
    assert ThreadOk(s, t);
    forall k: nat | k in s.place
      ensures WakerOk(s', k)
    {
      assert WakerOk(s, k);
    }
    forall u | u in s.pcs
      ensures ThreadOk(s', u)
    {
      assert ThreadOk(s, u);
    }
  }

  lemma RenewKeepsInv(s: State)
    requires Inv(s)
    ensures Inv(RenewSlot(s))
  {
    var s' := RenewSlot(s);
    forall k: nat | k in s.place
      ensures WakerOk(s', k)
    {
      assert WakerOk(s, k);
    }
    forall t | t in s.pcs
      ensures ThreadOk(s', t)
    {
      assert ThreadOk(s, t);
    }
  }

  lemma StepKeepsInv(s: State, t: Tid, op: Op)
    requires Inv(s) && Enabled(s, t, op)
    ensures Inv(Exec(s, t, op))
  {
    match op
    case Register => RegisterCasKeepsInv(s, t);
    case Wake => WakeFetchOrKeepsInv(s, t);
    case Renew => RenewKeepsInv(s);
    case Resume =>
      match s.pcs[t]
      case RegWrite(_) => WriteSlotKeepsInv(s, t);
      case RegFinish(_) => FinishCasKeepsInv(s, t);
      case RegDrain(_) => DrainKeepsInv(s, t);
      case RegRelease(_) => RegReleaseKeepsInv(s, t);
      case TakeSlot => TakeKeepsInv(s, t);
      case TakeRelease(_) => TakeReleaseKeepsInv(s, t);
      case Invoke(_) => InvokeKeepsInv(s, t);
  }

  // ------------------------------------------------------------------ runs

  /** One scheduled step: the thread that moves and what it does. */
  datatype Move = Move(t: Tid, op: Op)

  /** `script` can be run from `s` and ends in `last`: one interleaving of the threads' steps. */
  ghost predicate Runs(s: State, script: seq<Move>, last: State)
    decreases |script|
  {
    if script == [] then s == last
    else Enabled(s, script[0].t, script[0].op) && Runs(Exec(s, script[0].t, script[0].op), script[1..], last)
  }

  lemma {:induction false} RunKeepsInv(s: State, script: seq<Move>, last: State)
    requires Inv(s) && Runs(s, script, last)
    ensures Inv(last)
    decreases |script|
  {
    if script != [] {
      StepKeepsInv(s, script[0].t, script[0].op);
      RunKeepsInv(Exec(s, script[0].t, script[0].op), script[1..], last);
    }
  }

  /** No thread is inside `register` or `wake`. */
  ghost predicate Quiescent(s: State) {
    forall t :: t in s.pcs ==> s.pcs[t].Idle?
  }

  /**
    Exclusion.  In every interleaving the slot has at most one owner, the state word tells
    which kind of owner, and both debug assertions of `register` hold.
   */
  lemma Exclusion(threads: set<Tid>, script: seq<Move>, s: State)
    requires Runs(Init(threads), script, s)
    ensures forall t, u :: t in s.pcs && u in s.pcs && s.pcs[t].Owns() && s.pcs[u].Owns() ==> t == u
    ensures s.word == WAITING <==> forall t :: t in s.pcs ==> !s.pcs[t].Owns()
    ensures s.word == WAKING <==> exists t :: t in s.pcs && s.pcs[t].Takes()
    ensures s.word == REGISTERING || s.word == REGISTERING | WAKING <==> exists t :: t in s.pcs && s.pcs[t].Registers()
    ensures forall t :: t in s.pcs && s.pcs[t].RegFinish? && s.word != REGISTERING ==> s.word == REGISTERING | WAKING
    ensures s.word != WAITING && s.word != WAKING ==> s.word == REGISTERING || s.word == REGISTERING | WAKING
  {
    RunKeepsInv(Init(threads), script, s);
    if s.owner.Some? {
      assert ThreadOk(s, s.owner.value);
    }
  }

  function Bit(b: bool): nat { if b then 1 else 0 }

  ghost predicate CarriedBySome(s: State, k: nat) {
    exists t :: t in s.pcs && s.pcs[t].Carried() == Some(k)
  }

  /**
    Conservation.  In every interleaving, whatever the number of registering and waking
    threads, each waker handed to `register` is in exactly one place: called (once),
    replaced by a later registration or dropped with the slot, refused because another registration held the slot,
    in the slot, or in the hands of one thread.
   */
  lemma Conservation(threads: set<Tid>, script: seq<Move>, s: State, k: nat)
    requires Runs(Init(threads), script, s)
    requires k < s.issued
    ensures k in s.place
    ensures Bit(k in s.calls) + Bit(s.place[k].Replaced?) + Bit(s.place[k].Refused?)
            + Bit(s.slot == Some(k)) + Bit(CarriedBySome(s, k)) == 1
    ensures forall i, j :: 0 <= i < j < |s.calls| ==> s.calls[i] != s.calls[j]
    ensures forall t, u :: t in s.pcs && u in s.pcs && s.pcs[t].Carried() == Some(k) && s.pcs[u].Carried() == Some(k) ==> t == u
  {
    RunKeepsInv(Init(threads), script, s);
    assert WakerOk(s, k);
    if CarriedBySome(s, k) {
      var t :| t in s.pcs && s.pcs[t].Carried() == Some(k);
      assert ThreadOk(s, t);
    }
    if s.place[k].Held? {
      assert s.pcs[s.place[k].holder].Carried() == Some(k);
    }
  }

  // ------------------------------------------------------------------ one registrant

  ghost predicate OnlyRegistrant(script: seq<Move>, r: Tid) {
    forall i :: 0 <= i < |script| && script[i].op.Register? ==> script[i].t == r
  }

  ghost predicate Unrefused(s: State, r: Tid) {
    && (forall t :: t in s.pcs && s.pcs[t].Registers() ==> t == r)
    && (forall k: nat :: k in s.place ==> !s.place[k].Refused?)
  }

  lemma StepKeepsUnrefused(s: State, t: Tid, op: Op, r: Tid)
    requires Inv(s) && Unrefused(s, r) && Enabled(s, t, op) && (op.Register? ==> t == r)
    ensures Unrefused(Exec(s, t, op), r)
  {
    hide WakerOk, CallsOk;
    if s.owner.Some? { assert ThreadOk(s, s.owner.value); }
  }

  /** With a single registering task no registration is ever refused. */
  lemma {:induction false} SingleRegistrantIsNeverRefused(s: State, script: seq<Move>, last: State, r: Tid)
    requires Inv(s) && Unrefused(s, r)
    requires OnlyRegistrant(script, r) && Runs(s, script, last)
    ensures Unrefused(last, r)
    decreases |script|
  {
    hide Inv, Exec, Unrefused;
    if script != [] {
      StepKeepsInv(s, script[0].t, script[0].op);
      StepKeepsUnrefused(s, script[0].t, script[0].op, r);
      SingleRegistrantIsNeverRefused(Exec(s, script[0].t, script[0].op), script[1..], last, r);
    }
  }

  // ------------------------------------------------------------------ a wake reaches what was stored

  /** Waker `k` has been called, replaced, is being carried to its call, or sits in a slot marked WAKING. */
  ghost predicate Reached(s: State, k: nat) {
    && k in s.place
    && !s.place[k].Refused?
    && (s.place[k].InSlot? ==> s.word == WAKING || s.word == REGISTERING | WAKING)
    && (s.place[k].Held? ==> s.place[k].holder in s.pcs && !s.pcs[s.place[k].holder].RegWrite?)
  }

  lemma StepKeepsReached(s: State, t: Tid, op: Op, k: nat)
    requires Inv(s) && Enabled(s, t, op) && Reached(s, k)
    ensures Reached(Exec(s, t, op), k)
  {
    hide CallsOk;
    assert ThreadOk(s, t) && WakerOk(s, k);
  }

  lemma {:induction false} RunKeepsReached(s: State, script: seq<Move>, last: State, k: nat)
    requires Inv(s) && Runs(s, script, last) && Reached(s, k)
    ensures Reached(last, k)
    decreases |script|
  {
    if script != [] {
      StepKeepsInv(s, script[0].t, script[0].op);
      StepKeepsReached(s, script[0].t, script[0].op, k);
      RunKeepsReached(Exec(s, script[0].t, script[0].op), script[1..], last, k);
    }
  }

  /**
    No stranded waker.  If waker `k` is in the slot when some thread begins a `wake`, then in
    every later state where all threads are outside the protocol `k` has left the slot: it has
    been called, or replaced by a later registration.
   */
  lemma WakeReachesStoredWaker(s: State, t: Tid, k: nat, script: seq<Move>, last: State)
    requires Inv(s) && s.slot == Some(k) && Enabled(s, t, Wake)
    requires Runs(Exec(s, t, Wake), script, last) && Quiescent(last)
    ensures last.slot != Some(k)
    ensures k in last.place && (k in last.calls || last.place[k].Replaced?)
  {
    var woken := Exec(s, t, Wake);
    WakeFetchOrKeepsInv(s, t);
    assert WakerOk(s, k);
    RunKeepsInv(woken, script, last);
    RunKeepsReached(woken, script, last, k);
    assert WakerOk(last, k);
    if last.owner.Some? {
      assert ThreadOk(last, last.owner.value);
    }
  }

  // ------------------------------------------------------------------ the code, under interference

  /** The moves of thread `t` in a run, in order. */
  ghost function Own(script: seq<Move>, t: Tid): seq<Move> {
    if script == [] then []
    else
      var n := |script| - 1;
      Own(script[..n], t) + if script[n].t == t then [script[n]] else []
  }

  lemma OwnThen(script: seq<Move>, mv: Move, t: Tid)
    ensures Own(script + [mv], t) == Own(script, t) + if mv.t == t then [mv] else []
  {
    assert (script + [mv])[..|script|] == script;
  }

  /** `n` further operations of a call that thread `t` is inside of. */
  function Resumes(t: Tid, n: nat): seq<Move> {
    seq(n, _ => Move(t, Resume))
  }

  lemma ResumesGrow(own: seq<Move>, t: Tid, n: nat)
    ensures own + Resumes(t, n) + [Move(t, Resume)] == own + Resumes(t, n + 1)
    ensures own + Resumes(t, 0) == own
  {
  }

  lemma {:induction false} RunsThen(s: State, script: seq<Move>, mid: State, mv: Move)
    requires Runs(s, script, mid) && Enabled(mid, mv.t, mv.op)
    ensures Runs(s, script + [mv], Exec(mid, mv.t, mv.op))
    decreases |script|
  {
    hide Exec, Enabled;
    if script == [] {
      assert [] + [mv] == [mv] && [mv][1..] == [];
    } else {
      RunsThen(Exec(s, script[0].t, script[0].op), script[1..], mid, mv);
      assert (script + [mv])[1..] == script[1..] + [mv];
    }
  }

  /** What becomes of waker `k` in a call of `register` that is not refused: it is called, or in the slot and the word at rest. */
  ghost predicate Kept(s: State, k: nat) {
    k in s.place && !s.place[k].Refused? && (k in s.calls || (s.slot == Some(k) && s.word == WAITING))
  }

  ghost predicate Dropped(s: State, k: nat) {
    k in s.place && s.place[k].Refused?
  }

  lemma KeptInSlot(s: State, k: nat)
    requires Inv(s) && s.slot == Some(k) && s.word == WAITING
    ensures Kept(s, k)
  {
  }

  lemma KeptByCall(s: State, k: nat)
    requires Inv(s) && k in s.calls
    ensures Kept(s, k)
  {
    assert k in s.place && WakerOk(s, k);
  }

  lemma DrainFindsOwn(s: State, t: Tid)
    requires Inv(s) && t in s.pcs && s.pcs[t].RegDrain?
    ensures s.slot == Some(s.pcs[t].k)
  {
    assert ThreadOk(s, t);
  }

  lemma WordIsKnown(s: State)
    requires Inv(s)
    ensures s.word == WAITING || s.word == WAKING || s.word == REGISTERING || s.word == REGISTERING | WAKING
  {
  }

  /** What the steps of other threads may do, as seen by thread `t`: they keep the invariant and leave `t` where it is. */
  ghost predicate Rely(s: State, s': State, t: Tid) {
    && Inv(s')
    && s'.pcs.Keys == s.pcs.Keys
    && (t in s.pcs ==> s'.pcs[t] == s.pcs[t])
    && s.issued <= s'.issued
    && s.calls <= s'.calls
    && (t in s.pcs && s.pcs[t].Owns() ==> s'.slot == s.slot)
    && (forall k :: k in s.place && s.place[k].Refused? ==> k in s'.place && s'.place[k].Refused?)
  }

  /** Only the owner of the slot changes it. */
  lemma OwnerKeepsSlot(s: State, u: Tid, op: Op, t: Tid)
    requires Inv(s) && Enabled(s, u, op) && u != t && t in s.pcs && s.pcs[t].Owns()
    ensures Exec(s, u, op).slot == s.slot
  {
    hide WakerOk, CallsOk;
    assert ThreadOk(s, u) && ThreadOk(s, t);
  }

  lemma RefusedStaysRefused(s: State, u: Tid, op: Op, k: nat)
    requires Inv(s) && Enabled(s, u, op) && k in s.place && s.place[k].Refused?
    ensures k in Exec(s, u, op).place && Exec(s, u, op).place[k].Refused?
  {
    hide CallsOk;
    assert ThreadOk(s, u) && WakerOk(s, k);
  }

  lemma StepSatisfiesRely(s: State, u: Tid, op: Op, t: Tid)
    requires Inv(s) && Enabled(s, u, op) && u != t
    ensures Rely(s, Exec(s, u, op), t)
  {
    hide Inv, Exec;
    StepKeepsInv(s, u, op);
    StepKeepsThreads(s, u, op);
    StepKeepsHistory(s, u, op);
    if t in s.pcs && s.pcs[t].Owns() { OwnerKeepsSlot(s, u, op, t); }
    forall k | k in s.place && s.place[k].Refused?
      ensures k in Exec(s, u, op).place && Exec(s, u, op).place[k].Refused?
    {
      RefusedStaysRefused(s, u, op, k);
    }
  }

  /** The rely condition is justified: any run in which `t` does not move satisfies it. */
  lemma {:induction false} OthersSatisfyRely(s: State, script: seq<Move>, last: State, t: Tid)
    requires Inv(s) && Runs(s, script, last)
    requires forall i :: 0 <= i < |script| ==> script[i].t != t
    ensures Rely(s, last, t)
    decreases |script|
  {
    if script != [] {
      var next := Exec(s, script[0].t, script[0].op);
      StepSatisfiesRely(s, script[0].t, script[0].op, t);
      OthersSatisfyRely(next, script[1..], last, t);
    }
  }

  /**
    `AtomicWaker` as the code has it: two fields, and `register`, `take` and `wake` written
    as their sequences of atomic operations.  The ghost `sys` is the transition system above
    and `trail` everything that has happened to it since it was made; each operation on the
    fields is checked to be the move of the calling thread.  Between two operations any
    number of moves of other threads may be added (`Interfere`).  `issued` stands for the
    identity of the waker an incoming call brings along.
   */
  class AtomicWaker {
    var state: Word
    var waker: Option<nat>
    var issued: nat
    ghost const threads: set<Tid>
    ghost var sys: State
    ghost var trail: seq<Move>

    /** The fields are those of the system, and the system got there by `trail`. */
    ghost predicate Valid()
      reads this
    {
      && Inv(sys) && Runs(Init(threads), trail, sys)
      && sys.word == state && sys.slot == waker && sys.issued == issued
    }

    ghost predicate At(t: Tid, pc: Pc)
      reads this
    {
      t in sys.pcs && sys.pcs[t] == pc
    }

    /** In the course of the trail, after `before` and in state `seen`, the move `mv` was made. */
    ghost predicate Made(before: seq<Move>, seen: State, mv: Move)
      reads this
    {
      before + [mv] <= trail && Runs(Init(threads), before, seen)
    }

    constructor (ghost threads: set<Tid>)
      ensures Valid() && sys == Init(threads) && trail == []
    {
      state, waker, issued := WAITING, None, 0;
      this.threads, sys, trail := threads, Init(threads), [];
    }

    /** Moves of the other threads, any number of them. */
    method Interfere(ghost t: Tid)
      requires Valid()
      modifies this
      ensures Valid() && Rely(old(sys), sys, t)
      ensures old(trail) <= trail && Own(trail, t) == Own(old(trail), t)
    {
    }

    /** Enters a move of thread `t` in the trail. */
    ghost method Record(t: Tid, op: Op)
      requires Inv(sys) && Runs(Init(threads), trail, sys) && Enabled(sys, t, op)
      modifies this`sys, this`trail
      ensures Inv(sys) && Runs(Init(threads), trail, sys)
      ensures sys == Exec(old(sys), t, op) && trail == old(trail) + [Move(t, op)]
      ensures forall u :: Own(trail, u) == Own(old(trail), u) + if u == t then [Move(t, op)] else []
    {
      hide Inv, Exec, Enabled, Runs;
      StepKeepsInv(sys, t, op);
      RunsThen(Init(threads), trail, sys, Move(t, op));
      forall u
        ensures Own(trail + [Move(t, op)], u) == Own(trail, u) + if u == t then [Move(t, op)] else []
      {
        OwnThen(trail, Move(t, op), u);
      }
      sys, trail := Exec(sys, t, op), trail + [Move(t, op)];
    }

    /** The opening compare-exchange of `register`; returns the word it saw and the number of the waker. */
    method TryOwn(ghost t: Tid) returns (seen: Word, k: nat)
      requires Valid() && At(t, Idle)
      modifies this
      ensures Valid() && seen == old(state) && k == old(issued)
      ensures sys == RegisterCas(old(sys), t)
      ensures trail == old(trail) + [Move(t, Op.Register)]
      ensures Own(trail, t) == Own(old(trail), t) + [Move(t, Op.Register)]
    {
      hide Inv, Runs, Own;
      Record(t, Op.Register);
      seen, k, issued := state, issued, issued + 1;
      if seen == WAITING {
        state := REGISTERING;
      }
    }

    method Store(ghost t: Tid, k: nat)
      requires Valid() && At(t, RegWrite(k))
      modifies this
      ensures Valid() && sys == WriteSlot(old(sys), t)
      ensures trail == old(trail) + [Move(t, Resume)]
      ensures Own(trail, t) == Own(old(trail), t) + [Move(t, Resume)]
    {
      hide Inv, Runs, Own;
      Record(t, Resume);
      waker := Some(k);
    }

    /** The closing compare-exchange of `register`. */
    method TryFinish(ghost t: Tid, ghost k: nat) returns (ok: bool)
      requires Valid() && At(t, RegFinish(k))
      modifies this
      ensures Valid() && sys == FinishCas(old(sys), t)
      ensures ok <==> old(state) == REGISTERING
      ensures !ok ==> state == REGISTERING | WAKING
      ensures trail == old(trail) + [Move(t, Resume)]
      ensures Own(trail, t) == Own(old(trail), t) + [Move(t, Resume)]
    {
      hide Runs, Own;
      assert ThreadOk(sys, t);
      Record(t, Resume);
      ok := state == REGISTERING;
      if ok {
        state := WAITING;
      }
    }

    /** Empties the slot, on behalf of its owner. */
    method TakeOut(ghost t: Tid) returns (held: Option<nat>)
      requires Valid() && t in sys.pcs && (sys.pcs[t].RegDrain? || sys.pcs[t].TakeSlot?)
      modifies this
      ensures Valid() && held == old(waker)
      ensures sys == TakeFromSlot(old(sys), t, if old(sys).pcs[t].RegDrain? then RegRelease(held) else TakeRelease(held))
      ensures trail == old(trail) + [Move(t, Resume)]
      ensures Own(trail, t) == Own(old(trail), t) + [Move(t, Resume)]
    {
      hide Inv, Runs, Own;
      Record(t, Resume);
      held, waker := waker, None;
    }

    /** `swap(WAITING)` at the end of a drained registration. */
    method SwapWaiting(ghost t: Tid, ghost held: Option<nat>)
      requires Valid() && At(t, RegRelease(held))
      modifies this
      ensures Valid() && sys == Release(old(sys), t, WAITING, held)
      ensures trail == old(trail) + [Move(t, Resume)]
      ensures Own(trail, t) == Own(old(trail), t) + [Move(t, Resume)]
    {
      hide Inv, Runs, Own;
      Record(t, Resume);
      state := WAITING;
    }

    /** `fetch_or(WAKING)`. */
    method FetchOrWaking(ghost t: Tid) returns (prev: Word)
      requires Valid() && At(t, Idle)
      modifies this
      ensures Valid() && prev == old(state)
      ensures sys == WakeFetchOr(old(sys), t)
      ensures trail == old(trail) + [Move(t, Op.Wake)]
      ensures Own(trail, t) == Own(old(trail), t) + [Move(t, Op.Wake)]
    {
      hide Inv, Runs, Own;
      Record(t, Op.Wake);
      prev, state := state, state | WAKING;
    }

    /** `fetch_and(!WAKING)`. */
    method ClearWaking(ghost t: Tid, ghost held: Option<nat>)
      requires Valid() && At(t, TakeRelease(held))
      modifies this
      ensures Valid() && sys == Release(old(sys), t, old(sys).word & !WAKING, held)
      ensures trail == old(trail) + [Move(t, Resume)]
      ensures Own(trail, t) == Own(old(trail), t) + [Move(t, Resume)]
    {
      hide Inv, Runs, Own;
      Record(t, Resume);
      state := state & !WAKING;
    }

    /** The slot, if at rest, is dropped and a new one takes its place. */
    method Renew(ghost t: Tid)
      requires Valid() && At(t, Idle)
      modifies this
      ensures Valid() && sys == RenewSlot(old(sys))
      ensures trail == old(trail) + [Move(t, Op.Renew)]
      ensures Own(trail, t) == Own(old(trail), t) + [Move(t, Op.Renew)]
    {
      hide Inv, Runs, Own;
      Record(t, Op.Renew);
      if state == WAITING {
        waker := None;
      }
    }

    /** The call of a waker the thread carries. */
    method CallWaker(ghost t: Tid, k: nat)
      requires Valid() && At(t, Invoke(k))
      modifies this
      ensures Valid() && sys == InvokeWaker(old(sys), t)
      ensures trail == old(trail) + [Move(t, Resume)]
      ensures Own(trail, t) == Own(old(trail), t) + [Move(t, Resume)]
    {
      hide Inv, Runs, Own;
      Record(t, Resume);
    }

    /** The drain at the end of `register`: a wake came in, so the waker is taken back and called. */
    method TakeBack(ghost t: Tid, ghost k: nat)
      requires Valid() && At(t, RegDrain(k))
      modifies this
      ensures Valid() && At(t, Idle) && old(trail) <= trail && k in sys.calls
      ensures Own(trail, t) == Own(old(trail), t) + Resumes(t, 3)
    {
      hide Inv, Runs, Own;
      ghost var own := Own(trail, t);
      Interfere(t);
      DrainFindsOwn(sys, t);
      var drained := TakeOut(t);
      ResumesGrow(own, t, 0);
      Interfere(t);
      SwapWaiting(t, drained);
      ResumesGrow(own, t, 1);
      Interfere(t);
      if drained.Some? {
        CallWaker(t, drained.value);
      }
      ResumesGrow(own, t, 2);
    }

    /** The part of `register` that owns the slot: write, close, and drain if the close failed. */
    method Deposit(ghost t: Tid, k: nat) returns (ghost n: nat)
      requires Valid() && At(t, RegWrite(k))
      modifies this
      ensures Valid() && At(t, Idle) && old(trail) <= trail
      ensures Own(trail, t) == Own(old(trail), t) + Resumes(t, n)
      ensures Kept(sys, k) && (n == 2 || n == 5)
    {
      hide Inv, Runs, Own, Kept;
      ghost var own := Own(trail, t);
      Store(t, k);
      ResumesGrow(own, t, 0);
      Interfere(t);
      var ok := TryFinish(t, k);
      ResumesGrow(own, t, 1);
      n := 2;
      if ok {
        KeptInSlot(sys, k);
      } else {
        TakeBack(t, k);
        n := 5;
        assert own + Resumes(t, 2) + Resumes(t, 3) == own + Resumes(t, 5);
        KeptByCall(sys, k);
      }
    }

    /**
      `register`, whose compare-exchange was made after `before`, in state `seen`.  The
      calling thread makes that move and the `n` that complete it, and no other.  Waker `k` is
      refused exactly if another registration held the slot at `seen`; otherwise on return it
      has been called or is in the slot with the word at rest.
     */
    method Register(ghost t: Tid) returns (k: nat, ghost before: seq<Move>, ghost seen: State, ghost n: nat)
      requires Valid() && At(t, Idle)
      modifies this
      ensures Valid() && At(t, Idle) && old(trail) <= before
      ensures Made(before, seen, Move(t, Op.Register)) && k == seen.issued
      ensures Own(trail, t) == Own(old(trail), t) + ([Move(t, Op.Register)] + Resumes(t, n))
      ensures if seen.word == WAITING then n == 2 || n == 5 else n == if seen.word == WAKING then 1 else 0
      ensures if seen.word == REGISTERING || seen.word == REGISTERING | WAKING then Dropped(sys, k) else Kept(sys, k)
    {
      hide Inv, Runs, Own, Kept;
      Interfere(t);
      before, seen, n := trail, sys, 0;
      ghost var own := Own(trail, t);
      var word;
      word, k := TryOwn(t);
      assert own + [Move(t, Op.Register)] == own + ([Move(t, Op.Register)] + Resumes(t, 0));
      if word == WAITING {
        Interfere(t);
        n := Deposit(t, k);
        assert own + [Move(t, Op.Register)] + Resumes(t, n) == own + ([Move(t, Op.Register)] + Resumes(t, n));
      } else if word == WAKING {
        Interfere(t);
        CallWaker(t, k);
        n := 1;
        assert own + [Move(t, Op.Register)] + [Move(t, Resume)] == own + ([Move(t, Op.Register)] + Resumes(t, 1));
        KeptByCall(sys, k);
      } else {
        WordIsKnown(seen);
      }
    }

    /**
      `take`, whose fetch-or was made after `before`, in state `seen`.  Finding the word
      at rest the call takes out exactly the waker stored then, and carries it; otherwise it
      makes no further move.
     */
    method Take(ghost t: Tid) returns (taken: Option<nat>, ghost before: seq<Move>, ghost seen: State)
      requires Valid() && At(t, Idle)
      modifies this
      ensures Valid() && At(t, if taken.Some? then Invoke(taken.value) else Idle)
      ensures old(trail) <= before && Made(before, seen, Move(t, Op.Wake)) && Rely(old(sys), seen, t)
      ensures taken == if seen.word == WAITING then seen.slot else None
      ensures Own(trail, t) == Own(old(trail), t) + ([Move(t, Op.Wake)] + Resumes(t, if seen.word == WAITING then 2 else 0))
    {
      hide Inv, Runs, Own;
      Interfere(t);
      before, seen := trail, sys;
      ghost var own := Own(trail, t);
      var prev := FetchOrWaking(t);
      assert own + [Move(t, Op.Wake)] == own + ([Move(t, Op.Wake)] + Resumes(t, 0));
      taken := None;
      if prev == WAITING {
        Interfere(t);
        taken := TakeOut(t);
        Interfere(t);
        ClearWaking(t, taken);
        assert Own(trail, t) == own + ([Move(t, Op.Wake)] + Resumes(t, 2));
      }
    }

    /** `wake`: `take`, and the call of what it took out; a waker found in a slot at rest has been called on return. */
    method Wake(ghost t: Tid) returns (ghost before: seq<Move>, ghost seen: State, ghost n: nat)
      requires Valid() && At(t, Idle)
      modifies this
      ensures Valid() && At(t, Idle)
      ensures old(trail) <= before && Made(before, seen, Move(t, Op.Wake)) && Rely(old(sys), seen, t)
      ensures Own(trail, t) == Own(old(trail), t) + ([Move(t, Op.Wake)] + Resumes(t, n))
      ensures n == if seen.word != WAITING then 0 else if seen.slot.Some? then 3 else 2
      ensures seen.word == WAITING && seen.slot.Some? ==> seen.slot.value in sys.calls
    {
      hide Inv, Runs, Own;
      var taken;
      taken, before, seen := Take(t);
      n := if seen.word == WAITING then 2 else 0;
      if taken.Some? {
        Interfere(t);
        CallWaker(t, taken.value);
        assert Own(trail, t) == Own(old(trail), t) + ([Move(t, Op.Wake)] + Resumes(t, 3));
        n := 3;
      }
    }
  }

}
