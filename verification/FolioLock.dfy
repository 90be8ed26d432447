/**
 The folio lock: waiting for the bit, waking waiters, and handing the lock over.

 Any number of threads take, wait for, steal and release one folio's lock bit. Work under the
 queue lock is one step, except for the walk over the wait queue, which holds the queue lock over
 many steps while the bit itself can be stolen between any two of them.
 */
module FolioLock {
  import opened Wrappers

  datatype Flags = Flags(exclusive: bool, custom: bool, woken: bool, done: bool)

  datatype Pc =
    | Out                                  // not waiting and not holding
    | Prepare                              // at the label repeat
    | Enqueue                              // about to try the bit under the queue lock
    | Wait                                 // at the top of the wait loop
    | TryBit                               // woken without the lock: about to take the bit itself
    | FinishWait                           // out of the loop, possibly still queued
    | Return                               // about to compute the return value
    | Holding                              // owns the lock
    | WakeLock                             // released the bit and saw waiters
    | WalkTest(at: nat)                    // walking the queue: about to look at an entry
    | WalkGrab(at: nat)                    // about to take the bit for the entry
    | WalkMark(at: nat, grabbed: bool)     // about to publish the entry's flags
    | WalkRemove(at: nat)                  // about to unlink the entry
    | WalkEnd                              // about to drop the queue lock

  /** zero says whether the last wait returned 0 or -EINTR. */
  datatype Thread = Thread(pc: Pc, exclusive: bool, unfairness: int, passes: nat, flags: Flags, zero: bool)

  /** owner is an auxiliary record of who set the bit last, or for whom; no step depends on it. */
  datatype State = State(bit: bool, waiters: bool, queue: seq<nat>, lock: Option<nat>, threads: map<nat, Thread>, owner: Option<nat>)

  /** others: entries of other folios keep the shared queue active although this folio's are gone. */
  datatype Step =
    | Call(exclusive: bool) | TryLock | Unlock
    | Advance | Signal
    | EndWalk(others: bool)

  const NO_FLAGS := Flags(false, false, false, false)

  function Init(ids: set<nat>): State {
    State(false, false, [], None, map t | t in ids :: Thread(Out, false, 0, 0, NO_FLAGS, false), None)
  }

  function Put(s: State, t: nat, th: Thread): State {
    s.(threads := s.threads[t := th])
  }

  function GoTo(s: State, t: nat, pc: Pc): State
    requires t in s.threads
  {
    Put(s, t, s.threads[t].(pc := pc))
  }

  function RemoveAt(q: seq<nat>, i: nat): seq<nat>
    requires i < |q|
  {
    q[..i] + q[i + 1..]
  }

  function Drop(q: seq<nat>, t: nat): seq<nat> {
    if q == [] then [] else if q[0] == t then q[1..] else [q[0]] + Drop(q[1..], t)
  }

  // ---------------------------------------------------------------- a waiter

  /** Flags of a new pass: exclusive waiters ask for the lock to be handed over once they were passed too often. */
  function NewPass(th: Thread): Thread {
    var u := if th.exclusive then th.unfairness - 1 else th.unfairness;
    th.(unfairness := u, passes := th.passes + 1, pc := Enqueue,
        flags := Flags(th.exclusive, th.exclusive && u < 0, false, false))
  }

  function TryOrQueue(s: State, t: nat): State
    requires t in s.threads
  {
    var th := s.threads[t];
    var s1 := s.(waiters := true);
    if s.bit then Put(s1, t, th.(pc := Wait)).(queue := s.queue + [t])
    else
      var s2 := Put(s1, t, th.(pc := Wait, flags := th.flags.(woken := true, done := true)));
      if th.flags.exclusive then s2.(bit := true, owner := Some(t)) else s2
  }

  function LookAtFlags(s: State, t: nat): Option<State>
    requires t in s.threads
  {
    var th := s.threads[t];
    if !th.flags.woken then None // keeps sleeping
    else if !th.exclusive || th.flags.done then Some(GoTo(s, t, FinishWait))
    else Some(GoTo(s, t, TryBit))
  }

  function TakeBit(s: State, t: nat): State
    requires t in s.threads
  {
    var th := s.threads[t];
    if s.bit then GoTo(s, t, Prepare)
    else Put(s, t, th.(pc := FinishWait, flags := th.flags.(done := true))).(bit := true, owner := Some(t))
  }

  function Leave(s: State, t: nat): Option<State>
    requires t in s.threads
  {
    if t !in s.queue then Some(GoTo(s, t, Return))
    else if s.lock.Some? then None
    else Some(GoTo(s.(queue := Drop(s.queue, t)), t, Return))
  }

  function Result(s: State, t: nat): State
    requires t in s.threads
  {
    var th := s.threads[t];
    if th.exclusive then
      if th.flags.done then Put(s, t, th.(pc := Holding, zero := true)) else Put(s, t, th.(pc := Out, zero := false))
    else Put(s, t, th.(pc := Out, zero := th.flags.woken))
  }

  // ---------------------------------------------------------------- a waker

  function LookAtEntry(s: State, t: nat, at: nat): State
    requires t in s.threads
  {
    if at >= |s.queue| || s.queue[at] !in s.threads then GoTo(s, t, WalkEnd)
    else
      var f := s.threads[s.queue[at]].flags;
      if f.exclusive && s.bit then GoTo(s, t, WalkEnd)
      else if f.exclusive && f.custom then GoTo(s, t, WalkGrab(at))
      else GoTo(s, t, WalkMark(at, false))
  }

  function GrabForEntry(s: State, t: nat, at: nat): State
    requires t in s.threads
  {
    if s.bit || at >= |s.queue| then GoTo(s, t, WalkEnd)
    else GoTo(s, t, WalkMark(at, true)).(bit := true, owner := Some(s.queue[at]))
  }

  function MarkEntry(s: State, t: nat, at: nat, grabbed: bool): Option<State>
    requires t in s.threads
  {
    if at >= |s.queue| || s.queue[at] !in s.threads then None
    else
      var w := s.threads[s.queue[at]];
      var s1 := Put(s, s.queue[at], w.(flags := w.flags.(woken := true, done := w.flags.done || grabbed)));
      Some(GoTo(s1, t, WalkRemove(at)))
  }

  /** After an exclusive entry the walk stops. */
  function UnlinkEntry(s: State, t: nat, at: nat): Option<State>
    requires t in s.threads
  {
    if at >= |s.queue| || s.queue[at] !in s.threads then None
    else
      var stop := s.threads[s.queue[at]].exclusive;
      Some(GoTo(s.(queue := RemoveAt(s.queue, at)), t, if stop then WalkEnd else WalkTest(at)))
  }

  function AdvanceThread(s: State, t: nat): Option<State>
    requires t in s.threads
  {
    var th := s.threads[t];
    match th.pc
    case Out => None
    case Holding => None
    case Prepare => Some(Put(s, t, NewPass(th)))
    case Enqueue => if s.lock.Some? then None else Some(TryOrQueue(s, t))
    case Wait => LookAtFlags(s, t)
    case TryBit => Some(TakeBit(s, t))
    case FinishWait => Leave(s, t)
    case Return => Some(Result(s, t))
    case WakeLock => if s.lock.Some? then None else Some(GoTo(s, t, WalkTest(0)).(lock := Some(t)))
    case WalkTest(at) => Some(LookAtEntry(s, t, at))
    case WalkGrab(at) => Some(GrabForEntry(s, t, at))
    case WalkMark(at, grabbed) => MarkEntry(s, t, at, grabbed)
    case WalkRemove(at) => UnlinkEntry(s, t, at)
    case WalkEnd => None
  }

  /** One step of one thread; None when it cannot take that step now. U is the configured unfairness. */
  function Next(U: int, s: State, t: nat, a: Step): Option<State> {
    if t !in s.threads then None
    else
      var th := s.threads[t];
      match a
      case Call(exclusive) =>
        if th.pc.Out? then Some(Put(s, t, Thread(Prepare, exclusive, U, 0, NO_FLAGS, false))) else None
      case TryLock =>
        if th.pc.Out? && !s.bit then Some(GoTo(s, t, Holding).(bit := true, owner := Some(t))) else None
      case Unlock =>
        if th.pc.Holding? then
          Some(GoTo(s, t, if s.waiters then WakeLock else Out).(bit := false, owner := None))
        else None
      case Advance => AdvanceThread(s, t)
      case Signal =>
        if th.pc.Wait? && !th.flags.woken then Some(GoTo(s, t, FinishWait)) else None
      case EndWalk(others) =>
        if th.pc.WalkEnd? then
          Some(GoTo(s, t, Out).(lock := None, waiters := s.waiters && (s.queue != [] || others)))
        else None
  }

  function Run(U: int, ids: set<nat>, acts: seq<(nat, Step)>): Option<State>
    decreases |acts|
  {
    if acts == [] then Some(Init(ids))
    else
      match Run(U, ids, acts[..|acts| - 1])
      case None => None
      case Some(s) => Next(U, s, acts[|acts| - 1].0, acts[|acts| - 1].1)
  }

  // ---------------------------------------------------------------- ownership

  /** The walker has taken the bit for t but has not published it yet. */
  predicate GrabbedFor(s: State, t: nat) {
    && s.lock.Some? && s.lock.value in s.threads
    && s.threads[s.lock.value].pc.WalkMark? && s.threads[s.lock.value].pc.grabbed
    && s.threads[s.lock.value].pc.at < |s.queue| && s.queue[s.threads[s.lock.value].pc.at] == t
  }

  /** t owns the lock: it holds it, has been marked done as an exclusive waiter, or is being handed it. */
  predicate Owns(s: State, t: nat) {
    t in s.threads &&
    (|| s.threads[t].pc.Holding?
     || ((s.threads[t].pc.Wait? || s.threads[t].pc.FinishWait? || s.threads[t].pc.Return?)
         && s.threads[t].exclusive && s.threads[t].flags.done)
     || GrabbedFor(s, t))
  }

  predicate Walking(pc: Pc) {
    pc.WalkTest? || pc.WalkGrab? || pc.WalkMark? || pc.WalkRemove? || pc.WalkEnd?
  }

  /** The walker is about to unlink t. */
  predicate Unlinking(s: State, t: nat) {
    && s.lock.Some? && s.lock.value in s.threads
    && s.threads[s.lock.value].pc.WalkRemove?
    && s.threads[s.lock.value].pc.at < |s.queue| && s.queue[s.threads[s.lock.value].pc.at] == t
  }

  function Bound(U: int): nat {
    if U < 0 then 1 else U + 1
  }

  /** The passes so far, and what the flags say in every pass. */
  predicate ThreadOk(U: int, th: Thread) {
    && (th.pc.Prepare? ==>
          && !th.flags.done && th.unfairness == (if th.exclusive then U - th.passes else U)
          && (th.passes == 0 || (th.exclusive && th.passes <= U)))
    && (th.pc.Enqueue? || th.pc.Wait? || th.pc.TryBit? || th.pc.FinishWait? || th.pc.Return? ==>
          && 1 <= th.passes <= Bound(U)
          && th.unfairness == (if th.exclusive then U - th.passes else U)
          && th.flags.exclusive == th.exclusive
          && th.flags.custom == (th.exclusive && th.unfairness < 0)
          && (th.flags.done ==> th.flags.woken)
          && (th.flags.woken && th.flags.custom ==> th.flags.done))
    && (th.pc.Enqueue? ==> !th.flags.woken)
    && (th.pc.TryBit? ==> th.exclusive && th.flags.woken && !th.flags.done)
  }

  predicate Distinct(q: seq<nat>) {
    forall i, j :: 0 <= i < j < |q| ==> q[i] != q[j]
  }

  /** A queued waiter sleeps or is leaving, unless it has just been woken and is being unlinked. */
  predicate QueuedOk(s: State, t: nat) {
    && t in s.threads
    && (Unlinking(s, t) ||
        ((s.threads[t].pc.Wait? || s.threads[t].pc.FinishWait?) && !s.threads[t].flags.woken))
    && (s.threads[t].pc.Wait? || s.threads[t].pc.FinishWait? || s.threads[t].pc.TryBit?
        || s.threads[t].pc.Prepare? || s.threads[t].pc.Enqueue?)
  }

  predicate WalkerOk(s: State, t: nat)
    requires t in s.threads
  {
    var pc := s.threads[t].pc;
    && (Walking(pc) <==> s.lock == Some(t))
    && (pc.WalkGrab? ==> pc.at < |s.queue| && s.queue[pc.at] in s.threads && s.threads[s.queue[pc.at]].flags.custom
                         && s.threads[s.queue[pc.at]].flags.exclusive)
    && (pc.WalkMark? ==> pc.at < |s.queue| && s.queue[pc.at] in s.threads
                         && pc.grabbed == s.threads[s.queue[pc.at]].flags.custom)
    && (pc.WalkRemove? ==> pc.at < |s.queue| && s.queue[pc.at] in s.threads)
  }

  ghost predicate ThreadsOk(U: int, s: State) {
    forall t :: t in s.threads ==> ThreadOk(U, s.threads[t])
  }

  ghost predicate QueueOk(s: State) {
    && Distinct(s.queue)
    && (forall t :: t in s.queue ==> QueuedOk(s, t))
    && (s.lock.Some? ==> s.lock.value in s.threads)
    && (forall t :: t in s.threads ==> WalkerOk(s, t))
  }

  ghost predicate OwnerOk(s: State) {
    && (s.bit <==> s.owner.Some?)
    && (forall t: nat :: Owns(s, t) <==> s.owner == Some(t))
  }

  ghost predicate Inv(U: int, s: State) {
    ThreadsOk(U, s) && QueueOk(s) && OwnerOk(s)
  }

  lemma DropFacts(q: seq<nat>, t: nat)
    requires Distinct(q)
    ensures Distinct(Drop(q, t)) && forall x :: x in Drop(q, t) <==> x in q && x != t
  {
    if q != [] {
      DropFacts(q[1..], t);
      assert forall x :: x in q <==> x == q[0] || x in q[1..];
      assert q[0] !in q[1..];
    }
  }

  lemma RemoveAtFacts(q: seq<nat>, i: nat)
    requires Distinct(q) && i < |q|
    ensures Distinct(RemoveAt(q, i)) && forall x :: x in RemoveAt(q, i) <==> x in q && x != q[i]
  {
    var d := RemoveAt(q, i);
    forall x | x in q && x != q[i] ensures x in d {
      var j :| 0 <= j < |q| && q[j] == x;
      assert d[if j < i then j else j - 1] == x;
    }
  }

  // ---------------------------------------------------------------- every step keeps it

  predicate Marks(s: State, t: nat, a: Step)
    requires t in s.threads
  {
    a.Advance? && s.threads[t].pc.WalkMark?
  }

  /** All steps but the marking of an entry change one thread only. */
  ghost predicate OnlyChanges(s: State, s': State, t: nat) {
    && t in s.threads && s'.threads.Keys == s.threads.Keys
    && forall x :: x in s.threads && x != t ==> s'.threads[x] == s.threads[x]
  }

  /** The parts of a wait that come before the loop and at its top, and the rest. */
  predicate Early(pc: Pc) { pc.Prepare? || pc.Enqueue? || pc.Wait? }
  predicate Late(pc: Pc) { pc.TryBit? || pc.FinishWait? || pc.Return? }

  lemma OnlyActorWaits(U: int, s: State, t: nat)
    requires Next(U, s, t, Advance).Some? && (Early(s.threads[t].pc) || Late(s.threads[t].pc))
    ensures OnlyChanges(s, Next(U, s, t, Advance).value, t)
  {
  }

  lemma OnlyActorActs(U: int, s: State, t: nat, a: Step)
    requires Next(U, s, t, a).Some? && !Marks(s, t, a)
    requires !a.Advance? || Walking(s.threads[t].pc) || s.threads[t].pc.WakeLock?
    ensures OnlyChanges(s, Next(U, s, t, a).value, t)
  {
  }

  lemma OnlyActor(U: int, s: State, t: nat, a: Step)
    requires Next(U, s, t, a).Some? && !Marks(s, t, a)
    ensures OnlyChanges(s, Next(U, s, t, a).value, t)
  {
    if a.Advance? && (Early(s.threads[t].pc) || Late(s.threads[t].pc)) {
      OnlyActorWaits(U, s, t);
    } else {
      OnlyActorActs(U, s, t, a);
    }
  }

  lemma ActorEarly(U: int, s: State, t: nat)
    requires Next(U, s, t, Advance).Some? && ThreadOk(U, s.threads[t]) && Early(s.threads[t].pc)
    ensures t in Next(U, s, t, Advance).value.threads && ThreadOk(U, Next(U, s, t, Advance).value.threads[t])
  {
  }

  lemma ActorLate(U: int, s: State, t: nat)
    requires Next(U, s, t, Advance).Some? && ThreadOk(U, s.threads[t]) && Late(s.threads[t].pc)
    ensures t in Next(U, s, t, Advance).value.threads && ThreadOk(U, Next(U, s, t, Advance).value.threads[t])
  {
  }

  lemma ActorWalks(U: int, s: State, t: nat)
    requires Next(U, s, t, Advance).Some? && (s.threads[t].pc.WalkRemove? || s.threads[t].pc.WalkGrab?)
    ensures t in Next(U, s, t, Advance).value.threads && ThreadOk(U, Next(U, s, t, Advance).value.threads[t])
  {
  }

  lemma ActorLooks(U: int, s: State, t: nat)
    requires Next(U, s, t, Advance).Some? && (s.threads[t].pc.WalkTest? || s.threads[t].pc.WakeLock?)
    ensures t in Next(U, s, t, Advance).value.threads && ThreadOk(U, Next(U, s, t, Advance).value.threads[t])
  {
  }

  lemma ActorActs(U: int, s: State, t: nat, a: Step)
    requires Next(U, s, t, a).Some? && ThreadOk(U, s.threads[t]) && !a.Advance?
    ensures t in Next(U, s, t, a).value.threads && ThreadOk(U, Next(U, s, t, a).value.threads[t])
  {
  }

  lemma MarkForm(U: int, s: State, t: nat)
    requires Next(U, s, t, Advance).Some? && s.threads[t].pc.WalkMark? && Inv(U, s)
    ensures var pc, s' := s.threads[t].pc, Next(U, s, t, Advance).value;
      && pc.at < |s.queue| && s.queue[pc.at] in s.threads && s.queue[pc.at] != t
      && var w := s.queue[pc.at];
      && (s.threads[w].pc.Wait? || s.threads[w].pc.FinishWait?) && !s.threads[w].flags.woken
      && pc.grabbed == s.threads[w].flags.custom
      && s' == s.(threads := s.threads
           [w := s.threads[w].(flags := s.threads[w].flags.(woken := true, done := s.threads[w].flags.done || pc.grabbed))]
           [t := s.threads[t].(pc := WalkRemove(pc.at))])
  {
    assert WalkerOk(s, t);
    assert QueuedOk(s, s.queue[s.threads[t].pc.at]);
  }

  lemma ThreadsStep(U: int, s: State, t: nat, a: Step)
    requires Inv(U, s) && Next(U, s, t, a).Some?
    ensures ThreadsOk(U, Next(U, s, t, a).value)
  {
    var s' := Next(U, s, t, a).value;
    assert ThreadOk(U, s.threads[t]);
    if Marks(s, t, a) {
      MarkForm(U, s, t);
      forall x | x in s'.threads ensures ThreadOk(U, s'.threads[x]) { assert ThreadOk(U, s.threads[x]); }
    } else {
      OnlyActor(U, s, t, a);
      if !a.Advance? {
        ActorActs(U, s, t, a);
      } else if Early(s.threads[t].pc) {
        ActorEarly(U, s, t);
      } else if Late(s.threads[t].pc) {
        ActorLate(U, s, t);
      } else if s.threads[t].pc.WalkRemove? || s.threads[t].pc.WalkGrab? {
        ActorWalks(U, s, t);
      } else {
        ActorLooks(U, s, t);
      }
    }
  }

  /** A step that changes neither the queue nor the walker, nor any queued thread but t. */
  lemma QuietQueue(s: State, s': State, t: nat)
    requires QueueOk(s) && t in s.threads
    requires s'.queue == s.queue && s'.lock == s.lock && s'.threads.Keys == s.threads.Keys
    requires forall x :: x in s.threads && x != t ==> s'.threads[x] == s.threads[x]
    requires !Walking(s.threads[t].pc) && !Walking(s'.threads[t].pc)
    requires t in s.queue ==>
      && (s'.threads[t].pc.Wait? || s'.threads[t].pc.FinishWait? || s'.threads[t].pc.TryBit?
          || s'.threads[t].pc.Prepare? || s'.threads[t].pc.Enqueue?)
      && (s'.threads[t].flags == s.threads[t].flags || Unlinking(s, t))
      && ((s'.threads[t].pc.Wait? || s'.threads[t].pc.FinishWait?) || Unlinking(s, t))
    ensures QueueOk(s')
  {
    assert WalkerOk(s, t);
    forall x | x in s.queue ensures QueuedOk(s', x) { assert QueuedOk(s, x); }
    forall x | x in s'.threads ensures WalkerOk(s', x) {
      assert WalkerOk(s, x);
      if x != t && s.lock == Some(x) && !s.threads[x].pc.WalkTest? && !s.threads[x].pc.WalkEnd? && s.queue[s.threads[x].pc.at] == t {
        assert t in s.queue;
      }
    }
  }

  // ---------------------------------------------------------------- the queue

  /** A thread that is neither at the end of a pass nor asleep is not queued, but for the one being unlinked. */
  lemma NotQueued(s: State, t: nat)
    requires QueueOk(s) && t in s.threads
    requires s.threads[t].pc.Out? || s.threads[t].pc.Holding? || s.threads[t].pc.Return? || s.threads[t].pc.WakeLock?
             || Walking(s.threads[t].pc) || (s.threads[t].pc.Enqueue? && s.lock.None?)
    ensures t !in s.queue
  {
    assert t in s.queue ==> QueuedOk(s, t);
  }

  lemma QuietEarly(U: int, s: State, t: nat)
    requires Inv(U, s) && Next(U, s, t, Advance).Some? && Early(s.threads[t].pc) && !(s.threads[t].pc.Enqueue? && s.bit)
    ensures QueueOk(Next(U, s, t, Advance).value)
  {
    OnlyActorWaits(U, s, t);
    assert ThreadOk(U, s.threads[t]) && WalkerOk(s, t);
    assert t in s.queue ==> QueuedOk(s, t);
    QuietQueue(s, Next(U, s, t, Advance).value, t);
  }

  lemma QuietLate(U: int, s: State, t: nat)
    requires Inv(U, s) && Next(U, s, t, Advance).Some? && Late(s.threads[t].pc)
    requires s.threads[t].pc.FinishWait? ==> t !in s.queue
    ensures QueueOk(Next(U, s, t, Advance).value)
  {
    OnlyActorWaits(U, s, t);
    assert ThreadOk(U, s.threads[t]) && WalkerOk(s, t);
    assert t in s.queue ==> QueuedOk(s, t);
    QuietQueue(s, Next(U, s, t, Advance).value, t);
  }

  lemma QuietAct(U: int, s: State, t: nat, a: Step)
    requires Inv(U, s) && Next(U, s, t, a).Some? && !a.Advance? && !a.EndWalk?
    ensures QueueOk(Next(U, s, t, a).value)
  {
    OnlyActorActs(U, s, t, a);
    ActIsQuiet(U, s, t, a);
    assert t in s.queue ==> QueuedOk(s, t);
    QuietQueue(s, Next(U, s, t, a).value, t);
  }

  lemma ActIsQuiet(U: int, s: State, t: nat, a: Step)
    requires Next(U, s, t, a).Some? && !a.Advance? && !a.EndWalk?
    ensures var s' := Next(U, s, t, a).value;
      && t in s'.threads && s'.queue == s.queue && s'.lock == s.lock
      && (s.threads[t].pc.Wait? || s.threads[t].pc.Out? || s.threads[t].pc.Holding?) && !Walking(s'.threads[t].pc)
      && (s.threads[t].pc.Wait? ==> s'.threads[t].pc.FinishWait? && s'.threads[t].flags == s.threads[t].flags)
  {
  }

  lemma EnqueueStep(U: int, s: State, t: nat)
    requires Inv(U, s) && t in s.threads && s.threads[t].pc.Enqueue? && s.lock.None? && s.bit
    ensures QueueOk(TryOrQueue(s, t))
  {
    var s' := TryOrQueue(s, t);
    NotQueued(s, t);
    assert ThreadOk(U, s.threads[t]) && WalkerOk(s, t);
    forall x | x in s'.queue ensures QueuedOk(s', x) { assert x != t ==> x in s.queue && QueuedOk(s, x); }
    forall x | x in s'.threads ensures WalkerOk(s', x) { assert WalkerOk(s, x); }
  }

  lemma LeaveStep(s: State, t: nat)
    requires QueueOk(s) && t in s.threads && s.threads[t].pc.FinishWait? && t in s.queue && Leave(s, t).Some?
    ensures QueueOk(Leave(s, t).value)
  {
    var s' := Leave(s, t).value;
    DropFacts(s.queue, t);
    assert WalkerOk(s, t);
    forall x | x in s'.queue ensures QueuedOk(s', x) { assert QueuedOk(s, x); }
    forall x | x in s'.threads ensures WalkerOk(s', x) { assert WalkerOk(s, x); }
  }

  lemma WakeStep(U: int, s: State, t: nat)
    requires QueueOk(s) && Next(U, s, t, Advance).Some? && s.threads[t].pc.WakeLock?
    ensures QueueOk(Next(U, s, t, Advance).value)
  {
    var s' := Next(U, s, t, Advance).value;
    NotQueued(s, t);
    forall x | x in s'.queue ensures QueuedOk(s', x) { assert QueuedOk(s, x); }
    forall x | x in s'.threads ensures WalkerOk(s', x) { assert WalkerOk(s, x); }
  }

  lemma LookStep(U: int, s: State, t: nat)
    requires Inv(U, s) && Next(U, s, t, Advance).Some? && (s.threads[t].pc.WalkTest? || s.threads[t].pc.WalkGrab?)
    ensures QueueOk(Next(U, s, t, Advance).value)
  {
    var s' := Next(U, s, t, Advance).value;
    NotQueued(s, t);
    LookLeadsOn(U, s, t);
    assert WalkerOk(s, t);
    forall x | x in s'.queue ensures QueuedOk(s', x) { assert QueuedOk(s, x); }
    forall x | x in s'.threads ensures WalkerOk(s', x) { assert WalkerOk(s, x); }
  }

  /** The walk goes on to an entry that is as the next step needs it, and leaves the queue alone. */
  lemma LookLeadsOn(U: int, s: State, t: nat)
    requires Inv(U, s) && Next(U, s, t, Advance).Some? && (s.threads[t].pc.WalkTest? || s.threads[t].pc.WalkGrab?)
    ensures var s' := Next(U, s, t, Advance).value;
      && OnlyChanges(s, s', t) && s'.queue == s.queue && s'.lock == s.lock && WalkerOk(s', t)
      && !s'.threads[t].pc.WalkRemove?
  {
    NotQueued(s, t);
    assert WalkerOk(s, t);
    var at := s.threads[t].pc.at;
    if at < |s.queue| {
      var w := s.queue[at];
      assert QueuedOk(s, w) && ThreadOk(U, s.threads[w]);
    }
  }

  lemma MarkStep(U: int, s: State, t: nat)
    requires Inv(U, s) && Next(U, s, t, Advance).Some? && s.threads[t].pc.WalkMark?
    ensures QueueOk(Next(U, s, t, Advance).value)
  {
    var s' := Next(U, s, t, Advance).value;
    MarkForm(U, s, t);
    NotQueued(s, t);
    assert WalkerOk(s, t);
    forall x | x in s'.queue ensures QueuedOk(s', x) { assert QueuedOk(s, x); }
    forall x | x in s'.threads ensures WalkerOk(s', x) { assert WalkerOk(s, x); }
  }

  lemma UnlinkStep(U: int, s: State, t: nat)
    requires Inv(U, s) && Next(U, s, t, Advance).Some? && s.threads[t].pc.WalkRemove?
    ensures QueueOk(Next(U, s, t, Advance).value)
  {
    var s' := Next(U, s, t, Advance).value;
    assert WalkerOk(s, t);
    NotQueued(s, t);
    RemoveAtFacts(s.queue, s.threads[t].pc.at);
    forall x | x in s'.queue ensures QueuedOk(s', x) { assert QueuedOk(s, x); }
    forall x | x in s'.threads ensures WalkerOk(s', x) { assert WalkerOk(s, x); }
  }

  lemma EndStep(U: int, s: State, t: nat, others: bool)
    requires QueueOk(s) && Next(U, s, t, EndWalk(others)).Some?
    ensures QueueOk(Next(U, s, t, EndWalk(others)).value)
  {
    var s' := Next(U, s, t, EndWalk(others)).value;
    NotQueued(s, t);
    assert WalkerOk(s, t);
    forall x | x in s'.queue ensures QueuedOk(s', x) { assert QueuedOk(s, x); }
    forall x | x in s'.threads ensures WalkerOk(s', x) { assert WalkerOk(s, x); }
  }

  lemma QueueStep(U: int, s: State, t: nat, a: Step)
    requires Inv(U, s) && Next(U, s, t, a).Some?
    ensures QueueOk(Next(U, s, t, a).value)
  {
    var pc := s.threads[t].pc;
    assert WalkerOk(s, t);
    if a.EndWalk? {
      EndStep(U, s, t, a.others);
    } else if a.Advance? && pc.Enqueue? && s.bit {
      EnqueueStep(U, s, t);
    } else if a.Advance? && pc.FinishWait? && t in s.queue {
      LeaveStep(s, t);
    } else if a.Advance? && pc.WakeLock? {
      WakeStep(U, s, t);
    } else if a.Advance? && (pc.WalkTest? || pc.WalkGrab?) {
      LookStep(U, s, t);
    } else if a.Advance? && pc.WalkMark? {
      MarkStep(U, s, t);
    } else if a.Advance? && pc.WalkRemove? {
      UnlinkStep(U, s, t);
    } else if !a.Advance? {
      QuietAct(U, s, t, a);
    } else if Early(pc) {
      QuietEarly(U, s, t);
    } else {
      QuietLate(U, s, t);
    }
  }

  // ---------------------------------------------------------------- the owner

  /** A step that moves the bit to nobody and from nobody. */
  lemma SameOwner(s: State, s': State)
    requires OwnerOk(s) && s'.bit == s.bit && s'.owner == s.owner
    requires forall x: nat :: Owns(s', x) <==> Owns(s, x)
    ensures OwnerOk(s')
  {
  }

  /** The free bit is taken by t, or for t. */
  lemma NewOwner(s: State, s': State, t: nat)
    requires OwnerOk(s) && !s.bit && s'.bit && s'.owner == Some(t)
    requires forall x: nat :: Owns(s', x) <==> Owns(s, x) || x == t
    ensures OwnerOk(s')
  {
  }

  /** The walker is the same and does not mark, so it grabs for nobody now or before. */
  lemma SameGrab(s: State, s': State, t: nat)
    requires QueueOk(s) && OnlyChanges(s, s', t) && !Walking(s.threads[t].pc) && !Walking(s'.threads[t].pc)
    requires s'.lock == s.lock && (s'.queue == s.queue || s.lock.None?)
    ensures forall x: nat :: GrabbedFor(s', x) <==> GrabbedFor(s, x)
  {
    assert WalkerOk(s, t);
  }

  /** While the walker grabs the bit for t, t sleeps in the queue or is leaving it. */
  lemma GrabbedSleeps(s: State, t: nat)
    requires QueueOk(s) && GrabbedFor(s, t)
    ensures t in s.queue && t in s.threads && !s.threads[t].flags.woken
    ensures s.threads[t].pc.Wait? || s.threads[t].pc.FinishWait?
  {
    assert t in s.queue && QueuedOk(s, t);
    assert WalkerOk(s, s.lock.value);
  }

  /** A step of t that is not the walk changes nobody else's ownership. */
  lemma OwnersElsewhere(s: State, s': State, t: nat, x: nat)
    requires OnlyChanges(s, s', t) && x != t && (GrabbedFor(s', x) <==> GrabbedFor(s, x))
    ensures Owns(s', x) <==> Owns(s, x)
  {
  }

  lemma OwnerDecides(s: State, s': State, t: nat)
    requires OwnerOk(s) && OnlyChanges(s, s', t) && (forall x: nat :: GrabbedFor(s', x) <==> GrabbedFor(s, x))
    requires if !s.bit && s'.bit then s'.owner == Some(t) && Owns(s', t) else s'.bit == s.bit && s'.owner == s.owner && (Owns(s', t) <==> Owns(s, t))
    ensures OwnerOk(s')
  {
    forall x: nat | x != t ensures Owns(s', x) <==> Owns(s, x) { OwnersElsewhere(s, s', t, x); }
    if !s.bit && s'.bit { NewOwner(s, s', t); } else { SameOwner(s, s'); }
  }

  /** A waiter's own step leaves the walker, and what it grabs, alone. */
  lemma WaiterLeavesGrab(U: int, s: State, t: nat)
    requires Inv(U, s) && Next(U, s, t, Advance).Some? && (Early(s.threads[t].pc) || Late(s.threads[t].pc))
    ensures OnlyChanges(s, Next(U, s, t, Advance).value, t) && ThreadOk(U, s.threads[t])
    ensures forall x: nat :: GrabbedFor(Next(U, s, t, Advance).value, x) <==> GrabbedFor(s, x)
    ensures GrabbedFor(s, t) ==> (s.threads[t].pc.Wait? || s.threads[t].pc.FinishWait?) && !s.threads[t].flags.woken && t in s.queue
  {
    OnlyActorWaits(U, s, t);
    WaiterKeepsLock(U, s, t);
    SameGrab(s, Next(U, s, t, Advance).value, t);
    if GrabbedFor(s, t) { GrabbedSleeps(s, t); }
  }

  lemma WaiterKeepsLock(U: int, s: State, t: nat)
    requires Next(U, s, t, Advance).Some? && (Early(s.threads[t].pc) || Late(s.threads[t].pc))
    ensures var s' := Next(U, s, t, Advance).value;
      s'.lock == s.lock && (s'.queue == s.queue || s.lock.None?) && t in s'.threads && !Walking(s'.threads[t].pc)
  {
    if Early(s.threads[t].pc) { EarlyKeepsLock(U, s, t); }
  }

  lemma EarlyKeepsLock(U: int, s: State, t: nat)
    requires Next(U, s, t, Advance).Some? && Early(s.threads[t].pc)
    ensures var s' := Next(U, s, t, Advance).value;
      s'.lock == s.lock && (s'.queue == s.queue || s.lock.None?) && t in s'.threads && !Walking(s'.threads[t].pc)
  {
  }

  lemma EarlyOwner(U: int, s: State, t: nat)
    requires Inv(U, s) && Next(U, s, t, Advance).Some? && Early(s.threads[t].pc)
    ensures OwnerOk(Next(U, s, t, Advance).value)
  {
    WaiterLeavesGrab(U, s, t);
    OwnerDecides(s, Next(U, s, t, Advance).value, t);
  }

  lemma TakeBitOwner(U: int, s: State, t: nat)
    requires Inv(U, s) && Next(U, s, t, Advance).Some? && s.threads[t].pc.TryBit?
    ensures OwnerOk(Next(U, s, t, Advance).value)
  {
    WaiterLeavesGrab(U, s, t);
    OwnerDecides(s, TakeBit(s, t), t);
  }

  lemma LeaveOwner(U: int, s: State, t: nat)
    requires Inv(U, s) && Next(U, s, t, Advance).Some? && s.threads[t].pc.FinishWait?
    ensures OwnerOk(Next(U, s, t, Advance).value)
  {
    WaiterLeavesGrab(U, s, t);
    OwnerDecides(s, Leave(s, t).value, t);
  }

  lemma ResultOwner(U: int, s: State, t: nat)
    requires Inv(U, s) && Next(U, s, t, Advance).Some? && s.threads[t].pc.Return?
    ensures OwnerOk(Next(U, s, t, Advance).value)
  {
    WaiterLeavesGrab(U, s, t);
    OwnerDecides(s, Result(s, t), t);
  }

  lemma LateOwner(U: int, s: State, t: nat)
    requires Inv(U, s) && Next(U, s, t, Advance).Some? && Late(s.threads[t].pc)
    ensures OwnerOk(Next(U, s, t, Advance).value)
  {
    match s.threads[t].pc
    case TryBit => TakeBitOwner(U, s, t);
    case FinishWait => LeaveOwner(U, s, t);
    case Return => ResultOwner(U, s, t);
  }

  lemma ActOwner(U: int, s: State, t: nat, a: Step)
    requires Inv(U, s) && Next(U, s, t, a).Some? && !a.Advance? && !a.EndWalk?
    ensures OwnerOk(Next(U, s, t, a).value)
  {
    var s' := Next(U, s, t, a).value;
    OnlyActorActs(U, s, t, a);
    ActIsQuiet(U, s, t, a);
    SameGrab(s, s', t);
    if GrabbedFor(s, t) { GrabbedSleeps(s, t); }
    if a.Unlock? {
      LastOwner(s, s', t);
    } else {
      OwnerDecides(s, s', t);
    }
  }

  /** The owner gives the bit back, so nobody owns it. */
  lemma LastOwner(s: State, s': State, t: nat)
    requires OwnerOk(s) && OnlyChanges(s, s', t) && s.threads[t].pc.Holding? && !s'.bit && s'.owner.None?
    requires s'.threads[t].pc.WakeLock? || s'.threads[t].pc.Out?
    requires !GrabbedFor(s, t) && forall x: nat :: GrabbedFor(s', x) <==> GrabbedFor(s, x)
    ensures OwnerOk(s')
  {
    assert Owns(s, t);
    forall x: nat ensures !Owns(s', x) {
      assert Owns(s, x) ==> x == t;
      if x != t { OwnersElsewhere(s, s', t, x); }
    }
  }

  /** Only the walker can be grabbing, and it is t, which is not: not before the step and not after it. */
  lemma NoGrab(U: int, s: State, t: nat)
    requires Inv(U, s) && Next(U, s, t, Advance).Some? && (s.threads[t].pc.WakeLock? || s.threads[t].pc.WalkTest?)
    ensures OnlyChanges(s, Next(U, s, t, Advance).value, t)
    ensures forall x: nat :: !GrabbedFor(s, x) && !GrabbedFor(Next(U, s, t, Advance).value, x)
  {
    OnlyActorActs(U, s, t, Advance);
    assert WalkerOk(s, t);
  }

  lemma LookOwner(U: int, s: State, t: nat)
    requires Inv(U, s) && Next(U, s, t, Advance).Some? && (s.threads[t].pc.WakeLock? || s.threads[t].pc.WalkTest?)
    ensures OwnerOk(Next(U, s, t, Advance).value)
  {
    NoGrab(U, s, t);
    LookKeepsBit(U, s, t);
    OwnerDecides(s, Next(U, s, t, Advance).value, t);
  }

  lemma LookKeepsBit(U: int, s: State, t: nat)
    requires Next(U, s, t, Advance).Some? && (s.threads[t].pc.WakeLock? || s.threads[t].pc.WalkTest?)
    ensures var s' := Next(U, s, t, Advance).value;
      s'.bit == s.bit && s'.owner == s.owner && t in s'.threads && Walking(s'.threads[t].pc)
  {
  }

  lemma UnlinkOwner(U: int, s: State, t: nat)
    requires Inv(U, s) && Next(U, s, t, Advance).Some? && s.threads[t].pc.WalkRemove?
    ensures OwnerOk(Next(U, s, t, Advance).value)
  {
    OnlyActorActs(U, s, t, Advance);
    assert WalkerOk(s, t);
    SameOwner(s, Next(U, s, t, Advance).value);
  }

  lemma EndOwner(U: int, s: State, t: nat, others: bool)
    requires Inv(U, s) && Next(U, s, t, EndWalk(others)).Some?
    ensures OwnerOk(Next(U, s, t, EndWalk(others)).value)
  {
    OnlyActorActs(U, s, t, EndWalk(others));
    assert WalkerOk(s, t);
    SameOwner(s, Next(U, s, t, EndWalk(others)).value);
  }

  lemma GrabOwner(U: int, s: State, t: nat)
    requires Inv(U, s) && Next(U, s, t, Advance).Some? && s.threads[t].pc.WalkGrab?
    ensures OwnerOk(Next(U, s, t, Advance).value)
  {
    var s' := Next(U, s, t, Advance).value;
    OnlyActorActs(U, s, t, Advance);
    assert WalkerOk(s, t);
    if s.bit {
      SameOwner(s, s');
    } else {
      NewOwner(s, s', s.queue[s.threads[t].pc.at]);
    }
  }

  lemma MarkOwner(U: int, s: State, t: nat)
    requires Inv(U, s) && Next(U, s, t, Advance).Some? && s.threads[t].pc.WalkMark?
    ensures OwnerOk(Next(U, s, t, Advance).value)
  {
    var s' := Next(U, s, t, Advance).value;
    MarkForm(U, s, t);
    var w := s.queue[s.threads[t].pc.at];
    assert WalkerOk(s, t) && ThreadOk(U, s.threads[w]);
    forall x: nat ensures Owns(s', x) <==> Owns(s, x) { }
    SameOwner(s, s');
  }

  lemma OwnerStep(U: int, s: State, t: nat, a: Step)
    requires Inv(U, s) && Next(U, s, t, a).Some?
    ensures OwnerOk(Next(U, s, t, a).value)
  {
    var pc := s.threads[t].pc;
    if a.Advance? {
      if Early(pc) { EarlyOwner(U, s, t); }
      else if Late(pc) { LateOwner(U, s, t); }
      else if pc.WalkGrab? { GrabOwner(U, s, t); }
      else if pc.WalkMark? { MarkOwner(U, s, t); }
      else if pc.WalkRemove? { UnlinkOwner(U, s, t); }
      else { LookOwner(U, s, t); }
    } else if a.EndWalk? {
      EndOwner(U, s, t, a.others);
    } else {
      ActOwner(U, s, t, a);
    }
  }

  // ---------------------------------------------------------------- every interleaving

  lemma InitHolds(U: int, ids: set<nat>)
    ensures Inv(U, Init(ids))
  {
  }

  lemma {:induction false} RunKeepsInv(U: int, ids: set<nat>, acts: seq<(nat, Step)>)
    ensures Run(U, ids, acts).Some? ==> Inv(U, Run(U, ids, acts).value)
    decreases |acts|
  {
    if acts == [] {
      InitHolds(U, ids);
    } else {
      var (t, a) := acts[|acts| - 1];
      RunKeepsInv(U, ids, acts[..|acts| - 1]);
      if Run(U, ids, acts).Some? {
        var s := Run(U, ids, acts[..|acts| - 1]).value;
        ThreadsStep(U, s, t, a);
        QueueStep(U, s, t, a);
        OwnerStep(U, s, t, a);
      }
    }
  }

  /** In every interleaving the bit is set iff there is an owner, and there is never more than one. */
  lemma MutualExclusion(U: int, ids: set<nat>, acts: seq<(nat, Step)>)
    requires Run(U, ids, acts).Some?
    ensures var s := Run(U, ids, acts).value;
      && (s.bit <==> exists t: nat :: Owns(s, t))
      && (forall t: nat, u: nat :: Owns(s, t) && Owns(s, u) ==> t == u)
  {
    RunKeepsInv(U, ids, acts);
    var s := Run(U, ids, acts).value;
    if s.bit { assert Owns(s, s.owner.value); }
  }

  /** An exclusive wait returns 0 iff the caller owns the lock; -EINTR never leaves it owned. */
  lemma ReturnTellsOwnership(U: int, ids: set<nat>, acts: seq<(nat, Step)>, t: nat)
    requires Run(U, ids, acts).Some?
    requires var s := Run(U, ids, acts).value; t in s.threads && s.threads[t].pc.Return? && s.threads[t].exclusive
    ensures var s := Run(U, ids, acts).value;
      && Next(U, s, t, Advance).Some?
      && var s' := Next(U, s, t, Advance).value;
      && (s'.threads[t].zero <==> Owns(s, t))
      && (s'.threads[t].zero <==> Owns(s', t))
      && s'.bit == s.bit
  {
    RunKeepsInv(U, ids, acts);
    var s := Run(U, ids, acts).value;
    NotQueued(s, t);
    if GrabbedFor(s, t) { GrabbedSleeps(s, t); }
    EveryStep(U, s, t);
    var s' := Next(U, s, t, Advance).value;
    OwnerStep(U, s, t, Advance);
  }

  lemma EveryStep(U: int, s: State, t: nat)
    requires t in s.threads && s.threads[t].pc.Return?
    ensures Next(U, s, t, Advance).Some?
    ensures Next(U, s, t, Advance).value.owner == s.owner && Next(U, s, t, Advance).value.bit == s.bit
  {
  }

  /** A waiter makes at most unfairness + 1 passes: in the last one the lock is handed over to it. */
  lemma PassesAreBounded(U: int, ids: set<nat>, acts: seq<(nat, Step)>, t: nat)
    requires Run(U, ids, acts).Some?
    requires var s := Run(U, ids, acts).value; t in s.threads && (Early(s.threads[t].pc) || Late(s.threads[t].pc))
    ensures Run(U, ids, acts).value.threads[t].passes <= Bound(U)
  {
    RunKeepsInv(U, ids, acts);
    assert ThreadOk(U, Run(U, ids, acts).value.threads[t]);
  }

  /** A released lock is released: nobody owns it after the unlock step, and the bug check never fires. */
  lemma UnlockReleases(U: int, ids: set<nat>, acts: seq<(nat, Step)>, t: nat)
    requires Run(U, ids, acts).Some?
    requires var s := Run(U, ids, acts).value; t in s.threads && s.threads[t].pc.Holding?
    ensures var s := Run(U, ids, acts).value;
      && s.bit && Next(U, s, t, Unlock).Some?
      && !Next(U, s, t, Unlock).value.bit
      && forall x: nat :: !Owns(Next(U, s, t, Unlock).value, x)
  {
    RunKeepsInv(U, ids, acts);
    var s := Run(U, ids, acts).value;
    assert Owns(s, t);
    OwnerStep(U, s, t, Unlock);
  }
}
