/**
 Lost wake-ups. Whenever the lock bit is clear and somebody sleeps in the queue, some thread is on its
 way to take the bit or to wake the queue: in every run, or exactly under which conditions.
 */
module FolioWake {
  import opened Wrappers
  import opened FolioLock
  import opened FolioWait

  predicate Sleeps(s: State, t: nat) {
    t in s.queue && t in s.threads && s.threads[t].pc.Wait? && !s.threads[t].flags.woken
  }

  /**
   The thread will look at the head of the queue, or it has been woken to take the bit itself. A
   walker that removes an exclusive entry will not look any further.
   */
  predicate Carries(s: State, t: nat) {
    t in s.threads &&
    (|| s.threads[t].pc.WakeLock? || s.threads[t].pc.WalkTest? || s.threads[t].pc.WalkGrab? || s.threads[t].pc.WalkMark?
     || (s.threads[t].pc.WalkRemove? && s.threads[t].pc.at < |s.queue| && s.queue[s.threads[t].pc.at] in s.threads
         && !s.threads[s.queue[s.threads[t].pc.at]].exclusive)
     || ((s.threads[t].pc.Wait? || s.threads[t].pc.TryBit?)
         && s.threads[t].exclusive && s.threads[t].flags.woken && !s.threads[t].flags.done))
  }

  /** The bit is clear, somebody sleeps, and nobody will wake him. */
  ghost predicate Lost(s: State) {
    !s.bit && (exists t: nat :: Sleeps(s, t)) && !exists t: nat :: Carries(s, t)
  }

  /** Every walk is at the head of the queue. */
  predicate AtHead(s: State, t: nat)
    requires t in s.threads
  {
    var pc := s.threads[t].pc;
    pc.WalkTest? || pc.WalkGrab? || pc.WalkMark? || pc.WalkRemove? ==> pc.at == 0
  }

  ghost predicate WakeOk(s: State) {
    && (s.queue != [] ==> s.waiters)
    && (forall t :: t in s.threads ==> AtHead(s, t))
    && !Lost(s)
  }

  /** The entry that is marked belongs to an exclusive waiter that has left on a signal and is not handed the bit. */
  predicate Wasted(s: State, u: nat)
    requires u in s.threads && s.threads[u].pc.WalkMark?
  {
    var pc := s.threads[u].pc;
    && pc.at < |s.queue| && s.queue[pc.at] in s.threads && !pc.grabbed
    && s.threads[s.queue[pc.at]].exclusive && s.threads[s.queue[pc.at]].pc.FinishWait?
  }

  // ---------------------------------------------------------------- flag and head

  lemma HeadActs(U: int, s: State, u: nat, a: Step)
    requires Next(U, s, u, a).Some? && !a.Advance?
    requires s.queue != [] ==> s.waiters
    ensures var s' := Next(U, s, u, a).value; u in s'.threads && AtHead(s', u) && (s'.queue != [] ==> s'.waiters)
  {
  }

  lemma HeadWaits(U: int, s: State, u: nat)
    requires Next(U, s, u, Advance).Some? && (Early(s.threads[u].pc) || Late(s.threads[u].pc))
    requires s.queue != [] ==> s.waiters
    ensures var s' := Next(U, s, u, Advance).value; u in s'.threads && AtHead(s', u) && (s'.queue != [] ==> s'.waiters)
  {
    if s.threads[u].pc.FinishWait? && u in s.queue { assert s.queue != []; }
  }

  lemma HeadWalks(U: int, s: State, u: nat)
    requires Next(U, s, u, Advance).Some? && (s.threads[u].pc.WakeLock? || Walking(s.threads[u].pc)) && AtHead(s, u)
    requires s.queue != [] ==> s.waiters
    ensures var s' := Next(U, s, u, Advance).value; u in s'.threads && AtHead(s', u) && (s'.queue != [] ==> s'.waiters)
  {
  }

  lemma HeadStep(U: int, s: State, u: nat, a: Step)
    requires Inv(U, s) && Next(U, s, u, a).Some?
    requires (s.queue != [] ==> s.waiters) && forall t :: t in s.threads ==> AtHead(s, t)
    ensures var s' := Next(U, s, u, a).value;
      (s'.queue != [] ==> s'.waiters) && forall t :: t in s'.threads ==> AtHead(s', t)
  {
    var s' := Next(U, s, u, a).value;
    if !a.Advance? { HeadActs(U, s, u, a); }
    else if Early(s.threads[u].pc) || Late(s.threads[u].pc) { HeadWaits(U, s, u); }
    else { HeadWalks(U, s, u); }
    if Marks(s, u, a) {
      MarkForm(U, s, u);
    } else {
      OnlyActor(U, s, u, a);
    }
    forall t | t in s'.threads ensures AtHead(s', t) { assert t != u ==> AtHead(s, t); }
  }

  // ---------------------------------------------------------------- one step

  /** Only the unlock clears the bit, and only a thread that finds the bit set joins the queue. */
  lemma BitAndQueueActs(U: int, s: State, u: nat, a: Step)
    requires Next(U, s, u, a).Some? && !a.Advance? && !a.Unlock?
    ensures var s' := Next(U, s, u, a).value;
      (s.bit ==> s'.bit) && s'.queue == s.queue && u in s'.threads && !s'.threads[u].pc.Wait?
  {
  }

  lemma BitAndQueueEarly(U: int, s: State, u: nat)
    requires Next(U, s, u, Advance).Some? && Early(s.threads[u].pc)
    ensures var s' := Next(U, s, u, Advance).value;
      && (s.bit ==> s'.bit) && u in s'.threads
      && (s'.queue == s.queue || (s.bit && s'.queue == s.queue + [u]))
      && (s'.threads[u].pc.Wait? && !s'.threads[u].flags.woken ==> s.bit)
  {
  }

  lemma BitAndQueueLate(U: int, s: State, u: nat)
    requires Next(U, s, u, Advance).Some? && Late(s.threads[u].pc) && Distinct(s.queue)
    ensures var s' := Next(U, s, u, Advance).value;
      && (s.bit ==> s'.bit) && u in s'.threads && !s'.threads[u].pc.Wait?
      && (forall x :: x in s'.queue ==> x in s.queue) && (s.lock.Some? ==> s'.queue == s.queue)
  {
    if s.threads[u].pc.FinishWait? { DropFacts(s.queue, u); }
  }

  lemma BitAndQueueWalks(U: int, s: State, u: nat)
    requires Next(U, s, u, Advance).Some? && (s.threads[u].pc.WakeLock? || Walking(s.threads[u].pc)) && Distinct(s.queue)
    ensures var s' := Next(U, s, u, Advance).value;
      && (s.bit ==> s'.bit) && u in s'.threads && !s'.threads[u].pc.Wait?
      && (forall x :: x in s'.queue ==> x in s.queue)
  {
    if s.threads[u].pc.WalkRemove? { RemoveAtFacts(s.queue, s.threads[u].pc.at); }
  }

  lemma BitAndQueue(U: int, s: State, u: nat, a: Step)
    requires Inv(U, s) && Next(U, s, u, a).Some? && !a.Unlock?
    ensures var s' := Next(U, s, u, a).value;
      && (s.bit ==> s'.bit) && u in s'.threads
      && (!s.bit ==> !(s'.threads[u].pc.Wait? && !s'.threads[u].flags.woken) && forall x :: x in s'.queue ==> x in s.queue)
  {
    if !a.Advance? { BitAndQueueActs(U, s, u, a); }
    else if Early(s.threads[u].pc) { BitAndQueueEarly(U, s, u); }
    else if Late(s.threads[u].pc) { BitAndQueueLate(U, s, u); }
    else { BitAndQueueWalks(U, s, u); }
  }

  /** Who sleeps after a step with the bit clear has slept before. */
  lemma SleeperWasThere(U: int, s: State, u: nat, a: Step, x: nat)
    requires Inv(U, s) && Next(U, s, u, a).Some? && !s.bit && Sleeps(Next(U, s, u, a).value, x) && !a.Unlock?
    ensures x != u && Sleeps(s, x)
  {
    BitAndQueue(U, s, u, a);
    if Marks(s, u, a) { MarkForm(U, s, u); } else { OnlyActor(U, s, u, a); }
  }

  /** While a walk goes on, nobody else changes the queue. */
  lemma OthersKeepQueue(U: int, s: State, u: nat, a: Step)
    requires Inv(U, s) && Next(U, s, u, a).Some? && s.lock.Some? && s.lock != Some(u)
    ensures Next(U, s, u, a).value.queue == s.queue
  {
    assert WalkerOk(s, u);
    if !a.Advance? { QueueActs(U, s, u, a); }
    else if Early(s.threads[u].pc) { QueueEarly(U, s, u); }
    else if Late(s.threads[u].pc) { BitAndQueueLate(U, s, u); }
  }

  lemma QueueActs(U: int, s: State, u: nat, a: Step)
    requires Next(U, s, u, a).Some? && !a.Advance?
    ensures Next(U, s, u, a).value.queue == s.queue
  {
  }

  lemma QueueEarly(U: int, s: State, u: nat)
    requires Next(U, s, u, Advance).Some? && Early(s.threads[u].pc) && s.lock.Some?
    ensures Next(U, s, u, Advance).value.queue == s.queue
  {
  }

  lemma CarrierStays(U: int, s: State, u: nat, a: Step, y: nat)
    requires Inv(U, s) && Next(U, s, u, a).Some? && y != u && Carries(s, y)
    ensures Carries(Next(U, s, u, a).value, y)
  {
    assert WalkerOk(s, y) && WalkerOk(s, u);
    if Marks(s, u, a) {
      MarkForm(U, s, u);
    } else {
      OnlyActor(U, s, u, a);
      if s.threads[y].pc.WalkRemove? {
        OthersKeepQueue(U, s, u, a);
        assert s.queue[s.threads[y].pc.at] in s.queue && QueuedOk(s, s.queue[s.threads[y].pc.at]);
        if u == s.queue[s.threads[y].pc.at] { WaiterKeepsKind(U, s, u, a); }
      }
    }
  }

  lemma WaiterKeepsKind(U: int, s: State, u: nat, a: Step)
    requires Next(U, s, u, a).Some? && (Early(s.threads[u].pc) || Late(s.threads[u].pc))
    ensures u in Next(U, s, u, a).value.threads && Next(U, s, u, a).value.threads[u].exclusive == s.threads[u].exclusive
  {
  }

  // ---------------------------------------------------------------- the carrier's own step

  lemma WalkCarries(U: int, s: State, u: nat)
    requires Inv(U, s) && u in s.threads && AtHead(s, u) && Next(U, s, u, Advance).Some? && !s.bit && s.queue != []
    requires s.threads[u].pc.WakeLock? || s.threads[u].pc.WalkTest? || s.threads[u].pc.WalkGrab?
    ensures var s' := Next(U, s, u, Advance).value; s'.bit || Carries(s', u)
  {
    assert s.queue[0] in s.queue && QueuedOk(s, s.queue[0]);
    assert WalkerOk(s, u);
  }

  lemma RemoveCarries(U: int, s: State, u: nat)
    requires Next(U, s, u, Advance).Some? && s.threads[u].pc.WalkRemove? && Carries(s, u)
    ensures Carries(Next(U, s, u, Advance).value, u)
  {
  }

  lemma WokenCarries(U: int, s: State, u: nat, a: Step)
    requires Next(U, s, u, a).Some? && !s.bit && (s.threads[u].pc.Wait? || s.threads[u].pc.TryBit?) && Carries(s, u)
    ensures var s' := Next(U, s, u, a).value; s'.bit || Carries(s', u)
  {
  }

  /** Marking wakes an exclusive waiter that will take the bit, unless the wake-up is wasted. */
  lemma MarkCarries(U: int, s: State, u: nat)
    requires Inv(U, s) && u in s.threads && AtHead(s, u) && Next(U, s, u, Advance).Some? && s.threads[u].pc.WalkMark? && !s.bit && !Wasted(s, u)
    ensures var s' := Next(U, s, u, Advance).value; Carries(s', u) || Carries(s', s.queue[0])
  {
    MarkForm(U, s, u);
    assert WalkerOk(s, u);
    var w := s.queue[0];
    assert ThreadOk(U, s.threads[w]);
    assert GrabbedFor(s, w) ==> Owns(s, w);
  }

  lemma CarrierActs(U: int, s: State, u: nat, a: Step)
    requires Inv(U, s) && u in s.threads && AtHead(s, u) && Next(U, s, u, a).Some? && !s.bit && s.queue != [] && Carries(s, u)
    requires s.threads[u].pc.WalkMark? ==> !Wasted(s, u)
    ensures var s' := Next(U, s, u, a).value; s'.bit || exists t: nat :: Carries(s', t)
  {
    var pc := s.threads[u].pc;
    if pc.Wait? || pc.TryBit? { WokenCarries(U, s, u, a); }
    else if pc.WalkMark? { MarkCarries(U, s, u); }
    else if pc.WalkRemove? { RemoveCarries(U, s, u); }
    else { WalkCarries(U, s, u); }
  }

  /** No step loses a wake-up but one that wastes it while others sleep. */
  lemma StepKeepsWakeOk(U: int, s: State, u: nat, a: Step)
    requires Inv(U, s) && WakeOk(s) && Next(U, s, u, a).Some?
    requires Marks(s, u, a) && Wasted(s, u) ==> !exists x: nat :: x != s.queue[0] && Sleeps(s, x)
    ensures WakeOk(Next(U, s, u, a).value)
  {
    var s' := Next(U, s, u, a).value;
    HeadStep(U, s, u, a);
    if Lost(s') {
      var x: nat :| Sleeps(s', x);
      if a.Unlock? {
        assert s'.threads[u].pc.WakeLock?;
        assert Carries(s', u);
      } else {
        BitAndQueue(U, s, u, a);
        SleeperWasThere(U, s, u, a, x);
        var y: nat :| Carries(s, y);
        if y != u {
          CarrierStays(U, s, u, a, y);
        } else {
          if Marks(s, u, a) && Wasted(s, u) {
            assert false;
          } else {
            CarrierActs(U, s, u, a);
          }
        }
      }
    }
  }

  // ---------------------------------------------------------------- every run

  /** No exclusive waiter leaves its wait on a signal. */
  predicate Patient(U: int, ids: set<nat>, acts: seq<(nat, Step)>)
    decreases |acts|
  {
    acts == [] ||
    (&& Patient(U, ids, acts[..|acts| - 1])
     && var (u, a) := acts[|acts| - 1];
        match Run(U, ids, acts[..|acts| - 1])
        case None => true
        case Some(s) => a.Signal? && u in s.threads ==> !s.threads[u].exclusive)
  }

  ghost predicate NoneLeft(s: State) {
    forall t :: t in s.threads && s.threads[t].exclusive && s.threads[t].pc.FinishWait? ==> s.threads[t].flags.woken
  }

  lemma FinishKeepsKind(U: int, s: State, u: nat, a: Step)
    requires Next(U, s, u, a).Some? && u in Next(U, s, u, a).value.threads && Next(U, s, u, a).value.threads[u].pc.FinishWait?
    requires Early(s.threads[u].pc) || Late(s.threads[u].pc)
    ensures Next(U, s, u, a).value.threads[u].exclusive == s.threads[u].exclusive && !s.threads[u].pc.FinishWait?
  {
  }

  lemma NoneLeaves(U: int, s: State, u: nat, a: Step)
    requires Inv(U, s) && NoneLeft(s) && Next(U, s, u, a).Some? && (a.Signal? ==> !s.threads[u].exclusive)
    ensures NoneLeft(Next(U, s, u, a).value)
  {
    var s' := Next(U, s, u, a).value;
    forall t | t in s'.threads && s'.threads[t].exclusive && s'.threads[t].pc.FinishWait? ensures s'.threads[t].flags.woken {
      if t == u {
        assert ThreadOk(U, s.threads[u]);
        OwnStep(U, s, u, a);
        FinishKeepsKind(U, s, u, a);
      } else {
        StillThere(U, s, u, a, t);
        OtherStep(U, s, u, a, t);
      }
    }
  }

  lemma {:induction false} PatientLeavesNone(U: int, ids: set<nat>, acts: seq<(nat, Step)>)
    requires Run(U, ids, acts).Some? && Patient(U, ids, acts)
    ensures NoneLeft(Run(U, ids, acts).value)
    decreases |acts|
  {
    if acts != [] {
      LastStep(U, ids, acts, 0);
      PatientLeavesNone(U, ids, acts[..|acts| - 1]);
      NoneLeaves(U, Run(U, ids, acts[..|acts| - 1]).value, acts[|acts| - 1].0, acts[|acts| - 1].1);
    }
  }

  lemma {:induction false} ThreadsAreIds(U: int, ids: set<nat>, acts: seq<(nat, Step)>)
    requires Run(U, ids, acts).Some?
    ensures Run(U, ids, acts).value.threads.Keys == ids
    decreases |acts|
  {
    if acts != [] {
      LastStep(U, ids, acts, 0);
      ThreadsAreIds(U, ids, acts[..|acts| - 1]);
      var s, u, a := Run(U, ids, acts[..|acts| - 1]).value, acts[|acts| - 1].0, acts[|acts| - 1].1;
      if Marks(s, u, a) { MarkForm(U, s, u); } else { OnlyActor(U, s, u, a); }
    }
  }

  lemma ThreeAreThree(ids: set<nat>, a: nat, b: nat, c: nat)
    requires a in ids && b in ids && c in ids && a != b && b != c && a != c
    ensures |ids| >= 3
  {
    assert |ids - {a}| == |ids| - 1;
    assert |ids - {a} - {b}| == |ids| - 2;
    assert c in ids - {a} - {b};
  }

  /** With hand-over from the first pass on, no wake-up is wasted. */
  lemma HandOverWastesNone(U: int, s: State, u: nat)
    requires Inv(U, s) && Next(U, s, u, Advance).Some? && s.threads[u].pc.WalkMark? && U < 1
    ensures !Wasted(s, u)
  {
    MarkForm(U, s, u);
    assert ThreadOk(U, s.threads[s.queue[s.threads[u].pc.at]]);
  }

  /** Nothing is lost without signals, with hand-over from the start, or among two threads. */
  lemma {:induction false} NothingIsLost(U: int, ids: set<nat>, acts: seq<(nat, Step)>)
    requires Run(U, ids, acts).Some? && (Patient(U, ids, acts) || U < 1 || |ids| < 3)
    ensures WakeOk(Run(U, ids, acts).value)
    decreases |acts|
  {
    if acts != [] {
      LastStep(U, ids, acts, 0);
      NothingIsLost(U, ids, acts[..|acts| - 1]);
      var s, u, a := Run(U, ids, acts[..|acts| - 1]).value, acts[|acts| - 1].0, acts[|acts| - 1].1;
      if Marks(s, u, a) && Wasted(s, u) {
        MarkForm(U, s, u);
        WasteNeedsThree(U, ids, acts[..|acts| - 1], u);
      }
      StepKeepsWakeOk(U, s, u, a);
    }
  }

  /** A wasted wake-up matters only if a third thread sleeps. */
  lemma WasteNeedsThree(U: int, ids: set<nat>, acts: seq<(nat, Step)>, u: nat)
    requires Run(U, ids, acts).Some? && (Patient(U, ids, acts) || U < 1 || |ids| < 3)
    requires Next(U, Run(U, ids, acts).value, u, Advance).Some?
    requires Run(U, ids, acts).value.threads[u].pc.WalkMark? && Wasted(Run(U, ids, acts).value, u)
    requires AtHead(Run(U, ids, acts).value, u)
    ensures forall x: nat :: x != Run(U, ids, acts).value.queue[0] ==> !Sleeps(Run(U, ids, acts).value, x)
  {
    var s := Run(U, ids, acts).value;
    RunKeepsInv(U, ids, acts);
    MarkForm(U, s, u);
    if Patient(U, ids, acts) { PatientLeavesNone(U, ids, acts); }
    if U < 1 { HandOverWastesNone(U, s, u); }
    forall x: nat | x != s.queue[0] && Sleeps(s, x) ensures false {
      ThreadsAreIds(U, ids, acts);
      ThreeAreThree(ids, u, s.queue[0], x);
    }
  }

  // ---------------------------------------------------------------- a run that loses one

  const IDLE := Thread(Out, false, 0, 0, NO_FLAGS, false)

  /** What three threads do; all others are idle. */
  ghost predicate Scene(ids: set<nat>, s: State, a: nat, ta: Thread, b: nat, tb: Thread, c: nat, tc: Thread,
                        bit: bool, waiters: bool, queue: seq<nat>, lock: Option<nat>) {
    && s.threads.Keys == ids && Apart(ids, a, b, c)
    && s.threads[a] == ta && s.threads[b] == tb && s.threads[c] == tc
    && (forall t :: t in ids && t != a && t != b && t != c ==> s.threads[t] == IDLE)
    && s.bit == bit && s.waiters == waiters && s.queue == queue && s.lock == lock
  }

  /** An exclusive waiter in its first pass. */
  function First(U: int, pc: Pc, woken: bool): Thread {
    Thread(pc, true, U - 1, 1, Flags(true, false, woken, false), false)
  }

  function Calling(U: int): Thread {
    Thread(Prepare, true, U, 0, NO_FLAGS, false)
  }

  predicate Apart(ids: set<nat>, a: nat, b: nat, c: nat) {
    a in ids && b in ids && c in ids && a != b && b != c && a != c
  }

  lemma Starts(U: int, ids: set<nat>, a: nat, b: nat, c: nat)
    requires Apart(ids, a, b, c)
    ensures Run(U, ids, []) == Some(Init(ids)) && Scene(ids, Init(ids), a, IDLE, b, IDLE, c, IDLE, false, false, [], None)
  {
  }

  /** One more step. */
  lemma StepTo(U: int, ids: set<nat>, acts: seq<(nat, Step)>, u: nat, a: Step) returns (more: seq<(nat, Step)>)
    requires Run(U, ids, acts).Some? && Next(U, Run(U, ids, acts).value, u, a).Some?
    ensures Run(U, ids, more) == Next(U, Run(U, ids, acts).value, u, a)
  {
    more := acts + [(u, a)];
    assert more[..|more| - 1] == acts;
  }

  lemma Locks(U: int, ids: set<nat>, s: State, a: nat, b: nat, c: nat)
    requires Scene(ids, s, a, IDLE, b, IDLE, c, IDLE, false, false, [], None)
    ensures var o := Next(U, s, a, TryLock);
      o.Some? && Scene(ids, o.value, a, IDLE.(pc := Holding), b, IDLE, c, IDLE, true, false, [], None)
  {
  }

  /** b calls while the lock is held. */
  lemma Calls(U: int, ids: set<nat>, s: State, a: nat, ta: Thread, b: nat, c: nat, tc: Thread, waiters: bool, q: seq<nat>)
    requires Scene(ids, s, a, ta, b, IDLE, c, tc, true, waiters, q, None)
    ensures var o := Next(U, s, b, Call(true));
      o.Some? && Scene(ids, o.value, a, ta, b, Calling(U), c, tc, true, waiters, q, None)
  {
  }

  lemma Prepares(U: int, ids: set<nat>, s: State, a: nat, ta: Thread, b: nat, c: nat, tc: Thread, waiters: bool, q: seq<nat>)
    requires U >= 1 && Scene(ids, s, a, ta, b, Calling(U), c, tc, true, waiters, q, None)
    ensures var o := Next(U, s, b, Advance);
      o.Some? && Scene(ids, o.value, a, ta, b, First(U, Enqueue, false), c, tc, true, waiters, q, None)
  {
  }

  lemma Queues(U: int, ids: set<nat>, s: State, a: nat, ta: Thread, b: nat, c: nat, tc: Thread, waiters: bool, q: seq<nat>)
    requires Scene(ids, s, a, ta, b, First(U, Enqueue, false), c, tc, true, waiters, q, None)
    ensures var o := Next(U, s, b, Advance);
      o.Some? && Scene(ids, o.value, a, ta, b, First(U, Wait, false), c, tc, true, true, q + [b], None)
  {
  }

  /** A caller that finds the bit set ends up asleep at the end of the queue. */
  lemma FallsAsleep(U: int, ids: set<nat>, acts: seq<(nat, Step)>, a: nat, ta: Thread, b: nat, c: nat, tc: Thread, waiters: bool, q: seq<nat>)
    returns (more: seq<(nat, Step)>)
    requires U >= 1 && Run(U, ids, acts).Some? && Scene(ids, Run(U, ids, acts).value, a, ta, b, IDLE, c, tc, true, waiters, q, None)
    ensures Run(U, ids, more).Some? && Scene(ids, Run(U, ids, more).value, a, ta, b, First(U, Wait, false), c, tc, true, true, q + [b], None)
  {
    Calls(U, ids, Run(U, ids, acts).value, a, ta, b, c, tc, waiters, q);
    more := StepTo(U, ids, acts, b, Call(true));
    Prepares(U, ids, Run(U, ids, more).value, a, ta, b, c, tc, waiters, q);
    more := StepTo(U, ids, more, b, Advance);
    Queues(U, ids, Run(U, ids, more).value, a, ta, b, c, tc, waiters, q);
    more := StepTo(U, ids, more, b, Advance);
  }

  lemma Interrupted(U: int, ids: set<nat>, s: State, a: nat, ta: Thread, b: nat, c: nat, tc: Thread, q: seq<nat>)
    requires Scene(ids, s, a, ta, b, First(U, Wait, false), c, tc, true, true, q, None)
    ensures var o := Next(U, s, b, Signal);
      o.Some? && Scene(ids, o.value, a, ta, b, First(U, FinishWait, false), c, tc, true, true, q, None)
  {
  }

  /** a unlocks, and its walk comes to the entry of b, which has left. */
  lemma Unlocks(U: int, ids: set<nat>, s: State, a: nat, b: nat, tb: Thread, c: nat, tc: Thread, q: seq<nat>)
    requires Scene(ids, s, a, IDLE.(pc := Holding), b, tb, c, tc, true, true, q, None)
    ensures var o := Next(U, s, a, Unlock); o.Some? && Scene(ids, o.value, a, IDLE.(pc := WakeLock), b, tb, c, tc, false, true, q, None)
  {
  }

  lemma StartsWalk(U: int, ids: set<nat>, s: State, a: nat, b: nat, tb: Thread, c: nat, tc: Thread, q: seq<nat>)
    requires Scene(ids, s, a, IDLE.(pc := WakeLock), b, tb, c, tc, false, true, q, None)
    ensures var o := Next(U, s, a, Advance); o.Some? && Scene(ids, o.value, a, IDLE.(pc := WalkTest(0)), b, tb, c, tc, false, true, q, Some(a))
  {
  }

  lemma FindsB(U: int, ids: set<nat>, s: State, a: nat, b: nat, c: nat, tc: Thread)
    requires Scene(ids, s, a, IDLE.(pc := WalkTest(0)), b, First(U, FinishWait, false), c, tc, false, true, [b, c], Some(a))
    ensures var o := Next(U, s, a, Advance);
      o.Some? && Scene(ids, o.value, a, IDLE.(pc := WalkMark(0, false)), b, First(U, FinishWait, false), c, tc, false, true, [b, c], Some(a))
  {
  }

  lemma MarksB(U: int, ids: set<nat>, s: State, a: nat, b: nat, c: nat, tc: Thread)
    requires Scene(ids, s, a, IDLE.(pc := WalkMark(0, false)), b, First(U, FinishWait, false), c, tc, false, true, [b, c], Some(a))
    ensures var o := Next(U, s, a, Advance);
      o.Some? && Scene(ids, o.value, a, IDLE.(pc := WalkRemove(0)), b, First(U, FinishWait, true), c, tc, false, true, [b, c], Some(a))
  {
  }

  lemma RemovesB(U: int, ids: set<nat>, s: State, a: nat, b: nat, c: nat, tc: Thread)
    requires Scene(ids, s, a, IDLE.(pc := WalkRemove(0)), b, First(U, FinishWait, true), c, tc, false, true, [b, c], Some(a))
    ensures var o := Next(U, s, a, Advance);
      o.Some? && Scene(ids, o.value, a, IDLE.(pc := WalkEnd), b, First(U, FinishWait, true), c, tc, false, true, [c], Some(a))
  {
    assert RemoveAt([b, c], 0) == [c];
  }

  lemma EndsWalk(U: int, ids: set<nat>, s: State, a: nat, b: nat, tb: Thread, c: nat, tc: Thread)
    requires Scene(ids, s, a, IDLE.(pc := WalkEnd), b, tb, c, tc, false, true, [c], Some(a))
    ensures var o := Next(U, s, a, EndWalk(false)); o.Some? && Scene(ids, o.value, a, IDLE, b, tb, c, tc, false, true, [c], None)
  {
  }

  lemma Dequeues(U: int, ids: set<nat>, s: State, a: nat, b: nat, c: nat, tc: Thread)
    requires Scene(ids, s, a, IDLE, b, First(U, FinishWait, true), c, tc, false, true, [c], None)
    ensures var o := Next(U, s, b, Advance);
      o.Some? && Scene(ids, o.value, a, IDLE, b, First(U, Return, true), c, tc, false, true, [c], None)
  {
  }

  lemma GivesUp(U: int, ids: set<nat>, s: State, a: nat, b: nat, c: nat, tc: Thread)
    requires Scene(ids, s, a, IDLE, b, First(U, Return, true), c, tc, false, true, [c], None)
    ensures var o := Next(U, s, b, Advance);
      o.Some? && Scene(ids, o.value, a, IDLE, b, First(U, Out, true), c, tc, false, true, [c], None)
  {
  }

  /** Two waiters fall asleep behind the holder, and the first of them is interrupted. */
  lemma FirstAct(U: int, ids: set<nat>, a: nat, b: nat, c: nat) returns (acts: seq<(nat, Step)>)
    requires U >= 1 && Apart(ids, a, b, c)
    ensures Run(U, ids, acts).Some?
    ensures Scene(ids, Run(U, ids, acts).value, a, IDLE.(pc := Holding), b, First(U, FinishWait, false), c, First(U, Wait, false), true, true, [b, c], None)
  {
    Starts(U, ids, a, b, c);
    Locks(U, ids, Init(ids), a, b, c);
    acts := StepTo(U, ids, [], a, TryLock);
    acts := FallsAsleep(U, ids, acts, a, IDLE.(pc := Holding), b, c, IDLE, false, []);
    acts := FallsAsleep(U, ids, acts, a, IDLE.(pc := Holding), c, b, First(U, Wait, false), true, [] + [b]);
    assert [] + [b] + [c] == [b, c];
    Interrupted(U, ids, Run(U, ids, acts).value, a, IDLE.(pc := Holding), b, c, First(U, Wait, false), [b, c]);
    acts := StepTo(U, ids, acts, b, Signal);
  }

  /** The unlock wakes the interrupted one. */
  lemma SecondAct(U: int, ids: set<nat>, before: seq<(nat, Step)>, a: nat, b: nat, c: nat, tc: Thread) returns (acts: seq<(nat, Step)>)
    requires Run(U, ids, before).Some?
    requires Scene(ids, Run(U, ids, before).value, a, IDLE.(pc := Holding), b, First(U, FinishWait, false), c, tc, true, true, [b, c], None)
    ensures Run(U, ids, acts).Some?
    ensures Scene(ids, Run(U, ids, acts).value, a, IDLE.(pc := WalkRemove(0)), b, First(U, FinishWait, true), c, tc, false, true, [b, c], Some(a))
  {
    Unlocks(U, ids, Run(U, ids, before).value, a, b, First(U, FinishWait, false), c, tc, [b, c]);
    acts := StepTo(U, ids, before, a, Unlock);
    StartsWalk(U, ids, Run(U, ids, acts).value, a, b, First(U, FinishWait, false), c, tc, [b, c]);
    acts := StepTo(U, ids, acts, a, Advance);
    FindsB(U, ids, Run(U, ids, acts).value, a, b, c, tc);
    acts := StepTo(U, ids, acts, a, Advance);
    MarksB(U, ids, Run(U, ids, acts).value, a, b, c, tc);
    acts := StepTo(U, ids, acts, a, Advance);
  }

  /** The walk ends there, and the interrupted one gives up. */
  lemma ThirdAct(U: int, ids: set<nat>, before: seq<(nat, Step)>, a: nat, b: nat, c: nat, tc: Thread) returns (acts: seq<(nat, Step)>)
    requires Run(U, ids, before).Some?
    requires Scene(ids, Run(U, ids, before).value, a, IDLE.(pc := WalkRemove(0)), b, First(U, FinishWait, true), c, tc, false, true, [b, c], Some(a))
    ensures Run(U, ids, acts).Some? && Scene(ids, Run(U, ids, acts).value, a, IDLE, b, First(U, Out, true), c, tc, false, true, [c], None)
  {
    RemovesB(U, ids, Run(U, ids, before).value, a, b, c, tc);
    acts := StepTo(U, ids, before, a, Advance);
    EndsWalk(U, ids, Run(U, ids, acts).value, a, b, First(U, FinishWait, true), c, tc);
    acts := StepTo(U, ids, acts, a, EndWalk(false));
    Dequeues(U, ids, Run(U, ids, acts).value, a, b, c, tc);
    acts := StepTo(U, ids, acts, b, Advance);
    GivesUp(U, ids, Run(U, ids, acts).value, a, b, c, tc);
    acts := StepTo(U, ids, acts, b, Advance);
  }

  /** An interrupted exclusive waiter swallows the only wake-up: the lock is free, one thread sleeps, and all others are out. */
  lemma WakeupCanBeLost(U: int, ids: set<nat>, a: nat, b: nat, c: nat) returns (acts: seq<(nat, Step)>)
    requires U >= 1 && Apart(ids, a, b, c)
    ensures Run(U, ids, acts).Some? && Lost(Run(U, ids, acts).value) && Sleeps(Run(U, ids, acts).value, c)
    ensures forall t :: t in ids && t != c ==> t in Run(U, ids, acts).value.threads && Run(U, ids, acts).value.threads[t].pc.Out?
  {
    acts := FirstAct(U, ids, a, b, c);
    acts := SecondAct(U, ids, acts, a, b, c, First(U, Wait, false));
    acts := ThirdAct(U, ids, acts, a, b, c, First(U, Wait, false));
    assert Sleeps(Run(U, ids, acts).value, c);
  }

  /**
   The exact condition. killable says whether exclusive waiters may leave on a signal. No run loses a
   wake-up if and only if they may not, or the lock is handed over from the first pass on, or there
   are fewer than three threads.
   */
  lemma WakeupsAreKeptIff(U: int, ids: set<nat>, killable: bool)
    ensures (forall acts :: Run(U, ids, acts).Some? && (killable || Patient(U, ids, acts)) ==> !Lost(Run(U, ids, acts).value))
      <==> (!killable || U < 1 || |ids| < 3)
  {
    if !killable || U < 1 || |ids| < 3 {
      forall acts | Run(U, ids, acts).Some? && (killable || Patient(U, ids, acts)) ensures !Lost(Run(U, ids, acts).value) {
        NothingIsLost(U, ids, acts);
      }
    } else {
      var a :| a in ids;
      assert |ids - {a}| >= 2;
      var b :| b in ids - {a};
      assert |ids - {a} - {b}| >= 1;
      var c :| c in ids - {a} - {b};
      var acts := WakeupCanBeLost(U, ids, a, b, c);
    }
  }

  // ---------------------------------------------------------------- no herd

  /** The step wakes an exclusive waiter by a walk. */
  predicate WakesExclusive(s: State, u: nat, a: Step) {
    && u in s.threads && a.Advance? && s.threads[u].pc.WalkMark?
    && s.threads[u].pc.at < |s.queue| && s.queue[s.threads[u].pc.at] in s.threads
    && s.threads[s.queue[s.threads[u].pc.at]].exclusive
  }

  /** How many exclusive waiters were woken since the last walk began. */
  function WokenInWalk(U: int, ids: set<nat>, acts: seq<(nat, Step)>): nat
    decreases |acts|
  {
    if acts == [] then 0
    else
      var before := acts[..|acts| - 1];
      var (u, a) := acts[|acts| - 1];
      match Run(U, ids, before)
      case None => 0
      case Some(s) =>
        if u in s.threads && a.Advance? && s.threads[u].pc.WakeLock? then 0
        else WokenInWalk(U, ids, before) + if WakesExclusive(s, u, a) then 1 else 0
  }

  /** A walk that goes on has not woken an exclusive waiter yet. */
  predicate CountOk(s: State, t: nat, n: nat)
    requires t in s.threads
  {
    var pc := s.threads[t].pc;
    && (pc.WalkTest? || pc.WalkGrab? || pc.WalkMark? ==> n == 0)
    && (pc.WalkRemove? && pc.at < |s.queue| && s.queue[pc.at] in s.threads && !s.threads[s.queue[pc.at]].exclusive ==> n == 0)
  }

  lemma OthersKeepCount(U: int, s: State, u: nat, a: Step, t: nat, n: nat)
    requires Inv(U, s) && Next(U, s, u, a).Some? && t != u && t in s.threads && CountOk(s, t, n)
    ensures t in Next(U, s, u, a).value.threads
    ensures Walking(s.threads[t].pc) && !s.threads[t].pc.WalkEnd? ==> CountOk(Next(U, s, u, a).value, t, n) && !WakesExclusive(s, u, a)
    ensures !Walking(s.threads[t].pc) || s.threads[t].pc.WalkEnd? ==> forall m: nat :: CountOk(Next(U, s, u, a).value, t, m)
  {
    assert WalkerOk(s, t) && WalkerOk(s, u);
    if Marks(s, u, a) {
      MarkForm(U, s, u);
    } else {
      OnlyActor(U, s, u, a);
      if s.threads[t].pc.WalkRemove? {
        OthersKeepQueue(U, s, u, a);
        assert s.queue[s.threads[t].pc.at] in s.queue && QueuedOk(s, s.queue[s.threads[t].pc.at]);
        if u == s.queue[s.threads[t].pc.at] { WaiterKeepsKind(U, s, u, a); }
      }
    }
  }

  lemma OwnKeepsCount(U: int, s: State, u: nat, a: Step, n: nat)
    requires Inv(U, s) && Next(U, s, u, a).Some? && CountOk(s, u, n) && n <= 1
    ensures u in Next(U, s, u, a).value.threads
    ensures var n' := if a.Advance? && s.threads[u].pc.WakeLock? then 0 else n + if WakesExclusive(s, u, a) then 1 else 0;
      n' <= 1 && CountOk(Next(U, s, u, a).value, u, n')
  {
    if !a.Advance? { ActDoesNotWalk(U, s, u, a); }
    else if Early(s.threads[u].pc) || Late(s.threads[u].pc) { WaiterKeepsLock(U, s, u); }
    else if Marks(s, u, a) { MarkForm(U, s, u); }
    else { WalkKeepsCount(U, s, u, n); }
  }

  lemma ActDoesNotWalk(U: int, s: State, u: nat, a: Step)
    requires Next(U, s, u, a).Some? && !a.Advance?
    ensures u in Next(U, s, u, a).value.threads && !Walking(Next(U, s, u, a).value.threads[u].pc)
  {
  }

  lemma WalkKeepsCount(U: int, s: State, u: nat, n: nat)
    requires Next(U, s, u, Advance).Some? && CountOk(s, u, n)
    requires s.threads[u].pc.WakeLock? || s.threads[u].pc.WalkTest? || s.threads[u].pc.WalkGrab? || s.threads[u].pc.WalkRemove?
    ensures u in Next(U, s, u, Advance).value.threads
    ensures CountOk(Next(U, s, u, Advance).value, u, if s.threads[u].pc.WakeLock? then 0 else n)
  {
  }

  /** A walk wakes at most one exclusive waiter: there is no herd that runs for one lock. */
  lemma {:induction false} OneExclusivePerWalk(U: int, ids: set<nat>, acts: seq<(nat, Step)>)
    requires Run(U, ids, acts).Some?
    ensures WokenInWalk(U, ids, acts) <= 1
    ensures var s := Run(U, ids, acts).value; forall t :: t in s.threads ==> CountOk(s, t, WokenInWalk(U, ids, acts))
    decreases |acts|
  {
    if acts != [] {
      LastStep(U, ids, acts, 0);
      var before, u, a := acts[..|acts| - 1], acts[|acts| - 1].0, acts[|acts| - 1].1;
      var s, n := Run(U, ids, before).value, WokenInWalk(U, ids, before);
      OneExclusivePerWalk(U, ids, before);
      OwnKeepsCount(U, s, u, a, n);
      var s' := Next(U, s, u, a).value;
      forall t | t in s'.threads ensures CountOk(s', t, WokenInWalk(U, ids, acts)) {
        if t != u {
          StillThere(U, s, u, a, t);
          OthersKeepCount(U, s, u, a, t, n);
          assert WalkerOk(s, t) && WalkerOk(s, u);
        }
      }
    }
  }

  /**
   Whom a walk turns to: it ends at once when nobody is queued; the first in the queue is woken if it is
   shared; an exclusive one only while the bit is clear, and if it has waited too long the bit is set for it.
   */
  lemma WalkTurnsTo(U: int, ids: set<nat>, acts: seq<(nat, Step)>, u: nat)
    requires Run(U, ids, acts).Some? && u in Run(U, ids, acts).value.threads
    requires Run(U, ids, acts).value.threads[u].pc.WalkTest? || Run(U, ids, acts).value.threads[u].pc.WalkGrab?
    ensures var s := Run(U, ids, acts).value;
      && Next(U, s, u, Advance).Some?
      && var s' := Next(U, s, u, Advance).value;
      && u in s'.threads && s'.queue == s.queue
      && (s.queue == [] ==> s'.threads[u].pc.WalkEnd?)
      && (s.queue != [] ==>
          var w := s.queue[0];
          && w in s.threads
          && (s'.threads[u].pc.WalkEnd? <==> s.threads[w].exclusive && s.bit)
          && (s'.threads[u].pc.WalkMark? && s.threads[w].flags.custom ==> s'.bit && s'.owner == Some(w))
          && (!s.threads[w].flags.custom ==> s'.bit == s.bit))
  {
    RunKeepsInv(U, ids, acts);
    WalksAtHead(U, ids, acts);
    var s := Run(U, ids, acts).value;
    assert WalkerOk(s, u) && AtHead(s, u);
    if s.queue != [] {
      assert s.queue[0] in s.queue && QueuedOk(s, s.queue[0]);
      HeadIsWaiting(U, s, u);
    }
  }

  /** Between two entries the first in the queue is a waiter in the middle of a pass. */
  lemma HeadIsWaiting(U: int, s: State, u: nat)
    requires Inv(U, s) && u in s.threads && (s.threads[u].pc.WalkTest? || s.threads[u].pc.WalkGrab?) && s.queue != []
    ensures s.queue[0] in s.threads && (s.threads[s.queue[0]].pc.Wait? || s.threads[s.queue[0]].pc.FinishWait?)
    ensures ThreadOk(U, s.threads[s.queue[0]])
  {
    assert s.queue[0] in s.queue && QueuedOk(s, s.queue[0]);
    assert WalkerOk(s, u);
  }

  lemma {:induction false} WalksAtHead(U: int, ids: set<nat>, acts: seq<(nat, Step)>)
    requires Run(U, ids, acts).Some?
    ensures var s := Run(U, ids, acts).value; (s.queue != [] ==> s.waiters) && forall t :: t in s.threads ==> AtHead(s, t)
    decreases |acts|
  {
    if acts != [] {
      LastStep(U, ids, acts, 0);
      WalksAtHead(U, ids, acts[..|acts| - 1]);
      HeadStep(U, Run(U, ids, acts[..|acts| - 1]).value, acts[|acts| - 1].0, acts[|acts| - 1].1);
    }
  }
}
