/**
 Who wakes a waiter, and what a wait returns. The record of wake-ups and signals is read off the run,
 not off the flags of the thread.
 */
module FolioWait {
  import opened Wrappers
  import opened FolioLock

  /** The step of u wakes t: t finds the bit clear under the queue lock, or another thread's walk marks its entry. */
  predicate Wakes(s: State, u: nat, a: Step, t: nat) {
    && u in s.threads && a.Advance?
    && (|| (u == t && s.threads[t].pc.Enqueue? && s.lock.None? && !s.bit)
        || (u != t && s.threads[u].pc.WalkMark? && s.lock == Some(u)
            && s.threads[u].pc.at < |s.queue| && s.queue[s.threads[u].pc.at] == t))
  }

  /** t starts a wait, or another pass of its wait. */
  predicate Begins(s: State, u: nat, a: Step, t: nat) {
    u == t && t in s.threads && (a.Call? || (a.Advance? && s.threads[t].pc.Prepare?))
  }

  /** Since t's pass began, somebody has woken it. */
  predicate WasWoken(U: int, ids: set<nat>, acts: seq<(nat, Step)>, t: nat)
    decreases |acts|
  {
    acts != [] &&
    var before := acts[..|acts| - 1];
    var (u, a) := acts[|acts| - 1];
    match Run(U, ids, before)
    case None => false
    case Some(s) => !Begins(s, u, a, t) && (WasWoken(U, ids, before, t) || Wakes(s, u, a, t))
  }

  /** Since t's pass began, it has left the wait loop on a signal. */
  predicate WasSignalled(U: int, ids: set<nat>, acts: seq<(nat, Step)>, t: nat)
    decreases |acts|
  {
    acts != [] &&
    var before := acts[..|acts| - 1];
    var (u, a) := acts[|acts| - 1];
    match Run(U, ids, before)
    case None => false
    case Some(s) => !Begins(s, u, a, t) && (WasSignalled(U, ids, before, t) || (u == t && a.Signal?))
  }

  predicate Passing(pc: Pc) {
    pc.Enqueue? || pc.Wait? || pc.TryBit? || pc.FinishWait? || pc.Return?
  }

  lemma OwnAct(U: int, s: State, t: nat, a: Step)
    requires Next(U, s, t, a).Some? && !a.Advance?
    ensures var s' := Next(U, s, t, a).value;
      t in s'.threads && (Passing(s'.threads[t].pc) ==>
        a.Signal? && s.threads[t].pc.Wait? && s'.threads[t].pc.FinishWait? && s'.threads[t].flags == s.threads[t].flags)
  {
  }

  lemma OwnEarly(U: int, s: State, t: nat)
    requires Next(U, s, t, Advance).Some? && Early(s.threads[t].pc) && ThreadOk(U, s.threads[t])
    ensures var s' := Next(U, s, t, Advance).value;
      && t in s'.threads
      && (s'.threads[t].flags.woken <==>
            if s.threads[t].pc.Prepare? then false else s.threads[t].flags.woken || (s.threads[t].pc.Enqueue? && s.lock.None? && !s.bit))
      && (s'.threads[t].pc.FinishWait? ==> s'.threads[t].flags.woken) && !s'.threads[t].pc.Return?
  {
  }

  lemma OwnLate(U: int, s: State, t: nat)
    requires Next(U, s, t, Advance).Some? && Late(s.threads[t].pc) && ThreadOk(U, s.threads[t])
    ensures var s' := Next(U, s, t, Advance).value;
      t in s'.threads && (Passing(s'.threads[t].pc) ==>
        && s'.threads[t].flags.woken == s.threads[t].flags.woken
        && (s'.threads[t].pc.FinishWait? ==> s.threads[t].pc.TryBit? && s.threads[t].flags.woken)
        && (s'.threads[t].pc.Return? ==> s.threads[t].pc.FinishWait?))
  {
  }

  lemma OwnWalk(U: int, s: State, t: nat)
    requires Next(U, s, t, Advance).Some? && (s.threads[t].pc.WakeLock? || Walking(s.threads[t].pc))
    ensures t in Next(U, s, t, Advance).value.threads && !Passing(Next(U, s, t, Advance).value.threads[t].pc)
  {
    if s.threads[t].pc.WakeLock? || s.threads[t].pc.WalkTest? { LookKeepsBit(U, s, t); }
  }

  /** What a thread's own step does to its woken flag, and how it gets past the wait loop. */
  ghost predicate OwnStepOk(s: State, s': State, t: nat, a: Step)
    requires t in s.threads && t in s'.threads
  {
    Passing(s'.threads[t].pc) ==>
      && (s'.threads[t].flags.woken <==> !Begins(s, t, a, t) && (s.threads[t].flags.woken || Wakes(s, t, a, t)))
      && (!Begins(s, t, a, t) ==> Passing(s.threads[t].pc))
      && (s'.threads[t].pc.FinishWait? || s'.threads[t].pc.Return? ==>
            !Begins(s, t, a, t) && (s.threads[t].pc.FinishWait? || a.Signal? || s'.threads[t].flags.woken))
  }

  lemma OwnStep(U: int, s: State, t: nat, a: Step)
    requires Next(U, s, t, a).Some? && ThreadOk(U, s.threads[t])
    ensures t in Next(U, s, t, a).value.threads && OwnStepOk(s, Next(U, s, t, a).value, t, a)
  {
    if !a.Advance? { OwnAct(U, s, t, a); }
    else if Early(s.threads[t].pc) { OwnEarly(U, s, t); }
    else if Late(s.threads[t].pc) { OwnLate(U, s, t); }
    else { OwnWalk(U, s, t); }
  }

  /** Another thread's step changes only the flags of t, and sets woken exactly when it wakes t. */
  lemma OtherStep(U: int, s: State, u: nat, a: Step, t: nat)
    requires Inv(U, s) && Next(U, s, u, a).Some? && u != t && t in s.threads
    ensures var s' := Next(U, s, u, a).value;
      && t in s'.threads && s'.threads[t].pc == s.threads[t].pc && s'.threads[t].exclusive == s.threads[t].exclusive
      && (s'.threads[t].flags.woken <==> s.threads[t].flags.woken || Wakes(s, u, a, t))
  {
    if Marks(s, u, a) {
      MarkForm(U, s, u);
      assert WalkerOk(s, u);
    } else {
      OnlyActor(U, s, u, a);
    }
  }

  /** The last step of a run, and what it adds to the record. */
  lemma LastStep(U: int, ids: set<nat>, acts: seq<(nat, Step)>, t: nat)
    requires acts != [] && Run(U, ids, acts).Some?
    ensures var before, u, a := acts[..|acts| - 1], acts[|acts| - 1].0, acts[|acts| - 1].1;
      && Run(U, ids, before).Some? && Inv(U, Run(U, ids, before).value)
      && var s := Run(U, ids, before).value;
      && Next(U, s, u, a) == Run(U, ids, acts)
      && (WasWoken(U, ids, acts, t) <==> !Begins(s, u, a, t) && (WasWoken(U, ids, before, t) || Wakes(s, u, a, t)))
      && (WasSignalled(U, ids, acts, t) <==> !Begins(s, u, a, t) && (WasSignalled(U, ids, before, t) || (u == t && a.Signal?)))
  {
    RunKeepsInv(U, ids, acts[..|acts| - 1]);
  }

  /** In every run the flag of a waiter in the middle of a pass says whether it was woken in it. */
  lemma {:induction false} FlagTellsWake(U: int, ids: set<nat>, acts: seq<(nat, Step)>, t: nat)
    requires Run(U, ids, acts).Some?
    requires t in Run(U, ids, acts).value.threads && Passing(Run(U, ids, acts).value.threads[t].pc)
    ensures Run(U, ids, acts).value.threads[t].flags.woken <==> WasWoken(U, ids, acts, t)
    decreases |acts|
  {
    if acts != [] {
      LastStep(U, ids, acts, t);
      var before, u, a := acts[..|acts| - 1], acts[|acts| - 1].0, acts[|acts| - 1].1;
      var s := Run(U, ids, before).value;
      if u == t { OwnStep(U, s, t, a); } else { StillThere(U, s, u, a, t); OtherStep(U, s, u, a, t); }
      if !Begins(s, u, a, t) { FlagTellsWake(U, ids, before, t); }
    }
  }

  lemma StillThere(U: int, s: State, u: nat, a: Step, t: nat)
    requires Inv(U, s) && Next(U, s, u, a).Some? && t in Next(U, s, u, a).value.threads
    ensures t in s.threads
  {
    if Marks(s, u, a) { MarkForm(U, s, u); } else { OnlyActor(U, s, u, a); }
  }

  /** A thread that is past the wait loop and was not woken has left it on a signal. */
  lemma {:induction false} UnwokenWasSignalled(U: int, ids: set<nat>, acts: seq<(nat, Step)>, t: nat)
    requires Run(U, ids, acts).Some? && t in Run(U, ids, acts).value.threads
    requires var pc := Run(U, ids, acts).value.threads[t].pc; pc.FinishWait? || pc.Return?
    ensures WasWoken(U, ids, acts, t) || WasSignalled(U, ids, acts, t)
    decreases |acts|
  {
    FlagTellsWake(U, ids, acts, t);
    if acts != [] {
      LastStep(U, ids, acts, t);
      var before, u, a := acts[..|acts| - 1], acts[|acts| - 1].0, acts[|acts| - 1].1;
      var s := Run(U, ids, before).value;
      if u == t { OwnStep(U, s, t, a); } else { StillThere(U, s, u, a, t); OtherStep(U, s, u, a, t); }
      if s.threads[t].pc.FinishWait? || u != t { UnwokenWasSignalled(U, ids, before, t); }
    }
  }

  /**
   A thread that tries the bit and finds it set is queued, last, and sleeps; one that finds it clear
   is woken on the spot, and an exclusive one owns the lock. Either way the waiters flag is set.
   */
  lemma EnqueueWaitsIff(U: int, ids: set<nat>, acts: seq<(nat, Step)>, t: nat)
    requires Run(U, ids, acts).Some?
    requires var s := Run(U, ids, acts).value; t in s.threads && s.threads[t].pc.Enqueue?
    ensures var s := Run(U, ids, acts).value;
      && (Next(U, s, t, Advance).Some? <==> s.lock.None?)
      && (s.lock.None? ==>
          var s' := Next(U, s, t, Advance).value;
          && s'.threads[t].pc.Wait? && s'.waiters && (s'.threads[t].flags.woken <==> !s.bit)
          && s'.queue == (if s.bit then s.queue + [t] else s.queue)
          && (s'.bit <==> s.bit || s.threads[t].exclusive)
          && (s.bit ==> Next(U, s', t, Advance).None?))
  {
    RunKeepsInv(U, ids, acts);
    assert ThreadOk(U, Run(U, ids, acts).value.threads[t]);
  }

  /**
   A shared wait returns 0 iff somebody woke it: its own look at the clear bit or a walk that met it in
   the queue. It returns -EINTR iff nobody did, and then it has left on a signal. The lock is not touched.
   */
  lemma SharedWaitReturns(U: int, ids: set<nat>, acts: seq<(nat, Step)>, t: nat)
    requires Run(U, ids, acts).Some?
    requires var s := Run(U, ids, acts).value; t in s.threads && s.threads[t].pc.Return? && !s.threads[t].exclusive
    ensures var s := Run(U, ids, acts).value;
      && Next(U, s, t, Advance).Some?
      && var s' := Next(U, s, t, Advance).value;
      && s'.threads[t].pc.Out? && s'.bit == s.bit && s'.owner == s.owner
      && (s'.threads[t].zero <==> WasWoken(U, ids, acts, t))
      && (!s'.threads[t].zero ==> WasSignalled(U, ids, acts, t))
  {
    FlagTellsWake(U, ids, acts, t);
    UnwokenWasSignalled(U, ids, acts, t);
  }

  /** A sleeper that nobody woke goes on only by a signal. */
  lemma SleepsUntilWoken(U: int, ids: set<nat>, acts: seq<(nat, Step)>, t: nat, a: Step)
    requires Run(U, ids, acts).Some?
    requires var s := Run(U, ids, acts).value; t in s.threads && s.threads[t].pc.Wait? && !WasWoken(U, ids, acts, t)
    ensures Next(U, Run(U, ids, acts).value, t, a).Some? <==> a.Signal?
  {
    FlagTellsWake(U, ids, acts, t);
  }
}
