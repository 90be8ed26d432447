/** What the host learns from the log of one whole iteration: errors undone, pages scanned, items pruned. */
module KsmHost {
  import opened Wrappers
  import opened KsmTypes
  import opened KsmSpec
  import opened KsmInvariant
  import opened KsmIterations
  import opened KsmReplay
  import opened KsmPrune

  /** The pages that a host error says are not on their shared frame. */
  function Failed(w: World, e: HostError): set<Key> {
    match e
    case MergeOneFailed(k, _) => {k}
    case MergeTwoFailed(k) =>
      if k in w.items && w.items[k].home.Some? && w.items[k].home.value in w.nodes
      then w.nodes[w.items[k].home.value].members else {}
  }

  function FailedAll(w: World, es: seq<HostError>): set<Key>
    decreases |es|
  {
    if es == [] || Undo(w, es[0]).Stopped? then {}
    else Failed(w, es[0]) + FailedAll(Undo(w, es[0]).world, es[1..])
  }

  /** Nodes may go, and those that stay keep their frame. */
  ghost predicate NodesShrink(w: World, w': World) {
    forall j :: j in w'.nodes ==> j in w.nodes && w'.nodes[j].pfn == w.nodes[j].pfn
  }

  lemma MapLoses(w: World, w': World, ms: set<Key>)
    requires HomesLive(w) && HomesLive(w') && NodesShrink(w, w') && w'.items.Keys == w.items.Keys
    requires forall k :: k in w.items && k in ms ==> !w'.items[k].state.Stable?
    requires forall k :: k in w.items && k !in ms ==> w'.items[k] == w.items[k]
    ensures StableMap(w') == StableMap(w) - ms
  {
    assert StableMap(w').Keys == StableMap(w).Keys - ms;
  }

  // ---------------------------------------------------------------- errors

  /** An undo logs at most that a page of the failed merge was the last to leave its node. */
  ghost predicate UndoLogs(w: World, w': World, e: HostError) {
    w'.log == w.log || (e.MergeOneFailed? && exists pfn :: w'.log == w.log + [StaleStableNode(e.from, pfn)])
  }

  lemma UndoOneNodes(w: World, k: Key, kpfn: nat)
    requires UndoOne(w, k, kpfn).Running?
    ensures NodesShrink(w, UndoOne(w, k, kpfn).world) && UndoLogs(w, UndoOne(w, k, kpfn).world, MergeOneFailed(k, kpfn))
  {
    var id := w.items[k].home.value;
    var w1 := RemoveItem(w, id, k).world;
    var w2 := SetItem(w1, k, Agitate(ResetValue(w1.items[k])));
    if w2.nodes[id].sharedCnt == 0 {
      assert UndoOne(w, k, kpfn).world.log == w.log + [StaleStableNode(k, w2.nodes[id].pfn)];
    }
  }

  lemma UndoTwoNodes(w: World, k: Key)
    requires UndoTwo(w, k).Running?
    ensures NodesShrink(w, UndoTwo(w, k).world) && UndoTwo(w, k).world.log == w.log
  {
  }

  lemma UndoLoses(w: World, e: HostError)
    requires Inv(w) && LegalError(w, e)
    ensures Undo(w, e).Running? && UndoLogs(w, Undo(w, e).world, e)
    ensures StableMap(Undo(w, e).world) == StableMap(w) - Failed(w, e)
    ensures e.MergeOneFailed? ==> Failed(w, e) == {e.from}
  {
    UndoKeepsInv(w, e);
    InvSane(w);
    InvSane(Undo(w, e).world);
    if e.MergeOneFailed? {
      UndoOneKeepsInv(w, e.from, e.kpfn);
      UndoOneNodes(w, e.from, e.kpfn);
    } else {
      UndoTwoKeepsInv(w, e.from);
      UndoTwoNodes(w, e.from);
    }
    MapLoses(w, Undo(w, e).world, Failed(w, e));
  }

  /** The log leads from what the host has, without the failed merges and some more pages, to the map without those pages. */
  ghost predicate Tells(have: map<Key, nat>, w: World, w': World, shadow: map<Key, nat>, missing: set<Key>) {
    w.log <= w'.log && Replay(have, w'.log[|w.log|..], shadow) == StableMap(w') - missing
  }

  lemma NoneMissing(m: map<Key, nat>)
    ensures m - {} == m
  {
  }

  lemma Suffixes(a: seq<LogEntry>, b: seq<LogEntry>, c: seq<LogEntry>)
    requires a <= b <= c
    ensures a <= c && c[|a|..] == b[|a|..] + c[|b|..]
  {
  }

  lemma Removed(m: map<Key, nat>, m': map<Key, nat>, f: set<Key>, x: set<Key>)
    requires m' == m - f
    ensures m - (f + x) == m' - x
  {
  }

  lemma RemovedTwice(m: map<Key, nat>, f: set<Key>, k: Key)
    requires k in f
    ensures (m - f) - {k} == m - f
  {
  }

  lemma UndoTells(w: World, e: HostError, missing: set<Key>, shadow: map<Key, nat>)
    requires Inv(w) && LegalError(w, e)
    ensures Undo(w, e).Running? && Tells(StableMap(w) - (Failed(w, e) + missing), w, Undo(w, e).world, shadow, missing)
  {
    UndoLoses(w, e);
    var w', have := Undo(w, e).world, StableMap(w) - (Failed(w, e) + missing);
    Removed(StableMap(w), StableMap(w'), Failed(w, e), missing);
    if w'.log != w.log {
      var pfn :| w'.log == w.log + [StaleStableNode(e.from, pfn)];
      RemovedTwice(StableMap(w), Failed(w, e) + missing, e.from);
      TellsStale(have, w, w', e.from, pfn, shadow, missing);
    } else {
      TellsNothing(have, w, w', shadow, missing);
    }
  }

  lemma TellsNothing(have: map<Key, nat>, w: World, w': World, shadow: map<Key, nat>, missing: set<Key>)
    requires w'.log == w.log && have == StableMap(w') - missing
    ensures Tells(have, w, w', shadow, missing)
  {
    assert w'.log[|w.log|..] == [];
  }

  lemma TellsStale(have: map<Key, nat>, w: World, w': World, k: Key, pfn: nat, shadow: map<Key, nat>, missing: set<Key>)
    requires w'.log == w.log + [StaleStableNode(k, pfn)] && have - {k} == StableMap(w') - missing
    ensures Tells(have, w, w', shadow, missing)
  {
    assert w'.log[|w.log|..] == [StaleStableNode(k, pfn)];
    ReplaySingle(have, StaleStableNode(k, pfn), shadow);
  }

  /** The host, which lacks the pages of all failed merges, has the right map after the undo entries. */
  lemma {:induction false} UndoAllTells(w: World, es: seq<HostError>, shadow: map<Key, nat>)
    requires Inv(w) && LegalErrors(w, es)
    ensures UndoAll(w, es).Running?
    ensures Tells(StableMap(w) - FailedAll(w, es), w, UndoAll(w, es).world, shadow, {})
    decreases |es|
  {
    if es == [] {
      assert w.log[|w.log|..] == [];
      NoneMissing(StableMap(w));
    } else {
      UndoKeepsInv(w, es[0]);
      var w1 := Undo(w, es[0]).world;
      var rest := FailedAll(w1, es[1..]);
      UndoTells(w, es[0], rest, shadow);
      UndoAllTells(w1, es[1..], shadow);
      TellsTrans(StableMap(w) - FailedAll(w, es), w, w1, UndoAll(w1, es[1..]).world, shadow, rest);
    }
  }

  lemma TellsTrans(have: map<Key, nat>, a: World, b: World, c: World, shadow: map<Key, nat>, missing: set<Key>)
    requires Tells(have, a, b, shadow, missing) && Tells(StableMap(b) - missing, b, c, shadow, {})
    ensures Tells(have, a, c, shadow, {})
  {
    Suffixes(a.log, b.log, c.log);
    ReplayAppend(have, b.log[|a.log|..], c.log[|b.log|..], shadow);
  }

  // ---------------------------------------------------------------- a whole iteration

  /** The state of an iteration before its log is handed over and cleared. */
  ghost function BeforeNext(w: World, it: Iteration, mode: Mode): Outcome {
    var w1 :- UndoAll(w, it.errors);
    var w2 :- ScanAll(w1, it.pages, mode);
    PruneMetadata(w2, it.order)
  }

  /** The state of an iteration before the clean-up and the prune. */
  ghost function BeforePrune(w: World, it: Iteration, mode: Mode): Outcome {
    var w1 :- UndoAll(w, it.errors);
    ScanAll(w1, it.pages, mode)
  }

  lemma ExplainsTells(w: World, w': World, shadow: map<Key, nat>)
    requires Explains(w, w', shadow)
    ensures Tells(StableMap(w) - {}, w, w', shadow, {})
  {
    NoneMissing(StableMap(w));
    NoneMissing(StableMap(w'));
  }

  /** After the errors the scan goes on from the right map. */
  lemma ScanTells(w: World, it: Iteration, mode: Mode, shadow: map<Key, nat>)
    requires Resting(w) && LegalIteration(w, it, mode) && Shadows(shadow, it.pages)
    ensures BeforePrune(w, it, mode).Running?
    ensures Tells(StableMap(w) - FailedAll(w, it.errors), w, BeforePrune(w, it, mode).world, shadow, {})
  {
    UndoAllTells(w, it.errors, shadow);
    UndoAllKeepsInv(w, it.errors);
    var w1 := UndoAll(w, it.errors).world;
    assert AllUnscanned(w1, it.pages);
    ScanAllReplays(w1, it.pages, mode, shadow);
    var w2 := ScanAll(w1, it.pages, mode).world;
    ExplainsTells(w1, w2, shadow);
    TellsTrans(StableMap(w) - FailedAll(w, it.errors), w, w1, w2, shadow, {});
  }

  lemma CleanUpMap(w: World)
    requires Inv(w)
    ensures StableMap(CleanUpUnstable(w)) == StableMap(w)
  {
    CleanUpKeepsInv(w);
    SameMap(w, CleanUpUnstable(w));
  }

  /** From a map that is right, the rest of the log leads to a right map iff it explains its part. */
  lemma TellsIffExplains(have: map<Key, nat>, a: World, b: World, c: World, shadow: map<Key, nat>)
    requires Tells(have, a, b, shadow, {}) && b.log <= c.log
    ensures Tells(have, a, c, shadow, {}) <==> Explains(b, c, shadow)
  {
    Suffixes(a.log, b.log, c.log);
    ReplayAppend(have, b.log[|a.log|..], c.log[|b.log|..], shadow);
    NoneMissing(StableMap(b));
    NoneMissing(StableMap(c));
  }

  /**
   A whole iteration: replaying its log on what the host has, which is the old map without the
   failed merges, gives the new map if and only if no prune is due or every pruned Stable page is
   alone on its node.
   */
  lemma IterationTellsIff(w: World, it: Iteration, mode: Mode, shadow: map<Key, nat>)
    requires Resting(w) && LegalIteration(w, it, mode) && Shadows(shadow, it.pages)
    ensures BeforePrune(w, it, mode).Running? && BeforeNext(w, it, mode).Running?
    ensures Iterate(w, it, mode) == Running(NextIteration(BeforeNext(w, it, mode).world))
    ensures var w2 := CleanUpUnstable(BeforePrune(w, it, mode).world);
      Tells(StableMap(w) - FailedAll(w, it.errors), w, BeforeNext(w, it, mode).world, shadow, {})
      <==> (PruneDue(w2) ==> StalePagesAlone(w2, Keys(it.order)))
  {
    ScanTells(w, it, mode, shadow);
    IterateKeepsResting(w, it, mode);
    var have := StableMap(w) - FailedAll(w, it.errors);
    var w1 := BeforePrune(w, it, mode).world;
    BeforePruneIsGood(w, it, mode);
    CleanUpMap(w1);
    var w2 := CleanUpUnstable(w1);
    assert Tells(have, w, w2, shadow, {});
    if PruneDue(w2) { PruneTellsIff(have, w, w1, it.order, shadow); }
  }

  lemma BeforePruneIsGood(w: World, it: Iteration, mode: Mode)
    requires Resting(w) && LegalIteration(w, it, mode)
    ensures BeforePrune(w, it, mode).Running?
    ensures Inv(BeforePrune(w, it, mode).world) && Enumerates(it.order, StaleKeys(BeforePrune(w, it, mode).world))
  {
    UndoAllKeepsInv(w, it.errors);
    var w1 := UndoAll(w, it.errors).world;
    assert ScannedNow(w1) == {};
    ScanAllKeepsInv(w1, it.pages, mode);
  }

  lemma PruneTellsIff(have: map<Key, nat>, w: World, w1: World, order: seq<Key>, shadow: map<Key, nat>)
    requires Inv(w1) && Enumerates(order, StaleKeys(w1)) && PruneDue(CleanUpUnstable(w1))
    requires Tells(have, w, CleanUpUnstable(w1), shadow, {})
    ensures PruneMetadata(w1, order).Running?
    ensures Tells(have, w, PruneMetadata(w1, order).world, shadow, {}) <==> StalePagesAlone(CleanUpUnstable(w1), Keys(order))
  {
    PruneMetadataKeepsInv(w1, order);
    var w2 := CleanUpUnstable(w1);
    CleanUpKeepsInv(w1);
    assert StaleKeys(w2) == StaleKeys(w1);
    EnumeratedArePrunable(w2, order);
    var es, ids := PruneAllThins(w2, order);
    PruneExplainedIff(w2, order, shadow);
    TellsIffExplains(have, w, w2, PruneAll(w2, order).world, shadow);
  }
}
