/** Host errors, the end of an iteration, and whole runs of the engine. */
module KsmIterations {
  import opened Wrappers
  import opened KsmTypes
  import opened KsmSpec
  import opened KsmInvariant

  // ---------------------------------------------------------------- host errors

  /** The record names a live merge. */
  ghost predicate LegalError(w: World, e: HostError) {
    && e.from in w.items && w.items[e.from].state.Stable?
    && (e.MergeOneFailed? ==>
        w.items[e.from].home.Some? && w.items[e.from].home.value in w.nodes
        && w.nodes[w.items[e.from].home.value].pfn == e.kpfn)
  }

  lemma UndoOneKeepsInv(w: World, k: Key, kpfn: nat)
    requires Inv(w) && LegalError(w, MergeOneFailed(k, kpfn))
    ensures UndoOne(w, k, kpfn).Running? && Inv(UndoOne(w, k, kpfn).world)
    ensures UndoOne(w, k, kpfn).world.items == w.items[k := Agitate(ResetValue(w.items[k]))]
  {
    assert ItemOk(w, k);
    var id := w.items[k].home.value;
    assert NodeOk(w, id);
    LeaveKeepsInv(w, k, Agitate(ResetValue(w.items[k])), []);
    var w2 := SetItem(RemoveItem(w, id, k).world, k, Agitate(ResetValue(w.items[k])));
    assert w2.log + [] == w2.log;
  }

  function ResetAll(items: map<Key, Item>, ms: set<Key>): map<Key, Item> {
    map m | m in items :: if m in ms then Agitate(ResetValue(items[m])) else items[m]
  }

  lemma UndoTwoDeserts(w: World, id: nat)
    requires Inv(w) && id in w.nodes
    ensures DesertedInv(w.(items := ResetAll(w.items, w.nodes[id].members)), id)
  {
    var ms := w.nodes[id].members;
    var w' := w.(items := ResetAll(w.items, ms));
    assert NodeOk(w, id);
    forall k | k in w'.items ensures ItemOk(w', k) {
      assert ItemOk(w, k);
      assert k in ms ==> MemberOk(w, id, k);
    }
    forall j | j in w'.nodes && j != id ensures NodeOk(w', j) {
      assert NodeOk(w, j);
      forall m | m in w.nodes[j].members ensures MemberOk(w', j, m) {
        assert MemberOk(w, j, m);
        assert m in ms ==> MemberOk(w, id, m);
      }
    }
    forall g | g in w'.chains ensures ChainOk(w', g) { assert ChainOk(w, g); }
    forall g | g in w'.unstable ensures UnstableOk(w', g) {
      assert UnstableOk(w, g);
      assert w.unstable[g] in ms ==> MemberOk(w, id, w.unstable[g]);
    }
  }

  lemma UndoTwoKeepsInv(w: World, k: Key)
    requires Inv(w) && LegalError(w, MergeTwoFailed(k))
    ensures UndoTwo(w, k).Running? && Inv(UndoTwo(w, k).world)
    ensures w.items[k].home.Some? && w.items[k].home.value in w.nodes
    ensures UndoTwo(w, k).world.items == ResetAll(w.items, w.nodes[w.items[k].home.value].members)
  {
    assert ItemOk(w, k);
    var id := w.items[k].home.value;
    assert NodeOk(w, id);
    assert forall m :: m in w.nodes[id].members ==> MemberOk(w, id, m);
    UndoTwoDeserts(w, id);
    RemoveNodeRestoresInv(w.(items := ResetAll(w.items, w.nodes[id].members)), id);
  }

  /** Undoing a live merge reaches no fatal stop and keeps the invariant. */
  lemma UndoKeepsInv(w: World, e: HostError)
    requires Inv(w) && LegalError(w, e)
    ensures Undo(w, e).Running? && Inv(Undo(w, e).world)
    ensures SameStamps(w, Undo(w, e).world) && Undo(w, e).world.unstable == w.unstable
  {
    if e.MergeOneFailed? {
      UndoOneKeepsInv(w, e.from, e.kpfn);
      UndoOneStamps(w, e.from, e.kpfn);
    } else {
      UndoTwoKeepsInv(w, e.from);
      UndoTwoStamps(w, e.from);
    }
  }

  lemma UndoOneStamps(w: World, k: Key, kpfn: nat)
    requires UndoOne(w, k, kpfn).Running? && k in w.items
    requires UndoOne(w, k, kpfn).world.items == w.items[k := Agitate(ResetValue(w.items[k]))]
    ensures SameStamps(w, UndoOne(w, k, kpfn).world) && UndoOne(w, k, kpfn).world.unstable == w.unstable
  {
  }

  lemma UndoTwoStamps(w: World, k: Key)
    requires UndoTwo(w, k).Running?
    ensures SameStamps(w, UndoTwo(w, k).world) && UndoTwo(w, k).world.unstable == w.unstable
  {
  }

  /** Neither the set of items nor any time stamp has changed. */
  ghost predicate SameStamps(w: World, w': World) {
    && w'.iteration == w.iteration && w'.accessed == w.accessed
    && w'.items.Keys == w.items.Keys
    && forall k :: k in w.items ==> w'.items[k].lastAccess == w.items[k].lastAccess
  }

  // ---------------------------------------------------------------- the stamps of a scan

  lemma PairStamps(w: World, k: Key, h: HashPair)
    requires Sane(w) && k in w.items && w.items[k].state.Volatile? && h in w.unstable
    ensures MergeWithUnstable(w, k, h).Running? && SameStamps(w, MergeWithUnstable(w, k, h).world)
  {
    MergeWithUnstableForm(w, k, h);
    var w' := MergeWithUnstable(w, k, h).world;
    assert w'.items.Keys == w.items.Keys;
  }

  lemma MatchStamps(w: World, k: Key, h: HashPair)
    requires Sane(w) && k in w.items && w.items[k].state.Volatile?
    ensures Match(w, k, h).Running? && SameStamps(w, Match(w, k, h).world)
  {
    match CmpWithStable(w, h)
    case Some(id) => MergeIntoStableForm(w, k, id);
    case None => if h in w.unstable { PairStamps(w, k, h); }
  }

  lemma TouchSane(w: World, k: Key, it: Item)
    requires Sane(w) && k in w.items && w.items[k].state.Volatile? && it.state.Volatile?
    ensures Sane(SetItem(w, k, it))
  {
    var w' := SetItem(w, k, it);
    forall h | h in w'.unstable ensures PartnerOk(w', h) { assert PartnerOk(w, h); }
  }

  lemma MergeVolatileStamps(w: World, k: Key, h: HashPair, smart: bool)
    requires Sane(w) && k in w.items && w.items[k].state.Volatile?
    ensures MergeVolatile(w, k, h, smart).Running? && SameStamps(w, MergeVolatile(w, k, h, smart).world)
  {
    var it := Aged(w.items[k], smart);
    if it.oldHash == h {
      TouchSane(w, k, Calm(it));
      MatchStamps(SetItem(w, k, Calm(it)), k, h);
    }
  }

  lemma SplitStamps(w: World, k: Key, id: nat, h: HashPair, smart: bool)
    requires Inv(w) && k in w.items && w.items[k].state.Stable? && w.items[k].home == Some(id)
    requires w.items[k].lastAccess == w.iteration && h != NULL_HASH
    ensures Split(w, k, id).Running?
    ensures var o := MergeVolatile(Split(w, k, id).world, k, h, smart); o.Running? && SameStamps(w, o.world)
  {
    SplitKeepsInv(w, k, id);
    var w1 := Split(w, k, id).world;
    assert SameStamps(w, w1) by { SplitIsLeave(w, k, id); LeaveKeepsCounter(w, k, id); }
    InvSane(w1);
    MergeVolatileStamps(w1, k, h, smart);
  }

  lemma LeaveKeepsCounter(w: World, k: Key, id: nat)
    requires id in w.nodes
    ensures Split(w, k, id).Running? ==> Split(w, k, id).world.accessed == w.accessed
  {
  }

  lemma MergeOneStamps(w: World, k: Key, h: HashPair, smart: bool)
    requires Inv(w) && k in w.items && !w.items[k].state.Unstable? && w.items[k].lastAccess == w.iteration
    requires h != NULL_HASH
    ensures MergeOne(w, k, h, smart).Running? && SameStamps(w, MergeOne(w, k, h, smart).world)
  {
    assert ItemOk(w, k);
    var it := w.items[k];
    if it.state.Volatile? {
      InvSane(w);
      MergeVolatileStamps(w, k, h, smart);
    } else {
      var id := it.home.value;
      assert NodeOk(w, id);
      if w.nodes[id].pfn != it.pfn {
        SplitStamps(w, k, id, h, smart);
      } else if h != it.oldHash {
        RekeyParts(w, w.nodes[id].hash, h);
      }
    }
  }

  lemma MergeVolatileOldStamps(w: World, k: Key, h: HashPair)
    requires Inv(w) && k in w.items && w.items[k].state.Volatile?
    ensures MergeVolatileOld(w, k, h).Running? && SameStamps(w, MergeVolatileOld(w, k, h).world)
  {
    InvSane(w);
    match CmpWithStable(w, h)
    case Some(id) => MergeIntoStableForm(w, k, id);
    case None => if w.items[k].oldHash == h && h in w.unstable { PairStamps(w, k, h); }
  }

  lemma MergeOneOldStamps(w: World, k: Key, h: HashPair)
    requires Inv(w) && k in w.items && !w.items[k].state.Unstable?
    ensures MergeOneOld(w, k, h).Running? && SameStamps(w, MergeOneOld(w, k, h).world)
  {
    assert ItemOk(w, k);
    var it := w.items[k];
    if it.state.Volatile? {
      MergeVolatileOldStamps(w, k, h);
    } else {
      var id := it.home.value;
      assert NodeOk(w, id);
      if w.nodes[id].pfn != it.pfn {
        SplitOldStamps(w, k, id, h);
      } else if h != it.oldHash {
        RekeyParts(w, w.nodes[id].hash, h);
      }
    }
  }

  lemma SplitOldStamps(w: World, k: Key, id: nat, h: HashPair)
    requires Inv(w) && k in w.items && w.items[k].state.Stable? && w.items[k].home == Some(id)
    ensures SplitOld(w, k, id).Running?
    ensures var o := MergeVolatileOld(SplitOld(w, k, id).world, k, h); o.Running? && SameStamps(w, o.world)
  {
    SplitOldKeepsInv(w, k, id);
    SplitIsLeave(w, k, id);
    LeaveKeepsCounter(w, k, id);
    MergeVolatileOldStamps(SplitOld(w, k, id).world, k, h);
  }

  /** A scan stamps its page's item and no other. */
  lemma ScanStamps(w: World, p: Page, mode: Mode)
    requires Inv(w) && LegalPage(w, p)
    ensures Scan(w, p, mode).Running?
    ensures SameStamps(Lookup(w, p), Scan(w, p, mode).world)
  {
    if p.key in w.items { assert ItemOk(w, p.key); }
    LookupKeepsInv(w, p);
    if mode.Old? {
      MergeOneOldStamps(Lookup(w, p), p.key, p.hash);
    } else {
      MergeOneStamps(Lookup(w, p), p.key, p.hash, mode.Smart?);
    }
  }

  // ---------------------------------------------------------------- the access counter

  function ScannedNow(w: World): set<Key> {
    set k | k in w.items && w.items[k].lastAccess == w.iteration
  }

  /** The counter of accessed items is the number of items stamped in this iteration. */
  ghost predicate AccessedOk(w: World) {
    w.accessed == |ScannedNow(w)|
  }

  lemma SubsetSize<T>(a: set<T>, b: set<T>)
    requires a <= b
    ensures |a| <= |b|
  {
    assert b == a + (b - a);
  }

  lemma ScanCounts(w: World, p: Page, mode: Mode)
    requires Inv(w) && LegalPage(w, p) && AccessedOk(w)
    ensures Scan(w, p, mode).Running? && AccessedOk(Scan(w, p, mode).world)
  {
    ScanStamps(w, p, mode);
    assert ScannedNow(Lookup(w, p)) == ScannedNow(w) + {p.key};
    assert ScannedNow(Scan(w, p, mode).world) == ScannedNow(Lookup(w, p));
  }

  /**
   The unsigned subtraction that guards the prune never wraps: it is the number of items
   that were not scanned in this iteration.
   */
  lemma PruneGuardNeverWraps(w: World)
    requires AccessedOk(w) && |w.items| < WORD_RANGE
    ensures UnsignedSub(|w.items|, w.accessed) == |w.items.Keys - ScannedNow(w)|
  {
    SubsetSize(ScannedNow(w), w.items.Keys);
    assert w.items.Keys == ScannedNow(w) + (w.items.Keys - ScannedNow(w));
    assert |w.items| == |w.items.Keys|;
  }

  // ---------------------------------------------------------------- cleaning the unstable table

  function Settled(it: Item): Item {
    if it.state.Unstable? then it.(state := Volatile) else it
  }

  lemma CleanUpSettles(w: World)
    requires Inv(w)
    ensures CleanUpUnstable(w).items.Keys == w.items.Keys
    ensures forall k :: k in w.items ==> CleanUpUnstable(w).items[k] == Settled(w.items[k])
  {
    var w' := CleanUpUnstable(w);
    forall k | k in w.items
      ensures w'.items[k] == Settled(w.items[k])
    {
      assert ItemOk(w, k);
      if k in w.unstable.Values {
        var h :| h in w.unstable && w.unstable[h] == k;
        assert UnstableOk(w, h);
      }
    }
  }

  lemma CleanUpKeepsInv(w: World)
    requires Inv(w)
    ensures Inv(CleanUpUnstable(w)) && SameStamps(w, CleanUpUnstable(w))
    ensures forall k :: k in w.items ==> CleanUpUnstable(w).items[k] == Settled(w.items[k])
    ensures forall k :: k in CleanUpUnstable(w).items ==> !CleanUpUnstable(w).items[k].state.Unstable?
  {
    var w' := CleanUpUnstable(w);
    CleanUpSettles(w);
    forall k | k in w'.items ensures ItemOk(w', k) { assert ItemOk(w, k); }
    forall j | j in w'.nodes ensures NodeOk(w', j) {
      assert NodeOk(w, j);
      forall m | m in w.nodes[j].members ensures MemberOk(w', j, m) { assert MemberOk(w, j, m); }
    }
    forall g | g in w'.chains ensures ChainOk(w', g) { assert ChainOk(w, g); }
  }

  // ---------------------------------------------------------------- pruning

  function DropItem(w: World, k: Key): World {
    w.(items := w.items - {k})
  }

  lemma DropVolatile(w: World, k: Key)
    requires Inv(w) && k in w.items && w.items[k].state.Volatile?
    ensures Inv(DropItem(w, k))
  {
    var w' := DropItem(w, k);
    forall x | x in w'.items ensures ItemOk(w', x) { assert ItemOk(w, x); }
    forall j | j in w'.nodes ensures NodeOk(w', j) {
      assert NodeOk(w, j);
      forall m | m in w.nodes[j].members ensures MemberOk(w', j, m) { assert MemberOk(w, j, m); }
    }
    forall g | g in w'.chains ensures ChainOk(w', g) { assert ChainOk(w, g); }
    forall g | g in w'.unstable ensures UnstableOk(w', g) { assert UnstableOk(w, g); }
  }

  lemma PruneOneForm(w: World, k: Key)
    requires Inv(w) && k in w.items && !w.items[k].state.Unstable?
    ensures w.items[k].state.Stable? ==> w.items[k].home.Some? && w.items[k].home.value in w.nodes
    ensures PruneOne(w, k) ==
      if w.items[k].state.Stable? then
        Running(DropItem(Leave(w, k, w.items[k].home.value, ResetValue(w.items[k]), []).world, k))
      else Running(DropItem(w, k))
  {
    if w.items[k].state.Stable? {
      var it := ResetValue(w.items[k]);
      LeaveKeepsInv(w, k, it, []);
      var id := w.items[k].home.value;
      var wr := RemoveItem(w, id, k).world;
      var w2 := SetItem(wr, k, it);
      assert w2.log + [] == w2.log;
      if wr.nodes[id].sharedCnt == 0 {
        var a := RemoveStaleAndLog(wr, id, k);
        var b := RemoveStaleAndLog(w2, id, k);
        assert b.Running?;
        assert a.world.items - {k} == b.world.items - {k};
      } else {
        assert wr.items - {k} == w2.items - {k};
      }
    }
  }

  lemma PruneOneKeepsInv(w: World, k: Key)
    requires Inv(w) && k in w.items && !w.items[k].state.Unstable?
    ensures PruneOne(w, k).Running? && Inv(PruneOne(w, k).world)
    ensures PruneOne(w, k).world.items == w.items - {k}
    ensures PruneOne(w, k).world.iteration == w.iteration
  {
    PruneOneForm(w, k);
    if w.items[k].state.Stable? {
      LeaveKeepsInv(w, k, ResetValue(w.items[k]), []);
      var w1 := Leave(w, k, w.items[k].home.value, ResetValue(w.items[k]), []).world;
      DropVolatile(w1, k);
      assert w1.items - {k} == w.items - {k};
    } else {
      DropVolatile(w, k);
    }
  }

  function Keys(order: seq<Key>): set<Key> {
    set k | k in order
  }

  ghost predicate Prunable(w: World, order: seq<Key>) {
    && (forall i, j :: 0 <= i < j < |order| ==> order[i] != order[j])
    && (forall k :: k in order ==> k in w.items && !w.items[k].state.Unstable?)
  }

  lemma PruneRest(w: World, order: seq<Key>)
    requires Inv(w) && Prunable(w, order) && order != []
    ensures PruneOne(w, order[0]).Running? && Prunable(PruneOne(w, order[0]).world, order[1..])
    ensures Keys(order) == {order[0]} + Keys(order[1..])
  {
    PruneOneKeepsInv(w, order[0]);
    assert forall k :: k in order ==> k == order[0] || k in order[1..];
  }

  /** No freed item or node is touched: every pruned item goes, every other item keeps its state. */
  lemma {:induction false} PruneAllKeepsInv(w: World, order: seq<Key>)
    requires Inv(w) && Prunable(w, order)
    ensures PruneAll(w, order).Running? && Inv(PruneAll(w, order).world)
    ensures PruneAll(w, order).world.items == w.items - Keys(order)
    ensures PruneAll(w, order).world.iteration == w.iteration
    decreases |order|
  {
    if order != [] {
      PruneOneKeepsInv(w, order[0]);
      PruneRest(w, order);
      PruneAllKeepsInv(PruneOne(w, order[0]).world, order[1..]);
    }
  }

  ghost predicate Quiet(w: World) {
    forall k :: k in w.items ==> !w.items[k].state.Unstable?
  }

  lemma EnumeratedArePrunable(w: World, order: seq<Key>)
    requires Quiet(w) && Enumerates(order, StaleKeys(w))
    ensures Prunable(w, order) && Keys(order) == StaleKeys(w)
  {
    assert forall k :: k in order ==> k in Keys(order);
  }

  /** When the prune runs, exactly the items not seen in the last two iterations go. */
  lemma PruneRmapKeepsInv(w: World, order: seq<Key>)
    requires Inv(w) && Quiet(w) && Enumerates(order, StaleKeys(w))
    ensures PruneRmap(w, order).Running? && Inv(PruneRmap(w, order).world)
    ensures PruneRmap(w, order).world.items == w.items - StaleKeys(w)
    ensures PruneRmap(w, order).world.iteration == w.iteration
    ensures Quiet(PruneRmap(w, order).world)
  {
    forall k | k in StaleKeys(w) ensures Collectable(w.items[k]) { assert ItemOk(w, k); }
    EnumeratedArePrunable(w, order);
    PruneAllKeepsInv(w, order);
  }

  /** The end of an iteration in a good world reaches no fatal stop. */
  lemma PruneMetadataKeepsInv(w: World, order: seq<Key>)
    requires Inv(w) && Enumerates(order, StaleKeys(w))
    ensures PruneMetadata(w, order).Running?
    ensures var w' := PruneMetadata(w, order).world; Inv(w') && w'.iteration == w.iteration && Quiet(w')
  {
    CleanUpKeepsInv(w);
    var w1 := CleanUpUnstable(w);
    assert StaleKeys(w1) == StaleKeys(w);
    if PruneDue(w1) {
      PruneRmapKeepsInv(w1, order);
    }
  }

  // ---------------------------------------------------------------- whole runs

  /** What the host sends for one iteration, and the order in which the tree is pruned. */
  datatype Iteration = Iteration(errors: seq<HostError>, pages: seq<Page>, order: seq<Key>)

  function UndoAll(w: World, es: seq<HostError>): Outcome
    decreases |es|
  {
    if es == [] then Running(w)
    else
      var w1 :- Undo(w, es[0]);
      UndoAll(w1, es[1..])
  }

  ghost function ScanAll(w: World, ps: seq<Page>, mode: Mode): Outcome
    decreases |ps|
  {
    if ps == [] then Running(w)
    else
      var w1 :- Scan(w, ps[0], mode);
      ScanAll(w1, ps[1..], mode)
  }

  ghost function Iterate(w: World, it: Iteration, mode: Mode): Outcome {
    var w1 :- UndoAll(w, it.errors);
    var w2 :- ScanAll(w1, it.pages, mode);
    var w3 :- PruneMetadata(w2, it.order);
    Running(NextIteration(w3))
  }

  ghost function Run(w: World, its: seq<Iteration>, mode: Mode): Outcome
    decreases |its|
  {
    if its == [] then Running(w)
    else
      var w1 :- Iterate(w, its[0], mode);
      Run(w1, its[1..], mode)
  }

  ghost predicate LegalErrors(w: World, es: seq<HostError>)
    decreases |es|
  {
    es != [] ==>
      && LegalError(w, es[0])
      && (Undo(w, es[0]).Running? ==> LegalErrors(Undo(w, es[0]).world, es[1..]))
  }

  ghost predicate CollisionFree(w: World, ps: seq<Page>, mode: Mode)
    decreases |ps|
  {
    ps != [] ==>
      && NoCollision(w, ps[0])
      && (Scan(w, ps[0], mode).Running? ==> CollisionFree(Scan(w, ps[0], mode).world, ps[1..], mode))
  }

  ghost predicate DistinctPages(ps: seq<Page>) {
    && (forall i, j :: 0 <= i < j < |ps| ==> ps[i].key != ps[j].key)
    && (forall p :: p in ps ==> p.hash != NULL_HASH)
  }

  /** The assumptions on one iteration: live error records, distinct pages, no digest collision. */
  ghost predicate LegalIteration(w: World, it: Iteration, mode: Mode) {
    && LegalErrors(w, it.errors)
    && DistinctPages(it.pages)
    && (UndoAll(w, it.errors).Running? ==>
        var w1 := UndoAll(w, it.errors).world;
        && CollisionFree(w1, it.pages, mode)
        && (ScanAll(w1, it.pages, mode).Running? ==>
            Enumerates(it.order, StaleKeys(ScanAll(w1, it.pages, mode).world))))
  }

  ghost predicate LegalRun(w: World, its: seq<Iteration>, mode: Mode)
    decreases |its|
  {
    its != [] ==>
      && LegalIteration(w, its[0], mode)
      && (Iterate(w, its[0], mode).Running? ==> LegalRun(Iterate(w, its[0], mode).world, its[1..], mode))
  }

  /** The engine between two iterations: nothing is unstable, nothing is scanned yet, and the log is empty. */
  ghost predicate Resting(w: World) {
    && Inv(w) && w.accessed == 0 && w.log == []
    && forall k :: k in w.items ==> w.items[k].lastAccess < w.iteration && !w.items[k].state.Unstable?
  }

  /** The engine starts at rest. */
  lemma EmptyRests()
    ensures Resting(EmptyWorld())
  {
  }

  ghost predicate AllUnscanned(w: World, ps: seq<Page>) {
    forall p :: p in ps ==> Unscanned(w, p.key)
  }

  lemma {:induction false} UndoAllKeepsInv(w: World, es: seq<HostError>)
    requires Inv(w) && LegalErrors(w, es)
    ensures UndoAll(w, es).Running? && Inv(UndoAll(w, es).world) && SameStamps(w, UndoAll(w, es).world)
    decreases |es|
  {
    if es != [] {
      UndoKeepsInv(w, es[0]);
      UndoAllKeepsInv(Undo(w, es[0]).world, es[1..]);
    }
  }

  lemma ScanRest(w: World, ps: seq<Page>, mode: Mode)
    requires Inv(w) && DistinctPages(ps) && AllUnscanned(w, ps) && ps != [] && NoCollision(w, ps[0])
    ensures LegalPage(w, ps[0])
    ensures Scan(w, ps[0], mode).Running?
    ensures AllUnscanned(Scan(w, ps[0], mode).world, ps[1..])
    ensures DistinctPages(ps[1..])
  {
    assert ps[0] in ps;
    ScanStamps(w, ps[0], mode);
    var w' := Scan(w, ps[0], mode).world;
    forall p | p in ps[1..] ensures Unscanned(w', p.key) {
      assert p in ps;
    }
  }

  lemma {:induction false} ScanAllKeepsInv(w: World, ps: seq<Page>, mode: Mode)
    requires Inv(w) && DistinctPages(ps) && AllUnscanned(w, ps) && CollisionFree(w, ps, mode) && AccessedOk(w)
    ensures ScanAll(w, ps, mode).Running? && Inv(ScanAll(w, ps, mode).world)
    ensures AccessedOk(ScanAll(w, ps, mode).world)
    ensures ScanAll(w, ps, mode).world.iteration == w.iteration
    decreases |ps|
  {
    if ps != [] {
      ScanRest(w, ps, mode);
      ScanKeepsInv(w, ps[0], mode);
      ScanCounts(w, ps[0], mode);
      ScanStamps(w, ps[0], mode);
      ScanAllKeepsInv(Scan(w, ps[0], mode).world, ps[1..], mode);
    }
  }

  lemma NextIterationRests(w: World)
    requires Inv(w) && Quiet(w)
    ensures Resting(NextIteration(w))
  {
    var w' := NextIteration(w);
    forall k | k in w'.items ensures ItemOk(w', k) { assert ItemOk(w, k); }
    forall j | j in w'.nodes ensures NodeOk(w', j) {
      assert NodeOk(w, j);
      forall m | m in w.nodes[j].members ensures MemberOk(w', j, m) { assert MemberOk(w, j, m); }
    }
    forall g | g in w'.chains ensures ChainOk(w', g) { assert ChainOk(w, g); }
  }

  lemma IterateKeepsResting(w: World, it: Iteration, mode: Mode)
    requires Resting(w) && LegalIteration(w, it, mode)
    ensures Iterate(w, it, mode).Running? && Resting(Iterate(w, it, mode).world)
  {
    UndoAllKeepsInv(w, it.errors);
    var w1 := UndoAll(w, it.errors).world;
    assert ScannedNow(w1) == {};
    ScanAllKeepsInv(w1, it.pages, mode);
    var w2 := ScanAll(w1, it.pages, mode).world;
    PruneMetadataKeepsInv(w2, it.order);
    NextIterationRests(PruneMetadata(w2, it.order).world);
  }

  /** Over any number of iterations the engine reaches no fatal stop and keeps its invariant. */
  lemma {:induction false} RunNeverStops(w: World, its: seq<Iteration>, mode: Mode)
    requires Resting(w) && LegalRun(w, its, mode)
    ensures Run(w, its, mode).Running? && Resting(Run(w, its, mode).world)
    decreases |its|
  {
    if its != [] {
      IterateKeepsResting(w, its[0], mode);
      RunNeverStops(Iterate(w, its[0], mode).world, its[1..], mode);
    }
  }

  // ---------------------------------------------------------------- counting

  function StableKeys(w: World): set<Key> {
    set k | k in w.items && w.items[k].state.Stable?
  }

  ghost function SumShared(nodes: map<nat, Node>): int
    decreases |nodes|
  {
    if nodes == map[] then 0
    else
      var id :| id in nodes;
      nodes[id].sharedCnt + SumShared(nodes - {id})
  }

  function StableAt(w: World, ids: set<nat>): set<Key> {
    set k | k in w.items && w.items[k].state.Stable? && w.items[k].home.Some? && w.items[k].home.value in ids
  }

  lemma StableAtOne(w: World, ids: set<nat>, id: nat)
    requires Inv(w) && id in w.nodes && id !in ids
    ensures |StableAt(w, ids + {id})| == |StableAt(w, ids)| + w.nodes[id].sharedCnt
  {
    assert NodeOk(w, id);
    var ms := w.nodes[id].members;
    forall k ensures k in ms <==> k in StableAt(w, {id}) {
      if k in ms { assert MemberOk(w, id, k); }
      if k in w.items { assert ItemOk(w, k); }
    }
    assert ms == StableAt(w, {id});
    assert StableAt(w, ids + {id}) == StableAt(w, ids) + ms;
  }

  lemma SumUnfolds(ns: map<nat, Node>) returns (id: nat)
    requires ns != map[]
    ensures id in ns && SumShared(ns) == ns[id].sharedCnt + SumShared(ns - {id})
  {
    id :| id in ns && SumShared(ns) == ns[id].sharedCnt + SumShared(ns - {id});
  }

  lemma {:induction false} SumIsStableAt(w: World, ns: map<nat, Node>)
    requires Inv(w) && forall id :: id in ns ==> id in w.nodes && ns[id] == w.nodes[id]
    ensures SumShared(ns) == |StableAt(w, ns.Keys)|
    decreases |ns|
  {
    if ns == map[] {
      assert StableAt(w, ns.Keys) == {};
    } else {
      var id := SumUnfolds(ns);
      var rest := ns - {id};
      assert ns.Keys == rest.Keys + {id};
      SumIsStableAt(w, rest);
      StableAtOne(w, rest.Keys, id);
    }
  }

  /** The share counts add up to the number of Stable items. */
  lemma SharedCountsAddUp(w: World)
    requires Inv(w)
    ensures SumShared(w.nodes) == |StableKeys(w)|
  {
    SumIsStableAt(w, w.nodes);
    forall k | k in StableKeys(w) ensures k in StableAt(w, w.nodes.Keys) { assert ItemOk(w, k); }
    assert StableAt(w, w.nodes.Keys) == StableKeys(w);
  }
}
