/**
 Runs from the empty engine that meet the exact conditions from the other side: one after which a
 page re-keys its chain onto another, and one whose prune the log does not explain.
 */
module KsmWitness {
  import opened Wrappers
  import opened KsmTypes
  import opened KsmSpec
  import opened KsmInvariant
  import opened KsmIterations
  import opened KsmReplay
  import opened KsmPrune

  const CLEAN := Junk(0, 0, 0, None)

  // ---------------------------------------------------------------- pages seen for the first time

  function FirstSeen(p: Page, iteration: int): Item {
    Item(Volatile, p.kpfn, 0, p.hash, 0, 0, 1, iteration, None)
  }

  predicate IsNew(w: World, p: Page) {
    p.key !in w.items && p.hash != NULL_HASH && p.junk == CLEAN
  }

  /** A new page is only remembered. */
  lemma NewPageWaits(w: World, p: Page, smart: bool)
    requires IsNew(w, p)
    ensures Scan(w, p, ModeOf(smart)) == Running(w.(items := w.items[p.key := FirstSeen(p, w.iteration)], accessed := w.accessed + 1))
  {
  }

  function AddNew(w: World, p: Page): World {
    w.(items := w.items[p.key := FirstSeen(p, w.iteration)], accessed := w.accessed + 1)
  }

  function WithNew(w: World, ps: seq<Page>): World
    decreases |ps|
  {
    if ps == [] then w else WithNew(AddNew(w, ps[0]), ps[1..])
  }

  lemma RestIsNew(w: World, ps: seq<Page>)
    requires ps != [] && DistinctPages(ps) && forall p :: p in ps ==> IsNew(w, p)
    ensures DistinctPages(ps[1..]) && forall p :: p in ps[1..] ==> IsNew(AddNew(w, ps[0]), p)
  {
    assert forall p :: p in ps[1..] ==> p in ps && p.key != ps[0].key;
  }

  lemma {:induction false} NewPagesWait(w: World, ps: seq<Page>, smart: bool)
    requires DistinctPages(ps) && forall p :: p in ps ==> IsNew(w, p)
    ensures ScanAll(w, ps, ModeOf(smart)) == Running(WithNew(w, ps)) && CollisionFree(w, ps, ModeOf(smart))
    decreases |ps|
  {
    if ps != [] {
      NewPageWaits(w, ps[0], smart);
      RestIsNew(w, ps);
      NewPagesWait(AddNew(w, ps[0]), ps[1..], smart);
    }
  }

  /** Only items come in, one for each page. */
  lemma {:induction false} WithNewForm(w: World, ps: seq<Page>)
    requires DistinctPages(ps) && forall p :: p in ps ==> IsNew(w, p)
    ensures WithNew(w, ps) == w.(items := WithNew(w, ps).items, accessed := w.accessed + |ps|)
    ensures |WithNew(w, ps).items| == |w.items| + |ps|
    decreases |ps|
  {
    if ps != [] {
      RestIsNew(w, ps);
      WithNewForm(AddNew(w, ps[0]), ps[1..]);
    }
  }

  lemma {:induction false} WithNewItems(w: World, ps: seq<Page>, k: Key)
    requires DistinctPages(ps) && forall p :: p in ps ==> IsNew(w, p)
    ensures k in w.items ==> k in WithNew(w, ps).items && WithNew(w, ps).items[k] == w.items[k]
    ensures k in WithNew(w, ps).items && k !in w.items ==>
      exists p :: p in ps && p.key == k && WithNew(w, ps).items[k] == FirstSeen(p, w.iteration)
    decreases |ps|
  {
    if ps != [] {
      RestIsNew(w, ps);
      WithNewItems(AddNew(w, ps[0]), ps[1..], k);
    }
  }

  // ---------------------------------------------------------------- two pages seen twice

  function SeenTwice(p: Page, state: ItemState, iteration: int): Item {
    Item(state, p.kpfn, 0, p.hash, 0, 0, 2, iteration, None)
  }

  /** The first of two equal pages waits for a partner. */
  lemma FirstOfPair(w: World, p: Page, i: int, smart: bool)
    requires p.key in w.items && w.items[p.key] == FirstSeen(p, i) && p.hash != NULL_HASH
    requires p.hash !in w.chains && p.hash !in w.unstable
    ensures Scan(w, p, ModeOf(smart)) == Running(w.(
      items := w.items[p.key := SeenTwice(p, Unstable, w.iteration)],
      unstable := w.unstable[p.hash := p.key], accessed := w.accessed + 1))
  {
    SeenAgain(w, p, i, smart);
  }

  function Paired(p: Page, pfn: nat, id: nat, iteration: int): Item {
    Item(Stable, pfn, p.kpfn, p.hash, 0, 0, 2, iteration, Some(id))
  }

  lemma VolatileScans(w: World, p: Page, smart: bool)
    requires p.key in w.items && w.items[p.key].state.Volatile?
    ensures Scan(w, p, ModeOf(smart)) == MergeVolatile(Lookup(w, p), p.key, p.hash, smart)
  {
  }

  lemma SeenAgain(w: World, p: Page, i: int, smart: bool)
    requires p.key in w.items && w.items[p.key] == FirstSeen(p, i) && p.hash != NULL_HASH
    ensures Scan(w, p, ModeOf(smart)) ==
      Match(w.(items := w.items[p.key := SeenTwice(p, Volatile, w.iteration)], accessed := w.accessed + 1), p.key, p.hash)
  {
    VolatileScans(w, p, smart);
    var w1 := Lookup(w, p);
    var it := Calm(Aged(w1.items[p.key], smart));
    assert it == SeenTwice(p, Volatile, w.iteration);
    assert w1.items[p.key := it] == w.items[p.key := it];
  }

  lemma SecondMatches(w: World, p: Page, i: int, smart: bool)
    requires p.key in w.items && w.items[p.key] == FirstSeen(p, i) && p.hash != NULL_HASH
    requires p.hash !in w.chains && p.hash in w.unstable
    ensures Scan(w, p, ModeOf(smart)) ==
      MergeWithUnstable(w.(items := w.items[p.key := SeenTwice(p, Volatile, w.iteration)], accessed := w.accessed + 1), p.key, p.hash)
  {
    SeenAgain(w, p, i, smart);
  }

  lemma Founds(w: World, k: Key, h: HashPair)
    requires h in w.unstable && h !in w.chains && k in w.items && w.items[k].state.Volatile?
    requires w.unstable[h] in w.items && w.unstable[h] != k && w.items[w.unstable[h]].state.Unstable?
    ensures MergeWithUnstable(w, k, h) == Running(w.(
      items := w.items[w.unstable[h] := InNode(w.items[w.unstable[h]], h, w.items[k].pfn, w.nextId)]
                      [k := InNode(w.items[k], h, w.items[k].pfn, w.nextId)],
      nodes := w.nodes[w.nextId := Node(h, 2, w.items[k].pfn, {w.unstable[h], k})],
      chains := w.chains[h := [w.nextId]],
      unstable := w.unstable - {h},
      nextId := w.nextId + 1,
      log := w.log + [UnstableMerge(k, w.unstable[h])]))
  {
    var partner, id := w.unstable[h], w.nextId;
    var w1 := InsertNode(w.(unstable := w.unstable - {h}), h, w.items[k].pfn);
    var w2 := InsertItem(w1, id, partner).world;
    var w3 := InsertItem(w2, id, k).world;
    assert w3.nodes == w.nodes[id := Node(h, 2, w.items[k].pfn, {partner, k})] by {
      assert {} + {partner} + {k} == {partner, k};
    }
    assert [] + [id] == [id];
    assert w3.chains == w.chains[h := [id]];
  }

  function InNode(it: Item, h: HashPair, pfn: nat, id: nat): Item {
    it.(state := Stable, oldHash := h, oldPfn := it.pfn, pfn := pfn, home := Some(id))
  }

  /** The second one founds a node with it. */
  lemma SecondOfPair(w: World, a: Page, p: Page, i: int, smart: bool)
    requires p.key in w.items && w.items[p.key] == FirstSeen(p, i) && p.hash != NULL_HASH
    requires p.hash !in w.chains && a.key != p.key && a.hash == p.hash
    requires a.key in w.items && w.items[a.key] == SeenTwice(a, Unstable, w.iteration)
    requires p.hash in w.unstable && w.unstable[p.hash] == a.key
    ensures Scan(w, p, ModeOf(smart)) == Running(w.(
      items := w.items[p.key := SeenTwice(p, Volatile, w.iteration)]
        [a.key := Paired(a, p.kpfn, w.nextId, w.iteration)][p.key := Paired(p, p.kpfn, w.nextId, w.iteration)],
      nodes := w.nodes[w.nextId := Node(p.hash, 2, p.kpfn, {a.key, p.key})],
      chains := w.chains[p.hash := [w.nextId]],
      unstable := w.unstable - {p.hash},
      nextId := w.nextId + 1,
      log := w.log + [UnstableMerge(p.key, a.key)],
      accessed := w.accessed + 1))
  {
    SecondMatches(w, p, i, smart);
    Founds(w.(items := w.items[p.key := SeenTwice(p, Volatile, w.iteration)], accessed := w.accessed + 1), p.key, p.hash);
  }

  /** The engine after both. */
  function WithPair(w: World, a: Page, b: Page): World {
    w.(items := w.items[a.key := Paired(a, b.kpfn, w.nextId, w.iteration)][b.key := Paired(b, b.kpfn, w.nextId, w.iteration)],
       nodes := w.nodes[w.nextId := Node(b.hash, 2, b.kpfn, {a.key, b.key})],
       chains := w.chains[b.hash := [w.nextId]],
       nextId := w.nextId + 1,
       log := w.log + [UnstableMerge(b.key, a.key)],
       accessed := w.accessed + 2)
  }

  predicate ReadyPair(w: World, a: Page, b: Page, i: int) {
    && a.key != b.key && a.hash == b.hash && a.hash != NULL_HASH && a.hash !in w.chains && a.hash !in w.unstable
    && a.key in w.items && w.items[a.key] == FirstSeen(a, i) && b.key in w.items && w.items[b.key] == FirstSeen(b, i)
  }

  lemma PairMerges(w: World, a: Page, b: Page, i: int, smart: bool)
    requires ReadyPair(w, a, b, i)
    ensures ScanAll(w, [a, b], ModeOf(smart)) == Running(WithPair(w, a, b)) && CollisionFree(w, [a, b], ModeOf(smart))
  {
    FirstOfPair(w, a, i, smart);
    var w1 := w.(items := w.items[a.key := SeenTwice(a, Unstable, w.iteration)],
                 unstable := w.unstable[a.hash := a.key], accessed := w.accessed + 1);
    SecondAfterFirst(w, w1, a, b, i, smart);
    TwoScans(w, a, b, w1, WithPair(w, a, b), smart);
  }

  lemma SecondAfterFirst(w: World, w1: World, a: Page, b: Page, i: int, smart: bool)
    requires ReadyPair(w, a, b, i)
    requires w1 == w.(items := w.items[a.key := SeenTwice(a, Unstable, w.iteration)],
                      unstable := w.unstable[a.hash := a.key], accessed := w.accessed + 1)
    ensures Scan(w1, b, ModeOf(smart)) == Running(WithPair(w, a, b))
  {
    SecondOfPair(w1, a, b, i, smart);
    PairIs(w, a, b, i);
  }

  lemma PairIs(w: World, a: Page, b: Page, i: int)
    requires ReadyPair(w, a, b, i)
    ensures w.unstable[a.hash := a.key] - {b.hash} == w.unstable
    ensures w.items[a.key := SeenTwice(a, Unstable, w.iteration)][b.key := SeenTwice(b, Volatile, w.iteration)]
      [a.key := Paired(a, b.kpfn, w.nextId, w.iteration)][b.key := Paired(b, b.kpfn, w.nextId, w.iteration)]
      == WithPair(w, a, b).items
  {
  }

  lemma TwoScans(w: World, a: Page, b: Page, w1: World, w2: World, smart: bool)
    requires Scan(w, a, ModeOf(smart)) == Running(w1) && Scan(w1, b, ModeOf(smart)) == Running(w2)
    requires NoCollision(w, a) && NoCollision(w1, b)
    ensures ScanAll(w, [a, b], ModeOf(smart)) == Running(w2) && CollisionFree(w, [a, b], ModeOf(smart))
  {
    assert [a, b][1..] == [b] && [b][1..] == [];
    assert ScanAll(w2, [], ModeOf(smart)) == Running(w2) && CollisionFree(w2, [], ModeOf(smart));
    assert ScanAll(w1, [b], ModeOf(smart)) == Running(w2);
    assert CollisionFree(w1, [b], ModeOf(smart));
  }

  // ---------------------------------------------------------------- iterations

  lemma NothingWaits(w: World)
    requires Resting(w)
    ensures w.unstable == map[]
  {
    assert forall h :: h in w.unstable ==> UnstableOk(w, h);
  }

  lemma NothingToCleanUp(w: World)
    requires w.unstable == map[]
    ensures CleanUpUnstable(w) == w
  {
    assert w.unstable.Values == {};
  }

  lemma NotDue(w: World)
    requires w.accessed <= |w.items| <= w.accessed + RMAP_PRUNE_MARGIN
    ensures !PruneDue(w)
  {
  }

  /** An iteration without errors, after which nothing waits and no prune is due. */
  lemma QuietIteration(w: World, w2: World, it: Iteration, smart: bool)
    requires Resting(w) && it.errors == [] && DistinctPages(it.pages)
    requires ScanAll(w, it.pages, ModeOf(smart)) == Running(w2) && CollisionFree(w, it.pages, ModeOf(smart))
    requires w2.unstable == map[] && w2.accessed <= |w2.items| <= w2.accessed + RMAP_PRUNE_MARGIN
    requires Enumerates(it.order, StaleKeys(w2))
    ensures LegalIteration(w, it, ModeOf(smart)) && Iterate(w, it, ModeOf(smart)) == Running(NextIteration(w2)) && Resting(NextIteration(w2))
  {
    assert UndoAll(w, []) == Running(w) && LegalErrors(w, []);
    NothingToCleanUp(w2);
    NotDue(w2);
    IterateKeepsResting(w, it, ModeOf(smart));
  }

  lemma {:induction false} RunsJoin(w: World, its: seq<Iteration>, more: seq<Iteration>, smart: bool)
    requires LegalRun(w, its, ModeOf(smart))
    requires Run(w, its, ModeOf(smart)).Running? ==> LegalRun(Run(w, its, ModeOf(smart)).world, more, ModeOf(smart))
    ensures LegalRun(w, its + more, ModeOf(smart))
    ensures Run(w, its, ModeOf(smart)).Running? ==> Run(w, its + more, ModeOf(smart)) == Run(Run(w, its, ModeOf(smart)).world, more, ModeOf(smart))
    decreases |its|
  {
    if its == [] {
      assert its + more == more;
    } else {
      assert (its + more)[0] == its[0] && (its + more)[1..] == its[1..] + more;
      if Iterate(w, its[0], ModeOf(smart)).Running? {
        RunsJoin(Iterate(w, its[0], ModeOf(smart)).world, its[1..], more, smart);
      }
    }
  }

  lemma TwoIterations(w: World, a: Iteration, b: Iteration, w1: World, w2: World, smart: bool)
    requires LegalIteration(w, a, ModeOf(smart)) && Iterate(w, a, ModeOf(smart)) == Running(w1)
    requires LegalIteration(w1, b, ModeOf(smart)) && Iterate(w1, b, ModeOf(smart)) == Running(w2)
    ensures LegalRun(w, [a, b], ModeOf(smart)) && Run(w, [a, b], ModeOf(smart)) == Running(w2)
  {
    assert [a, b][1..] == [b] && [b][1..] == [];
    assert LegalRun(w2, [], ModeOf(smart)) && Run(w2, [], ModeOf(smart)) == Running(w2);
    assert LegalRun(w1, [b], ModeOf(smart)) && Run(w1, [b], ModeOf(smart)) == Running(w2);
  }

  function PairRun(a: Page, b: Page, o1: seq<Key>, o2: seq<Key>): seq<Iteration> {
    [Iteration([], [a, b], o1), Iteration([], [a, b], o2)]
  }

  function AfterSeen(w: World, a: Page, b: Page): World {
    NextIteration(WithNew(w, [a, b]))
  }

  function AfterPair(w: World, a: Page, b: Page): World {
    NextIteration(WithPair(AfterSeen(w, a, b), a, b))
  }

  /** Two new equal pages, scanned alone in two iterations, end up on one node of a new chain. */
  lemma PairRuns(w: World, a: Page, b: Page, o1: seq<Key>, o2: seq<Key>, smart: bool)
    requires Resting(w) && IsNew(w, a) && IsNew(w, b) && a.key != b.key && a.hash == b.hash && a.hash !in w.chains
    requires |w.items| <= RMAP_PRUNE_MARGIN && Enumerates(o1, StaleKeys(w)) && Enumerates(o2, w.items.Keys)
    ensures LegalRun(w, PairRun(a, b, o1, o2), ModeOf(smart))
    ensures Run(w, PairRun(a, b, o1, o2), ModeOf(smart)) == Running(AfterPair(w, a, b)) && Resting(AfterPair(w, a, b))
  {
    FirstHalf(w, a, b, o1, smart);
    SecondHalf(w, a, b, o2, smart);
    TwoIterations(w, Iteration([], [a, b], o1), Iteration([], [a, b], o2), AfterSeen(w, a, b), AfterPair(w, a, b), smart);
  }

  lemma SeenForm(w: World, a: Page, b: Page)
    requires IsNew(w, a) && IsNew(w, b) && a.key != b.key
    ensures DistinctPages([a, b])
    ensures WithNew(w, [a, b]) == w.(
      items := w.items[a.key := FirstSeen(a, w.iteration)][b.key := FirstSeen(b, w.iteration)], accessed := w.accessed + 2)
  {
    assert [a, b][1..] == [b] && [b][1..] == [];
    var w1 := AddNew(w, a);
    var w2 := AddNew(w1, b);
    assert WithNew(w2, []) == w2 && WithNew(w1, [b]) == w2;
  }

  lemma FirstHalf(w: World, a: Page, b: Page, o1: seq<Key>, smart: bool)
    requires Resting(w) && IsNew(w, a) && IsNew(w, b) && a.key != b.key
    requires |w.items| <= RMAP_PRUNE_MARGIN && Enumerates(o1, StaleKeys(w))
    ensures LegalIteration(w, Iteration([], [a, b], o1), ModeOf(smart))
    ensures Iterate(w, Iteration([], [a, b], o1), ModeOf(smart)) == Running(AfterSeen(w, a, b)) && Resting(AfterSeen(w, a, b))
  {
    SeenForm(w, a, b);
    NothingWaits(w);
    NewPagesWait(w, [a, b], smart);
    var w2 := WithNew(w, [a, b]);
    assert StaleKeys(w2) == StaleKeys(w);
    QuietIteration(w, w2, Iteration([], [a, b], o1), smart);
  }

  lemma SecondHalf(w: World, a: Page, b: Page, o2: seq<Key>, smart: bool)
    requires Resting(w) && IsNew(w, a) && IsNew(w, b) && a.key != b.key && a.hash == b.hash && a.hash !in w.chains
    requires |w.items| <= RMAP_PRUNE_MARGIN && Resting(AfterSeen(w, a, b)) && Enumerates(o2, w.items.Keys)
    ensures LegalIteration(AfterSeen(w, a, b), Iteration([], [a, b], o2), ModeOf(smart))
    ensures Iterate(AfterSeen(w, a, b), Iteration([], [a, b], o2), ModeOf(smart)) == Running(AfterPair(w, a, b))
    ensures Resting(AfterPair(w, a, b))
  {
    SeenForm(w, a, b);
    var w1 := AfterSeen(w, a, b);
    NothingWaits(w1);
    PairMerges(w1, a, b, w.iteration, smart);
    var w2 := WithPair(w1, a, b);
    StaleAfterPair(w, w1, w2, a, b);
    QuietIteration(w1, w2, Iteration([], [a, b], o2), smart);
  }

  /** All that the two iterations leave behind. */
  lemma PairForm(w: World, a: Page, b: Page)
    requires IsNew(w, a) && IsNew(w, b) && a.key != b.key
    ensures WithPair(AfterSeen(w, a, b), a, b).items
      == w.items[a.key := Paired(a, b.kpfn, w.nextId, w.iteration + 1)][b.key := Paired(b, b.kpfn, w.nextId, w.iteration + 1)]
    ensures AfterPair(w, a, b) == World(WithPair(AfterSeen(w, a, b), a, b).items,
      w.nodes[w.nextId := Node(b.hash, 2, b.kpfn, {a.key, b.key})], w.chains[b.hash := [w.nextId]], w.unstable,
      [], w.nextId + 1, w.iteration + 2, 0)
  {
    SeenForm(w, a, b);
    SetTwice(w.items, a.key, FirstSeen(a, w.iteration), Paired(a, b.kpfn, w.nextId, w.iteration + 1),
             b.key, FirstSeen(b, w.iteration), Paired(b, b.kpfn, w.nextId, w.iteration + 1));
  }

  lemma SetTwice(m: map<Key, Item>, a: Key, a1: Item, a2: Item, b: Key, b1: Item, b2: Item)
    requires a != b
    ensures m[a := a1][b := b1][a := a2][b := b2] == m[a := a2][b := b2]
  {
  }

  lemma StaleAfterPair(w: World, w1: World, w2: World, a: Page, b: Page)
    requires Resting(w) && IsNew(w, a) && IsNew(w, b) && a.key != b.key
    requires w1 == AfterSeen(w, a, b) && w2 == WithPair(w1, a, b)
    ensures StaleKeys(w2) == w.items.Keys && |w2.items| == |w.items| + 2
  {
    PairKeys(w, w1, w2, a, b);
    PairIsRecent(w, w1, w2, a, b);
    forall k ensures k in StaleKeys(w2) <==> k in w.items {
      if k != a.key && k != b.key { OldItem(w, w1, w2, a, b, k); }
    }
  }

  lemma PairKeys(w: World, w1: World, w2: World, a: Page, b: Page)
    requires IsNew(w, a) && IsNew(w, b) && a.key != b.key
    requires w1 == AfterSeen(w, a, b) && w2 == WithPair(w1, a, b)
    ensures w2.items.Keys == w.items.Keys + {a.key, b.key} && |w2.items| == |w.items| + 2
  {
    PairForm(w, a, b);
    TwoMoreKeys(w.items, a.key, Paired(a, b.kpfn, w.nextId, w.iteration + 1), b.key, Paired(b, b.kpfn, w.nextId, w.iteration + 1));
  }

  lemma PairIsRecent(w: World, w1: World, w2: World, a: Page, b: Page)
    requires IsNew(w, a) && IsNew(w, b) && a.key != b.key
    requires w1 == AfterSeen(w, a, b) && w2 == WithPair(w1, a, b)
    ensures w2.iteration == w.iteration + 1 && a.key in w2.items && b.key in w2.items
    ensures w2.items[a.key].lastAccess == w2.iteration && w2.items[b.key].lastAccess == w2.iteration
  {
    SeenForm(w, a, b);
  }

  lemma TwoMoreKeys(m: map<Key, Item>, a: Key, x: Item, b: Key, y: Item)
    requires a !in m && b !in m && a != b
    ensures m[a := x][b := y].Keys == m.Keys + {a, b} && |m[a := x][b := y]| == |m| + 2
  {
    var m' := m[a := x][b := y];
    assert |m'| == |m'.Keys| && |m| == |m.Keys|;
  }

  lemma OldItem(w: World, w1: World, w2: World, a: Page, b: Page, k: Key)
    requires IsNew(w, a) && IsNew(w, b) && a.key != b.key && k != a.key && k != b.key
    requires w1 == AfterSeen(w, a, b) && w2 == WithPair(w1, a, b)
    ensures k in w2.items <==> k in w.items
    ensures k in w.items ==> w2.items[k] == w.items[k]
  {
    PairForm(w, a, b);
  }

  // ---------------------------------------------------------------- two chains become one

  const HASH_A := HashPair(Digest(1, 1), Digest(1, 1))
  const HASH_B := HashPair(Digest(2, 2), Digest(2, 2))
  const HASH_C := HashPair(Digest(3, 3), Digest(3, 3))

  function PageOf(va: nat, hash: HashPair): Page {
    Page(Key(1, va), va, hash, CLEAN)
  }

  const PAGE_A1 := PageOf(1, HASH_A)
  const PAGE_A2 := PageOf(2, HASH_A)
  const PAGE_B1 := PageOf(3, HASH_B)
  const PAGE_B2 := PageOf(4, HASH_B)

  /** The engine after the first pair. */
  function OnePair(): World {
    World(map[Key(1, 1) := Paired(PAGE_A1, 2, 0, 1), Key(1, 2) := Paired(PAGE_A2, 2, 0, 1)],
          map[0 := Node(HASH_A, 2, 2, {Key(1, 1), Key(1, 2)})], map[HASH_A := [0]], map[], [], 1, 2, 0)
  }

  lemma OnePairIs()
    ensures AfterPair(EmptyWorld(), PAGE_A1, PAGE_A2) == OnePair()
  {
    PairForm(EmptyWorld(), PAGE_A1, PAGE_A2);
  }

  lemma FirstPair(smart: bool)
    ensures LegalRun(EmptyWorld(), PairRun(PAGE_A1, PAGE_A2, [], []), ModeOf(smart))
    ensures Run(EmptyWorld(), PairRun(PAGE_A1, PAGE_A2, [], []), ModeOf(smart)) == Running(OnePair()) && Resting(OnePair())
  {
    EmptyRests();
    assert StaleKeys(EmptyWorld()) == {} && EmptyWorld().items.Keys == {};
    PairRuns(EmptyWorld(), PAGE_A1, PAGE_A2, [], [], smart);
    OnePairIs();
  }

  /** Two pairs are merged under different digests. */
  function CollisionRun(): seq<Iteration> {
    PairRun(PAGE_A1, PAGE_A2, [], []) + PairRun(PAGE_B1, PAGE_B2, [], [Key(1, 1), Key(1, 2)])
  }

  /** A page of the first pair, still on its shared frame, now has the digest of the second. */
  const COLLIDING := Page(Key(1, 1), 2, HASH_B, CLEAN)

  lemma SecondPair(smart: bool)
    ensures LegalRun(OnePair(), PairRun(PAGE_B1, PAGE_B2, [], [Key(1, 1), Key(1, 2)]), ModeOf(smart))
    ensures Run(OnePair(), PairRun(PAGE_B1, PAGE_B2, [], [Key(1, 1), Key(1, 2)]), ModeOf(smart))
         == Running(AfterPair(OnePair(), PAGE_B1, PAGE_B2))
    ensures Resting(AfterPair(OnePair(), PAGE_B1, PAGE_B2))
  {
    FirstPair(smart);
    OnePairKeys();
    PairRuns(OnePair(), PAGE_B1, PAGE_B2, [], [Key(1, 1), Key(1, 2)], smart);
  }

  lemma OnePairKeys()
    ensures Enumerates([], StaleKeys(OnePair())) && Enumerates([Key(1, 1), Key(1, 2)], OnePair().items.Keys)
    ensures |OnePair().items| == 2 && IsNew(OnePair(), PAGE_B1) && IsNew(OnePair(), PAGE_B2)
  {
    var o := [Key(1, 1), Key(1, 2)];
    assert StaleKeys(OnePair()) == {};
    assert OnePair().items.Keys == {Key(1, 1), Key(1, 2)} && o[0] in o && o[1] in o;
  }

  lemma PageCollides()
    ensures var w := AfterPair(OnePair(), PAGE_B1, PAGE_B2); LegalPage(w, COLLIDING) && !NoCollision(w, COLLIDING)
  {
    PairForm(OnePair(), PAGE_B1, PAGE_B2);
    assert Rekeys(AfterPair(OnePair(), PAGE_B1, PAGE_B2), COLLIDING.key, COLLIDING.hash, COLLIDING.kpfn);
  }

  /** A run that meets every assumption leads to a page that breaks the invariant: its re-key takes the other chain out of the table. */
  lemma CollisionIsReachable(smart: bool)
    ensures LegalRun(EmptyWorld(), CollisionRun(), ModeOf(smart)) && Run(EmptyWorld(), CollisionRun(), ModeOf(smart)).Running?
    ensures var w := Run(EmptyWorld(), CollisionRun(), ModeOf(smart)).world;
      && Resting(w) && LegalPage(w, COLLIDING) && !NoCollision(w, COLLIDING)
      && Scan(w, COLLIDING, ModeOf(smart)).Running? && !Inv(Scan(w, COLLIDING, ModeOf(smart)).world)
  {
    FirstPair(smart);
    SecondPair(smart);
    PageCollides();
    RunsJoin(EmptyWorld(), PairRun(PAGE_A1, PAGE_A2, [], []), PairRun(PAGE_B1, PAGE_B2, [], [Key(1, 1), Key(1, 2)]), smart);
    CollisionLosesChain(AfterPair(OnePair(), PAGE_B1, PAGE_B2), COLLIDING, ModeOf(smart));
  }

  // ---------------------------------------------------------------- a page that is pruned silently

  const CROWD := RMAP_PRUNE_MARGIN + 1

  /** Enough new pages of another process to make a prune worth while. */
  function Crowd(n: nat): (ps: seq<Page>)
    ensures |ps| == n && forall i :: 0 <= i < n ==> ps[i] == Page(Key(2, i), 10 + i, HASH_C, CLEAN)
  {
    seq(n, i requires 0 <= i < n => Page(Key(2, i), 10 + i, HASH_C, CLEAN))
  }

  lemma CrowdIsNew(n: nat)
    ensures DistinctPages(Crowd(n)) && forall p :: p in Crowd(n) ==> IsNew(OnePair(), p)
  {
  }

  function Crowded(): World {
    NextIteration(WithNew(OnePair(), Crowd(CROWD)))
  }

  lemma CrowdedForm()
    ensures Crowded() == OnePair().(items := Crowded().items, iteration := 3)
    ensures |Crowded().items| == CROWD + 2
    ensures forall k :: k in OnePair().items ==> k in Crowded().items && Crowded().items[k] == OnePair().items[k]
    ensures forall k :: k in Crowded().items && k !in OnePair().items ==> Crowded().items[k].lastAccess == 2
  {
    CrowdIsNew(CROWD);
    OnePairKeys();
    WithNewForm(OnePair(), Crowd(CROWD));
    forall k
      ensures k in OnePair().items ==> k in Crowded().items && Crowded().items[k] == OnePair().items[k]
      ensures k in Crowded().items && k !in OnePair().items ==> Crowded().items[k].lastAccess == 2
    {
      WithNewItems(OnePair(), Crowd(CROWD), k);
    }
  }

  const FORGOTTEN := [Key(1, 1), Key(1, 2)]

  lemma CrowdedStale()
    ensures StaleKeys(WithNew(OnePair(), Crowd(CROWD))) == {} && StaleKeys(Crowded()) == {Key(1, 1), Key(1, 2)}
    ensures Enumerates([], {}) && Enumerates(FORGOTTEN, StaleKeys(Crowded()))
  {
    CrowdedForm();
    assert FORGOTTEN[0] in FORGOTTEN && FORGOTTEN[1] in FORGOTTEN;
  }

  lemma CrowdComes(smart: bool)
    ensures LegalIteration(OnePair(), Iteration([], Crowd(CROWD), []), ModeOf(smart))
    ensures Iterate(OnePair(), Iteration([], Crowd(CROWD), []), ModeOf(smart)) == Running(Crowded()) && Resting(Crowded())
  {
    FirstPair(smart);
    CrowdIsNew(CROWD);
    NewPagesWait(OnePair(), Crowd(CROWD), smart);
    WithNewForm(OnePair(), Crowd(CROWD));
    CrowdedForm();
    CrowdedStale();
    QuietIteration(OnePair(), WithNew(OnePair(), Crowd(CROWD)), Iteration([], Crowd(CROWD), []), smart);
  }

  /** A merged pair, then a crowd of other pages. */
  function CrowdRun(): seq<Iteration> {
    PairRun(PAGE_A1, PAGE_A2, [], []) + [Iteration([], Crowd(CROWD), [])]
  }

  lemma CrowdRuns(smart: bool)
    ensures LegalRun(EmptyWorld(), CrowdRun(), ModeOf(smart)) && Run(EmptyWorld(), CrowdRun(), ModeOf(smart)) == Running(Crowded())
  {
    FirstPair(smart);
    CrowdComes(smart);
    var it := Iteration([], Crowd(CROWD), []);
    SingleRun(OnePair(), it, Crowded(), smart);
    RunsJoin(EmptyWorld(), PairRun(PAGE_A1, PAGE_A2, [], []), [it], smart);
  }

  lemma SingleRun(w: World, it: Iteration, w': World, smart: bool)
    requires LegalIteration(w, it, ModeOf(smart)) && Iterate(w, it, ModeOf(smart)) == Running(w')
    ensures LegalRun(w, [it], ModeOf(smart)) && Run(w, [it], ModeOf(smart)) == Running(w')
  {
    assert [it][1..] == [];
    assert LegalRun(w', [], ModeOf(smart)) && Run(w', [], ModeOf(smart)) == Running(w');
  }

  /**
   After a run that meets every assumption, an iteration in which nothing is scanned prunes a pair of
   pages on one node, and its log does not explain that to the host.
   */
  lemma PruneGapIsReachable(smart: bool, shadow: map<Key, nat>)
    ensures LegalRun(EmptyWorld(), CrowdRun(), ModeOf(smart)) && Run(EmptyWorld(), CrowdRun(), ModeOf(smart)).Running?
    ensures var w, it := Run(EmptyWorld(), CrowdRun(), ModeOf(smart)).world, Iteration([], [], FORGOTTEN);
      && LegalIteration(w, it, ModeOf(smart)) && ScanAll(w, [], ModeOf(smart)) == Running(w) && PruneDue(CleanUpUnstable(w))
      && PruneMetadata(w, FORGOTTEN).Running? && !Explains(w, PruneMetadata(w, FORGOTTEN).world, shadow)
  {
    CrowdRuns(smart);
    CrowdComes(smart);
    CrowdedIsDue();
    EmptyIteration(Crowded(), FORGOTTEN, smart);
    CrowdedPrune(shadow);
  }

  lemma CrowdedIsDue()
    requires Resting(Crowded())
    ensures CleanUpUnstable(Crowded()) == Crowded() && PruneDue(Crowded()) && Enumerates(FORGOTTEN, StaleKeys(Crowded()))
  {
    CrowdedStale();
    NothingWaits(Crowded());
    NothingToCleanUp(Crowded());
    CrowdedSize();
    Due(Crowded());
  }

  lemma CrowdedSize()
    ensures |Crowded().items| == CROWD + 2 && Crowded().accessed == 0
  {
    CrowdedForm();
  }

  lemma Due(w: World)
    requires w.accessed == 0 && |w.items| == CROWD + 2
    ensures PruneDue(w)
  {
  }

  lemma EmptyIteration(w: World, order: seq<Key>, smart: bool)
    requires Enumerates(order, StaleKeys(w))
    ensures LegalIteration(w, Iteration([], [], order), ModeOf(smart)) && ScanAll(w, [], ModeOf(smart)) == Running(w)
  {
  }

  lemma CrowdedPrune(shadow: map<Key, nat>)
    requires Resting(Crowded()) && CleanUpUnstable(Crowded()) == Crowded() && PruneDue(Crowded())
    requires Enumerates(FORGOTTEN, StaleKeys(Crowded()))
    ensures PruneMetadata(Crowded(), FORGOTTEN).Running?
    ensures !Explains(Crowded(), PruneMetadata(Crowded(), FORGOTTEN).world, shadow)
  {
    var w := Crowded();
    EnumeratedArePrunable(w, FORGOTTEN);
    PruneExplainedIff(w, FORGOTTEN, shadow);
    PairNotAlone();
    forall k | k in StaleKeys(w) ensures Collectable(w.items[k]) { assert ItemOk(w, k); }
    IterationPrunes(w);
  }

  lemma PairNotAlone()
    ensures !StalePagesAlone(Crowded(), Keys(FORGOTTEN))
  {
    CrowdedForm();
    var k := FORGOTTEN[0];
    assert k in Keys(FORGOTTEN) && k in OnePair().items;
    assert !Alone(Crowded(), Crowded().items[k].home);
  }

  lemma IterationPrunes(w: World)
    requires CleanUpUnstable(w) == w && PruneDue(w) && forall k :: k in StaleKeys(w) ==> Collectable(w.items[k])
    ensures PruneMetadata(w, FORGOTTEN) == PruneAll(w, FORGOTTEN)
  {
  }
}
