/**
 What a scanned page comes to, told from the tables alone: which node it joins, with whom it pairs up,
 or that it waits. And what that means for a whole scan: of the pages with one digest that were there
 before, all but one are merged.
 */
module KsmOutcome {
  import opened Wrappers
  import opened Arithmetic
  import opened KsmTypes
  import opened KsmSpec
  import opened KsmInvariant
  import opened KsmIterations
  import opened KsmHost

  // ---------------------------------------------------------------- what can happen

  /** The node has fewer than 256 members. */
  ghost predicate Room(w: World, id: nat) {
    id in w.nodes && w.nodes[id].sharedCnt < 256
  }

  ghost predicate SomeRoom(w: World, h: HashPair) {
    exists id :: Room(w, id) && w.nodes[id].hash == h
  }

  /** The i-th node of the chain has room, and all before it are full. */
  ghost predicate FirstRoom(w: World, c: seq<nat>, i: nat) {
    i < |c| && Room(w, c[i]) && forall j :: 0 <= j < i ==> !Room(w, c[j])
  }

  /** The page ends Stable on the node: one member more, one entry in the log, and nothing else. */
  ghost predicate Joins(w: World, w': World, k: Key, it: Item, id: nat) {
    id in w.nodes
    && var n := w.nodes[id];
      w' == w.(
        items := w.items[k := it.(state := Stable, oldHash := n.hash, oldPfn := it.pfn, pfn := n.pfn, home := Some(id))],
        nodes := w.nodes[id := Node(n.hash, n.sharedCnt + 1, n.pfn, n.members + {k})],
        log := w.log + [StableMerge(k, n.pfn, n.sharedCnt + 1)],
        accessed := w.accessed + 1)
  }

  /** The page and the one that waits end on a new node of the page's frame, the last of its chain. */
  ghost predicate Pairs(w: World, w': World, k: Key, it: Item, h: HashPair, id: nat) {
    && id !in w.nodes && h in w.unstable && w.unstable[h] in w.items && w.unstable[h] != k
    && var other := w.unstable[h];
      var theirs := w.items[other];
      w' == w.(
        items := w.items[other := theirs.(state := Stable, oldHash := h, oldPfn := theirs.pfn, pfn := it.pfn, home := Some(id))]
                        [k := it.(state := Stable, oldHash := h, oldPfn := it.pfn, home := Some(id))],
        nodes := w.nodes[id := Node(h, 2, it.pfn, {other, k})],
        chains := w.chains[h := (if h in w.chains then w.chains[h] else []) + [id]],
        unstable := w.unstable - {h},
        log := w.log + [UnstableMerge(k, other)],
        nextId := id + 1,
        accessed := w.accessed + 1)
  }

  ghost predicate Waits(w: World, w': World, k: Key, it: Item, h: HashPair) {
    h !in w.unstable
    && w' == w.(items := w.items[k := it.(state := Unstable)], unstable := w.unstable[h := k], accessed := w.accessed + 1)
  }

  /** Only the item changes. */
  ghost predicate Stays(w: World, w': World, k: Key, it: Item) {
    w' == w.(items := w.items[k := it], accessed := w.accessed + 1)
  }

  ghost predicate JoinsFirst(w: World, w': World, k: Key, it: Item, h: HashPair) {
    h in w.chains && exists i: nat :: FirstRoom(w, w.chains[h], i) && Joins(w, w', k, it, w.chains[h][i])
  }

  /** A page with the digest it had before: it shares a frame if it can, and otherwise waits for another one. */
  ghost predicate Merges(w: World, w': World, k: Key, it: Item, h: HashPair) {
    if SomeRoom(w, h) then JoinsFirst(w, w', k, it, h)
    else if h in w.unstable then exists id: nat :: Pairs(w, w', k, it, h, id)
    else Waits(w, w', k, it, h)
  }

  // ---------------------------------------------------------------- the search in a chain

  lemma {:induction false} SearchFinds(w: World, c: seq<nat>)
    ensures match FirstWithRoom(w, c)
      case Some(id) => exists i: nat :: FirstRoom(w, c, i) && c[i] == id
      case None => forall i :: 0 <= i < |c| ==> !Room(w, c[i])
    decreases |c|
  {
    if c != [] {
      if Room(w, c[0]) {
        assert FirstRoom(w, c, 0);
      } else {
        SearchFinds(w, c[1..]);
        if FirstWithRoom(w, c[1..]).Some? {
          var i: nat :| FirstRoom(w, c[1..], i) && c[1..][i] == FirstWithRoom(w, c[1..]).value;
          assert forall j :: 0 < j < |c| ==> c[j] == c[1..][j - 1];
          assert FirstRoom(w, c, i + 1);
        } else {
          assert forall j :: 0 < j < |c| ==> c[j] == c[1..][j - 1];
        }
      }
    }
  }

  /** A node of the digest with room is found by way of the table, and nothing is found without one. */
  lemma RoomIsFound(w: World, h: HashPair)
    requires Inv(w)
    ensures CmpWithStable(w, h).Some? <==> SomeRoom(w, h)
    ensures CmpWithStable(w, h).Some? ==>
      h in w.chains && exists i: nat :: FirstRoom(w, w.chains[h], i) && w.chains[h][i] == CmpWithStable(w, h).value
  {
    if h in w.chains {
      SearchFinds(w, w.chains[h]);
      assert ChainOk(w, h);
    }
    forall id | Room(w, id) && w.nodes[id].hash == h ensures CmpWithStable(w, h).Some? {
      assert NodeOk(w, id);
      var i :| 0 <= i < |w.chains[h]| && w.chains[h][i] == id;
    }
    if CmpWithStable(w, h).Some? {
      var i: nat :| FirstRoom(w, w.chains[h], i) && w.chains[h][i] == CmpWithStable(w, h).value;
      assert w.chains[h][i] in w.chains[h];
    }
  }

  // ---------------------------------------------------------------- the skip count

  /** The skip count doubles with the grace score, from 1 up to 8; a page that is not volatile is never skipped. */
  lemma GraceDoubles(score: nat, age: nat)
    ensures SkipVolatile(score, age) ==
      if score == 0 then 0
      else if score + age <= 2 then Pow2(0)
      else if score + age <= 5 then Pow2(score + age - 2)
      else Pow2(3)
  {
    assert Pow2(1) == 2 * Pow2(0) && Pow2(2) == 2 * Pow2(1) && Pow2(3) == 2 * Pow2(2);
  }

  // ---------------------------------------------------------------- one page

  /** The world in which the item of k is examined. */
  function At(w: World, k: Key, it: Item): World {
    w.(items := w.items[k := it], accessed := w.accessed + 1)
  }

  lemma JoinIsJoin(w: World, k: Key, it: Item, id: nat)
    requires it.state.Volatile? && Room(w, id)
    ensures MergeIntoStable(At(w, k, it), k, id).Running? && Joins(w, MergeIntoStable(At(w, k, it), k, id).world, k, it, id)
  {
    MergeIntoStableForm(At(w, k, it), k, id);
    SetAgain(w.items, k, it, MergeIntoStable(At(w, k, it), k, id).world.items[k]);
  }

  lemma SetAgain(m: map<Key, Item>, k: Key, it: Item, it': Item)
    ensures m[k := it][k := it'] == m[k := it']
  {
  }

  lemma SetAround(m: map<Key, Item>, k: Key, it: Item, x: Key, other: Item, it': Item)
    requires x != k
    ensures m[k := it][x := other][k := it'] == m[x := other][k := it']
  {
  }

  lemma PairIsPair(w: World, k: Key, it: Item, h: HashPair)
    requires it.state.Volatile? && Sane(At(w, k, it)) && h in w.unstable
    ensures var o := MergeWithUnstable(At(w, k, it), k, h);
      o.Running? && Pairs(w, o.world, k, it, h, w.nextId)
  {
    var u := At(w, k, it);
    MergeWithUnstableForm(u, k, h);
    assert PartnerOk(u, h);
    var w', other := MergeWithUnstable(u, k, h).world, w.unstable[h];
    SetAround(w.items, k, it, other, w'.items[other], w'.items[k]);
  }

  lemma MatchMerges(w: World, k: Key, it: Item, h: HashPair)
    requires Inv(At(w, k, it)) && it.state.Volatile? && it.oldHash == h
    ensures Match(At(w, k, it), k, h).Running? && Merges(w, Match(At(w, k, it), k, h).world, k, it, h)
  {
    var u := At(w, k, it);
    InvSane(u);
    RoomIsFound(u, h);
    SameRoom(w, u, h);
    match CmpWithStable(u, h) {
      case Some(id) =>
        var i: nat :| FirstRoom(u, u.chains[h], i) && u.chains[h][i] == id;
        assert FirstRoom(w, w.chains[h], i);
        JoinIsJoin(w, k, it, id);
      case None =>
        if h in w.unstable { PairIsPair(w, k, it, h); } else { SetAgain(w.items, k, it, it.(state := Unstable)); }
    }
  }

  lemma SameRoom(w: World, u: World, h: HashPair)
    requires u.nodes == w.nodes
    ensures SomeRoom(w, h) <==> SomeRoom(u, h)
  {
    forall id | Room(w, id) && w.nodes[id].hash == h ensures SomeRoom(u, h) { assert Room(u, id); }
    forall id | Room(u, id) && u.nodes[id].hash == h ensures SomeRoom(w, h) { assert Room(w, id); }
  }

  /** The item of the page, or what a page that was never seen gets. */
  function ItemOf(w: World, p: Page): Item {
    if p.key in w.items then w.items[p.key]
    else Item(Volatile, p.kpfn, p.junk.oldPfn, NULL_HASH, p.junk.score, p.junk.skip, 0, w.iteration, p.junk.home)
  }

  function Stamped(w: World, p: Page): Item {
    ItemOf(w, p).(lastAccess := w.iteration, pfn := p.kpfn)
  }

  lemma LookupIsAt(w: World, p: Page)
    requires Inv(w) && LegalPage(w, p)
    ensures Lookup(w, p) == At(w, p.key, Stamped(w, p)) && Inv(Lookup(w, p)) && !ItemOf(w, p).state.Unstable?
  {
    if p.key in w.items { assert ItemOk(w, p.key); }
    LookupKeepsInv(w, p);
  }

  /**
   A Volatile or new page, with or without smart scan: it is passed over while its skip count is
   positive; it merges when its digest is the one it had before; otherwise the digest is remembered.
   */
  lemma VolatilePage(w: World, p: Page, mode: Mode)
    requires Inv(w) && LegalPage(w, p) && ItemOf(w, p).state.Volatile? && !mode.Old?
    ensures Scan(w, p, mode).Running?
    ensures var w', it := Scan(w, p, mode).world, Stamped(w, p).(age := ItemOf(w, p).age + 1);
      if mode.Smart? && it.skip > 0 then Stays(w, w', p.key, it.(skip := it.skip - 1))
      else
        var next := if mode.Smart? then it.(skip := SkipVolatile(it.score, it.age)) else it;
        if it.oldHash == p.hash then Merges(w, w', p.key, next.(score := if it.score > 0 then it.score - 1 else 0), p.hash)
        else Stays(w, w', p.key, next.(oldHash := p.hash, score := if it.oldHash == NULL_HASH then it.score else it.score + 1))
  {
    var k, it := p.key, Stamped(w, p);
    LookupIsAt(w, p);
    var a := Aged(it, mode.Smart?);
    if !(mode.Smart? && it.skip > 0) && it.oldHash == p.hash {
      TouchKeepsInv(Lookup(w, p), k, Calm(a));
      SetAgain(w.items, k, it, Calm(a));
      MatchMerges(w, k, Calm(a), p.hash);
    } else {
      SetAgain(w.items, k, it, a);
      SetAgain(w.items, k, it, Remembered(a, p.hash));
    }
  }

  /** The unoptimised step: a Volatile page joins a stable node of its digest at once. */
  lemma VolatilePageOld(w: World, p: Page)
    requires Inv(w) && LegalPage(w, p) && ItemOf(w, p).state.Volatile?
    ensures Scan(w, p, Old).Running?
    ensures var w', it := Scan(w, p, Old).world, Stamped(w, p);
      if it.oldHash == p.hash then Merges(w, w', p.key, it, p.hash)
      else if SomeRoom(w, p.hash) then JoinsFirst(w, w', p.key, it, p.hash)
      else Stays(w, w', p.key, it.(oldHash := p.hash))
  {
    LookupIsAt(w, p);
    VolatileOld(w, p.key, Stamped(w, p), p.hash);
  }

  lemma VolatileOld(w: World, k: Key, it: Item, h: HashPair)
    requires Inv(At(w, k, it)) && it.state.Volatile?
    ensures var o := MergeVolatileOld(At(w, k, it), k, h);
      && o.Running?
      && if it.oldHash == h then Merges(w, o.world, k, it, h)
         else if SomeRoom(w, h) then JoinsFirst(w, o.world, k, it, h)
         else Stays(w, o.world, k, it.(oldHash := h))
  {
    var u := At(w, k, it);
    if it.oldHash == h {
      MatchMerges(w, k, it, h);
    } else {
      RoomIsFound(u, h);
      SameRoom(w, u, h);
      match CmpWithStable(u, h) {
        case Some(id) =>
          var i: nat :| FirstRoom(u, u.chains[h], i) && u.chains[h][i] == id;
          assert FirstRoom(w, w.chains[h], i);
          JoinIsJoin(w, k, it, id);
        case None => SetAgain(w.items, k, it, it.(oldHash := h));
      }
    }
  }

  // ---------------------------------------------------------------- a page that is shared

  /** k leaves its node, and a node that is left empty leaves its chain. The log says which of the two it was. */
  ghost predicate Leaves(w: World, w': World, k: Key, it: Item, id: nat) {
    id in w.nodes && w.nodes[id].hash in w.chains
    && var n := w.nodes[id];
      if n.members == {k} then
        exists a: seq<nat>, b: seq<nat> :: w.chains[n.hash] == a + [id] + b && LeavesEmpty(w, w', k, it, id, a + b)
      else
        w' == w.(
          items := w.items[k := it],
          nodes := w.nodes[id := n.(sharedCnt := n.sharedCnt - 1, members := n.members - {k})],
          log := w.log + [ItemStateChange(k, n.pfn, n.sharedCnt - 1)])
  }

  ghost predicate LeavesEmpty(w: World, w': World, k: Key, it: Item, id: nat, c: seq<nat>)
    requires id in w.nodes
  {
    var h := w.nodes[id].hash;
    w' == w.(
      items := w.items[k := it],
      nodes := w.nodes - {id},
      chains := if c == [] then w.chains - {h} else w.chains[h := c],
      log := w.log + [StaleStableNode(k, w.nodes[id].pfn)])
  }

  /** What is left of a page that has left its node. */
  function Freed(it: Item): Item {
    it.(state := Volatile, pfn := it.oldPfn, oldPfn := 0, oldHash := NULL_HASH, home := None)
  }

  ghost function Gone(w: World, k: Key, it: Item, id: nat): World
    requires Inv(w) && id in w.nodes
  {
    assert NodeOk(w, id);
    var n := w.nodes[id];
    if n.members == {k} then
      var c := Without(w.chains[n.hash], id);
      w.(items := w.items[k := it], nodes := w.nodes - {id},
         chains := if c == [] then w.chains - {n.hash} else w.chains[n.hash := c],
         log := w.log + [StaleStableNode(k, n.pfn)])
    else
      w.(items := w.items[k := it],
         nodes := w.nodes[id := n.(sharedCnt := n.sharedCnt - 1, members := n.members - {k})],
         log := w.log + [ItemStateChange(k, n.pfn, n.sharedCnt - 1)])
  }

  lemma GoneLeaves(w: World, k: Key, it: Item, id: nat)
    requires Inv(w) && id in w.nodes
    ensures Leaves(w, Gone(w, k, it, id), k, it, id)
  {
    assert NodeOk(w, id);
    var c := w.chains[w.nodes[id].hash];
    var i := IndexOf(c, id);
    assert c == c[..i] + [id] + c[i + 1..];
    if w.nodes[id].members == {k} {
      assert LeavesEmpty(w, Gone(w, k, it, id), k, it, id, c[..i] + c[i + 1..]);
    }
  }

  lemma LastOneOut(w: World, k: Key, id: nat)
    requires Inv(w) && id in w.nodes && k in w.nodes[id].members
    ensures w.nodes[id].members == {k} <==> w.nodes[id].sharedCnt == 1
  {
    assert NodeOk(w, id);
    if w.nodes[id].sharedCnt == 1 {
      assert |w.nodes[id].members - {k}| == 0;
    }
  }

  lemma SplitIsGone(w: World, k: Key, it: Item, id: nat)
    requires Inv(w) && id in w.nodes && k in w.nodes[id].members
    ensures var it' := Freed(it).(score := it.score + 1);
      Split(At(w, k, it), k, id) == Running(At(Gone(w, k, it', id), k, it'))
  {
    LastOneOut(w, k, id);
    assert NodeOk(w, id);
    var u, it' := At(w, k, it), Freed(it).(score := it.score + 1);
    var u2 := SetItem(RemoveItem(u, id, k).world, k, Freed(it));
    assert u2.items[k := it'] == w.items[k := it'][k := it'];
    if w.nodes[id].sharedCnt == 1 {
      assert u2.nodes - {id} == w.nodes - {id};
    }
  }

  /** The page is shared, but the host says it is on another frame than its node. */
  ghost predicate Moved(w: World, p: Page) {
    && p.key in w.items && w.items[p.key].state.Stable?
    && w.items[p.key].home.Some? && w.items[p.key].home.value in w.nodes
    && w.nodes[w.items[p.key].home.value].pfn != p.kpfn
  }

  /** The page is shared and where its node is. */
  ghost predicate InPlace(w: World, p: Page) {
    && p.key in w.items && w.items[p.key].state.Stable?
    && w.items[p.key].home.Some? && w.items[p.key].home.value in w.nodes
    && w.nodes[w.items[p.key].home.value].pfn == p.kpfn
  }

  /** Every legal page is of one of the three kinds. */
  lemma ThreeKinds(w: World, p: Page)
    requires Inv(w) && LegalPage(w, p)
    ensures ItemOf(w, p).state.Volatile? || Moved(w, p) || InPlace(w, p)
  {
    if p.key in w.items { assert ItemOk(w, p.key); }
  }

  /** k leaves its node as it, and is then examined like any other Volatile item, without a match. */
  ghost predicate LeavesAndStays(w: World, w': World, k: Key, it: Item, id: nat, it': Item) {
    exists w1: World :: Leaves(w, w1, k, it, id) && Stays(w1, w', k, it')
  }

  ghost predicate LeavesAndJoins(w: World, w': World, k: Key, it: Item, id: nat, h: HashPair) {
    exists w1: World :: Leaves(w, w1, k, it, id) && SomeRoom(w1, h) && JoinsFirst(w1, w', k, it, h)
  }

  ghost predicate LeavesNoRoom(w: World, k: Key, it: Item, id: nat, h: HashPair) {
    exists w1: World :: Leaves(w, w1, k, it, id) && !SomeRoom(w1, h)
  }

  /** The item of a moved page is reset to the frame it had before it was shared, and counts as more volatile. */
  function MovedItem(w: World, p: Page): Item {
    Freed(Stamped(w, p)).(score := ItemOf(w, p).score + 1)
  }

  /** An item that is examined for the first time, or passed over. */
  function Noted(it: Item, h: HashPair, smart: bool): Item {
    var aged := it.(age := it.age + 1);
    if smart && it.skip > 0 then aged.(skip := it.skip - 1)
    else if smart then aged.(skip := SkipVolatile(aged.score, aged.age), oldHash := h)
    else aged.(oldHash := h)
  }

  lemma MovedMerge(w: World, k: Key, it: Item, id: nat, h: HashPair, smart: bool)
    requires Inv(w) && Inv(At(w, k, it)) && id in w.nodes && k in w.nodes[id].members
    requires it.state.Stable? && it.home == Some(id) && w.nodes[id].pfn != it.pfn
    ensures var it' := Freed(it).(score := it.score + 1);
      MergeOne(At(w, k, it), k, h, smart) == MergeVolatile(At(Gone(w, k, it', id), k, it'), k, h, smart)
  {
    SplitIsGone(w, k, it, id);
  }

  lemma MovedMergeOld(w: World, k: Key, it: Item, id: nat, h: HashPair)
    requires Inv(w) && Inv(At(w, k, it)) && id in w.nodes && k in w.nodes[id].members
    requires it.state.Stable? && it.home == Some(id) && w.nodes[id].pfn != it.pfn
    ensures MergeOneOld(At(w, k, it), k, h) == MergeVolatileOld(At(Gone(w, k, Freed(it), id), k, Freed(it)), k, h)
  {
    SplitOldIsGone(w, k, it, id);
  }

  lemma MovedOldInv(w: World, k: Key, it: Item, id: nat)
    requires Inv(w) && Inv(At(w, k, it)) && id in w.nodes && k in w.nodes[id].members
    requires it.state.Stable? && it.home == Some(id)
    ensures Inv(At(Gone(w, k, Freed(it), id), k, Freed(it)))
  {
    SplitOldIsGone(w, k, it, id);
    SplitOldKeepsInv(At(w, k, it), k, id);
  }

  lemma MovedIsMember(w: World, p: Page)
    requires Inv(w) && LegalPage(w, p) && Moved(w, p)
    ensures var it, id := Stamped(w, p), w.items[p.key].home.value;
      && id in w.nodes && p.key in w.nodes[id].members && it.state.Stable? && it.home == Some(id) && w.nodes[id].pfn != it.pfn
  {
    assert ItemOk(w, p.key);
  }

  /** A moved page leaves its node, and it does not merge in the scan that found it moved: its digest is only remembered. */
  lemma MovedPage(w: World, p: Page, mode: Mode)
    requires Inv(w) && LegalPage(w, p) && Moved(w, p) && !mode.Old?
    ensures Scan(w, p, mode).Running?
    ensures LeavesAndStays(w, Scan(w, p, mode).world, p.key, MovedItem(w, p), w.items[p.key].home.value,
                           Noted(MovedItem(w, p), p.hash, mode.Smart?))
  {
    var k, id := p.key, w.items[p.key].home.value;
    LookupIsAt(w, p);
    MovedIsMember(w, p);
    MovedOne(w, k, Stamped(w, p), id, p.hash, mode.Smart?);
    assert Scan(w, p, mode) == MergeOne(At(w, k, Stamped(w, p)), k, p.hash, mode.Smart?);
    assert MovedItem(w, p) == Freed(Stamped(w, p)).(score := Stamped(w, p).score + 1);
  }

  lemma MovedOne(w: World, k: Key, it: Item, id: nat, h: HashPair, smart: bool)
    requires Inv(w) && Inv(At(w, k, it)) && id in w.nodes && k in w.nodes[id].members && h != NULL_HASH
    requires it.state.Stable? && it.home == Some(id) && w.nodes[id].pfn != it.pfn
    ensures var o, it' := MergeOne(At(w, k, it), k, h, smart), Freed(it).(score := it.score + 1);
      o.Running? && LeavesAndStays(w, o.world, k, it', id, Noted(it', h, smart))
  {
    var it' := Freed(it).(score := it.score + 1);
    MovedMerge(w, k, it, id, h, smart);
    GoneLeaves(w, k, it', id);
    FreedRemembers(Gone(w, k, it', id), k, it', h, smart);
  }

  lemma FreedRemembers(w: World, k: Key, it: Item, h: HashPair, smart: bool)
    requires it.state.Volatile? && it.oldHash == NULL_HASH && h != NULL_HASH
    ensures var o := MergeVolatile(At(w, k, it), k, h, smart); o.Running? && Stays(w, o.world, k, Noted(it, h, smart))
  {
    var a := Aged(it, smart);
    SetAgain(w.items, k, it, a);
    SetAgain(w.items, k, it, Remembered(a, h));
  }

  /** In the unoptimised step a moved page may join another node at once, even the rest of the one it has left. */
  lemma MovedPageOld(w: World, p: Page)
    requires Inv(w) && LegalPage(w, p) && Moved(w, p)
    ensures Scan(w, p, Old).Running?
    ensures var w', k, it, id := Scan(w, p, Old).world, p.key, Freed(Stamped(w, p)), w.items[p.key].home.value;
      || LeavesAndJoins(w, w', k, it, id, p.hash)
      || (LeavesAndStays(w, w', k, it, id, it.(oldHash := p.hash)) && LeavesNoRoom(w, k, it, id, p.hash))
  {
    var k, it, id := p.key, Freed(Stamped(w, p)), w.items[p.key].home.value;
    LookupIsAt(w, p);
    MovedIsMember(w, p);
    MovedMergeOld(w, k, Stamped(w, p), id, p.hash);
    MovedOldInv(w, k, Stamped(w, p), id);
    GoneLeaves(w, k, it, id);
    VolatileOld(Gone(w, k, it, id), k, it, p.hash);
  }

  lemma SplitOldIsGone(w: World, k: Key, it: Item, id: nat)
    requires Inv(w) && id in w.nodes && k in w.nodes[id].members
    ensures SplitOld(At(w, k, it), k, id) == Running(At(Gone(w, k, Freed(it), id), k, Freed(it)))
  {
    SplitIsGone(w, k, it, id);
    var it' := Freed(it).(score := it.score + 1);
    assert Freed(it) == it'.(score := it.score);
    SetAgain(w.items, k, it', Freed(it));
    SetAgain(w.items, k, it', it');
  }

  /** Nodes and items of digest g get digest h, the chain of g is found at h, and the item of k is it. */
  ghost predicate Relabels(w: World, w': World, k: Key, it: Item, g: HashPair, h: HashPair) {
    && g in w.chains
    && w'.items.Keys == w.items.Keys && w'.nodes.Keys == w.nodes.Keys && k in w.items
    && w'.items[k] == it
    && (forall x :: x in w.items && x != k ==>
          w'.items[x] == if w.items[x].state.Stable? && w.items[x].oldHash == g then w.items[x].(oldHash := h) else w.items[x])
    && (forall id :: id in w.nodes ==> w'.nodes[id] == if w.nodes[id].hash == g then w.nodes[id].(hash := h) else w.nodes[id])
    && Rehung(w.chains, w'.chains, g, h)
    && w' == w.(items := w'.items, nodes := w'.nodes, chains := w'.chains, accessed := w.accessed + 1)
  }

  /** The chain of g is found at h, in place of what was there, and no longer at g. */
  ghost predicate Rehung(cs: map<HashPair, seq<nat>>, cs': map<HashPair, seq<nat>>, g: HashPair, h: HashPair)
    requires g in cs
  {
    && h in cs' && cs'[h] == cs[g] && g !in cs'
    && (forall x :: x != g && x != h && x in cs ==> x in cs' && cs'[x] == cs[x])
    && (forall x :: x != h && x in cs' ==> x in cs)
  }

  lemma RekeyRelabels(w: World, k: Key, it: Item, g: HashPair, h: HashPair)
    requires Inv(At(w, k, it)) && k in w.items && it.state.Stable? && it.oldHash == g != h && g in w.chains
    ensures var o := Rekey(At(w, k, it), g, h); o.Running? && Relabels(w, o.world, k, it.(oldHash := h), g, h)
  {
    RekeyParts(At(w, k, it), g, h);
    RekeyRecord(At(w, k, it), g, h);
    PartsRelabel(w, Rekey(At(w, k, it), g, h).world, k, it, g, h);
  }

  lemma RekeyRecord(w: World, g: HashPair, h: HashPair)
    requires g in w.chains && Rekey(w, g, h).Running?
    ensures var w' := Rekey(w, g, h).world;
      w' == w.(items := w'.items, nodes := w'.nodes, chains := (w.chains - {g})[h := w.chains[g]])
  {
  }

  lemma PartsRelabel(w: World, w': World, k: Key, it: Item, g: HashPair, h: HashPair)
    requires k in w.items && it.state.Stable? && it.oldHash == g != h && g in w.chains
    requires w'.items.Keys == w.items.Keys && w'.nodes.Keys == w.nodes.Keys
    requires forall x :: x in w.items ==> w'.items[x] == RekeyedItem(w.items[k := it][x], g, h)
    requires forall id :: id in w.nodes ==> w'.nodes[id] == RekeyedNode(w.nodes[id], g, h)
    requires w' == w.(items := w'.items, nodes := w'.nodes, chains := (w.chains - {g})[h := w.chains[g]], accessed := w.accessed + 1)
    ensures Relabels(w, w', k, it.(oldHash := h), g, h)
  {
    TableRehung(w.chains, g, h);
  }

  lemma TableRehung(cs: map<HashPair, seq<nat>>, g: HashPair, h: HashPair)
    requires g in cs && g != h
    ensures Rehung(cs, (cs - {g})[h := cs[g]], g, h)
  {
  }

  lemma RelabelsAgain(w: World, w': World, k: Key, it: Item, it': Item, g: HashPair, h: HashPair)
    requires Relabels(w, w', k, it, g, h)
    ensures Relabels(w, SetItem(w', k, it'), k, it', g, h)
  {
  }

  /** A shared page in its place stays shared; if its digest has changed the whole chain changes with it. */
  lemma PageInPlace(w: World, p: Page, mode: Mode)
    requires Inv(w) && LegalPage(w, p) && InPlace(w, p)
    ensures Scan(w, p, mode).Running?
    ensures var w', g := Scan(w, p, mode).world, w.items[p.key].oldHash;
      var it := Stamped(w, p).(oldHash := p.hash,
        score := if mode.Old? || w.items[p.key].score == 0 then w.items[p.key].score else w.items[p.key].score - 1);
      if g == p.hash then Stays(w, w', p.key, it) else Relabels(w, w', p.key, it, g, p.hash)
  {
    LookupIsAt(w, p);
    assert ItemOk(w, p.key);
    assert NodeOk(w, w.items[p.key].home.value);
    if mode.Old? {
      InPlaceOld(w, p.key, Stamped(w, p), p.hash);
    } else {
      InPlaceOne(w, p.key, Stamped(w, p), p.hash, mode.Smart?);
    }
  }

  ghost predicate AtHome(w: World, k: Key, it: Item) {
    && Inv(At(w, k, it)) && k in w.items && it.state.Stable? && it.oldHash in w.chains
    && it.home.Some? && it.home.value in w.nodes && w.nodes[it.home.value].pfn == it.pfn && w.nodes[it.home.value].hash == it.oldHash
  }

  lemma InPlaceOne(w: World, k: Key, it: Item, h: HashPair, smart: bool)
    requires AtHome(w, k, it)
    ensures var o, it' := MergeOne(At(w, k, it), k, h, smart), it.(oldHash := h, score := if it.score == 0 then 0 else it.score - 1);
      o.Running? && if it.oldHash == h then Stays(w, o.world, k, it') else Relabels(w, o.world, k, it', it.oldHash, h)
  {
    var u := At(w, k, it);
    StableInPlaceForm(u, k, h, smart);
    if it.oldHash == h {
      SetAgain(w.items, k, it, Calm(it));
    } else {
      RekeyRelabels(w, k, it, it.oldHash, h);
      RelabelsAgain(w, Rekey(u, it.oldHash, h).world, k, it.(oldHash := h), Calm(it.(oldHash := h)), it.oldHash, h);
    }
  }

  lemma InPlaceOld(w: World, k: Key, it: Item, h: HashPair)
    requires AtHome(w, k, it)
    ensures var o := MergeOneOld(At(w, k, it), k, h);
      o.Running? && if it.oldHash == h then Stays(w, o.world, k, it) else Relabels(w, o.world, k, it.(oldHash := h), it.oldHash, h)
  {
    if it.oldHash != h { RekeyRelabels(w, k, it, it.oldHash, h); }
  }

  // ---------------------------------------------------------------- a whole scan

  /** The page will look for a partner: it has the digest it had before and is not passed over. */
  ghost predicate Ready(w: World, p: Page, mode: Mode) {
    && p.key in w.items && w.items[p.key].state.Volatile? && w.items[p.key].oldHash == p.hash
    && (mode.Smart? ==> w.items[p.key].skip == 0)
  }

  /** The page is merged, or it waits for another one of its digest. */
  ghost predicate Served(w: World, k: Key, h: HashPair) {
    k in w.items && (w.items[k].state.Stable? || (w.items[k].state.Unstable? && w.items[k].oldHash == h))
  }

  /** What a scanned page may do to the item of another one. */
  ghost predicate KindTo(w: World, w': World, x: Key) {
    x in w.items ==>
      && x in w'.items
      && (w.items[x].state.Volatile? ==> w'.items[x] == w.items[x])
      && (w.items[x].state.Stable? ==> w'.items[x].state.Stable?)
      && (w.items[x].state.Unstable? ==> w'.items[x] == w.items[x] || w'.items[x].state.Stable?)
  }

  lemma MergesIsKind(w: World, w': World, k: Key, it: Item, h: HashPair, x: Key)
    requires Inv(w) && Merges(w, w', k, it, h) && x != k
    ensures KindTo(w, w', x)
  {
    if h in w.unstable { assert UnstableOk(w, h); }
  }

  lemma VolatileIsKind(w: World, p: Page, mode: Mode, x: Key)
    requires Inv(w) && LegalPage(w, p) && ItemOf(w, p).state.Volatile? && x != p.key
    ensures Scan(w, p, mode).Running? && KindTo(w, Scan(w, p, mode).world, x)
  {
    if mode.Old? {
      VolatilePageOld(w, p);
      if Stamped(w, p).oldHash == p.hash { MergesIsKind(w, Scan(w, p, Old).world, p.key, Stamped(w, p), p.hash, x); }
    } else {
      VolatileMergeIsKind(w, p, mode, x);
    }
  }

  lemma VolatileMergeIsKind(w: World, p: Page, mode: Mode, x: Key)
    requires Inv(w) && LegalPage(w, p) && ItemOf(w, p).state.Volatile? && x != p.key && !mode.Old?
    ensures Scan(w, p, mode).Running? && KindTo(w, Scan(w, p, mode).world, x)
  {
    VolatilePage(w, p, mode);
    var w', it := Scan(w, p, mode).world, Stamped(w, p).(age := ItemOf(w, p).age + 1);
    if !(mode.Smart? && it.skip > 0) && it.oldHash == p.hash {
      var next := if mode.Smart? then it.(skip := SkipVolatile(it.score, it.age)) else it;
      MergesIsKind(w, w', p.key, next.(score := if it.score > 0 then it.score - 1 else 0), p.hash, x);
    }
  }

  lemma MovedIsKind(w: World, p: Page, mode: Mode, x: Key)
    requires Inv(w) && LegalPage(w, p) && Moved(w, p) && x != p.key
    ensures Scan(w, p, mode).Running? && KindTo(w, Scan(w, p, mode).world, x)
  {
    if mode.Old? { MovedPageOld(w, p); } else { MovedPage(w, p, mode); }
  }

  lemma InPlaceIsKind(w: World, p: Page, mode: Mode, x: Key)
    requires Inv(w) && LegalPage(w, p) && InPlace(w, p) && x != p.key
    ensures Scan(w, p, mode).Running? && KindTo(w, Scan(w, p, mode).world, x)
    ensures Scan(w, p, mode).world.items[p.key].state.Stable?
  {
    PageInPlace(w, p, mode);
  }

  lemma ScanIsKind(w: World, p: Page, mode: Mode, x: Key)
    requires Inv(w) && LegalPage(w, p) && x != p.key
    ensures Scan(w, p, mode).Running? && KindTo(w, Scan(w, p, mode).world, x)
  {
    ThreeKinds(w, p);
    if Moved(w, p) { MovedIsKind(w, p, mode, x); }
    else if InPlace(w, p) { InPlaceIsKind(w, p, mode, x); }
    else { VolatileIsKind(w, p, mode, x); }
  }

  /** A ready page is served when it is scanned. */
  lemma ReadyIsServed(w: World, p: Page, mode: Mode)
    requires Inv(w) && LegalPage(w, p) && Ready(w, p, mode)
    ensures Scan(w, p, mode).Running? && Served(Scan(w, p, mode).world, p.key, p.hash)
  {
    if mode.Old? { VolatilePageOld(w, p); } else { VolatilePage(w, p, mode); }
  }

  /** What is served stays served, and what is ready is served in its turn. */
  lemma {:induction false} ScanAllServes(w: World, ps: seq<Page>, mode: Mode, k: Key, h: HashPair)
    requires Inv(w) && DistinctPages(ps) && AllUnscanned(w, ps) && CollisionFree(w, ps, mode)
    requires (Served(w, k, h) && forall p :: p in ps ==> p.key != k)
             || exists p :: p in ps && p.key == k && p.hash == h && Ready(w, p, mode)
    ensures ScanAll(w, ps, mode).Running? && Served(ScanAll(w, ps, mode).world, k, h)
    decreases |ps|
  {
    if ps != [] {
      ScanRest(w, ps, mode);
      ScanKeepsInv(w, ps[0], mode);
      var w1 := Scan(w, ps[0], mode).world;
      if ps[0].key == k {
        ReadyIsServed(w, ps[0], mode);
      } else {
        ScanIsKind(w, ps[0], mode, k);
        assert forall p :: p in ps ==> p == ps[0] || p in ps[1..];
      }
      ScanAllServes(w1, ps[1..], mode, k, h);
    }
  }

  /**
   The promise of the engine: of the pages with one digest that are ready, all but one are merged in
   the scan, and that one waits for the next.
   */
  lemma ScanAllMerges(w: World, ps: seq<Page>, mode: Mode, p: Page, q: Page)
    requires Inv(w) && DistinctPages(ps) && AllUnscanned(w, ps) && CollisionFree(w, ps, mode) && AccessedOk(w)
    requires p in ps && q in ps && p.key != q.key && p.hash == q.hash && Ready(w, p, mode) && Ready(w, q, mode)
    ensures ScanAll(w, ps, mode).Running?
    ensures var w' := ScanAll(w, ps, mode).world;
      && Served(w', p.key, p.hash) && Served(w', q.key, q.hash)
      && (w'.items[p.key].state.Stable? || w'.items[q.key].state.Stable?)
  {
    ScanAllServes(w, ps, mode, p.key, p.hash);
    ScanAllServes(w, ps, mode, q.key, q.hash);
    ScanAllKeepsInv(w, ps, mode);
    var w' := ScanAll(w, ps, mode).world;
    assert ItemOk(w', p.key) && ItemOk(w', q.key);
  }

  // ---------------------------------------------------------------- new pages

  /** The page is new, and what malloc left in its item does not make it volatile. */
  ghost predicate IsFresh(w: World, p: Page, mode: Mode) {
    p.key !in w.items && (mode.Smart? ==> p.junk.skip == 0 && p.junk.score == 0)
  }

  /** The digest of the page was seen once, and the page will be examined again. */
  ghost predicate SeenOnce(w: World, k: Key, h: HashPair, mode: Mode) {
    && k in w.items && w.items[k].state.Volatile? && w.items[k].oldHash == h
    && (mode.Smart? ==> w.items[k].skip == 0)
  }

  lemma FreshIsSeen(w: World, p: Page, mode: Mode)
    requires Inv(w) && LegalPage(w, p) && IsFresh(w, p, mode) && !mode.Old?
    ensures Scan(w, p, mode).Running? && SeenOnce(Scan(w, p, mode).world, p.key, p.hash, mode)
  {
    VolatilePage(w, p, mode);
  }

  lemma {:induction false} ScanAllSees(w: World, ps: seq<Page>, mode: Mode, k: Key, h: HashPair)
    requires Inv(w) && DistinctPages(ps) && AllUnscanned(w, ps) && CollisionFree(w, ps, mode) && !mode.Old?
    requires (SeenOnce(w, k, h, mode) && forall p :: p in ps ==> p.key != k)
             || exists p :: p in ps && p.key == k && p.hash == h && IsFresh(w, p, mode)
    ensures ScanAll(w, ps, mode).Running? && SeenOnce(ScanAll(w, ps, mode).world, k, h, mode)
    decreases |ps|
  {
    if ps != [] {
      ScanRest(w, ps, mode);
      ScanKeepsInv(w, ps[0], mode);
      ScanStamps(w, ps[0], mode);
      var w1 := Scan(w, ps[0], mode).world;
      if ps[0].key == k {
        FreshIsSeen(w, ps[0], mode);
      } else {
        ScanIsKind(w, ps[0], mode, k);
        assert forall p :: p in ps ==> p == ps[0] || p in ps[1..];
      }
      ScanAllSees(w1, ps[1..], mode, k, h);
    }
  }

  // ---------------------------------------------------------------- the end of an iteration

  function Scanned(ps: seq<Page>): set<Key> {
    set p | p in ps :: p.key
  }

  /** The items of ks, old and new ones, carry the time of the iteration, and all others the time they had. */
  ghost predicate StampsOnly(w: World, w': World, ks: set<Key>) {
    && w'.items.Keys == w.items.Keys + ks && w'.iteration == w.iteration
    && forall k :: k in w'.items ==> w'.items[k].lastAccess == if k in ks then w.iteration else w.items[k].lastAccess
  }

  lemma StampsJoin(w: World, w1: World, w2: World, a: set<Key>, b: set<Key>)
    requires StampsOnly(w, w1, a) && StampsOnly(w1, w2, b)
    ensures StampsOnly(w, w2, a + b)
  {
  }

  lemma PageStamps(w: World, p: Page, mode: Mode)
    requires Inv(w) && LegalPage(w, p)
    ensures Scan(w, p, mode).Running? && StampsOnly(w, Scan(w, p, mode).world, {p.key})
  {
    ScanStamps(w, p, mode);
  }

  /** A scan stamps its pages, old and new ones, and no other item. */
  lemma {:induction false} ScanAllStamps(w: World, ps: seq<Page>, mode: Mode)
    requires Inv(w) && DistinctPages(ps) && AllUnscanned(w, ps) && CollisionFree(w, ps, mode)
    ensures ScanAll(w, ps, mode).Running? && StampsOnly(w, ScanAll(w, ps, mode).world, Scanned(ps))
    decreases |ps|
  {
    if ps != [] {
      ScanRest(w, ps, mode);
      ScanKeepsInv(w, ps[0], mode);
      PageStamps(w, ps[0], mode);
      ScanAllStamps(Scan(w, ps[0], mode).world, ps[1..], mode);
      HeadAndTail(ps);
      StampsJoin(w, Scan(w, ps[0], mode).world, ScanAll(w, ps, mode).world, {ps[0].key}, Scanned(ps[1..]));
    }
  }

  lemma HeadAndTail(ps: seq<Page>)
    requires ps != []
    ensures Scanned(ps) == {ps[0].key} + Scanned(ps[1..])
  {
    forall k | k in Scanned(ps) ensures k in {ps[0].key} + Scanned(ps[1..]) {
      var p :| p in ps && p.key == k;
      assert p == ps[0] || p in ps[1..];
    }
  }

  /** The items that the engine knows after the scan. */
  function Known(w: World, it: Iteration): set<Key> {
    w.items.Keys + Scanned(it.pages)
  }

  /**
   An iteration forgets exactly the items that were scanned neither in it nor in the one before, and
   only if more than a thousand of the known items were not scanned in it.
   */
  lemma IterationForgets(w: World, it: Iteration, mode: Mode)
    requires Resting(w) && LegalIteration(w, it, mode) && |Known(w, it)| < WORD_RANGE
    ensures Iterate(w, it, mode).Running?
    ensures forall k :: k in Iterate(w, it, mode).world.items <==>
      && k in Known(w, it)
      && (k in Scanned(it.pages) || w.items[k].lastAccess == w.iteration - 1 || |Known(w, it) - Scanned(it.pages)| <= 1000)
  {
    ScanOfIteration(w, it, mode);
    var w2 := BeforePrune(w, it, mode).world;
    PruneForgets(w2, it.order);
    IterationEnds(w, it, mode);
  }

  lemma IterationEnds(w: World, it: Iteration, mode: Mode)
    requires BeforePrune(w, it, mode).Running? && PruneMetadata(BeforePrune(w, it, mode).world, it.order).Running?
    ensures Iterate(w, it, mode) == Running(NextIteration(PruneMetadata(BeforePrune(w, it, mode).world, it.order).world))
  {
  }

  lemma ScanOfIteration(w: World, it: Iteration, mode: Mode)
    requires Resting(w) && LegalIteration(w, it, mode)
    ensures BeforePrune(w, it, mode).Running?
    ensures var w2 := BeforePrune(w, it, mode).world;
      && Inv(w2) && AccessedOk(w2) && Enumerates(it.order, StaleKeys(w2))
      && w2.items.Keys == Known(w, it) && w2.iteration == w.iteration && ScannedNow(w2) == Scanned(it.pages)
      && (forall k :: k in w2.items && k !in Scanned(it.pages) ==> w2.items[k].lastAccess == w.items[k].lastAccess)
  {
    UndoAllKeepsInv(w, it.errors);
    var w1 := UndoAll(w, it.errors).world;
    assert ScannedNow(w1) == {};
    ScanAllKeepsInv(w1, it.pages, mode);
    ScanAllStamps(w1, it.pages, mode);
  }

  lemma PruneForgets(w: World, order: seq<Key>)
    requires Inv(w) && AccessedOk(w) && |w.items.Keys| < WORD_RANGE && Enumerates(order, StaleKeys(w))
    ensures PruneMetadata(w, order).Running?
    ensures forall k :: k in PruneMetadata(w, order).world.items <==>
      k in w.items && (w.items[k].lastAccess >= w.iteration - 1 || |w.items.Keys - ScannedNow(w)| <= 1000)
  {
    PruneKeeps(w, order);
    CleanUpKeepsInv(w);
    SameKeys(w, CleanUpUnstable(w));
    DueIff(CleanUpUnstable(w));
  }

  lemma PruneKeeps(w: World, order: seq<Key>)
    requires Inv(w) && Enumerates(order, StaleKeys(w))
    ensures PruneMetadata(w, order).Running?
    ensures var w' := PruneMetadata(w, order).world;
      && (forall k :: k in w'.items <==> k in w.items && (w.items[k].lastAccess >= w.iteration - 1 || !PruneDue(CleanUpUnstable(w))))
      && (forall k :: k in w'.items ==> w'.items[k] == Settled(w.items[k]))
  {
    CleanUpKeepsInv(w);
    var w1 := CleanUpUnstable(w);
    SameKeys(w, w1);
    if PruneDue(w1) { PruneRmapKeepsInv(w1, order); }
  }

  lemma SameKeys(w: World, w': World)
    requires SameStamps(w, w')
    ensures StaleKeys(w') == StaleKeys(w) && ScannedNow(w') == ScannedNow(w)
  {
  }

  lemma DueIff(w: World)
    requires AccessedOk(w) && |w.items.Keys| < WORD_RANGE
    ensures PruneDue(w) <==> |w.items.Keys - ScannedNow(w)| > 1000
  {
    assert |w.items| == |w.items.Keys|;
    PruneGuardNeverWraps(w);
  }

  // ---------------------------------------------------------------- two iterations

  lemma UndoSparesVolatile(w: World, e: HostError, k: Key)
    requires Inv(w) && LegalError(w, e) && k in w.items && w.items[k].state.Volatile?
    ensures Undo(w, e).Running? && k in Undo(w, e).world.items && Undo(w, e).world.items[k] == w.items[k]
  {
    if e.MergeOneFailed? {
      UndoOneKeepsInv(w, e.from, e.kpfn);
    } else {
      UndoTwoKeepsInv(w, e.from);
      var id := w.items[e.from].home.value;
      assert NodeOk(w, id);
      assert k in w.nodes[id].members ==> MemberOk(w, id, k);
    }
  }

  lemma {:induction false} UndoAllSparesVolatile(w: World, es: seq<HostError>, k: Key)
    requires Inv(w) && LegalErrors(w, es) && k in w.items && w.items[k].state.Volatile?
    ensures UndoAll(w, es).Running? && k in UndoAll(w, es).world.items && UndoAll(w, es).world.items[k] == w.items[k]
    decreases |es|
  {
    if es != [] {
      UndoSparesVolatile(w, es[0], k);
      UndoKeepsInv(w, es[0]);
      UndoAllSparesVolatile(Undo(w, es[0]).world, es[1..], k);
    }
  }

  /** A page that is scanned outlives its iteration: Unstable items become Volatile, and no other changes. */
  lemma ScannedStays(w: World, it: Iteration, mode: Mode, k: Key)
    requires Resting(w) && LegalIteration(w, it, mode) && k in Scanned(it.pages)
    ensures BeforePrune(w, it, mode).Running? && Iterate(w, it, mode).Running?
    ensures k in BeforePrune(w, it, mode).world.items && k in Iterate(w, it, mode).world.items
    ensures Iterate(w, it, mode).world.items[k] == Settled(BeforePrune(w, it, mode).world.items[k])
  {
    ScanOfIteration(w, it, mode);
    var w2 := BeforePrune(w, it, mode).world;
    assert k in ScannedNow(w2);
    PruneKeeps(w2, it.order);
    IterationEnds(w, it, mode);
  }

  /** After its first iteration a new page is Volatile and its digest remembered. */
  lemma FirstIteration(w: World, it: Iteration, mode: Mode, p: Page)
    requires Resting(w) && LegalIteration(w, it, mode) && p in it.pages && IsFresh(w, p, mode) && !mode.Old?
    ensures Iterate(w, it, mode).Running? && SeenOnce(Iterate(w, it, mode).world, p.key, p.hash, mode)
  {
    UndoAllKeepsInv(w, it.errors);
    ScanAllSees(UndoAll(w, it.errors).world, it.pages, mode, p.key, p.hash);
    ScannedStays(w, it, mode, p.key);
  }

  /** Of two pages that have been seen with one digest and have it again, one is merged. */
  lemma SecondIteration(w: World, it: Iteration, mode: Mode, p: Page, q: Page)
    requires Resting(w) && LegalIteration(w, it, mode)
    requires p in it.pages && q in it.pages && p.key != q.key && p.hash == q.hash
    requires SeenOnce(w, p.key, p.hash, mode) && SeenOnce(w, q.key, q.hash, mode)
    ensures Iterate(w, it, mode).Running?
    ensures var w' := Iterate(w, it, mode).world;
      p.key in w'.items && q.key in w'.items && (w'.items[p.key].state.Stable? || w'.items[q.key].state.Stable?)
  {
    UndoAllKeepsInv(w, it.errors);
    UndoAllSparesVolatile(w, it.errors, p.key);
    UndoAllSparesVolatile(w, it.errors, q.key);
    var w1 := UndoAll(w, it.errors).world;
    assert ScannedNow(w1) == {};
    ScanAllMerges(w1, it.pages, mode, p, q);
    ScannedStays(w, it, mode, p.key);
    ScannedStays(w, it, mode, q.key);
  }

  /**
   What the engine is for: of new pages with one digest that keep it for two iterations, whatever else
   happens in them, all but at most one are merged at the end.
   */
  lemma TwinsMerge(w: World, it1: Iteration, it2: Iteration, mode: Mode, p: Page, q: Page, p': Page, q': Page)
    requires Resting(w) && LegalIteration(w, it1, mode) && !mode.Old?
    requires p in it1.pages && q in it1.pages && IsFresh(w, p, mode) && IsFresh(w, q, mode) && p.key != q.key && p.hash == q.hash
    requires Iterate(w, it1, mode).Running? ==> LegalIteration(Iterate(w, it1, mode).world, it2, mode)
    requires p' in it2.pages && p'.key == p.key && p'.hash == p.hash && q' in it2.pages && q'.key == q.key && q'.hash == q.hash
    ensures Iterate(w, it1, mode).Running? && Iterate(Iterate(w, it1, mode).world, it2, mode).Running?
    ensures var w' := Iterate(Iterate(w, it1, mode).world, it2, mode).world;
      p.key in w'.items && q.key in w'.items && (w'.items[p.key].state.Stable? || w'.items[q.key].state.Stable?)
  {
    FirstIteration(w, it1, mode, p);
    FirstIteration(w, it1, mode, q);
    IterateKeepsResting(w, it1, mode);
    SecondIteration(Iterate(w, it1, mode).world, it2, mode, p', q');
  }
}
