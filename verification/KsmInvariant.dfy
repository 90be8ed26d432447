/** The invariant of the engine, and the proof that every operation keeps it. */
module KsmInvariant {
  import opened Wrappers
  import opened KsmTypes
  import opened KsmSpec

  // ---------------------------------------------------------------- the invariant

  /** A Stable item points back at the node it is in; an Unstable one is in the table under its digest. */
  ghost predicate ItemOk(w: World, k: Key)
    requires k in w.items
  {
    var it := w.items[k];
    && !it.state.NoState?
    && it.lastAccess <= w.iteration
    && (it.state.Stable? ==>
      && it.home.Some? && it.home.value in w.nodes
      && k in w.nodes[it.home.value].members
      && it.oldHash == w.nodes[it.home.value].hash)
    && (it.state.Unstable? ==>
      && it.oldHash in w.unstable && w.unstable[it.oldHash] == k
      && it.lastAccess == w.iteration)
  }

  /** A node counts its members, all of which are Stable items of it, and is linked in its chain. */
  ghost predicate NodeOk(w: World, id: nat)
    requires id in w.nodes
  {
    var n := w.nodes[id];
    && id < w.nextId
    && 1 <= n.sharedCnt <= MAX_PAGE_SHARING
    && n.sharedCnt == |n.members|
    && n.hash != NULL_HASH
    && n.hash in w.chains && id in w.chains[n.hash]
    && forall k :: k in n.members ==> MemberOk(w, id, k)
  }

  ghost predicate MemberOk(w: World, id: nat, k: Key) {
    k in w.items && w.items[k].state.Stable? && w.items[k].home == Some(id)
  }

  ghost predicate Distinct(c: seq<nat>) {
    forall i, j :: 0 <= i < j < |c| ==> c[i] != c[j]
  }

  /** A chain is a nonempty acyclic list of live nodes of one digest; only its head is in the table. */
  ghost predicate ChainOk(w: World, h: HashPair)
    requires h in w.chains
  {
    var c := w.chains[h];
    && c != []
    && Distinct(c)
    && forall id :: id in c ==> id in w.nodes && w.nodes[id].hash == h
  }

  ghost predicate UnstableOk(w: World, h: HashPair)
    requires h in w.unstable
  {
    var k := w.unstable[h];
    k in w.items && w.items[k].state.Unstable? && w.items[k].oldHash == h
  }

  ghost predicate ChainsOk(w: World) {
    forall h :: h in w.chains ==> ChainOk(w, h)
  }

  ghost predicate Inv(w: World) {
    && (forall k :: k in w.items ==> ItemOk(w, k))
    && (forall id :: id in w.nodes ==> NodeOk(w, id))
    && ChainsOk(w)
    && (forall h :: h in w.unstable ==> UnstableOk(w, h))
  }

  ghost predicate PartnerOk(w: World, h: HashPair)
    requires h in w.unstable
  {
    && w.unstable[h] in w.items && w.items[w.unstable[h]].state.Unstable?
    && w.items[w.unstable[h]].oldHash == h && w.items[w.unstable[h]].lastAccess == w.iteration
  }

  ghost predicate HomesLive(w: World) {
    forall k :: k in w.items && w.items[k].state.Stable? ==> w.items[k].home.Some? && w.items[k].home.value in w.nodes
  }

  /** The part of the invariant that says where a merge can go. */
  ghost predicate Sane(w: World) {
    && HomesLive(w) && w.nextId !in w.nodes
    && (forall h :: h in w.unstable ==> PartnerOk(w, h))
    && (forall h, id :: h in w.chains && id in w.chains[h] && id in w.nodes ==> w.nodes[id].hash == h)
  }

  lemma InvSane(w: World)
    requires Inv(w)
    ensures Sane(w)
  {
    NextIdFresh(w);
    forall h | h in w.unstable ensures PartnerOk(w, h) {
      assert UnstableOk(w, h) && ItemOk(w, w.unstable[h]);
    }
    forall k | k in w.items && w.items[k].state.Stable?
      ensures w.items[k].home.Some? && w.items[k].home.value in w.nodes
    {
      assert ItemOk(w, k);
    }
    forall h, id | h in w.chains && id in w.chains[h] && id in w.nodes ensures w.nodes[id].hash == h {
      assert ChainOk(w, h);
    }
  }

  lemma NextIdFresh(w: World)
    requires Inv(w)
    ensures w.nextId !in w.nodes
  {
    assert w.nextId in w.nodes ==> NodeOk(w, w.nextId);
  }

  // ---------------------------------------------------------------- small steps

  /** Fields of an item that are neither its state, its digest nor its home are free. */
  lemma TouchKeepsInv(w: World, k: Key, it: Item)
    requires Inv(w) && k in w.items
    requires it.state == w.items[k].state && it.home == w.items[k].home
    requires it.oldHash == w.items[k].oldHash || it.state.Volatile?
    requires it.lastAccess == w.items[k].lastAccess
             || (it.lastAccess == w.iteration && !it.state.Unstable?)
    ensures Inv(SetItem(w, k, it))
  {
    var w' := SetItem(w, k, it);
    TouchKeepsNodes(w, k, it);
    assert forall h :: h in w.chains ==> ChainOk(w, h);
    assert forall h :: h in w.unstable ==> UnstableOk(w, h);
  }

  lemma TouchKeepsNodes(w: World, k: Key, it: Item)
    requires (forall id :: id in w.nodes ==> NodeOk(w, id)) && k in w.items
    requires it.state == w.items[k].state && it.home == w.items[k].home
    ensures forall id :: id in w.nodes ==> NodeOk(SetItem(w, k, it), id)
  {
    var w' := SetItem(w, k, it);
    forall id | id in w.nodes ensures NodeOk(w', id) {
      assert NodeOk(w, id);
      forall m | m in w.nodes[id].members ensures MemberOk(w', id, m) { assert MemberOk(w, id, m); }
    }
  }

  lemma LookupKeepsInv(w: World, p: Page)
    requires Inv(w)
    requires p.key in w.items ==> !w.items[p.key].state.Unstable?
    ensures Inv(Lookup(w, p))
    ensures p.key in Lookup(w, p).items && !Lookup(w, p).items[p.key].state.Unstable?
  {
    var w' := Lookup(w, p);
    forall id | id in w'.nodes ensures NodeOk(w', id) {
      assert NodeOk(w, id);
      assert forall m :: m in w.nodes[id].members ==> MemberOk(w, id, m);
    }
    forall k | k in w'.items ensures ItemOk(w', k) {
      if k in w.items { assert ItemOk(w, k); }
    }
    assert forall h :: h in w.chains ==> ChainOk(w, h);
    assert forall h :: h in w.unstable ==> UnstableOk(w, h);
  }

  lemma MergeIntoStableForm(w: World, k: Key, id: nat)
    requires k in w.items && w.items[k].state.Volatile?
    requires id in w.nodes && w.nodes[id].sharedCnt < MAX_PAGE_SHARING
    ensures var it, n := w.items[k], w.nodes[id];
      MergeIntoStable(w, k, id) == Running(w.(
        items := w.items[k := it.(state := Stable, oldHash := n.hash, oldPfn := it.pfn, pfn := n.pfn, home := Some(id))],
        nodes := w.nodes[id := n.(sharedCnt := n.sharedCnt + 1, members := n.members + {k})],
        log := w.log + [StableMerge(k, n.pfn, n.sharedCnt + 1)]))
  {
  }

  lemma MergeIntoStableKeepsInv(w: World, k: Key, id: nat)
    requires Inv(w) && k in w.items && w.items[k].state.Volatile?
    requires id in w.nodes && w.nodes[id].sharedCnt < MAX_PAGE_SHARING
    ensures MergeIntoStable(w, k, id).Running?
    ensures Inv(MergeIntoStable(w, k, id).world)
  {
    MergeIntoStableForm(w, k, id);
    var w' := MergeIntoStable(w, k, id).world;
    forall j | j in w'.nodes ensures NodeOk(w', j) { MergeIntoStableNode(w, k, id, w', j); }
    forall x | x in w'.items ensures ItemOk(w', x) { assert ItemOk(w, x); }
    forall h | h in w'.chains ensures ChainOk(w', h) { assert ChainOk(w, h); }
    forall h | h in w'.unstable ensures UnstableOk(w', h) { assert UnstableOk(w, h); }
  }

  lemma MergeIntoStableNode(w: World, k: Key, id: nat, w': World, j: nat)
    requires Inv(w) && k in w.items && w.items[k].state.Volatile?
    requires id in w.nodes && w.nodes[id].sharedCnt < MAX_PAGE_SHARING
    requires MergeIntoStable(w, k, id) == Running(w') && j in w.nodes
    ensures NodeOk(w', j)
  {
    MergeIntoStableForm(w, k, id);
    assert NodeOk(w, j);
    assert !MemberOk(w, j, k);
    assert k !in w.nodes[j].members;
    forall m | m in w'.nodes[j].members ensures MemberOk(w', j, m) {
      assert m != k ==> MemberOk(w, j, m);
    }
  }

  lemma BecomeUnstableKeepsInv(w: World, k: Key, h: HashPair)
    requires Inv(w) && k in w.items && w.items[k].state.Volatile? && w.items[k].lastAccess == w.iteration
    requires h !in w.unstable
    ensures BecomeUnstable(w, k, h).Running?
    ensures Inv(BecomeUnstable(w, k, h).world)
  {
    var w' := BecomeUnstable(w, k, h).world;
    forall j | j in w'.nodes ensures NodeOk(w', j) {
      assert NodeOk(w, j);
      assert forall m :: m in w.nodes[j].members ==> MemberOk(w, j, m);
    }
    forall x | x in w'.items ensures ItemOk(w', x) { assert ItemOk(w, x); }
    assert forall g :: g in w.chains ==> ChainOk(w, g);
    forall g | g in w'.unstable ensures UnstableOk(w', g) { assert g != h ==> UnstableOk(w, g); }
  }

  /** The two-page merge in closed form. */
  lemma MergeWithUnstableForm(w: World, k: Key, h: HashPair)
    requires Sane(w) && k in w.items && w.items[k].state.Volatile? && h in w.unstable
    ensures w.unstable[h] in w.items && w.unstable[h] != k
    ensures var partner, id, pfn := w.unstable[h], w.nextId, w.items[k].pfn;
      MergeWithUnstable(w, k, h) == Running(w.(
        items := w.items[partner := w.items[partner].(state := Stable, oldHash := h, oldPfn := w.items[partner].pfn, pfn := pfn, home := Some(id))]
                        [k := w.items[k].(state := Stable, oldHash := h, oldPfn := pfn, pfn := pfn, home := Some(id))],
        nodes := w.nodes[id := Node(h, 2, pfn, {partner, k})],
        chains := w.chains[h := (if h in w.chains then w.chains[h] else []) + [id]],
        unstable := w.unstable - {h},
        nextId := id + 1,
        log := w.log + [UnstableMerge(k, partner)]))
  {
    assert PartnerOk(w, h);
    var partner, id := w.unstable[h], w.nextId;
    var w1 := InsertNode(w.(unstable := w.unstable - {h}), h, w.items[k].pfn);
    var w2 := InsertItem(w1, id, partner).world;
    var w3 := InsertItem(w2, id, k).world;
    assert w3.nodes == w.nodes[id := Node(h, 2, w.items[k].pfn, {partner, k})] by {
      assert {} + {partner} + {k} == {partner, k};
    }
  }

  lemma MergeWithUnstableKeepsInv(w: World, k: Key, h: HashPair)
    requires Inv(w) && k in w.items && w.items[k].state.Volatile? && h in w.unstable && h != NULL_HASH
    ensures MergeWithUnstable(w, k, h).Running?
    ensures Inv(MergeWithUnstable(w, k, h).world)
  {
    InvSane(w);
    MergeWithUnstableForm(w, k, h);
    var w' := MergeWithUnstable(w, k, h).world;
    MergeWithUnstableNodes(w, k, h, w');
    MergeWithUnstableChains(w, k, h, w');
    MergeWithUnstableItems(w, k, h, w');
  }

  lemma MergeWithUnstableItems(w: World, k: Key, h: HashPair, w': World)
    requires Inv(w) && k in w.items && w.items[k].state.Volatile? && h in w.unstable
    requires MergeWithUnstable(w, k, h) == Running(w')
    ensures forall x :: x in w'.items ==> ItemOk(w', x)
    ensures forall g :: g in w'.unstable ==> UnstableOk(w', g)
  {
    InvSane(w);
    MergeWithUnstableForm(w, k, h);
    assert UnstableOk(w, h);
    forall x | x in w'.items ensures ItemOk(w', x) { assert ItemOk(w, x); }
    forall g | g in w'.unstable ensures UnstableOk(w', g) { assert UnstableOk(w, g); }
  }

  lemma MergeWithUnstableChains(w: World, k: Key, h: HashPair, w': World)
    requires Inv(w) && k in w.items && w.items[k].state.Volatile? && h in w.unstable
    requires MergeWithUnstable(w, k, h) == Running(w')
    ensures ChainsOk(w')
  {
    InvSane(w);
    MergeWithUnstableForm(w, k, h);
    forall g | g in w'.chains ensures ChainOk(w', g) {
      if g in w.chains { assert ChainOk(w, g); }
    }
  }

  lemma MergeWithUnstableNodes(w: World, k: Key, h: HashPair, w': World)
    requires Inv(w) && k in w.items && w.items[k].state.Volatile? && h in w.unstable && h != NULL_HASH
    requires MergeWithUnstable(w, k, h) == Running(w')
    ensures forall j :: j in w'.nodes ==> NodeOk(w', j)
  {
    InvSane(w);
    MergeWithUnstableForm(w, k, h);
    var id, partner := w.nextId, w.unstable[h];
    assert UnstableOk(w, h);
    forall j | j in w'.nodes ensures NodeOk(w', j) {
      if j == id {
        assert w'.nodes[j].members == {partner, k};
        assert w'.chains[h][|w'.chains[h]| - 1] == id;
      } else {
        assert NodeOk(w, j);
        assert !MemberOk(w, j, k) && !MemberOk(w, j, partner);
        assert forall m :: m in w.nodes[j].members ==> MemberOk(w, j, m);
        var g := w.nodes[j].hash;
        assert w.chains[g] <= w'.chains[g];
      }
    }
  }

  lemma MatchKeepsInv(w: World, k: Key, h: HashPair)
    requires Inv(w) && k in w.items && w.items[k].state.Volatile? && w.items[k].lastAccess == w.iteration
    requires h != NULL_HASH
    ensures Match(w, k, h).Running?
    ensures Inv(Match(w, k, h).world)
  {
    match CmpWithStable(w, h)
    case Some(id) => MergeIntoStableKeepsInv(w, k, id);
    case None =>
      if h in w.unstable { MergeWithUnstableKeepsInv(w, k, h); } else { BecomeUnstableKeepsInv(w, k, h); }
  }

  lemma MergeVolatileKeepsInv(w: World, k: Key, h: HashPair, smart: bool)
    requires Inv(w) && k in w.items && w.items[k].state.Volatile? && w.items[k].lastAccess == w.iteration
    requires h != NULL_HASH
    ensures MergeVolatile(w, k, h, smart).Running?
    ensures Inv(MergeVolatile(w, k, h, smart).world)
  {
    var it := Aged(w.items[k], smart);
    TouchKeepsInv(w, k, it);
    TouchKeepsInv(w, k, Calm(it));
    TouchKeepsInv(w, k, Remembered(it, h));
    if it.oldHash == h {
      MatchKeepsInv(SetItem(w, k, Calm(it)), k, h);
    }
  }

  // ---------------------------------------------------------------- leaving a node

  lemma WithoutFacts(c: seq<nat>, id: nat)
    requires Distinct(c) && id in c
    ensures Distinct(Without(c, id)) && id !in Without(c, id)
    ensures forall x :: x in Without(c, id) <==> x in c && x != id
  {
    var i := IndexOf(c, id);
    var d := Without(c, id);
    forall x | x in c && x != id ensures x in d {
      var j :| 0 <= j < |c| && c[j] == x;
      assert d[if j < i then j else j - 1] == x;
    }
  }

  /** A world that is fine but for one node that no Stable item is at. */
  ghost predicate DesertedInv(w: World, id: nat) {
    && id in w.nodes
    && (forall k :: k in w.items && w.items[k].state.Stable? ==> w.items[k].home != Some(id))
    && w.nodes[id].hash in w.chains && id in w.chains[w.nodes[id].hash]
    && (forall k :: k in w.items ==> ItemOk(w, k))
    && (forall j :: j in w.nodes && j != id ==> NodeOk(w, j))
    && ChainsOk(w)
    && (forall h :: h in w.unstable ==> UnstableOk(w, h))
  }

  lemma RemoveNodeRestoresInv(w: World, id: nat)
    requires DesertedInv(w, id)
    ensures RemoveNode(w, id).Running?
    ensures Inv(RemoveNode(w, id).world)
    ensures id !in RemoveNode(w, id).world.nodes
  {
    var h := w.nodes[id].hash;
    assert ChainOk(w, h);
    var c := w.chains[h];
    WithoutFacts(c, id);
    var w' := RemoveNode(w, id).world;
    forall j | j in w'.nodes ensures NodeOk(w', j) {
      assert NodeOk(w, j);
      forall m | m in w.nodes[j].members ensures MemberOk(w', j, m) { assert MemberOk(w, j, m); }
      if w.nodes[j].hash == h { assert j in Without(c, id); }
    }
    forall x | x in w'.items ensures ItemOk(w', x) { assert ItemOk(w, x); }
    forall g | g in w'.chains ensures ChainOk(w', g) { assert ChainOk(w, g); }
    forall g | g in w'.unstable ensures UnstableOk(w', g) { assert UnstableOk(w, g); }
  }

  function Left(w: World, k: Key, id: nat, it: Item): World
    requires id in w.nodes
  {
    SetItem(RemoveItem(w, id, k).world, k, it)
  }

  /** A member leaves its node; the node is deserted or still fine. */
  lemma LeaveNode(w: World, k: Key, it: Item)
    requires Inv(w) && k in w.items && w.items[k].state.Stable?
    requires it.state.Volatile? && it.lastAccess <= w.iteration
    ensures w.items[k].home.Some? && w.items[k].home.value in w.nodes
    ensures var id := w.items[k].home.value;
      var w' := Left(w, k, id, it);
      if w.nodes[id].sharedCnt == 1 then DesertedInv(w', id) else Inv(w')
  {
    assert ItemOk(w, k);
    var id := w.items[k].home.value;
    assert NodeOk(w, id);
    var w' := Left(w, k, id, it);
    var n := w.nodes[id];
    assert |n.members - {k}| == |n.members| - 1;
    forall j | j in w'.nodes && (j != id || n.sharedCnt > 1) ensures NodeOk(w', j) {
      assert NodeOk(w, j);
      forall m | m in w'.nodes[j].members ensures MemberOk(w', j, m) {
        assert MemberOk(w, j, m);
      }
    }
    forall x | x in w'.items ensures ItemOk(w', x) { assert ItemOk(w, x); }
    forall g | g in w'.chains ensures ChainOk(w', g) { assert ChainOk(w, g); }
    forall g | g in w'.unstable ensures UnstableOk(w', g) { assert UnstableOk(w, g); }
  }

  lemma LogKeepsInv(w: World, e: seq<LogEntry>)
    requires Inv(w)
    ensures Inv(w.(log := w.log + e))
  {
    var w' := w.(log := w.log + e);
    forall j | j in w'.nodes ensures NodeOk(w', j) {
      assert NodeOk(w, j);
      forall m | m in w.nodes[j].members ensures MemberOk(w', j, m) { assert MemberOk(w, j, m); }
    }
    forall x | x in w'.items ensures ItemOk(w', x) { assert ItemOk(w, x); }
    forall g | g in w'.chains ensures ChainOk(w', g) { assert ChainOk(w, g); }
    forall g | g in w'.unstable ensures UnstableOk(w', g) { assert UnstableOk(w, g); }
  }

  lemma LogKeepsDeserted(w: World, id: nat, e: seq<LogEntry>)
    requires DesertedInv(w, id)
    ensures DesertedInv(w.(log := w.log + e), id)
  {
    var w' := w.(log := w.log + e);
    forall j | j in w'.nodes && j != id ensures NodeOk(w', j) {
      assert NodeOk(w, j);
      forall m | m in w.nodes[j].members ensures MemberOk(w', j, m) { assert MemberOk(w, j, m); }
    }
    forall x | x in w'.items ensures ItemOk(w', x) { assert ItemOk(w, x); }
    forall g | g in w'.chains ensures ChainOk(w', g) { assert ChainOk(w, g); }
    forall g | g in w'.unstable ensures UnstableOk(w', g) { assert UnstableOk(w, g); }
  }

  /** A member that leaves takes an emptied node with it and logs that node. */
  function Leave(w: World, k: Key, id: nat, it: Item, e: seq<LogEntry>): Outcome
    requires id in w.nodes
  {
    var w2 := Left(w, k, id, it);
    if w2.nodes[id].sharedCnt == 0 then RemoveStaleAndLog(w2, id, k) else Running(w2.(log := w.log + e))
  }

  lemma LeaveLastKeepsInv(w: World, k: Key, id: nat)
    requires DesertedInv(w, id)
    ensures var o := RemoveStaleAndLog(w, id, k);
      o.Running? && Inv(o.world) && o.world.items == w.items && o.world.iteration == w.iteration
  {
    var e := StaleStableNode(k, w.nodes[id].pfn);
    LogKeepsDeserted(w, id, [e]);
    RemoveNodeRestoresInv(Log(w, e), id);
  }

  lemma LeaveKeepsInv(w: World, k: Key, it: Item, e: seq<LogEntry>)
    requires Inv(w) && k in w.items && w.items[k].state.Stable?
    requires it.state.Volatile? && it.lastAccess <= w.iteration
    ensures w.items[k].home.Some? && w.items[k].home.value in w.nodes
    ensures var o := Leave(w, k, w.items[k].home.value, it, e);
      o.Running? && Inv(o.world) && o.world.items == w.items[k := it] && o.world.iteration == w.iteration
  {
    LeaveNode(w, k, it);
    var id := w.items[k].home.value;
    var w2 := Left(w, k, id, it);
    LeaveForm(w, k, id, it, e);
    if w.nodes[id].sharedCnt == 1 {
      LeaveLastKeepsInv(w2, k, id);
    } else {
      LogKeepsInv(w2, e);
    }
  }

  lemma LeaveForm(w: World, k: Key, id: nat, it: Item, e: seq<LogEntry>)
    requires id in w.nodes
    ensures var w2 := Left(w, k, id, it);
      && w2.items == w.items[k := it] && w2.iteration == w.iteration
      && Leave(w, k, id, it, e)
         == if w.nodes[id].sharedCnt == 1 then RemoveStaleAndLog(w2, id, k) else Running(w2.(log := w2.log + e))
  {
  }

  lemma SplitIsLeave(w: World, k: Key, id: nat)
    requires Inv(w) && k in w.items && w.items[k].state.Stable? && w.items[k].home == Some(id) && id in w.nodes
    ensures var n := w.nodes[id];
      var o := Leave(w, k, id, ResetValue(w.items[k]), [ItemStateChange(k, n.pfn, n.sharedCnt - 1)]);
      o.Running? && Split(w, k, id) == Running(SetItem(o.world, k, Agitate(ResetValue(w.items[k]))))
  {
    var n := w.nodes[id];
    LeaveKeepsInv(w, k, ResetValue(w.items[k]), [ItemStateChange(k, n.pfn, n.sharedCnt - 1)]);
  }

  lemma SplitKeepsInv(w: World, k: Key, id: nat)
    requires Inv(w) && k in w.items && w.items[k].state.Stable? && w.items[k].home == Some(id)
    ensures var o := Split(w, k, id);
      && o.Running? && Inv(o.world) && o.world.items == w.items[k := Agitate(ResetValue(w.items[k]))]
      && o.world.iteration == w.iteration
  {
    assert ItemOk(w, k);
    SplitIsLeave(w, k, id);
    var it := ResetValue(w.items[k]);
    var e := [ItemStateChange(k, w.nodes[id].pfn, w.nodes[id].sharedCnt - 1)];
    LeaveKeepsInv(w, k, it, e);
    TouchKeepsInv(Leave(w, k, id, it, e).world, k, Agitate(it));
  }

  // ---------------------------------------------------------------- re-keying a chain

  /** In a good world the items under a chain are exactly the Stable items with its digest. */
  lemma ChainMembers(w: World, h: HashPair, k: Key)
    requires Inv(w) && h in w.chains
    ensures InChain(w, w.chains[h], k) <==> k in w.items && w.items[k].state.Stable? && w.items[k].oldHash == h
  {
    assert ChainOk(w, h);
    if k in w.items { assert ItemOk(w, k); }
    if InChain(w, w.chains[h], k) {
      var id :| id in w.chains[h] && id in w.nodes && k in w.nodes[id].members;
      assert NodeOk(w, id);
      assert MemberOk(w, id, k);
    }
    if k in w.items && w.items[k].state.Stable? && w.items[k].oldHash == h {
      var id := w.items[k].home.value;
      assert NodeOk(w, id);
      assert id in w.chains[h] && k in w.nodes[id].members;
    }
  }

  lemma RekeyRuns(w: World, h: HashPair, h': HashPair)
    requires Inv(w) && h in w.chains
    ensures Rekey(w, h, h').Running?
  {
    forall k ensures InChain(w, w.chains[h], k) ==> k in w.items && w.items[k].state.Stable? {
      ChainMembers(w, h, k);
    }
  }

  function RekeyedItem(it: Item, h: HashPair, h': HashPair): Item {
    if it.state.Stable? && it.oldHash == h then it.(oldHash := h') else it
  }

  function RekeyedNode(n: Node, h: HashPair, h': HashPair): Node {
    if n.hash == h then n.(hash := h') else n
  }

  lemma RekeyParts(w: World, h: HashPair, h': HashPair)
    requires Inv(w) && h in w.chains
    ensures Rekey(w, h, h').Running?
    ensures var w' := Rekey(w, h, h').world;
      && w'.items.Keys == w.items.Keys && w'.nodes.Keys == w.nodes.Keys
      && (forall k :: k in w.items ==> w'.items[k] == RekeyedItem(w.items[k], h, h'))
      && (forall id :: id in w.nodes ==> w'.nodes[id] == RekeyedNode(w.nodes[id], h, h'))
  {
    RekeyRuns(w, h, h');
    var w' := Rekey(w, h, h').world;
    var c := w.chains[h];
    assert ChainOk(w, h);
    forall k | k in w.items
      ensures w'.items[k] == RekeyedItem(w.items[k], h, h')
    {
      ChainMembers(w, h, k);
    }
    forall id | id in w.nodes
      ensures w'.nodes[id] == RekeyedNode(w.nodes[id], h, h')
    {
      assert NodeOk(w, id);
    }
  }

  /**
   Nothing but the digests of one chain, of its items and of its table entry changes: the chain is
   found at the new digest and no longer at the old one.
   */
  lemma RekeyForm(w: World, h: HashPair, h': HashPair)
    requires Inv(w) && h in w.chains
    ensures Rekey(w, h, h').Running?
    ensures var w' := Rekey(w, h, h').world;
      && w'.items.Keys == w.items.Keys && w'.nodes.Keys == w.nodes.Keys
      && (forall k :: k in w.items ==> w'.items[k] == RekeyedItem(w.items[k], h, h'))
      && (forall id :: id in w.nodes ==> w'.nodes[id] == RekeyedNode(w.nodes[id], h, h'))
      && h' in w'.chains && w'.chains[h'] == w.chains[h] && (h' != h ==> h !in w'.chains)
      && (forall g :: g != h && g != h' ==> (g in w'.chains <==> g in w.chains) && (g in w.chains ==> w'.chains[g] == w.chains[g]))
      && w' == w.(items := w'.items, nodes := w'.nodes, chains := w'.chains)
  {
    RekeyParts(w, h, h');
  }

  lemma RekeyKeepsChains(w: World, h: HashPair, h': HashPair)
    requires Inv(w) && h in w.chains
    ensures Rekey(w, h, h').Running? && ChainsOk(Rekey(w, h, h').world)
  {
    RekeyParts(w, h, h');
    var w' := Rekey(w, h, h').world;
    forall g | g in w'.chains ensures ChainOk(w', g) {
      assert ChainOk(w, h);
      if g != h' { assert ChainOk(w, g); }
    }
  }

  lemma RekeyKeepsNodes(w: World, h: HashPair, h': HashPair)
    requires Inv(w) && h in w.chains && h' != NULL_HASH
    requires h' !in w.chains || h' == h
    ensures Rekey(w, h, h').Running?
    ensures forall id :: id in w.nodes ==> NodeOk(Rekey(w, h, h').world, id)
  {
    RekeyParts(w, h, h');
    var w' := Rekey(w, h, h').world;
    forall id | id in w.nodes ensures NodeOk(w', id) {
      assert NodeOk(w, id);
      forall m | m in w'.nodes[id].members ensures MemberOk(w', id, m) { assert MemberOk(w, id, m); }
    }
  }

  lemma RekeyKeepsInv(w: World, h: HashPair, h': HashPair)
    requires Inv(w) && h in w.chains && h' != NULL_HASH
    requires h' !in w.chains || h' == h
    ensures Rekey(w, h, h').Running? && Inv(Rekey(w, h, h').world)
  {
    RekeyParts(w, h, h');
    RekeyKeepsNodes(w, h, h');
    RekeyKeepsChains(w, h, h');
    RekeyKeepsItems(w, h, h');
  }

  lemma RekeyKeepsItems(w: World, h: HashPair, h': HashPair)
    requires Inv(w) && h in w.chains
    ensures Rekey(w, h, h').Running?
    ensures forall k :: k in w.items ==> ItemOk(Rekey(w, h, h').world, k)
    ensures forall g :: g in w.unstable ==> UnstableOk(Rekey(w, h, h').world, g)
  {
    RekeyParts(w, h, h');
    var w' := Rekey(w, h, h').world;
    forall k | k in w.items ensures ItemOk(w', k) { assert ItemOk(w, k); }
    forall g | g in w.unstable ensures UnstableOk(w', g) { assert UnstableOk(w, g); }
  }

  /** The node is there with its digest, but the table does not find it under that digest. */
  ghost predicate Loses(w: World, id: nat, h: HashPair) {
    id in w.nodes && w.nodes[id].hash == h && h in w.chains && id !in w.chains[h]
  }

  lemma LosesNotInv(w: World, id: nat, h: HashPair)
    requires Loses(w, id, h)
    ensures !Inv(w)
  {
    assert !NodeOk(w, id);
  }

  lemma RekeyLosesChain(w: World, h: HashPair, h': HashPair)
    requires Inv(w) && h in w.chains && h' in w.chains && h' != h
    ensures Rekey(w, h, h').Running? && w.chains[h'] != []
    ensures Loses(Rekey(w, h, h').world, w.chains[h'][0], h')
  {
    RekeyParts(w, h, h');
    assert ChainOk(w, h') && ChainOk(w, h);
    var lost := w.chains[h'][0];
    assert lost in w.chains[h'];
    assert lost !in w.chains[h];
  }

  /**
   The exact condition: the re-key is sound iff no other chain is already at the new digest.
   Otherwise that chain loses its table entry while its nodes still have sharing items.
   */
  lemma RekeySoundIff(w: World, h: HashPair, h': HashPair)
    requires Inv(w) && h in w.chains && h' != NULL_HASH
    ensures Rekey(w, h, h').Running?
    ensures Inv(Rekey(w, h, h').world) <==> (h' !in w.chains || h' == h)
  {
    if h' !in w.chains || h' == h {
      RekeyKeepsInv(w, h, h');
    } else {
      RekeyLosesChain(w, h, h');
      LosesNotInv(Rekey(w, h, h').world, w.chains[h'][0], h');
    }
  }

  // ---------------------------------------------------------------- one page of a scan

  /** The page's item has not been scanned in this iteration. */
  ghost predicate Unscanned(w: World, k: Key) {
    k in w.items ==> w.items[k].lastAccess < w.iteration
  }

  /** If this page re-keys a chain, no other chain is at the page's digest. */
  ghost predicate NoCollision(w: World, p: Page) {
    Rekeys(w, p.key, p.hash, p.kpfn) ==> p.hash !in w.chains
  }

  ghost predicate Rekeys(w: World, k: Key, h: HashPair, kpfn: nat) {
    && k in w.items && w.items[k].state.Stable? && w.items[k].oldHash != h
    && w.items[k].home.Some? && w.items[k].home.value in w.nodes
    && w.nodes[w.items[k].home.value].pfn == kpfn
  }

  ghost predicate LegalPage(w: World, p: Page) {
    p.hash != NULL_HASH && Unscanned(w, p.key)
  }

  /** A Stable page still on its node's frame: at most a re-key, and the item calms down. */
  lemma StableInPlaceForm(w: World, k: Key, h: HashPair, smart: bool)
    requires Inv(w) && k in w.items && w.items[k].state.Stable?
    requires w.items[k].home.Some? && w.items[k].home.value in w.nodes
    requires w.nodes[w.items[k].home.value].pfn == w.items[k].pfn
    ensures var g := w.nodes[w.items[k].home.value].hash;
      && g == w.items[k].oldHash && g in w.chains
      && (h == g ==> MergeOne(w, k, h, smart) == Running(SetItem(w, k, Calm(w.items[k]))))
      && (h != g ==>
        && Rekey(w, g, h).Running? && k in Rekey(w, g, h).world.items
        && Rekey(w, g, h).world.items[k] == w.items[k].(oldHash := h)
        && MergeOne(w, k, h, smart) ==
             Running(SetItem(Rekey(w, g, h).world, k, Calm(Rekey(w, g, h).world.items[k]))))
  {
    assert ItemOk(w, k);
    var g := w.nodes[w.items[k].home.value].hash;
    assert NodeOk(w, w.items[k].home.value);
    RekeyParts(w, g, h);
  }

  lemma MergeOneKeepsInv(w: World, k: Key, h: HashPair, smart: bool)
    requires Inv(w) && k in w.items && !w.items[k].state.Unstable? && w.items[k].lastAccess == w.iteration
    requires h != NULL_HASH
    requires Rekeys(w, k, h, w.items[k].pfn) ==> h !in w.chains
    ensures MergeOne(w, k, h, smart).Running?
    ensures Inv(MergeOne(w, k, h, smart).world)
  {
    assert ItemOk(w, k);
    var it := w.items[k];
    if it.state.Volatile? {
      MergeVolatileKeepsInv(w, k, h, smart);
    } else {
      var id := it.home.value;
      assert NodeOk(w, id);
      if w.nodes[id].pfn != it.pfn {
        SplitKeepsInv(w, k, id);
        MergeVolatileKeepsInv(Split(w, k, id).world, k, h, smart);
      } else {
        if h != it.oldHash { RekeyKeepsInv(w, w.nodes[id].hash, h); RekeyParts(w, w.nodes[id].hash, h); }
        var w1 := if h != it.oldHash then Rekey(w, w.nodes[id].hash, h).world else w;
        TouchKeepsInv(w1, k, Calm(w1.items[k]));
      }
    }
  }

  // ---------------------------------------------------------------- the unoptimised variant

  lemma MergeVolatileOldKeepsInv(w: World, k: Key, h: HashPair)
    requires Inv(w) && k in w.items && w.items[k].state.Volatile? && w.items[k].lastAccess == w.iteration
    requires h != NULL_HASH
    ensures MergeVolatileOld(w, k, h).Running? && Inv(MergeVolatileOld(w, k, h).world)
  {
    match CmpWithStable(w, h)
    case Some(id) => MergeIntoStableKeepsInv(w, k, id);
    case None =>
      if w.items[k].oldHash != h {
        TouchKeepsInv(w, k, w.items[k].(oldHash := h));
      } else if h in w.unstable {
        MergeWithUnstableKeepsInv(w, k, h);
      } else {
        BecomeUnstableKeepsInv(w, k, h);
      }
  }

  lemma SplitOldKeepsInv(w: World, k: Key, id: nat)
    requires Inv(w) && k in w.items && w.items[k].state.Stable? && w.items[k].home == Some(id)
    ensures var o := SplitOld(w, k, id);
      && o.Running? && Inv(o.world) && k in o.world.items && o.world.items[k].state.Volatile?
      && o.world.items[k].lastAccess == w.items[k].lastAccess && o.world.iteration == w.iteration
  {
    SplitKeepsInv(w, k, id);
    var w1 := Split(w, k, id).world;
    TouchKeepsInv(w1, k, w1.items[k].(score := w.items[k].score));
  }

  /** The variant without smart scan keeps the same invariant under the same assumptions. */
  lemma MergeOneOldKeepsInv(w: World, k: Key, h: HashPair)
    requires Inv(w) && k in w.items && !w.items[k].state.Unstable? && w.items[k].lastAccess == w.iteration
    requires h != NULL_HASH && (Rekeys(w, k, h, w.items[k].pfn) ==> h !in w.chains)
    ensures MergeOneOld(w, k, h).Running? && Inv(MergeOneOld(w, k, h).world)
  {
    assert ItemOk(w, k);
    if w.items[k].state.Volatile? {
      MergeVolatileOldKeepsInv(w, k, h);
    } else {
      var id := w.items[k].home.value;
      assert NodeOk(w, id);
      if w.nodes[id].pfn != w.items[k].pfn {
        SplitOldKeepsInv(w, k, id);
        MergeVolatileOldKeepsInv(SplitOld(w, k, id).world, k, h);
      } else if h != w.items[k].oldHash {
        RekeyKeepsInv(w, w.nodes[id].hash, h);
      }
    }
  }

  // ---------------------------------------------------------------- a page, in any configuration

  /** No fatal stop is reached by a legal page, and the invariant holds after it. */
  lemma ScanKeepsInv(w: World, p: Page, mode: Mode)
    requires Inv(w) && LegalPage(w, p) && NoCollision(w, p)
    ensures Scan(w, p, mode).Running?
    ensures Inv(Scan(w, p, mode).world)
  {
    if p.key in w.items { assert ItemOk(w, p.key); }
    LookupKeepsInv(w, p);
    if mode.Old? {
      MergeOneOldKeepsInv(Lookup(w, p), p.key, p.hash);
    } else {
      MergeOneKeepsInv(Lookup(w, p), p.key, p.hash, mode.Smart?);
    }
  }

  /** The exact condition for one page: the invariant survives iff the page does not re-key one chain onto another. */
  lemma ScanSoundIff(w: World, p: Page, mode: Mode)
    requires Inv(w) && LegalPage(w, p)
    ensures Scan(w, p, mode).Running?
    ensures Inv(Scan(w, p, mode).world) <==> NoCollision(w, p)
  {
    if NoCollision(w, p) {
      ScanKeepsInv(w, p, mode);
    } else {
      CollisionLosesChain(w, p, mode);
    }
  }

  lemma ScanRekeys(w: World, p: Page, mode: Mode)
    requires Inv(w) && LegalPage(w, p) && Rekeys(w, p.key, p.hash, p.kpfn)
    ensures var w1, g := Lookup(w, p), w.nodes[w.items[p.key].home.value].hash;
      && Inv(w1) && g in w1.chains && g != p.hash && w1.chains == w.chains
      && Rekey(w1, g, p.hash).Running? && Scan(w, p, mode).Running?
      && Scan(w, p, mode).world.nodes == Rekey(w1, g, p.hash).world.nodes
      && Scan(w, p, mode).world.chains == Rekey(w1, g, p.hash).world.chains
  {
    LookupKeepsInv(w, p);
    StableInPlaceForm(Lookup(w, p), p.key, p.hash, mode.Smart?);
  }

  lemma CollisionLosesChain(w: World, p: Page, mode: Mode)
    requires Inv(w) && LegalPage(w, p) && !NoCollision(w, p)
    ensures Scan(w, p, mode).Running? && !Inv(Scan(w, p, mode).world)
    ensures w.chains[p.hash] != [] && Loses(Scan(w, p, mode).world, w.chains[p.hash][0], p.hash)
  {
    var g := w.nodes[w.items[p.key].home.value].hash;
    ScanRekeys(w, p, mode);
    RekeyLosesChain(Lookup(w, p), g, p.hash);
    LosesNotInv(Scan(w, p, mode).world, w.chains[p.hash][0], p.hash);
  }
}
