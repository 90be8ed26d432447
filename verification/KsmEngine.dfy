/**
 The deduplication engine as the server runs it.

 Items are records found by key and nodes are records found by address, written in place; a node
 is reached through the next and prev addresses of its chain and through the table entry of the
 chain's head. The ghost field chains lists the addresses along each chain, Linked() says that the
 pointers agree with it, and every method equates the new model with a function of the old one.
 */
module KsmEngine {
  import opened Wrappers
  import opened KsmTypes
  import opened KsmSpec
  import opened KsmInvariant
  import opened KsmIterations

  /** The chain part of a node. */
  datatype Link = Link(kind: ChainType, next: Option<nat>, prev: Option<nat>)

  /** What the pointers of the i-th node of a chain must be. */
  function LinkAt(c: seq<nat>, i: nat): Link
    requires i < |c|
  {
    Link(if i == 0 then Head else Chain,
         if i + 1 < |c| then Some(c[i + 1]) else None,
         if i > 0 then Some(c[i - 1]) else None)
  }

  predicate LinkOk(c: seq<nat>, i: nat, links: map<nat, Link>)
    requires i < |c|
  {
    c[i] in links && links[c[i]] == LinkAt(c, i)
  }

  ghost predicate ChainLinked(c: seq<nat>, links: map<nat, Link>) {
    forall i :: 0 <= i < |c| ==> LinkOk(c, i, links)
  }

  ghost predicate HeadsIn(chains: map<HashPair, seq<nat>>, stable: map<HashPair, nat>) {
    stable.Keys == chains.Keys && forall h :: h in chains ==> chains[h] != [] && stable[h] == chains[h][0]
  }

  /** The table holds exactly the heads, and the pointers run along every chain. */
  ghost predicate PointersOk(chains: map<HashPair, seq<nat>>, stable: map<HashPair, nat>, links: map<nat, Link>) {
    HeadsIn(chains, stable) && forall h :: h in chains ==> ChainLinked(chains[h], links)
  }

  // ---------------------------------------------------------------- pointer lemmas

  lemma AppendLinked(c: seq<nat>, links: map<nat, Link>, id: nat)
    requires ChainLinked(c, links) && Distinct(c) && id !in c && c != []
    requires LinkOk(c, |c| - 1, links)
    ensures var last := c[|c| - 1];
      ChainLinked(c + [id], links[last := links[last].(next := Some(id))][id := Link(Chain, None, Some(last))])
  {
    var last := c[|c| - 1];
    var links' := links[last := links[last].(next := Some(id))][id := Link(Chain, None, Some(last))];
    var d := c + [id];
    forall i | 0 <= i < |d| ensures LinkOk(d, i, links') {
      if i < |c| {
        assert d[i] == c[i] && c[i] in c && LinkOk(c, i, links);
      }
    }
  }

  lemma OtherChainLinked(c: seq<nat>, links: map<nat, Link>, links': map<nat, Link>)
    requires ChainLinked(c, links)
    requires forall id :: id in c && id in links ==> id in links' && links'[id] == links[id]
    ensures ChainLinked(c, links')
  {
    forall i | 0 <= i < |c| ensures LinkOk(c, i, links') { assert LinkOk(c, i, links); }
  }

  lemma ChainsApart(w: World, g: HashPair, h: HashPair, id: nat)
    requires ChainsOk(w) && g in w.chains && h in w.chains && g != h && id in w.chains[g]
    ensures id !in w.chains[h]
  {
    assert ChainOk(w, g) && ChainOk(w, h);
  }

  lemma AppendPointers(w: World, stable: map<HashPair, nat>, links: map<nat, Link>, h: HashPair, pfn: nat, last: nat)
    requires ChainsOk(w) && PointersOk(w.chains, stable, links) && h in w.chains && w.nextId !in w.nodes
    requires last == w.chains[h][|w.chains[h]| - 1]
    ensures last in w.nodes && last in links
    ensures PointersOk(InsertNode(w, h, pfn).chains, stable,
              links[last := links[last].(next := Some(w.nextId))][w.nextId := Link(Chain, None, Some(last))])
  {
    var c, id := w.chains[h], w.nextId;
    assert ChainOk(w, h);
    assert last in c && LinkOk(c, |c| - 1, links);
    AppendLinked(c, links, id);
    var links' := links[last := links[last].(next := Some(id))][id := Link(Chain, None, Some(last))];
    forall g | g in w.chains && g != h ensures ChainLinked(w.chains[g], links') {
      assert ChainOk(w, g);
      ChainsApart(w, h, g, last);
      OtherChainLinked(w.chains[g], links, links');
    }
  }

  lemma FreshPointers(w: World, stable: map<HashPair, nat>, links: map<nat, Link>, h: HashPair, pfn: nat)
    requires ChainsOk(w) && PointersOk(w.chains, stable, links) && h !in w.chains && w.nextId !in w.nodes
    ensures PointersOk(InsertNode(w, h, pfn).chains, stable[h := w.nextId], links[w.nextId := Link(Head, None, None)])
  {
    var id := w.nextId;
    var links' := links[id := Link(Head, None, None)];
    assert ChainLinked([id], links');
    assert [] + [id] == [id];
    forall g | g in w.chains ensures ChainLinked(w.chains[g], links') {
      assert ChainOk(w, g);
      OtherChainLinked(w.chains[g], links, links');
    }
  }

  /** The chain part of a node taken out: its neighbours are joined, and a new head is marked as one. */
  function Unlinked(links: map<nat, Link>, id: nat): map<nat, Link>
    requires id in links
  {
    var l := links[id];
    var a :=
      if l.kind.Chain? && l.prev.Some? && l.prev.value in links
      then links[l.prev.value := links[l.prev.value].(next := l.next)] else links;
    var b :=
      if l.next.Some? && l.next.value in a
      then a[l.next.value := a[l.next.value].(prev := l.prev, kind := if l.kind.Head? then Head else a[l.next.value].kind)]
      else a;
    b - {id}
  }

  lemma UnlinkOne(c: seq<nat>, i: nat, links: map<nat, Link>, j: nat)
    requires ChainLinked(c, links) && Distinct(c) && i < |c| && LinkOk(c, i, links)
    requires j < |c| - 1
    ensures LinkOk(c[..i] + c[i + 1..], j, Unlinked(links, c[i]))
  {
    var d := c[..i] + c[i + 1..];
    var o := if j < i then j else j + 1;
    assert d[j] == c[o] && LinkOk(c, o, links);
    assert i > 0 ==> LinkOk(c, i - 1, links);
    assert i + 1 < |c| ==> LinkOk(c, i + 1, links);
  }

  lemma UnlinkChain(c: seq<nat>, i: nat, links: map<nat, Link>)
    requires ChainLinked(c, links) && Distinct(c) && i < |c|
    ensures c[i] in links
    ensures ChainLinked(c[..i] + c[i + 1..], Unlinked(links, c[i]))
    ensures forall id :: id in links && id !in c ==> id in Unlinked(links, c[i]) && Unlinked(links, c[i])[id] == links[id]
  {
    assert LinkOk(c, i, links);
    var d := c[..i] + c[i + 1..];
    forall j | 0 <= j < |d| ensures LinkOk(d, j, Unlinked(links, c[i])) { UnlinkOne(c, i, links, j); }
    assert i > 0 ==> c[i - 1] in c;
    assert i + 1 < |c| ==> c[i + 1] in c;
  }

  /** The table after the removal of a node: only the removal of a head changes it. */
  function TableWithout(stable: map<HashPair, nat>, h: HashPair, l: Link): map<HashPair, nat> {
    if l.kind.Chain? then stable
    else if l.next.Some? then (stable - {h})[h := l.next.value]
    else stable - {h}
  }

  lemma RemoveNodeChainsOk(w: World, id: nat)
    requires ChainsOk(w) && RemoveNode(w, id).Running?
    ensures ChainsOk(RemoveNode(w, id).world)
  {
    var w' := RemoveNode(w, id).world;
    assert ChainOk(w, w.nodes[id].hash);
    WithoutFacts(w.chains[w.nodes[id].hash], id);
    forall g | g in w'.chains ensures ChainOk(w', g) { assert ChainOk(w, g); }
  }

  lemma RemovePointers(w: World, stable: map<HashPair, nat>, links: map<nat, Link>, id: nat)
    requires ChainsOk(w) && PointersOk(w.chains, stable, links) && links.Keys == w.nodes.Keys && RemoveNode(w, id).Running?
    ensures ChainsOk(RemoveNode(w, id).world)
    ensures PointersOk(RemoveNode(w, id).world.chains, TableWithout(stable, w.nodes[id].hash, links[id]), Unlinked(links, id))
    ensures Unlinked(links, id).Keys == w.nodes.Keys - {id}
  {
    var c := w.chains[w.nodes[id].hash];
    assert LinkOk(c, IndexOf(c, id), links);
    RemoveNodeChainsOk(w, id);
    UnlinkOwn(w, links, id);
    UnlinkOthers(w, links, id);
    RemovedTable(w.chains, stable, w.nodes[id].hash, id, links[id]);
  }

  /** What is left of the node's chain is linked, and no node but this one loses its links. */
  lemma UnlinkOwn(w: World, links: map<nat, Link>, id: nat)
    requires ChainsOk(w) && RemoveNode(w, id).Running? && id in links
    requires links.Keys == w.nodes.Keys && ChainLinked(w.chains[w.nodes[id].hash], links)
    ensures ChainLinked(Without(w.chains[w.nodes[id].hash], id), Unlinked(links, id))
    ensures Unlinked(links, id).Keys == w.nodes.Keys - {id}
  {
    var c := w.chains[w.nodes[id].hash];
    var i := IndexOf(c, id);
    assert ChainOk(w, w.nodes[id].hash);
    UnlinkChain(c, i, links);
    assert LinkOk(c, i, links);
    assert i > 0 ==> c[i - 1] in c;
    assert i + 1 < |c| ==> c[i + 1] in c;
  }

  lemma RemovedTable(chains: map<HashPair, seq<nat>>, stable: map<HashPair, nat>, h: HashPair, id: nat, link: Link)
    requires HeadsIn(chains, stable) && h in chains && id in chains[h]
    requires link == LinkAt(chains[h], IndexOf(chains[h], id))
    ensures var c := Without(chains[h], id);
      HeadsIn(if c == [] then chains - {h} else chains[h := c], TableWithout(stable, h, link))
  {
  }

  /** No chain but the node's own sees the unlinking. */
  lemma UnlinkOthers(w: World, links: map<nat, Link>, id: nat)
    requires ChainsOk(w) && RemoveNode(w, id).Running? && id in links
    requires forall g :: g in w.chains ==> ChainLinked(w.chains[g], links)
    ensures forall g :: g in w.chains && g != w.nodes[id].hash ==> ChainLinked(w.chains[g], Unlinked(links, id))
  {
    var h := w.nodes[id].hash;
    var c := w.chains[h];
    assert ChainOk(w, h);
    UnlinkChain(c, IndexOf(c, id), links);
    forall g | g in w.chains && g != h ensures ChainLinked(w.chains[g], Unlinked(links, id)) {
      assert ChainOk(w, g);
      forall x | x in w.chains[g] ensures x !in c { ChainsApart(w, g, h, x); }
      OtherChainLinked(w.chains[g], links, Unlinked(links, id));
    }
  }

  /** Only with smart scan, and never an item that is Stable or in no state. */
  predicate MaySkip(item: Item, smart: bool) {
    smart && !item.state.NoState? && !item.state.Stable?
  }

  /** The stale keys of a tree walk, each put in front of those before it. */
  function StaleInReverse(w: World, tree: seq<Key>): seq<Key> {
    if tree == [] then []
    else
      var k := tree[|tree| - 1];
      (if k in StaleKeys(w) then [k] else []) + StaleInReverse(w, tree[..|tree| - 1])
  }

  lemma {:induction false} StaleMembers(w: World, tree: seq<Key>)
    requires forall i, j :: 0 <= i < j < |tree| ==> tree[i] != tree[j]
    ensures forall k :: k in StaleInReverse(w, tree) <==> k in tree && k in StaleKeys(w)
    ensures forall i, j :: 0 <= i < j < |StaleInReverse(w, tree)| ==> StaleInReverse(w, tree)[i] != StaleInReverse(w, tree)[j]
    decreases |tree|
  {
    if tree != [] {
      var k, front := tree[|tree| - 1], tree[..|tree| - 1];
      StaleMembers(w, front);
      assert tree == front + [k];
      assert k !in front;
    }
  }

  /** A walk over the whole tree collects exactly the stale items, each once. */
  lemma StaleAreEnumerated(w: World, tree: seq<Key>)
    requires Enumerates(tree, w.items.Keys)
    ensures Enumerates(StaleInReverse(w, tree), StaleKeys(w))
  {
    StaleMembers(w, tree);
    assert forall k :: k in w.items ==> k in (set x | x in tree);
  }

  class Engine {
    var rmap: map<Key, Item>
    var nodes: map<nat, Node>
    var links: map<nat, Link>
    var stable: map<HashPair, nat>
    var unstable: map<HashPair, Key>
    var log: seq<LogEntry>
    var nextAddress: nat
    var iteration: int
    var accessed: nat
    ghost var model: World

    constructor ()
      ensures Linked() && model == EmptyWorld()
    {
      rmap, nodes, links, stable, unstable, log := map[], map[], map[], map[], map[], [];
      nextAddress, iteration, accessed := 0, 0, 0;
      model := EmptyWorld();
    }

    ghost predicate Linked()
      reads this
    {
      && model.items == rmap && model.nodes == nodes && model.unstable == unstable && model.log == log
      && model.nextId == nextAddress && model.iteration == iteration && model.accessed == accessed
      && links.Keys == nodes.Keys
      && ChainsOk(model)
      && PointersOk(model.chains, stable, links)
    }

    static lemma SameChainsOk(w: World, w': World)
      requires ChainsOk(w) && w'.chains == w.chains
      requires forall id :: id in w.nodes ==> id in w'.nodes && w'.nodes[id].hash == w.nodes[id].hash
      ensures ChainsOk(w')
    {
      forall h | h in w'.chains ensures ChainOk(w', h) { assert ChainOk(w, h); }
    }

    // -------------------------------------------------------------- items and nodes

    method InsertLog(e: LogEntry)
      requires Linked()
      modifies this`log, this`model
      ensures Linked() && model == Log(old(model), e)
    {
      log := log + [e];
      model := Log(model, e);
      SameChainsOk(old(model), model);
    }

    method InsertItemToNode(id: nat, k: Key)
      requires Linked() && InsertItem(model, id, k).Running?
      modifies this`rmap, this`nodes, this`model
      ensures Linked() && Running(model) == InsertItem(old(model), id, k)
    {
      var item := rmap[k];
      if item.state.NoState? || item.state.Stable? {
        assert false;
      }
      rmap := rmap[k := item.(state := Stable, oldHash := nodes[id].hash, oldPfn := item.pfn,
                              pfn := nodes[id].pfn, home := Some(id))];
      nodes := nodes[id := nodes[id].(sharedCnt := nodes[id].sharedCnt + 1)];
      nodes := nodes[id := nodes[id].(members := nodes[id].members + {k})];
      model := InsertItem(model, id, k).world;
      SameChainsOk(old(model), model);
    }

    method RemoveItemFromNode(id: nat, k: Key)
      requires Linked() && id in nodes
      modifies this`nodes, this`model
      ensures Linked() && Running(model) == RemoveItem(old(model), id, k)
    {
      nodes := nodes[id := nodes[id].(sharedCnt := nodes[id].sharedCnt - 1)];
      nodes := nodes[id := nodes[id].(members := nodes[id].members - {k})];
      model := RemoveItem(model, id, k).world;
      SameChainsOk(old(model), model);
    }

    method SetItemFields(k: Key, it: Item)
      requires Linked() && k in rmap
      modifies this`rmap, this`model
      ensures Linked() && model == SetItem(old(model), k, it)
    {
      rmap := rmap[k := it];
      model := SetItem(model, k, it);
      SameChainsOk(old(model), model);
    }

    method ResetItemState(k: Key)
      requires Linked() && k in rmap
      modifies this`rmap, this`model
      ensures Linked() && model == SetItem(old(model), k, ResetValue(old(rmap)[k]))
    {
      var item := rmap[k];
      item := item.(state := Volatile);
      item := item.(pfn := item.oldPfn);
      item := item.(oldPfn := 0);
      item := item.(oldHash := NULL_HASH, home := None);
      SetItemFields(k, item);
    }

    // -------------------------------------------------------------- chains

    static lemma FirstWithRoomSkips(w: World, c: seq<nat>, i: nat)
      requires i < |c| && c[i] in w.nodes && w.nodes[c[i]].sharedCnt >= MAX_PAGE_SHARING
      ensures FirstWithRoom(w, c[i..]) == FirstWithRoom(w, c[i + 1..])
    {
      assert c[i..][1..] == c[i + 1..];
    }

    /** Walks the chain of a digest for the first node with room. */
    method FindStable(h: HashPair) returns (r: Option<nat>)
      requires Linked()
      ensures r == CmpWithStable(model, h)
      ensures r.Some? ==>
        h in stable && HasRoom(r) && exists n: nat :: Follow(stable[h], n) == r && FullBefore(stable[h], n)
      ensures r.None? ==> h !in stable || forall m: nat :: !HasRoom(Follow(stable[h], m))
    {
      if h !in stable { return None; }
      ghost var c := model.chains[h];
      assert ChainOk(model, h);
      var node := stable[h];
      assert c[0..] == c;
      if nodes[node].sharedCnt < MAX_PAGE_SHARING {
        SearchedTo(c, 0);
        return Some(node);
      }
      FirstWithRoomSkips(model, c, 0);
      assert LinkOk(c, 0, links);
      var dup := links[node].next;
      ghost var i: nat := 1;
      while dup.Some?
        invariant 1 <= i <= |c| && dup == (if i < |c| then Some(c[i]) else None)
        invariant FirstWithRoom(model, c) == FirstWithRoom(model, c[i..])
        invariant FullTo(c, i)
        decreases |c| - i
      {
        assert c[i] in c;
        if nodes[dup.value].sharedCnt < MAX_PAGE_SHARING {
          SearchedTo(c, i);
          return dup;
        }
        FirstWithRoomSkips(model, c, i);
        assert LinkOk(c, i, links);
        dup := links[dup.value].next;
        i := i + 1;
      }
      SearchedTo(c, i);
      return None;
    }

    /** The node after n steps along the next links. */
    ghost function Follow(id: nat, n: nat): Option<nat>
      reads this`links
      decreases n
    {
      if id !in links then None
      else if n == 0 then Some(id)
      else match links[id].next case None => None case Some(next) => Follow(next, n - 1)
    }

    ghost predicate HasRoom(id: Option<nat>)
      reads this`nodes
    {
      id.Some? && id.value in nodes && nodes[id.value].sharedCnt < 256
    }

    ghost predicate FullBefore(id: nat, n: nat)
      reads this`links, this`nodes
    {
      forall m: nat :: m < n ==> !HasRoom(Follow(id, m))
    }

    ghost predicate FullTo(c: seq<nat>, i: nat)
      reads this`nodes
    {
      i <= |c| && forall m :: 0 <= m < i ==> !HasRoom(Some(c[m]))
    }

    lemma SearchedTo(c: seq<nat>, i: nat)
      requires ChainLinked(c, links) && c != [] && FullTo(c, i)
      ensures FullBefore(c[0], i) && (i < |c| ==> Follow(c[0], i) == Some(c[i]))
      ensures i == |c| ==> forall m: nat :: !HasRoom(Follow(c[0], m))
    {
      forall m: nat ensures Follow(c[0], m) == if m < |c| then Some(c[m]) else None { FollowFrom(c, 0, m); }
    }

    /** The links of a chain lead along it and end there. */
    lemma {:induction false} FollowFrom(c: seq<nat>, i: nat, n: nat)
      requires ChainLinked(c, links) && i < |c|
      ensures Follow(c[i], n) == if i + n < |c| then Some(c[i + n]) else None
      decreases n
    {
      assert LinkOk(c, i, links);
      if n > 0 && i + 1 < |c| { FollowFrom(c, i + 1, n - 1); }
    }

    /** A new node goes to the end of the chain of its digest, or starts one. */
    method InsertStableNode(h: HashPair, pfn: nat) returns (id: nat)
      requires Linked() && nextAddress !in nodes
      modifies this`nodes, this`links, this`stable, this`model, this`nextAddress
      ensures Linked() && id == old(nextAddress) && model == InsertNode(old(model), h, pfn)
    {
      id := nextAddress;
      if h in stable {
        AppendNode(h, pfn);
      } else {
        StartChain(h, pfn);
      }
    }

    method AppendNode(h: HashPair, pfn: nat)
      requires Linked() && nextAddress !in nodes && h in stable
      modifies this`nodes, this`links, this`model, this`nextAddress
      ensures Linked() && model == InsertNode(old(model), h, pfn)
    {
      var existing := FindTail(h);
      AppendPointers(model, stable, links, h, pfn, existing);
      InsertNodeChainsOk(model, h, pfn);
      links := links[existing := links[existing].(next := Some(nextAddress))];
      links := links[nextAddress := Link(Chain, None, Some(existing))];
      nodes, nextAddress := nodes[nextAddress := Node(h, 0, pfn, {})], nextAddress + 1;
      model := InsertNode(model, h, pfn);
    }

    method StartChain(h: HashPair, pfn: nat)
      requires Linked() && nextAddress !in nodes && h !in stable
      modifies this`nodes, this`links, this`stable, this`model, this`nextAddress
      ensures Linked() && model == InsertNode(old(model), h, pfn)
    {
      InsertNodeChainsOk(model, h, pfn);
      FreshPointers(model, stable, links, h, pfn);
      links, stable := links[nextAddress := Link(Head, None, None)], stable[h := nextAddress];
      nodes, nextAddress := nodes[nextAddress := Node(h, 0, pfn, {})], nextAddress + 1;
      model := InsertNode(model, h, pfn);
    }

    method FindTail(h: HashPair) returns (existing: nat)
      requires PointersOk(model.chains, stable, links) && h in stable
      ensures existing == model.chains[h][|model.chains[h]| - 1]
    {
      existing := stable[h];
      ghost var c, i := model.chains[h], 0;
      while links[existing].next.Some?
        invariant i < |c| && existing == c[i] && LinkOk(c, i, links)
        decreases |c| - i
      {
        existing := links[existing].next.value;
        i := i + 1;
      }
    }

    /** Unlinks a node without members, moves or drops its table entry, and frees it. */
    method RemoveStableNodeNoItem(id: nat)
      requires Linked() && RemoveNode(model, id).Running?
      modifies this`nodes, this`links, this`stable, this`model
      ensures Linked() && Running(model) == RemoveNode(old(model), id)
    {
      RemovePointers(model, stable, links, id);
      RemovedLink(id);
      match links[id].kind {
        case Head => UnlinkHead(id, nodes[id].hash);
        case Chain => UnlinkMember(id);
      }
      nodes := nodes - {id};
      links := links - {id};
      model := RemoveNode(model, id).world;
    }

    /** The head goes: its successor becomes the head and takes the table entry, or the entry goes. */
    method UnlinkHead(id: nat, h: HashPair)
      requires id in links && links[id].kind.Head? && links[id].prev.None?
      requires links[id].next.Some? ==> links[id].next.value in links && links[id].next.value != id
      modifies this`links, this`stable
      ensures links - {id} == Unlinked(old(links), id) && stable == TableWithout(old(stable), h, old(links)[id])
    {
      var link := links[id];
      if link.next.Some? {
        if link.prev.Some? {
          assert false;
        }
        var next := link.next.value;
        links := links[next := links[next].(kind := Head, prev := None)];
        stable := stable - {h};
        stable := stable[h := next];
      } else {
        stable := stable - {h};
      }
    }

    /** Another node goes: its neighbours are joined. */
    method UnlinkMember(id: nat)
      requires id in links && links[id].kind.Chain?
      requires links[id].prev.Some? && links[id].prev.value in links && links[id].prev.value != id
      requires links[id].next.Some? ==>
        links[id].next.value in links && links[id].next.value != id && links[id].next != links[id].prev
      modifies this`links
      ensures links - {id} == Unlinked(old(links), id)
    {
      var link := links[id];
      if link.prev.Some? {
        var prev := link.prev.value;
        links := links[prev := links[prev].(next := link.next)];
        if link.next.Some? {
          links := links[link.next.value := links[link.next.value].(prev := link.prev)];
        }
      } else {
        assert false;
      }
    }

    lemma RemovedLink(id: nat)
      requires Linked() && RemoveNode(model, id).Running?
      ensures id in links && id in nodes && nodes[id].hash in stable
      ensures links[id].kind.Head? ==> links[id].prev.None?
      ensures links[id].kind.Chain? ==> links[id].prev.Some? && links[id].prev.value in links && links[id].prev.value != id
      ensures links[id].next.Some? ==> links[id].next.value in links && links[id].next.value != id
      ensures links[id].next.Some? && links[id].prev.Some? ==> links[id].prev != links[id].next
    {
      var c := model.chains[nodes[id].hash];
      assert ChainOk(model, nodes[id].hash);
      var i := IndexOf(c, id);
      assert LinkOk(c, i, links);
      if i > 0 { assert LinkOk(c, i - 1, links); }
      if i + 1 < |c| { assert LinkOk(c, i + 1, links); }
    }

    method RemoveStaleNodeAndLog(id: nat, last: Key)
      requires Linked() && RemoveStaleAndLog(model, id, last).Running?
      modifies this`nodes, this`links, this`stable, this`log, this`model
      ensures Linked() && Running(model) == RemoveStaleAndLog(old(model), id, last)
    {
      InsertLog(StaleStableNode(last, nodes[id].pfn));
      RemoveStableNodeNoItem(id);
    }

    // -------------------------------------------------------------- the unstable table

    /** Takes the waiting page of a digest out of the table. */
    method FindUnstable(h: HashPair) returns (r: Option<Key>)
      requires Linked()
      modifies this`unstable, this`model
      ensures Linked() && model == old(model).(unstable := old(model).unstable - {h})
      ensures r == if h in old(unstable) then Some(old(unstable)[h]) else None
    {
      r := None;
      if h in unstable {
        r := Some(unstable[h]);
        unstable := unstable - {h};
      }
      SameChainsOk(model, model.(unstable := model.unstable - {h}));
      model := model.(unstable := model.unstable - {h});
    }

    method InsertUnstableNode(k: Key)
      requires Linked() && k in rmap && rmap[k].oldHash !in unstable
      modifies this`unstable, this`model
      ensures Linked() && model == old(model).(unstable := old(model).unstable[rmap[k].oldHash := k])
    {
      if rmap[k].oldHash in unstable {
        assert false;
      }
      unstable := unstable[rmap[k].oldHash := k];
      SameChainsOk(model, model.(unstable := unstable));
      model := model.(unstable := unstable);
    }

    // -------------------------------------------------------------- re-keying a chain

    /** Gives every sharing item of a node the new digest. */
    method UpdateItemChecksums(ms: set<Key>, h': HashPair)
      requires forall k :: k in ms ==> k in rmap && rmap[k].state.Stable?
      modifies this`rmap
      ensures rmap.Keys == old(rmap).Keys
      ensures forall k :: k in rmap ==> rmap[k] == (if k in ms then old(rmap)[k].(oldHash := h') else old(rmap)[k])
    {
      var todo := ms;
      while todo != {}
        invariant todo <= ms && rmap.Keys == old(rmap).Keys
        invariant forall k :: k in rmap ==>
          rmap[k] == (if k in ms - todo then old(rmap)[k].(oldHash := h') else old(rmap)[k])
        decreases todo
      {
        var k :| k in todo;
        if !rmap[k].state.Stable? {
          assert false;
        }
        rmap := rmap[k := rmap[k].(oldHash := h')];
        todo := todo - {k};
      }
    }

    static predicate UnderPrefix(nodes: map<nat, Node>, c: seq<nat>, n: nat, k: Key)
      requires n <= |c|
    {
      exists i :: 0 <= i < n && c[i] in nodes && k in nodes[c[i]].members
    }

    static predicate InPrefix(c: seq<nat>, n: nat, id: nat)
      requires n <= |c|
    {
      exists i :: 0 <= i < n && c[i] == id
    }

    /** The chain is re-keyed up to its n-th node. */
    ghost predicate RekeyedUpTo(was: World, c: seq<nat>, n: nat, h': HashPair)
      requires n <= |c|
      reads this`rmap, this`nodes
    {
      && rmap.Keys == was.items.Keys && nodes.Keys == was.nodes.Keys
      && (forall k :: k in rmap ==>
            rmap[k] == (if UnderPrefix(was.nodes, c, n, k) then was.items[k].(oldHash := h') else was.items[k]))
      && (forall id :: id in nodes ==>
            nodes[id] == (if InPrefix(c, n, id) then was.nodes[id].(hash := h') else was.nodes[id]))
    }

    static ghost predicate StableMembers(w: World, id: nat) {
      id in w.nodes && forall k :: k in w.nodes[id].members ==> k in w.items && w.items[k].state.Stable?
    }

    static ghost predicate StableChain(w: World, c: seq<nat>) {
      forall i :: 0 <= i < |c| ==> StableMembers(w, c[i])
    }

    method RekeyNode(id: nat, h': HashPair, ghost was: World, ghost c: seq<nat>, ghost n: nat)
      requires n < |c| && c[n] == id && StableChain(was, c) && RekeyedUpTo(was, c, n, h')
      modifies this`rmap, this`nodes
      ensures RekeyedUpTo(was, c, n + 1, h')
    {
      assert StableMembers(was, c[n]);
      nodes := nodes[id := nodes[id].(hash := h')];
      UpdateItemChecksums(nodes[id].members, h');
      forall k | k in rmap
        ensures UnderPrefix(was.nodes, c, n + 1, k) <==> UnderPrefix(was.nodes, c, n, k) || k in was.nodes[id].members
      {
        if k in was.nodes[id].members { assert c[n] in was.nodes && k in was.nodes[c[n]].members; }
      }
      forall j | j in nodes ensures InPrefix(c, n + 1, j) <==> InPrefix(c, n, j) || j == id {
        if j == id { assert c[n] == j; }
      }
    }

    /** From any node of a chain back to its head, along prev. */
    method FindHead(id: nat) returns (head: nat)
      requires Linked() && id in nodes && nodes[id].hash in model.chains && id in model.chains[nodes[id].hash]
      ensures head == model.chains[nodes[id].hash][0] && links[head].kind.Head?
    {
      ghost var c := model.chains[nodes[id].hash];
      ghost var i := IndexOf(c, id);
      assert LinkOk(c, i, links);
      head := id;
      if links[id].kind.Head? { return; }
      if links[id].prev.None? {
        assert false;
      }
      while links[head].prev.Some?
        invariant 0 <= i < |c| && c[i] == head && LinkOk(c, i, links)
        decreases i
      {
        head := links[head].prev.value;
        i := i - 1;
        assert LinkOk(c, i, links);
      }
      if links[head].kind != Head {
        assert false;
      }
    }

    /** From the head along next, every node and its sharing items get the new digest. */
    method RekeyNodes(head: nat, h': HashPair, ghost c: seq<nat>)
      requires ChainLinked(c, links) && c != [] && head == c[0] && StableChain(model, c)
      requires model.items == rmap && model.nodes == nodes
      modifies this`rmap, this`nodes
      ensures RekeyedUpTo(model, c, |c|, h')
    {
      assert LinkOk(c, 0, links);
      RekeyNode(head, h', model, c, 0);
      var node := links[head].next;
      ghost var n := 1;
      while node.Some?
        invariant 1 <= n <= |c| && node == (if n < |c| then Some(c[n]) else None)
        invariant RekeyedUpTo(model, c, n, h')
        decreases |c| - n
      {
        assert LinkOk(c, n, links);
        RekeyNode(node.value, h', model, c, n);
        node := links[node.value].next;
        n := n + 1;
      }
    }

    method RekeyWhole(head: nat, h': HashPair, ghost h: HashPair)
      requires h in model.chains && Rekey(model, h, h').Running? && model.items == rmap && model.nodes == nodes
      requires var c := model.chains[h]; c != [] && head == c[0] && ChainLinked(c, links) && StableChain(model, c)
      modifies this`rmap, this`nodes
      ensures rmap == Rekey(model, h, h').world.items && nodes == Rekey(model, h, h').world.nodes
    {
      RekeyNodes(head, h', model.chains[h]);
      RekeyedIsRekey(model, h, h');
    }

    /** The contents of a shared frame changed: its whole chain gets the new digest in place. */
    method RekeyChain(id: nat, h': HashPair)
      requires Linked() && Inv(model) && id in nodes
      modifies this`rmap, this`nodes, this`stable, this`model
      ensures Linked() && Running(model) == Rekey(old(model), old(nodes)[id].hash, h')
    {
      ghost var h := nodes[id].hash;
      assert NodeOk(model, id);
      RekeyReady(model, h);
      RekeyPointers(model, stable, links, h, h');
      var head := FindHead(id);
      RekeyFromHead(head, h', h);
    }

    method RekeyFromHead(head: nat, h': HashPair, ghost h: HashPair)
      requires Linked() && h in model.chains && head == model.chains[h][0] && head in nodes && nodes[head].hash == h
      requires Rekey(model, h, h').Running? && ChainsOk(Rekey(model, h, h').world)
      requires PointersOk(Rekey(model, h, h').world.chains, (stable - {h})[h' := head], links)
      requires StableChain(model, model.chains[h])
      modifies this`rmap, this`nodes, this`stable, this`model
      ensures Linked() && Running(model) == Rekey(old(model), h, h')
    {
      stable := stable - {nodes[head].hash};
      RekeyWhole(head, h', h);
      stable := stable[h' := head];
      model := Rekey(model, h, h').world;
    }

    static lemma RekeyReady(w: World, h: HashPair)
      requires Inv(w) && h in w.chains
      ensures ChainOk(w, h) && StableChain(w, w.chains[h]) && w.nodes[w.chains[h][0]].hash == h
    {
      assert ChainOk(w, h);
      var c := w.chains[h];
      assert c[0] in c;
      forall i | 0 <= i < |c| ensures StableMembers(w, c[i]) {
        assert c[i] in c && NodeOk(w, c[i]);
        forall k | k in w.nodes[c[i]].members ensures k in w.items && w.items[k].state.Stable? { assert MemberOk(w, c[i], k); }
      }
    }

    lemma RekeyedIsRekey(was: World, h: HashPair, h': HashPair)
      requires h in was.chains && RekeyedUpTo(was, was.chains[h], |was.chains[h]|, h') && Rekey(was, h, h').Running?
      ensures rmap == Rekey(was, h, h').world.items && nodes == Rekey(was, h, h').world.nodes
    {
      var c := was.chains[h];
      forall k | k in was.items ensures UnderPrefix(was.nodes, c, |c|, k) <==> InChain(was, c, k) {
        if InChain(was, c, k) {
          var id :| id in c && id in was.nodes && k in was.nodes[id].members;
          var i :| 0 <= i < |c| && c[i] == id;
          assert c[i] in was.nodes && k in was.nodes[c[i]].members;
        }
      }
      assert forall id :: id in was.nodes ==> (InPrefix(c, |c|, id) <==> id in c);
    }

    static lemma RekeyPointers(w: World, stable: map<HashPair, nat>, links: map<nat, Link>, h: HashPair, h': HashPair)
      requires Inv(w) && h in w.chains && PointersOk(w.chains, stable, links)
      ensures Rekey(w, h, h').Running? && ChainsOk(Rekey(w, h, h').world)
      ensures PointersOk(Rekey(w, h, h').world.chains, (stable - {h})[h' := w.chains[h][0]], links)
    {
      RekeyKeepsChains(w, h, h');
    }

    // -------------------------------------------------------------- one page

    method LookupRmapItem(p: Page)
      requires Linked()
      modifies this`rmap, this`accessed, this`model
      ensures Linked() && model == Lookup(old(model), p)
    {
      if p.key !in rmap {
        rmap := rmap[p.key := Item(Volatile, p.kpfn, p.junk.oldPfn, NULL_HASH, p.junk.score, p.junk.skip, 0, iteration, p.junk.home)];
      }
      accessed := accessed + 1;
      rmap := rmap[p.key := rmap[p.key].(lastAccess := iteration)];
      rmap := rmap[p.key := rmap[p.key].(pfn := p.kpfn)];
      SameChainsOk(model, Lookup(model, p));
      model := Lookup(model, p);
    }

    method ShouldSkip(k: Key, smart: bool) returns (skip: bool)
      requires Linked() && k in rmap
      modifies this`rmap, this`model
      ensures Linked() && skip == (MaySkip(old(rmap)[k], smart) && old(rmap)[k].skip > 0)
      ensures model == SetItem(old(model), k, if MaySkip(old(rmap)[k], smart)
        then old(rmap)[k].(skip := if skip then old(rmap)[k].skip - 1 else SkipVolatile(old(rmap)[k].score, old(rmap)[k].age))
        else old(rmap)[k])
    {
      var item := rmap[k];
      skip := false;
      if MaySkip(item, smart) {
        if item.skip > 0 {
          item := item.(skip := item.skip - 1);
          skip := true;
        } else {
          item := item.(skip := SkipVolatile(item.score, item.age));
        }
      }
      SetItemFields(k, item);
    }

    method JoinStable(k: Key, id: nat)
      requires Linked() && k in rmap && rmap[k].state.Volatile? && id in nodes && nodes[id].sharedCnt < MAX_PAGE_SHARING
      modifies this`rmap, this`nodes, this`log, this`model
      ensures Linked() && Running(model) == MergeIntoStable(old(model), k, id)
    {
      if nodes[id].sharedCnt >= MAX_PAGE_SHARING {
        assert false;
      }
      InsertItemToNode(id, k);
      InsertLog(StableMerge(k, nodes[id].pfn, nodes[id].sharedCnt));
    }

    /** Two pages of one digest: a new node takes the waiting page first, then this one. */
    method PairUp(k: Key, h: HashPair, partner: Key)
      requires Linked() && Sane(model.(unstable := model.unstable[h := partner])) && h !in unstable
      requires k in rmap && rmap[k].state.Volatile?
      modifies this
      ensures Linked() && Running(model) == MergeWithUnstable(old(model).(unstable := old(model).unstable[h := partner]), k, h)
    {
      PairPlan(model, k, h, partner);
      var id := InsertStableNode(h, rmap[k].pfn);
      InsertItemToNode(id, partner);
      InsertItemToNode(id, k);
      InsertLog(UnstableMerge(k, partner));
    }

    static lemma PairPlan(w: World, k: Key, h: HashPair, partner: Key)
      requires Sane(w.(unstable := w.unstable[h := partner])) && h !in w.unstable
      requires k in w.items && w.items[k].state.Volatile?
      ensures var w1 := InsertNode(w, h, w.items[k].pfn);
        && InsertItem(w1, w.nextId, partner).Running?
        && var w2 := InsertItem(w1, w.nextId, partner).world;
        && InsertItem(w2, w.nextId, k).Running?
        && var w3 := InsertItem(w2, w.nextId, k).world;
        && MergeWithUnstable(w.(unstable := w.unstable[h := partner]), k, h) == Running(Log(w3, UnstableMerge(k, partner)))
    {
      var full := w.(unstable := w.unstable[h := partner]);
      assert PartnerOk(full, h);
      assert full.unstable - {h} == w.unstable;
    }

    method MatchPage(k: Key, h: HashPair)
      requires Linked() && Sane(model) && k in rmap && rmap[k].state.Volatile? && rmap[k].oldHash == h
      modifies this
      ensures Linked() && Running(model) == Match(old(model), k, h)
    {
      var found := FindStable(h);
      if found.Some? {
        JoinStable(k, found.value);
      } else {
        PairOrWait(k, h);
      }
    }

    method PairOrWait(k: Key, h: HashPair)
      requires Linked() && Sane(model) && k in rmap && rmap[k].state.Volatile? && rmap[k].oldHash == h
      modifies this
      ensures Linked()
      ensures Running(model) ==
        if h in old(unstable) then MergeWithUnstable(old(model), k, h) else BecomeUnstable(old(model), k, h)
    {
      ghost var was := model;
      var partner := FindUnstable(h);
      if partner.Some? {
        assert was.unstable - {h} == model.unstable;
        assert model.unstable[h := partner.value] == was.unstable;
        assert was == model.(unstable := model.unstable[h := partner.value]);
        PairUp(k, h, partner.value);
      } else {
        assert was.unstable - {h} == was.unstable;
        SetItemFields(k, rmap[k].(state := Unstable));
        InsertUnstableNode(k);
      }
    }

    method MergeVolatilePage(k: Key, h: HashPair, smart: bool)
      requires Linked() && Sane(model) && k in rmap && rmap[k].state.Volatile?
      modifies this
      ensures Linked() && Running(model) == MergeVolatile(old(model), k, h, smart)
    {
      ghost var was := model;
      SetItemFields(k, rmap[k].(age := rmap[k].age + 1));
      var skip := ShouldSkip(k, smart);
      assert model == SetItem(was, k, Aged(was.items[k], smart));
      if skip { return; }
      if rmap[k].oldHash == h {
        SetItemFields(k, Calm(rmap[k]));
        assert model == SetItem(was, k, Calm(Aged(was.items[k], smart)));
        TouchSane(was, k, Calm(Aged(was.items[k], smart)));
        MatchPage(k, h);
      } else {
        if rmap[k].oldHash != NULL_HASH {
          SetItemFields(k, Agitate(rmap[k]));
        }
        SetItemFields(k, rmap[k].(oldHash := h));
        assert model == SetItem(was, k, Remembered(Aged(was.items[k], smart), h));
      }
    }

    method SplitPage(k: Key, id: nat)
      requires Linked() && k in rmap && id in nodes && Split(model, k, id).Running?
      modifies this
      ensures Linked() && Running(model) == Split(old(model), k, id)
    {
      RemoveItemFromNode(id, k);
      ResetItemState(k);
      if nodes[id].sharedCnt == 0 {
        RemoveStaleNodeAndLog(id, k);
      } else {
        InsertLog(ItemStateChange(k, nodes[id].pfn, nodes[id].sharedCnt));
      }
      SetItemFields(k, Agitate(rmap[k]));
    }

    /** A Stable page still on its node's frame. */
    method CheckInPlace(k: Key, h: HashPair, ghost smart: bool)
      requires Linked() && Inv(model) && k in rmap && rmap[k].state.Stable?
      requires rmap[k].home.Some? && rmap[k].home.value in nodes && nodes[rmap[k].home.value].pfn == rmap[k].pfn
      modifies this`rmap, this`nodes, this`stable, this`model
      ensures Linked() && Running(model) == MergeOne(old(model), k, h, smart)
    {
      StableInPlaceForm(model, k, h, smart);
      var id := rmap[k].home.value;
      if h != rmap[k].oldHash {
        if rmap[k].oldHash != nodes[id].hash {
          assert false;
        }
        RekeyChain(id, h);
      }
      SetItemFields(k, Calm(rmap[k]));
    }

    /**
     One page. The page table moved on iff the frame is no longer the node's: then the item leaves
     its node and is looked at again, which happens at most once.
     */
    method CmpAndMergeOne(k: Key, h: HashPair, smart: bool) returns (passes: nat)
      requires Linked() && Inv(model) && k in rmap && !rmap[k].state.Unstable?
      requires rmap[k].lastAccess == iteration && h != NULL_HASH
      modifies this
      ensures Linked() && Running(model) == MergeOne(old(model), k, h, smart)
      ensures passes <= 2
    {
      passes := 0;
      ghost var was := model;
      assert ItemOk(was, k);
      var again := true;
      while again
        invariant passes <= 2 && Linked() && (again ==> passes <= 1)
        invariant again && passes == 0 ==> model == was
        invariant again && passes == 1 ==>
          && k in rmap && rmap[k].state.Volatile? && Sane(model)
          && MergeOne(was, k, h, smart) == MergeVolatile(model, k, h, smart)
        invariant !again ==> Running(model) == MergeOne(was, k, h, smart)
        decreases 2 - passes, again
      {
        again := false;
        passes := passes + 1;
        match rmap[k].state {
          case NoState => assert false;
          case Unstable => assert false;
          case Stable =>
            StableHome(model, k);
            var id := rmap[k].home.value;
            if nodes[id].pfn != rmap[k].pfn {
              SplitForm(model, k, id, h, smart);
              SplitPage(k, id);
              again := true;
            } else {
              CheckInPlace(k, h, smart);
            }
          case Volatile =>
            if passes == 1 { InvSane(model); }
            MergeVolatilePage(k, h, smart);
        }
      }
    }

    static lemma StableHome(w: World, k: Key)
      requires Inv(w) && k in w.items && w.items[k].state.Stable?
      ensures w.items[k].home.Some? && w.items[k].home.value in w.nodes
    {
      assert ItemOk(w, k);
    }

    static lemma SplitForm(w: World, k: Key, id: nat, h: HashPair, smart: bool)
      requires Inv(w) && k in w.items && w.items[k].state.Stable? && w.items[k].home == Some(id) && id in w.nodes
      requires w.nodes[id].pfn != w.items[k].pfn
      ensures Split(w, k, id).Running? && Sane(Split(w, k, id).world)
      ensures k in Split(w, k, id).world.items && Split(w, k, id).world.items[k].state.Volatile?
      ensures MergeOne(w, k, h, smart) == MergeVolatile(Split(w, k, id).world, k, h, smart)
    {
      SplitKeepsInv(w, k, id);
      InvSane(Split(w, k, id).world);
    }

    /** One page of a batch: its item is found or made, then merged as the server is configured to. */
    method ScanPage(p: Page, mode: Mode)
      requires Linked() && Inv(model) && LegalPage(model, p)
      modifies this
      ensures Linked() && Running(model) == Scan(old(model), p, mode)
    {
      assert p.key in model.items ==> ItemOk(model, p.key);
      LookupKeepsInv(model, p);
      LookupRmapItem(p);
      if mode.Old? {
        CmpAndMergeOneOld(p.key, p.hash);
      } else {
        var _ := CmpAndMergeOne(p.key, p.hash, mode.Smart?);
      }
    }

    // -------------------------------------------------------------- the unoptimised variant

    method MergeVolatilePageOld(k: Key, h: HashPair)
      requires Linked() && Sane(model) && k in rmap && rmap[k].state.Volatile?
      modifies this
      ensures Linked() && Running(model) == MergeVolatileOld(old(model), k, h)
    {
      var found := FindStable(h);
      if found.Some? {
        JoinStable(k, found.value);
      } else if rmap[k].oldHash == h {
        PairOrWait(k, h);
      } else {
        SetItemFields(k, rmap[k].(oldHash := h));
      }
    }

    /** The same two passes without ages, skips and volatility scores. */
    method CmpAndMergeOneOld(k: Key, h: HashPair)
      requires Linked() && Inv(model) && k in rmap && !rmap[k].state.Unstable?
      requires rmap[k].lastAccess == iteration && h != NULL_HASH
      modifies this
      ensures Linked() && Running(model) == MergeOneOld(old(model), k, h)
    {
      InvSane(model);
      assert ItemOk(model, k);
      if rmap[k].state.Stable? {
        var id := rmap[k].home.value;
        if nodes[id].pfn != rmap[k].pfn {
          SplitOldForm(model, k, id);
          SplitPageOld(k, id);
          MergeVolatilePageOld(k, h);
        } else if h != rmap[k].oldHash {
          assert NodeOk(model, id);
          RekeyChain(id, h);
        }
      } else {
        MergeVolatilePageOld(k, h);
      }
    }

    method SplitPageOld(k: Key, id: nat)
      requires Linked() && k in rmap && id in nodes && Split(model, k, id).Running? && SplitOld(model, k, id).Running?
      modifies this
      ensures Linked() && Running(model) == SplitOld(old(model), k, id)
    {
      var score := rmap[k].score;
      SplitPage(k, id);
      SetItemFields(k, rmap[k].(score := score));
    }

    static lemma SplitOldForm(w: World, k: Key, id: nat)
      requires Inv(w) && k in w.items && w.items[k].state.Stable? && w.items[k].home == Some(id)
      ensures Split(w, k, id).Running? && SplitOld(w, k, id).Running? && Sane(SplitOld(w, k, id).world)
      ensures k in SplitOld(w, k, id).world.items && SplitOld(w, k, id).world.items[k].state.Volatile?
    {
      SplitKeepsInv(w, k, id);
      var w1 := Split(w, k, id).world;
      InvSane(w1);
      TouchSane(w1, k, w1.items[k].(score := w.items[k].score));
    }

    // -------------------------------------------------------------- host errors

    method UndoStableMerge(k: Key, kpfn: nat)
      requires Linked() && UndoOne(model, k, kpfn).Running?
      modifies this
      ensures Linked() && Running(model) == UndoOne(old(model), k, kpfn)
    {
      if k !in rmap || rmap[k].home.None? {
        assert false;
      }
      var id := rmap[k].home.value;
      if nodes[id].pfn != kpfn || nodes[id].sharedCnt < 1 {
        assert false;
      }
      UndoItem(id, k);
      if nodes[id].sharedCnt == 0 {
        RemoveStaleNodeAndLog(id, k);
      }
    }

    /** Takes an item out of its node, resets it and makes it more volatile. */
    method UndoItem(id: nat, k: Key)
      requires Linked() && id in nodes && k in rmap
      modifies this`nodes, this`rmap, this`model
      ensures Linked() && model == SetItem(RemoveItem(old(model), id, k).world, k, Agitate(ResetValue(old(model).items[k])))
    {
      RemoveItemFromNode(id, k);
      ResetItemState(k);
      SetItemFields(k, Agitate(rmap[k]));
      SetItemAgain(RemoveItem(old(model), id, k).world, k, ResetValue(old(model).items[k]), rmap[k]);
    }

    static lemma SetItemAgain(w: World, k: Key, it: Item, it': Item)
      ensures SetItem(SetItem(w, k, it), k, it') == SetItem(w, k, it')
    {
      assert w.items[k := it][k := it'] == w.items[k := it'];
    }

    /** Every sharing item of a node is reset and made more volatile. */
    method ResetEachItem(ms: set<Key>)
      requires Linked() && forall k :: k in ms ==> k in rmap && rmap[k].state.Stable?
      modifies this`rmap, this`model
      ensures Linked() && model == old(model).(items := ResetAll(old(model).items, ms))
    {
      var todo := ms;
      while todo != {}
        invariant todo <= ms && Linked() && rmap.Keys == old(rmap).Keys
        invariant forall k :: k in rmap ==>
          rmap[k] == (if k in ms - todo then Agitate(ResetValue(old(rmap)[k])) else old(rmap)[k])
        invariant model == old(model).(items := rmap)
        decreases todo
      {
        var k :| k in todo;
        ResetItemState(k);
        SetItemFields(k, Agitate(rmap[k]));
        todo := todo - {k};
      }
      assert rmap == ResetAll(old(model).items, ms);
    }

    method UndoUnstableMerge(k: Key)
      requires Linked() && UndoTwo(model, k).Running?
      modifies this
      ensures Linked() && Running(model) == UndoTwo(old(model), k)
    {
      if k !in rmap || rmap[k].home.None? {
        assert false;
      }
      var id := rmap[k].home.value;
      ResetEachItem(nodes[id].members);
      RemoveStableNodeNoItem(id);
    }

    method HandleError(e: HostError)
      requires Linked() && Undo(model, e).Running?
      modifies this
      ensures Linked() && Running(model) == Undo(old(model), e)
    {
      match e {
        case MergeOneFailed(k, kpfn) => UndoStableMerge(k, kpfn);
        case MergeTwoFailed(k) => UndoUnstableMerge(k);
      }
    }

    static lemma UndoStep(w: World, es: seq<HostError>, j: nat)
      requires j < |es| && UndoAll(w, es[j..]).Running?
      ensures Undo(w, es[j]).Running?
      ensures UndoAll(w, es[j..]) == UndoAll(Undo(w, es[j]).world, es[j + 1..])
    {
      assert es[j..][0] == es[j] && es[j..][1..] == es[j + 1..];
    }

    method HandleErrors(es: seq<HostError>)
      requires Linked() && UndoAll(model, es).Running?
      modifies this
      ensures Linked() && Running(model) == UndoAll(old(model), es)
    {
      var j := 0;
      assert es[0..] == es;
      while j < |es|
        invariant 0 <= j <= |es| && Linked()
        invariant UndoAll(model, es[j..]) == UndoAll(old(model), es)
      {
        UndoStep(model, es, j);
        HandleError(es[j]);
        j := j + 1;
      }
      assert es[|es|..] == [];
    }

    method ScanPages(ps: seq<Page>, mode: Mode)
      requires Linked() && Inv(model) && DistinctPages(ps) && AllUnscanned(model, ps) && CollisionFree(model, ps, mode)
      modifies this
      ensures Linked() && Running(model) == ScanAll(old(model), ps, mode)
    {
      var j := 0;
      assert ps[0..] == ps;
      while j < |ps|
        invariant 0 <= j <= |ps| && Linked() && Inv(model)
        invariant DistinctPages(ps[j..]) && AllUnscanned(model, ps[j..]) && CollisionFree(model, ps[j..], mode)
        invariant ScanAll(model, ps[j..], mode) == ScanAll(old(model), ps, mode)
      {
        assert ps[j..][0] == ps[j] && ps[j..][1..] == ps[j + 1..];
        ScanRest(model, ps[j..], mode);
        ScanKeepsInv(model, ps[j], mode);
        ScanPage(ps[j], mode);
        j := j + 1;
      }
      assert ps[|ps|..] == [];
    }

    // -------------------------------------------------------------- end of an iteration

    method CleanUpUnstableTable()
      requires Linked() && Inv(model)
      modifies this`rmap, this`unstable, this`model
      ensures Linked() && model == CleanUpUnstable(old(model))
    {
      ghost var was := model;
      var ks := unstable.Values;
      var todo := ks;
      WaitingAreItems(was);
      while todo != {}
        invariant todo <= ks && rmap.Keys == was.items.Keys
        invariant forall k :: k in rmap ==>
          rmap[k] == (if k in ks - todo then was.items[k].(state := Volatile) else was.items[k])
        decreases todo
      {
        var k :| k in todo;
        rmap := rmap[k := rmap[k].(state := Volatile)];
        todo := todo - {k};
      }
      unstable := map[];
      assert rmap == CleanUpUnstable(was).items;
      SameChainsOk(was, CleanUpUnstable(was));
      model := CleanUpUnstable(was);
    }

    static lemma WaitingAreItems(w: World)
      requires Inv(w)
      ensures forall k :: k in w.unstable.Values ==> k in w.items
    {
      forall k | k in w.unstable.Values ensures k in w.items {
        var h :| h in w.unstable && w.unstable[h] == k;
        assert UnstableOk(w, h);
      }
    }

    method PruneItem(k: Key)
      requires Linked() && PruneOne(model, k).Running?
      modifies this
      ensures Linked() && Running(model) == PruneOne(old(model), k)
    {
      var item := rmap[k];
      if item.state.Stable? && item.home.Some? {
        RemoveItemFromNode(item.home.value, k);
        if nodes[item.home.value].sharedCnt == 0 {
          RemoveStaleNodeAndLog(item.home.value, k);
        }
      }
      rmap := rmap - {k};
      SameChainsOk(model, DropItem(model, k));
      model := DropItem(model, k);
    }

    /** The walk over the tree, which is in key order: stale items are put in front of the list. */
    method CollectStale(tree: seq<Key>) returns (order: seq<Key>)
      requires Linked() && Inv(model) && Quiet(model) && Enumerates(tree, model.items.Keys)
      ensures order == StaleInReverse(model, tree) && Enumerates(order, StaleKeys(model))
    {
      order := [];
      var i := 0;
      assert forall k :: k in tree ==> k in (set x | x in tree);
      while i < |tree|
        invariant i <= |tree| && order == StaleInReverse(model, tree[..i])
      {
        var k := tree[i];
        assert k in model.items && ItemOk(model, k);
        if rmap[k].lastAccess < iteration - 1 {
          match rmap[k].state {
            case NoState => assert false;
            case Unstable => assert false;
            case Volatile =>
            case Stable => if rmap[k].home.None? { assert false; }
          }
          order := [k] + order;
        }
        assert tree[..i + 1][..i] == tree[..i];
        i := i + 1;
      }
      assert tree[..i] == tree;
      StaleAreEnumerated(model, tree);
    }

    /** Collects the stale items, then drops them in the order of the list. */
    method PruneRmapTree(tree: seq<Key>)
      requires Linked() && Inv(model) && Quiet(model) && Enumerates(tree, model.items.Keys)
      modifies this
      ensures Linked() && Running(model) == PruneRmap(old(model), StaleInReverse(old(model), tree))
    {
      var order := CollectStale(tree);
      DropAll(order);
    }

    method DropAll(order: seq<Key>)
      requires Linked() && Inv(model) && Quiet(model) && Enumerates(order, StaleKeys(model))
      modifies this
      ensures Linked() && Running(model) == PruneRmap(old(model), order)
    {
      forall k | k in StaleKeys(model) ensures Collectable(model.items[k]) { assert ItemOk(model, k); }
      EnumeratedArePrunable(model, order);
      var j := 0;
      assert order[0..] == order;
      while j < |order|
        invariant 0 <= j <= |order| && Linked() && Inv(model) && Prunable(model, order[j..])
        invariant PruneAll(model, order[j..]) == PruneAll(old(model), order)
      {
        assert order[j..][0] == order[j] && order[j..][1..] == order[j + 1..];
        PruneRest(model, order[j..]);
        PruneOneKeepsInv(model, order[j]);
        PruneItem(order[j]);
        j := j + 1;
      }
      assert order[|order|..] == [];
    }

    /** The subtraction is done on unsigned words. */
    method NeedsPrune() returns (due: bool)
      requires Linked()
      ensures due == PruneDue(model)
    {
      due := (|rmap| - accessed) % WORD_RANGE > RMAP_PRUNE_MARGIN;
    }

    method PruneTables(tree: seq<Key>)
      requires Linked() && Inv(model) && Enumerates(tree, model.items.Keys)
      modifies this
      ensures Linked() && Running(model) == PruneMetadata(old(model), StaleInReverse(old(model), tree))
    {
      PrunePlan(model, tree);
      CleanUpUnstableTable();
      var due := NeedsPrune();
      if due {
        PruneRmapTree(tree);
      }
    }

    static lemma PrunePlan(w: World, tree: seq<Key>)
      requires Inv(w) && Enumerates(tree, w.items.Keys)
      ensures var w1 := CleanUpUnstable(w);
        && Inv(w1) && Quiet(w1) && Enumerates(tree, w1.items.Keys)
        && PruneMetadata(w, StaleInReverse(w, tree))
           == if PruneDue(w1) then PruneRmap(w1, StaleInReverse(w1, tree)) else Running(w1)
    {
      CleanUpKeepsInv(w);
      SameStale(w, tree);
    }

    static lemma {:induction false} SameStale(w: World, tree: seq<Key>)
      ensures StaleKeys(CleanUpUnstable(w)) == StaleKeys(w)
      ensures StaleInReverse(CleanUpUnstable(w), tree) == StaleInReverse(w, tree)
      decreases |tree|
    {
      assert StaleKeys(CleanUpUnstable(w)) == StaleKeys(w);
      if tree != [] { SameStale(w, tree[..|tree| - 1]); }
    }

    method StartNextIteration()
      requires Linked()
      modifies this`log, this`iteration, this`accessed, this`model
      ensures Linked() && model == NextIteration(old(model))
    {
      log, iteration, accessed := [], iteration + 1, 0;
      SameChainsOk(model, NextIteration(model));
      model := NextIteration(model);
    }

    /** tree walks all items that are there after the scan, and the iteration's order is what the walk collects. */
    static ghost predicate Walks(w: World, it: Iteration, mode: Mode, tree: seq<Key>) {
      UndoAll(w, it.errors).Running? && ScanAll(UndoAll(w, it.errors).world, it.pages, mode).Running? ==>
        var w2 := ScanAll(UndoAll(w, it.errors).world, it.pages, mode).world;
        Enumerates(tree, w2.items.Keys) && it.order == StaleInReverse(w2, tree)
    }

    /** One round of the server's loop: host errors, the scan, the prune, and the counters. */
    method RunIteration(it: Iteration, mode: Mode, tree: seq<Key>)
      requires Linked() && Resting(model) && LegalIteration(model, it, mode) && Walks(model, it, mode, tree)
      modifies this
      ensures Linked() && Running(model) == Iterate(old(model), it, mode)
    {
      IterationPlan(model, it, mode);
      HandleErrors(it.errors);
      ScanPages(it.pages, mode);
      PruneTables(tree);
      StartNextIteration();
    }

    static ghost predicate AllWalk(w: World, its: seq<Iteration>, mode: Mode, trees: seq<seq<Key>>)
      decreases |its|
    {
      |trees| == |its| && (its != [] ==>
        && Walks(w, its[0], mode, trees[0])
        && (Iterate(w, its[0], mode).Running? ==> AllWalk(Iterate(w, its[0], mode).world, its[1..], mode, trees[1..])))
    }

    /** The server's loop, from the empty engine or from any resting one: it never stops. */
    method RunIterations(its: seq<Iteration>, mode: Mode, trees: seq<seq<Key>>)
      requires Linked() && Resting(model) && LegalRun(model, its, mode) && AllWalk(model, its, mode, trees)
      modifies this
      ensures Linked() && Resting(model) && Running(model) == Run(old(model), its, mode)
    {
      var i := 0;
      while i < |its|
        invariant i <= |its| == |trees| && Linked() && Resting(model) && LegalRun(model, its[i..], mode)
        invariant AllWalk(model, its[i..], mode, trees[i..])
        invariant Run(old(model), its, mode) == Run(model, its[i..], mode)
      {
        RunPlan(model, its, mode, trees, i);
        RunIteration(its[i], mode, trees[i]);
        i := i + 1;
      }
    }

    static lemma RunPlan(w: World, its: seq<Iteration>, mode: Mode, trees: seq<seq<Key>>, i: nat)
      requires i < |its| == |trees| && Resting(w)
      requires LegalRun(w, its[i..], mode) && AllWalk(w, its[i..], mode, trees[i..])
      ensures LegalIteration(w, its[i], mode) && Walks(w, its[i], mode, trees[i])
      ensures Iterate(w, its[i], mode).Running?
      ensures var w' := Iterate(w, its[i], mode).world;
        && Resting(w') && LegalRun(w', its[i + 1..], mode) && AllWalk(w', its[i + 1..], mode, trees[i + 1..])
        && Run(w, its[i..], mode) == Run(w', its[i + 1..], mode)
    {
      assert its[i..][0] == its[i] && its[i..][1..] == its[i + 1..];
      assert trees[i..][0] == trees[i] && trees[i..][1..] == trees[i + 1..];
      IterateKeepsResting(w, its[i], mode);
    }

    static lemma IterationPlan(w: World, it: Iteration, mode: Mode)
      requires Resting(w) && LegalIteration(w, it, mode)
      ensures UndoAll(w, it.errors).Running?
      ensures var w1 := UndoAll(w, it.errors).world;
        && Inv(w1) && DistinctPages(it.pages) && AllUnscanned(w1, it.pages) && CollisionFree(w1, it.pages, mode)
        && ScanAll(w1, it.pages, mode).Running?
        && var w2 := ScanAll(w1, it.pages, mode).world;
        && Inv(w2) && Enumerates(it.order, StaleKeys(w2))
        && Iterate(w, it, mode) == (var w3 :- PruneMetadata(w2, it.order); Running(NextIteration(w3)))
    {
      UndoAllKeepsInv(w, it.errors);
      ScanAllFromRest(w, UndoAll(w, it.errors).world, it.pages, mode);
    }

    static lemma ScanAllFromRest(w: World, w1: World, ps: seq<Page>, mode: Mode)
      requires Resting(w) && SameStamps(w, w1) && Inv(w1) && DistinctPages(ps) && CollisionFree(w1, ps, mode)
      ensures AllUnscanned(w1, ps) && ScanAll(w1, ps, mode).Running? && Inv(ScanAll(w1, ps, mode).world)
    {
      assert ScannedNow(w1) == {};
      ScanAllKeepsInv(w1, ps, mode);
    }

    static lemma InsertNodeChainsOk(w: World, h: HashPair, pfn: nat)
      requires ChainsOk(w) && w.nextId !in w.nodes
      ensures ChainsOk(InsertNode(w, h, pfn))
    {
      var w' := InsertNode(w, h, pfn);
      forall g | g in w'.chains ensures ChainOk(w', g) {
        assert g in w.chains ==> ChainOk(w, g);
      }
    }
  }
}
