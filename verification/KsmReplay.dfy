/** The log explains the scan: replaying the new entries rebuilds the map from pages to shared frames. */
module KsmReplay {
  import opened Wrappers
  import opened KsmTypes
  import opened KsmSpec
  import opened KsmInvariant
  import opened KsmIterations

  /** Which shared frame every Stable page is on. */
  function StableMap(w: World): map<Key, nat> {
    map k | k in w.items && w.items[k].state.Stable? && w.items[k].home.Some? && w.items[k].home.value in w.nodes
      :: w.nodes[w.items[k].home.value].pfn
  }

  lemma SameMap(w: World, w': World)
    requires w'.nodes == w.nodes && w'.items.Keys == w.items.Keys
    requires forall k :: k in w.items ==> w'.items[k].state.Stable? == w.items[k].state.Stable? && w'.items[k].home == w.items[k].home
    ensures StableMap(w') == StableMap(w)
  {
    assert StableMap(w').Keys == StableMap(w).Keys;
  }

  /** What the host does with one entry; shadow is the page table it sent for the scan. */
  function ReplayOne(m: map<Key, nat>, e: LogEntry, shadow: map<Key, nat>): map<Key, nat> {
    match e
    case StableMerge(k, kpfn, _) => m[k := kpfn]
    case UnstableMerge(from, to) => if from in shadow then m[from := shadow[from]][to := shadow[from]] else m
    case StaleStableNode(last, _) => m - {last}
    case ItemStateChange(k, _, _) => m - {k}
  }

  function Replay(m: map<Key, nat>, es: seq<LogEntry>, shadow: map<Key, nat>): map<Key, nat> {
    if es == [] then m else ReplayOne(Replay(m, es[..|es| - 1], shadow), es[|es| - 1], shadow)
  }

  lemma {:induction false} ReplayAppend(m: map<Key, nat>, a: seq<LogEntry>, b: seq<LogEntry>, shadow: map<Key, nat>)
    ensures Replay(m, a + b, shadow) == Replay(Replay(m, a, shadow), b, shadow)
    decreases |b|
  {
    if b == [] {
      assert a + b == a;
    } else {
      assert (a + b)[..|a + b| - 1] == a + b[..|b| - 1];
      ReplayAppend(m, a, b[..|b| - 1], shadow);
    }
  }

  lemma ReplaySingle(m: map<Key, nat>, e: LogEntry, shadow: map<Key, nat>)
    ensures Replay(m, [e], shadow) == ReplayOne(m, e, shadow)
  {
    assert [e][..0] == [];
    assert Replay(m, [e][..0], shadow) == m;
  }

  /** The log has only grown, and its new entries lead from one map to the other. */
  ghost predicate Explains(w: World, w': World, shadow: map<Key, nat>) {
    && w.log <= w'.log
    && Replay(StableMap(w), w'.log[|w.log|..], shadow) == StableMap(w')
  }

  lemma ExplainsNothing(w: World, w': World, shadow: map<Key, nat>)
    requires w'.log == w.log && StableMap(w') == StableMap(w)
    ensures Explains(w, w', shadow)
  {
    assert w'.log[|w.log|..] == [];
  }

  lemma ExplainsOne(w: World, w': World, e: LogEntry, shadow: map<Key, nat>)
    requires w'.log == w.log + [e] && StableMap(w') == ReplayOne(StableMap(w), e, shadow)
    ensures Explains(w, w', shadow)
  {
    assert w'.log[|w.log|..] == [e];
    ReplaySingle(StableMap(w), e, shadow);
  }

  lemma ExplainsTrans(a: World, b: World, c: World, shadow: map<Key, nat>)
    requires Explains(a, b, shadow) && Explains(b, c, shadow)
    ensures Explains(a, c, shadow)
  {
    var x, y := b.log[|a.log|..], c.log[|b.log|..];
    assert c.log[|a.log|..] == x + y;
    ReplayAppend(StableMap(a), x, y, shadow);
  }

  // ---------------------------------------------------------------- one page

  lemma JoinReplays(w: World, k: Key, id: nat, shadow: map<Key, nat>)
    requires k in w.items && w.items[k].state.Volatile?
    requires id in w.nodes && w.nodes[id].sharedCnt < MAX_PAGE_SHARING
    ensures MergeIntoStable(w, k, id).Running? && Explains(w, MergeIntoStable(w, k, id).world, shadow)
  {
    MergeIntoStableForm(w, k, id);
    var w' := MergeIntoStable(w, k, id).world;
    assert StableMap(w') == StableMap(w)[k := w.nodes[id].pfn];
    ExplainsOne(w, w', StableMerge(k, w.nodes[id].pfn, w.nodes[id].sharedCnt + 1), shadow);
  }

  lemma PairMap(w: World, w': World, k: Key, partner: Key, id: nat)
    requires HomesLive(w) && id !in w.nodes && k in w.items && partner in w.items && k != partner
    requires w'.items.Keys == w.items.Keys && w'.nodes.Keys == w.nodes.Keys + {id}
    requires forall x :: x in w.items && x != k && x != partner ==> w'.items[x] == w.items[x]
    requires w'.items[k].state.Stable? && w'.items[k].home == Some(id)
    requires w'.items[partner].state.Stable? && w'.items[partner].home == Some(id)
    requires forall j :: j in w.nodes ==> w'.nodes[j] == w.nodes[j]
    ensures StableMap(w') == StableMap(w)[k := w'.nodes[id].pfn][partner := w'.nodes[id].pfn]
  {
    forall x: Key | x != k && x != partner
      ensures (x in StableMap(w') <==> x in StableMap(w)) && (x in StableMap(w) ==> StableMap(w')[x] == StableMap(w)[x])
    {
      if x in w.items { PairElsewhere(w, w', id, x); }
    }
    TwoMore(StableMap(w), StableMap(w'), k, partner, w'.nodes[id].pfn);
  }

  lemma TwoMore(m: map<Key, nat>, m': map<Key, nat>, k: Key, p: Key, v: nat)
    requires k in m' && m'[k] == v && p in m' && m'[p] == v
    requires forall x: Key :: x != k && x != p ==> (x in m' <==> x in m) && (x in m ==> m'[x] == m[x])
    ensures m' == m[k := v][p := v]
  {
    assert m'.Keys == m[k := v][p := v].Keys;
  }

  lemma PairElsewhere(w: World, w': World, id: nat, x: Key)
    requires HomesLive(w) && id !in w.nodes && x in w.items && x in w'.items && w'.items[x] == w.items[x]
    requires w'.nodes.Keys == w.nodes.Keys + {id} && forall j :: j in w.nodes ==> w'.nodes[j] == w.nodes[j]
    ensures x in StableMap(w') <==> x in StableMap(w)
    ensures x in StableMap(w') ==> StableMap(w')[x] == StableMap(w)[x]
  {
  }

  lemma PairReplays(w: World, w': World, k: Key, partner: Key, id: nat, shadow: map<Key, nat>)
    requires HomesLive(w) && id !in w.nodes && k in w.items && partner in w.items && k != partner
    requires !w.items[k].state.Stable? && !w.items[partner].state.Stable?
    requires k in shadow && shadow[k] == w.items[k].pfn
    requires w'.items.Keys == w.items.Keys && w'.nodes.Keys == w.nodes.Keys + {id}
    requires forall x :: x in w.items && x != k && x != partner ==> w'.items[x] == w.items[x]
    requires w'.items[k].state.Stable? && w'.items[k].home == Some(id)
    requires w'.items[partner].state.Stable? && w'.items[partner].home == Some(id)
    requires forall j :: j in w.nodes ==> w'.nodes[j] == w.nodes[j]
    requires w'.nodes[id].pfn == w.items[k].pfn && w'.log == w.log + [UnstableMerge(k, partner)]
    ensures Explains(w, w', shadow)
  {
    var pfn := w.items[k].pfn;
    PairMap(w, w', k, partner, id);
    ExplainsOne(w, w', UnstableMerge(k, partner), shadow);
  }

  lemma MergeWithUnstableReplays(w: World, k: Key, h: HashPair, shadow: map<Key, nat>)
    requires Sane(w) && k in w.items && w.items[k].state.Volatile? && h in w.unstable
    requires k in shadow && shadow[k] == w.items[k].pfn
    ensures MergeWithUnstable(w, k, h).Running? && Explains(w, MergeWithUnstable(w, k, h).world, shadow)
  {
    MergeWithUnstableForm(w, k, h);
    PairReplays(w, MergeWithUnstable(w, k, h).world, k, w.unstable[h], w.nextId, shadow);
  }

  lemma WaitReplays(w: World, k: Key, h: HashPair, shadow: map<Key, nat>)
    requires k in w.items && w.items[k].state.Volatile? && h !in w.unstable
    ensures BecomeUnstable(w, k, h).Running? && Explains(w, BecomeUnstable(w, k, h).world, shadow)
  {
    var w' := BecomeUnstable(w, k, h).world;
    SameMap(w, w');
    ExplainsNothing(w, w', shadow);
  }

  lemma MatchReplays(w: World, k: Key, h: HashPair, shadow: map<Key, nat>)
    requires Sane(w) && k in w.items && w.items[k].state.Volatile?
    requires k in shadow && shadow[k] == w.items[k].pfn
    ensures Match(w, k, h).Running? && Explains(w, Match(w, k, h).world, shadow)
  {
    match CmpWithStable(w, h)
    case Some(id) => JoinReplays(w, k, id, shadow);
    case None =>
      if h in w.unstable { MergeWithUnstableReplays(w, k, h, shadow); } else { WaitReplays(w, k, h, shadow); }
  }

  lemma TouchIsSane(w: World, k: Key, it: Item)
    requires Sane(w) && k in w.items && w.items[k].state.Volatile? && it.state.Volatile?
    ensures Sane(SetItem(w, k, it)) && StableMap(SetItem(w, k, it)) == StableMap(w)
  {
    var w' := SetItem(w, k, it);
    forall h | h in w'.unstable ensures PartnerOk(w', h) { assert PartnerOk(w, h); }
  }

  lemma TouchReplays(w: World, k: Key, it: Item, shadow: map<Key, nat>)
    requires k in w.items && w.items[k].state == it.state && w.items[k].home == it.home
    ensures Explains(w, SetItem(w, k, it), shadow)
  {
    assert StableMap(SetItem(w, k, it)) == StableMap(w);
    ExplainsNothing(w, SetItem(w, k, it), shadow);
  }

  lemma TouchThenMatchReplays(w: World, k: Key, it: Item, h: HashPair, shadow: map<Key, nat>)
    requires Sane(w) && k in w.items && w.items[k].state.Volatile?
    requires it.state.Volatile? && it.home == w.items[k].home && it.pfn == w.items[k].pfn
    requires k in shadow && shadow[k] == w.items[k].pfn
    ensures Match(SetItem(w, k, it), k, h).Running? && Explains(w, Match(SetItem(w, k, it), k, h).world, shadow)
  {
    var w1 := SetItem(w, k, it);
    TouchIsSane(w, k, it);
    TouchReplays(w, k, it, shadow);
    MatchReplays(w1, k, h, shadow);
    ExplainsTrans(w, w1, Match(w1, k, h).world, shadow);
  }

  lemma MergeVolatileReplays(w: World, k: Key, h: HashPair, smart: bool, shadow: map<Key, nat>)
    requires Sane(w) && k in w.items && w.items[k].state.Volatile?
    requires w.items[k].oldHash == h ==> k in shadow && shadow[k] == w.items[k].pfn
    ensures MergeVolatile(w, k, h, smart).Running? && Explains(w, MergeVolatile(w, k, h, smart).world, shadow)
  {
    var it := Aged(w.items[k], smart);
    if smart && w.items[k].skip > 0 {
      TouchReplays(w, k, it, shadow);
    } else if it.oldHash == h {
      TouchThenMatchReplays(w, k, Calm(it), h, shadow);
    } else {
      TouchReplays(w, k, Remembered(it, h), shadow);
    }
  }

  lemma SplitShape(w: World, k: Key, id: nat)
    requires Inv(w) && k in w.items && w.items[k].state.Stable? && w.items[k].home == Some(id)
    ensures id in w.nodes && Split(w, k, id).Running?
    ensures var w', n := Split(w, k, id).world, w.nodes[id];
      && w'.items == w.items[k := Agitate(ResetValue(w.items[k]))]
      && (forall j :: j in w'.nodes ==> j in w.nodes && w'.nodes[j].pfn == w.nodes[j].pfn)
      && w'.log == w.log + [if n.sharedCnt == 1 then StaleStableNode(k, n.pfn) else ItemStateChange(k, n.pfn, n.sharedCnt - 1)]
    ensures HomesLive(w) && HomesLive(Split(w, k, id).world)
  {
    SplitKeepsInv(w, k, id);
    SplitIsLeave(w, k, id);
    InvSane(w);
    InvSane(Split(w, k, id).world);
  }

  lemma SplitReplays(w: World, w': World, k: Key, e: LogEntry, shadow: map<Key, nat>)
    requires HomesLive(w) && HomesLive(w') && k in w.items
    requires w'.items.Keys == w.items.Keys && !w'.items[k].state.Stable?
    requires forall x :: x in w.items && x != k ==> w'.items[x] == w.items[x]
    requires forall j :: j in w'.nodes ==> j in w.nodes && w'.nodes[j].pfn == w.nodes[j].pfn
    requires w'.log == w.log + [e] && ((e.StaleStableNode? && e.last == k) || (e.ItemStateChange? && e.from == k))
    ensures Explains(w, w', shadow)
  {
    assert StableMap(w') == StableMap(w) - {k};
    ExplainsOne(w, w', e, shadow);
  }

  lemma SplitExplains(w: World, k: Key, id: nat, shadow: map<Key, nat>)
    requires Inv(w) && k in w.items && w.items[k].state.Stable? && w.items[k].home == Some(id)
    ensures Split(w, k, id).Running? && Explains(w, Split(w, k, id).world, shadow)
  {
    SplitShape(w, k, id);
    var w', n := Split(w, k, id).world, w.nodes[id];
    assert w'.items.Keys == w.items.Keys && !w'.items[k].state.Stable?;
    SplitReplays(w, w', k,
      if n.sharedCnt == 1 then StaleStableNode(k, n.pfn) else ItemStateChange(k, n.pfn, n.sharedCnt - 1), shadow);
  }

  lemma SplitThenVolatileReplays(w: World, k: Key, id: nat, h: HashPair, smart: bool, shadow: map<Key, nat>)
    requires Inv(w) && k in w.items && w.items[k].state.Stable? && w.items[k].home == Some(id) && h != NULL_HASH
    ensures Split(w, k, id).Running?
    ensures var o := MergeVolatile(Split(w, k, id).world, k, h, smart); o.Running? && Explains(w, o.world, shadow)
  {
    SplitKeepsInv(w, k, id);
    var w1 := Split(w, k, id).world;
    InvSane(w1);
    SplitExplains(w, k, id, shadow);
    MergeVolatileReplays(w1, k, h, smart, shadow);
    ExplainsTrans(w, w1, MergeVolatile(w1, k, h, smart).world, shadow);
  }

  lemma RekeyReplays(w: World, h: HashPair, h': HashPair, shadow: map<Key, nat>)
    requires Inv(w) && h in w.chains
    ensures Rekey(w, h, h').Running?
    ensures Explains(w, Rekey(w, h, h').world, shadow)
  {
    RekeyParts(w, h, h');
    RelabelSameMap(w, Rekey(w, h, h').world, h, h');
    ExplainsNothing(w, Rekey(w, h, h').world, shadow);
  }

  lemma RelabelSameMap(w: World, w': World, h: HashPair, h': HashPair)
    requires w'.items.Keys == w.items.Keys && w'.nodes.Keys == w.nodes.Keys
    requires forall k :: k in w.items ==> w'.items[k] == RekeyedItem(w.items[k], h, h')
    requires forall id :: id in w.nodes ==> w'.nodes[id] == RekeyedNode(w.nodes[id], h, h')
    ensures StableMap(w') == StableMap(w)
  {
  }

  lemma StableInPlaceReplays(w: World, k: Key, h: HashPair, smart: bool, shadow: map<Key, nat>)
    requires Inv(w) && k in w.items && w.items[k].state.Stable?
    requires w.items[k].home.Some? && w.items[k].home.value in w.nodes
    requires w.nodes[w.items[k].home.value].pfn == w.items[k].pfn
    ensures MergeOne(w, k, h, smart).Running? && Explains(w, MergeOne(w, k, h, smart).world, shadow)
  {
    StableInPlaceForm(w, k, h, smart);
    var n := w.nodes[w.items[k].home.value];
    if h == w.items[k].oldHash {
      TouchReplays(w, k, Calm(w.items[k]), shadow);
    } else {
      var w1 := Rekey(w, n.hash, h).world;
      RekeyReplays(w, n.hash, h, shadow);
      TouchReplays(w1, k, Calm(w1.items[k]), shadow);
      ExplainsTrans(w, w1, SetItem(w1, k, Calm(w1.items[k])), shadow);
    }
  }

  lemma MergeOneReplays(w: World, k: Key, h: HashPair, smart: bool, shadow: map<Key, nat>)
    requires Inv(w) && k in w.items && !w.items[k].state.Unstable?
    requires h != NULL_HASH && k in shadow && shadow[k] == w.items[k].pfn
    ensures MergeOne(w, k, h, smart).Running? && Explains(w, MergeOne(w, k, h, smart).world, shadow)
  {
    InvSane(w);
    assert ItemOk(w, k);
    if w.items[k].state.Volatile? {
      MergeVolatileReplays(w, k, h, smart, shadow);
    } else if w.nodes[w.items[k].home.value].pfn != w.items[k].pfn {
      SplitThenVolatileReplays(w, k, w.items[k].home.value, h, smart, shadow);
    } else {
      StableInPlaceReplays(w, k, h, smart, shadow);
    }
  }

  lemma LookupReplays(w: World, p: Page, shadow: map<Key, nat>)
    ensures Explains(w, Lookup(w, p), shadow)
  {
    assert StableMap(Lookup(w, p)) == StableMap(w);
    ExplainsNothing(w, Lookup(w, p), shadow);
  }

  lemma MergeVolatileOldReplays(w: World, k: Key, h: HashPair, shadow: map<Key, nat>)
    requires Sane(w) && k in w.items && w.items[k].state.Volatile?
    requires w.items[k].oldHash == h ==> k in shadow && shadow[k] == w.items[k].pfn
    ensures MergeVolatileOld(w, k, h).Running? && Explains(w, MergeVolatileOld(w, k, h).world, shadow)
  {
    match CmpWithStable(w, h)
    case Some(id) => JoinReplays(w, k, id, shadow);
    case None =>
      if w.items[k].oldHash != h {
        TouchReplays(w, k, w.items[k].(oldHash := h), shadow);
      } else if h in w.unstable {
        MergeWithUnstableReplays(w, k, h, shadow);
      } else {
        WaitReplays(w, k, h, shadow);
      }
  }

  lemma SplitOldExplains(w: World, k: Key, id: nat, shadow: map<Key, nat>)
    requires Inv(w) && k in w.items && w.items[k].state.Stable? && w.items[k].home == Some(id)
    ensures SplitOld(w, k, id).Running? && Explains(w, SplitOld(w, k, id).world, shadow)
    ensures SplitOld(w, k, id).world.items[k].oldHash == NULL_HASH
  {
    SplitShape(w, k, id);
    SplitExplains(w, k, id, shadow);
    var w1 := Split(w, k, id).world;
    TouchReplays(w1, k, w1.items[k].(score := w.items[k].score), shadow);
    ExplainsTrans(w, w1, SplitOld(w, k, id).world, shadow);
  }

  lemma MergeOneOldReplays(w: World, k: Key, h: HashPair, shadow: map<Key, nat>)
    requires Inv(w) && k in w.items && !w.items[k].state.Unstable?
    requires h != NULL_HASH && k in shadow && shadow[k] == w.items[k].pfn
    ensures MergeOneOld(w, k, h).Running? && Explains(w, MergeOneOld(w, k, h).world, shadow)
  {
    InvSane(w);
    assert ItemOk(w, k);
    if w.items[k].state.Volatile? {
      MergeVolatileOldReplays(w, k, h, shadow);
    } else if w.nodes[w.items[k].home.value].pfn != w.items[k].pfn {
      SplitThenVolatileOldReplays(w, k, w.items[k].home.value, h, shadow);
    } else if h != w.items[k].oldHash {
      assert NodeOk(w, w.items[k].home.value);
      RekeyReplays(w, w.items[k].oldHash, h, shadow);
    } else {
      ExplainsNothing(w, w, shadow);
    }
  }

  lemma SplitThenVolatileOldReplays(w: World, k: Key, id: nat, h: HashPair, shadow: map<Key, nat>)
    requires Inv(w) && k in w.items && w.items[k].state.Stable? && w.items[k].home == Some(id) && h != NULL_HASH
    ensures SplitOld(w, k, id).Running?
    ensures var o := MergeVolatileOld(SplitOld(w, k, id).world, k, h); o.Running? && Explains(w, o.world, shadow)
  {
    SplitOldKeepsInv(w, k, id);
    var w1 := SplitOld(w, k, id).world;
    InvSane(w1);
    SplitOldExplains(w, k, id, shadow);
    MergeVolatileOldReplays(w1, k, h, shadow);
    ExplainsTrans(w, w1, MergeVolatileOld(w1, k, h).world, shadow);
  }

  /** The new entries of one scanned page explain what it did to the map. */
  lemma ScanReplays(w: World, p: Page, mode: Mode, shadow: map<Key, nat>)
    requires Inv(w) && LegalPage(w, p) && p.key in shadow && shadow[p.key] == p.kpfn
    ensures Scan(w, p, mode).Running? && Explains(w, Scan(w, p, mode).world, shadow)
  {
    assert p.key in w.items ==> ItemOk(w, p.key);
    LookupKeepsInv(w, p);
    LookupReplays(w, p, shadow);
    if mode.Old? {
      MergeOneOldReplays(Lookup(w, p), p.key, p.hash, shadow);
    } else {
      MergeOneReplays(Lookup(w, p), p.key, p.hash, mode.Smart?, shadow);
    }
    ExplainsTrans(w, Lookup(w, p), Scan(w, p, mode).world, shadow);
  }

  // ---------------------------------------------------------------- a whole scan

  ghost predicate Shadows(shadow: map<Key, nat>, ps: seq<Page>) {
    forall p :: p in ps ==> p.key in shadow && shadow[p.key] == p.kpfn
  }

  /** Log replay over any sequence of scan steps. */
  lemma {:induction false} ScanAllReplays(w: World, ps: seq<Page>, mode: Mode, shadow: map<Key, nat>)
    requires Inv(w) && DistinctPages(ps) && AllUnscanned(w, ps) && CollisionFree(w, ps, mode)
    requires Shadows(shadow, ps)
    ensures ScanAll(w, ps, mode).Running? && Explains(w, ScanAll(w, ps, mode).world, shadow)
    decreases |ps|
  {
    if ps == [] {
      ExplainsNothing(w, w, shadow);
    } else {
      assert ps[0] in ps;
      ScanRest(w, ps, mode);
      ScanKeepsInv(w, ps[0], mode);
      ScanReplays(w, ps[0], mode, shadow);
      var w1 := Scan(w, ps[0], mode).world;
      ScanAllReplays(w1, ps[1..], mode, shadow);
      ExplainsTrans(w, w1, ScanAll(w1, ps[1..], mode).world, shadow);
    }
  }
}
