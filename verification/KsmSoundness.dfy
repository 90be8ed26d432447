/** Only pages whose digest was seen twice in a row are merged, and only with pages of that digest. */
module KsmSoundness {
  import opened Wrappers
  import opened KsmTypes
  import opened KsmSpec
  import opened KsmInvariant
  import opened KsmIterations

  /** For every page, the digests computed for it so far, oldest first. */
  type History = map<Key, seq<HashPair>>

  /** The digest of the page is computed in this scan: the skip policy does not pass it over. */
  ghost predicate Examined(w: World, p: Page, smart: bool) {
    var it := Lookup(w, p).items[p.key];
    || !(smart && it.skip > 0)
    || (it.state.Stable? && it.home.Some? && it.home.value in w.nodes && w.nodes[it.home.value].pfn == p.kpfn)
  }

  ghost function Record(hs: History, w: World, p: Page, smart: bool): History {
    if Examined(w, p, smart) then hs[p.key := (if p.key in hs then hs[p.key] else []) + [p.hash]] else hs
  }

  predicate Latest(hs: History, k: Key, h: HashPair) {
    k in hs && |hs[k]| >= 1 && hs[k][|hs[k]| - 1] == h
  }

  predicate LatestTwo(hs: History, k: Key, h: HashPair) {
    Latest(hs, k, h) && |hs[k]| >= 2 && hs[k][|hs[k]| - 2] == h
  }

  /** A Volatile item remembers no digest or its latest one; an Unstable one had it twice in a row. */
  ghost predicate Remembers(w: World, hs: History, k: Key)
    requires k in w.items
  {
    var it := w.items[k];
    && (it.state.Volatile? ==> it.oldHash == NULL_HASH || Latest(hs, k, it.oldHash))
    && (it.state.Unstable? ==> LatestTwo(hs, k, it.oldHash))
  }

  ghost predicate HistoryOk(w: World, hs: History) {
    forall k :: k in w.items ==> Remembers(w, hs, k)
  }

  ghost predicate IsStable(w: World, k: Key) {
    k in w.items && w.items[k].state.Stable?
  }

  /** A newly merged page had one digest at its two latest examinations, and it is its node's. */
  ghost predicate SoundlyMerged(w: World, hs: History, k: Key) {
    && IsStable(w, k) && w.items[k].home.Some? && w.items[k].home.value in w.nodes
    && LatestTwo(hs, k, w.nodes[w.items[k].home.value].hash)
    && w.items[k].lastAccess == w.iteration
  }

  ghost predicate SoundStep(w: World, w': World, hs': History) {
    forall k :: IsStable(w', k) && !IsStable(w, k) ==> SoundlyMerged(w', hs', k)
  }

  lemma JoinSound(w: World, k: Key, h: HashPair, id: nat, hs: History, hs': History)
    requires HistoryOk(w, hs) && k in w.items && w.items[k].state.Volatile? && w.items[k].lastAccess == w.iteration
    requires id in w.nodes && w.nodes[id].sharedCnt < MAX_PAGE_SHARING && w.nodes[id].hash == h
    requires LatestTwo(hs', k, h) && SameElsewhere(hs, hs', k)
    ensures MergeIntoStable(w, k, id).Running?
    ensures HistoryOk(MergeIntoStable(w, k, id).world, hs') && SoundStep(w, MergeIntoStable(w, k, id).world, hs')
  {
    MergeIntoStableForm(w, k, id);
    var w' := MergeIntoStable(w, k, id).world;
    forall x | x in w'.items ensures Remembers(w', hs', x) { assert Remembers(w, hs, x); }
  }

  lemma PairSound(w: World, w': World, k: Key, partner: Key, id: nat, hs: History, hs': History)
    requires HistoryOk(w, hs) && k in w.items && partner in w.items
    requires w'.items.Keys == w.items.Keys && w'.iteration == w.iteration
    requires forall x :: x in w.items && x != k && x != partner ==> w'.items[x] == w.items[x]
    requires id in w'.nodes && LatestTwo(hs', k, w'.nodes[id].hash) && LatestTwo(hs', partner, w'.nodes[id].hash)
    requires w'.items[k].state.Stable? && w'.items[k].home == Some(id) && w'.items[k].lastAccess == w.iteration
    requires w'.items[partner].state.Stable? && w'.items[partner].home == Some(id)
    requires w'.items[partner].lastAccess == w.iteration
    requires SameElsewhere(hs, hs', k)
    ensures HistoryOk(w', hs') && SoundStep(w, w', hs')
  {
    forall x | x in w'.items ensures Remembers(w', hs', x) { assert Remembers(w, hs, x); }
  }

  lemma WaitSound(w: World, k: Key, h: HashPair, hs: History, hs': History)
    requires HistoryOk(w, hs) && k in w.items && w.items[k].state.Volatile? && h !in w.unstable
    requires LatestTwo(hs', k, h) && SameElsewhere(hs, hs', k)
    ensures BecomeUnstable(w, k, h).Running?
    ensures HistoryOk(BecomeUnstable(w, k, h).world, hs') && SoundStep(w, BecomeUnstable(w, k, h).world, hs')
  {
    var w' := BecomeUnstable(w, k, h).world;
    forall x | x in w'.items ensures Remembers(w', hs', x) { assert Remembers(w, hs, x); }
  }

  predicate SameElsewhere(hs: History, hs': History, k: Key) {
    forall x :: x != k && x in hs ==> x in hs' && hs'[x] == hs[x]
  }

  lemma MatchSound(w: World, k: Key, h: HashPair, hs: History, hs': History)
    requires Sane(w) && HistoryOk(w, hs)
    requires k in w.items && w.items[k].state.Volatile? && w.items[k].lastAccess == w.iteration
    requires h != NULL_HASH && w.items[k].oldHash == h
    requires hs' == hs[k := (if k in hs then hs[k] else []) + [h]]
    ensures Match(w, k, h).Running?
    ensures HistoryOk(Match(w, k, h).world, hs') && SoundStep(w, Match(w, k, h).world, hs')
  {
    assert Remembers(w, hs, k);
    match CmpWithStable(w, h) {
      case Some(id) =>
        JoinSound(w, k, h, id, hs, hs');
      case None =>
        if h in w.unstable {
          MergeWithUnstableForm(w, k, h);
          var partner := w.unstable[h];
          assert PartnerOk(w, h) && Remembers(w, hs, partner);
          PairSound(w, MergeWithUnstable(w, k, h).world, k, partner, w.nextId, hs, hs');
        } else {
          WaitSound(w, k, h, hs, hs');
        }
    }
  }

  lemma TouchSound(w: World, k: Key, it: Item, hs: History, hs': History)
    requires HistoryOk(w, hs) && k in w.items && w.items[k].state.Volatile? && it.state.Volatile?
    requires SameElsewhere(hs, hs', k) && (it.oldHash == NULL_HASH || Latest(hs', k, it.oldHash))
    ensures HistoryOk(SetItem(w, k, it), hs') && SoundStep(w, SetItem(w, k, it), hs')
    ensures forall x :: IsStable(SetItem(w, k, it), x) <==> IsStable(w, x)
  {
    var w' := SetItem(w, k, it);
    forall x | x in w'.items ensures Remembers(w', hs', x) { assert Remembers(w, hs, x); }
  }

  lemma MergeVolatileSound(w: World, k: Key, h: HashPair, smart: bool, hs: History, hs': History)
    requires Inv(w) && HistoryOk(w, hs)
    requires k in w.items && w.items[k].state.Volatile? && w.items[k].lastAccess == w.iteration
    requires h != NULL_HASH
    requires hs' == if smart && w.items[k].skip > 0 then hs else hs[k := (if k in hs then hs[k] else []) + [h]]
    ensures MergeVolatile(w, k, h, smart).Running?
    ensures HistoryOk(MergeVolatile(w, k, h, smart).world, hs')
    ensures SoundStep(w, MergeVolatile(w, k, h, smart).world, hs')
  {
    var it := Aged(w.items[k], smart);
    assert Remembers(w, hs, k);
    if smart && w.items[k].skip > 0 {
      TouchSound(w, k, it, hs, hs');
    } else if it.oldHash == h {
      TouchSound(w, k, Calm(it), hs, hs);
      TouchKeepsInv(w, k, Calm(it));
      InvSane(SetItem(w, k, Calm(it)));
      MatchSound(SetItem(w, k, Calm(it)), k, h, hs, hs');
    } else {
      TouchSound(w, k, Remembered(it, h), hs, hs');
    }
  }

  lemma RekeySound(w: World, h: HashPair, h': HashPair, hs: History)
    requires Inv(w) && HistoryOk(w, hs) && h in w.chains
    ensures Rekey(w, h, h').Running?
    ensures HistoryOk(Rekey(w, h, h').world, hs)
    ensures forall x :: IsStable(Rekey(w, h, h').world, x) <==> IsStable(w, x)
  {
    RekeyParts(w, h, h');
    RelabelSound(w, Rekey(w, h, h').world, h, h', hs);
  }

  lemma RelabelSound(w: World, w': World, h: HashPair, h': HashPair, hs: History)
    requires HistoryOk(w, hs) && w'.items.Keys == w.items.Keys
    requires forall k :: k in w.items ==> w'.items[k] == RekeyedItem(w.items[k], h, h')
    ensures HistoryOk(w', hs)
    ensures forall x :: IsStable(w', x) <==> IsStable(w, x)
  {
    forall x | x in w'.items ensures Remembers(w', hs, x) { assert Remembers(w, hs, x); }
  }

  lemma CalmSound(w: World, k: Key, hs: History, hs': History)
    requires HistoryOk(w, hs) && IsStable(w, k) && SameElsewhere(hs, hs', k)
    ensures HistoryOk(SetItem(w, k, Calm(w.items[k])), hs')
    ensures forall x :: IsStable(SetItem(w, k, Calm(w.items[k])), x) <==> IsStable(w, x)
  {
    var w' := SetItem(w, k, Calm(w.items[k]));
    forall x | x in w'.items ensures Remembers(w', hs', x) { assert Remembers(w, hs, x); }
  }

  lemma StableInPlaceSound(w: World, k: Key, h: HashPair, smart: bool, hs: History, hs': History)
    requires Inv(w) && HistoryOk(w, hs) && k in w.items && w.items[k].state.Stable?
    requires w.items[k].home.Some? && w.items[k].home.value in w.nodes
    requires w.nodes[w.items[k].home.value].pfn == w.items[k].pfn
    requires SameElsewhere(hs, hs', k)
    ensures MergeOne(w, k, h, smart).Running?
    ensures HistoryOk(MergeOne(w, k, h, smart).world, hs') && SoundStep(w, MergeOne(w, k, h, smart).world, hs')
  {
    StableInPlaceForm(w, k, h, smart);
    var g := w.nodes[w.items[k].home.value].hash;
    if h == g {
      CalmSound(w, k, hs, hs');
    } else {
      RekeySound(w, g, h, hs);
      CalmSound(Rekey(w, g, h).world, k, hs, hs');
    }
  }

  lemma LookupRemembers(w: World, p: Page, hs: History)
    requires HistoryOk(w, hs)
    ensures HistoryOk(Lookup(w, p), hs)
  {
    var w1 := Lookup(w, p);
    forall x | x in w1.items ensures Remembers(w1, hs, x) {
      if x in w.items { assert Remembers(w, hs, x); }
    }
  }

  lemma SplitSound(w: World, k: Key, id: nat, h: HashPair, smart: bool, hs: History, hs': History)
    requires Inv(w) && HistoryOk(w, hs) && k in w.items && w.items[k].state.Stable? && w.items[k].home == Some(id)
    requires w.items[k].lastAccess == w.iteration && h != NULL_HASH
    requires hs' == if smart && w.items[k].skip > 0 then hs else hs[k := (if k in hs then hs[k] else []) + [h]]
    ensures Split(w, k, id).Running?
    ensures var o := MergeVolatile(Split(w, k, id).world, k, h, smart);
      o.Running? && HistoryOk(o.world, hs') && SoundStep(w, o.world, hs')
  {
    SplitKeepsInv(w, k, id);
    var w1 := Split(w, k, id).world;
    forall x | x in w1.items ensures Remembers(w1, hs, x) { assert Remembers(w, hs, x); }
    MergeVolatileSound(w1, k, h, smart, hs, hs');
    SplitStaysOut(w1, k, h, smart);
  }

  /** Merge soundness of one scanned page. */
  lemma ScanSound(w: World, p: Page, smart: bool, hs: History)
    requires Inv(w) && LegalPage(w, p) && HistoryOk(w, hs)
    ensures Scan(w, p, ModeOf(smart)).Running?
    ensures HistoryOk(Scan(w, p, ModeOf(smart)).world, Record(hs, w, p, smart))
    ensures SoundStep(w, Scan(w, p, ModeOf(smart)).world, Record(hs, w, p, smart))
  {
    assert p.key in w.items ==> ItemOk(w, p.key);
    LookupKeepsInv(w, p);
    LookupRemembers(w, p, hs);
    MergeOneSound(Lookup(w, p), p.key, p.hash, smart, hs, Record(hs, w, p, smart));
  }

  lemma MergeOneSound(w: World, k: Key, h: HashPair, smart: bool, hs: History, hs': History)
    requires Inv(w) && HistoryOk(w, hs) && h != NULL_HASH
    requires k in w.items && !w.items[k].state.Unstable? && w.items[k].lastAccess == w.iteration
    requires
      var it := w.items[k];
      hs' == if smart && it.skip > 0 && !(it.state.Stable? && it.home.Some? && it.home.value in w.nodes && w.nodes[it.home.value].pfn == it.pfn)
             then hs else hs[k := (if k in hs then hs[k] else []) + [h]]
    ensures MergeOne(w, k, h, smart).Running?
    ensures HistoryOk(MergeOne(w, k, h, smart).world, hs') && SoundStep(w, MergeOne(w, k, h, smart).world, hs')
  {
    assert ItemOk(w, k);
    if w.items[k].state.Volatile? {
      MergeVolatileSound(w, k, h, smart, hs, hs');
    } else if w.nodes[w.items[k].home.value].pfn == w.items[k].pfn {
      StableInPlaceSound(w, k, h, smart, hs, hs');
    } else {
      SplitSound(w, k, w.items[k].home.value, h, smart, hs, hs');
    }
  }

  /** A page that has just left its node does not merge again in the same scan. */
  lemma SplitStaysOut(w: World, k: Key, h: HashPair, smart: bool)
    requires k in w.items && w.items[k].state.Volatile? && w.items[k].oldHash == NULL_HASH && h != NULL_HASH
    ensures MergeVolatile(w, k, h, smart).Running?
    ensures var w' := MergeVolatile(w, k, h, smart).world;
      w'.items.Keys == w.items.Keys && forall x :: IsStable(w', x) <==> IsStable(w, x)
  {
  }

  // ---------------------------------------------------------------- whole runs

  ghost function RecordAll(hs: History, w: World, ps: seq<Page>, smart: bool): History
    decreases |ps|
  {
    if ps == [] || Scan(w, ps[0], ModeOf(smart)).Stopped? then hs
    else RecordAll(Record(hs, w, ps[0], smart), Scan(w, ps[0], ModeOf(smart)).world, ps[1..], smart)
  }

  /** Every merge of the scan is sound. */
  ghost predicate SoundPages(w: World, hs: History, ps: seq<Page>, smart: bool)
    decreases |ps|
  {
    ps != [] ==>
      && Scan(w, ps[0], ModeOf(smart)).Running?
      && SoundStep(w, Scan(w, ps[0], ModeOf(smart)).world, Record(hs, w, ps[0], smart))
      && SoundPages(Scan(w, ps[0], ModeOf(smart)).world, Record(hs, w, ps[0], smart), ps[1..], smart)
  }

  lemma {:induction false} ScanAllSound(w: World, hs: History, ps: seq<Page>, smart: bool)
    requires Inv(w) && DistinctPages(ps) && AllUnscanned(w, ps) && CollisionFree(w, ps, ModeOf(smart)) && HistoryOk(w, hs)
    ensures SoundPages(w, hs, ps, smart)
    ensures ScanAll(w, ps, ModeOf(smart)).Running?
    ensures HistoryOk(ScanAll(w, ps, ModeOf(smart)).world, RecordAll(hs, w, ps, smart))
    decreases |ps|
  {
    if ps != [] {
      ScanRest(w, ps, ModeOf(smart));
      ScanKeepsInv(w, ps[0], ModeOf(smart));
      ScanSound(w, ps[0], smart, hs);
      ScanAllSound(Scan(w, ps[0], ModeOf(smart)).world, Record(hs, w, ps[0], smart), ps[1..], smart);
    }
  }

  lemma {:induction false} UndoAllRemembers(w: World, es: seq<HostError>, hs: History)
    requires Inv(w) && LegalErrors(w, es) && HistoryOk(w, hs)
    ensures UndoAll(w, es).Running? && HistoryOk(UndoAll(w, es).world, hs)
    decreases |es|
  {
    if es != [] {
      var e := es[0];
      UndoKeepsInv(w, e);
      var w1 := Undo(w, e).world;
      if e.MergeOneFailed? { UndoOneKeepsInv(w, e.from, e.kpfn); } else { UndoTwoKeepsInv(w, e.from); }
      forall k | k in w1.items ensures Remembers(w1, hs, k) { assert Remembers(w, hs, k); }
      UndoAllRemembers(w1, es[1..], hs);
    }
  }

  lemma PruneRemembers(w: World, order: seq<Key>, hs: History)
    requires Inv(w) && Enumerates(order, StaleKeys(w)) && HistoryOk(w, hs)
    ensures PruneMetadata(w, order).Running? && HistoryOk(PruneMetadata(w, order).world, hs)
  {
    PruneMetadataKeepsInv(w, order);
    CleanUpKeepsInv(w);
    var w1 := CleanUpUnstable(w);
    forall k | k in w1.items ensures Remembers(w1, hs, k) { assert Remembers(w, hs, k); }
    if PruneDue(w1) {
      assert StaleKeys(w1) == StaleKeys(w);
      PruneRmapKeepsInv(w1, order);
      var w2 := PruneRmap(w1, order).world;
      forall k | k in w2.items ensures Remembers(w2, hs, k) { assert Remembers(w1, hs, k); }
    }
  }

  ghost predicate SoundRun(w: World, hs: History, its: seq<Iteration>, smart: bool)
    decreases |its|
  {
    its != [] ==>
      && UndoAll(w, its[0].errors).Running?
      && var w1 := UndoAll(w, its[0].errors).world;
      && SoundPages(w1, hs, its[0].pages, smart)
      && Iterate(w, its[0], ModeOf(smart)).Running?
      && SoundRun(Iterate(w, its[0], ModeOf(smart)).world, RecordAll(hs, w1, its[0].pages, smart), its[1..], smart)
  }

  /** Every merge of every iteration of a legal run is sound. */
  lemma {:induction false} RunSound(w: World, hs: History, its: seq<Iteration>, smart: bool)
    requires Resting(w) && LegalRun(w, its, ModeOf(smart)) && HistoryOk(w, hs)
    ensures SoundRun(w, hs, its, smart)
    decreases |its|
  {
    if its != [] {
      var it := its[0];
      IterateKeepsResting(w, it, ModeOf(smart));
      UndoAllKeepsInv(w, it.errors);
      UndoAllRemembers(w, it.errors, hs);
      var w1 := UndoAll(w, it.errors).world;
      ScanAllSound(w1, hs, it.pages, smart);
      assert ScannedNow(w1) == {};
      ScanAllKeepsInv(w1, it.pages, ModeOf(smart));
      var w2 := ScanAll(w1, it.pages, ModeOf(smart)).world;
      var hs' := RecordAll(hs, w1, it.pages, smart);
      PruneRemembers(w2, it.order, hs');
      var w3 := PruneMetadata(w2, it.order).world;
      var w4 := NextIteration(w3);
      forall k | k in w4.items ensures Remembers(w4, hs', k) { assert Remembers(w3, hs', k); }
      RunSound(w4, hs', its[1..], smart);
    }
  }
}
