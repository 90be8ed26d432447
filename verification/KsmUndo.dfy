/** What one host error undoes: a merge followed by its failure leaves the chains as they were. */
module KsmUndo {
  import opened Wrappers
  import opened KsmTypes
  import opened KsmSpec
  import opened KsmInvariant
  import opened KsmIterations

  /** The state in which the host's failure leaves a page that was about to merge. */
  function Rebuffed(it: Item): Item {
    it.(state := Volatile, oldPfn := 0, oldHash := NULL_HASH, home := None, score := it.score + 1)
  }

  /** A stable merge and its HOST_MERGE_ONE_FAILED: nodes, chains and tables are as before. */
  lemma StableMergeRoundTrip(w: World, k: Key, id: nat)
    requires Inv(w) && k in w.items && w.items[k].state.Volatile?
    requires id in w.nodes && w.nodes[id].sharedCnt < MAX_PAGE_SHARING
    ensures var o := MergeIntoStable(w, k, id);
      && o.Running?
      && UndoOne(o.world, k, w.nodes[id].pfn) ==
           Running(w.(items := w.items[k := Rebuffed(w.items[k])], log := o.world.log))
  {
    MergeIntoStableForm(w, k, id);
    assert NodeOk(w, id) && (k in w.nodes[id].members ==> MemberOk(w, id, k));
    var w1 := MergeIntoStable(w, k, id).world;
    var w2 := RemoveItem(w1, id, k).world;
    assert w.nodes[id].members + {k} - {k} == w.nodes[id].members;
    assert w2.nodes == w.nodes;
    assert w1.items[k := Rebuffed(w.items[k])] == w.items[k := Rebuffed(w.items[k])];
    assert Agitate(ResetValue(w1.items[k])) == Rebuffed(w.items[k]);
  }

  // ---------------------------------------------------------------- a failed pair and its joiners

  /** Pages that later merged, one after the other, into one node. */
  function JoinAll(w: World, id: nat, ks: seq<Key>): Outcome
    decreases |ks|
  {
    if ks == [] then Running(w)
    else
      var w1 :- MergeIntoStable(w, ks[0], id);
      JoinAll(w1, id, ks[1..])
  }

  /** Distinct pages that can still join: Volatile, and few enough. */
  ghost predicate CanJoin(w: World, id: nat, ks: seq<Key>) {
    && id in w.nodes && w.nodes[id].sharedCnt + |ks| <= MAX_PAGE_SHARING
    && (forall i, j :: 0 <= i < j < |ks| ==> ks[i] != ks[j])
    && (forall k :: k in ks ==> k in w.items && w.items[k].state.Volatile?)
  }

  /** Only the members of the node differ, and they remember their own frames. */
  ghost predicate OnlyJoined(w: World, w': World, id: nat, ms: set<Key>) {
    && w'.items.Keys == w.items.Keys && ms <= w.items.Keys
    && (forall k :: k in w.items && k !in ms ==> w'.items[k] == w.items[k])
    && (forall k :: k in ms ==> Joined(w.items[k], w'.items[k], id))
    && w'.chains == w.chains && w'.unstable == w.unstable
    && id in w.nodes && id in w'.nodes && w'.nodes - {id} == w.nodes - {id}
    && w'.nodes[id].members == w.nodes[id].members + ms && w'.nodes[id].hash == w.nodes[id].hash
    && w'.nextId == w.nextId && w'.iteration == w.iteration && w'.accessed == w.accessed
  }

  predicate Joined(it: Item, it': Item, id: nat) {
    && it.state.Volatile? && it'.state.Stable? && it'.home == Some(id)
    && it'.oldPfn == it.pfn
    && it' == it.(state := Stable, home := Some(id), oldPfn := it.pfn, pfn := it'.pfn, oldHash := it'.oldHash)
  }

  lemma JoinOne(w: World, id: nat, k: Key)
    requires k in w.items && w.items[k].state.Volatile?
    requires id in w.nodes && w.nodes[id].sharedCnt < MAX_PAGE_SHARING
    ensures MergeIntoStable(w, k, id).Running?
    ensures OnlyJoined(w, MergeIntoStable(w, k, id).world, id, {k})
    ensures MergeIntoStable(w, k, id).world.nodes[id].sharedCnt == w.nodes[id].sharedCnt + 1
  {
    MergeIntoStableForm(w, k, id);
    var w' := MergeIntoStable(w, k, id).world;
    assert w'.nodes - {id} == w.nodes - {id};
  }

  lemma OnlyJoinedTrans(a: World, b: World, c: World, id: nat, k: Key, ms: set<Key>)
    requires OnlyJoined(a, b, id, {k}) && OnlyJoined(b, c, id, ms) && k !in ms
    ensures OnlyJoined(a, c, id, {k} + ms)
  {
  }

  lemma {:induction false} JoinAllJoins(w: World, id: nat, ks: seq<Key>)
    requires CanJoin(w, id, ks)
    ensures JoinAll(w, id, ks).Running? && OnlyJoined(w, JoinAll(w, id, ks).world, id, Keys(ks))
    decreases |ks|
  {
    if ks != [] {
      var k := ks[0];
      JoinOne(w, id, k);
      var w1 := MergeIntoStable(w, k, id).world;
      forall x | x in ks[1..] ensures x in w1.items && w1.items[x].state.Volatile? { assert x in ks && x != k; }
      JoinAllJoins(w1, id, ks[1..]);
      OnlyJoinedTrans(w, w1, JoinAll(w1, id, ks[1..]).world, id, k, Keys(ks[1..]));
      assert Keys(ks) == {k} + Keys(ks[1..]);
    }
  }

  /** The items after the failure: the pair and every joiner are Volatile again, nothing else changed. */
  function AllRebuffed(items: map<Key, Item>, ms: set<Key>): map<Key, Item> {
    map m | m in items :: if m in ms then Rebuffed(items[m]) else items[m]
  }

  lemma LastOut(c: seq<nat>, id: nat)
    requires id !in c
    ensures Without(c + [id], id) == c
  {
    var d := c + [id];
    assert d[|c|] == id && id in d;
    var i := IndexOf(d, id);
    assert forall j :: 0 <= j < |c| ==> d[j] == c[j] && c[j] in c;
    assert i == |c|;
    assert d[..|c|] == c;
  }

  /**
   An unstable merge, any later joiners, and its HOST_MERGE_TWO_FAILED: nodes and chains are
   exactly as before, and the pair and the joiners go back to Volatile on their own frames.
   */
  lemma UnstableMergeRoundTrip(w: World, k: Key, h: HashPair, ks: seq<Key>)
    requires Inv(w) && k in w.items && w.items[k].state.Volatile? && h in w.unstable
    requires MergeWithUnstable(w, k, h).Running? ==> CanJoin(MergeWithUnstable(w, k, h).world, w.nextId, ks)
    ensures MergeWithUnstable(w, k, h).Running?
    ensures var o := JoinAll(MergeWithUnstable(w, k, h).world, w.nextId, ks);
      && o.Running?
      && UndoTwo(o.world, k) == Running(w.(
           items := AllRebuffed(w.items, {w.unstable[h], k} + Keys(ks)),
           unstable := w.unstable - {h}, nextId := w.nextId + 1, log := o.world.log))
  {
    InvSane(w);
    MergeWithUnstableForm(w, k, h);
    var w1, id := MergeWithUnstable(w, k, h).world, w.nextId;
    JoinAllJoins(w1, id, ks);
    var w2 := JoinAll(w1, id, ks).world;
    PairAndJoinersReset(w, w1, w2, k, h, Keys(ks));
    assert w1.nodes - {id} == w.nodes - {id};
    PairAndJoinersUnchained(w, w1, w2, h);
    UndoTwoForm(w2, k, id, {w.unstable[h], k} + Keys(ks));
  }

  lemma UndoTwoForm(w: World, k: Key, id: nat, ms: set<Key>)
    requires k in w.items && w.items[k].home == Some(id) && id in w.nodes && w.nodes[id].members == ms
    requires forall m :: m in ms ==> m in w.items && w.items[m].state.Stable?
    ensures RemoveNode(w, id).Running? ==>
      UndoTwo(w, k) == Running(RemoveNode(w, id).world.(items := ResetAll(w.items, ms)))
  {
  }

  lemma OneReset(w: World, w1: World, w2: World, k: Key, h: HashPair, js: set<Key>, m: Key)
    requires Sane(w) && k in w.items && w.items[k].state.Volatile? && h in w.unstable
    requires MergeWithUnstable(w, k, h) == Running(w1)
    requires OnlyJoined(w1, w2, w.nextId, js) && m in w.items
    ensures m in w2.items
    ensures m in {w.unstable[h], k} + js ==>
              w2.items[m].state.Stable? && w2.items[m].home == Some(w.nextId)
              && Agitate(ResetValue(w2.items[m])) == Rebuffed(w.items[m])
    ensures m !in {w.unstable[h], k} + js ==> w2.items[m] == w.items[m]
  {
    MergeWithUnstableForm(w, k, h);
    if m in js { assert Joined(w1.items[m], w2.items[m], w.nextId); }
  }

  lemma PairAndJoinersReset(w: World, w1: World, w2: World, k: Key, h: HashPair, js: set<Key>)
    requires Sane(w) && k in w.items && w.items[k].state.Volatile? && h in w.unstable
    requires MergeWithUnstable(w, k, h) == Running(w1)
    requires OnlyJoined(w1, w2, w.nextId, js)
    ensures k in w2.items && w2.items[k].home == Some(w.nextId)
    ensures var ms := {w.unstable[h], k} + js;
      && w2.nodes[w.nextId].members == ms
      && (forall m :: m in ms ==> m in w2.items && w2.items[m].state.Stable?)
      && ResetAll(w2.items, ms) == AllRebuffed(w.items, ms)
  {
    MergeWithUnstableForm(w, k, h);
    var ms := {w.unstable[h], k} + js;
    assert w1.items.Keys == w.items.Keys;
    forall m | m in w.items
      ensures m in ms ==> w2.items[m].state.Stable? && Agitate(ResetValue(w2.items[m])) == Rebuffed(w.items[m])
      ensures m !in ms ==> w2.items[m] == w.items[m]
    {
      OneReset(w, w1, w2, k, h, js, m);
    }
    OneReset(w, w1, w2, k, h, js, k);
    ResetsAgree(w2.items, w.items, ms);
  }

  lemma ResetsAgree(items': map<Key, Item>, items: map<Key, Item>, ms: set<Key>)
    requires items'.Keys == items.Keys
    requires forall m :: m in items && m in ms ==> Agitate(ResetValue(items'[m])) == Rebuffed(items[m])
    requires forall m :: m in items && m !in ms ==> items'[m] == items[m]
    ensures ResetAll(items', ms) == AllRebuffed(items, ms)
  {
    assert ResetAll(items', ms).Keys == items.Keys;
  }

  lemma PairAndJoinersUnchained(w: World, w1: World, w2: World, h: HashPair)
    requires Inv(w)
    requires w1.chains == w.chains[h := (if h in w.chains then w.chains[h] else []) + [w.nextId]]
    requires w2.chains == w1.chains && w2.nodes - {w.nextId} == w1.nodes - {w.nextId}
    requires w1.nodes - {w.nextId} == w.nodes - {w.nextId}
    requires w.nextId in w2.nodes && w2.nodes[w.nextId].hash == h
    ensures RemoveNode(w2, w.nextId) == Running(w2.(nodes := w.nodes, chains := w.chains))
  {
    NextIdFresh(w);
    var id := w.nextId;
    assert w.nodes - {id} == w.nodes;
    var c := if h in w.chains then w.chains[h] else [];
    assert h in w.chains ==> ChainOk(w, h);
    assert (c + [id])[|c|] == id;
    LastOut(c, id);
    if c == [] {
      assert w2.chains - {h} == w.chains;
    } else {
      assert w2.chains[h := c] == w.chains;
    }
  }
}
