/** What pruning does to the nodes, and how much of it the log tells the host. */
module KsmPrune {
  import opened Wrappers
  import opened KsmTypes
  import opened KsmSpec
  import opened KsmInvariant
  import opened KsmIterations
  import opened KsmReplay

  /** Every node has members and counts them. */
  ghost predicate Counted(w: World) {
    forall id :: id in w.nodes ==> w.nodes[id].members != {} && w.nodes[id].sharedCnt == |w.nodes[id].members|
  }

  lemma InvCounted(w: World)
    requires Inv(w)
    ensures Counted(w)
  {
    forall id | id in w.nodes ensures w.nodes[id].members != {} && w.nodes[id].sharedCnt == |w.nodes[id].members| {
      assert NodeOk(w, id);
    }
  }

  /** One stale entry names one removed node and its last member. */
  ghost predicate NamesNode(w: World, e: LogEntry, id: nat) {
    && id in w.nodes && e.StaleStableNode? && e.kpfn == w.nodes[id].pfn
    && e.last in w.nodes[id].members
  }

  ghost predicate Thinned(n: Node, n': Node, gone: set<Key>) {
    n'.members == n.members - gone && n'.sharedCnt == |n'.members| && n'.pfn == n.pfn && n'.hash == n.hash
  }

  ghost predicate Survives(n: Node, gone: set<Key>) {
    n.members - gone != {}
  }

  /** The nodes that keep a member are those that stay, and they keep exactly their surviving members. */
  ghost predicate NodesThinned(w: World, w': World, gone: set<Key>) {
    && (forall id :: id in w'.nodes ==> id in w.nodes)
    && (forall id :: id in w.nodes ==> (id in w'.nodes <==> Survives(w.nodes[id], gone)))
    && (forall id :: id in w'.nodes ==> Thinned(w.nodes[id], w'.nodes[id], gone))
  }

  /** The new entries are one per removed node. */
  ghost predicate Witnesses(w: World, w': World, es: seq<LogEntry>, ids: seq<nat>) {
    && w'.log == w.log + es && |es| == |ids|
    && Distinct(ids)
    && (forall id :: id in ids ==> id in w.nodes && id !in w'.nodes)
    && (forall id :: id in w.nodes && id !in w'.nodes ==> id in ids)
    && (forall i :: 0 <= i < |ids| ==> NamesNode(w, es[i], ids[i]))
  }

  lemma LeaveShape(w: World, k: Key, id: nat, it: Item)
    requires id in w.nodes && Leave(w, k, id, it, []).Running?
    ensures var w', n := Leave(w, k, id, it, []).world, w.nodes[id];
      if n.sharedCnt == 1 then
        w'.nodes == w.nodes - {id} && w'.log == w.log + [StaleStableNode(k, n.pfn)]
      else
        w'.nodes == w.nodes[id := Less(n, k)] && w'.log == w.log
  {
    var w1 := SetItem(RemoveItem(w, id, k).world, k, it);
    assert w1.log + [] == w1.log;
    assert w1.nodes - {id} == w.nodes - {id};
  }

  /** A node without one of its members. */
  function Less(n: Node, k: Key): Node {
    n.(sharedCnt := n.sharedCnt - 1, members := n.members - {k})
  }

  lemma LessIsThinned(n: Node, k: Key)
    requires k in n.members && n.sharedCnt == |n.members|
    ensures Thinned(n, Less(n, k), {k}) && (Survives(n, {k}) <==> n.sharedCnt != 1)
  {
    assert |n.members - {k}| == |n.members| - 1;
    assert n.sharedCnt == 1 <==> |n.members - {k}| == 0;
  }

  lemma UntouchedIsThinned(n: Node, gone: set<Key>)
    requires n.members !! gone && n.members != {} && n.sharedCnt == |n.members|
    ensures Thinned(n, n, gone) && Survives(n, gone)
  {
    assert n.members - gone == n.members;
  }

  lemma ThinOne(w: World, w': World, k: Key, id: nat)
    requires Counted(w) && id in w.nodes
    requires forall j :: j in w.nodes ==> (k in w.nodes[j].members <==> j == id)
    requires if w.nodes[id].sharedCnt == 1 then w'.nodes == w.nodes - {id}
             else w'.nodes == w.nodes[id := Less(w.nodes[id], k)]
    ensures NodesThinned(w, w', {k})
  {
    LessIsThinned(w.nodes[id], k);
    forall j | j in w.nodes && j != id
      ensures Thinned(w.nodes[j], w.nodes[j], {k}) && Survives(w.nodes[j], {k})
    {
      UntouchedIsThinned(w.nodes[j], {k});
    }
  }

  lemma ThinNone(w: World, w': World, gone: set<Key>)
    requires Counted(w) && w'.nodes == w.nodes
    requires forall j :: j in w.nodes ==> w.nodes[j].members !! gone
    ensures NodesThinned(w, w', gone)
  {
    forall j | j in w.nodes
      ensures Thinned(w.nodes[j], w.nodes[j], gone) && Survives(w.nodes[j], gone)
    {
      UntouchedIsThinned(w.nodes[j], gone);
    }
  }

  lemma OnlyHome(w: World, k: Key, id: nat)
    requires Inv(w) && k in w.items && id in w.nodes
    ensures k in w.nodes[id].members <==> w.items[k].state.Stable? && w.items[k].home == Some(id)
  {
    assert NodeOk(w, id) && ItemOk(w, k);
    assert k in w.nodes[id].members ==> MemberOk(w, id, k);
  }

  lemma PruneMemberThins(w: World, k: Key, id: nat) returns (es: seq<LogEntry>, ids: seq<nat>)
    requires Inv(w) && k in w.items && w.items[k].state.Stable? && w.items[k].home == Some(id)
    ensures id in w.nodes && Leave(w, k, id, ResetValue(w.items[k]), []).Running?
    ensures var w' := DropItem(Leave(w, k, id, ResetValue(w.items[k]), []).world, k);
      NodesThinned(w, w', {k}) && Witnesses(w, w', es, ids)
  {
    InvCounted(w);
    LeaveKeepsInv(w, k, ResetValue(w.items[k]), []);
    LeaveShape(w, k, id, ResetValue(w.items[k]));
    forall j | j in w.nodes ensures k in w.nodes[j].members <==> j == id { OnlyHome(w, k, j); }
    ThinOne(w, DropItem(Leave(w, k, id, ResetValue(w.items[k]), []).world, k), k, id);
    es, ids := [], [];
    if w.nodes[id].sharedCnt == 1 { es, ids := [StaleStableNode(k, w.nodes[id].pfn)], [id]; }
  }

  lemma PruneOneThins(w: World, k: Key) returns (es: seq<LogEntry>, ids: seq<nat>)
    requires Inv(w) && k in w.items && !w.items[k].state.Unstable?
    ensures PruneOne(w, k).Running?
    ensures NodesThinned(w, PruneOne(w, k).world, {k}) && Witnesses(w, PruneOne(w, k).world, es, ids)
  {
    PruneOneForm(w, k);
    if w.items[k].state.Stable? {
      es, ids := PruneMemberThins(w, k, w.items[k].home.value);
    } else {
      InvCounted(w);
      forall j | j in w.nodes ensures k !in w.nodes[j].members { OnlyHome(w, k, j); }
      ThinNone(w, PruneOne(w, k).world, {k});
      es, ids := [], [];
    }
  }

  lemma ThinTrans(a: World, b: World, c: World, x: set<Key>, y: set<Key>)
    requires NodesThinned(a, b, x) && NodesThinned(b, c, y)
    ensures NodesThinned(a, c, x + y)
  {
    forall id | id in a.nodes
      ensures id in c.nodes <==> Survives(a.nodes[id], x + y)
    {
      assert a.nodes[id].members - (x + y) == a.nodes[id].members - x - y;
      if id in b.nodes { assert Thinned(a.nodes[id], b.nodes[id], x); }
    }
    forall id | id in c.nodes ensures Thinned(a.nodes[id], c.nodes[id], x + y) {
      assert Thinned(a.nodes[id], b.nodes[id], x) && Thinned(b.nodes[id], c.nodes[id], y);
      assert a.nodes[id].members - (x + y) == a.nodes[id].members - x - y;
    }
  }

  lemma WitnessTrans(a: World, b: World, c: World, ex: seq<LogEntry>, x: seq<nat>, ey: seq<LogEntry>, y: seq<nat>, gone: set<Key>)
    requires Witnesses(a, b, ex, x) && Witnesses(b, c, ey, y) && NodesThinned(a, b, gone)
    requires forall id :: id in c.nodes ==> id in b.nodes
    ensures Witnesses(a, c, ex + ey, x + y)
  {
    assert a.log + ex + ey == a.log + (ex + ey);
    DistinctTogether(b, x, y);
    forall id | id in x + y ensures id in a.nodes && id !in c.nodes { assert id in x || id in y; }
    forall id | id in a.nodes && id !in c.nodes ensures id in x + y { assert id in x || id in y; }
    NamesTogether(a, b, ex, x, ey, y, gone);
  }

  lemma NamesTogether(a: World, b: World, ex: seq<LogEntry>, x: seq<nat>, ey: seq<LogEntry>, y: seq<nat>, gone: set<Key>)
    requires |ex| == |x| && |ey| == |y| && NodesThinned(a, b, gone)
    requires forall i :: 0 <= i < |x| ==> NamesNode(a, ex[i], x[i])
    requires forall i :: 0 <= i < |y| ==> NamesNode(b, ey[i], y[i])
    ensures forall i :: 0 <= i < |x + y| ==> NamesNode(a, (ex + ey)[i], (x + y)[i])
  {
    forall i | 0 <= i < |x + y| ensures NamesNode(a, (ex + ey)[i], (x + y)[i]) {
      if i < |x| {
        assert NamesNode(a, ex[i], x[i]);
      } else {
        LaterWitness(a, b, ey[i - |x|], y[i - |x|], gone);
      }
    }
  }

  lemma DistinctTogether(b: World, x: seq<nat>, y: seq<nat>)
    requires Distinct(x) && Distinct(y) && (forall id :: id in x ==> id !in b.nodes) && (forall id :: id in y ==> id in b.nodes)
    ensures Distinct(x + y)
  {
    var z := x + y;
    forall i, j | 0 <= i < j < |z| ensures z[i] != z[j] {
      assert i < |x| <= j ==> x[i] in x && y[j - |x|] in y;
    }
  }

  /** A node that is named when it goes was there before, with the same key. */
  lemma LaterWitness(a: World, b: World, e: LogEntry, id: nat, gone: set<Key>)
    requires NamesNode(b, e, id) && NodesThinned(a, b, gone)
    ensures NamesNode(a, e, id)
  {
    assert Thinned(a.nodes[id], b.nodes[id], gone);
  }

  lemma PruneNothing(w: World)
    requires Inv(w)
    ensures NodesThinned(w, w, {}) && Witnesses(w, w, [], [])
  {
    InvCounted(w);
    ThinNone(w, w, {});
  }

  /**
   Pruning in any order: exactly the given items go, a node survives iff it has a surviving
   member, and one stale entry is logged for each node that does not.
   */
  lemma {:induction false} PruneAllThins(w: World, order: seq<Key>) returns (es: seq<LogEntry>, ids: seq<nat>)
    requires Inv(w) && Prunable(w, order)
    ensures PruneAll(w, order).Running?
    ensures NodesThinned(w, PruneAll(w, order).world, Keys(order))
    ensures Witnesses(w, PruneAll(w, order).world, es, ids)
    decreases |order|
  {
    if order == [] {
      es, ids := [], [];
      assert Keys(order) == {};
      PruneNothing(w);
    } else {
      var ex, x := PruneOneThins(w, order[0]);
      PruneOneKeepsInv(w, order[0]);
      PruneRest(w, order);
      var w1 := PruneOne(w, order[0]).world;
      var ey, y := PruneAllThins(w1, order[1..]);
      var w2 := PruneAll(w1, order[1..]).world;
      ThinTrans(w, w1, w2, {order[0]}, Keys(order[1..]));
      WitnessTrans(w, w1, w2, ex, x, ey, y, {order[0]});
      es, ids := ex + ey, x + y;
    }
  }

  // ---------------------------------------------------------------- does the log explain the prune?

  /** The pages the new entries take off the host's map. */
  function LastKeys(es: seq<LogEntry>): set<Key>
    requires AllStale(es)
  {
    set e | e in es :: e.last
  }

  predicate AllStale(es: seq<LogEntry>) {
    forall e :: e in es ==> e.StaleStableNode?
  }

  lemma {:induction false} ReplayOfStale(m: map<Key, nat>, es: seq<LogEntry>, shadow: map<Key, nat>)
    requires AllStale(es)
    ensures Replay(m, es, shadow) == m - LastKeys(es)
    decreases |es|
  {
    if es == [] {
      assert LastKeys(es) == {};
    } else {
      var es', e := es[..|es| - 1], es[|es| - 1];
      assert es == es' + [e];
      assert AllStale(es');
      ReplayOfStale(m, es', shadow);
      assert LastKeys(es) == LastKeys(es') + {e.last};
    }
  }

  lemma ThinnedMap(w: World, w': World, gone: set<Key>)
    requires HomesLive(w) && HomesLive(w')
    requires w'.items == w.items - gone && NodesThinned(w, w', gone)
    ensures StableMap(w') == StableMap(w) - gone
  {
    forall k | k in StableMap(w')
      ensures k in StableMap(w) && StableMap(w)[k] == StableMap(w')[k]
    {
      assert Thinned(w.nodes[w'.items[k].home.value], w'.nodes[w'.items[k].home.value], gone);
    }
    assert StableMap(w').Keys == StableMap(w).Keys - gone;
  }

  /** The pages of the new entries are pruned members, at most one of each node, one of each that went. */
  ghost predicate LogsOnePerNode(w: World, logged: set<Key>, gone: set<Key>) {
    && (forall k :: k in logged ==> k in w.items && w.items[k].state.Stable? && w.items[k].home.Some?)
    && (forall k :: k in logged ==> w.items[k].home.value in w.nodes && w.nodes[w.items[k].home.value].members <= gone)
    && (forall k, l :: k in logged && l in logged && k != l ==> w.items[k].home != w.items[l].home)
    && (forall id :: id in w.nodes && w.nodes[id].members <= gone ==> LogsMember(w.nodes[id], logged))
  }

  ghost predicate LogsMember(n: Node, logged: set<Key>) {
    exists k :: k in logged && k in n.members
  }

  lemma LoggedPages(w: World, w': World, gone: set<Key>, es: seq<LogEntry>, ids: seq<nat>)
    requires Inv(w) && Witnesses(w, w', es, ids) && NodesThinned(w, w', gone)
    ensures AllStale(es) && LogsOnePerNode(w, LastKeys(es), gone)
  {
    forall i | 0 <= i < |es| ensures LoggedRight(w, es[i], ids[i], gone) {
      LoggedPage(w, w', gone, es, ids, i);
    }
    assert AllStale(es);
    LoggedOnce(w, es, ids, gone);
    forall id | id in w.nodes && w.nodes[id].members <= gone ensures LogsMember(w.nodes[id], LastKeys(es)) {
      EmptiedIsLogged(w, w', gone, es, ids, id);
    }
  }

  /** The page of the entry is on the node, which has lost all of its members. */
  ghost predicate LoggedRight(w: World, e: LogEntry, id: nat, gone: set<Key>) {
    && e.StaleStableNode? && e.last in w.items && w.items[e.last].state.Stable?
    && w.items[e.last].home == Some(id) && id in w.nodes && w.nodes[id].members <= gone
  }

  lemma LoggedOnce(w: World, es: seq<LogEntry>, ids: seq<nat>, gone: set<Key>)
    requires AllStale(es) && |es| == |ids| && Distinct(ids)
    requires forall i :: 0 <= i < |es| ==> LoggedRight(w, es[i], ids[i], gone)
    ensures forall k :: k in LastKeys(es) ==> k in w.items && w.items[k].state.Stable? && w.items[k].home.Some?
    ensures forall k :: k in LastKeys(es) ==> w.items[k].home.value in w.nodes && w.nodes[w.items[k].home.value].members <= gone
    ensures forall k, l :: k in LastKeys(es) && l in LastKeys(es) && k != l ==> w.items[k].home != w.items[l].home
  {
    forall k, l | k in LastKeys(es) && l in LastKeys(es) && k != l ensures w.items[k].home != w.items[l].home {
      var i :| 0 <= i < |es| && es[i].last == k;
      var j :| 0 <= j < |es| && es[j].last == l;
      assert LoggedRight(w, es[i], ids[i], gone) && LoggedRight(w, es[j], ids[j], gone);
      assert ids[i] != ids[j];
    }
  }

  lemma EmptiedIsLogged(w: World, w': World, gone: set<Key>, es: seq<LogEntry>, ids: seq<nat>, id: nat)
    requires Witnesses(w, w', es, ids) && NodesThinned(w, w', gone) && AllStale(es)
    requires id in w.nodes && w.nodes[id].members <= gone
    ensures LogsMember(w.nodes[id], LastKeys(es))
  {
    assert w.nodes[id].members - gone == {};
    assert id !in w'.nodes && id in ids;
    var i :| 0 <= i < |ids| && ids[i] == id;
    assert NamesNode(w, es[i], ids[i]);
    assert es[i] in es && es[i].last in LastKeys(es);
  }

  lemma LoggedPage(w: World, w': World, gone: set<Key>, es: seq<LogEntry>, ids: seq<nat>, i: nat)
    requires Inv(w) && Witnesses(w, w', es, ids) && NodesThinned(w, w', gone) && i < |es|
    ensures LoggedRight(w, es[i], ids[i], gone)
  {
    assert NamesNode(w, es[i], ids[i]);
    assert NodeOk(w, ids[i]) && MemberOk(w, ids[i], es[i].last);
    assert ids[i] in ids;
    assert !Survives(w.nodes[ids[i]], gone);
    var ms := w.nodes[ids[i]].members;
    forall m | m in ms ensures m in gone {
      assert m in ms - gone || m in gone;
    }
  }

  /** Every pruned Stable page is alone on its node. */
  ghost predicate StalePagesAlone(w: World, gone: set<Key>) {
    forall k :: k in gone && k in w.items && w.items[k].state.Stable? ==> Alone(w, w.items[k].home)
  }

  ghost predicate Alone(w: World, home: Option<nat>) {
    home.Some? && home.value in w.nodes && w.nodes[home.value].sharedCnt == 1
  }

  lemma LonePageLogged(w: World, gone: set<Key>, k: Key, logged: set<Key>)
    requires Inv(w) && k in w.items && w.items[k].state.Stable? && k in gone && StalePagesAlone(w, gone)
    requires LogsOnePerNode(w, logged, gone)
    ensures k in logged
  {
    assert ItemOk(w, k);
    var id := w.items[k].home.value;
    assert NodeOk(w, id);
    var n := w.nodes[id];
    assert Alone(w, w.items[k].home);
    assert |n.members - {k}| == 0;
    assert n.members == {k} + (n.members - {k});
    assert n.members <= gone;
    assert LogsMember(n, logged);
    var x :| x in logged && x in n.members;
    assert x in {k};
  }

  /** Of two members of one node at most one is logged; if one survives, none is. */
  lemma SharedPageUnlogged(w: World, gone: set<Key>, logged: set<Key>) returns (l: Key)
    requires Inv(w) && !StalePagesAlone(w, gone) && LogsOnePerNode(w, logged, gone)
    ensures l in gone && l in w.items && w.items[l].state.Stable? && l !in logged
  {
    l :| l in gone && l in w.items && w.items[l].state.Stable? && !Alone(w, w.items[l].home);
    if l in logged {
      var k := l;
      assert ItemOk(w, k);
      var id := w.items[k].home.value;
      assert NodeOk(w, id);
      assert |w.nodes[id].members - {k}| >= 1;
      l :| l in w.nodes[id].members - {k};
      assert MemberOk(w, id, l);
    }
  }

  lemma SameCut(m: map<Key, nat>, a: set<Key>, b: set<Key>)
    requires forall k :: k in m ==> (k in a <==> k in b)
    ensures m - a == m - b
  {
  }

  /**
   The log explains the prune iff no pruned page shares its node: only the last page of a
   node that disappears is logged, so any other pruned member stays on the host's map.
   */
  lemma PruneExplainedIff(w: World, order: seq<Key>, shadow: map<Key, nat>)
    requires Inv(w) && Prunable(w, order)
    ensures PruneAll(w, order).Running?
    ensures Explains(w, PruneAll(w, order).world, shadow) <==> StalePagesAlone(w, Keys(order))
  {
    var gone := Keys(order);
    var es, ids := PruneAllThins(w, order);
    PruneAllKeepsInv(w, order);
    var w' := PruneAll(w, order).world;
    InvSane(w);
    InvSane(w');
    ThinnedMap(w, w', gone);
    LoggedPages(w, w', gone, es, ids);
    assert w'.log[|w.log|..] == es;
    ReplayOfStale(StableMap(w), es, shadow);
    ExplainedCut(w, gone, LastKeys(es));
  }

  lemma ExplainedCut(w: World, gone: set<Key>, logged: set<Key>)
    requires Inv(w) && LogsOnePerNode(w, logged, gone)
    ensures StableMap(w) - logged == StableMap(w) - gone <==> StalePagesAlone(w, gone)
  {
    InvSane(w);
    if StalePagesAlone(w, gone) {
      forall k | k in StableMap(w) ensures k in logged <==> k in gone {
        if k in gone { LonePageLogged(w, gone, k, logged); }
        if k in logged { OnlyHome(w, k, w.items[k].home.value); }
      }
      SameCut(StableMap(w), logged, gone);
    } else {
      var l := SharedPageUnlogged(w, gone, logged);
      assert l in StableMap(w) - logged && l !in StableMap(w) - gone;
    }
  }
}
