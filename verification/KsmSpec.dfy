/**
 The deduplication engine on values.

 A World is the abstract value of the three linked structures: chains are sequences of node
 identities instead of next/prev pointers, and trees of sharing items are sets of keys. Every
 operation is total: Stopped stands for a fatal stop, and for any use of an item or a node that
 is not there. KsmEngine proves that the pointer code computes these functions.
 */
module KsmSpec {
  import opened Wrappers
  import opened KsmTypes

  datatype Item = Item(
    state: ItemState, pfn: nat, oldPfn: nat, oldHash: HashPair,
    score: nat, skip: nat, age: nat, lastAccess: int, home: Option<nat>)

  datatype Node = Node(hash: HashPair, sharedCnt: int, pfn: nat, members: set<Key>)

  datatype World = World(
    items: map<Key, Item>,
    nodes: map<nat, Node>,
    chains: map<HashPair, seq<nat>>,
    unstable: map<HashPair, Key>,
    log: seq<LogEntry>,
    nextId: nat,
    iteration: int,
    accessed: nat)

  datatype Outcome = Running(world: World) | Stopped
  {
    predicate IsFailure() { Stopped? }
    function PropagateFailure(): Outcome requires Stopped? { Stopped }
    function Extract(): World requires Running? { world }
  }

  /** What malloc leaves in the fields that a new item does not initialise. */
  datatype Junk = Junk(oldPfn: nat, score: nat, skip: nat, home: Option<nat>)

  /** One page of a scan: its shadow entry, the digest of its contents, and heap junk. */
  datatype Page = Page(key: Key, kpfn: nat, hash: HashPair, junk: Junk)

  function EmptyWorld(): World {
    World(map[], map[], map[], map[], [], 0, 0, 0)
  }

  function SetItem(w: World, k: Key, it: Item): World {
    w.(items := w.items[k := it])
  }

  function Log(w: World, e: LogEntry): World {
    w.(log := w.log + [e])
  }

  // ---------------------------------------------------------------- items and nodes

  function InsertItem(w: World, id: nat, k: Key): Outcome {
    if id !in w.nodes || k !in w.items then Stopped
    else
      var it, n := w.items[k], w.nodes[id];
      if it.state.NoState? || it.state.Stable? then Stopped
      else
        Running(w.(
          items := w.items[k := it.(state := Stable, oldHash := n.hash, oldPfn := it.pfn,
                                    pfn := n.pfn, home := Some(id))],
          nodes := w.nodes[id := n.(sharedCnt := n.sharedCnt + 1, members := n.members + {k})]))
  }

  function RemoveItem(w: World, id: nat, k: Key): Outcome {
    if id !in w.nodes then Stopped
    else
      var n := w.nodes[id];
      Running(w.(nodes := w.nodes[id := n.(sharedCnt := n.sharedCnt - 1, members := n.members - {k})]))
  }

  function ResetValue(it: Item): Item {
    it.(state := Volatile, pfn := it.oldPfn, oldPfn := 0, oldHash := NULL_HASH, home := None)
  }

  function Agitate(it: Item): Item {
    it.(score := it.score + 1)
  }

  function Calm(it: Item): Item {
    it.(score := if it.score > 0 then it.score - 1 else 0)
  }

  // ---------------------------------------------------------------- chains

  function IndexOf(c: seq<nat>, id: nat): (i: nat)
    requires id in c
    ensures i < |c| && c[i] == id
    ensures forall j :: 0 <= j < i ==> c[j] != id
  {
    if c[0] == id then 0 else 1 + IndexOf(c[1..], id)
  }

  function Without(c: seq<nat>, id: nat): seq<nat>
    requires id in c
  {
    var i := IndexOf(c, id);
    c[..i] + c[i + 1..]
  }

  function FirstWithRoom(w: World, c: seq<nat>): (r: Option<nat>)
    ensures r.Some? ==> r.value in c && r.value in w.nodes && w.nodes[r.value].sharedCnt < MAX_PAGE_SHARING
    ensures r.None? ==> forall id :: id in c && id in w.nodes ==> w.nodes[id].sharedCnt >= MAX_PAGE_SHARING
  {
    if c == [] then None
    else if c[0] in w.nodes && w.nodes[c[0]].sharedCnt < MAX_PAGE_SHARING then Some(c[0])
    else FirstWithRoom(w, c[1..])
  }

  function CmpWithStable(w: World, h: HashPair): Option<nat> {
    if h in w.chains then FirstWithRoom(w, w.chains[h]) else None
  }

  /** A new node without members at the end of the chain of its digest. */
  function InsertNode(w: World, h: HashPair, pfn: nat): World {
    w.(nodes := w.nodes[w.nextId := Node(h, 0, pfn, {})],
       chains := w.chains[h := (if h in w.chains then w.chains[h] else []) + [w.nextId]],
       nextId := w.nextId + 1)
  }

  function RemoveNode(w: World, id: nat): Outcome {
    if id !in w.nodes then Stopped
    else
      var h := w.nodes[id].hash;
      if h !in w.chains || id !in w.chains[h] then Stopped
      else
        var c := Without(w.chains[h], id);
        Running(w.(nodes := w.nodes - {id},
                   chains := if c == [] then w.chains - {h} else w.chains[h := c]))
  }

  function RemoveStaleAndLog(w: World, id: nat, last: Key): Outcome {
    if id !in w.nodes then Stopped
    else RemoveNode(Log(w, StaleStableNode(last, w.nodes[id].pfn)), id)
  }

  ghost predicate InChain(w: World, c: seq<nat>, k: Key) {
    exists id :: id in c && id in w.nodes && k in w.nodes[id].members
  }

  /**
   Gives a whole chain and its sharing items a new digest and moves its table entry.
   Like the table insert, this overwrites an entry that is already at the new digest.
   */
  ghost function Rekey(w: World, h: HashPair, h': HashPair): Outcome {
    if h !in w.chains then Stopped
    else
      var c := w.chains[h];
      if exists k :: InChain(w, c, k) && (k !in w.items || !w.items[k].state.Stable?) then Stopped
      else
        Running(w.(
          nodes := map id | id in w.nodes ::
            if id in c then w.nodes[id].(hash := h') else w.nodes[id],
          items := map k | k in w.items ::
            if InChain(w, c, k) then w.items[k].(oldHash := h') else w.items[k],
          chains := (w.chains - {h})[h' := c]))
  }

  // ---------------------------------------------------------------- one page

  function SkipVolatile(score: nat, age: nat): nat {
    if score > 0 then
      var grace := score + age;
      if grace < 3 then 1 else if grace == 3 then 2 else if grace == 4 then 4 else 8
    else 0
  }

  /** Finds or creates the item of a page and stamps it. */
  function Lookup(w: World, p: Page): World {
    var it :=
      if p.key in w.items then w.items[p.key]
      else Item(Volatile, p.kpfn, p.junk.oldPfn, NULL_HASH, p.junk.score, p.junk.skip, 0, w.iteration, p.junk.home);
    SetItem(w, p.key, it.(lastAccess := w.iteration, pfn := p.kpfn)).(accessed := w.accessed + 1)
  }

  /** A Stable item whose page frame is no longer its node's leaves the node. */
  function Split(w: World, k: Key, id: nat): Outcome {
    if k !in w.items then Stopped
    else
      var w1 :- RemoveItem(w, id, k);
      var w2 := SetItem(w1, k, ResetValue(w1.items[k]));
      var w3 :- if w2.nodes[id].sharedCnt == 0 then RemoveStaleAndLog(w2, id, k)
                else Running(Log(w2, ItemStateChange(k, w2.nodes[id].pfn, w2.nodes[id].sharedCnt)));
      Running(SetItem(w3, k, Agitate(w3.items[k])))
  }

  function MergeIntoStable(w: World, k: Key, id: nat): Outcome {
    if id !in w.nodes || w.nodes[id].sharedCnt >= MAX_PAGE_SHARING then Stopped
    else
      var w1 :- InsertItem(w, id, k);
      Running(Log(w1, StableMerge(k, w1.nodes[id].pfn, w1.nodes[id].sharedCnt)))
  }

  /** Two pages with one digest found a new node; the older one leaves the unstable table. */
  function MergeWithUnstable(w: World, k: Key, h: HashPair): Outcome {
    if h !in w.unstable || k !in w.items then Stopped
    else
      var partner := w.unstable[h];
      var id := w.nextId;
      var w1 := InsertNode(w.(unstable := w.unstable - {h}), h, w.items[k].pfn);
      var w2 :- InsertItem(w1, id, partner);
      var w3 :- InsertItem(w2, id, k);
      Running(Log(w3, UnstableMerge(k, partner)))
  }

  function BecomeUnstable(w: World, k: Key, h: HashPair): Outcome {
    if k !in w.items || h in w.unstable then Stopped
    else
      Running(SetItem(w, k, w.items[k].(oldHash := h, state := Unstable)).(unstable := w.unstable[h := k]))
  }

  /** The digest is the one seen last time: look for a partner. */
  function Match(w: World, k: Key, h: HashPair): Outcome {
    match CmpWithStable(w, h)
    case Some(id) => MergeIntoStable(w, k, id)
    case None => if h in w.unstable then MergeWithUnstable(w, k, h) else BecomeUnstable(w, k, h)
  }

  /** The item after its age has been counted and the skip policy applied. */
  function Aged(it: Item, smart: bool): Item {
    var it1 := it.(age := it.age + 1);
    if smart then it1.(skip := if it.skip > 0 then it.skip - 1 else SkipVolatile(it1.score, it1.age)) else it1
  }

  /** A digest that differs from the remembered one replaces it; a real change counts as volatility. */
  function Remembered(it: Item, h: HashPair): Item {
    (if it.oldHash != NULL_HASH then Agitate(it) else it).(oldHash := h)
  }

  function MergeVolatile(w: World, k: Key, h: HashPair, smart: bool): Outcome {
    if k !in w.items then Stopped
    else
      var it := Aged(w.items[k], smart);
      if smart && w.items[k].skip > 0 then Running(SetItem(w, k, it))
      else if it.oldHash == h then Match(SetItem(w, k, Calm(it)), k, h)
      else Running(SetItem(w, k, Remembered(it, h)))
  }

  ghost function MergeOne(w: World, k: Key, h: HashPair, smart: bool): Outcome {
    if k !in w.items then Stopped
    else
      var it := w.items[k];
      match it.state
      case NoState => Stopped
      case Unstable => Stopped
      case Volatile => MergeVolatile(w, k, h, smart)
      case Stable =>
        if it.home.None? || it.home.value !in w.nodes then Stopped
        else
          var n := w.nodes[it.home.value];
          if n.pfn != it.pfn then
            var w1 :- Split(w, k, it.home.value);
            MergeVolatile(w1, k, h, smart)
          else if h != it.oldHash && it.oldHash != n.hash then Stopped
          else
            var w1 :- if h != it.oldHash then Rekey(w, n.hash, h) else Running(w);
            Running(if k in w1.items then SetItem(w1, k, Calm(w1.items[k])) else w1)
  }

  // ---------------------------------------------------------------- the unoptimised variant

  /** Without smart scan: a stable match is taken even if the digest has just changed. */
  ghost function MergeOneOld(w: World, k: Key, h: HashPair): Outcome {
    if k !in w.items then Stopped
    else
      var it := w.items[k];
      match it.state
      case NoState => Stopped
      case Unstable => Stopped
      case Volatile => MergeVolatileOld(w, k, h)
      case Stable =>
        if it.home.None? || it.home.value !in w.nodes then Stopped
        else
          var n := w.nodes[it.home.value];
          if n.pfn != it.pfn then
            var w1 :- SplitOld(w, k, it.home.value);
            MergeVolatileOld(w1, k, h)
          else if h != it.oldHash && it.oldHash != n.hash then Stopped
          else if h != it.oldHash then Rekey(w, n.hash, h)
          else Running(w)
  }

  function SplitOld(w: World, k: Key, id: nat): Outcome {
    if k !in w.items then Stopped
    else
      var w1 :- Split(w, k, id);
      Running(SetItem(w1, k, w1.items[k].(score := w.items[k].score)))
  }

  function MergeVolatileOld(w: World, k: Key, h: HashPair): Outcome {
    if k !in w.items then Stopped
    else
      match CmpWithStable(w, h)
      case Some(id) => MergeIntoStable(w, k, id)
      case None =>
        if w.items[k].oldHash == h then
          if h in w.unstable then MergeWithUnstable(w, k, h) else BecomeUnstable(w, k, h)
        else Running(SetItem(w, k, w.items[k].(oldHash := h)))
  }

  /** How the server is configured: with or without smart scan, or with the unoptimised merge step. */
  datatype Mode = Plain | Smart | Old

  function ModeOf(smart: bool): Mode {
    if smart then Smart else Plain
  }

  /** What one page of a scan does. */
  ghost function Scan(w: World, p: Page, mode: Mode): Outcome {
    if mode.Old? then MergeOneOld(Lookup(w, p), p.key, p.hash) else MergeOne(Lookup(w, p), p.key, p.hash, mode.Smart?)
  }

  // ---------------------------------------------------------------- host errors

  datatype HostError = MergeOneFailed(from: Key, kpfn: nat) | MergeTwoFailed(from: Key)

  function UndoOne(w: World, k: Key, kpfn: nat): Outcome {
    if k !in w.items || w.items[k].home.None? || w.items[k].home.value !in w.nodes then Stopped
    else
      var id := w.items[k].home.value;
      if w.nodes[id].pfn != kpfn || w.nodes[id].sharedCnt < 1 then Stopped
      else
        var w1 :- RemoveItem(w, id, k);
        var w2 := SetItem(w1, k, Agitate(ResetValue(w1.items[k])));
        if w2.nodes[id].sharedCnt == 0 then RemoveStaleAndLog(w2, id, k) else Running(w2)
  }

  function UndoTwo(w: World, k: Key): Outcome {
    if k !in w.items || w.items[k].home.None? || w.items[k].home.value !in w.nodes then Stopped
    else
      var id := w.items[k].home.value;
      var ms := w.nodes[id].members;
      if exists m | m in ms :: m !in w.items || !w.items[m].state.Stable? then Stopped
      else
        RemoveNode(
          w.(items := map m | m in w.items ::
               if m in ms then Agitate(ResetValue(w.items[m])) else w.items[m]),
          id)
  }

  function Undo(w: World, e: HostError): Outcome {
    match e
    case MergeOneFailed(k, kpfn) => UndoOne(w, k, kpfn)
    case MergeTwoFailed(k) => UndoTwo(w, k)
  }

  // ---------------------------------------------------------------- end of an iteration

  function CleanUpUnstable(w: World): World {
    var ks := w.unstable.Values;
    w.(items := map k | k in w.items :: if k in ks then w.items[k].(state := Volatile) else w.items[k],
       unstable := map[])
  }

  function StaleKeys(w: World): set<Key> {
    set k | k in w.items && w.items[k].lastAccess < w.iteration - 1
  }

  function PruneOne(w: World, k: Key): Outcome {
    if k !in w.items then Stopped
    else
      var it := w.items[k];
      var w1 :-
        if it.state.Stable? && it.home.Some? then
          var wr :- RemoveItem(w, it.home.value, k);
          if wr.nodes[it.home.value].sharedCnt == 0 then RemoveStaleAndLog(wr, it.home.value, k) else Running(wr)
        else Running(w);
      Running(w1.(items := w1.items - {k}))
  }

  function PruneAll(w: World, order: seq<Key>): Outcome
    decreases |order|
  {
    if order == [] then Running(w)
    else
      var w1 :- PruneOne(w, order[0]);
      PruneAll(w1, order[1..])
  }

  predicate Collectable(it: Item) {
    it.state.Volatile? || (it.state.Stable? && it.home.Some?)
  }

  predicate Enumerates(order: seq<Key>, s: set<Key>) {
    && (set k | k in order) == s
    && forall i, j :: 0 <= i < j < |order| ==> order[i] != order[j]
  }

  /** Drops the items not accessed in this iteration or the one before, in the given order. */
  function PruneRmap(w: World, order: seq<Key>): Outcome {
    if exists k | k in StaleKeys(w) :: !Collectable(w.items[k]) then Stopped
    else PruneAll(w, order)
  }

  function UnsignedSub(a: nat, b: nat): nat {
    (a - b) % WORD_RANGE
  }

  predicate PruneDue(w: World) {
    UnsignedSub(|w.items|, w.accessed) > RMAP_PRUNE_MARGIN
  }

  function PruneMetadata(w: World, order: seq<Key>): Outcome {
    var w1 := CleanUpUnstable(w);
    if PruneDue(w1) then PruneRmap(w1, order) else Running(w1)
  }

  /** The counters the server resets before it waits for the next scan. */
  function NextIteration(w: World): World {
    w.(iteration := w.iteration + 1, accessed := 0, log := [])
  }
}
