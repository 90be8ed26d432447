/**
 The pre-hash worker beside the page worker, as a protocol.

 One thread hashes the pages of a chunk ahead of time; the page worker restarts it for every chunk
 and looks digests up while it runs. Critical sections of the spin lock are single steps; every
 read or write outside the lock is a step of its own, so a step of the other thread can come
 between any two of them.
 */
module PreHash {
  import opened Wrappers
  import opened KsmTypes

  const PRE_HASH_NUM := 16384

  datatype Status = NoWorker | WorkerReady | DataReady | InProgress | WorkDone | Stop

  /** Where the hashing thread is. */
  datatype Worker =
    | Poll
    | Clearing(at: nat)        // inside the memset
    | Check(i: nat)            // at the loop condition and the test for a stop
    | HashFirst(i: nat)        // about to write the first half
    | HashSecond(i: nat)       // about to write the second half
    | Publish(i: nat)          // about to raise the index
    | Finish                   // about to report the work done

  /** Where the page worker is. */
  datatype Client =
    | Idle                     // holds no batch
    | AtPage                   // about to take a page
    | Starting                 // spinning to restart the hashing thread
    | Looking                  // about to look a digest up
    | Hit(idx: nat)            // has been promised the entry at idx
    | Miss                     // has to hash by itself
    | Got(value: HashPair)     // has the digest of the page
    | Invalid                  // stopped: the page is outside the chunk

  datatype State = State(
    status: Status, worker: Worker, client: Client,
    base: nat, max: nat, curr: nat, chunk: seq<HashPair>,
    start: nat, batch: seq<HashPair>, page: nat,   // the batch: first page address, contents, page in work
    sinceStop: nat)

  /** Digests of pages outside the batch being processed are arbitrary: any stands for them. */
  datatype Action =
    | CreateWorker | WorkerStep(any: Digest)
    | TakeBatch(start: nat, contents: seq<HashPair>) | NextPage | TryStart | Lookup | Read | SkipPage

  function Init(): State {
    State(NoWorker, Poll, Idle, 0, 0, 0, seq(PRE_HASH_NUM, _ => NULL_HASH), 0, [], 0, 0)
  }

  predicate Held(s: State, address: nat) {
    !s.client.Idle? && s.start <= address < s.start + |s.batch|
  }

  /** What the hash function gives for a page: its digest while the batch is held, anything otherwise. */
  function HalfOf(s: State, address: nat, second: bool, any: Digest): Digest {
    if Held(s, address) then
      if second then s.batch[address - s.start].second else s.batch[address - s.start].first
    else any
  }

  function WorkerNext(s: State, any: Digest): Option<State> {
    match s.worker
    case Poll =>
      if s.status.DataReady? then Some(s.(status := InProgress, worker := Clearing(0))) else Some(s)
    case Clearing(at) =>
      if at < |s.chunk| then Some(s.(chunk := s.chunk[at := NULL_HASH], worker := Clearing(at + 1)))
      else Some(s.(worker := Check(0)))
    case Check(i) =>
      if i >= s.max || s.status.Stop? then Some(s.(worker := Finish)) else Some(s.(worker := HashFirst(i)))
    case HashFirst(i) =>
      if i >= |s.chunk| then None
      else
        var half := HalfOf(s, s.base + i, false, any);
        Some(s.(chunk := s.chunk[i := s.chunk[i].(first := half)], worker := HashSecond(i)))
    case HashSecond(i) =>
      if i >= |s.chunk| then None
      else
        var half := HalfOf(s, s.base + i, true, any);
        Some(s.(chunk := s.chunk[i := s.chunk[i].(second := half)], worker := Publish(i)))
    case Publish(i) =>
      Some(s.(curr := s.curr + 1, worker := Check(i + 1),
              sinceStop := if s.status.Stop? then s.sinceStop + 1 else s.sinceStop))
    case Finish =>
      Some(s.(status := WorkDone, worker := Poll))
  }

  /** The number of pages the next chunk covers. */
  function ChunkSize(s: State): nat
    requires s.page <= |s.batch|
  {
    if |s.batch| - s.page > PRE_HASH_NUM then PRE_HASH_NUM else |s.batch| - s.page
  }

  /** One step; None is an access outside the chunk or a step the thread cannot take now. */
  function Next(s: State, a: Action): Option<State> {
    match a
    case CreateWorker => if s.status.NoWorker? then Some(s.(status := WorkerReady)) else None
    case WorkerStep(any) => WorkerNext(s, any)
    case TakeBatch(start, contents) =>
      if s.client.Idle? && contents != [] then
        Some(s.(client := AtPage, start := start, batch := contents, page := 0))
      else None
    case NextPage =>
      if s.client.AtPage? && s.page < |s.batch| then
        Some(s.(client := if s.page % PRE_HASH_NUM == 0 then Starting else Looking))
      else None
    case TryStart =>
      if s.client.Starting? && s.page < |s.batch| then
        if s.status.WorkerReady? || s.status.WorkDone? then
          Some(s.(base := s.start + s.page, curr := 0, max := ChunkSize(s), status := DataReady, client := Looking))
        else if s.status.InProgress? then Some(s.(status := Stop, sinceStop := 0))
        else Some(s)
      else None
    case Lookup =>
      if s.client.Looking? then
        var idx := s.start + s.page - s.base;
        if !(0 <= idx < PRE_HASH_NUM) then Some(s.(client := Invalid))
        else if idx < s.curr then Some(s.(client := Hit(idx)))
        else Some(s.(client := Miss))
      else None
    case Read =>
      if s.client.Hit? then
        if s.client.idx < |s.chunk| then Some(s.(client := Got(s.chunk[s.client.idx]))) else None
      else if s.client.Miss? && s.page < |s.batch| then Some(s.(client := Got(s.batch[s.page])))
      else None
    case SkipPage =>
      // the page is done, with or without a lookup; after the last one the batch is given back
      if s.client.Looking? || s.client.Got? then
        if s.page + 1 < |s.batch| then Some(s.(client := AtPage, page := s.page + 1))
        else Some(s.(client := Idle, batch := []))
      else None
  }

  function Run(s: State, acts: seq<Action>): Option<State>
    decreases |acts|
  {
    if acts == [] then Some(s)
    else
      match Run(s, acts[..|acts| - 1])
      case None => None
      case Some(t) => Next(t, acts[|acts| - 1])
  }

  // ---------------------------------------------------------------- the invariant

  predicate WorkerOk(s: State) {
    match s.worker
    case Poll => !s.status.InProgress? && !s.status.Stop? && (s.status.DataReady? ==> s.curr == 0)
    case Clearing(at) => Busy(s) && s.curr == 0 && at <= PRE_HASH_NUM
    case Check(i) => Busy(s) && s.curr == i <= s.max
    case HashFirst(i) => Busy(s) && s.curr == i < s.max
    case HashSecond(i) => Busy(s) && s.curr == i < s.max
    case Publish(i) => Busy(s) && s.curr == i < s.max
    case Finish => Busy(s) && s.curr <= s.max
  }

  predicate Busy(s: State) {
    s.status.InProgress? || s.status.Stop?
  }

  /** The page worker has restarted the hashing thread for the chunk its page is in. */
  predicate Armed(s: State) {
    s.client.Looking? || s.client.Hit? || s.client.Miss? || s.client.Got?
    || (s.client.AtPage? && s.page % PRE_HASH_NUM != 0)
  }

  predicate ChunkOfPage(s: State) {
    && s.start <= s.base <= s.start + s.page < s.base + PRE_HASH_NUM
    && (s.base - s.start) % PRE_HASH_NUM == 0
    && s.base + s.max <= s.start + |s.batch|
  }

  /** What is below the index is the digest of the page at that place of the chunk. */
  predicate HashedOk(s: State)
    requires ChunkOfPage(s) && |s.chunk| == PRE_HASH_NUM && s.max <= PRE_HASH_NUM && s.curr <= s.max
  {
    && (forall k :: 0 <= k < s.curr ==> s.chunk[k] == s.batch[s.base - s.start + k])
    && (s.worker.HashSecond? && s.worker.i < s.max ==> s.chunk[s.worker.i].first == s.batch[s.base - s.start + s.worker.i].first)
    && (s.worker.Publish? && s.worker.i < s.max ==> s.chunk[s.worker.i] == s.batch[s.base - s.start + s.worker.i])
  }

  predicate Inv(s: State) {
    && |s.chunk| == PRE_HASH_NUM && s.curr <= s.max <= PRE_HASH_NUM
    && WorkerOk(s)
    && !s.client.Invalid?
    && (!s.client.Idle? ==> s.page < |s.batch|)
    && (s.client.Starting? ==> s.page % PRE_HASH_NUM == 0)
    && (Armed(s) ==> ChunkOfPage(s) && HashedOk(s))
    && (s.client.Hit? ==> s.client.idx == s.start + s.page - s.base && s.client.idx < s.curr)
    && (s.client.Got? ==> s.client.value == s.batch[s.page])
    && (s.status.Stop? ==> s.sinceStop == 0 || (s.sinceStop == 1 && (s.worker.Check? || s.worker.Finish?)))
  }

  lemma WorkerControlKeepsInv(s: State, any: Digest)
    requires Inv(s) && (s.worker.Poll? || s.worker.Check? || s.worker.Finish?)
    ensures WorkerNext(s, any).Some? && Inv(WorkerNext(s, any).value)
  {
  }

  lemma WorkerClearsKeepsInv(s: State, any: Digest)
    requires Inv(s) && s.worker.Clearing?
    ensures WorkerNext(s, any).Some? && Inv(WorkerNext(s, any).value)
  {
  }

  lemma WorkerHashesKeepsInv(s: State, any: Digest)
    requires Inv(s) && (s.worker.HashFirst? || s.worker.HashSecond?)
    ensures WorkerNext(s, any).Some? && Inv(WorkerNext(s, any).value)
  {
  }

  lemma WorkerPublishesKeepsInv(s: State, any: Digest)
    requires Inv(s) && s.worker.Publish?
    ensures WorkerNext(s, any).Some? && Inv(WorkerNext(s, any).value)
  {
  }

  lemma WorkerKeepsInv(s: State, any: Digest)
    requires Inv(s)
    ensures WorkerNext(s, any).Some? && Inv(WorkerNext(s, any).value)
  {
    match s.worker
    case Poll => WorkerControlKeepsInv(s, any);
    case Check(_) => WorkerControlKeepsInv(s, any);
    case Finish => WorkerControlKeepsInv(s, any);
    case Clearing(_) => WorkerClearsKeepsInv(s, any);
    case HashFirst(_) => WorkerHashesKeepsInv(s, any);
    case HashSecond(_) => WorkerHashesKeepsInv(s, any);
    case Publish(_) => WorkerPublishesKeepsInv(s, any);
  }

  /** The chunk that holds one page holds the next one, unless a new chunk starts there. */
  lemma SameChunk(page: nat, base: int)
    requires 0 <= base <= page < base + PRE_HASH_NUM && base % PRE_HASH_NUM == 0
    requires (page + 1) % PRE_HASH_NUM != 0
    ensures page + 1 < base + PRE_HASH_NUM
  {
  }

  lemma StartKeepsInv(s: State)
    requires Inv(s)
    ensures Next(s, TryStart).Some? ==> Inv(Next(s, TryStart).value)
  {
  }

  lemma SkipKeepsInv(s: State)
    requires Inv(s)
    ensures Next(s, SkipPage).Some? ==> Inv(Next(s, SkipPage).value)
  {
    if Next(s, SkipPage).Some? && s.page + 1 < |s.batch| { NextInBatch(s); }
  }

  lemma NextInBatch(s: State)
    requires Inv(s) && (s.client.Looking? || s.client.Got?) && s.page + 1 < |s.batch|
    ensures Inv(s.(client := AtPage, page := s.page + 1))
  {
    if (s.page + 1) % PRE_HASH_NUM != 0 {
      SameChunk(s.page, s.base - s.start);
    }
  }

  lemma PageKeepsInv(s: State, a: Action)
    requires Inv(s) && (a.NextPage? || a.TakeBatch? || a.CreateWorker?)
    ensures Next(s, a).Some? ==> Inv(Next(s, a).value)
  {
  }

  lemma LookupKeepsInv(s: State)
    requires Inv(s)
    ensures Next(s, Lookup).Some? ==> Inv(Next(s, Lookup).value)
  {
  }

  lemma ReadKeepsInv(s: State)
    requires Inv(s)
    ensures Next(s, Read).Some? ==> Inv(Next(s, Read).value)
  {
  }

  lemma NextKeepsInv(s: State, a: Action)
    requires Inv(s)
    ensures Next(s, a).Some? ==> Inv(Next(s, a).value)
  {
    match a
    case WorkerStep(any) => WorkerKeepsInv(s, any);
    case TryStart => StartKeepsInv(s);
    case Lookup => LookupKeepsInv(s);
    case Read => ReadKeepsInv(s);
    case SkipPage => SkipKeepsInv(s);
    case NextPage => PageKeepsInv(s, a);
    case TakeBatch(_, _) => PageKeepsInv(s, a);
    case CreateWorker => PageKeepsInv(s, a);
  }

  /** The invariant holds in every interleaving. */
  lemma {:induction false} RunKeepsInv(acts: seq<Action>)
    ensures Run(Init(), acts).Some? ==> Inv(Run(Init(), acts).value)
    decreases |acts|
  {
    if acts != [] {
      var front, a := acts[..|acts| - 1], acts[|acts| - 1];
      RunKeepsInv(front);
      if Run(Init(), front).Some? {
        NextKeepsInv(Run(Init(), front).value, a);
      }
    }
  }

  // ---------------------------------------------------------------- what it is for

  /**
   In every interleaving a looked-up digest is the one the page worker would compute itself, the
   page is never outside the chunk, and the hashing thread never writes outside it.
   */
  lemma LookupIsDirect(acts: seq<Action>, any: Digest)
    requires Run(Init(), acts).Some?
    ensures var s := Run(Init(), acts).value;
      && (s.client.Got? ==> s.page < |s.batch| && s.client.value == s.batch[s.page])
      && !s.client.Invalid?
      && Next(s, WorkerStep(any)).Some?
      && (s.client.Hit? ==> Next(s, Read).Some?)
  {
    RunKeepsInv(acts);
    WorkerKeepsInv(Run(Init(), acts).value, any);
  }

  /** After a stop at most one more page is hashed before the work is reported done. */
  lemma StopIsPrompt(acts: seq<Action>)
    requires Run(Init(), acts).Some? && Run(Init(), acts).value.status.Stop?
    ensures Run(Init(), acts).value.sinceStop <= 1
  {
    RunKeepsInv(acts);
  }

  // ---------------------------------------------------------------- what is hashed ahead

  /** This step hands the worker a new chunk. */
  predicate Restarts(s: State, a: Action) {
    a.TryStart? && s.client.Starting? && s.page < |s.batch| && (s.status.WorkerReady? || s.status.WorkDone?)
  }

  /** How many pages were published since the worker was last handed a chunk. */
  function PublishedSince(acts: seq<Action>): nat
    decreases |acts|
  {
    if acts == [] then 0
    else
      match Run(Init(), acts[..|acts| - 1])
      case None => 0
      case Some(s) =>
        if Restarts(s, acts[|acts| - 1]) then 0
        else PublishedSince(acts[..|acts| - 1]) + if acts[|acts| - 1].WorkerStep? && s.worker.Publish? then 1 else 0
  }

  /** Since then, nobody has asked the worker to stop. */
  predicate Undisturbed(acts: seq<Action>)
    decreases |acts|
  {
    acts != [] &&
      match Run(Init(), acts[..|acts| - 1])
      case None => false
      case Some(s) =>
        || Restarts(s, acts[|acts| - 1])
        || (Undisturbed(acts[..|acts| - 1]) && !(acts[|acts| - 1].TryStart? && s.status.InProgress?))
  }

  lemma IndexStep(s: State, a: Action)
    requires Next(s, a).Some?
    ensures Next(s, a).value.curr == if Restarts(s, a) then 0 else s.curr + if a.WorkerStep? && s.worker.Publish? then 1 else 0
  {
  }

  lemma {:induction false} IndexCounts(acts: seq<Action>)
    requires Run(Init(), acts).Some?
    ensures Run(Init(), acts).value.curr == PublishedSince(acts)
    decreases |acts|
  {
    if acts != [] {
      IndexCounts(acts[..|acts| - 1]);
      IndexStep(Run(Init(), acts[..|acts| - 1]).value, acts[|acts| - 1]);
    }
  }

  /** The page worker uses a digest computed ahead exactly when so many pages have been published that its own is among them. */
  lemma HitsIff(acts: seq<Action>)
    requires Run(Init(), acts).Some? && Run(Init(), acts).value.client.Looking?
    ensures var s := Run(Init(), acts).value;
      && Next(s, Lookup).Some?
      && (Next(s, Lookup).value.client.Hit? <==> s.start + s.page < s.base + PublishedSince(acts))
      && (Next(s, Lookup).value.client.Miss? <==> s.start + s.page >= s.base + PublishedSince(acts))
  {
    RunKeepsInv(acts);
    IndexCounts(acts);
  }

  lemma DoneIsComplete(s: State, a: Action)
    requires Inv(s) && Next(s, a).Some? && !Restarts(s, a) && !(a.TryStart? && s.status.InProgress?)
    requires (s.worker.Finish? && !s.status.Stop?) || s.status.WorkDone? ==> s.curr == s.max
    ensures var s' := Next(s, a).value; (s'.worker.Finish? && !s'.status.Stop?) || s'.status.WorkDone? ==> s.status.Stop? || s'.curr == s'.max
  {
  }

  /** A worker that is not disturbed hashes its whole chunk. */
  lemma {:induction false} UndisturbedHashesAll(acts: seq<Action>)
    requires Run(Init(), acts).Some? && Undisturbed(acts)
    ensures var s := Run(Init(), acts).value;
      && !s.status.Stop?
      && (s.worker.Finish? || s.status.WorkDone? ==> s.curr == s.max == PublishedSince(acts))
    decreases |acts|
  {
    IndexCounts(acts);
    var s, a := Run(Init(), acts[..|acts| - 1]).value, acts[|acts| - 1];
    RunKeepsInv(acts[..|acts| - 1]);
    RunKeepsInv(acts);
    if !Restarts(s, a) {
      UndisturbedHashesAll(acts[..|acts| - 1]);
      DoneIsComplete(s, a);
    }
  }
}
