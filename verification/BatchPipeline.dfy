/**
 The hand-off of page batches from the reader to the page worker.

 The reader fetches the next batch into a fresh buffer while the page worker, holding the mutex,
 processes the one before; a critical section of the reader is a single step that it can take only
 while the worker does not hold the mutex.
 */
module BatchPipeline {
  import opened Wrappers

  const MAX_PAGES_IN_SGL := 65536

  datatype Status = NoWorker | WorkerReady | DataReady | WorkDone

  /** The pages [first, first + size) of one table, as read into a buffer. */
  datatype Buffer = Buffer(table: nat, first: nat, size: nat)

  datatype Job = Job(table: nat, buffer: nat, num: nat, adjust: nat, status: Status)

  datatype Reader =
    | NextTable
    | Fetch
    | HandOff(buffer: nat)
    | ReleasePrevious(buffer: nat)
    | FinalWait
    | ReleaseLast
    | Finished
    | Aborted

  datatype Worker = Waiting | Working(i: nat)

  /** One page was compared: its table, its place in the table, and the shadow entry it was paired with. */
  datatype Done = Done(table: nat, page: nat, shadow: nat)

  datatype State = State(
    reader: Reader, worker: Worker, job: Job,
    table: nat, sgl: nat, previous: Option<nat>,
    live: map<nat, Buffer>, nextBuffer: nat,
    processed: seq<Done>, scanned: nat)

  /** Abort: the table or a batch cannot be had, or the first entry of the table reads as empty. */
  datatype Action = Boot | ReaderStep | WorkerStep | Abort

  function Init(): State {
    State(NextTable, Waiting, Job(0, 0, 0, 0, NoWorker), 0, 0, None, map[], 0, [], 0)
  }

  function DivRoundUp(n: nat, d: nat): nat
    requires d > 0
  {
    (n + d - 1) / d
  }

  function Batches(cnt: nat): nat {
    DivRoundUp(cnt, MAX_PAGES_IN_SGL)
  }

  /** The size of the j-th batch of a table. */
  function BatchSize(cnt: nat, j: nat): int {
    if j == Batches(cnt) - 1 then cnt - j * MAX_PAGES_IN_SGL else MAX_PAGES_IN_SGL
  }

  /** The reader's next step; None is a use of a buffer that is gone, or a batch of negative size. */
  function ReaderNext(tables: seq<nat>, s: State): Option<State> {
    match s.reader
    case NextTable =>
      if s.table >= |tables| then Some(s.(reader := Finished))
      else if Batches(tables[s.table]) == 0 then Some(s.(reader := FinalWait, sgl := 0))
      else Some(s.(reader := Fetch, sgl := 0))
    case Fetch =>
      if s.table >= |tables| || BatchSize(tables[s.table], s.sgl) < 0 then None
      else
        var b := Buffer(s.table, s.sgl * MAX_PAGES_IN_SGL, BatchSize(tables[s.table], s.sgl));
        Some(s.(reader := HandOff(s.nextBuffer), live := s.live[s.nextBuffer := b], nextBuffer := s.nextBuffer + 1))
    case HandOff(buffer) =>
      if s.worker.Waiting? && (s.job.status.WorkDone? || s.job.status.WorkerReady?) then
        if s.table >= |tables| || BatchSize(tables[s.table], s.sgl) < 0 then None
        else
          Some(s.(scanned := s.scanned + s.job.num,
                  job := Job(s.table, buffer, BatchSize(tables[s.table], s.sgl), s.sgl * MAX_PAGES_IN_SGL, DataReady),
                  reader := ReleasePrevious(buffer)))
      else Some(s)
    case ReleasePrevious(buffer) =>
      if s.table >= |tables| || (s.previous.Some? && s.previous.value !in s.live) then None
      else
        Some(s.(live := if s.previous.Some? then s.live - {s.previous.value} else s.live,
                previous := Some(buffer), sgl := s.sgl + 1,
                reader := if s.sgl + 1 < Batches(tables[s.table]) then Fetch else FinalWait))
    case FinalWait =>
      if s.worker.Waiting? && s.job.status.WorkDone? then
        Some(s.(scanned := s.scanned + s.job.num, job := Job(0, 0, 0, 0, WorkerReady), reader := ReleaseLast))
      else Some(s)
    case ReleaseLast =>
      if s.previous.Some? && s.previous.value !in s.live then None
      else
        Some(s.(live := if s.previous.Some? then s.live - {s.previous.value} else s.live,
                previous := None, table := s.table + 1, reader := NextTable))
    case Finished => Some(s)
    case Aborted => Some(s)
  }

  /** Every early return comes before a table is begun or before a batch is handed over. */
  function AbortNext(tables: seq<nat>, s: State): State {
    if s.reader.NextTable? && s.table < |tables| then s.(reader := Aborted, sgl := 0)
    else if s.reader.Fetch? then s.(reader := Aborted)
    else s
  }

  /** The worker takes the mutex, processes every page of the batch, and reports it done. */
  function WorkerNext(s: State): Option<State> {
    match s.worker
    case Waiting =>
      if s.job.status.DataReady? then Some(s.(worker := Working(0))) else Some(s)
    case Working(i) =>
      if i < s.job.num then
        if s.job.buffer !in s.live || i >= s.live[s.job.buffer].size then None
        else
          var d := Done(s.job.table, s.live[s.job.buffer].first + i, s.job.adjust + i);
          Some(s.(processed := s.processed + [d], worker := Working(i + 1)))
      else Some(s.(job := s.job.(status := WorkDone), worker := Waiting))
  }

  function Next(tables: seq<nat>, s: State, a: Action): Option<State> {
    match a
    case Boot => Some(if s.job.status.NoWorker? then s.(job := s.job.(status := WorkerReady)) else s)
    case ReaderStep => ReaderNext(tables, s)
    case WorkerStep => WorkerNext(s)
    case Abort => Some(AbortNext(tables, s))
  }

  function Run(tables: seq<nat>, acts: seq<Action>): Option<State>
    decreases |acts|
  {
    if acts == [] then Some(Init())
    else
      match Run(tables, acts[..|acts| - 1])
      case None => None
      case Some(s) => Next(tables, s, acts[|acts| - 1])
  }

  // ---------------------------------------------------------------- what should be processed

  /** All pages of the first t tables and the first x pages of the next, in order. */
  function Pages(tables: seq<nat>, t: nat, x: nat): (r: seq<Done>)
    requires t <= |tables|
    decreases t, x
  {
    if x > 0 then Pages(tables, t, x - 1) + [Done(t, x - 1, x - 1)]
    else if t == 0 then []
    else Pages(tables, t - 1, tables[t - 1])
  }

  function Sum(tables: seq<nat>, t: nat): nat
    requires t <= |tables|
  {
    if t == 0 then 0 else Sum(tables, t - 1) + tables[t - 1]
  }

  predicate Before(d: Done, e: Done) {
    d.table < e.table || (d.table == e.table && d.page < e.page)
  }

  predicate Covered(tables: seq<nat>, t: nat, x: nat, d: Done)
    requires t <= |tables|
  {
    d.shadow == d.page && ((d.table < t && d.page < tables[d.table]) || (d.table == t && d.page < x))
  }

  /** Pages lists every page exactly once, each with its own shadow entry, in table and page order. */
  lemma {:induction false} PagesListsAll(tables: seq<nat>, t: nat, x: nat)
    requires t <= |tables|
    ensures |Pages(tables, t, x)| == Sum(tables, t) + x
    ensures forall d :: d in Pages(tables, t, x) <==> Covered(tables, t, x, d)
    ensures forall i, j :: 0 <= i < j < |Pages(tables, t, x)| ==> Before(Pages(tables, t, x)[i], Pages(tables, t, x)[j])
    decreases t, x
  {
    if x > 0 {
      PagesListsAll(tables, t, x - 1);
      var front, last := Pages(tables, t, x - 1), Done(t, x - 1, x - 1);
      assert Pages(tables, t, x) == front + [last];
      forall d | d in front ensures Before(d, last) { assert Covered(tables, t, x - 1, d); }
      forall d ensures d in front + [last] <==> Covered(tables, t, x, d) {
        assert d in front <==> Covered(tables, t, x - 1, d);
      }
    } else if t > 0 {
      PagesListsAll(tables, t - 1, tables[t - 1]);
      forall d ensures Covered(tables, t, 0, d) <==> Covered(tables, t - 1, tables[t - 1], d) { }
    }
  }

  // ---------------------------------------------------------------- the invariant

  ghost predicate AllNonempty(tables: seq<nat>) {
    forall t :: 0 <= t < |tables| ==> tables[t] >= 1
  }

  /** The job is the j-th batch of the current table, and its buffer is there. */
  predicate JobIs(tables: seq<nat>, s: State, j: int)
    requires s.table < |tables|
  {
    var cnt := tables[s.table];
    && 0 <= j < Batches(cnt) && (s.job.status.DataReady? || s.job.status.WorkDone?)
    && s.job.table == s.table && s.job.adjust == j * MAX_PAGES_IN_SGL && s.job.num == BatchSize(cnt, j)
    && s.job.buffer in s.live
    && s.live[s.job.buffer] == Buffer(s.table, j * MAX_PAGES_IN_SGL, BatchSize(cnt, j))
    && s.scanned == Sum(tables, s.table) + s.job.adjust
    && s.processed == Pages(tables, s.table, s.job.adjust + Progress(s))
  }

  function Progress(s: State): nat {
    if s.job.status.WorkDone? then s.job.num
    else if s.worker.Working? then s.worker.i
    else 0
  }

  /** Nothing is handed over: every page of the tables before t has been processed. */
  predicate Between(tables: seq<nat>, s: State, t: nat)
    requires t <= |tables|
  {
    && (s.job.status.WorkerReady? || s.job.status.NoWorker?) && s.job.num == 0 && s.worker.Waiting?
    && s.scanned == Sum(tables, t) && s.processed == Pages(tables, t, 0)
  }

  /** The buffers the reader still has to release. */
  function Held(s: State): set<nat> {
    (if s.previous.Some? then {s.previous.value} else {})
    + (match s.reader
       case HandOff(b) => {b}
       case ReleasePrevious(b) => {b}
       case _ => {})
  }

  predicate BuffersOk(s: State) {
    s.live.Keys == Held(s) && forall b :: b in s.live ==> b < s.nextBuffer
  }

  predicate WorkerOk(s: State) {
    s.worker.Working? ==> s.job.status.DataReady? && s.worker.i <= s.job.num
  }

  /** What the reader has handed over of the current table. */
  predicate ReaderOk(tables: seq<nat>, s: State) {
    match s.reader
    case NextTable => s.table <= |tables| && s.previous.None? && Between(tables, s, s.table)
    case Fetch =>
      && s.table < |tables| && s.sgl < Batches(tables[s.table])
      && (if s.sgl == 0 then s.previous.None? && Between(tables, s, s.table)
          else JobIs(tables, s, s.sgl - 1) && s.previous == Some(s.job.buffer))
    case HandOff(buffer) =>
      && s.table < |tables| && s.sgl < Batches(tables[s.table])
      && buffer in s.live && s.live[buffer] == Buffer(s.table, s.sgl * MAX_PAGES_IN_SGL, BatchSize(tables[s.table], s.sgl))
      && s.previous != Some(buffer)
      && (if s.sgl == 0 then s.previous.None? && Between(tables, s, s.table)
          else JobIs(tables, s, s.sgl - 1) && s.previous == Some(s.job.buffer))
    case ReleasePrevious(buffer) =>
      && s.table < |tables| && s.sgl < Batches(tables[s.table])
      && s.job.buffer == buffer && s.previous != Some(buffer) && JobIs(tables, s, s.sgl)
    case FinalWait =>
      && s.table < |tables| && s.sgl == Batches(tables[s.table])
      && JobIs(tables, s, s.sgl - 1) && s.previous == Some(s.job.buffer)
    case ReleaseLast => s.table < |tables| && Between(tables, s, s.table + 1)
    case Finished => s.table == |tables| && s.previous.None? && Between(tables, s, s.table)
    case Aborted =>
      && s.table < |tables| && s.sgl < Batches(tables[s.table])
      && (if s.sgl == 0 then s.previous.None? && Between(tables, s, s.table)
          else JobIs(tables, s, s.sgl - 1) && s.previous == Some(s.job.buffer))
  }

  predicate Inv(tables: seq<nat>, s: State) {
    ReaderOk(tables, s) && WorkerOk(s) && BuffersOk(s)
  }

  lemma BatchArithmetic(cnt: nat, j: nat)
    requires cnt >= 1 && j < Batches(cnt)
    ensures 0 < BatchSize(cnt, j) <= MAX_PAGES_IN_SGL
    ensures j < Batches(cnt) - 1 ==> BatchSize(cnt, j) == MAX_PAGES_IN_SGL
    ensures j == Batches(cnt) - 1 ==> j * MAX_PAGES_IN_SGL + BatchSize(cnt, j) == cnt
    ensures Batches(cnt) > 0
  {
  }

  /** The worker processes the pages of its batch in order, each against its own shadow entry. */
  lemma WorkerKeepsInv(tables: seq<nat>, s: State)
    requires AllNonempty(tables) && Inv(tables, s)
    ensures WorkerNext(s).Some? && Inv(tables, WorkerNext(s).value)
  {
    if s.worker.Working? && s.worker.i < s.job.num {
      var x := s.job.adjust + s.worker.i;
      assert Pages(tables, s.table, x + 1) == Pages(tables, s.table, x) + [Done(s.table, x, x)];
    }
  }

  lemma HandOffKeepsInv(tables: seq<nat>, s: State)
    requires AllNonempty(tables) && Inv(tables, s) && s.reader.HandOff?
    ensures ReaderNext(tables, s).Some? && Inv(tables, ReaderNext(tables, s).value)
  {
    BatchArithmetic(tables[s.table], s.sgl);
    if s.sgl > 0 { BatchArithmetic(tables[s.table], s.sgl - 1); }
  }

  lemma FinalWaitKeepsInv(tables: seq<nat>, s: State)
    requires AllNonempty(tables) && Inv(tables, s) && s.reader.FinalWait?
    ensures ReaderNext(tables, s).Some? && Inv(tables, ReaderNext(tables, s).value)
  {
    BatchArithmetic(tables[s.table], s.sgl - 1);
    assert Pages(tables, s.table + 1, 0) == Pages(tables, s.table, tables[s.table]);
  }

  lemma ReaderKeepsInv(tables: seq<nat>, s: State)
    requires AllNonempty(tables) && Inv(tables, s)
    ensures ReaderNext(tables, s).Some? && Inv(tables, ReaderNext(tables, s).value)
  {
    if s.reader.HandOff? {
      HandOffKeepsInv(tables, s);
    } else if s.reader.FinalWait? {
      FinalWaitKeepsInv(tables, s);
    } else if s.reader.Fetch? || s.reader.ReleasePrevious? {
      BatchArithmetic(tables[s.table], s.sgl);
    } else if s.reader.NextTable? && s.table < |tables| {
      BatchArithmetic(tables[s.table], 0);
    }
  }

  lemma AbortKeepsInv(tables: seq<nat>, s: State)
    requires AllNonempty(tables) && Inv(tables, s)
    ensures Inv(tables, AbortNext(tables, s))
  {
    if s.reader.NextTable? && s.table < |tables| { BatchArithmetic(tables[s.table], 0); }
  }

  /** No step of any interleaving uses a buffer that is gone, and the invariant holds throughout. */
  lemma {:induction false} RunKeepsInv(tables: seq<nat>, acts: seq<Action>)
    requires AllNonempty(tables)
    ensures Run(tables, acts).Some? && Inv(tables, Run(tables, acts).value)
    decreases |acts|
  {
    if acts != [] {
      RunKeepsInv(tables, acts[..|acts| - 1]);
      var s := Run(tables, acts[..|acts| - 1]).value;
      match acts[|acts| - 1]
      case Boot =>
      case ReaderStep => ReaderKeepsInv(tables, s);
      case WorkerStep => WorkerKeepsInv(tables, s);
      case Abort => AbortKeepsInv(tables, s);
    }
  }

  /**
   In every interleaving, what has been processed is a prefix of all pages in order, each against
   its own shadow entry; when the reader is finished it is all of them, their number is returned,
   and every buffer is released.
   */
  lemma ProcessesEveryPageOnce(tables: seq<nat>, acts: seq<Action>)
    requires AllNonempty(tables)
    ensures Run(tables, acts).Some?
    ensures var s := Run(tables, acts).value;
      && s.processed <= Pages(tables, |tables|, 0)
      && (s.reader.Finished? ==>
            && s.processed == Pages(tables, |tables|, 0) && s.live.Keys == {}
            && s.scanned == Sum(tables, |tables|))
  {
    RunKeepsInv(tables, acts);
    var s := Run(tables, acts).value;
    if s.reader.NextTable? || s.reader.Finished? || ((s.reader.Fetch? || s.reader.HandOff? || s.reader.Aborted?) && s.sgl == 0) {
      PrefixOfAll(tables, s.table, 0);
    } else if s.reader.ReleaseLast? {
      PrefixOfAll(tables, s.table + 1, 0);
    } else {
      var j := if s.reader.ReleasePrevious? then s.sgl else s.sgl - 1;
      BatchArithmetic(tables[s.table], j);
      PrefixOfAll(tables, s.table, s.job.adjust + Progress(s));
    }
  }

  /** What is processed so far is a prefix of all pages. */
  lemma {:induction false} PrefixOfAll(tables: seq<nat>, t: nat, x: nat)
    requires t <= |tables| && (t < |tables| ==> x <= tables[t]) && (t == |tables| ==> x == 0)
    ensures Pages(tables, t, x) <= Pages(tables, |tables|, 0)
    decreases |tables| - t, if t < |tables| then tables[t] - x else 0
  {
    if t < |tables| {
      if x < tables[t] {
        PrefixOfAll(tables, t, x + 1);
      } else {
        PrefixOfAll(tables, t + 1, 0);
      }
    }
  }

  // ---------------------------------------------------------------- when it ends

  /** The stage of the reader within a table and a batch. */
  function Stage(r: Reader): nat {
    match r
    case NextTable => 4
    case Fetch => 3
    case HandOff(_) => 2
    case ReleasePrevious(_) => 1
    case FinalWait => 1
    case _ => 0
  }

  /** The batches of the current table that are still to come. */
  function BatchesLeft(tables: seq<nat>, s: State): nat {
    if s.table >= |tables| then 0
    else if s.reader.NextTable? then Batches(tables[s.table]) + 1
    else if s.sgl <= Batches(tables[s.table]) && !s.reader.ReleaseLast? then Batches(tables[s.table]) - s.sgl
    else 0
  }

  /** The steps that the worker still has to take for its job. */
  function WorkLeft(s: State): nat {
    if !s.job.status.DataReady? then 0
    else match s.worker
      case Waiting => s.job.num + 2
      case Working(i) => if i <= s.job.num then s.job.num - i + 1 else 0
  }

  /** From every point at which reader and worker are running, the reader can finish. */
  lemma {:induction false} CanFinish(tables: seq<nat>, acts: seq<Action>) returns (all: seq<Action>)
    requires AllNonempty(tables)
    requires Run(tables, acts).Some? && Inv(tables, Run(tables, acts).value)
    requires !Run(tables, acts).value.job.status.NoWorker? && !Run(tables, acts).value.reader.Aborted?
    ensures acts <= all && Run(tables, all).Some? && Run(tables, all).value.reader.Finished?
    decreases |tables| - Run(tables, acts).value.table, BatchesLeft(tables, Run(tables, acts).value),
      Stage(Run(tables, acts).value.reader), WorkLeft(Run(tables, acts).value)
  {
    var s := Run(tables, acts).value;
    if s.reader.Finished? { return acts; }
    var a := if s.job.status.DataReady? then WorkerStep else ReaderStep;
    assert (acts + [a])[..|acts + [a]| - 1] == acts;
    if s.job.status.DataReady? {
      WorkerMovesOn(tables, s);
    } else {
      ReaderMovesOn(tables, s);
    }
    all := CanFinish(tables, acts + [a]);
  }

  /** With no job under way the reader's step brings it closer to the end. */
  lemma ReaderMovesOn(tables: seq<nat>, s: State)
    requires AllNonempty(tables) && Inv(tables, s) && !s.reader.Finished? && !s.reader.Aborted?
    requires !s.job.status.NoWorker? && !s.job.status.DataReady?
    ensures ReaderNext(tables, s).Some? && Inv(tables, ReaderNext(tables, s).value)
    ensures !ReaderNext(tables, s).value.job.status.NoWorker? && !ReaderNext(tables, s).value.reader.Aborted?
    ensures var s' := ReaderNext(tables, s).value;
      || (s.table < s'.table <= |tables|)
      || (s'.table == s.table && BatchesLeft(tables, s') < BatchesLeft(tables, s))
      || (s'.table == s.table && BatchesLeft(tables, s') == BatchesLeft(tables, s) && Stage(s'.reader) < Stage(s.reader))
  {
    ReaderKeepsInv(tables, s);
    if s.table < |tables| { BatchArithmetic(tables[s.table], 0); }
  }

  lemma WorkerMovesOn(tables: seq<nat>, s: State)
    requires AllNonempty(tables) && Inv(tables, s) && s.job.status.DataReady?
    ensures WorkerNext(s).Some? && Inv(tables, WorkerNext(s).value) && !WorkerNext(s).value.job.status.NoWorker?
    ensures var s' := WorkerNext(s).value;
      s'.reader == s.reader && s'.table == s.table && s'.sgl == s.sgl && WorkLeft(s') < WorkLeft(s)
  {
    WorkerKeepsInv(tables, s);
  }

  /** The reader waits for a job that it has never handed over. */
  predicate Stuck(tables: seq<nat>, s: State) {
    && s.reader.FinalWait? && s.worker.Waiting? && s.table < |tables| && tables[s.table] == 0
    && (s.job.status.WorkerReady? || s.job.status.NoWorker?)
  }

  /** Before the first empty table all goes as if the tables ended there; then the reader is stuck or gives up. */
  ghost predicate Doomed(tables: seq<nat>, e: nat, s: State)
    requires e < |tables|
  {
    (Inv(tables[..e], s) && !s.reader.Finished?) || Stuck(tables, s) || s.reader.Aborted?
  }

  lemma StepStaysDoomed(tables: seq<nat>, e: nat, s: State, a: Action)
    requires e < |tables| && tables[e] == 0 && AllNonempty(tables[..e]) && Doomed(tables, e, s)
    ensures Next(tables, s, a).Some? ==> Doomed(tables, e, Next(tables, s, a).value)
  {
    if Inv(tables[..e], s) && !s.reader.Finished? && s.table < e {
      assert tables[..e][s.table] == tables[s.table];
      match a
      case Boot =>
      case ReaderStep => ReaderKeepsInv(tables[..e], s);
      case WorkerStep => WorkerKeepsInv(tables[..e], s);
      case Abort => AbortKeepsInv(tables[..e], s);
    }
  }

  lemma {:induction false} RunStaysDoomed(tables: seq<nat>, e: nat, acts: seq<Action>)
    requires e < |tables| && tables[e] == 0 && AllNonempty(tables[..e])
    ensures Run(tables, acts).Some? ==> Doomed(tables, e, Run(tables, acts).value)
    decreases |acts|
  {
    if acts != [] {
      var front := acts[..|acts| - 1];
      RunStaysDoomed(tables, e, front);
      if Run(tables, front).Some? { StepStaysDoomed(tables, e, Run(tables, front).value, acts[|acts| - 1]); }
    }
  }

  lemma {:induction false} FirstEmpty(tables: seq<nat>, t: nat) returns (e: nat)
    requires t < |tables| && tables[t] == 0
    ensures e <= t && tables[e] == 0 && AllNonempty(tables[..e])
  {
    if AllNonempty(tables[..t]) {
      e := t;
    } else {
      var u :| 0 <= u < t && tables[..t][u] < 1;
      e := FirstEmpty(tables, u);
    }
  }

  /** Some interleaving lets the reader finish if and only if every table has an entry. */
  lemma FinishesIff(tables: seq<nat>)
    ensures AllNonempty(tables) <==> exists acts :: Run(tables, acts).Some? && Run(tables, acts).value.reader.Finished?
  {
    if AllNonempty(tables) {
      assert [Boot][..0] == [] && Run(tables, [Boot][..0]) == Some(Init());
      RunKeepsInv(tables, [Boot]);
      var all := CanFinish(tables, [Boot]);
    } else {
      var t :| 0 <= t < |tables| && tables[t] < 1;
      var e := FirstEmpty(tables, t);
      forall acts | Run(tables, acts).Some? ensures !Run(tables, acts).value.reader.Finished? {
        RunStaysDoomed(tables, e, acts);
      }
    }
  }

  /** Once the reader has entered an empty table, the final wait never ends, whatever anybody does. */
  lemma {:induction false} EmptyTableHangs(tables: seq<nat>, acts: seq<Action>, more: seq<Action>)
    requires Run(tables, acts).Some? && Stuck(tables, Run(tables, acts).value)
    ensures Run(tables, acts + more).Some? && Stuck(tables, Run(tables, acts + more).value)
    ensures Run(tables, acts + more).value.processed == Run(tables, acts).value.processed
    decreases |more|
  {
    if more == [] {
      assert acts + more == acts;
    } else {
      EmptyTableHangs(tables, acts, more[..|more| - 1]);
      assert (acts + more)[..|acts + more| - 1] == acts + more[..|more| - 1];
    }
  }

  /** And every run that enters an empty table gets stuck there. */
  lemma EnteringHangs(tables: seq<nat>, acts: seq<Action>)
    requires Run(tables, acts).Some? && Run(tables, acts).value.reader.FinalWait?
    requires Run(tables, acts).value.table < |tables| && tables[Run(tables, acts).value.table] == 0
    ensures Stuck(tables, Run(tables, acts).value)
  {
    var s := Run(tables, acts).value;
    var e := FirstEmpty(tables, s.table);
    RunStaysDoomed(tables, e, acts);
  }
}
