/**
 Mirroring page tables for a device: the caller's array holds a request for every page of a range and
 receives what the page table says, faulting pages in where the request asks for it.
 */
module Hmm {
  import opened Arithmetic

  /** The bits VALID and WRITE of a word, which in a request ask for a fault and for a write fault. */
  datatype Flags = Flags(valid: bool, write: bool)

  /** One word of the array: a request on entry, a report once it is settled. */
  datatype Word = Word(pfn: nat, flags: Flags, error: bool, order: nat)

  /** The rules of a range; base is the number of its first page. */
  datatype Rules = Rules(base: nat, defaults: Flags, mask: Flags)

  datatype Pte =
    | Empty
    | Private(pfn: nat, writable: bool, ours: bool)  // device private entry, perhaps of the caller's device
    | Swapped                                        // on a swap device
    | Exclusive                                      // device exclusive entry
    | Migrating
    | Poisoned                                       // any other entry that is not present
    | Present(pfn: nat, writable: bool, protNone: bool, normal: bool)

  /** What the walk meets over a run of pages. */
  datatype Seen =
    | Unsupported                                    // not readable, or no struct pages behind it
    | NoVma
    | Hole
    | PmdMigrating
    | PmdAbsent                                      // neither present nor migrating
    | PmdBad
    | Huge(pfn: nat, writable: bool, accessible: bool, order: nat, span: nat)
    | Table(ptes: seq<Pte>)
    | Hugetlb(pfn: nat, writable: bool, accessible: bool, order: nat, span: nat)

  /** n pages; writable: their vma allows writes; failing: some fault in them ends in an error. */
  datatype Segment = Segment(n: nat, seen: Seen, writable: bool, failing: bool)

  /** Stale: a notifier says that the range has changed under the walk. */
  datatype Outcome = Done | Busy | NoPermission | BadAddress | BadRange | Stale

  const NO := Flags(false, false)
  const BOTH := Flags(true, true)
  const EMPTY := Word(0, NO, false, 0)
  const ERROR := Word(0, NO, true, 0)

  function Or(a: Flags, b: Flags): Flags {
    Flags(a.valid || b.valid, a.write || b.write)
  }

  /** What a request asks for under the rules of the range. */
  function Asked(r: Rules, w: Word): Flags {
    Or(Flags(w.flags.valid && r.mask.valid, w.flags.write && r.mask.write), r.defaults)
  }

  /** The faults that a request needs where the page table offers cpu. */
  function NeedFault(r: Rules, w: Word, cpu: Flags): Flags {
    var a := Asked(r, w);
    if !a.valid then NO
    else if a.write && !cpu.write then BOTH
    else if !cpu.valid then Flags(true, false)
    else NO
  }

  function PteFlags(p: Pte): Flags {
    if p.Present? && !p.protNone then Flags(true, p.writable) else NO
  }

  predicate WellFormed(g: Segment) {
    && g.n > 0
    && (g.seen.Table? ==> |g.seen.ptes| == g.n)
    && (g.seen.Huge? || g.seen.Hugetlb? ==> g.seen.span > 0)
  }

  function HugeFlags(s: Seen): Flags
    requires s.Huge? || s.Hugetlb?
  {
    if s.accessible then Flags(true, s.writable) else NO
  }

  /** A huge entry that is not accessible is reported without its order. */
  function HugeOrder(s: Seen): nat
    requires s.Huge? || s.Hugetlb?
  {
    if s.Huge? && !s.accessible then 0 else s.order
  }

  function PteReport(p: Pte): Word {
    if p.Private? && p.ours then Word(p.pfn, Flags(true, p.writable), false, 0)
    else if !p.Present? then EMPTY
    else if !p.normal then ERROR
    else Word(p.pfn, PteFlags(p), false, 0)
  }

  /** What is reported for page k of a segment that starts at index lo of the array. */
  function Report(r: Rules, g: Segment, lo: nat, k: nat): Word
    requires WellFormed(g) && k < g.n
  {
    match g.seen
    case Unsupported => ERROR
    case NoVma => ERROR
    case Hole => EMPTY
    case PmdMigrating => EMPTY
    case PmdAbsent => ERROR
    case PmdBad => ERROR
    case Huge(pfn, _, _, order, span) => Word(pfn + (r.base + lo) % span + k, HugeFlags(g.seen), false, HugeOrder(g.seen))
    case Table(ptes) => PteReport(ptes[k])
    case Hugetlb(pfn, _, _, order, span) => Word(pfn + (r.base + lo) % span + k, HugeFlags(g.seen), false, order)
  }

  /** The page may be reported without a fault; first is the request of the first page of the segment. */
  predicate Accepted(r: Rules, g: Segment, first: Word, own: Word, k: nat)
    requires WellFormed(g) && k < g.n
  {
    match g.seen
    case Huge(_, _, _, _, _) => NeedFault(r, own, HugeFlags(g.seen)) == NO
    case Table(ptes) => PteAccepted(r, ptes[k], own)
    case Hugetlb(_, _, _, _, _) => NeedFault(r, first, HugeFlags(g.seen)) == NO
    case _ => NeedFault(r, own, NO) == NO
  }

  predicate PteAccepted(r: Rules, p: Pte, own: Word) {
    || (p.Private? && p.ours)
    || (NeedFault(r, own, PteFlags(p)) == NO && (p.Present? && !p.normal ==> NeedFault(r, own, NO) == NO))
  }

  /** No fault can help: a request here is an error. */
  predicate Hopeless(r: Rules, g: Segment, own: Word, k: nat)
    requires WellFormed(g) && k < g.n
  {
    match g.seen
    case Unsupported => true
    case NoVma => true
    case PmdAbsent => true
    case PmdBad => true
    case Table(ptes) => PteHopeless(r, ptes[k], own)
    case _ => false
  }

  predicate PteHopeless(r: Rules, p: Pte, own: Word) {
    p.Poisoned? || (p.Present? && !p.normal && NeedFault(r, own, PteFlags(p)) == NO)
  }

  // ---------------------------------------------------------------- what a report says

  /** A huge page of span frames is mapped from the multiple first of its span on; page is one of its pages. */
  predicate FrameUnder(pfn: nat, span: nat, first: nat, page: nat, frame: nat)
    requires span > 0
  {
    first % span == 0 && first <= page < first + span && frame == pfn + (page - first)
  }

  /** The run of pages lies under one entry, as the walker of page tables cuts them. */
  ghost predicate UnderOneEntry(r: Rules, g: Segment, lo: nat)
    requires WellFormed(g)
  {
    g.seen.Huge? || g.seen.Hugetlb? ==> InOneSpan(g.seen.span, r.base + lo, g.n)
  }

  ghost predicate InOneSpan(span: nat, page: nat, n: nat)
    requires span > 0
  {
    exists first: nat :: Spans(span, first, page, n)
  }

  predicate Spans(span: nat, first: nat, page: nat, n: nat)
    requires span > 0
  {
    first % span == 0 && first <= page && page + n <= first + span
  }

  ghost predicate IsFrame(pfn: nat, span: nat, page: nat, frame: nat)
    requires span > 0
  {
    exists first: nat :: FrameUnder(pfn, span, first, page, frame)
  }

  predicate Says(w: Word, valid: bool, write: bool, error: bool) {
    w.flags.valid == valid && w.flags.write == write && w.error == error
  }

  /** The word says of entry i what is mapped there: the frame, and whether it can be read and written. */
  ghost predicate IsTrue(r: Rules, g: Segment, lo: nat, i: nat, w: Word)
    requires WellFormed(g) && lo <= i < lo + g.n
  {
    match g.seen
    case Hole => Says(w, false, false, false)
    case PmdMigrating => Says(w, false, false, false)
    case Table(ptes) => PteTrue(ptes[i - lo], w)
    case Huge(pfn, writable, accessible, order, span) =>
      && Says(w, accessible, accessible && writable, false) && w.order == (if accessible then order else 0)
      && IsFrame(pfn, span, r.base + i, w.pfn)
    case Hugetlb(pfn, writable, accessible, order, span) =>
      && Says(w, accessible, accessible && writable, false) && w.order == order
      && IsFrame(pfn, span, r.base + i, w.pfn)
    case _ => Says(w, false, false, true)
  }

  predicate PteTrue(p: Pte, w: Word) {
    match p
    case Present(pfn, writable, protNone, normal) =>
      if normal then Says(w, !protNone, !protNone && writable, false) && w.pfn == pfn else Says(w, false, false, true)
    case Private(pfn, writable, ours) =>
      if ours then Says(w, true, writable, false) && w.pfn == pfn else Says(w, false, false, false)
    case _ => Says(w, false, false, false)
  }

  /** The offset into a huge page counts from the last multiple of its span. */
  lemma FrameIsUnder(pfn: nat, span: nat, page: nat, n: nat, k: nat)
    requires span > 0 && InOneSpan(span, page, n) && k < n
    ensures IsFrame(pfn, span, page + k, pfn + page % span + k)
  {
    var first: nat :| Spans(span, first, page, n);
    assert first == first / span * span;
    ModUnique(first / span, page - first, span);
    assert FrameUnder(pfn, span, first, page + k, pfn + page % span + k);
  }

  /** What is reported is true. */
  lemma ReportIsTrue(r: Rules, g: Segment, lo: nat, k: nat)
    requires WellFormed(g) && k < g.n && UnderOneEntry(r, g, lo)
    ensures IsTrue(r, g, lo, lo + k, Report(r, g, lo, k))
  {
    if g.seen.Huge? || g.seen.Hugetlb? {
      FrameIsUnder(g.seen.pfn, g.seen.span, r.base + lo, g.n, k);
    }
  }

  lemma SettledIsTrue(r: Rules, g: Segment, lo: nat, now: seq<Word>)
    requires WellFormed(g) && lo + g.n <= |now| && forall k: nat :: k < g.n ==> now[lo + k] == Report(r, g, lo, k)
    ensures UnderOneEntry(r, g, lo) ==> forall i :: lo <= i < lo + g.n ==> IsTrue(r, g, lo, i, now[i])
  {
    if UnderOneEntry(r, g, lo) {
      forall i | lo <= i < lo + g.n ensures IsTrue(r, g, lo, i, now[i]) {
        ReportIsTrue(r, g, lo, i - lo);
        assert now[lo + (i - lo)] == Report(r, g, lo, i - lo);
      }
    }
  }

  // ---------------------------------------------------------------- what success means

  /** The request is met by what is reported. */
  predicate Met(r: Rules, request: Word, report: Word) {
    (request.flags.valid && r.mask.valid) || r.defaults.valid ==>
      && report.flags.valid
      && ((request.flags.write && r.mask.write) || r.defaults.write ==> report.flags.write)
  }

  predicate OwnPrivate(g: Segment, k: nat)
    requires WellFormed(g) && k < g.n
  {
    g.seen.Table? && g.seen.ptes[k].Private? && g.seen.ptes[k].ours
  }

  /** A page is accepted exactly when what is reported meets its request, hugetlb pages and the caller's own device pages aside. */
  lemma AcceptedIffMet(r: Rules, g: Segment, lo: nat, first: Word, own: Word, k: nat)
    requires WellFormed(g) && k < g.n
    ensures !g.seen.Hugetlb? && !OwnPrivate(g, k) ==> (Accepted(r, g, first, own, k) <==> Met(r, own, Report(r, g, lo, k)))
    ensures g.seen.Hugetlb? ==> (Accepted(r, g, first, own, k) <==> Met(r, first, Report(r, g, lo, k)))
    ensures OwnPrivate(g, k) ==> Accepted(r, g, first, own, k) && Report(r, g, lo, k).flags.valid
  {
  }

  /** a asks for everything b asks for. */
  predicate AsksAsMuch(r: Rules, a: Word, b: Word) {
    var x, y := Asked(r, a), Asked(r, b);
    y.valid ==> x.valid && (y.write ==> x.write)
  }

  /** In a hugetlb page only the first request counts: another one is sure to be met just if it asks for no more. */
  lemma HugetlbIsMetIff(r: Rules, first: Word, own: Word, n: nat, k: nat)
    requires k < n
    ensures AsksAsMuch(r, first, own) <==>
      forall g: Segment :: g.n == n && g.seen.Hugetlb? && WellFormed(g) && Accepted(r, g, first, own, k) ==>
        Met(r, own, Report(r, g, 0, k))
  {
    if !AsksAsMuch(r, first, own) {
      var g := Segment(n, Hugetlb(0, false, Asked(r, first).valid, 9, 512), true, false);
      assert Accepted(r, g, first, own, k);
      assert !Met(r, own, Report(r, g, 0, k));
    } else {
      forall g: Segment | g.n == n && g.seen.Hugetlb? && WellFormed(g) && Accepted(r, g, first, own, k)
        ensures Met(r, own, Report(r, g, 0, k))
      {
        AcceptedIffMet(r, g, 0, first, own, k);
      }
    }
  }

  /** A device page of the caller's own is reported as it is: a request for writing is sure to be met just if there is none. */
  lemma OwnPrivateIsMetIff(r: Rules, own: Word)
    ensures !(Asked(r, own).valid && Asked(r, own).write) <==> forall pfn, writable :: Met(r, own, PteReport(Private(pfn, writable, true)))
  {
    if Asked(r, own).valid && Asked(r, own).write {
      assert !Met(r, own, PteReport(Private(0, false, true)));
    }
  }

  // ---------------------------------------------------------------- walking

  predicate AcceptedAt(r: Rules, g: Segment, lo: nat, inputs: seq<Word>, k: nat)
    requires WellFormed(g) && lo + g.n <= |inputs|
  {
    k < g.n && Accepted(r, g, inputs[lo], inputs[lo + k], k)
  }

  /** Page k of the segment at lo is settled: it was accepted as requested and holds the report. */
  predicate Settled(r: Rules, g: Segment, lo: nat, inputs: seq<Word>, now: seq<Word>, k: nat)
    requires WellFormed(g) && lo + g.n <= |inputs| == |now|
  {
    k < g.n && now[lo + k] == Report(r, g, lo, k) && AcceptedAt(r, g, lo, inputs, k)
  }

  /** The first done pages are settled, and nothing else has changed. */
  ghost predicate SettledUpTo(r: Rules, g: Segment, lo: nat, inputs: seq<Word>, now: seq<Word>, done: nat)
    requires WellFormed(g) && lo + g.n <= |inputs|
  {
    && |now| == |inputs| && done <= g.n
    && (forall k: nat :: k < done ==> Settled(r, g, lo, inputs, now, k))
    && (forall i :: 0 <= i < |inputs| && !(lo <= i < lo + done) ==> now[i] == inputs[i])
  }

  /** The request of page k is for a page that can be written. */
  predicate AsksWriteAt(r: Rules, inputs: seq<Word>, lo: nat, k: nat) {
    lo + k < |inputs| && Asked(r, inputs[lo + k]).valid && Asked(r, inputs[lo + k]).write
  }

  /** Why a walk of a segment stopped after done pages. */
  ghost predicate Stopped(r: Rules, g: Segment, lo: nat, inputs: seq<Word>, done: nat, out: Outcome)
    requires WellFormed(g) && lo + g.n <= |inputs|
  {
    && done < g.n
    && (exists k: nat :: done <= k < g.n && !AcceptedAt(r, g, lo, inputs, k))
    && (out == Busy ==> !Hopeless(r, g, inputs[lo + done], done))
    && (out == BadAddress ==> Hopeless(r, g, inputs[lo + done], done) || g.failing)
    && (out == NoPermission ==>
          !Hopeless(r, g, inputs[lo + done], done) && !g.writable && exists k: nat :: done <= k < g.n && AsksWriteAt(r, inputs, lo, k))
    && out in {Busy, BadAddress, NoPermission}
  }

  /** The whole segment is settled; or the walk stopped part of the way, and a busy one starts again there. */
  ghost predicate Handled(r: Rules, g: Segment, lo: nat, inputs: seq<Word>, now: seq<Word>, done: nat, out: Outcome, last: nat)
    requires WellFormed(g) && lo + g.n <= |inputs|
  {
    && SettledUpTo(r, g, lo, inputs, now, done)
    && (if out == Done then done == g.n else Stopped(r, g, lo, inputs, done, out))
    && (out == Busy ==> last == lo + done)
  }

  lemma SettleNext(r: Rules, g: Segment, lo: nat, inputs: seq<Word>, now: seq<Word>, next: seq<Word>, i: nat)
    requires WellFormed(g) && lo + g.n <= |inputs| && SettledUpTo(r, g, lo, inputs, now, i) && i < g.n
    requires AcceptedAt(r, g, lo, inputs, i) && next == now[lo + i := Report(r, g, lo, i)]
    ensures SettledUpTo(r, g, lo, inputs, next, i + 1)
  {
    forall k: nat | k < i + 1 ensures Settled(r, g, lo, inputs, next, k) {
      assert k < i ==> Settled(r, g, lo, inputs, now, k);
    }
  }

  /** Where segment j of a walk that starts at lo begins. */
  function Start(segs: seq<Segment>, lo: nat, j: nat): nat
    requires j <= |segs|
  {
    if j == 0 then lo else Start(segs, lo, j - 1) + segs[j - 1].n
  }

  lemma {:induction false} StartsAscend(segs: seq<Segment>, lo: nat, i: nat, j: nat)
    requires i <= j <= |segs|
    ensures Start(segs, lo, i) <= Start(segs, lo, j)
    decreases j
  {
    if i < j { StartsAscend(segs, lo, i, j - 1); }
  }

  /** The segments of a walk from lo cover the rest of the array. */
  ghost predicate Tiles(segs: seq<Segment>, lo: nat, size: nat) {
    (forall g :: g in segs ==> WellFormed(g)) && Start(segs, lo, |segs|) == size
  }

  /** Entry i was settled by segment j of a walk from lo. */
  ghost predicate SettledIn(r: Rules, segs: seq<Segment>, lo: nat, inputs: seq<Word>, now: seq<Word>, i: nat, j: nat)
    requires Tiles(segs, lo, |inputs|) && |now| == |inputs|
  {
    && j < |segs| && Start(segs, lo, j) <= i
    && Start(segs, lo, j) + segs[j].n <= |inputs|
    && Settled(r, segs[j], Start(segs, lo, j), inputs, now, i - Start(segs, lo, j))
  }

  ghost predicate SettledBy(r: Rules, segs: seq<Segment>, lo: nat, inputs: seq<Word>, now: seq<Word>, i: nat)
    requires Tiles(segs, lo, |inputs|) && |now| == |inputs|
  {
    exists j: nat :: SettledIn(r, segs, lo, inputs, now, i, j)
  }

  /** A settled entry stays settled while it is not written, and only the requests from lo on matter. */
  lemma StaysSettled(r: Rules, segs: seq<Segment>, lo: nat, inputs: seq<Word>, now: seq<Word>, inputs': seq<Word>, now': seq<Word>, i: nat)
    requires |inputs| == |inputs'| == |now| == |now'| && Tiles(segs, lo, |inputs|) && i < |now|
    requires SettledBy(r, segs, lo, inputs, now, i) && now[i] == now'[i]
    requires forall m :: lo <= m < |inputs| ==> inputs[m] == inputs'[m]
    ensures SettledBy(r, segs, lo, inputs', now', i)
  {
    var j: nat :| SettledIn(r, segs, lo, inputs, now, i, j);
    StartsAscend(segs, lo, 0, j);
    assert SettledIn(r, segs, lo, inputs', now', i, j);
  }

  /** The walk from lo stopped at entry at, inside one of its segments. */
  ghost predicate StoppedAt(r: Rules, segs: seq<Segment>, lo: nat, inputs: seq<Word>, at: nat, out: Outcome)
    requires Tiles(segs, lo, |inputs|)
  {
    exists j: nat :: StoppedIn(r, segs, lo, inputs, at, out, j)
  }

  ghost predicate StoppedIn(r: Rules, segs: seq<Segment>, lo: nat, inputs: seq<Word>, at: nat, out: Outcome, j: nat)
    requires Tiles(segs, lo, |inputs|)
  {
    && j < |segs| && Start(segs, lo, j) <= at && Start(segs, lo, j) + segs[j].n <= |inputs|
    && Stopped(r, segs[j], Start(segs, lo, j), inputs, at - Start(segs, lo, j), out)
  }

  /** Some round k, which started at starts[k], saw the page of entry i and settled it. */
  ghost predicate Mirrored(r: Rules, view: (nat, nat) -> seq<Segment>, starts: seq<nat>, inputs: seq<Word>, now: seq<Word>, i: nat)
    requires |now| == |inputs| && (forall k: nat, l: nat :: l < |inputs| ==> Tiles(view(k, l), l, |inputs|))
  {
    exists k: nat :: k < |starts| && starts[k] <= i && starts[k] < |inputs|
      && SettledBy(r, view(k, starts[k]), starts[k], inputs, now, i)
  }

  /** Round k found the range unchanged, started at starts[k], and stopped busy where the next one starts, the last one at at. */
  ghost predicate Rounds(r: Rules, view: (nat, nat) -> seq<Segment>, stale: nat -> bool, inputs: seq<Word>, starts: seq<nat>, at: nat)
    requires forall k: nat, l: nat :: l < |inputs| ==> Tiles(view(k, l), l, |inputs|)
  {
    && (if starts == [] then at == 0 else starts[0] == 0)
    && forall k: nat :: k < |starts| ==> RoundOk(r, view, stale, inputs, starts, at, k)
  }

  ghost predicate RoundOk(r: Rules, view: (nat, nat) -> seq<Segment>, stale: nat -> bool, inputs: seq<Word>, starts: seq<nat>, at: nat, k: nat)
    requires k < |starts| && (forall k: nat, l: nat :: l < |inputs| ==> Tiles(view(k, l), l, |inputs|))
  {
    && !stale(k) && starts[k] < |inputs|
    && StoppedAt(r, view(k, starts[k]), starts[k], inputs, if k + 1 < |starts| then starts[k + 1] else at, Busy)
  }

  lemma OneMoreRound(r: Rules, view: (nat, nat) -> seq<Segment>, stale: nat -> bool, inputs: seq<Word>, starts: seq<nat>, from: nat, at: nat)
    requires forall k: nat, l: nat :: l < |inputs| ==> Tiles(view(k, l), l, |inputs|)
    requires Rounds(r, view, stale, inputs, starts, from) && !stale(|starts|) && from < |inputs|
    requires StoppedAt(r, view(|starts|, from), from, inputs, at, Busy)
    ensures Rounds(r, view, stale, inputs, starts + [from], at)
  {
    var starts' := starts + [from];
    forall k: nat | k < |starts'| ensures RoundOk(r, view, stale, inputs, starts', at, k) {
      if k < |starts| { assert RoundOk(r, view, stale, inputs, starts, from, k); }
    }
  }

  class Walk {
    const rules: Rules
    const pfns: array<Word>
    /** Where the next round starts. */
    var last: nat

    constructor (rules: Rules, pfns: array<Word>)
      ensures this.rules == rules && this.pfns == pfns && last == 0
    {
      this.rules, this.pfns, last := rules, pfns, 0;
    }

    method Fill(lo: nat, hi: nat, w: Word)
      requires lo <= hi <= pfns.Length
      modifies pfns
      ensures forall i :: 0 <= i < pfns.Length ==> pfns[i] == if lo <= i < hi then w else old(pfns[i])
    {
      var i := lo;
      while i < hi
        invariant lo <= i <= hi
        invariant forall j :: 0 <= j < pfns.Length ==> pfns[j] == if lo <= j < i then w else old(pfns[j])
      {
        pfns[i] := w;
        i := i + 1;
      }
    }

    /** The union of the needs of a run of pages, found with two short cuts. */
    method RangeNeedFault(lo: nat, hi: nat, cpu: Flags) returns (need: Flags)
      requires lo <= hi <= pfns.Length
      ensures need.valid <==> exists i :: lo <= i < hi && NeedFault(rules, pfns[i], cpu) != NO
      ensures need.write <==> exists i :: lo <= i < hi && NeedFault(rules, pfns[i], cpu).write
      ensures need.write ==> exists k: nat :: k < hi - lo && AsksWriteAt(rules, pfns[..], lo, k)
    {
      need := NO;
      if !rules.defaults.valid && !rules.mask.valid { return; }
      var i := lo;
      while i < hi
        invariant lo <= i <= hi
        invariant need.valid <==> exists j :: lo <= j < i && NeedFault(rules, pfns[j], cpu) != NO
        invariant need.write <==> exists j :: lo <= j < i && NeedFault(rules, pfns[j], cpu).write
        invariant need.write ==> exists k: nat :: k < i - lo && AsksWriteAt(rules, pfns[..], lo, k)
      {
        assert NeedFault(rules, pfns[i], cpu).write ==> AsksWriteAt(rules, pfns[..], lo, i - lo);
        need := Or(need, NeedFault(rules, pfns[i], cpu));
        if need == BOTH { return; }
        i := i + 1;
      }
    }

    /** Faults pages in from addr on; the walk then starts again from there. */
    method Fault(addr: nat, need: Flags, g: Segment) returns (out: Outcome)
      modifies this`last
      ensures last == addr
      ensures out == if need.write && !g.writable then NoPermission else if g.failing then BadAddress else Busy
    {
      last := addr;
      if need.write && !g.writable { return NoPermission; }
      return if g.failing then BadAddress else Busy;
    }

    /** One entry of a page table; the pages up to the end of the table are faulted in with it. */
    method HandlePte(at: nat, p: Pte, g: Segment) returns (out: Outcome)
      requires at < pfns.Length
      modifies pfns, this`last
      ensures PteAccepted(rules, p, old(pfns[at])) <==> out == Done
      ensures out == Done ==> pfns[..] == old(pfns[..])[at := PteReport(p)]
      ensures out != Done ==> pfns[..] == old(pfns[..])
      ensures out == Busy ==> last == at && !PteHopeless(rules, p, old(pfns[at]))
      ensures out == BadAddress ==> PteHopeless(rules, p, old(pfns[at])) || g.failing
      ensures out == NoPermission ==> !g.writable && !PteHopeless(rules, p, old(pfns[at])) && AsksWriteAt(rules, old(pfns[..]), at, 0)
      ensures out in {Done, Busy, BadAddress, NoPermission}
    {
      var own := pfns[at];
      if p.Empty? {
        var need := NeedFault(rules, own, NO);
        if need != NO { out := Fault(at, need, g); return; }
        pfns[at] := EMPTY;
        return Done;
      }
      if !p.Present? {
        if p.Private? && p.ours {
          pfns[at] := Word(p.pfn, Flags(true, p.writable), false, 0);
          return Done;
        }
        var need := NeedFault(rules, own, NO);
        if need == NO {
          pfns[at] := EMPTY;
          return Done;
        }
        if p.Swapped? || p.Private? || p.Exclusive? { out := Fault(at, need, g); return; }
        if p.Migrating? {
          last := at;
          return Busy;
        }
        return BadAddress;
      }
      var cpu := PteFlags(p);
      var need := NeedFault(rules, own, cpu);
      if need != NO { out := Fault(at, need, g); return; }
      if !p.normal {
        if NeedFault(rules, own, NO) != NO { return BadAddress; }
        pfns[at] := ERROR;
        return Done;
      }
      pfns[at] := Word(p.pfn, cpu, false, 0);
      return Done;
    }

    /** A vma that cannot be mirrored at all. */
    method TestVma(lo: nat, g: Segment) returns (out: Outcome, ghost done: nat)
      requires WellFormed(g) && lo + g.n <= pfns.Length && g.seen.Unsupported?
      modifies pfns
      ensures Handled(rules, g, lo, old(pfns[..]), pfns[..], done, out, last)
    {
      done := 0;
      var need := RangeNeedFault(lo, lo + g.n, NO);
      if need != NO {
        Refused(g, lo);
        return BadAddress, 0;
      }
      Fill(lo, lo + g.n, ERROR);
      return Done, g.n;
    }

    /** Some request in the run keeps it from being accepted as it is. */
    lemma Refused(g: Segment, lo: nat)
      requires WellFormed(g) && lo + g.n <= pfns.Length
      requires !g.seen.Table? && !g.seen.Hugetlb? && !g.seen.Huge?
      requires exists i :: lo <= i < lo + g.n && NeedFault(rules, pfns[i], NO) != NO
      ensures exists k: nat :: 0 <= k < g.n && !AcceptedAt(rules, g, lo, pfns[..], k)
    {
      var i :| lo <= i < lo + g.n && NeedFault(rules, pfns[i], NO) != NO;
      assert !AcceptedAt(rules, g, lo, pfns[..], i - lo);
    }

    /** Nothing is mapped, or there is no vma. */
    method WalkHole(lo: nat, g: Segment) returns (out: Outcome, ghost done: nat)
      requires WellFormed(g) && lo + g.n <= pfns.Length && (g.seen.NoVma? || g.seen.Hole?)
      modifies pfns, this`last
      ensures Handled(rules, g, lo, old(pfns[..]), pfns[..], done, out, last)
    {
      done := 0;
      var need := RangeNeedFault(lo, lo + g.n, NO);
      if need != NO {
        Refused(g, lo);
        if g.seen.NoVma? { return BadAddress, 0; }
        out := Fault(lo, need, g);
        return;
      }
      Fill(lo, lo + g.n, if g.seen.NoVma? then ERROR else EMPTY);
      return Done, g.n;
    }

    /** A huge entry that is migrating, absent or bad. */
    method WalkOddPmd(lo: nat, g: Segment) returns (out: Outcome, ghost done: nat)
      requires WellFormed(g) && lo + g.n <= pfns.Length && (g.seen.PmdMigrating? || g.seen.PmdAbsent? || g.seen.PmdBad?)
      modifies pfns, this`last
      ensures Handled(rules, g, lo, old(pfns[..]), pfns[..], done, out, last)
    {
      done := 0;
      var need := RangeNeedFault(lo, lo + g.n, NO);
      if need != NO {
        Refused(g, lo);
        if !g.seen.PmdMigrating? { return BadAddress, 0; }
        last := lo;
        return Busy, 0;
      }
      Fill(lo, lo + g.n, if g.seen.PmdMigrating? then EMPTY else ERROR);
      return Done, g.n;
    }

    /** Consecutive pages of one huge page. */
    method FillHuge(lo: nat, n: nat, pfn: nat, cpu: Flags, order: nat)
      requires lo + n <= pfns.Length
      modifies pfns
      ensures forall i :: 0 <= i < pfns.Length ==>
        pfns[i] == if lo <= i < lo + n then Word(pfn + (i - lo), cpu, false, order) else old(pfns[i])
    {
      var i := 0;
      while i < n
        invariant 0 <= i <= n
        invariant forall j :: 0 <= j < pfns.Length ==>
          pfns[j] == if lo <= j < lo + i then Word(pfn + (j - lo), cpu, false, order) else old(pfns[j])
      {
        pfns[lo + i] := Word(pfn + i, cpu, false, order);
        i := i + 1;
      }
    }

    /** A huge pmd or pud: all its requests count. */
    method HandleHuge(lo: nat, g: Segment) returns (out: Outcome, ghost done: nat)
      requires WellFormed(g) && lo + g.n <= pfns.Length && g.seen.Huge?
      modifies pfns, this`last
      ensures Handled(rules, g, lo, old(pfns[..]), pfns[..], done, out, last)
      ensures out == Done && UnderOneEntry(rules, g, lo) ==> forall i :: lo <= i < lo + g.n ==> IsTrue(rules, g, lo, i, pfns[i])
    {
      done := 0;
      var cpu := HugeFlags(g.seen);
      var need := RangeNeedFault(lo, lo + g.n, cpu);
      if need != NO {
        ghost var i :| lo <= i < lo + g.n && NeedFault(rules, pfns[i], cpu) != NO;
        assert !AcceptedAt(rules, g, lo, pfns[..], i - lo);
        out := Fault(lo, need, g);
        return;
      }
      FillHuge(lo, g.n, g.seen.pfn + (rules.base + lo) % g.seen.span, cpu, if g.seen.accessible then g.seen.order else 0);
      SettledIsTrue(rules, g, lo, pfns[..]);
      return Done, g.n;
    }

    /** A hugetlb page: only the first request counts. */
    method HandleHugetlb(lo: nat, g: Segment) returns (out: Outcome, ghost done: nat)
      requires WellFormed(g) && lo + g.n <= pfns.Length && g.seen.Hugetlb?
      modifies pfns, this`last
      ensures Handled(rules, g, lo, old(pfns[..]), pfns[..], done, out, last)
      ensures out == Done && UnderOneEntry(rules, g, lo) ==> forall i :: lo <= i < lo + g.n ==> IsTrue(rules, g, lo, i, pfns[i])
    {
      done := 0;
      var cpu := HugeFlags(g.seen);
      var need := NeedFault(rules, pfns[lo], cpu);
      if need != NO {
        assert !AcceptedAt(rules, g, lo, pfns[..], 0);
        assert need.write ==> AsksWriteAt(rules, pfns[..], lo, 0);
        out := Fault(lo, need, g);
        return;
      }
      FillHuge(lo, g.n, g.seen.pfn + (rules.base + lo) % g.seen.span, cpu, g.seen.order);
      SettledIsTrue(rules, g, lo, pfns[..]);
      return Done, g.n;
    }

    /** A page table: entry by entry, up to the first one that needs a fault. */
    method WalkTable(lo: nat, g: Segment) returns (out: Outcome, ghost done: nat)
      requires WellFormed(g) && lo + g.n <= pfns.Length && g.seen.Table?
      modifies pfns, this`last
      ensures Handled(rules, g, lo, old(pfns[..]), pfns[..], done, out, last)
    {
      ghost var inputs := pfns[..];
      done := 0;
      var i := 0;
      while i < g.n
        invariant i <= g.n && done == i
        invariant SettledUpTo(rules, g, lo, inputs, pfns[..], i)
      {
        ghost var now := pfns[..];
        assert now[lo + i] == inputs[lo + i];
        out := HandlePte(lo + i, g.seen.ptes[i], g);
        if out != Done {
          assert !AcceptedAt(rules, g, lo, inputs, i);
          assert out == NoPermission ==> AsksWriteAt(rules, inputs, lo, i);
          return;
        }
        SettleNext(rules, g, lo, inputs, now, pfns[..], i);
        i := i + 1;
        done := i;
      }
      return Done, g.n;
    }

    method WalkSegment(lo: nat, g: Segment) returns (out: Outcome, ghost done: nat)
      requires WellFormed(g) && lo + g.n <= pfns.Length
      modifies pfns, this`last
      ensures Handled(rules, g, lo, old(pfns[..]), pfns[..], done, out, last)
    {
      match g.seen {
        case Unsupported => out, done := TestVma(lo, g);
        case Hole => out, done := WalkHole(lo, g);
        case NoVma => out, done := WalkHole(lo, g);
        case Huge(_, _, _, _, _) => out, done := HandleHuge(lo, g);
        case Hugetlb(_, _, _, _, _) => out, done := HandleHugetlb(lo, g);
        case Table(_) => out, done := WalkTable(lo, g);
        case _ => out, done := WalkOddPmd(lo, g);
      }
    }

    /** One walk over the rest of the range; done is the first entry that is not settled. */
    method WalkRange(lo: nat, segs: seq<Segment>) returns (out: Outcome, ghost done: nat)
      requires Tiles(segs, lo, pfns.Length)
      modifies pfns, this`last
      ensures lo <= done <= pfns.Length
      ensures forall i :: lo <= i < done ==> SettledBy(rules, segs, lo, old(pfns[..]), pfns[..], i)
      ensures forall i :: 0 <= i < pfns.Length && !(lo <= i < done) ==> pfns[i] == old(pfns[i])
      ensures if out == Done then done == pfns.Length else StoppedAt(rules, segs, lo, old(pfns[..]), done, out)
      ensures out == Busy ==> last == done
      ensures out != Done ==> done < pfns.Length && out in {Busy, BadAddress, NoPermission}
    {
      ghost var inputs := pfns[..];
      var j, pos := 0, lo;
      done := lo;
      StartsAscend(segs, lo, 0, |segs|);
      while j < |segs|
        invariant j <= |segs| && pos == done == Start(segs, lo, j) && lo <= done <= pfns.Length
        invariant forall i :: lo <= i < pos ==> SettledBy(rules, segs, lo, inputs, pfns[..], i)
        invariant forall i :: 0 <= i < pfns.Length && !(lo <= i < pos) ==> pfns[i] == inputs[i]
      {
        ghost var now := pfns[..];
        StartsAscend(segs, lo, j + 1, |segs|);
        ghost var more;
        out, more := WalkSegment(pos, segs[j]);
        OneMore(rules, segs, lo, inputs, now, pfns[..], j, more, out, last);
        done := pos + more;
        if out != Done { return; }
        pos, j := pos + segs[j].n, j + 1;
      }
      return Done, done;
    }

    /** Fills the array; rounds is how many walks there are before the caller looks at it. */
    method RangeFault(view: (nat, nat) -> seq<Segment>, stale: nat -> bool, rounds: nat)
      returns (out: Outcome, ghost settled: nat, ghost starts: seq<nat>)
      requires last == 0
      requires forall k: nat, l: nat :: l < pfns.Length ==> Tiles(view(k, l), l, pfns.Length)
      modifies pfns, this`last
      ensures settled <= pfns.Length && |starts| <= rounds
      ensures forall i :: 0 <= i < settled ==> Mirrored(rules, view, starts, old(pfns[..]), pfns[..], i)
      ensures forall i :: settled <= i < pfns.Length ==> pfns[i] == old(pfns[i])
      ensures out == Done ==> settled == pfns.Length
      ensures out == Busy || out == Stale ==> settled == last
      ensures out == Busy ==> |starts| == rounds
      ensures out == Stale ==> |starts| < rounds && stale(|starts|)
      ensures out == BadRange ==> pfns.Length == 0 && starts == [] && !stale(0)
      ensures if out in {Busy, Stale, BadRange}
        then Rounds(rules, view, stale, old(pfns[..]), starts, settled)
        else starts != [] && Rounds(rules, view, stale, old(pfns[..]), starts[..|starts| - 1], starts[|starts| - 1])
             && starts[|starts| - 1] < pfns.Length && !stale(|starts| - 1)
      ensures out == BadAddress || out == NoPermission ==>
        StoppedAt(rules, view(|starts| - 1, starts[|starts| - 1]), starts[|starts| - 1], old(pfns[..]), settled, out)
    {
      ghost var inputs := pfns[..];
      settled, starts := 0, [];
      var k := 0;
      while k < rounds
        invariant k == |starts| <= rounds && last == settled <= pfns.Length && (last < pfns.Length || pfns.Length == 0)
        invariant forall i :: 0 <= i < last ==> Mirrored(rules, view, starts, inputs, pfns[..], i)
        invariant forall i :: last <= i < pfns.Length ==> pfns[i] == inputs[i]
        invariant Rounds(rules, view, stale, inputs, starts, last)
      {
        if stale(k) { return Stale, settled, starts; }
        if last >= pfns.Length {
          assert starts != [] ==> RoundOk(rules, view, stale, inputs, starts, last, 0);
          return BadRange, settled, starts;
        }
        ghost var was, from := starts, last;
        starts := starts + [last];
        out, settled := OneRound(view, k, was, inputs);
        assert starts[..|starts| - 1] == was;
        if out != Busy { return; }
        OneMoreRound(rules, view, stale, inputs, was, from, settled);
        k := k + 1;
      }
      return Busy, settled, starts;
    }

    /** Round k, after rounds that started at starts. */
    method OneRound(view: (nat, nat) -> seq<Segment>, k: nat, ghost starts: seq<nat>, ghost inputs: seq<Word>)
      returns (out: Outcome, ghost settled: nat)
      requires forall k: nat, l: nat :: l < pfns.Length ==> Tiles(view(k, l), l, pfns.Length)
      requires k == |starts| && last < pfns.Length == |inputs|
      requires forall i :: 0 <= i < last ==> Mirrored(rules, view, starts, inputs, pfns[..], i)
      requires forall i :: last <= i < pfns.Length ==> pfns[i] == inputs[i]
      modifies pfns, this`last
      ensures old(last) <= settled <= pfns.Length && out in {Done, Busy, BadAddress, NoPermission}
      ensures forall i :: 0 <= i < settled ==> Mirrored(rules, view, starts + [old(last)], inputs, pfns[..], i)
      ensures forall i :: settled <= i < pfns.Length ==> pfns[i] == inputs[i]
      ensures if out == Done then settled == pfns.Length
        else settled < pfns.Length && StoppedAt(rules, view(k, old(last)), old(last), inputs, settled, out)
      ensures out == Busy ==> last == settled
    {
      ghost var now, from := pfns[..], last;
      out, settled := WalkRange(last, view(k, last));
      NextRound(rules, view, starts, from, inputs, now, pfns[..], settled);
      if out != Done { StopsAlike(rules, view(k, from), from, now, inputs, settled, out); }
    }
  }

  /** Where a walk from lo stops depends on the requests from lo on only. */
  lemma StopsAlike(r: Rules, segs: seq<Segment>, lo: nat, inputs: seq<Word>, inputs': seq<Word>, at: nat, out: Outcome)
    requires |inputs| == |inputs'| && Tiles(segs, lo, |inputs|) && StoppedAt(r, segs, lo, inputs, at, out)
    requires forall m :: lo <= m < |inputs| ==> inputs[m] == inputs'[m]
    ensures StoppedAt(r, segs, lo, inputs', at, out)
  {
    var j: nat :| StoppedIn(r, segs, lo, inputs, at, out, j);
    StartsAscend(segs, lo, 0, j);
    var s := Start(segs, lo, j);
    var k: nat :| at - s <= k < segs[j].n && !AcceptedAt(r, segs[j], s, inputs, k);
    assert !AcceptedAt(r, segs[j], s, inputs', k);
    if out == NoPermission {
      var m: nat :| at - s <= m < segs[j].n && AsksWriteAt(r, inputs, s, m);
      assert AsksWriteAt(r, inputs', s, m);
    }
    assert StoppedIn(r, segs, lo, inputs', at, out, j);
  }

  lemma OneMore(r: Rules, segs: seq<Segment>, lo: nat, inputs: seq<Word>, now: seq<Word>, next: seq<Word>, j: nat, more: nat, out: Outcome, last: nat)
    requires |now| == |next| == |inputs| && Tiles(segs, lo, |inputs|) && j < |segs|
    requires lo <= Start(segs, lo, j) && Start(segs, lo, j) + segs[j].n <= |inputs|
    requires forall i :: lo <= i < Start(segs, lo, j) ==> SettledBy(r, segs, lo, inputs, now, i)
    requires forall i :: 0 <= i < |now| && !(lo <= i < Start(segs, lo, j)) ==> now[i] == inputs[i]
    requires Handled(r, segs[j], Start(segs, lo, j), now, next, more, out, last)
    ensures forall i :: lo <= i < Start(segs, lo, j) + more ==> SettledBy(r, segs, lo, inputs, next, i)
    ensures forall i :: 0 <= i < |now| && !(lo <= i < Start(segs, lo, j) + more) ==> next[i] == inputs[i]
    ensures out != Done ==> StoppedAt(r, segs, lo, inputs, Start(segs, lo, j) + more, out) && more < segs[j].n
  {
    var g, s := segs[j], Start(segs, lo, j);
    forall i | lo <= i < s + more ensures SettledBy(r, segs, lo, inputs, next, i) {
      if i < s {
        StaysSettled(r, segs, lo, inputs, now, inputs, next, i);
      } else {
        assert Settled(r, g, s, now, next, i - s);
        assert SettledIn(r, segs, lo, inputs, next, i, j);
      }
    }
    if out != Done {
      var k: nat :| more <= k < g.n && !AcceptedAt(r, g, s, now, k);
      assert !AcceptedAt(r, g, s, inputs, k);
      if out == NoPermission {
        var m: nat :| more <= m < g.n && AsksWriteAt(r, now, s, m);
        assert AsksWriteAt(r, inputs, s, m);
      }
      assert StoppedIn(r, segs, lo, inputs, s + more, out, j);
    }
  }

  lemma NextRound(r: Rules, view: (nat, nat) -> seq<Segment>, starts: seq<nat>, from: nat, inputs: seq<Word>, now: seq<Word>, next: seq<Word>, settled: nat)
    requires |now| == |next| == |inputs| && from < |inputs| && from <= settled <= |inputs|
    requires forall k: nat, l: nat :: l < |inputs| ==> Tiles(view(k, l), l, |inputs|)
    requires forall i :: 0 <= i < from ==> Mirrored(r, view, starts, inputs, now, i)
    requires forall i :: from <= i < |now| ==> now[i] == inputs[i]
    requires forall i :: from <= i < settled ==> SettledBy(r, view(|starts|, from), from, now, next, i)
    requires forall i :: 0 <= i < |now| && !(from <= i < settled) ==> next[i] == now[i]
    ensures forall i :: 0 <= i < settled ==> Mirrored(r, view, starts + [from], inputs, next, i)
  {
    var starts' := starts + [from];
    forall i | 0 <= i < settled ensures Mirrored(r, view, starts', inputs, next, i) {
      if i < from {
        assert Mirrored(r, view, starts, inputs, now, i);
        var k: nat :| k < |starts| && starts[k] <= i && starts[k] < |inputs|
          && SettledBy(r, view(k, starts[k]), starts[k], inputs, now, i);
        StaysSettled(r, view(k, starts[k]), starts[k], inputs, now, inputs, next, i);
        assert starts'[k] == starts[k];
      } else {
        var k := |starts|;
        assert starts'[k] == from;
        StaysSettled(r, view(k, from), from, now, next, inputs, next, i);
      }
    }
  }

  /** The report is true and meets the request of its entry, or the first one of its hugetlb page, or is the caller's own device page. */
  ghost predicate Worth(r: Rules, g: Segment, s: nat, inputs: seq<Word>, now: seq<Word>, i: nat)
    requires WellFormed(g) && s <= i < s + g.n <= |inputs| == |now|
  {
    && (UnderOneEntry(r, g, s) ==> IsTrue(r, g, s, i, now[i]))
    && (!g.seen.Hugetlb? && !OwnPrivate(g, i - s) ==> Met(r, inputs[i], now[i]))
    && (g.seen.Hugetlb? ==> Met(r, inputs[s], now[i]))
    && (OwnPrivate(g, i - s) ==> now[i].flags.valid)
  }

  lemma SettledIsWorth(r: Rules, g: Segment, s: nat, inputs: seq<Word>, now: seq<Word>, i: nat)
    requires WellFormed(g) && s <= i < s + g.n <= |inputs| == |now| && Settled(r, g, s, inputs, now, i - s)
    ensures Worth(r, g, s, inputs, now, i)
  {
    AcceptedIffMet(r, g, s, inputs[s], inputs[i], i - s);
    if UnderOneEntry(r, g, s) { ReportIsTrue(r, g, s, i - s); }
  }

  /** What a settled entry is worth: the round and the segment that settled it, and the request that is met. */
  lemma MirroredIsMet(r: Rules, view: (nat, nat) -> seq<Segment>, starts: seq<nat>, inputs: seq<Word>, now: seq<Word>, i: nat)
    returns (k: nat, j: nat)
    requires |now| == |inputs| && (forall k: nat, l: nat :: l < |inputs| ==> Tiles(view(k, l), l, |inputs|))
    requires i < |now| && Mirrored(r, view, starts, inputs, now, i)
    ensures k < |starts| && starts[k] <= i && starts[k] < |inputs|
    ensures SettledIn(r, view(k, starts[k]), starts[k], inputs, now, i, j)
    ensures var g, s := view(k, starts[k])[j], Start(view(k, starts[k]), starts[k], j);
      Worth(r, g, s, inputs, now, i)
  {
    k :| k < |starts| && starts[k] <= i && starts[k] < |inputs|
      && SettledBy(r, view(k, starts[k]), starts[k], inputs, now, i);
    var segs := view(k, starts[k]);
    j :| SettledIn(r, segs, starts[k], inputs, now, i, j);
    var s := Start(segs, starts[k], j);
    SettledIsWorth(r, segs[j], s, inputs, now, i);
  }
}
