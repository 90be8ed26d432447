/** The contiguous memory allocator: a bitmap of the pages of one area, and allocation with retries. */
module Cma {
  import opened Wrappers
  import opened Arithmetic

  /** Bits [no, no + n) of the bitmap. */
  datatype Range = Range(no: nat, n: nat)

  /** What alloc_contig_range answers. */
  datatype Contig = Migrated | Busy | Failed

  // ---------------------------------------------------------------- alignment

  function AlignedMask(orderPerBit: nat, alignOrder: nat): nat {
    if alignOrder <= orderPerBit then 0 else Pow2(alignOrder - orderPerBit) - 1
  }

  /** The place of the base page within its alignment unit, in bits. */
  function AlignedOffset(basePfn: nat, orderPerBit: nat, alignOrder: nat): nat {
    basePfn % Pow2(alignOrder) / Pow2(orderPerBit)
  }

  function PagesToBits(orderPerBit: nat, pages: nat): nat {
    (pages + Pow2(orderPerBit) - 1) / Pow2(orderPerBit)
  }

  /** The checks of cma_init_reserved_mem, in pages: minPages is the smallest unit of an area. */
  predicate AreaAccepted(basePfn: nat, count: nat, orderPerBit: nat, minPages: nat) {
    minPages > 0 && count > 0 && minPages % Pow2(orderPerBit) == 0 && basePfn % minPages == 0 && count % minPages == 0
  }

  /** Base and size of an accepted area are whole bits. */
  lemma AcceptedIsWholeBits(basePfn: nat, count: nat, orderPerBit: nat, minPages: nat)
    requires AreaAccepted(basePfn, count, orderPerBit, minPages)
    ensures basePfn % Pow2(orderPerBit) == 0 && count % Pow2(orderPerBit) == 0
  {
    Transitive(basePfn, minPages, Pow2(orderPerBit));
    Transitive(count, minPages, Pow2(orderPerBit));
  }

  predicate AlignedAt(no: nat, mask: nat, offset: nat) {
    (no + offset) % (mask + 1) == 0
  }

  /** A bit that is aligned as the search demands is a page that is aligned as the caller asked. */
  lemma BitIsAlignedPage(basePfn: nat, orderPerBit: nat, align: nat, no: nat)
    requires basePfn % Pow2(orderPerBit) == 0
    requires AlignedAt(no, AlignedMask(orderPerBit, align), AlignedOffset(basePfn, orderPerBit, align))
    ensures (basePfn + no * Pow2(orderPerBit)) % Pow2(align) == 0
  {
    if align <= orderPerBit {
      Pow2Adds(align, orderPerBit - align);
      MultipleMod(Pow2(orderPerBit - align), Pow2(align));
      WholeBitsAlign(basePfn, Pow2(orderPerBit), Pow2(align), no);
    } else {
      Pow2Adds(align - orderPerBit, orderPerBit);
      UnitsAdd(basePfn, Pow2(orderPerBit), Pow2(align - orderPerBit), no);
    }
  }

  lemma WholeBitsAlign(base: nat, p: nat, a: nat, no: nat)
    requires p > 0 && a > 0 && base % p == 0 && p % a == 0
    ensures (base + no * p) % a == 0
  {
    Transitive(base, p, a);
    ProductDivides(no, p, a);
    SumDivides(base, no * p, a);
  }

  lemma UnitsAdd(base: nat, p: nat, m: nat, no: nat)
    requires p > 0 && m > 0 && m * p > 0 && base % p == 0
    requires (no + base % (m * p) / p) % m == 0
    ensures (base + no * p) % (m * p) == 0
  {
    var a := m * p;
    var q, r := base / a, base % a;
    assert base == q * a + r;
    ProductDivides(m, p, p);
    ProductDivides(q, a, p);
    DifferenceDivides(base, q * a, p);
    assert r == (r / p) * p;
    var s := no + r / p;
    assert s == (s / m) * m;
    assert no * p + r == s * p == (s / m) * m * p;
    assert (s / m) * m * p == (s / m) * a;
    assert base + no * p == q * a + (s / m) * a == (q + s / m) * a;
    MultipleMod(q + s / m, a);
  }

  lemma DifferenceDivides(x: int, y: int, a: nat)
    requires a > 0 && x % a == 0 && y % a == 0
    ensures (x - y) % a == 0
  {
    ProductDivides(-1, y, a);
    SumDivides(x, -y, a);
  }

  lemma RoundsUp(pages: nat, p: nat)
    requires p > 0
    ensures pages <= ((pages + p - 1) / p) * p
  {
  }

  lemma FloorBelow(count: nat, p: nat)
    requires p > 0
    ensures (count / p) * p <= count
  {
  }

  lemma SumTimes(a: nat, b: nat, p: nat)
    ensures (a + b) * p == a * p + b * p
  {
  }

  /** Bits inside the bitmap are pages inside the area. */
  lemma BitsAreInArea(count: nat, orderPerBit: nat, no: nat, pages: nat)
    requires no + PagesToBits(orderPerBit, pages) <= count / Pow2(orderPerBit)
    ensures no * Pow2(orderPerBit) + pages <= count
  {
    var p := Pow2(orderPerBit);
    var n := PagesToBits(orderPerBit, pages);
    RoundsUp(pages, p);
    FloorBelow(count, p);
    SumTimes(no, n, p);
    Monotone(no + n, count / p, p);
  }

  /** The bits of a run of pages. */
  function BitsOf(basePfn: nat, orderPerBit: nat, pfn: nat, pages: nat): Range
    requires basePfn <= pfn
  {
    Range(Quotient(pfn - basePfn, Pow2(orderPerBit)), PagesToBits(orderPerBit, pages))
  }

  function Quotient(x: nat, p: nat): nat
    requires p > 0
  {
    x / p
  }

  /** The bit of a page is found again from the page. */
  lemma PageToBit(basePfn: nat, orderPerBit: nat, no: nat, pages: nat)
    ensures BitsOf(basePfn, orderPerBit, basePfn + no * Pow2(orderPerBit), pages)
         == Range(no, PagesToBits(orderPerBit, pages))
  {
    ModUnique(no, 0, Pow2(orderPerBit));
  }

  // ---------------------------------------------------------------- bitmaps

  function Filled(bits: seq<bool>, r: Range, value: bool): (s: seq<bool>)
    requires r.no + r.n <= |bits|
    ensures |s| == |bits|
    ensures forall i :: 0 <= i < |bits| ==> s[i] == if r.no <= i < r.no + r.n then value else bits[i]
  {
    bits[..r.no] + seq(r.n, _ => value) + bits[r.no + r.n..]
  }

  ghost predicate IsFilled(bits: seq<bool>, s: seq<bool>, r: Range, value: bool) {
    r.no + r.n <= |bits| && s == Filled(bits, r, value)
  }

  predicate Free(bits: seq<bool>, no: nat, n: nat) {
    no + n <= |bits| && forall i :: no <= i < no + n ==> !bits[i]
  }

  predicate Candidate(bits: seq<bool>, no: nat, n: nat, mask: nat, offset: nat) {
    AlignedAt(no, mask, offset) && Free(bits, no, n)
  }

  predicate Apart(r: Range, q: Range) {
    r.no + r.n <= q.no || q.no + q.n <= r.no
  }

  predicate InRange(r: Range, i: nat) {
    r.no <= i < r.no + r.n
  }

  /** The set bits are exactly the disjoint union of the ranges. */
  ghost predicate Covers(bits: seq<bool>, held: set<Range>) {
    && (forall r :: r in held ==> r.n > 0 && r.no + r.n <= |bits|)
    && (forall r, q :: r in held && q in held && r != q ==> Apart(r, q))
    && (forall i :: 0 <= i < |bits| && bits[i] ==> Owned(held, i))
    && (forall i, r :: 0 <= i < |bits| && r in held && InRange(r, i) ==> bits[i])
  }

  ghost predicate Owned(held: set<Range>, i: nat) {
    exists r :: r in held && InRange(r, i)
  }

  lemma FreeIsApart(bits: seq<bool>, held: set<Range>, r: Range, q: Range)
    requires Covers(bits, held) && r.n > 0 && Free(bits, r.no, r.n) && q in held
    ensures Apart(r, q)
  {
    var i := if r.no >= q.no then r.no else q.no;
    assert !(InRange(r, i) && InRange(q, i));
  }

  lemma TakeKeepsCover(bits: seq<bool>, held: set<Range>, r: Range)
    requires Covers(bits, held) && r.n > 0 && Free(bits, r.no, r.n)
    ensures r !in held && Covers(Filled(bits, r, true), held + {r})
  {
    assert InRange(r, r.no) && !bits[r.no];
    var bits' := Filled(bits, r, true);
    forall q | q in held ensures Apart(r, q) {
      FreeIsApart(bits, held, r, q);
    }
    forall i | 0 <= i < |bits'| && bits'[i] ensures Owned(held + {r}, i) {
      if InRange(r, i) { assert r in held + {r}; } else {
        assert Owned(held, i);
        var q :| q in held && InRange(q, i);
        assert q in held + {r};
      }
    }
  }

  lemma GiveKeepsCover(bits: seq<bool>, held: set<Range>, r: Range)
    requires Covers(bits, held) && r in held
    ensures Covers(Filled(bits, r, false), held - {r})
  {
    var bits' := Filled(bits, r, false);
    forall i | 0 <= i < |bits'| && bits'[i] ensures Owned(held - {r}, i) {
      assert Owned(held, i);
      var q :| q in held && InRange(q, i);
      assert q in held - {r};
    }
    forall i, q | 0 <= i < |bits'| && q in held - {r} && InRange(q, i) ensures bits'[i] {
      assert Apart(r, q);
    }
  }

  /** The holders determine the bitmap. */
  lemma SameHoldersSameBits(bits: seq<bool>, bits': seq<bool>, held: set<Range>)
    requires |bits| == |bits'| && Covers(bits, held) && Covers(bits', held)
    ensures bits == bits'
  {
    forall i | 0 <= i < |bits| ensures bits[i] == bits'[i] {
      assert bits[i] ==> Owned(held, i);
      assert bits'[i] ==> Owned(held, i);
    }
  }

  // ---------------------------------------------------------------- the past of an area

  /** Who holds which bits after one critical section: the caller at hand, and all others. */
  datatype Moment = Moment(ours: set<Range>, theirs: set<Range>)

  ghost predicate Fits(m: Moment, size: nat) {
    && m.ours !! m.theirs
    && (forall r :: r in m.ours + m.theirs ==> r.n > 0 && r.no + r.n <= size)
    && (forall r, q :: r in m.ours + m.theirs && q in m.ours + m.theirs && r != q ==> Apart(r, q))
  }

  /** [j, j + n) is not free: it leaves the bitmap or meets a range that is held. */
  ghost predicate Taken(m: Moment, size: nat, j: nat, n: nat) {
    j + n > size || exists r :: r in m.ours + m.theirs && !Apart(r, Range(j, n))
  }

  lemma OccupiedIsTaken(bits: seq<bool>, m: Moment, j: nat, n: nat)
    requires Covers(bits, m.ours + m.theirs) && !Free(bits, j, n)
    ensures Taken(m, |bits|, j, n)
  {
    if j + n <= |bits| {
      var i :| j <= i < j + n && bits[i];
      assert Owned(m.ours + m.theirs, i);
      var r :| r in m.ours + m.theirs && InRange(r, i);
      assert !Apart(r, Range(j, n));
    }
  }

  /** Three critical sections: we take r, the others run, and we give r back; or the first two only. */
  ghost predicate Round(h: seq<Moment>, h': seq<Moment>, r: Range, kept: bool) {
    && h != [] && |h'| == |h| + (if kept then 2 else 3) && h'[..|h|] == h
    && r !in h[|h| - 1].ours
    && h'[|h|] == Moment(h[|h| - 1].ours + {r}, h[|h| - 1].theirs)
    && h'[|h| + 1].ours == h[|h| - 1].ours + {r}
    && (!kept ==> h'[|h| + 2] == Moment(h[|h| - 1].ours, h'[|h| + 1].theirs))
  }

  /** The i-th round of a call that found the past of length o, at place no: taken, given back, and the others again. */
  ghost predicate TriedAt(h: seq<Moment>, o: nat, n: nat, no: nat, i: nat) {
    && 0 < o && o + 4 * i + 4 <= |h|
    && Round(h[..o + 4 * i], h[..o + 4 * i + 3], Range(no, n), false)
    && h[o + 4 * i + 3].ours == h[o - 1].ours
  }

  /** The rounds of the call so far, all answered Busy. */
  ghost predicate Tries(h: seq<Moment>, o: nat, n: nat, tries: seq<nat>, outcome: nat -> Contig) {
    && 0 < o && o + 4 * |tries| <= |h|
    && forall i :: 0 <= i < |tries| ==> TriedAt(h, o, n, tries[i], i) && outcome(i) == Busy
  }

  /** After the tries came one more round, at r. */
  ghost predicate LastRound(h: seq<Moment>, o: nat, tries: seq<nat>, r: Range, kept: bool) {
    o + 4 * |tries| <= |h| && Round(h[..o + 4 * |tries|], h, r, kept)
  }

  lemma RoundIsLast(h: seq<Moment>, h': seq<Moment>, o: nat, tries: seq<nat>, r: Range, kept: bool)
    requires |h| == o + 4 * |tries| && Round(h, h', r, kept)
    ensures LastRound(h', o, tries, r, kept) && h <= h'
    ensures h'[|h| - 1] == h[|h| - 1] && (!kept ==> h'[|h'| - 1].ours == h[|h| - 1].ours)
  {
    assert h'[..o + 4 * |tries|] == h;
  }

  lemma NoMoreTries(h: seq<Moment>, h': seq<Moment>, o: nat, n: nat, tries: seq<nat>, outcome: nat -> Contig, no: nat, found: bool, kept: bool)
    requires Tries(h, o, n, tries, outcome) && 0 < o && |h| == o + 4 * |tries| && (kept ==> found)
    requires if found then Round(h, h', Range(no, n), kept) else h' == h
    ensures h <= h' && Tries(h', o, n, tries, outcome) && h'[o + 4 * |tries| - 1] == h[|h| - 1]
    ensures found ==> LastRound(h', o, tries, Range(no, n), kept)
    ensures !kept ==> h'[|h'| - 1].ours == h[|h| - 1].ours
  {
    if found { RoundIsLast(h, h', o, tries, Range(no, n), kept); }
    StillTried(h, h', o, n, tries, outcome);
  }

  /** After the tries the pages of one more place could not be had for another reason. */
  ghost predicate GaveUp(h: seq<Moment>, o: nat, n: nat, tries: seq<nat>, outcome: nat -> Contig) {
    outcome(|tries|) == Failed && exists no: nat :: LastRound(h, o, tries, Range(no, n), false)
  }

  /** Place j was taken when some round of the call began its search. */
  ghost predicate SeenTaken(h: seq<Moment>, o: nat, size: nat, rounds: nat, j: nat, n: nat) {
    exists i: nat :: i <= rounds && 0 < o + 4 * i <= |h| && Taken(h[o + 4 * i - 1], size, j, n)
  }

  /** Every aligned place below limit was tried, or was taken when it was passed over. */
  ghost predicate Exhausted(limit: nat, size: nat, n: nat, mask: nat, offset: nat, h: seq<Moment>, o: nat, tries: seq<nat>) {
    forall j: nat :: j < limit && AlignedAt(j, mask, offset) ==> j in tries || SeenTaken(h, o, size, |tries|, j, n)
  }

  /** The search of the round that starts now passes over [start, limit). */
  lemma PassOver(start: nat, limit: nat, n: nat, mask: nat, offset: nat, h: seq<Moment>, o: nat, tries: seq<nat>, bits: seq<bool>)
    requires Exhausted(start, |bits|, n, mask, offset, h, o, tries) && 0 < o && |h| == o + 4 * |tries|
    requires Covers(bits, h[|h| - 1].ours + h[|h| - 1].theirs)
    requires forall j :: start <= j < limit ==> !Candidate(bits, j, n, mask, offset)
    ensures Exhausted(limit, |bits|, n, mask, offset, h, o, tries)
  {
    forall j: nat | j < limit && AlignedAt(j, mask, offset) && j !in tries
      ensures SeenTaken(h, o, |bits|, |tries|, j, n)
    {
      if j >= start {
        assert !Candidate(bits, j, n, mask, offset);
        OccupiedIsTaken(bits, h[|h| - 1], j, n);
      }
    }
  }

  /** No aligned place lies between one and the next. */
  lemma NextAligned(no: nat, j: nat, mask: nat, offset: nat)
    requires AlignedAt(no, mask, offset) && no < j < no + mask + 1
    ensures !AlignedAt(j, mask, offset)
  {
    var a := mask + 1;
    var q := (no + offset) / a;
    assert no + offset == q * a;
    ModUnique(q, j - no, a);
  }

  lemma TryAt(no: nat, size: nat, n: nat, mask: nat, offset: nat, h: seq<Moment>, h': seq<Moment>, o: nat, tries: seq<nat>)
    requires Exhausted(no, size, n, mask, offset, h, o, tries) && AlignedAt(no, mask, offset)
    requires 0 < o && |h| == o + 4 * |tries| && h <= h'
    ensures Exhausted(no + mask + 1, size, n, mask, offset, h', o, tries + [no])
  {
    forall j: nat | j < no + mask + 1 && AlignedAt(j, mask, offset) && j !in tries + [no]
      ensures SeenTaken(h', o, size, |tries + [no]|, j, n)
    {
      assert j !in tries && j != no;
      if j > no { NextAligned(no, j, mask, offset); }
      assert SeenTaken(h, o, size, |tries|, j, n);
      var i: nat :| i <= |tries| && 0 < o + 4 * i <= |h| && Taken(h[o + 4 * i - 1], size, j, n);
      assert h'[o + 4 * i - 1] == h[o + 4 * i - 1];
    }
  }

  lemma OneMoreTry(h: seq<Moment>, h1: seq<Moment>, h': seq<Moment>, o: nat, n: nat, no: nat, tries: seq<nat>, outcome: nat -> Contig)
    requires Tries(h, o, n, tries, outcome) && |h| == o + 4 * |tries| && h[|h| - 1].ours == h[o - 1].ours
    requires Round(h, h1, Range(no, n), false) && outcome(|tries|) == Busy
    requires |h'| == |h1| + 1 && h'[..|h1|] == h1 && h'[|h1|].ours == h1[|h1| - 1].ours
    ensures Tries(h', o, n, tries + [no], outcome)
  {
    var ts := tries + [no];
    forall i | 0 <= i < |ts| ensures TriedAt(h', o, n, ts[i], i) {
      if i < |tries| {
        assert TriedAt(h, o, n, tries[i], i);
        assert h'[..|h|] == h;
        assert h'[..o + 4 * i] == h[..o + 4 * i] && h'[..o + 4 * i + 3] == h[..o + 4 * i + 3];
      } else {
        assert h'[..|h|] == h && h'[..|h| + 3] == h1;
      }
    }
  }

  lemma StillTried(h: seq<Moment>, h': seq<Moment>, o: nat, n: nat, tries: seq<nat>, outcome: nat -> Contig)
    requires Tries(h, o, n, tries, outcome) && h <= h'
    ensures Tries(h', o, n, tries, outcome)
  {
    forall i | 0 <= i < |tries| ensures TriedAt(h', o, n, tries[i], i) {
      assert TriedAt(h, o, n, tries[i], i);
      assert h'[..o + 4 * i] == h[..o + 4 * i] && h'[..o + 4 * i + 3] == h[..o + 4 * i + 3];
    }
  }

  // ---------------------------------------------------------------- in pages

  /** n bits of p pages each hold the pages, and one bit less would not. */
  predicate JustHolds(n: nat, p: nat, pages: nat) {
    (n - 1) * p < pages <= n * p
  }

  /** The range starts at the bit of the page, and is just large enough. */
  predicate HoldsPages(basePfn: nat, p: nat, r: Range, pfn: nat, pages: nat) {
    r.no * p == pfn - basePfn && JustHolds(r.n, p, pages)
  }

  lemma BitsJustHold(orderPerBit: nat, pages: nat)
    requires pages > 0
    ensures JustHolds(PagesToBits(orderPerBit, pages), Pow2(orderPerBit), pages)
  {
    var p := Pow2(orderPerBit);
    var n := PagesToBits(orderPerBit, pages);
    var x := pages + p - 1;
    assert x == p * n + x % p;
    assert (n - 1) * p == p * n - p;
  }

  /** A page that starts a bit and has the alignment that the caller asked for is at a bit that the search accepts. */
  lemma AlignedPageIsBit(basePfn: nat, orderPerBit: nat, align: nat, no: nat)
    requires basePfn % Pow2(orderPerBit) == 0 && (basePfn + no * Pow2(orderPerBit)) % Pow2(align) == 0
    ensures AlignedAt(no, AlignedMask(orderPerBit, align), AlignedOffset(basePfn, orderPerBit, align))
  {
    if align > orderPerBit {
      Pow2Adds(align - orderPerBit, orderPerBit);
      UnitsSubtract(basePfn, Pow2(orderPerBit), Pow2(align - orderPerBit), no);
    }
  }

  lemma UnitsSubtract(base: nat, p: nat, m: nat, no: nat)
    requires p > 0 && m > 0 && m * p > 0 && base % p == 0 && (base + no * p) % (m * p) == 0
    ensures (no + base % (m * p) / p) % m == 0
  {
    var a := m * p;
    var q, r := base / a, base % a;
    assert base == q * a + r;
    ProductDivides(m, p, p);
    ProductDivides(q, a, p);
    DifferenceDivides(base, q * a, p);
    var s := no + r / p;
    assert r == (r / p) * p;
    MultipleMod(q, a);
    DifferenceDivides(base + no * p, q * a, a);
    assert base + no * p - q * a == no * p + r == s * p;
    FactorOut(s, p, m);
  }

  lemma FactorOut(s: nat, p: nat, m: nat)
    requires p > 0 && m > 0 && m * p > 0 && (s * p) % (m * p) == 0
    ensures s % m == 0
  {
    var t := s * p / (m * p);
    assert s * p == (m * p) * t == (m * t) * p;
    Cancel(s, m * t, p);
    MultipleMod(t, m);
  }

  lemma Cancel(x: int, y: int, p: nat)
    requires p > 0 && x * p == y * p
    ensures x == y
  {
    assert (x - y) * p == 0;
    NoMultiple(p, x - y);
  }

  /** Page x is in a range that is held. */
  ghost predicate PageHeld(basePfn: nat, p: nat, m: Moment, x: nat) {
    exists r :: r in m.ours + m.theirs && PageIn(basePfn, p, r, x)
  }

  predicate PageIn(basePfn: nat, p: nat, r: Range, x: nat) {
    basePfn + r.no * p <= x < basePfn + (r.no + r.n) * p
  }

  /** The pages from q on were not free: they left the bitmap, or one of them was held. */
  ghost predicate PagesTaken(basePfn: nat, p: nat, m: Moment, size: nat, q: nat, pages: nat) {
    q + pages > basePfn + size * p || exists x: nat :: q <= x < q + pages && PageHeld(basePfn, p, m, x)
  }

  lemma BitInRun(b: nat, j: nat, n: nat, p: nat, pages: nat)
    requires j <= b < j + n && JustHolds(n, p, pages)
    ensures j * p <= b * p < j * p + pages
  {
    Monotone(j, b, p);
    Monotone(b, j + n - 1, p);
    SumTimes(j, n - 1, p);
  }

  lemma BitInRange(basePfn: nat, b: nat, r: Range, p: nat)
    requires InRange(r, b) && p > 0
    ensures PageIn(basePfn, p, r, basePfn + b * p)
  {
    Monotone(r.no, b, p);
    Monotone(b + 1, r.no + r.n, p);
    SumTimes(b, 1, p);
  }

  /** Bits that are not free are pages that are not. */
  lemma TakenPages(basePfn: nat, p: nat, m: Moment, size: nat, j: nat, n: nat, pages: nat)
    requires p > 0 && JustHolds(n, p, pages) && n > 0 && Taken(m, size, j, n) && Fits(m, size)
    ensures PagesTaken(basePfn, p, m, size, basePfn + j * p, pages)
  {
    if j + n > size {
      Monotone(size, j + n - 1, p);
      SumTimes(j, n - 1, p);
    } else {
      var r :| r in m.ours + m.theirs && !Apart(r, Range(j, n));
      var b := if r.no >= j then r.no else j;
      BitInRun(b, j, n, p, pages);
      BitInRange(basePfn, b, r, p);
      assert PageHeld(basePfn, p, m, basePfn + b * p);
    }
  }

  /** The page was tried as the start of a run. */
  predicate PageTried(basePfn: nat, p: nat, tries: seq<nat>, q: nat) {
    exists i :: 0 <= i < |tries| && basePfn + tries[i] * p == q
  }

  /** When some round of the call began its search, the pages from q on were not free. */
  ghost predicate PageSeenTaken(basePfn: nat, p: nat, h: seq<Moment>, o: nat, size: nat, rounds: nat, q: nat, pages: nat) {
    exists i: nat :: i <= rounds && 0 < o + 4 * i <= |h| && PagesTaken(basePfn, p, h[o + 4 * i - 1], size, q, pages)
  }

  /** The page starts a bit of the bitmap and is aligned as asked. */
  predicate Eligible(basePfn: nat, p: nat, a: nat, size: nat, q: nat)
    requires p > 0 && a > 0
  {
    basePfn <= q < basePfn + size * p && (q - basePfn) % p == 0 && q % a == 0
  }

  /** Every page where a run could start was tried, or its run was seen not to be free. */
  ghost predicate NoPageLeft(basePfn: nat, p: nat, a: nat, size: nat, h: seq<Moment>, o: nat, tries: seq<nat>, pages: nat)
    requires p > 0 && a > 0
  {
    forall q: nat :: Eligible(basePfn, p, a, size, q) ==>
      PageTried(basePfn, p, tries, q) || PageSeenTaken(basePfn, p, h, o, size, |tries|, q, pages)
  }

  lemma EligibleIsBit(basePfn: nat, orderPerBit: nat, align: nat, size: nat, q: nat) returns (j: nat)
    requires basePfn % Pow2(orderPerBit) == 0 && Eligible(basePfn, Pow2(orderPerBit), Pow2(align), size, q)
    ensures j < size && q == basePfn + j * Pow2(orderPerBit)
    ensures AlignedAt(j, AlignedMask(orderPerBit, align), AlignedOffset(basePfn, orderPerBit, align))
  {
    var p := Pow2(orderPerBit);
    j := (q - basePfn) / p;
    assert q == basePfn + j * p;
    if j >= size { Monotone(size, j, p); }
    AlignedPageIsBit(basePfn, orderPerBit, align, j);
  }

  lemma SeenTakenPages(basePfn: nat, orderPerBit: nat, h: seq<Moment>, o: nat, size: nat, rounds: nat, j: nat, pages: nat)
    requires pages > 0 && SeenTaken(h, o, size, rounds, j, PagesToBits(orderPerBit, pages))
    requires forall i :: 0 <= i < |h| ==> Fits(h[i], size)
    ensures PageSeenTaken(basePfn, Pow2(orderPerBit), h, o, size, rounds, basePfn + j * Pow2(orderPerBit), pages)
  {
    var p, n := Pow2(orderPerBit), PagesToBits(orderPerBit, pages);
    var i: nat :| i <= rounds && 0 < o + 4 * i <= |h| && Taken(h[o + 4 * i - 1], size, j, n);
    BitsJustHold(orderPerBit, pages);
    SomeBits(n, p, pages);
    TakenPages(basePfn, p, h[o + 4 * i - 1], size, j, n, pages);
  }

  lemma ExhaustedPages(basePfn: nat, orderPerBit: nat, align: nat, size: nat, h: seq<Moment>, o: nat, tries: seq<nat>, pages: nat)
    requires basePfn % Pow2(orderPerBit) == 0 && pages > 0
    requires forall i :: 0 <= i < |h| ==> Fits(h[i], size)
    requires Exhausted(size, size, PagesToBits(orderPerBit, pages), AlignedMask(orderPerBit, align),
                       AlignedOffset(basePfn, orderPerBit, align), h, o, tries)
    ensures NoPageLeft(basePfn, Pow2(orderPerBit), Pow2(align), size, h, o, tries, pages)
  {
    var p := Pow2(orderPerBit);
    forall q: nat | Eligible(basePfn, p, Pow2(align), size, q)
      ensures PageTried(basePfn, p, tries, q) || PageSeenTaken(basePfn, p, h, o, size, |tries|, q, pages)
    {
      var j := EligibleIsBit(basePfn, orderPerBit, align, size, q);
      if j in tries {
        var i :| 0 <= i < |tries| && tries[i] == j;
        assert basePfn + tries[i] * p == q;
      } else {
        SeenTakenPages(basePfn, orderPerBit, h, o, size, |tries|, j, pages);
      }
    }
  }

  lemma SomeBits(n: nat, p: nat, pages: nat)
    requires JustHolds(n, p, pages) && pages > 0
    ensures n > 0
  {
  }

  // ---------------------------------------------------------------- the area

  class Area {
    const basePfn: nat
    const count: nat
    const orderPerBit: nat
    const bitmap: array<bool>
    /** Who held what after each critical section, up to now. */
    ghost var history: seq<Moment>

    constructor (basePfn: nat, count: nat, orderPerBit: nat, minPages: nat)
      requires AreaAccepted(basePfn, count, orderPerBit, minPages)
      ensures Valid() && history == [Moment({}, {})] && fresh(bitmap)
      ensures this.basePfn == basePfn && this.count == count && this.orderPerBit == orderPerBit
    {
      AcceptedIsWholeBits(basePfn, count, orderPerBit, minPages);
      this.basePfn, this.count, this.orderPerBit := basePfn, count, orderPerBit;
      bitmap := new bool[count / Pow2(orderPerBit)](_ => false);
      history := [Moment({}, {})];
    }

    ghost function Now(): Moment
      requires history != []
      reads this`history
    {
      history[|history| - 1]
    }

    /** The set bits are exactly those of the disjoint ranges that are held now, and so it was at all times. */
    ghost predicate Valid()
      reads this, bitmap
    {
      && basePfn % Pow2(orderPerBit) == 0
      && bitmap.Length == count / Pow2(orderPerBit)
      && history != [] && (forall i :: 0 <= i < |history| ==> Fits(history[i], bitmap.Length))
      && Covers(bitmap[..], Now().ours + Now().theirs)
    }

    /** The lowest aligned run of free bits from start on, or the size of the bitmap. */
    method FindZeroArea(start: nat, n: nat, mask: nat, offset: nat) returns (no: nat)
      ensures no <= bitmap.Length
      ensures no < bitmap.Length ==> start <= no && Candidate(bitmap[..], no, n, mask, offset)
      ensures forall j :: start <= j < no ==> !Candidate(bitmap[..], j, n, mask, offset)
    {
      no := start;
      while no < bitmap.Length
        invariant forall j :: start <= j < no ==> !Candidate(bitmap[..], j, n, mask, offset)
        decreases bitmap.Length - no
      {
        if AlignedAt(no, mask, offset) && no + n <= bitmap.Length {
          var i := no;
          while i < no + n && !bitmap[i]
            invariant no <= i <= no + n
            invariant forall j :: no <= j < i ==> !bitmap[j]
          {
            i := i + 1;
          }
          if i == no + n { return; }
          assert bitmap[..][i];
        }
        no := no + 1;
      }
      no := bitmap.Length;
    }

    method FillBits(r: Range, value: bool)
      requires r.no + r.n <= bitmap.Length
      modifies bitmap
      ensures bitmap[..] == Filled(old(bitmap[..]), r, value)
    {
      var i := r.no;
      while i < r.no + r.n
        invariant r.no <= i <= r.no + r.n
        invariant forall j :: 0 <= j < bitmap.Length ==> bitmap[j] == if r.no <= j < i then value else old(bitmap[j])
      {
        bitmap[i] := value;
        i := i + 1;
      }
    }

    /** Under the lock: finds a free aligned run and marks it. */
    method Reserve(start: nat, n: nat, mask: nat, offset: nat) returns (no: nat)
      requires Valid() && n > 0
      modifies bitmap, this`history
      ensures Valid()
      ensures no >= bitmap.Length ==> bitmap[..] == old(bitmap[..]) && history == old(history)
      ensures forall j :: start <= j < no && j < bitmap.Length ==> !Candidate(old(bitmap[..]), j, n, mask, offset)
      ensures no < bitmap.Length ==>
        && start <= no && Candidate(old(bitmap[..]), no, n, mask, offset)
        && bitmap[..] == Filled(old(bitmap[..]), Range(no, n), true)
        && Range(no, n) !in old(Now()).ours + old(Now()).theirs
        && history == old(history) + [Moment(old(Now()).ours + {Range(no, n)}, old(Now()).theirs)]
    {
      no := FindZeroArea(start, n, mask, offset);
      if no < bitmap.Length {
        var r := Range(no, n);
        ghost var m := Now();
        TakeKeepsCover(bitmap[..], m.ours + m.theirs, r);
        FillBits(r, true);
        history := history + [Moment(m.ours + {r}, m.theirs)];
        assert Now().ours + Now().theirs == m.ours + m.theirs + {r};
      }
    }

    /** Clears the bits of an allocation of ours, found again from its first page. */
    method ClearBitmap(pfn: nat, pages: nat)
      requires Valid() && pfn >= basePfn
      requires BitsOf(basePfn, orderPerBit, pfn, pages) in Now().ours
      modifies bitmap, this`history
      ensures Valid()
      ensures history == old(history) + [Moment(old(Now()).ours - {BitsOf(basePfn, orderPerBit, pfn, pages)}, old(Now()).theirs)]
      ensures IsFilled(old(bitmap[..]), bitmap[..], BitsOf(basePfn, orderPerBit, pfn, pages), false)
    {
      var r := Range((pfn - basePfn) / Pow2(orderPerBit), PagesToBits(orderPerBit, pages));
      ghost var m := Now();
      GiveKeepsCover(bitmap[..], m.ours + m.theirs, r);
      FillBits(r, false);
      history := history + [Moment(m.ours - {r}, m.theirs)];
      assert Now().ours + Now().theirs == m.ours + m.theirs - {r};
    }

    /** The other callers run between two critical sections: they may take and give back what is not ours. */
    method Others()
      requires Valid()
      modifies bitmap, this`history
      ensures Valid()
      ensures |history| == |old(history)| + 1 && history[..|old(history)|] == old(history) && Now().ours == old(Now()).ours
    {
      history := history + [Now()];
    }

    predicate StartsBit(pfn: nat) {
      basePfn <= pfn && (pfn - basePfn) % Pow2(orderPerBit) == 0
    }

    /** pfn is the first page of a bit and of an aligned run inside the area. */
    predicate InArea(pfn: nat, pages: nat, align: nat) {
      StartsBit(pfn) && pfn % Pow2(align) == 0 && basePfn <= pfn && pfn + pages <= basePfn + count
    }

    /**
     One round: reserve bits, let the lock go while the pages are migrated, keep or give back the
     bits. After a failure the bits are clear, and if the others did nothing the bitmap is as before.
     */
    method Attempt(start: nat, pages: nat, align: nat, answer: Contig) returns (no: nat, pfn: Option<nat>)
      requires Valid() && PagesToBits(orderPerBit, pages) > 0
      modifies bitmap, this`history
      ensures Valid()
      ensures no < bitmap.Length ==>
        start <= no && AlignedAt(no, AlignedMask(orderPerBit, align), AlignedOffset(basePfn, orderPerBit, align))
      ensures forall j :: start <= j < no && j < bitmap.Length ==>
        !Candidate(old(bitmap[..]), j, PagesToBits(orderPerBit, pages), AlignedMask(orderPerBit, align),
                   AlignedOffset(basePfn, orderPerBit, align))
      ensures pfn.Some? <==> no < bitmap.Length && answer == Migrated
      ensures pfn.Some? ==>
        InArea(pfn.value, pages, align)
        && BitsOf(basePfn, orderPerBit, pfn.value, pages) == Range(no, PagesToBits(orderPerBit, pages))
      ensures if no < bitmap.Length
        then Round(old(history), history, Range(no, PagesToBits(orderPerBit, pages)), pfn.Some?)
        else history == old(history) && bitmap[..] == old(bitmap[..])
      ensures no < bitmap.Length && pfn.None? ==> Free(bitmap[..], no, PagesToBits(orderPerBit, pages))
      ensures pfn.None? && Now() == old(Now()) ==> bitmap[..] == old(bitmap[..])
    {
      pfn := None;
      ghost var was, m := bitmap[..], Now();
      var n := PagesToBits(orderPerBit, pages);
      no := Reserve(start, n, AlignedMask(orderPerBit, align), AlignedOffset(basePfn, orderPerBit, align));
      if no >= bitmap.Length { return; }
      Others();
      var p := basePfn + no * Pow2(orderPerBit);
      PlaceIsFit(no, pages, align);
      if answer == Migrated {
        pfn := Some(p);
      } else {
        TakeBack(p, pages, was, m);
      }
    }

    lemma PlaceIsFit(no: nat, pages: nat, align: nat)
      requires basePfn % Pow2(orderPerBit) == 0
      requires no + PagesToBits(orderPerBit, pages) <= count / Pow2(orderPerBit)
      requires AlignedAt(no, AlignedMask(orderPerBit, align), AlignedOffset(basePfn, orderPerBit, align))
      ensures InArea(basePfn + no * Pow2(orderPerBit), pages, align)
      ensures BitsOf(basePfn, orderPerBit, basePfn + no * Pow2(orderPerBit), pages) == Range(no, PagesToBits(orderPerBit, pages))
    {
      MultipleMod(no, Pow2(orderPerBit));
      PageToBit(basePfn, orderPerBit, no, pages);
      BitIsAlignedPage(basePfn, orderPerBit, align, no);
      BitsAreInArea(count, orderPerBit, no, pages);
    }

    /** Gives back the bits of pages that could not be migrated; was and m are from before they were taken. */
    method TakeBack(p: nat, pages: nat, ghost was: seq<bool>, ghost m: Moment)
      requires Valid() && p >= basePfn && |was| == bitmap.Length && Covers(was, m.ours + m.theirs)
      requires BitsOf(basePfn, orderPerBit, p, pages) !in m.ours
      requires Now().ours == m.ours + {BitsOf(basePfn, orderPerBit, p, pages)}
      modifies bitmap, this`history
      ensures Valid() && history == old(history) + [Moment(m.ours, old(Now()).theirs)]
      ensures Free(bitmap[..], BitsOf(basePfn, orderPerBit, p, pages).no, BitsOf(basePfn, orderPerBit, p, pages).n)
      ensures Now() == m ==> bitmap[..] == was
    {
      ClearBitmap(p, pages);
      assert Now().ours == m.ours;
      if Now() == m { SameHoldersSameBits(was, bitmap[..], m.ours + m.theirs); }
    }

    /**
     A run of pages, aligned and inside the area, that nobody else holds and that we did not hold; or
     none, and then we hold what we held. When the pages cannot be migrated the bits are given back
     and the search goes on further up. The area counts as exhausted only when every aligned place
     was tried in vain or was taken when the search passed over it.
     */
    method Alloc(pages: nat, align: nat, outcome: nat -> Contig) returns (pfn: Option<nat>, ghost tries: seq<nat>)
      requires Valid()
      modifies bitmap, this`history
      ensures Valid() && old(history) <= history
      ensures pfn.Some? ==>
        && InArea(pfn.value, pages, align)
        && BitsOf(basePfn, orderPerBit, pfn.value, pages) !in old(Now()).ours
        && Now().ours == old(Now()).ours + {BitsOf(basePfn, orderPerBit, pfn.value, pages)}
        && LastRound(history, |old(history)|, tries, BitsOf(basePfn, orderPerBit, pfn.value, pages), true)
        && outcome(|tries|) == Migrated
      ensures pfn.Some? ==> exists r :: Granted(r, pfn.value, pages, old(Now()).ours)
      ensures pfn.None? ==> Now().ours == old(Now()).ours
      ensures Tries(history, |old(history)|, PagesToBits(orderPerBit, pages), tries, outcome)
      ensures pfn.None? && pages > 0 ==>
        || GaveUp(history, |old(history)|, PagesToBits(orderPerBit, pages), tries, outcome)
        || NoPageLeft(basePfn, Pow2(orderPerBit), Pow2(align), bitmap.Length, history, |old(history)|, tries, pages)
    {
      pfn, tries := None, [];
      if count == 0 || pages == 0 { return; }
      ghost var o := |history|;
      var mask, offset := AlignedMask(orderPerBit, align), AlignedOffset(basePfn, orderPerBit, align);
      var n := PagesToBits(orderPerBit, pages);
      PositiveBits(orderPerBit, pages);
      if n > bitmap.Length {
        PassOver(0, bitmap.Length, n, mask, offset, history, o, tries, bitmap[..]);
        ExhaustedPages(basePfn, orderPerBit, align, bitmap.Length, history, o, tries, pages);
        return;
      }
      pfn, tries := AllocRounds(pages, align, outcome);
      if pfn.Some? {
        GrantHolds(pfn.value, pages);
        assert Granted(BitsOf(basePfn, orderPerBit, pfn.value, pages), pfn.value, pages, old(Now()).ours);
      } else if !GaveUp(history, o, n, tries, outcome) {
        ExhaustedPages(basePfn, orderPerBit, align, bitmap.Length, history, o, tries, pages);
      }
    }

    lemma GrantHolds(pfn: nat, pages: nat)
      requires StartsBit(pfn) && pages > 0
      ensures HoldsPages(basePfn, Pow2(orderPerBit), BitsOf(basePfn, orderPerBit, pfn, pages), pfn, pages)
    {
      BitsJustHold(orderPerBit, pages);
    }

    /** r is new among our ranges, starts at the bit of the page, and has just the bits that the pages need. */
    ghost predicate Granted(r: Range, pfn: nat, pages: nat, was: set<Range>)
      requires history != []
      reads this`history
    {
      r !in was && Now().ours == was + {r} && HoldsPages(basePfn, Pow2(orderPerBit), r, pfn, pages)
    }


    /** The rounds of an allocation that may succeed. */
    method AllocRounds(pages: nat, align: nat, outcome: nat -> Contig) returns (pfn: Option<nat>, ghost tries: seq<nat>)
      requires Valid() && PagesToBits(orderPerBit, pages) > 0
      modifies bitmap, this`history
      ensures Valid() && old(history) <= history
      ensures pfn.Some? ==>
        && InArea(pfn.value, pages, align)
        && LastRound(history, |old(history)|, tries, BitsOf(basePfn, orderPerBit, pfn.value, pages), true)
        && outcome(|tries|) == Migrated
      ensures |old(history)| + 4 * |tries| <= |history| && history[|old(history)| + 4 * |tries| - 1].ours == old(Now()).ours
      ensures pfn.None? ==> Now().ours == old(Now()).ours
      ensures Tries(history, |old(history)|, PagesToBits(orderPerBit, pages), tries, outcome)
      ensures pfn.None? ==>
        || GaveUp(history, |old(history)|, PagesToBits(orderPerBit, pages), tries, outcome)
        || Exhausted(bitmap.Length, bitmap.Length, PagesToBits(orderPerBit, pages), AlignedMask(orderPerBit, align),
                     AlignedOffset(basePfn, orderPerBit, align), history, |old(history)|, tries)
    {
      pfn, tries := None, [];
      ghost var o, mine := |history|, Now().ours;
      var mask, offset := AlignedMask(orderPerBit, align), AlignedOffset(basePfn, orderPerBit, align);
      var n := PagesToBits(orderPerBit, pages);
      var start: nat, no: nat, attempt: nat := 0, 0, 0;
      while true
        invariant Valid() && attempt == |tries| && |history| == o + 4 * attempt && old(history) <= history
        invariant history[|history| - 1].ours == mine == history[o - 1].ours
        invariant Tries(history, o, n, tries, outcome)
        invariant Exhausted(start, bitmap.Length, n, mask, offset, history, o, tries)
        decreases bitmap.Length - start
      {
        ghost var bits, h := bitmap[..], history;
        assert h[|h| - 1].ours == mine;
        no, pfn := Attempt(start, pages, align, outcome(attempt));
        PassOver(start, if no < |bits| then no else |bits|, n, mask, offset, h, o, tries, bits);
        if no >= bitmap.Length || outcome(attempt) != Busy {
          NoMoreTries(h, history, o, n, tries, outcome, no, no < bitmap.Length, pfn.Some?);
          return;
        }
        OthersAfterTry(no, n, mask, offset, h, o, tries, outcome);
        start, tries := no + mask + 1, tries + [no];
        attempt := attempt + 1;
      }
    }

    /** The others run after a busy round, before the next. */
    method OthersAfterTry(no: nat, n: nat, mask: nat, offset: nat, ghost h: seq<Moment>, ghost o: nat, ghost tries: seq<nat>, ghost outcome: nat -> Contig)
      requires Valid() && Tries(h, o, n, tries, outcome) && |h| == o + 4 * |tries| && h[|h| - 1].ours == h[o - 1].ours
      requires Round(h, history, Range(no, n), false) && outcome(|tries|) == Busy
      requires Exhausted(no, bitmap.Length, n, mask, offset, h, o, tries) && AlignedAt(no, mask, offset)
      modifies bitmap, this`history
      ensures Valid() && |history| == o + 4 * |tries| + 4 && h <= history && Now().ours == h[o - 1].ours
      ensures Tries(history, o, n, tries + [no], outcome)
      ensures Exhausted(no + mask + 1, bitmap.Length, n, mask, offset, history, o, tries + [no])
    {
      ghost var h1 := history;
      Others();
      assert history[..|h|] == h1[..|h|];
      OneMoreTry(h, h1, history, o, n, no, tries, outcome);
      TryAt(no, bitmap.Length, n, mask, offset, h, history, o, tries);
    }

    static lemma PositiveBits(orderPerBit: nat, pages: nat)
      requires pages > 0
      ensures PagesToBits(orderPerBit, pages) > 0
    {
      var p := Pow2(orderPerBit);
      var n := PagesToBits(orderPerBit, pages);
      assert pages + p - 1 == p * n + (pages + p - 1) % p;
      assert p * n > 0;
      PositiveFactor(p, n);
    }

    /** Gives back an allocation of ours; pages of no concern to the area are refused. */
    method Release(pfn: nat, pages: nat) returns (ok: bool)
      requires Valid()
      requires basePfn <= pfn < basePfn + count ==> BitsOf(basePfn, orderPerBit, pfn, pages) in Now().ours
      modifies bitmap, this`history
      ensures Valid() && (ok <==> basePfn <= pfn < basePfn + count)
      ensures !ok ==> bitmap[..] == old(bitmap[..]) && history == old(history)
      ensures ok ==> history == old(history) + [Moment(old(Now()).ours - {BitsOf(basePfn, orderPerBit, pfn, pages)}, old(Now()).theirs)]
    {
      if pfn < basePfn || pfn >= basePfn + count { return false; }
      ClearBitmap(pfn, pages);
      return true;
    }
  }
}
