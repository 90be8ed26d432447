/** The arithmetic of a DMA pool: block size, window size, and where a page is cut. */
module DmaGeometry {
  import opened Wrappers
  import opened Arithmetic

  const PAGE_SIZE := 4096
  const BLOCK_HEADER := 16
  const INT_MAX := 0x7fff_ffff

  datatype Geometry = Geometry(size: nat, boundary: nat, allocation: nat)

  /** x & (x - 1) == 0, for positive x. */
  predicate IsPow2(n: nat) {
    n == 1 || (n > 1 && n % 2 == 0 && IsPow2(n / 2))
  }

  function AlignUp(n: nat, a: nat): nat
    requires a > 0
  {
    (n + a - 1) / a * a
  }

  /** The checks and roundings of dma_pool_create. */
  function Create(size: nat, align: nat, boundary: nat): Option<Geometry> {
    var a := if align == 0 then 1 else align;
    if !IsPow2(a) then None
    else if size == 0 || size > INT_MAX then None
    else
      var s := AlignUp(if size < BLOCK_HEADER then BLOCK_HEADER else size, a);
      var allocation := if s > PAGE_SIZE then s else PAGE_SIZE;
      if boundary != 0 && (boundary < s || !IsPow2(boundary)) then None
      else
        var b := if boundary == 0 then allocation else boundary;
        Some(Geometry(s, if b < allocation then b else allocation, allocation))
  }

  predicate Sane(g: Geometry) {
    0 < g.size <= g.boundary <= g.allocation
  }

  /** The offsets at which a page is cut, from offset on in the window that ends at next. */
  function Carve(g: Geometry, offset: nat, next: nat): seq<nat>
    requires Sane(g) && offset <= next
    decreases g.allocation - offset, if offset + g.size > next then 1 else 0
  {
    if offset + g.size > g.allocation then []
    else if offset + g.size > next then Carve(g, next, next + g.boundary)
    else [offset] + Carve(g, offset + g.size, next)
  }

  /** The k-th slot of window w fits the window and the page. */
  predicate Slot(g: Geometry, w: nat, k: nat) {
    (k + 1) * g.size <= g.boundary && w * g.boundary + (k + 1) * g.size <= g.allocation
  }

  function SlotOffset(g: Geometry, w: nat, k: nat): nat {
    w * g.boundary + k * g.size
  }

  predicate At(g: Geometry, w: nat, k: nat, offset: nat, next: nat) {
    offset == w * g.boundary + k * g.size && next == (w + 1) * g.boundary && k * g.size <= g.boundary
  }

  lemma NextSlot(g: Geometry, w: nat, k: nat, offset: nat, next: nat)
    requires Sane(g) && At(g, w, k, offset, next) && offset + g.size <= next
    ensures At(g, w, k + 1, offset + g.size, next)
  {
    assert (k + 1) * g.size == k * g.size + g.size;
    assert (w + 1) * g.boundary == w * g.boundary + g.boundary;
  }

  lemma NextWindow(g: Geometry, w: nat, next: nat)
    requires next == (w + 1) * g.boundary
    ensures At(g, w + 1, 0, next, next + g.boundary)
  {
    assert (w + 2) * g.boundary == (w + 1) * g.boundary + g.boundary;
  }

  /** Only slots are cut. */
  lemma {:induction false} CarvesSlots(g: Geometry, w: nat, k: nat, offset: nat, next: nat, o: nat) returns (w': nat, k': nat)
    requires Sane(g) && At(g, w, k, offset, next) && offset <= next
    requires o in Carve(g, offset, next)
    ensures Slot(g, w', k') && o == SlotOffset(g, w', k') && o >= offset
    decreases g.allocation - offset, if offset + g.size > next then 1 else 0
  {
    if offset + g.size > next {
      NextWindow(g, w, next);
      w', k' := CarvesSlots(g, w + 1, 0, next, next + g.boundary, o);
    } else {
      NextSlot(g, w, k, offset, next);
      if o == offset {
        w', k' := w, k;
        assert (k + 1) * g.size == k * g.size + g.size;
        assert (w + 1) * g.boundary == w * g.boundary + g.boundary;
      } else {
        w', k' := CarvesSlots(g, w, k + 1, offset + g.size, next, o);
      }
    }
  }

  /** Where a slot lies relative to the place where the cutting is. */
  lemma SlotPlace(g: Geometry, w: nat, k: nat, offset: nat, next: nat, w': nat, k': nat)
    requires At(g, w, k, offset, next) && Slot(g, w', k')
    ensures SlotOffset(g, w', k') + g.size <= g.allocation
    ensures w' > w ==> SlotOffset(g, w', k') >= next
    ensures w' == w && k' >= k ==> offset <= SlotOffset(g, w', k') <= next - g.size
  {
    assert (k' + 1) * g.size == k' * g.size + g.size;
    assert (w + 1) * g.boundary == w * g.boundary + g.boundary;
    if w' > w { Monotone(w + 1, w', g.boundary); }
    if k' >= k { Monotone(k, k', g.size); }
  }

  /** Every slot that fits is cut. */
  lemma {:induction false} SlotsAreCarved(g: Geometry, w: nat, k: nat, offset: nat, next: nat, w': nat, k': nat)
    requires Sane(g) && At(g, w, k, offset, next) && offset <= next
    requires Slot(g, w', k') && (w' > w || (w' == w && k' >= k))
    ensures SlotOffset(g, w', k') in Carve(g, offset, next)
    decreases g.allocation - offset, if offset + g.size > next then 1 else 0
  {
    SlotPlace(g, w, k, offset, next, w', k');
    if offset + g.size <= g.allocation {
      if offset + g.size > next {
        if w' > w {
          NextWindow(g, w, next);
          SlotsAreCarved(g, w + 1, 0, next, next + g.boundary, w', k');
        }
      } else if w' != w || k' != k {
        NextSlot(g, w, k, offset, next);
        SlotsAreCarved(g, w, k + 1, offset + g.size, next, w', k');
      }
    }
  }

  /** The cuts of a page are exactly the slots that fit: nothing straddles a window and nothing is wasted. */
  lemma CarveIsExact(g: Geometry, o: nat)
    requires Sane(g)
    ensures o in Carve(g, 0, g.boundary) <==> exists w: nat, k: nat :: Slot(g, w, k) && SlotOffset(g, w, k) == o
  {
    assert At(g, 0, 0, 0, g.boundary);
    if o in Carve(g, 0, g.boundary) {
      var w, k := CarvesSlots(g, 0, 0, 0, g.boundary, o);
      assert Slot(g, w, k) && SlotOffset(g, w, k) == o;
    }
    if w: nat, k: nat :| Slot(g, w, k) && SlotOffset(g, w, k) == o {
      SlotsAreCarved(g, 0, 0, 0, g.boundary, w, k);
    }
  }

  /** Offsets that lie in the page from lo on and are at least a block apart. */
  predicate Apart(g: Geometry, c: seq<nat>, lo: nat) {
    && (forall i :: 0 <= i < |c| ==> lo <= c[i] && c[i] + g.size <= g.allocation)
    && (forall i, j :: 0 <= i < j < |c| ==> c[i] + g.size <= c[j])
  }

  lemma ApartCons(g: Geometry, offset: nat, rest: seq<nat>)
    requires Apart(g, rest, offset + g.size) && offset + g.size <= g.allocation
    ensures Apart(g, [offset] + rest, offset)
  {
  }

  /** The cuts increase by at least a block: blocks of one page are disjoint. */
  lemma {:induction false} CarveIsDisjoint(g: Geometry, offset: nat, next: nat)
    requires Sane(g) && offset <= next
    ensures Apart(g, Carve(g, offset, next), offset)
    decreases g.allocation - offset, if offset + g.size > next then 1 else 0
  {
    if offset + g.size > g.allocation {
    } else if offset + g.size > next {
      CarveIsDisjoint(g, next, next + g.boundary);
    } else {
      CarveIsDisjoint(g, offset + g.size, next);
      ApartCons(g, offset, Carve(g, offset + g.size, next));
    }
  }

  // ---------------------------------------------------------------- powers of two

  lemma {:induction false} Pow2Exponent(n: nat) returns (e: nat)
    requires IsPow2(n)
    ensures n == Pow2(e)
  {
    if n == 1 {
      e := 0;
    } else {
      var f := Pow2Exponent(n / 2);
      e := f + 1;
    }
  }

  /** The smaller of two powers of two divides the larger. */
  lemma Pow2Divides(a: nat, b: nat)
    requires IsPow2(a) && IsPow2(b) && a <= b
    ensures a > 0 && b % a == 0
  {
    var e := Pow2Exponent(a);
    var f := Pow2Exponent(b);
    if f < e { Pow2Adds(f, e - f); Pow2Grows(f, e); }
    Pow2Adds(e, f - e);
    MultipleMod(Pow2(f - e), a);
  }

  lemma {:induction false} Pow2Grows(f: nat, e: nat)
    requires f < e
    ensures Pow2(f) < Pow2(e)
    decreases e
  {
    if f + 1 < e { Pow2Grows(f, e - 1); }
  }

  // ---------------------------------------------------------------- what a pool promises

  lemma AlignUpFacts(n: nat, a: nat)
    requires a > 0 && n > 0
    ensures AlignUp(n, a) >= n && AlignUp(n, a) >= a && AlignUp(n, a) % a == 0
  {
    var q := (n + a - 1) / a;
    assert n + a - 1 == a * q + (n + a - 1) % a;
    assert q >= 1;
    assert q * a >= a;
    MultipleMod(q, a);
  }

  /** Accepted arguments give blocks that are large enough and windows that blocks fit. */
  lemma CreateIsSane(size: nat, align: nat, boundary: nat)
    requires Create(size, align, boundary).Some?
    ensures var g := Create(size, align, boundary).value;
      && Sane(g) && g.size >= size && g.size >= BLOCK_HEADER
      && (align > 0 ==> g.size % align == 0 && g.boundary % align == 0)
      && (boundary != 0 && g.boundary != boundary ==> g.allocation < boundary)
  {
    var a := if align == 0 then 1 else align;
    var s0 := if size < BLOCK_HEADER then BLOCK_HEADER else size;
    var g := Create(size, align, boundary).value;
    AlignUpFacts(s0, a);
    if align > 0 {
      assert IsPow2(align);
      if g.boundary == g.allocation {
        if g.allocation != g.size {
          assert IsPow2(PAGE_SIZE) by { PageSizeIsPow2(); }
          Pow2Divides(align, PAGE_SIZE);
        }
      } else {
        Pow2Divides(align, boundary);
      }
    }
  }

  // ---------------------------------------------------------------- what is accepted, and what for

  ghost predicate PowerOfTwo(n: nat) {
    exists k: nat :: n == Pow2(k)
  }

  lemma {:induction false} PowersArePow2(e: nat)
    ensures IsPow2(Pow2(e))
  {
    if e > 0 { PowersArePow2(e - 1); }
  }

  /** The test with one bit accepts exactly the powers of two. */
  lemma IsPow2Iff(n: nat)
    ensures IsPow2(n) <==> PowerOfTwo(n)
  {
    if IsPow2(n) {
      var e := Pow2Exponent(n);
    }
    if PowerOfTwo(n) {
      var k: nat :| n == Pow2(k);
      PowersArePow2(k);
    }
  }

  /**
   The geometry that the arguments ask for: blocks of the least multiple of the alignment that holds a
   block and its header, a page that holds a block, and windows no larger than the page or the boundary.
   */
  ghost predicate Fulfils(size: nat, align: nat, boundary: nat, g: Geometry) {
    var a := if align == 0 then 1 else align;
    var need := if size < 16 then 16 else size;
    && PowerOfTwo(a) && 0 < size <= 0x7fff_ffff
    && g.size % a == 0 && need <= g.size < need + a
    && g.allocation == (if g.size > 4096 then g.size else 4096)
    && (boundary != 0 ==> PowerOfTwo(boundary) && g.size <= boundary)
    && g.boundary == (if boundary == 0 || boundary > g.allocation then g.allocation else boundary)
  }

  lemma AlignUpIsLeast(n: nat, a: nat, x: nat)
    requires a > 0 && x % a == 0 && n <= x < n + a
    ensures x == AlignUp(n, a)
  {
    var y := n + a - 1;
    var q := x / a;
    assert x == q * a && y == q * a + (y - x);
    ModUnique(q, y - x, a);
  }

  lemma AlignUpBelow(n: nat, a: nat)
    requires a > 0
    ensures AlignUp(n, a) < n + a
  {
    var y := n + a - 1;
    assert y == y / a * a + y % a;
  }

  /** A pool is created exactly when some geometry is what the arguments ask for, and it is that one. */
  lemma CreateIff(size: nat, align: nat, boundary: nat, g: Geometry)
    ensures Create(size, align, boundary) == Some(g) <==> Fulfils(size, align, boundary, g)
  {
    var a := if align == 0 then 1 else align;
    var need := if size < 16 then 16 else size;
    IsPow2Iff(a);
    IsPow2Iff(boundary);
    AlignUpFacts(need, a);
    AlignUpBelow(need, a);
    if Fulfils(size, align, boundary, g) { AlignUpIsLeast(need, a, g.size); }
  }

  lemma PageSizeIsPow2()
    ensures IsPow2(PAGE_SIZE)
  {
    assert IsPow2(1) && IsPow2(2) && IsPow2(4) && IsPow2(8) && IsPow2(16) && IsPow2(32) && IsPow2(64);
    assert IsPow2(128) && IsPow2(256) && IsPow2(512) && IsPow2(1024) && IsPow2(2048);
  }

  /** dma_alloc_coherent aligns a page to a power of two that is at least its size. */
  predicate CoherentlyAligned(dma: nat, allocation: nat, unit: nat) {
    IsPow2(unit) && unit >= allocation && dma % unit == 0
  }

  lemma CutIsAligned(g: Geometry, align: nat, o: nat)
    requires Sane(g) && align > 0 && g.size % align == 0 && g.boundary % align == 0 && o in Carve(g, 0, g.boundary)
    ensures o % align == 0
  {
    CarveIsExact(g, o);
    var w: nat, k: nat :| Slot(g, w, k) && SlotOffset(g, w, k) == o;
    ProductDivides(w, g.boundary, align);
    ProductDivides(k, g.size, align);
    SumDivides(w * g.boundary, k * g.size, align);
  }

  /** Accepted alignments and boundaries are powers of two. */
  lemma CreateWantsPow2(size: nat, align: nat, boundary: nat)
    requires Create(size, align, boundary).Some?
    ensures (align > 0 ==> IsPow2(align)) && (boundary > 0 ==> IsPow2(boundary))
  {
  }

  lemma PageIsAligned(g: Geometry, align: nat, dma: nat, unit: nat)
    requires Sane(g) && IsPow2(align) && align > 0 && g.size % align == 0 && CoherentlyAligned(dma, g.allocation, unit)
    ensures dma % align == 0
  {
    SizeAtLeastAlign(g.size, align);
    Pow2Divides(align, unit);
    Transitive(dma, unit, align);
  }

  /** Every block handed out is aligned as requested. */
  lemma BlocksAreAligned(size: nat, align: nat, boundary: nat, g: Geometry, dma: nat, unit: nat, o: nat)
    requires Create(size, align, boundary) == Some(g) && align > 0
    requires Sane(g) && CoherentlyAligned(dma, g.allocation, unit) && o in Carve(g, 0, g.boundary)
    ensures (dma + o) % align == 0
  {
    CreateIsSane(size, align, boundary);
    CreateWantsPow2(size, align, boundary);
    CutIsAligned(g, align, o);
    PageIsAligned(g, align, dma, unit);
    SumDivides(dma, o, align);
  }

  lemma SizeAtLeastAlign(size: nat, align: nat)
    requires align > 0 && size > 0 && size % align == 0
    ensures size >= align
  {
  }

  /** No block crosses a multiple of the requested boundary, also when the pool uses a smaller window. */
  lemma BlocksDoNotStraddle(size: nat, align: nat, boundary: nat, g: Geometry, dma: nat, unit: nat, o: nat)
    requires Create(size, align, boundary) == Some(g) && boundary > 0
    requires Sane(g) && CoherentlyAligned(dma, g.allocation, unit) && o in Carve(g, 0, g.boundary)
    ensures (dma + o) / boundary == (dma + o + g.size - 1) / boundary
  {
    CreateIsSane(size, align, boundary);
    CreateWantsPow2(size, align, boundary);
    CutStaysInWindow(g, boundary, dma, unit, o);
  }

  /** A cut lies x bytes into a window, with room behind it in the window and in the page. */
  lemma CutPlace(g: Geometry, o: nat) returns (w: nat, x: nat)
    requires Sane(g) && o in Carve(g, 0, g.boundary)
    ensures o == w * g.boundary + x && x + g.size <= g.boundary && o + g.size <= g.allocation
  {
    CarveIsExact(g, o);
    var k: nat;
    w, k :| Slot(g, w, k) && SlotOffset(g, w, k) == o;
    x := k * g.size;
    assert (k + 1) * g.size == x + g.size;
  }

  /** Both ends of size bytes from a on lie in one multiple of b. */
  predicate OneWindow(a: int, size: nat, b: nat) {
    b > 0 && a / b == (a + size - 1) / b
  }

  lemma CutStaysInWindow(g: Geometry, boundary: nat, dma: nat, unit: nat, o: nat)
    requires Sane(g) && IsPow2(boundary) && (g.boundary == boundary || g.allocation < boundary)
    requires CoherentlyAligned(dma, g.allocation, unit) && o in Carve(g, 0, g.boundary)
    ensures OneWindow(dma + o, g.size, boundary)
  {
    var w, x := CutPlace(g, o);
    if g.boundary == boundary && boundary <= unit {
      OwnWindow(g.size, boundary, dma, unit, o, w * boundary, w, x);
    } else {
      LargeWindow(dma, o, g.size, boundary, unit);
    }
  }

  lemma OwnWindow(size: nat, boundary: nat, dma: nat, unit: nat, o: nat, start: nat, w: nat, x: nat)
    requires IsPow2(boundary) && IsPow2(unit) && boundary <= unit && dma % unit == 0
    requires o == start + x && start == w * boundary && size > 0 && x + size <= boundary
    ensures OneWindow(dma + o, size, boundary)
  {
    Pow2Divides(boundary, unit);
    Transitive(dma, unit, boundary);
    MultipleMod(w, boundary);
    SumDivides(dma, start, boundary);
    SameWindow(dma + start, x, size, boundary);
    assert dma + start + x == dma + o;
  }

  lemma SameWindow(base: int, x: nat, size: nat, b: nat)
    requires b > 0 && size > 0 && base % b == 0 && x + size <= b
    ensures OneWindow(base + x, size, b)
  {
    var q := base / b;
    assert base == q * b;
    ModUnique(q, x, b);
    ModUnique(q, x + size - 1, b);
  }

  /** A whole page lies inside one large window: its unit and the window are powers of two. */
  lemma LargeWindow(dma: nat, o: nat, size: nat, boundary: nat, unit: nat)
    requires IsPow2(unit) && dma % unit == 0 && size > 0 && o + size <= unit
    requires IsPow2(boundary) && (boundary >= unit || o + size <= boundary)
    ensures OneWindow(dma + o, size, boundary)
  {
    if unit <= boundary {
      Pow2Divides(unit, boundary);
      UnitFits(dma, unit, boundary);
      InsideUnit(dma, o, size, unit, boundary);
    } else {
      Pow2Divides(boundary, unit);
      Transitive(dma, unit, boundary);
      SameWindow(dma, o, size, boundary);
    }
  }

  lemma UnitFits(dma: nat, unit: nat, boundary: nat)
    requires unit > 0 && boundary > 0 && boundary % unit == 0 && dma % unit == 0
    ensures dma % boundary + unit <= boundary
  {
    var m, q := boundary / unit, dma / unit;
    assert boundary == unit * m && dma == q * unit;
    PositiveFactor(unit, m);
    UnitInWindow(q, m, unit);
  }

  /** The q-th unit lies in one window of m units. */
  lemma UnitInWindow(q: nat, m: nat, unit: nat)
    requires unit > 0 && m > 0
    ensures (q * unit) % (unit * m) + unit <= unit * m
  {
    var d, r := q / m, q % m;
    assert q == d * m + r;
    assert q * unit == d * (unit * m) + r * unit;
    assert r * unit + unit == (r + 1) * unit;
    Monotone(r + 1, m, unit);
    ModUnique(d, r * unit, unit * m);
  }

  lemma InsideUnit(dma: nat, o: nat, size: nat, unit: nat, boundary: nat)
    requires boundary > 0 && size > 0 && o + size <= unit && dma % boundary + unit <= boundary
    ensures OneWindow(dma + o, size, boundary)
  {
    var q, r := dma / boundary, dma % boundary;
    assert dma == q * boundary + r;
    ModUnique(q, r + o, boundary);
    ModUnique(q, r + o + size - 1, boundary);
  }
}
