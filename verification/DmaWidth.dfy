/** The loop that cuts a page, in the 32 bits that the program computes in, and when that is the same. */
module DmaWidth {
  import opened Wrappers
  import opened Arithmetic
  import opened DmaGeometry

  const HALF := 0x8000_0000
  const WIDTH := 0x1_0000_0000

  function Wrap(n: nat): nat {
    n % WIDTH
  }

  /** The fields of the pool: what fits of the sizes that were computed in 64 bits. */
  function Stored(g: Geometry): Geometry {
    Geometry(Wrap(g.size), Wrap(g.boundary), Wrap(g.allocation))
  }

  datatype Loop = Loop(offset: nat, next: nat, cuts: seq<nat>)

  function Start(s: Geometry): Loop {
    Loop(0, s.boundary, [])
  }

  /** One turn of the loop; None when it is over. */
  function Turn(s: Geometry, l: Loop): Option<Loop> {
    if Wrap(l.offset + s.size) > s.allocation then None
    else if Wrap(l.offset + s.size) > l.next then Some(Loop(l.next, Wrap(l.next + s.boundary), l.cuts))
    else Some(Loop(Wrap(l.offset + s.size), l.next, l.cuts + [l.offset]))
  }

  function Turns(s: Geometry, l: Loop, n: nat): Option<Loop>
    decreases n
  {
    if n == 0 then Some(l)
    else match Turn(s, l)
      case None => None
      case Some(m) => Turns(s, m, n - 1)
  }

  /** After n turns the loop is over and has made these cuts. */
  predicate EndsAfter(s: Geometry, l: Loop, n: nat, cuts: seq<nat>) {
    Turns(s, l, n).Some? && Turn(s, Turns(s, l, n).value).None? && Turns(s, l, n).value.cuts == cuts
  }

  // ---------------------------------------------------------------- without wrapping

  predicate Narrow(g: Geometry) {
    Sane(g) && g.allocation + g.boundary < WIDTH
  }

  lemma EndsNext(s: Geometry, l: Loop, m: Loop, n: nat, cuts: seq<nat>)
    requires Turn(s, l) == Some(m) && EndsAfter(s, m, n, cuts)
    ensures EndsAfter(s, l, n + 1, cuts)
  {
  }

  /** Nothing wraps: the turn is the step of the specification. */
  lemma NarrowTurn(g: Geometry, l: Loop)
    requires Narrow(g) && l.offset <= l.next <= g.allocation + g.boundary && l.offset <= g.allocation
    ensures l.offset + g.size > g.allocation ==> Turn(g, l) == None
    ensures l.next < l.offset + g.size <= g.allocation ==> Turn(g, l) == Some(Loop(l.next, l.next + g.boundary, l.cuts))
    ensures l.offset + g.size <= g.allocation && l.offset + g.size <= l.next ==>
      Turn(g, l) == Some(Loop(l.offset + g.size, l.next, l.cuts + [l.offset]))
  {
  }

  lemma {:induction false} NarrowEnds(g: Geometry, offset: nat, next: nat, cuts: seq<nat>) returns (n: nat)
    requires Narrow(g) && offset <= next <= g.allocation + g.boundary && offset <= g.allocation
    ensures EndsAfter(g, Loop(offset, next, cuts), n, cuts + Carve(g, offset, next))
    decreases g.allocation - offset, if offset + g.size > next then 1 else 0
  {
    var l := Loop(offset, next, cuts);
    NarrowTurn(g, l);
    if offset + g.size > g.allocation {
      assert cuts + [] == cuts;
      n := 0;
    } else if offset + g.size > next {
      n := NarrowEnds(g, next, next + g.boundary, cuts);
      EndsNext(g, l, Loop(next, next + g.boundary, cuts), n, cuts + Carve(g, offset, next));
      n := n + 1;
    } else {
      var rest := Carve(g, offset + g.size, next);
      n := NarrowEnds(g, offset + g.size, next, cuts + [offset]);
      assert cuts + ([offset] + rest) == cuts + [offset] + rest;
      EndsNext(g, l, Loop(offset + g.size, next, cuts + [offset]), n, cuts + Carve(g, offset, next));
      n := n + 1;
    }
  }

  // ---------------------------------------------------------------- with wrapping

  lemma {:induction false} CutsGrow(s: Geometry, l: Loop, n: nat)
    requires Turns(s, l, n).Some?
    ensures l.cuts <= Turns(s, l, n).value.cuts
    decreases n
  {
    if n > 0 { CutsGrow(s, Turn(s, l).value, n - 1); }
  }

  /** A block of half the width or more: a second one is cut behind the page. */
  lemma WideCutsTwice(g: Geometry, n: nat)
    requires HALF <= g.size < WIDTH && g.boundary == g.allocation == g.size
    ensures !EndsAfter(g, Start(g), n, Carve(g, 0, g.boundary))
  {
    var s := g.size;
    assert Carve(g, s, s) == [];
    assert Carve(g, 0, s) == [0];
    var l1 := Loop(s, s, [0]);
    assert Turn(g, Start(g)) == Some(l1) by { assert [] + [0] == [0]; }
    var l2 := Loop(Wrap(s + s), s, [0] + [s]);
    assert Wrap(s + s) == s + s - WIDTH;
    assert Turn(g, l1) == Some(l2);
    if n >= 2 {
      TwoTurns(g, l1, l2, n);
      if Turns(g, l2, n - 2).Some? { CutsGrow(g, l2, n - 2); }
    } else if n == 1 {
      assert Turns(g, l1, 0) == Some(l1);
    }
  }

  lemma TwoTurns(s: Geometry, l1: Loop, l2: Loop, n: nat)
    requires n >= 2 && Turn(s, Start(s)) == Some(l1) && Turn(s, l1) == Some(l2)
    ensures Turns(s, Start(s), n) == Turns(s, l2, n - 2)
  {
    assert Turns(s, l1, n - 1) == Turns(s, l2, n - 2);
  }

  /** All fields become zero: the loop never ends. */
  lemma {:induction false} ZeroNeverEnds(next: nat, cuts: seq<nat>, n: nat)
    ensures Turns(Geometry(0, 0, 0), Loop(0, next, cuts), n).Some?
    ensures Turn(Geometry(0, 0, 0), Turns(Geometry(0, 0, 0), Loop(0, next, cuts), n).value).Some?
    decreases n
  {
    if n > 0 { ZeroNeverEnds(next, cuts + [0], n - 1); }
  }

  // ---------------------------------------------------------------- what is accepted

  lemma HalfIsPow2()
    ensures IsPow2(HALF) && IsPow2(WIDTH)
  {
    PowersArePow2(31);
    PowersArePow2(32);
    assert Pow2(8) == 256;
    Pow2Adds(8, 8);
    Pow2Adds(16, 8);
    Pow2Adds(24, 8);
    Pow2Adds(24, 7);
    assert Pow2(7) == 128;
  }

  /** A block that is larger than a page is the whole allocation. */
  lemma LargeIsAlone(size: nat, align: nat, boundary: nat, g: Geometry)
    requires Create(size, align, boundary) == Some(g) && g.size > PAGE_SIZE
    ensures g.boundary == g.allocation == g.size
  {
  }

  lemma SmallIsPage(size: nat, align: nat, boundary: nat, g: Geometry)
    requires Create(size, align, boundary) == Some(g) && g.size <= PAGE_SIZE
    ensures g.boundary <= g.allocation == PAGE_SIZE
  {
  }

  /** Sizes beyond 32 bits come from alignments beyond them, of which 32 bits keep nothing. */
  lemma HugeIsMultiple(size: nat, align: nat, boundary: nat, g: Geometry)
    requires Create(size, align, boundary) == Some(g) && g.size >= WIDTH
    ensures g.size % WIDTH == 0
  {
    var a := if align == 0 then 1 else align;
    var s0 := if size < BLOCK_HEADER then BLOCK_HEADER else size;
    AlignUpBelow(s0, a);
    HalfIsPow2();
    assert a > HALF;
    Pow2Divides(HALF, a);
    TwiceAtLeast(a);
    Pow2Divides(WIDTH, a);
    AlignUpFacts(s0, a);
    Transitive(g.size, a, WIDTH);
  }

  lemma TwiceAtLeast(a: nat)
    requires a > HALF && a % HALF == 0
    ensures a >= WIDTH
  {
  }

  /** After some number of turns the loop of the program is over, with exactly the cuts that are specified. */
  ghost predicate CutsAsSpecified(g: Geometry)
    requires Sane(g)
  {
    exists n: nat :: EndsAfter(Stored(g), Start(Stored(g)), n, Carve(g, 0, g.boundary))
  }

  /**
   For accepted arguments the loop of the program ends with the cuts that are specified if and only
   if the rounded block size is less than half of the width.
   */
  lemma WidthSuffices(size: nat, align: nat, boundary: nat, g: Geometry)
    requires Create(size, align, boundary) == Some(g)
    ensures Sane(g) && (CutsAsSpecified(g) <==> g.size < HALF)
  {
    CreateIsSane(size, align, boundary);
    if g.size < HALF {
      NarrowSuffices(size, align, boundary, g);
    } else {
      WideNever(size, align, boundary, g);
    }
  }

  lemma NarrowSuffices(size: nat, align: nat, boundary: nat, g: Geometry)
    requires Create(size, align, boundary) == Some(g) && Sane(g) && g.size < HALF
    ensures CutsAsSpecified(g)
  {
    AcceptedIsNarrow(size, align, boundary, g);
    var n := NarrowEnds(g, 0, g.boundary, []);
    StartEnds(g, n);
  }

  lemma WideNever(size: nat, align: nat, boundary: nat, g: Geometry)
    requires Create(size, align, boundary) == Some(g) && Sane(g) && g.size >= HALF
    ensures !CutsAsSpecified(g)
  {
    LargeIsAlone(size, align, boundary, g);
    forall n: nat ensures !EndsAfter(Stored(g), Start(Stored(g)), n, Carve(g, 0, g.boundary)) {
      WideFails(size, align, boundary, g, n);
    }
  }

  lemma AcceptedIsNarrow(size: nat, align: nat, boundary: nat, g: Geometry)
    requires Create(size, align, boundary) == Some(g) && Sane(g) && g.size < HALF
    ensures Narrow(g) && Stored(g) == g
  {
    if g.size <= PAGE_SIZE { SmallIsPage(size, align, boundary, g); } else { LargeIsAlone(size, align, boundary, g); }
  }

  lemma StartEnds(g: Geometry, n: nat)
    requires Sane(g) && Stored(g) == g && EndsAfter(g, Loop(0, g.boundary, []), n, [] + Carve(g, 0, g.boundary))
    ensures EndsAfter(Stored(g), Start(Stored(g)), n, Carve(g, 0, g.boundary))
  {
    assert [] + Carve(g, 0, g.boundary) == Carve(g, 0, g.boundary);
  }

  lemma WideFails(size: nat, align: nat, boundary: nat, g: Geometry, n: nat)
    requires Create(size, align, boundary) == Some(g) && Sane(g) && g.size >= HALF && g.boundary == g.allocation == g.size
    ensures !EndsAfter(Stored(g), Start(Stored(g)), n, Carve(g, 0, g.boundary))
  {
    if g.size < WIDTH {
      assert Stored(g) == g;
      WideCutsTwice(g, n);
    } else {
      HugeIsMultiple(size, align, boundary, g);
      assert Stored(g) == Geometry(0, 0, 0);
      ZeroNeverEnds(0, [], n);
    }
  }
}
