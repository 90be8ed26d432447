/** A pool of DMA blocks: pages are cut into blocks, and free blocks are linked through themselves. */
module DmaPool {
  import opened Wrappers
  import opened DmaGeometry

  /** Coherent memory of one pool page. */
  datatype DmaPage = DmaPage(vaddr: nat, dma: nat)

  class DmaBlock {
    const page: DmaPage
    const offset: nat
    var dma: nat
    var next: DmaBlock?

    constructor (page: DmaPage, offset: nat)
      ensures this.page == page && this.offset == offset && dma == page.dma + offset && next == null
    {
      this.page, this.offset := page, offset;
      dma, next := page.dma + offset, null;
    }
  }

  /** The memory of the page overlaps no other page's. */
  predicate Separate(g: Geometry, p: DmaPage, q: DmaPage) {
    && (p.vaddr + g.allocation <= q.vaddr || q.vaddr + g.allocation <= p.vaddr)
    && (p.dma + g.allocation <= q.dma || q.dma + g.allocation <= p.dma)
  }

  predicate AllSeparate(g: Geometry, pages: seq<DmaPage>) {
    forall i, j :: 0 <= i < j < |pages| ==> Separate(g, pages[i], pages[j])
  }

  predicate CutFrom(g: Geometry, pages: seq<DmaPage>, page: DmaPage, offset: nat) {
    Sane(g) && page in pages && offset in Carve(g, 0, g.boundary)
  }

  ghost predicate NoDuplicates(bs: seq<DmaBlock>) {
    forall i, j :: 0 <= i < j < |bs| ==> bs[i] != bs[j]
  }

  /** The blocks are all the cuts of the page, in order. */
  predicate AllCuts(g: Geometry, page: DmaPage, bs: seq<DmaBlock>) {
    && Sane(g) && |bs| == |Carve(g, 0, g.boundary)|
    && forall i :: 0 <= i < |bs| ==> bs[i].page == page && bs[i].offset == Carve(g, 0, g.boundary)[i]
  }

  ghost function Elements(bs: seq<DmaBlock>): set<DmaBlock> {
    set b | b in bs
  }

  ghost predicate LinkOk(bs: seq<DmaBlock>, i: nat, after: DmaBlock?)
    requires i < |bs|
    reads bs[i]
  {
    bs[i].next == if i + 1 < |bs| then bs[i + 1] else after
  }

  /** The blocks are linked in this order, and the last one leads to after. */
  ghost predicate Linked(bs: seq<DmaBlock>, after: DmaBlock?)
    reads bs
  {
    forall i :: 0 <= i < |bs| ==> LinkOk(bs, i, after)
  }

  class DmaPool {
    const g: Geometry
    var nextBlock: DmaBlock?
    var nrBlocks: nat
    var nrActive: nat
    var nrPages: nat
    var pages: seq<DmaPage>
    ghost var freeList: seq<DmaBlock>
    ghost var carved: set<DmaBlock>

    constructor (g: Geometry)
      requires Sane(g)
      ensures this.g == g && Valid() && carved == {} && freeList == [] && pages == []
    {
      this.g := g;
      nextBlock, nrBlocks, nrActive, nrPages, pages := null, 0, 0, 0, [];
      freeList, carved := [], {};
    }

    ghost predicate Counts()
      reads this
    {
      nrBlocks == |carved| && nrBlocks == nrActive + |freeList| && nrPages == |pages|
    }

    /** Every block is a cut of one of the pages, and no cut is there twice. */
    ghost predicate Cut()
      reads this`carved, this`pages
    {
      && (forall b :: b in carved ==> CutFrom(g, pages, b.page, b.offset))
      && (forall b, c :: b in carved && c in carved && b.page == c.page && b.offset == c.offset ==> b == c)
    }

    /** The free list starts at nextBlock, and every block on it knows its own dma address. */
    ghost predicate ListOk()
      reads this`nextBlock, this`freeList, freeList
    {
      && NoDuplicates(freeList)
      && nextBlock == (if freeList == [] then null else freeList[0])
      && Linked(freeList, null)
      && forall b :: b in freeList ==> b.dma == b.page.dma + b.offset
    }

    ghost predicate Valid()
      reads this, freeList
    {
      && Sane(g) && AllSeparate(g, pages)
      && Counts() && Cut() && ListOk()
      && forall b :: b in freeList ==> b in carved
    }

    ghost function Outstanding(): set<DmaBlock>
      reads this`carved, this`freeList
    {
      set b | b in carved && b !in freeList
    }

    /** Takes the first free block, if there is one: never one that is outstanding. */
    method Pop() returns (block: DmaBlock?)
      requires Valid()
      modifies this`nextBlock, this`nrActive, this`freeList
      ensures Valid()
      ensures block == null <==> old(freeList) == []
      ensures block == null ==> freeList == old(freeList)
      ensures block != null ==> [block] + freeList == old(freeList)
      ensures block != null ==> block !in old(Outstanding()) && Outstanding() == old(Outstanding()) + {block}
      ensures block != null ==> block.dma == block.page.dma + block.offset
    {
      block := nextBlock;
      if block != null {
        assert LinkOk(freeList, 0, null);
        nextBlock := block.next;
        nrActive := nrActive + 1;
        ghost var was := freeList;
        freeList := was[1..];
        forall i | 0 <= i < |freeList| ensures LinkOk(freeList, i, null) { assert LinkOk(was, i + 1, null); }
        assert block !in freeList;
        assert forall b :: b in was <==> b == block || b in freeList;
      }
    }

    /** Gives an outstanding block back, with its own dma address. */
    method Free(block: DmaBlock, dma: nat)
      requires Valid() && block in Outstanding() && dma == block.page.dma + block.offset
      modifies this`nextBlock, this`nrActive, this`freeList, block
      ensures Valid()
      ensures freeList == [block] + old(freeList) && Outstanding() == old(Outstanding()) - {block}
    {
      OutstandingIsActive(block);
      block.dma := dma;
      block.next := nextBlock;
      nextBlock := block;
      nrActive := nrActive - 1;
      ghost var was := freeList;
      freeList := [block] + was;
      forall i | 0 <= i < |freeList| ensures LinkOk(freeList, i, null) {
        if i > 0 { assert old(LinkOk(was, i - 1, null)) && was[i - 1] != block; }
      }
    }

    lemma OutstandingIsActive(block: DmaBlock)
      requires Valid() && block in Outstanding()
      ensures nrActive > 0
    {
      var fs := Elements(freeList);
      SetOfSeq(freeList);
      assert fs < carved;
      SmallerSet(fs, carved);
    }

    /** Cuts a new page and puts its blocks in front of the free list. */
    method InitialisePage(page: DmaPage)
      requires Valid() && AllSeparate(g, [page] + pages)
      modifies this`nextBlock, this`nrBlocks, this`nrPages, this`pages, this`freeList, this`carved
      ensures Valid() && pages == [page] + old(pages) && nrActive == old(nrActive)
      ensures |freeList| == |Carve(g, 0, g.boundary)| + |old(freeList)|
      ensures freeList[|Carve(g, 0, g.boundary)|..] == old(freeList)
      ensures forall i :: 0 <= i < |Carve(g, 0, g.boundary)| ==>
        freeList[i] !in old(carved) && freeList[i].page == page && freeList[i].offset == Carve(g, 0, g.boundary)[i]
      ensures Outstanding() == old(Outstanding())
    {
      FirstCutFits(g);
      var first, last, count, added := CutPage(g, page);
      ChainedFacts(added, page, Carve(g, 0, g.boundary));
      SameOutstanding(carved, freeList, added);
      Prepend(page, first, last, added, count);
    }

    /** The loop over the page: whenever a block would straddle the window it moves on to the next one. */
    static method CutPage(g: Geometry, page: DmaPage)
      returns (first: DmaBlock?, last: DmaBlock?, count: nat, ghost added: seq<DmaBlock>)
      requires Sane(g)
      ensures |added| == |Carve(g, 0, g.boundary)| == count
      ensures Chained(added, page, Carve(g, 0, g.boundary)) && fresh(added)
      ensures added != [] ==> first == added[0] && last == added[|added| - 1]
    {
      ghost var cuts := Carve(g, 0, g.boundary);
      var nextBoundary, offset := g.boundary, 0;
      first, last, count, added := null, null, 0, [];
      while offset + g.size <= g.allocation
        invariant offset <= nextBoundary && count == |added| <= |cuts|
        invariant cuts[|added|..] == Carve(g, offset, nextBoundary)
        invariant fresh(added) && Chained(added, page, cuts)
        invariant first == (if added == [] then null else added[0])
        invariant last == (if added == [] then null else added[|added| - 1])
        decreases g.allocation - offset, if offset + g.size > nextBoundary then 1 else 0
      {
        if offset + g.size > nextBoundary {
          offset := nextBoundary;
          nextBoundary := nextBoundary + g.boundary;
          continue;
        }
        CutsSplit(g, cuts, |added|, offset, nextBoundary);
        var block := new DmaBlock(page, offset);
        last := Append(added, last, block, page, cuts);
        if first == null {
          first := block;
        }
        added := added + [block];
        offset := offset + g.size;
        count := count + 1;
      }
    }

    /** The blocks are the first cuts of the page, linked in order. */
    static ghost predicate Chained(bs: seq<DmaBlock>, page: DmaPage, cuts: seq<nat>)
      reads bs
    {
      && |bs| <= |cuts| && NoDuplicates(bs) && Linked(bs, null)
      && forall i :: 0 <= i < |bs| ==> IsCut(bs[i], page, cuts[i])
    }

    static lemma CutsSplit(g: Geometry, cuts: seq<nat>, n: nat, offset: nat, next: nat)
      requires Sane(g) && offset <= next && offset + g.size <= next && offset + g.size <= g.allocation
      requires n <= |cuts| && cuts[n..] == Carve(g, offset, next)
      ensures n < |cuts| && cuts[n] == offset && cuts[n + 1..] == Carve(g, offset + g.size, next)
    {
      var rest := Carve(g, offset + g.size, next);
      assert cuts[n..] == [offset] + rest;
      assert cuts[n..][0] == offset && cuts[n + 1..] == cuts[n..][1..];
    }

    static ghost predicate IsCut(b: DmaBlock, page: DmaPage, offset: nat)
      reads b
    {
      b.page == page && b.offset == offset && b.dma == page.dma + offset
    }

    /** Links one more block behind the last one. */
    static method Append(ghost bs: seq<DmaBlock>, last: DmaBlock?, block: DmaBlock, ghost page: DmaPage, ghost cuts: seq<nat>)
      returns (newLast: DmaBlock)
      requires Chained(bs, page, cuts) && |bs| < |cuts|
      requires block !in bs && block.next == null && IsCut(block, page, cuts[|bs|])
      requires last == (if bs == [] then null else bs[|bs| - 1])
      modifies if last == null then {} else {last}
      ensures newLast == block && Chained(bs + [block], page, cuts)
    {
      if last != null {
        last.next := block;
      }
      newLast := block;
      forall i | 0 <= i < |bs + [block]|
        ensures LinkOk(bs + [block], i, null) && IsCut((bs + [block])[i], page, cuts[i])
      {
        if i < |bs| { assert old(LinkOk(bs, i, null)) && old(IsCut(bs[i], page, cuts[i])); }
      }
    }

    /** The new blocks, linked among themselves, go in front of the free list. */
    method Splice(first: DmaBlock?, last: DmaBlock?, ghost added: seq<DmaBlock>)
      requires ListOk() && NoDuplicates(added) && Linked(added, null)
      requires added != [] && first == added[0] && last == added[|added| - 1]
      requires forall b :: b in added ==> b !in freeList && b.dma == b.page.dma + b.offset
      modifies this`nextBlock, this`freeList, last
      ensures ListOk() && freeList == added + old(freeList)
      ensures forall b :: b in freeList <==> b in added || b in old(freeList)
    {
      ghost var was := freeList;
      last.next := nextBlock;
      nextBlock := first;
      freeList := added + was;
      JoinedLists(added, was);
      forall i | 0 <= i < |freeList| ensures LinkOk(freeList, i, null) {
        if i < |added| {
          assert old(LinkOk(added, i, null)) && freeList[i] == added[i];
          assert i < |added| - 1 ==> added[i] != last;
        } else {
          assert old(LinkOk(was, i - |added|, null)) && freeList[i] == was[i - |added|];
          assert last in added && was[i - |added|] in was;
        }
      }
    }

    static lemma JoinedLists(a: seq<DmaBlock>, b: seq<DmaBlock>)
      requires NoDuplicates(a) && NoDuplicates(b) && forall x :: x in a ==> x !in b
      ensures NoDuplicates(a + b)
      ensures forall x :: x in a + b <==> x in a || x in b
    {
      forall i, j | 0 <= i < j < |a + b| ensures (a + b)[i] != (a + b)[j] {
        if i < |a| <= j { assert a[i] in a && b[j - |a|] in b; }
      }
    }

    static lemma SameOutstanding(blocks: set<DmaBlock>, free: seq<DmaBlock>, added: seq<DmaBlock>)
      requires forall b :: b in added ==> b !in blocks
      ensures (set b | b in blocks + Elements(added) && b !in added + free) == (set b | b in blocks && b !in free)
    {
    }

    /** The books after a new page: its blocks are all free. */
    method Account(page: DmaPage, count: nat, ghost added: seq<DmaBlock>)
      requires Sane(g) && AllSeparate(g, [page] + pages) && Cut()
      requires nrBlocks == |carved| && nrBlocks + |added| == nrActive + |freeList| && nrPages == |pages|
      requires count == |added| && NoDuplicates(added) && AllCuts(g, page, added)
      requires forall b :: b in added ==> b !in carved
      modifies this`nrBlocks, this`nrPages, this`pages, this`carved
      ensures Cut() && pages == [page] + old(pages)
      ensures Counts()
      ensures carved == old(carved) + Elements(added)
    {
      ghost var was := carved;
      pages := [page] + pages;
      nrPages := nrPages + 1;
      nrBlocks := nrBlocks + count;
      ghost var ns := Elements(added);
      SetOfSeq(added);
      assert ns !! carved;
      carved := carved + ns;
      NewCuts(page, added, was, old(pages));
    }

    static lemma ChainedFacts(added: seq<DmaBlock>, page: DmaPage, cuts: seq<nat>)
      requires Chained(added, page, cuts) && |added| == |cuts|
      ensures forall i :: 0 <= i < |added| ==> added[i].page == page && added[i].offset == cuts[i]
      ensures forall b :: b in added ==> b.dma == b.page.dma + b.offset
    {
      assert forall i :: 0 <= i < |added| ==> IsCut(added[i], page, cuts[i]);
    }

    method Prepend(page: DmaPage, first: DmaBlock?, last: DmaBlock?, ghost added: seq<DmaBlock>, count: nat)
      requires Sane(g) && Counts() && Cut() && ListOk() && AllSeparate(g, [page] + pages)
      requires added != [] && first == added[0] && last == added[|added| - 1]
      requires count == |added| && NoDuplicates(added) && Linked(added, null) && AllCuts(g, page, added)
      requires forall b :: b in added ==> b !in carved && b !in freeList && b.dma == b.page.dma + b.offset
      modifies this`nextBlock, this`nrBlocks, this`nrPages, this`pages, this`freeList, this`carved, last
      ensures Counts() && Cut() && ListOk() && pages == [page] + old(pages)
      ensures freeList == added + old(freeList) && carved == old(carved) + Elements(added)
    {
      ghost var was := freeList;
      Splice(first, last, added);
      assert |freeList| == |added| + |was| && Cut();
      Account(page, count, added);
    }

    lemma NewCuts(page: DmaPage, added: seq<DmaBlock>, was: set<DmaBlock>, oldPages: seq<DmaPage>)
      requires Sane(g) && pages == [page] + oldPages && AllSeparate(g, pages)
      requires carved == was + Elements(added) && AllCuts(g, page, added)
      requires forall b :: b in was ==> CutFrom(g, oldPages, b.page, b.offset)
      requires forall b, c :: b in was && c in was && b.page == c.page && b.offset == c.offset ==> b == c
      ensures Cut()
    {
      CarveIsDisjoint(g, 0, g.boundary);
      var cuts := Carve(g, 0, g.boundary);
      forall b | b in carved ensures CutFrom(g, pages, b.page, b.offset) {
        if b in added {
          var i :| 0 <= i < |added| && added[i] == b;
          assert cuts[i] in cuts;
        }
      }
      assert page !in oldPages by { PageIsNew(page, oldPages); }
      forall b, c | b in carved && c in carved && b.page == c.page && b.offset == c.offset ensures b == c {
        if b in added && c in added {
          var i :| 0 <= i < |added| && added[i] == b;
          var j :| 0 <= j < |added| && added[j] == c;
          assert cuts[i] == cuts[j];
        }
      }
    }

    lemma PageIsNew(page: DmaPage, oldPages: seq<DmaPage>)
      requires Sane(g) && AllSeparate(g, [page] + oldPages)
      ensures page !in oldPages
    {
      var ps := [page] + oldPages;
      assert forall j :: 0 <= j < |oldPages| ==> oldPages[j] == ps[j + 1] && Separate(g, ps[0], ps[j + 1]);
    }

    /** The other users of the pool run: they may allocate and free, but not what is ours. */
    method Others(page: Option<DmaPage>, ghost mine: set<DmaBlock>)
      requires Valid() && (page.Some? ==> AllSeparate(g, [page.value] + pages)) && mine <= Outstanding()
      modifies this, carved - mine
      ensures Valid() && (page.Some? ==> AllSeparate(g, [page.value] + pages)) && mine <= Outstanding()
    {
    }

    /** Under the lock again: cuts the new page and takes its first block. */
    method AllocFromPage(page: DmaPage) returns (block: DmaBlock)
      requires Valid() && AllSeparate(g, [page] + pages)
      modifies this
      ensures Valid() && pages == [page] + old(pages)
      ensures block !in old(Outstanding()) && Outstanding() == old(Outstanding()) + {block}
      ensures block !in old(carved) && block.page == page && block.offset == 0
      ensures block.dma == block.page.dma + block.offset
    {
      InitialisePage(page);
      FirstCutFits(g);
      var first := Pop();
      return first;
    }

    /**
     A block, or null if the pool is empty and no page can be had: never one that we hold. The lock is
     dropped while a page is allocated, so others may allocate and free in between.
     */
    method Alloc(page: Option<DmaPage>, ghost mine: set<DmaBlock>) returns (block: DmaBlock?)
      requires Valid() && (page.Some? ==> AllSeparate(g, [page.value] + pages)) && mine <= Outstanding()
      modifies this, carved - mine
      ensures Valid() && mine <= Outstanding()
      ensures block == null <==> page.None? && old(freeList) == []
      ensures block == null ==> Outstanding() == old(Outstanding())
      ensures block != null ==> block in Outstanding() && block !in mine
      ensures old(freeList) != [] ==> block != null && block !in old(Outstanding()) && Outstanding() == old(Outstanding()) + {block}
      ensures old(freeList) == [] && block != null ==> block.page == page.value && block.offset == 0
      ensures block != null ==> CutFrom(g, pages, block.page, block.offset) && block.dma == block.page.dma + block.offset
    {
      block := Pop();
      if block == null {
        if page.None? { return; }
        Others(page, mine);
        block := AllocFromPage(page.value);
      }
    }
  }

  lemma FirstCutFits(g: Geometry)
    requires Sane(g)
    ensures |Carve(g, 0, g.boundary)| > 0 && Carve(g, 0, g.boundary)[0] == 0
  {
  }

  lemma {:induction false} SetOfSeq(bs: seq<DmaBlock>)
    requires NoDuplicates(bs)
    ensures |Elements(bs)| == |bs|
    decreases |bs|
  {
    if bs != [] {
      SetOfSeq(bs[1..]);
      assert Elements(bs) == {bs[0]} + Elements(bs[1..]);
      assert bs[0] !in bs[1..];
    } else {
      assert Elements(bs) == {};
    }
  }

  lemma SmallerSet<T>(a: set<T>, b: set<T>)
    requires a < b
    ensures |a| < |b|
  {
    assert b == a + (b - a);
    assert b - a != {};
  }

  /** Two blocks of a pool never share memory. */
  lemma BlocksAreDisjoint(pool: DmaPool, b: DmaBlock, c: DmaBlock)
    requires pool.Valid() && b in pool.carved && c in pool.carved && b != c
    ensures b.page.dma + b.offset + pool.g.size <= c.page.dma + c.offset
         || c.page.dma + c.offset + pool.g.size <= b.page.dma + b.offset
    ensures b.page.vaddr + b.offset + pool.g.size <= c.page.vaddr + c.offset
         || c.page.vaddr + c.offset + pool.g.size <= b.page.vaddr + b.offset
  {
    var g := pool.g;
    CarveIsDisjoint(g, 0, g.boundary);
    var cuts := Carve(g, 0, g.boundary);
    assert CutFrom(g, pool.pages, b.page, b.offset) && CutFrom(g, pool.pages, c.page, c.offset);
    var i :| 0 <= i < |cuts| && cuts[i] == b.offset;
    var j :| 0 <= j < |cuts| && cuts[j] == c.offset;
    if b.page != c.page {
      var p :| 0 <= p < |pool.pages| && pool.pages[p] == b.page;
      var q :| 0 <= q < |pool.pages| && pool.pages[q] == c.page;
      assert p != q;
      if p < q { assert Separate(g, b.page, c.page); } else { assert Separate(g, c.page, b.page); }
    }
  }
}
