/** Permanent kernel mappings of high memory: a row of slots, unmapped lazily, shared by all who map a page. */
module Pkmap {
  import opened Wrappers

  type Page = nat

  function Next(i: nat, n: nat): (j: nat)
    requires i < n
    ensures j == if i == n - 1 then 0 else i + 1
  {
    (i + 1) % n
  }

  /** The whole row: counts, page table and page addresses. */
  datatype Row = Row(counts: seq<int>, ptes: seq<Option<Page>>, address: map<Page, nat>)

  /** Mapped, but without users. */
  predicate Idle(r: Row, i: nat) {
    i < |r.counts| && r.counts[i] == 1
  }

  /** Exactly the idle slots are unmapped. */
  function FlushOf(r: Row): Row {
    Row(seq(|r.counts|, i requires 0 <= i < |r.counts| => if Idle(r, i) then 0 else r.counts[i]),
        seq(|r.ptes|, i requires 0 <= i < |r.ptes| => if Idle(r, i) then None else r.ptes[i]),
        map p | p in r.address && !Idle(r, r.address[p]) :: r.address[p])
  }

  class Pkmap {
    /** 0: usable; 1: mapped, no users, not flushed since; n: n - 1 users. */
    const counts: array<int>
    /** The page table of the slots. */
    const ptes: array<Option<Page>>
    /** page_address: the slot of a mapped page. */
    var address: map<Page, nat>
    /** The slot that was looked at last. */
    var last: nat
    /** One entry for every kmap that has not been undone, of all users. */
    ghost var holds: multiset<Page>

    constructor (slots: nat)
      requires slots > 0
      ensures Valid() && counts.Length == slots && holds == multiset{} && fresh(counts) && fresh(ptes)
    {
      counts := new int[slots](_ => 0);
      ptes := new Option<Page>[slots](_ => None);
      address, last, holds := map[], 0, multiset{};
    }

    ghost predicate SlotOk(i: nat)
      requires i < counts.Length == ptes.Length
      reads `address, `holds, counts, ptes
    {
      match ptes[i]
      case None => counts[i] == 0
      case Some(p) => p in address && address[p] == i && counts[i] == holds[p] + 1
    }

    ghost predicate Valid()
      reads this, counts, ptes
    {
      && counts.Length == ptes.Length && last < counts.Length
      && (forall i :: 0 <= i < counts.Length ==> SlotOk(i))
      && (forall p :: p in address ==> address[p] < counts.Length && ptes[address[p]] == Some(p))
      && (forall p :: p in holds ==> p in address)
    }

    ghost function Snapshot(): Row
      reads `address, counts, ptes
    {
      Row(counts[..], ptes[..], address)
    }

    /** Every slot has a user. */
    ghost predicate AllBusy()
      reads counts
    {
      forall i :: 0 <= i < counts.Length ==> counts[i] >= 2
    }

    /** Clears one slot without users. */
    method Unmap(i: nat)
      requires Valid() && i < counts.Length && counts[i] == 1
      modifies this`address, counts, ptes
      ensures Valid() && old(ptes[i].Some?)
      ensures counts[..] == old(counts[..])[i := 0] && ptes[..] == old(ptes[..])[i := None]
      ensures forall p :: p in address <==> p in old(address) && old(address[p]) != i
      ensures forall p :: p in address ==> address[p] == old(address[p])
    {
      assert SlotOk(i);
      var page := ptes[i].value;
      assert holds[page] == 0;
      counts[i] := 0;
      ptes[i] := None;
      address := address - {page};
      forall j | 0 <= j < counts.Length ensures SlotOk(j) {
        assert old(SlotOk(j));
      }
    }

    ghost predicate Fits(r: Row) {
      |r.counts| == |r.ptes| == counts.Length
    }

    /** Of the idle slots of the row exactly those below i are unmapped. */
    ghost predicate FlushedUpTo(was: Row, i: nat)
      requires Fits(was) && ptes.Length == counts.Length
      reads `address, counts, ptes
    {
      && (forall j: nat :: j < counts.Length ==>
            && counts[j] == (if j < i && Idle(was, j) then 0 else was.counts[j])
            && ptes[j] == if j < i && Idle(was, j) then None else was.ptes[j])
      && (forall p :: p in address <==> p in was.address && (was.address[p] < i ==> !Idle(was, was.address[p])))
      && (forall p :: p in address ==> address[p] == was.address[p])
    }

    method Flush(i: nat, ghost was: Row)
      requires Valid() && i < counts.Length && counts[i] == 1 && Fits(was) && FlushedUpTo(was, i)
      modifies this`address, counts, ptes
      ensures Valid() && FlushedUpTo(was, i + 1)
    {
      ghost var cs, ps := counts[..], ptes[..];
      Unmap(i);
      assert counts[..] == cs[i := 0] && ptes[..] == ps[i := None];
    }

    /** Unmaps exactly the slots without users. */
    method FlushAllZero() returns (flushed: bool)
      requires Valid()
      modifies this`address, counts, ptes
      ensures Valid()
      ensures flushed <==> exists i :: Idle(old(Snapshot()), i)
      ensures Snapshot() == FlushOf(old(Snapshot()))
    {
      flushed := false;
      ghost var was := Snapshot();
      var i := 0;
      while i < counts.Length
        invariant 0 <= i <= counts.Length && Valid()
        invariant flushed ==> exists j :: Idle(was, j)
        invariant !flushed ==> forall j: nat :: j < i ==> !Idle(was, j)
        invariant Fits(was) && FlushedUpTo(was, i)
      {
        assert Idle(was, i) <==> counts[i] == 1;
        if counts[i] == 1 {
          Flush(i, was);
          flushed := true;
        }
        i := i + 1;
      }
      AllFlushed(was);
    }

    lemma AllFlushed(was: Row)
      requires ptes.Length == counts.Length && Fits(was) && FlushedUpTo(was, counts.Length)
      requires forall p :: p in was.address ==> was.address[p] < counts.Length
      ensures Snapshot() == FlushOf(was)
    {
      assert address == FlushOf(was).address;
      assert Snapshot().counts == FlushOf(was).counts && Snapshot().ptes == FlushOf(was).ptes;
    }

    /** Goes on to the next slot; at the start of the row the idle slots are flushed. */
    method Advance() returns (ghost wrapped: bool)
      requires Valid()
      modifies this`address, this`last, counts, ptes
      ensures Valid() && last == Next(old(last), counts.Length) && (wrapped <==> last == 0)
      ensures Snapshot() == if wrapped then FlushOf(old(Snapshot())) else old(Snapshot())
      ensures wrapped ==> forall i :: 0 <= i < counts.Length ==> counts[i] != 1
      ensures forall i :: 0 <= i < counts.Length ==> counts[i] >= 0
      ensures !wrapped ==> forall i :: 0 <= i < counts.Length ==> counts[i] == old(counts[i])
    {
      last := Next(last, counts.Length);
      wrapped := last == 0;
      ghost var was := Snapshot();
      if last == 0 {
        var _ := FlushAllZero();
      }
      forall i | 0 <= i < counts.Length ensures counts[i] >= 0 && (wrapped ==> counts[i] != 1) {
        assert SlotOk(i) && counts[i] == Snapshot().counts[i];
      }
      forall i | 0 <= i < counts.Length && !wrapped ensures counts[i] == was.counts[i] {
        assert counts[i] == Snapshot().counts[i];
      }
    }

    /**
     Looks for a free slot from the last one on, round the end at most once, flushing there. It gives
     up only when every slot has a user. wrapped tells whether the end was passed.
     */
    method Search() returns (nr: Option<nat>, ghost wrapped: bool)
      requires Valid()
      modifies this`address, this`last, counts, ptes
      ensures Valid() && Snapshot() == if wrapped then FlushOf(old(Snapshot())) else old(Snapshot())
      ensures nr.None? ==> wrapped && AllBusy()
      ensures nr.Some? ==> nr.value == last && counts[last] == 0
      ensures nr.Some? && !wrapped ==> old(last) < last && forall j :: old(last) < j < last ==> old(counts[j]) != 0
      ensures wrapped ==> forall j :: old(last) < j < counts.Length ==> old(counts[j]) != 0
      ensures wrapped && nr.Some? ==> forall j :: 0 <= j < last ==> old(counts[j]) >= 2
    {
      wrapped := false;
      ghost var was := Snapshot();
      var budget := counts.Length;
      while true
        invariant Valid() && Snapshot() == if wrapped then FlushOf(was) else was
        invariant budget >= 1
        invariant !wrapped ==> old(last) <= last && budget == counts.Length - (last - old(last))
        invariant !wrapped ==> forall j :: old(last) < j <= last ==> was.counts[j] != 0
        invariant wrapped ==> budget == counts.Length - 1 - last
        invariant wrapped ==> forall j :: 0 <= j <= last ==> counts[j] >= 2 && was.counts[j] >= 2
        invariant wrapped ==> forall j :: old(last) < j < counts.Length ==> was.counts[j] != 0
        invariant wrapped ==> forall j :: 0 <= j < counts.Length ==> counts[j] != 1
        decreases !wrapped, budget
      {
        ghost var flushed := Advance();
        if last == 0 { wrapped, budget := true, counts.Length; }
        assert forall j :: 0 <= j < last ==> was.counts[j] == old(counts[j]);
        if counts[last] == 0 { return Some(last), wrapped; }
        budget := budget - 1;
        assert wrapped ==> counts[last] >= 2 && FlushOf(was).counts[last] == counts[..][last];
        if budget == 0 {
          assert AllBusy();
          return None, wrapped;
        }
      }
    }

    /** A page stays at its address as long as somebody holds it. */
    ghost predicate Keeps(mine: multiset<Page>, was: map<Page, nat>)
      reads `address
    {
      forall p :: p in mine ==> p in was && p in address && address[p] == was[p]
    }

    /** What the other users of the row may do while the lock is not held: anything but let go what is ours. */
    method Others(ghost mine: multiset<Page>)
      requires Valid() && mine <= holds
      modifies this`address, this`last, this`holds, counts, ptes
      ensures Valid() && mine <= holds && Keeps(mine, old(address))
    {
    }

    /** Puts a page into a free slot, without a user yet. */
    method Install(page: Page, nr: nat)
      requires Valid() && page !in address && nr < counts.Length && counts[nr] == 0
      modifies this`address, counts, ptes
      ensures Valid() && address == old(address)[page := nr]
      ensures counts[..] == old(counts[..])[nr := 1] && ptes[..] == old(ptes[..])[nr := Some(page)]
    {
      assert SlotOk(nr);
      assert holds[page] == 0;
      ptes[nr] := Some(page);
      counts[nr] := 1;
      address := address[page := nr];
      forall i | 0 <= i < counts.Length ensures SlotOk(i) {
        assert old(SlotOk(i));
      }
    }

    /** One search, and the page goes into the slot that it finds. */
    method TryMap(page: Page, ghost mine: multiset<Page>) returns (nr: Option<nat>)
      requires Valid() && mine <= holds && page !in address
      modifies this`address, this`last, counts, ptes
      ensures Valid() && Keeps(mine, old(address))
      ensures if nr.Some? then page in address && address[page] == nr.value else page !in address && AllBusy()
    {
      ghost var wrapped;
      nr, wrapped := Search();
      assert Keeps(mine, Snapshot().address);
      if nr.Some? { Install(page, nr.value); }
    }

    /**
     Finds a slot for a page that has none. Each time every slot is in use the caller sleeps; naps is
     how often it is woken. None: it is still asleep.
     */
    method MapNewVirtual(page: Page, ghost mine: multiset<Page>, naps: nat) returns (nr: Option<nat>, ghost before: multiset<Page>)
      requires Valid() && mine <= holds && page !in address
      modifies this`address, this`last, this`holds, counts, ptes
      ensures Valid() && mine <= holds == before && Keeps(mine, old(address))
      ensures nr.Some? ==> page in address && address[page] == nr.value
      ensures nr.None? ==> AllBusy()
    {
      before := holds;
      var left := naps;
      while true
        invariant Valid() && mine <= holds == before && Keeps(mine, old(address))
        invariant page !in address
        decreases left
      {
        nr := TryMap(page, mine);
        if nr.Some? { return; }
        if left == 0 { return; }
        left := left - 1;
        Others(mine);
        before := holds;
        if page in address { return Some(address[page]), before; }
      }
    }

    /** Adds a user to a page that has a slot. */
    method AddUser(page: Page)
      requires Valid() && page in address
      modifies counts, this`holds
      ensures Valid() && holds == old(holds) + multiset{page}
      ensures counts[..] == old(counts[..])[address[page] := old(counts[address[page]]) + 1]
      ensures counts[address[page]] >= 2
    {
      var nr := address[page];
      assert SlotOk(nr);
      counts[nr] := counts[nr] + 1;
      holds := holds + multiset{page};
      forall i | 0 <= i < counts.Length ensures SlotOk(i) {
        assert old(SlotOk(i));
      }
    }

    /** Maps a page, or joins those who have it mapped; sleeps only while every slot has a user. */
    method KmapHigh(page: Page, ghost mine: multiset<Page>, naps: nat) returns (nr: Option<nat>, ghost before: multiset<Page>)
      requires Valid() && mine <= holds
      modifies this`address, this`last, this`holds, counts, ptes
      ensures Valid() && mine <= before && Keeps(mine, old(address))
      ensures nr.Some? ==> holds == before + multiset{page} && page in address && address[page] == nr.value
      ensures nr.Some? ==> nr.value < counts.Length && counts[nr.value] >= 2 && ptes[nr.value] == Some(page)
      ensures nr.None? ==> holds == before && AllBusy() && page !in old(address)
      ensures page in old(address) ==> nr == Some(old(address[page])) && before == old(holds) && ptes[..] == old(ptes[..])
    {
      before := holds;
      if page in address {
        nr := Some(address[page]);
      } else {
        nr, before := MapNewVirtual(page, mine, naps);
        if nr.None? { return; }
      }
      AddUser(page);
    }

    /** Takes back one kmap; the slot stays mapped. A waiter is woken exactly if the last user left. */
    method KunmapHigh(page: Page, waiting: bool) returns (wake: bool)
      requires Valid() && page in holds
      modifies counts, this`holds
      ensures Valid() && holds == old(holds) - multiset{page}
      ensures counts[..] == old(counts[..])[address[page] := old(counts[address[page]]) - 1]
      ensures counts[address[page]] >= 1
      ensures wake <==> waiting && page !in holds
    {
      var nr := address[page];
      assert SlotOk(nr);
      counts[nr] := counts[nr] - 1;
      holds := holds - multiset{page};
      wake := counts[nr] == 1 && waiting;
      forall i | 0 <= i < counts.Length ensures SlotOk(i) {
        assert old(SlotOk(i));
      }
    }
  }

  /** The pages of the first k slots. */
  ghost function PagesUpTo(ptes: seq<Option<Page>>, k: nat): set<Page>
    requires k <= |ptes|
  {
    set i | 0 <= i < k && ptes[i].Some? :: ptes[i].value
  }

  lemma {:induction false} DistinctPages(ptes: seq<Option<Page>>, k: nat)
    requires k <= |ptes| && forall i :: 0 <= i < k ==> ptes[i].Some?
    requires forall i, j :: 0 <= i < j < k ==> ptes[i] != ptes[j]
    ensures |PagesUpTo(ptes, k)| == k
  {
    if k == 0 {
      assert PagesUpTo(ptes, 0) == {};
    } else {
      DistinctPages(ptes, k - 1);
      assert PagesUpTo(ptes, k) == PagesUpTo(ptes, k - 1) + {ptes[k - 1].value};
      assert ptes[k - 1].value !in PagesUpTo(ptes, k - 1);
    }
  }

  /** A caller of kmap sleeps only when as many different pages are held as there are slots. */
  lemma SleepMeansFull(row: Pkmap)
    requires row.Valid() && row.AllBusy()
    ensures |set p | p in row.holds| == row.counts.Length
  {
    var ptes := row.ptes[..];
    forall i | 0 <= i < |ptes| ensures ptes[i].Some? && ptes[i].value in row.holds && row.address[ptes[i].value] == i {
      assert row.SlotOk(i);
    }
    DistinctPages(ptes, |ptes|);
    forall p | p in row.holds ensures p in PagesUpTo(ptes, |ptes|) {
      assert ptes[row.address[p]] == Some(p);
    }
    assert (set p | p in row.holds) == PagesUpTo(ptes, |ptes|);
  }
}
