/**
 Remapping the struct pages of a huge page: all of its page table entries are pointed at one
 page, the others go to a list, and a walk that fails half way is rolled back from that list.
 */
module Vmemmap {
  import opened Wrappers

  datatype Pte = Pte(page: nat, writable: bool)

  /** list_del of a page. */
  function Unlink(l: seq<nat>, p: nat): (r: seq<nat>)
    ensures p !in l ==> r == l
    ensures l != [] && l[0] == p ==> r == l[1..]
  {
    if l == [] then [] else if l[0] == p then l[1..] else [l[0]] + Unlink(l[1..], p)
  }

  predicate AllDistinct(s: seq<nat>) {
    forall i, j :: 0 <= i < j < |s| ==> s[i] != s[j]
  }

  /** The first m pages in reverse, as pages pushed one after the other lie on the list. */
  function Pushed(pages: seq<nat>, m: nat): (r: seq<nat>)
    requires m <= |pages|
    ensures |r| == m && forall k :: 0 <= k < m ==> r[k] == pages[m - 1 - k]
  {
    seq(m, k requires 0 <= k < m => pages[m - 1 - k])
  }

  lemma PushedNext(pages: seq<nat>, m: nat)
    requires m < |pages|
    ensures Pushed(pages, m + 1) == [pages[m]] + Pushed(pages, m)
  {
  }

  /** Entry 0 maps the reuse address, the entries after it the range that is freed. */
  class Walk {
    const ptes: array<Pte>
    var reusePage: Option<nat>
    var nrWalked: nat
    var vmemmapPages: seq<nat>

    constructor (ptes: array<Pte>, pages: seq<nat>)
      ensures this.ptes == ptes && reusePage.None? && nrWalked == 0 && vmemmapPages == pages
    {
      this.ptes := ptes;
      reusePage, nrWalked, vmemmapPages := None, 0, pages;
    }

    /** Points one entry at the reused page, read-only but for the head, and lists the page it had. */
    method RemapPte(i: nat)
      requires i < ptes.Length && reusePage.Some?
      modifies this`vmemmapPages, ptes
      ensures ptes[..] == old(ptes[..])[i := Pte(reusePage.value, i == 0)]
      ensures vmemmapPages == [old(ptes[i].page)]
        + (if i == 0 then Unlink(old(vmemmapPages), reusePage.value) else old(vmemmapPages))
    {
      var page := ptes[i].page;
      var writable := false;
      if i == 0 {
        writable := true;
        vmemmapPages := Unlink(vmemmapPages, reusePage.value);
      }
      vmemmapPages := [page] + vmemmapPages;
      ptes[i] := Pte(reusePage.value, writable);
    }

    /** Gives one entry a page of the list back, writable. */
    method RestorePte(i: nat)
      requires i < ptes.Length && reusePage.Some? && vmemmapPages != []
      requires ptes[i].page == reusePage.value
      modifies this`vmemmapPages, ptes
      ensures ptes[..] == old(ptes[..])[i := Pte(old(vmemmapPages)[0], true)]
      ensures vmemmapPages == old(vmemmapPages)[1..]
    {
      if ptes[i].page != reusePage.value {
        assert false;
      }
      var page := vmemmapPages[0];
      vmemmapPages := vmemmapPages[1..];
      ptes[i] := Pte(page, true);
    }

    /** The walk that remaps: it stops with an error before entry m, or reaches the end. */
    method RemapRange(m: nat, ghost pages: seq<nat>, ghost others: seq<nat>)
      requires m <= ptes.Length && nrWalked == 0
      requires |pages| == ptes.Length && forall i :: 0 <= i < ptes.Length ==> ptes[i] == Pte(pages[i], true)
      requires vmemmapPages == (if reusePage.Some? then [reusePage.value] else []) + others
      modifies this`vmemmapPages, this`nrWalked, this`reusePage, ptes
      ensures nrWalked == m
      ensures m > 0 ==> reusePage == Some(if old(reusePage).Some? then old(reusePage).value else pages[0])
      ensures m == 0 ==> vmemmapPages == old(vmemmapPages)
      ensures m > 0 ==>
        vmemmapPages == (if old(reusePage).Some? then Pushed(pages, m) else Pushed(pages[1..], m - 1)) + others
      ensures forall i :: 0 <= i < m ==> ptes[i] == Pte(reusePage.value, i == 0)
      ensures forall i :: m <= i < ptes.Length ==> ptes[i] == Pte(pages[i], true)
    {
      ghost var newHead := reusePage.Some?;
      var i := 0;
      while i < m
        invariant 0 <= i <= m && nrWalked == i
        invariant i == 0 ==> reusePage == old(reusePage) && vmemmapPages == old(vmemmapPages)
        invariant i > 0 ==> reusePage == Some(if newHead then old(reusePage).value else pages[0])
        invariant i > 0 ==> vmemmapPages == (if newHead then Pushed(pages, i) else Pushed(pages[1..], i - 1)) + others
        invariant forall j :: 0 <= j < i ==> ptes[j] == Pte(reusePage.value, j == 0)
        invariant forall j :: i <= j < ptes.Length ==> ptes[j] == Pte(pages[j], true)
      {
        if reusePage.None? {
          reusePage := Some(ptes[i].page);
        } else {
          RemapPte(i);
          ListAfterRemap(newHead, pages, others, i, old(reusePage));
        }
        nrWalked := nrWalked + 1;
        i := i + 1;
      }
    }

    static lemma ListAfterRemap(newHead: bool, pages: seq<nat>, others: seq<nat>, i: nat, head: Option<nat>)
      requires i < |pages| && (newHead ==> head.Some?)
      ensures newHead && i == 0 ==> [pages[0]] + Unlink([head.value] + others, head.value) == Pushed(pages, 1) + others
      ensures newHead && i > 0 ==> [pages[i]] + (Pushed(pages, i) + others) == Pushed(pages, i + 1) + others
      ensures !newHead && i > 0 ==> [pages[i]] + (Pushed(pages[1..], i - 1) + others) == Pushed(pages[1..], i) + others
    {
      PushedNext(pages, i);
      if newHead && i == 0 {
        assert ([head.value] + others)[1..] == others;
        assert Pushed(pages, 1) == [pages[0]];
      }
      if i > 0 { PushedNext(pages[1..], i - 1); }
    }

    /** The walk that restores the first m entries from the list. */
    method RestoreRange(m: nat)
      requires 0 < m <= ptes.Length && reusePage.None? && |vmemmapPages| >= m - 1
      requires forall i :: 1 <= i < m ==> ptes[i].page == ptes[0].page
      modifies this`vmemmapPages, this`nrWalked, this`reusePage, ptes
      ensures vmemmapPages == old(vmemmapPages)[m - 1..]
      ensures ptes[0] == old(ptes[0])
      ensures forall i :: 1 <= i < m ==> ptes[i] == Pte(old(vmemmapPages)[i - 1], true)
      ensures forall i :: m <= i < ptes.Length ==> ptes[i] == old(ptes[i])
    {
      var i := 0;
      while i < m
        invariant 0 <= i <= m
        invariant i == 0 ==> reusePage.None? && vmemmapPages == old(vmemmapPages)
        invariant i > 0 ==> reusePage == Some(old(ptes[0]).page) && vmemmapPages == old(vmemmapPages)[i - 1..]
        invariant ptes[0] == old(ptes[0])
        invariant forall j :: 1 <= j < i ==> ptes[j] == Pte(old(vmemmapPages)[j - 1], true)
        invariant forall j :: i <= j < ptes.Length ==> ptes[j] == old(ptes[j])
      {
        if reusePage.None? {
          reusePage := Some(ptes[i].page);
        } else {
          RestorePte(i);
        }
        nrWalked := nrWalked + 1;
        i := i + 1;
      }
    }
  }

  /**
   Frees the pages of a range. newHead is the new head page, if one could be allocated; the walk
   fails before entry m unless m is the whole range. The pages to free lie in front of others.
   */
  method RemapFree(ptes: array<Pte>, newHead: Option<nat>, m: nat, ghost pages: seq<nat>, others: seq<nat>)
      returns (ok: bool, vmemmapPages: seq<nat>)
    requires m <= ptes.Length && ptes.Length > 0
    requires |pages| == ptes.Length && forall i :: 0 <= i < ptes.Length ==> ptes[i] == Pte(pages[i], true)
    modifies ptes
    ensures ok <==> m == ptes.Length
    ensures ok ==> Optimized(ptes[..], Head(newHead, pages)) && vmemmapPages == Freed(newHead, pages) + others
    ensures !ok ==> ptes[..] == RolledBack(newHead, pages, m)
    ensures !ok ==> vmemmapPages == Spare(newHead, pages, m) + others
  {
    vmemmapPages := if newHead.Some? then [newHead.value] + others else others;
    var walk := new Walk(ptes, vmemmapPages);
    walk.reusePage := newHead;
    walk.RemapRange(m, pages, others);
    ok := m == ptes.Length;
    vmemmapPages := walk.vmemmapPages;
    if !ok && walk.nrWalked > 0 {
      vmemmapPages := RollBack(ptes, newHead, walk.nrWalked, vmemmapPages, pages, others);
    }
    assert !ok && m == 0 ==> ptes[..] == RolledBack(newHead, pages, m);
  }

  /** The second walk, over the m entries that the first one has changed. */
  method RollBack(ptes: array<Pte>, ghost newHead: Option<nat>, m: nat, list: seq<nat>, ghost pages: seq<nat>, ghost others: seq<nat>)
      returns (left: seq<nat>)
    requires 0 < m < ptes.Length == |pages| && ListAfter(newHead, pages, others, m, list)
    requires forall i :: 0 <= i < m ==> ptes[i] == Pte(Head(newHead, pages), i == 0)
    requires forall i :: m <= i < ptes.Length ==> ptes[i] == Pte(pages[i], true)
    modifies ptes
    ensures ptes[..] == RolledBack(newHead, pages, m)
    ensures left == Spare(newHead, pages, m) + others
  {
    ListRest(newHead, pages, others, m, list);
    var walk := new Walk(ptes, list);
    walk.RestoreRange(m);
    UndoneIsRolledBack(newHead, pages, others, m, list, ptes[..]);
    left := walk.vmemmapPages;
  }

  /** The list after a walk that remapped m entries. */
  ghost predicate ListAfter(newHead: Option<nat>, pages: seq<nat>, others: seq<nat>, m: nat, list: seq<nat>)
    requires 0 < m < |pages|
  {
    list == (if newHead.Some? then Pushed(pages, m) else Pushed(pages[1..], m - 1)) + others
  }

  lemma ListEntry(newHead: Option<nat>, pages: seq<nat>, others: seq<nat>, m: nat, list: seq<nat>, i: nat)
    requires 0 < m < |pages| && ListAfter(newHead, pages, others, m, list) && 1 <= i < m
    ensures |list| >= m - 1 && list[i - 1] == pages[m - i]
  {
    if newHead.Some? {
      assert Pushed(pages, m)[i - 1] == pages[m - i];
    } else {
      assert Pushed(pages[1..], m - 1)[i - 1] == pages[1..][m - 1 - i];
    }
  }

  lemma ListRest(newHead: Option<nat>, pages: seq<nat>, others: seq<nat>, m: nat, list: seq<nat>)
    requires 0 < m < |pages| && ListAfter(newHead, pages, others, m, list)
    ensures |list| >= m - 1 && list[m - 1..] == Spare(newHead, pages, m) + others
  {
    if newHead.Some? {
      var p := Pushed(pages, m);
      assert p == p[..m - 1] + [pages[0]];
      assert list[m - 1..] == [pages[0]] + others;
    } else {
      assert list[m - 1..] == others;
    }
  }

  /** The list that the remapping left gives every entry but the head a page of its own again. */
  lemma UndoneIsRolledBack(newHead: Option<nat>, pages: seq<nat>, others: seq<nat>, m: nat, list: seq<nat>, now: seq<Pte>)
    requires 0 < m < |pages| && |now| == |pages| && |list| >= m - 1
    requires ListAfter(newHead, pages, others, m, list)
    requires now[0] == Pte(Head(newHead, pages), true)
    requires forall i :: 1 <= i < m ==> now[i] == Pte(list[i - 1], true)
    requires forall i :: m <= i < |now| ==> now[i] == Pte(pages[i], true)
    ensures now == RolledBack(newHead, pages, m)
  {
    var r := RolledBack(newHead, pages, m);
    forall i | 1 <= i < m ensures now[i] == r[i] {
      ListEntry(newHead, pages, others, m, list, i);
    }
  }

  // ---------------------------------------------------------------- what the walks leave

  function Head(newHead: Option<nat>, pages: seq<nat>): nat
    requires pages != []
  {
    if newHead.Some? then newHead.value else pages[0]
  }

  predicate Optimized(ptes: seq<Pte>, head: nat) {
    forall i :: 0 <= i < |ptes| ==> ptes[i] == Pte(head, i == 0)
  }

  /** The pages the caller frees after a successful walk. */
  function Freed(newHead: Option<nat>, pages: seq<nat>): seq<nat>
    requires pages != []
  {
    if newHead.Some? then Pushed(pages, |pages|) else Pushed(pages[1..], |pages| - 1)
  }

  /** The entries after a walk that failed before entry m and was undone. */
  function RolledBack(newHead: Option<nat>, pages: seq<nat>, m: nat): (r: seq<Pte>)
    requires m < |pages|
    ensures |r| == |pages|
  {
    seq(|pages|, i requires 0 <= i < |pages| =>
      Pte(if m == 0 || i >= m then pages[i] else if i == 0 then Head(newHead, pages) else pages[m - i], true))
  }

  /** The pages left to free after the undo. */
  function Spare(newHead: Option<nat>, pages: seq<nat>, m: nat): seq<nat>
    requires m < |pages|
  {
    if newHead.None? then [] else if m == 0 then [newHead.value] else [pages[0]]
  }

  /** A walk that is rolled back leaves every address writable and on a page of its own. */
  lemma RollbackIsInjective(newHead: Option<nat>, pages: seq<nat>, m: nat)
    requires AllDistinct(pages) && m < |pages| && (newHead.Some? ==> newHead.value !in pages)
    ensures var r := RolledBack(newHead, pages, m);
      && (forall i :: 0 <= i < |r| ==> r[i].writable)
      && (forall i, j :: 0 <= i < j < |r| ==> r[i].page != r[j].page)
      && (forall i :: 0 <= i < |r| ==> r[i].page !in Spare(newHead, pages, m))
  {
    var r := RolledBack(newHead, pages, m);
    forall i | 0 <= i < |r| ensures r[i].page in pages || (newHead.Some? && r[i].page == newHead.value) { }
    assert forall i :: 0 <= i < |pages| ==> pages[i] in pages;
  }

  function PagesOf(ptes: seq<Pte>): (r: seq<nat>)
    ensures |r| == |ptes| && forall i :: 0 <= i < |r| ==> r[i] == ptes[i].page
  {
    seq(|ptes|, i requires 0 <= i < |ptes| => ptes[i].page)
  }

  lemma {:induction false} PushedSameBag(pages: seq<nat>, m: nat)
    requires m <= |pages|
    ensures multiset(Pushed(pages, m)) == multiset(pages[..m])
  {
    if m > 0 {
      PushedSameBag(pages, m - 1);
      PushedNext(pages, m - 1);
      assert pages[..m] == pages[..m - 1] + [pages[m - 1]];
    }
  }

  /** No page is lost and none appears: mapped and spare pages are the original ones and the new head. */
  lemma RollbackConserves(newHead: Option<nat>, pages: seq<nat>, m: nat)
    requires m < |pages|
    ensures multiset(PagesOf(RolledBack(newHead, pages, m))) + multiset(Spare(newHead, pages, m))
         == multiset(pages) + (if newHead.Some? then multiset{newHead.value} else multiset{})
  {
    if m == 0 {
      assert PagesOf(RolledBack(newHead, pages, m)) == pages;
    } else {
      RolledBackBag(newHead, pages, m);
      PagesBag(pages, m);
    }
  }

  lemma RolledBackBag(newHead: Option<nat>, pages: seq<nat>, m: nat)
    requires 0 < m < |pages|
    ensures multiset(PagesOf(RolledBack(newHead, pages, m)))
         == multiset{Head(newHead, pages)} + multiset(pages[1..m]) + multiset(pages[m..])
  {
    var tail := pages[1..];
    assert PagesOf(RolledBack(newHead, pages, m)) == [Head(newHead, pages)] + Pushed(tail, m - 1) + pages[m..];
    PushedSameBag(tail, m - 1);
    assert tail[..m - 1] == pages[1..m];
  }

  lemma PagesBag(pages: seq<nat>, m: nat)
    requires 0 < m < |pages|
    ensures multiset(pages) == multiset{pages[0]} + multiset(pages[1..m]) + multiset(pages[m..])
  {
    assert pages == [pages[0]] + pages[1..m] + pages[m..];
  }

  /** A successful walk frees every page but the head that stays mapped. */
  lemma FreedConserves(newHead: Option<nat>, pages: seq<nat>)
    requires pages != []
    ensures multiset(Freed(newHead, pages)) + multiset{Head(newHead, pages)}
         == multiset(pages) + (if newHead.Some? then multiset{newHead.value} else multiset{})
  {
    if newHead.Some? {
      PushedSameBag(pages, |pages|);
      assert pages[..|pages|] == pages;
    } else {
      PushedSameBag(pages[1..], |pages| - 1);
      assert pages[1..][..|pages| - 1] == pages[1..];
      assert pages == [pages[0]] + pages[1..];
    }
  }

  // ---------------------------------------------------------------- giving pages back

  /** Allocates one page for every entry after the head; a failure gives all of them back. */
  method AllocPageList(n: nat, supply: seq<nat>) returns (ok: bool, list: seq<nat>)
    ensures ok <==> n <= |supply|
    ensures ok ==> list == Pushed(supply, n)
    ensures !ok ==> list == []
  {
    list := [];
    var i := 0;
    while i < n
      invariant 0 <= i <= n && i <= |supply|
      invariant list == Pushed(supply, i)
    {
      if i >= |supply| {
        return false, [];
      }
      PushedNext(supply, i);
      list := [supply[i]] + list;
      i := i + 1;
    }
    return true, list;
  }

  /** The head entry, and behind it the new pages, last allocated first. */
  function GivenBack(head: Pte, supply: seq<nat>, n: nat): (r: seq<Pte>)
    requires n <= |supply|
    ensures |r| == n + 1
  {
    seq(n + 1, i requires 0 <= i < n + 1 => if i == 0 then head else Pte(supply[n - i], true))
  }

  /** Undoes a successful RemapFree with new pages, or changes nothing. */
  method RemapAlloc(ptes: array<Pte>, supply: seq<nat>) returns (ok: bool)
    requires ptes.Length > 0 && Optimized(ptes[..], ptes[0].page)
    modifies ptes
    ensures ok <==> ptes.Length - 1 <= |supply|
    ensures !ok ==> ptes[..] == old(ptes[..])
    ensures ok ==> ptes[..] == GivenBack(old(ptes[0]), supply, ptes.Length - 1)
  {
    var list;
    ok, list := AllocPageList(ptes.Length - 1, supply);
    if !ok { return; }
    assert forall i :: 0 <= i < ptes.Length ==> ptes[..][i] == Pte(ptes[0].page, i == 0);
    var walk := new Walk(ptes, list);
    walk.RestoreRange(ptes.Length);
  }

  /** Optimise, then restore: every entry has a writable page of its own again. */
  lemma GivenBackIsInjective(head: Pte, supply: seq<nat>, n: nat)
    requires n <= |supply| && AllDistinct(supply) && head.page !in supply && head.writable
    ensures var r := GivenBack(head, supply, n);
      && (forall i :: 0 <= i < |r| ==> r[i].writable)
      && (forall i, j :: 0 <= i < j < |r| ==> r[i].page != r[j].page)
      && multiset(PagesOf(r)) == multiset{head.page} + multiset(supply[..n])
  {
    var r := GivenBack(head, supply, n);
    assert PagesOf(r) == [head.page] + Pushed(supply, n);
    PushedSameBag(supply, n);
    assert forall i :: 0 <= i < |supply| ==> supply[i] in supply;
  }
}
