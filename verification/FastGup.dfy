/**
 Getting and pinning user pages without locks: the walk over live page tables, the references and
 pins it takes, and how it gives them back when something has changed under it.
 */
module FastGup {
  import opened Wrappers
  import opened Arithmetic

  type Page = nat

  datatype Folio = Folio(id: nat, large: bool, isZero: bool)

  /** pin: FOLL_PIN, otherwise FOLL_GET. */
  datatype Flags = Flags(pin: bool, write: bool, longterm: bool, p2pdma: bool)

  const PIN_BIAS := 1024

  // ---------------------------------------------------------------- what a grab weighs

  /** References that n grabs of folio f take. */
  function RefCost(pin: bool, f: Folio, n: nat): nat {
    if !pin then n else if f.isZero then 0 else if f.large then n else PIN_BIAS * n
  }

  /** Exact pins that n grabs of folio f take. */
  function PinCost(pin: bool, f: Folio, n: nat): nat {
    if pin && !f.isZero && f.large then n else 0
  }

  /** How many of the pages are in folio f. */
  ghost function Members(folioOf: Page -> Folio, ps: seq<Page>, f: Folio): nat {
    if ps == [] then 0 else
      Members(folioOf, ps[..|ps| - 1], f) + if folioOf(ps[|ps| - 1]) == f then 1 else 0
  }

  lemma OneMore(folioOf: Page -> Folio, ps: seq<Page>, p: Page, f: Folio)
    ensures Members(folioOf, ps + [p], f) == Members(folioOf, ps, f) + if folioOf(p) == f then 1 else 0
  {
    assert (ps + [p])[..|ps|] == ps;
  }

  lemma {:induction false} Together(folioOf: Page -> Folio, ps: seq<Page>, qs: seq<Page>, f: Folio)
    ensures Members(folioOf, ps + qs, f) == Members(folioOf, ps, f) + Members(folioOf, qs, f)
    decreases |qs|
  {
    if qs == [] {
      assert ps + qs == ps;
    } else {
      var m := |qs| - 1;
      Together(folioOf, ps, qs[..m], f);
      assert ps + qs == (ps + qs[..m]) + [qs[m]];
      OneMore(folioOf, ps + qs[..m], qs[m], f);
    }
  }

  lemma {:induction false} OneFolio(folioOf: Page -> Folio, run: seq<Page>, g: Folio, f: Folio)
    requires forall p :: p in run ==> folioOf(p) == g
    ensures Members(folioOf, run, f) == if f == g then |run| else 0
    decreases |run|
  {
    if run != [] {
      OneFolio(folioOf, run[..|run| - 1], g, f);
      assert run[|run| - 1] in run;
    }
  }

  lemma {:induction false} SameMembers(was: Page -> Folio, now: Page -> Folio, ps: seq<Page>, f: Folio)
    requires forall p :: p in ps ==> (now(p) == f <==> was(p) == f)
    ensures Members(was, ps, f) == Members(now, ps, f)
    decreases |ps|
  {
    if ps != [] {
      assert ps[|ps| - 1] in ps;
      SameMembers(was, now, ps[..|ps| - 1], f);
    }
  }

  /** Exactly the zero page is in a zero folio. */
  ghost predicate ZeroIsZero(folioOf: Page -> Folio, zero: Page) {
    forall p :: folioOf(p).isZero <==> p == zero
  }

  /** What others cannot do: a folio on which a reference is held is not split, so its recorded pages stay in it. */
  ghost predicate RecordedStay(pin: bool, was: Page -> Folio, now: Page -> Folio, zero: Page, ps: seq<Page>) {
    forall p :: p in ps ==> now(p) == was(p) || (pin && p == zero)
  }

  /** The references and pins held are exactly those of one grab for every page. */
  ghost predicate Owes(pin: bool, folioOf: Page -> Folio, ps: seq<Page>, refs: multiset<Folio>, pins: multiset<Folio>) {
    && (forall f: Folio :: refs[f] == RefCost(pin, f, Members(folioOf, ps, f)))
    && (forall f: Folio :: pins[f] == PinCost(pin, f, Members(folioOf, ps, f)))
  }

  /** The pages that are recorded keep their weight while others run. */
  lemma OwesStays(pin: bool, was: Page -> Folio, now: Page -> Folio, zero: Page, ps: seq<Page>, refs: multiset<Folio>, pins: multiset<Folio>)
    requires ZeroIsZero(was, zero) && ZeroIsZero(now, zero) && RecordedStay(pin, was, now, zero, ps)
    requires Owes(pin, was, ps, refs, pins)
    ensures Owes(pin, now, ps, refs, pins)
  {
    forall f: Folio | !pin || !f.isZero ensures Members(was, ps, f) == Members(now, ps, f) {
      SameMembers(was, now, ps, f);
    }
  }

  /** A grab of n pages of folio g on top of what is held. */
  ghost predicate Grabbed(pin: bool, g: Folio, n: nat, refs: multiset<Folio>, pins: multiset<Folio>, refs': multiset<Folio>, pins': multiset<Folio>) {
    && (forall f: Folio :: refs'[f] == refs[f] + if f == g then RefCost(pin, g, n) else 0)
    && (forall f: Folio :: pins'[f] == pins[f] + if f == g then PinCost(pin, g, n) else 0)
  }

  lemma MoreIsGrab(g: Folio, n: nat, refs: multiset<Folio>, pins: multiset<Folio>)
    ensures Grabbed(false, g, n, refs, pins, More(refs, g, n), pins)
  {
    assert PinCost(false, g, n) == 0;
  }

  /** Recording the pages of a grab pays for it. */
  lemma RunIsOwed(pin: bool, folioOf: Page -> Folio, ps: seq<Page>, run: seq<Page>, g: Folio,
                  refs: multiset<Folio>, pins: multiset<Folio>, refs': multiset<Folio>, pins': multiset<Folio>)
    requires Owes(pin, folioOf, ps, refs, pins) && Grabbed(pin, g, |run|, refs, pins, refs', pins')
    requires forall p :: p in run ==> folioOf(p) == g
    ensures Owes(pin, folioOf, ps + run, refs', pins')
  {
    forall f: Folio
      ensures Members(folioOf, ps + run, f) == Members(folioOf, ps, f) + if f == g then |run| else 0
    {
      Together(folioOf, ps, run, f);
      OneFolio(folioOf, run, g, f);
    }
  }

  /** Taking recorded pages of one folio out of the account: enough is held for them. */
  lemma RunIsHeld(pin: bool, folioOf: Page -> Folio, ps: seq<Page>, rest: seq<Page>, run: seq<Page>, g: Folio,
                  refs: multiset<Folio>, pins: multiset<Folio>)
    requires Owes(pin, folioOf, ps, refs, pins) && (ps == rest + run || ps == run + rest)
    requires forall p :: p in run ==> folioOf(p) == g
    ensures refs[g] >= RefCost(pin, g, |run|) && pins[g] >= PinCost(pin, g, |run|)
    ensures forall f: Folio :: Members(folioOf, ps, f) == Members(folioOf, rest, f) + if f == g then |run| else 0
  {
    forall f: Folio
      ensures Members(folioOf, ps, f) == Members(folioOf, rest, f) + if f == g then |run| else 0
    {
      if ps == rest + run { Together(folioOf, rest, run, f); } else { Together(folioOf, run, rest, f); }
      OneFolio(folioOf, run, g, f);
    }
  }

  lemma RunIsPaid(pin: bool, folioOf: Page -> Folio, ps: seq<Page>, rest: seq<Page>, run: seq<Page>, g: Folio,
                  refs: multiset<Folio>, pins: multiset<Folio>, refs': multiset<Folio>, pins': multiset<Folio>)
    requires Owes(pin, folioOf, ps, refs, pins) && (ps == rest + run || ps == run + rest)
    requires forall p :: p in run ==> folioOf(p) == g
    requires Grabbed(pin, g, |run|, refs', pins', refs, pins)
    ensures Owes(pin, folioOf, rest, refs', pins')
  {
    RunIsHeld(pin, folioOf, ps, rest, run, g, refs, pins);
  }

  // ---------------------------------------------------------------- entries and addresses

  /** The number of the entry over page address a. */
  function EntryOf(a: nat, span: nat): nat
    requires span > 0
  {
    a / span
  }

  /** The first page address behind the entry over addr. */
  function EntryLimit(addr: nat, span: nat): (limit: nat)
    requires span > 0
    ensures limit > addr
  {
    SpanFits(addr, span);
    (addr / span + 1) * span
  }

  lemma SpanFits(addr: nat, span: nat)
    requires span > 0
    ensures addr == addr / span * span + addr % span && addr < (addr / span + 1) * span
  {
    assert (addr / span + 1) * span == addr / span * span + span;
  }

  /** Where the entry of addr ends, or the range. */
  function EntryEnd(addr: nat, end: nat, span: nat): (next: nat)
    requires span > 0 && addr < end
    ensures addr < next <= end && next <= EntryLimit(addr, span)
  {
    if EntryLimit(addr, span) < end then EntryLimit(addr, span) else end
  }

  /** The part of an entry from addr on fits the pages that the entry maps. */
  lemma WithinEntry(addr: nat, end: nat, span: nat)
    requires span > 0 && addr < end <= EntryLimit(addr, span)
    ensures addr % span + (end - addr) <= span
  {
    SpanFits(addr, span);
    assert (addr / span + 1) * span == addr / span * span + span;
  }

  /** Addresses of one entry have its number, and their offsets go up one by one. */
  lemma SameEntry(addr: nat, a: nat, span: nat)
    requires span > 0 && addr <= a < EntryLimit(addr, span)
    ensures EntryOf(a, span) == EntryOf(addr, span) && a % span == addr % span + (a - addr)
  {
    SpanFits(addr, span);
    assert (addr / span + 1) * span == addr / span * span + span;
    ModUnique(addr / span, addr % span + (a - addr), span);
  }

  // ---------------------------------------------------------------- what the walk may see

  /** One page table entry that maps pages, and all that happens around it while it is looked at. */
  datatype Leaf = Leaf(
    pfn: Page, protNone: bool, permitted: bool, writable: bool, special: bool, devmap: bool, p2p: bool,
    raced: seq<Folio>,      // folios that were grabbed while the page was moving to another one
    refOk: bool,            // the folio could be referenced
    pinnable: bool,         // the folio may be pinned for long
    secret: bool,
    changed: bool,          // the entry, or the table it is in, had changed when it was checked again
    pinAllowed: bool,       // no dirty tracking forbids a long pin for writing
    mustUnshare: bool,
    accessible: bool)

  datatype Entry = Absent | Table | Huge(leaf: Leaf)

  /** A page of device memory. */
  datatype DevPage = DevPage(pagemap: bool, p2p: bool, refOk: bool)

  /** entry(level, i) is entry number i of a level from pmd (1) to pgd (4); an entry spans span(level) pages. */
  datatype View = View(entry: (nat, nat) -> Entry, span: nat -> nat, pte: nat -> Leaf, dev: nat -> DevPage)

  datatype Context = Context(fl: Flags, view: View, zero: Page)

  datatype Found = Denied | Granted(page: Page)

  const TOP := 4

  /** p4d entries are never huge, and pgd entries never map devices. */
  ghost predicate Sane(v: View) {
    && (forall level: nat {:trigger v.span(level)} :: v.span(level) > 0)
    && (forall i: nat {:trigger v.entry(3, i)} :: !v.entry(3, i).Huge?)
    && (forall i: nat {:trigger v.entry(4, i)} :: v.entry(4, i).Huge? ==> !v.entry(4, i).leaf.devmap)
  }

  /** The kernel's promise: the pages of a huge entry that is still in place belong to one folio. */
  ghost predicate WholeFolios(c: Context, home: Page -> Folio) {
    && ZeroIsZero(home, c.zero)
    && forall level: nat, i: nat {:trigger c.view.entry(level, i)} ::
      c.view.entry(level, i).Huge? ==> WholeFolio(c.view.entry(level, i).leaf, c.view.span(level), home)
  }

  ghost predicate WholeFolio(l: Leaf, span: nat, home: Page -> Folio) {
    !l.changed && !l.devmap ==> forall p: Page :: l.pfn <= p < l.pfn + span ==> home(p) == home(l.pfn)
  }

  predicate GrabOk(c: Context, l: Leaf, page: Page) {
    && (c.fl.p2pdma || !l.p2p)
    && ((c.fl.pin && page == c.zero) || (l.refOk && !(c.fl.pin && c.fl.longterm && !l.pinnable)))
  }

  predicate PinAllowed(c: Context, l: Leaf) {
    !(c.fl.pin && c.fl.longterm && c.fl.write) || l.pinAllowed
  }

  /** The checks after the grab that every kind of entry has to pass. */
  predicate StillFine(c: Context, l: Leaf) {
    !l.changed && PinAllowed(c, l) && (l.writable || !l.mustUnshare)
  }

  predicate DevOk(c: Context, a: nat) {
    c.view.dev(a).pagemap && (c.fl.p2pdma || !c.view.dev(a).p2p) && c.view.dev(a).refOk
  }

  /** If one page of a folio could be grabbed, so could the others. */
  lemma GrabbedTogether(folioOf: Page -> Folio, c: Context, l: Leaf, page: Page, n: nat)
    requires ZeroIsZero(folioOf, c.zero) && n > 0 && GrabOk(c, l, page)
    requires forall p: Page :: page <= p < page + n ==> folioOf(p) == folioOf(page)
    ensures forall p: Page :: page <= p < page + n ==> GrabOk(c, l, p)
  {
    forall p: Page | page <= p < page + n ensures GrabOk(c, l, p) {
      assert folioOf(p) == folioOf(page);
    }
  }

  function LookPte(c: Context, a: nat): Found {
    var l := c.view.pte(a);
    if && !l.protNone && l.permitted
       && (if l.devmap then !c.fl.longterm && c.view.dev(a).pagemap else !l.special)
       && GrabOk(c, l, l.pfn) && !l.secret && StillFine(c, l) && (c.fl.pin ==> l.accessible)
    then Granted(l.pfn) else Denied
  }

  function LookHuge(c: Context, level: nat, l: Leaf, a: nat): Found
    requires c.view.span(level) > 0
  {
    var page := l.pfn + a % c.view.span(level);
    if && (level == 1 ==> !l.protNone) && l.permitted
       && (if l.devmap then !c.fl.longterm && DevOk(c, a) && !l.changed
           else GrabOk(c, l, page) && StillFine(c, l))
    then Granted(page) else Denied
  }

  /** The page that is mapped at page address a, if it is and passes every check on the way down from level. */
  ghost function Look(c: Context, level: nat, a: nat): Found
    requires Sane(c.view)
  {
    if level == 0 then LookPte(c, a) else
      match c.view.entry(level, EntryOf(a, c.view.span(level)))
      case Absent => Denied
      case Table => Look(c, level - 1, a)
      case Huge(l) => LookHuge(c, level, l, a)
  }

  // ---------------------------------------------------------------- what a recorded page was

  /** The folio of the page is there and may be held as asked. The zero page is never pinned, so it always may. */
  predicate Holdable(c: Context, l: Leaf, page: Page) {
    && (l.p2p ==> c.fl.p2pdma)
    && ((c.fl.pin && page == c.zero) || l.refOk)
    && (c.fl.pin && c.fl.longterm && page != c.zero ==> l.pinnable)
  }

  /**
   The page table entry of a maps the page and gives it: accessible as asked, neither special nor
   secret, the same at the second look, free for a long pin for writing, and writable or exclusive.
   */
  predicate PteGives(c: Context, a: nat, page: Page) {
    var l := c.view.pte(a);
    && page == l.pfn && l.permitted && !l.protNone && !l.changed && !l.secret
    && (if l.devmap then c.view.dev(a).pagemap && !c.fl.longterm else !l.special)
    && Holdable(c, l, page)
    && (c.fl.pin && c.fl.longterm && c.fl.write ==> l.pinAllowed)
    && (l.mustUnshare ==> l.writable)
    && (c.fl.pin ==> l.accessible)
  }

  /** The device page of a is managed, may be used as asked, and could be referenced. */
  predicate DeviceGives(c: Context, a: nat) {
    c.view.dev(a).pagemap && c.view.dev(a).refOk && (c.view.dev(a).p2p ==> c.fl.p2pdma)
  }

  /** The huge entry over a gives the page that lies as far into it as a does. */
  predicate HugeGives(c: Context, level: nat, l: Leaf, a: nat, page: Page)
    requires c.view.span(level) > 0
  {
    && page == l.pfn + a % c.view.span(level) && l.permitted && !l.changed
    && (level == 1 ==> !l.protNone)
    && (if l.devmap then DeviceGives(c, a) && !c.fl.longterm
        else
          && Holdable(c, l, page)
          && (c.fl.pin && c.fl.longterm && c.fl.write ==> l.pinAllowed)
          && (l.mustUnshare ==> l.writable))
  }

  /** From top down to level, the entries over a are tables. */
  ghost predicate TablesAbove(c: Context, top: nat, level: nat, a: nat)
    requires Sane(c.view)
  {
    forall lv: nat :: level < lv <= top ==> c.view.entry(lv, EntryOf(a, c.view.span(lv))).Table?
  }

  /** The entry at the end of the walk for a gives the page. */
  ghost predicate EndGives(c: Context, level: nat, a: nat, page: Page)
    requires Sane(c.view)
  {
    if level == 0 then PteGives(c, a, page)
    else
      var e := c.view.entry(level, EntryOf(a, c.view.span(level)));
      e.Huge? && HugeGives(c, level, e.leaf, a, page)
  }

  /** The page is mapped at a, below the given level, and given. */
  ghost predicate Gives(c: Context, top: nat, a: nat, page: Page)
    requires Sane(c.view)
  {
    exists level: nat :: level <= top && TablesAbove(c, top, level, a) && EndGives(c, level, a, page)
  }

  ghost predicate GivesNone(c: Context, top: nat, a: nat)
    requires Sane(c.view)
  {
    forall page: Page :: !Gives(c, top, a, page)
  }

  ghost predicate HugeGivesNone(c: Context, level: nat, l: Leaf, a: nat)
    requires c.view.span(level) > 0
  {
    forall page: Page :: !HugeGives(c, level, l, a, page)
  }

  lemma PteTells(c: Context, a: nat, page: Page)
    ensures LookPte(c, a) == Granted(page) <==> PteGives(c, a, page)
  {
  }

  lemma HugeTells(c: Context, level: nat, l: Leaf, a: nat, page: Page)
    requires c.view.span(level) > 0
    ensures LookHuge(c, level, l, a) == Granted(page) <==> HugeGives(c, level, l, a, page)
  {
  }

  /** What the walk sees at an address is what the tables and the entries say. */
  lemma {:induction false} LookTells(c: Context, level: nat, a: nat, page: Page)
    requires Sane(c.view)
    ensures Look(c, level, a) == Granted(page) <==> Gives(c, level, a, page)
    decreases level
  {
    if level == 0 {
      PteTells(c, a, page);
      assert TablesAbove(c, 0, 0, a);
      assert EndGives(c, 0, a, page) <==> PteGives(c, a, page);
    } else {
      var e := c.view.entry(level, EntryOf(a, c.view.span(level)));
      if e.Table? {
        LookTells(c, level - 1, a, page);
        BelowTable(c, level, a, page);
      } else {
        if e.Huge? { HugeTells(c, level, e.leaf, a, page); }
        assert TablesAbove(c, level, level, a);
        forall lv: nat | lv < level && TablesAbove(c, level, lv, a) ensures false { }
        assert EndGives(c, level, a, page) <==> e.Huge? && HugeGives(c, level, e.leaf, a, page);
      }
    }
  }

  lemma BelowTable(c: Context, level: nat, a: nat, page: Page)
    requires Sane(c.view) && level > 0 && c.view.entry(level, EntryOf(a, c.view.span(level))).Table?
    ensures Gives(c, level, a, page) <==> Gives(c, level - 1, a, page)
  {
    forall lv: nat | lv < level ensures TablesAbove(c, level, lv, a) <==> TablesAbove(c, level - 1, lv, a) { }
    if Gives(c, level, a, page) {
      var lv: nat :| lv <= level && TablesAbove(c, level, lv, a) && EndGives(c, lv, a, page);
      assert lv != level;
      assert TablesAbove(c, level - 1, lv, a);
    }
    if Gives(c, level - 1, a, page) {
      var lv: nat :| lv <= level - 1 && TablesAbove(c, level - 1, lv, a) && EndGives(c, lv, a, page);
      assert TablesAbove(c, level, lv, a);
    }
  }

  // ---------------------------------------------------------------- the walk

  function More(m: multiset<Folio>, f: Folio, n: nat): multiset<Folio> {
    m[f := m[f] + n]
  }

  function Less(m: multiset<Folio>, f: Folio, n: nat): multiset<Folio>
    requires m[f] >= n
  {
    m[f := m[f] - n]
  }

  class Walk {
    const c: Context
    /** The first page address. */
    const start: nat
    const pages: array<Page>
    /** How many pages are recorded. */
    var nr: nat
    /** References and pins that this walk holds. */
    var refs: multiset<Folio>
    var pins: multiset<Folio>
    /** Which folio each page is in now; others may split a folio that nobody here holds. */
    var folioOf: Page -> Folio
    /** Which folio a page is in from the moment this walk refers to it. */
    const home: Page -> Folio

    constructor (c: Context, start: nat, pages: array<Page>, folioOf: Page -> Folio, home: Page -> Folio)
      requires Sane(c.view) && ZeroIsZero(folioOf, c.zero) && WholeFolios(c, home)
      ensures Valid() && nr == 0 && this.c == c && this.start == start && this.pages == pages && this.home == home
    {
      this.c, this.start, this.pages, this.folioOf, this.home := c, start, pages, folioOf, home;
      nr, refs, pins := 0, multiset{}, multiset{};
    }

    /** The recorded pages are where they were when they were grabbed. */
    ghost predicate AtHome(ps: seq<Page>)
      reads this`folioOf
    {
      forall p :: p in ps ==> folioOf(p) == home(p)
    }

    /** Exactly one grab is held for every recorded page, and nothing else. */
    ghost predicate Valid()
      reads this, pages
    {
      && Sane(c.view) && ZeroIsZero(folioOf, c.zero) && WholeFolios(c, home)
      && nr <= pages.Length && AtHome(pages[..nr]) && Owes(c.fl.pin, folioOf, pages[..nr], refs, pins)
    }

    /** Others run until n pages from page on are about to be referenced: recorded pages stay, and these are at home. */
    method Others(page: Page, n: nat)
      requires ZeroIsZero(home, c.zero) && nr <= pages.Length && AtHome(pages[..nr])
      modifies this`folioOf
      ensures ZeroIsZero(folioOf, c.zero) && AtHome(pages[..nr])
      ensures RecordedStay(c.fl.pin, old(folioOf), folioOf, c.zero, pages[..nr])
      ensures forall p: Page :: page <= p < page + n ==> folioOf(p) == home(p)
    {
      folioOf := home;
    }

    /** References the folio of a page, again and again while the page moves from one folio to another. */
    method TryGetFolio(page: Page, n: nat, l: Leaf) returns (f: Option<Folio>)
      requires Valid() && n > 0
      modifies this`refs, this`folioOf
      ensures ZeroIsZero(folioOf, c.zero) && AtHome(pages[..nr]) && Owes(c.fl.pin, folioOf, pages[..nr], old(refs), pins)
      ensures forall p: Page :: page <= p < page + n ==> folioOf(p) == home(p)
      ensures f.Some? <==> l.refOk
      ensures f.Some? ==> f.value == folioOf(page) && refs == More(old(refs), f.value, n)
      ensures f.None? ==> refs == old(refs)
    {
      var i := 0;
      while i < |l.raced|
        invariant i <= |l.raced| && refs == old(refs) && folioOf == old(folioOf)
      {
        refs := More(refs, l.raced[i], n);
        refs := Less(refs, l.raced[i], n);
        i := i + 1;
      }
      Others(page, n);
      OwesStays(c.fl.pin, old(folioOf), folioOf, c.zero, pages[..nr], old(refs), pins);
      if !l.refOk { return None; }
      f := Some(folioOf(page));
      refs := More(refs, f.value, n);
    }

    /** Turns n references into n pins. */
    method AddPins(g: Folio, n: nat, ghost base: multiset<Folio>)
      requires !g.isZero && refs == More(base, g, n)
      modifies this`refs, this`pins
      ensures Grabbed(true, g, n, base, old(pins), refs, pins)
    {
      if g.large {
        pins := More(pins, g, n);
      } else {
        refs := More(refs, g, n * (PIN_BIAS - 1));
      }
    }

    method TryPinFolio(page: Page, n: nat, l: Leaf) returns (f: Option<Folio>)
      requires Valid() && n > 0 && c.fl.pin && page != c.zero
      modifies this`refs, this`pins, this`folioOf
      ensures ZeroIsZero(folioOf, c.zero) && AtHome(pages[..nr]) && Owes(true, folioOf, pages[..nr], old(refs), old(pins))
      ensures f.Some? ==> forall p: Page :: page <= p < page + n ==> folioOf(p) == home(p)
      ensures f.Some? <==> l.refOk && (c.fl.longterm ==> l.pinnable)
      ensures f.Some? ==> f.value == folioOf(page) && Grabbed(true, f.value, n, old(refs), old(pins), refs, pins)
      ensures f.None? ==> refs == old(refs) && pins == old(pins)
    {
      f := TryGetFolio(page, n, l);
      if f.None? { return; }
      var g := f.value;
      if c.fl.longterm && !l.pinnable {
        refs := Less(refs, g, n);
        return None;
      }
      AddPins(g, n, old(refs));
    }

    /** The zero page is not pinned at all. */
    method PinZero(n: nat) returns (f: Option<Folio>)
      requires Valid() && n > 0 && c.fl.pin
      modifies this`folioOf
      ensures ZeroIsZero(folioOf, c.zero) && AtHome(pages[..nr]) && Owes(true, folioOf, pages[..nr], refs, pins)
      ensures forall p: Page :: c.zero <= p < c.zero + n ==> folioOf(p) == home(p)
      ensures f == Some(folioOf(c.zero)) && f.value.isZero
    {
      Others(c.zero, n);
      OwesStays(true, old(folioOf), folioOf, c.zero, pages[..nr], refs, pins);
      f := Some(folioOf(c.zero));
    }

    method TryGrabFolio(page: Page, n: nat, l: Leaf) returns (f: Option<Folio>)
      requires Valid() && n > 0
      modifies this`refs, this`pins, this`folioOf
      ensures ZeroIsZero(folioOf, c.zero) && AtHome(pages[..nr]) && Owes(c.fl.pin, folioOf, pages[..nr], old(refs), old(pins))
      ensures f.Some? ==> forall p: Page :: page <= p < page + n ==> folioOf(p) == home(p)
      ensures f.Some? <==> GrabOk(c, l, page)
      ensures f.Some? ==> f.value == folioOf(page) && Grabbed(c.fl.pin, f.value, n, old(refs), old(pins), refs, pins)
      ensures f.None? ==> refs == old(refs) && pins == old(pins)
    {
      if !c.fl.p2pdma && l.p2p { return None; }
      if !c.fl.pin {
        f := TryGetFolio(page, n, l);
        if f.Some? { MoreIsGrab(f.value, n, old(refs), pins); }
      } else if page == c.zero {
        f := PinZero(n);
      } else {
        f := TryPinFolio(page, n, l);
      }
    }

    /** Gives back n grabs of a folio. */
    method PutFolio(f: Folio, n: nat)
      requires refs[f] >= RefCost(c.fl.pin, f, n) && pins[f] >= PinCost(c.fl.pin, f, n)
      modifies this`refs, this`pins
      ensures Grabbed(c.fl.pin, f, n, refs, pins, old(refs), old(pins))
    {
      var k := n;
      if c.fl.pin {
        if f.isZero { return; }
        if f.large {
          pins := Less(pins, f, n);
        } else {
          k := n * PIN_BIAS;
        }
      }
      refs := Less(refs, f, k);
    }

    /** Undoes a grab that has not been recorded. */
    method GiveBack(f: Folio, n: nat, ghost base: multiset<Folio>, ghost basePins: multiset<Folio>)
      requires Sane(c.view) && ZeroIsZero(folioOf, c.zero) && WholeFolios(c, home) && nr <= pages.Length && AtHome(pages[..nr])
      requires Owes(c.fl.pin, folioOf, pages[..nr], base, basePins)
      requires Grabbed(c.fl.pin, f, n, base, basePins, refs, pins)
      modifies this`refs, this`pins
      ensures Valid()
    {
      PutFolio(f, n);
    }

    /** Records the pages of a grab, which have been written to the array already. */
    method Commit(n: nat, f: Folio, ghost base: multiset<Folio>, ghost basePins: multiset<Folio>)
      requires Sane(c.view) && ZeroIsZero(folioOf, c.zero) && WholeFolios(c, home) && nr + n <= pages.Length && AtHome(pages[..nr])
      requires Owes(c.fl.pin, folioOf, pages[..nr], base, basePins)
      requires Grabbed(c.fl.pin, f, n, base, basePins, refs, pins)
      requires forall k :: nr <= k < nr + n ==> folioOf(pages[k]) == f == home(pages[k])
      modifies this`nr
      ensures Valid() && nr == old(nr) + n
    {
      ghost var ps, run := pages[..nr], pages[nr..nr + n];
      RunIsOwed(c.fl.pin, folioOf, ps, run, f, base, basePins, refs, pins);
      assert pages[..nr + n] == ps + run;
      assert AtHome(ps + run) by {
        forall p | p in ps + run ensures folioOf(p) == home(p) { assert p in ps || p in run; }
      }
      nr := nr + n;
      assert pages[..nr] == ps + run;
    }

    /** Takes the recorded pages from nrStart on back, last one first. */
    method Undo(nrStart: nat)
      requires Valid() && nrStart <= nr
      modifies this`nr, this`refs, this`pins
      ensures Valid() && nr == nrStart
    {
      while nr > nrStart
        invariant Valid() && nrStart <= nr
        decreases nr
      {
        var f := folioOf(pages[nr - 1]);
        ghost var ps, was, wasPins := pages[..nr], refs, pins;
        assert ps == ps[..nr - 1] + [pages[nr - 1]];
        RunIsHeld(c.fl.pin, folioOf, ps, ps[..nr - 1], [pages[nr - 1]], f, was, wasPins);
        PutFolio(f, 1);
        RunIsPaid(c.fl.pin, folioOf, ps, ps[..nr - 1], [pages[nr - 1]], f, was, wasPins, refs, pins);
        nr := nr - 1;
        assert pages[..nr] == ps[..nr];
      }
    }

    /** The end of the run of pages of one folio that starts at i. */
    method RunEnd(i: nat, f: Folio) returns (j: nat)
      requires i < nr <= pages.Length && folioOf(pages[i]) == f
      ensures i < j <= nr && forall p :: p in pages[i..j] ==> folioOf(p) == f
      ensures j < nr ==> folioOf(pages[j]) != f
    {
      j := i + 1;
      while j < nr && folioOf(pages[j]) == f
        invariant i < j <= nr
        invariant forall k :: i <= k < j ==> folioOf(pages[k]) == f
      {
        j := j + 1;
      }
    }

    /** Takes everything back, run by run: consecutive pages of one folio go together. */
    method UnpinAll()
      requires Valid()
      modifies this`refs, this`pins
      ensures refs == multiset{} && pins == multiset{}
    {
      var i := 0;
      while i < nr
        invariant i <= nr <= pages.Length
        invariant Owes(c.fl.pin, folioOf, pages[i..nr], refs, pins)
      {
        var f := folioOf(pages[i]);
        var j := RunEnd(i, f);
        ghost var was, wasPins := refs, pins;
        ghost var all, run, rest := pages[i..nr], pages[i..j], pages[j..nr];
        assert all == run + rest;
        RunIsHeld(c.fl.pin, folioOf, all, rest, run, f, was, wasPins);
        PutFolio(f, j - i);
        RunIsPaid(c.fl.pin, folioOf, all, rest, run, f, was, wasPins, refs, pins);
        i := j;
      }
      assert pages[i..nr] == [];
      assert forall f: Folio :: refs[f] == 0 && pins[f] == 0;
    }

    /** The pages recorded from index from on are the ones mapped there. */
    ghost predicate Recorded(level: nat, from: nat)
      requires Sane(c.view) && nr <= pages.Length
      reads this, pages
    {
      forall k :: from <= k < nr ==> Look(c, level, start + k) == Granted(pages[k])
    }

    /** A page of the rest, up to end, cannot be had. */
    ghost predicate Blocked(level: nat, end: nat)
      requires Sane(c.view)
      reads this
    {
      start + nr < end && exists a: nat :: start + nr <= a < end && Look(c, level, a) == Denied
    }

    /** One page of a page table; pages from nrStart on came from the same table. */
    method GupPte(a: nat, nrStart: nat) returns (ok: bool)
      requires Valid() && nrStart <= nr < pages.Length
      modifies this`nr, this`refs, this`pins, this`folioOf, pages
      ensures Valid() && (ok <==> PteGives(c, a, c.view.pte(a).pfn)) && (ok <==> Look(c, 0, a) != Denied)
      ensures ok ==> nr == old(nr) + 1 && PteGives(c, a, pages[old(nr)]) && Look(c, 0, a) == Granted(pages[old(nr)])
      ensures !ok ==> nrStart <= nr <= old(nr)
      ensures forall k :: 0 <= k < old(nr) ==> pages[k] == old(pages[k])
    {
      var l := c.view.pte(a);
      PteTells(c, a, l.pfn);
      if l.protNone { return false; }
      if !l.permitted { return false; }
      if l.devmap {
        if c.fl.longterm { return false; }
        if !c.view.dev(a).pagemap {
          Undo(nrStart);
          return false;
        }
      } else if l.special { return false; }
      ghost var base, basePins := refs, pins;
      var folio := TryGrabFolio(l.pfn, 1, l);
      if folio.None? { return false; }
      if l.secret || l.changed || !PinAllowed(c, l) || (!l.writable && l.mustUnshare) || (c.fl.pin && !l.accessible) {
        GiveBack(folio.value, 1, base, basePins);
        return false;
      }
      ghost var ps := pages[..nr];
      pages[nr] := l.pfn;
      assert pages[..nr] == ps;
      Commit(1, folio.value, base, basePins);
      return true;
    }

    method GupRecorded(a: nat, nrStart: nat) returns (ok: bool)
      requires Valid() && nrStart <= nr < pages.Length && a == start + nr && Recorded(0, nrStart)
      modifies this`nr, this`refs, this`pins, this`folioOf, pages
      ensures Valid() && Recorded(0, nrStart) && (ok <==> Look(c, 0, a) != Denied)
      ensures if ok then nr == old(nr) + 1 else nrStart <= nr <= old(nr)
      ensures forall k :: 0 <= k < nrStart ==> pages[k] == old(pages[k])
    {
      ghost var before := nr;
      ok := GupPte(a, nrStart);
      forall k | nrStart <= k < nr ensures Look(c, 0, start + k) == Granted(pages[k]) {
        assert k < before ==> pages[k] == old(pages[k]);
      }
    }

    method GupPteRange(addr: nat, end: nat) returns (ok: bool)
      requires Valid() && start <= addr < end && nr == addr - start && end - start <= pages.Length
      modifies this`nr, this`refs, this`pins, this`folioOf, pages
      ensures Valid() && old(nr) <= nr && Recorded(0, old(nr))
      ensures forall k :: 0 <= k < old(nr) ==> pages[k] == old(pages[k])
      ensures if ok then nr == end - start else Blocked(0, end)
    {
      var nrStart, a := nr, addr;
      while true
        invariant Valid() && addr <= a < end && nr == a - start && Recorded(0, nrStart)
        invariant forall k :: 0 <= k < nrStart ==> pages[k] == old(pages[k])
        decreases end - a
      {
        ok := GupRecorded(a, nrStart);
        if !ok {
          assert Look(c, 0, a) == Denied;
          return;
        }
        a := a + 1;
        if a == end { return; }
      }
    }

    /** One grab of a folio that is known to be there. */
    method Take(f: Folio)
      modifies this`refs, this`pins
      ensures Grabbed(c.fl.pin, f, 1, old(refs), old(pins), refs, pins)
    {
      if !c.fl.pin {
        refs := More(refs, f, 1);
      } else if !f.isZero {
        if f.large {
          refs := More(refs, f, 1);
          pins := More(pins, f, 1);
        } else {
          refs := More(refs, f, PIN_BIAS);
        }
      }
    }

    /** One page of device memory; pages from nrStart on came from the same entry. */
    method GupDevicePage(a: nat, page: Page, nrStart: nat) returns (ok: bool)
      requires Valid() && nrStart <= nr < pages.Length
      modifies this`nr, this`refs, this`pins, this`folioOf, pages
      ensures Valid() && (ok <==> DevOk(c, a))
      ensures nr == if ok then old(nr) + 1 else nrStart
      ensures ok ==> pages[old(nr)] == page
      ensures forall k :: 0 <= k < old(nr) ==> pages[k] == old(pages[k])
    {
      var d := c.view.dev(a);
      if !d.pagemap || (!c.fl.p2pdma && d.p2p) {
        Undo(nrStart);
        return false;
      }
      ghost var ps := pages[..nr];
      pages[nr] := page;
      assert pages[..nr] == ps;
      Others(page, 1);
      OwesStays(c.fl.pin, old(folioOf), folioOf, c.zero, pages[..nr], refs, pins);
      if !d.refOk {
        Undo(nrStart);
        return false;
      }
      ghost var base, basePins := refs, pins;
      Take(folioOf(page));
      Commit(1, folioOf(page), base, basePins);
      return true;
    }

    /** Device memory mapped by one huge entry: page by page, all or nothing. */
    method GupDeviceHuge(pfn: Page, addr: nat, end: nat) returns (ok: bool)
      requires Valid() && start <= addr < end && nr == addr - start && end - start <= pages.Length
      modifies this`nr, this`refs, this`pins, this`folioOf, pages
      ensures Valid() && nr == if ok then end - start else old(nr)
      ensures !ok ==> exists a: nat :: addr <= a < end && !DevOk(c, a)
      ensures forall k :: 0 <= k < old(nr) ==> pages[k] == old(pages[k])
      ensures ok ==> forall b: nat :: addr <= b < end ==> DevOk(c, b)
      ensures ok ==> forall k :: old(nr) <= k < nr ==> pages[k] == pfn + (k - old(nr))
    {
      var nrStart, a, page := nr, addr, pfn;
      while true
        invariant Valid() && addr <= a < end && nr == a - start && page == pfn + (a - addr)
        invariant forall b: nat :: addr <= b < a ==> DevOk(c, b)
        invariant forall k :: nrStart <= k < nr ==> pages[k] == pfn + (k - nrStart)
        invariant forall k :: 0 <= k < nrStart ==> pages[k] == old(pages[k])
        decreases end - a
      {
        ok := GupDevicePage(a, page, nrStart);
        assert ok <==> DevOk(c, a);
        if !ok { return; }
        page := page + 1;
        a := a + 1;
        if a == end { return; }
      }
    }

    /** Writes n consecutive pages behind the recorded ones. */
    method RecordSubpages(page: Page, n: nat)
      requires nr + n <= pages.Length
      modifies pages
      ensures forall k :: 0 <= k < nr ==> pages[k] == old(pages[k])
      ensures forall k :: nr <= k < nr + n ==> pages[k] == page + (k - nr)
    {
      var i := 0;
      while i < n
        invariant i <= n
        invariant forall k :: 0 <= k < nr ==> pages[k] == old(pages[k])
        invariant forall k :: nr <= k < nr + i ==> pages[k] == page + (k - nr)
      {
        pages[nr + i] := page + i;
        i := i + 1;
      }
    }

    /** A huge entry: one grab for all of its pages, or page by page where it maps a device. */
    method GupHuge(level: nat, l: Leaf, addr: nat, end: nat) returns (ok: bool)
      requires Valid() && start <= addr < end && nr == addr - start && end - start <= pages.Length
      requires c.view.span(level) > 0 && end <= EntryLimit(addr, c.view.span(level))
      requires (level == 1 ==> !l.protNone) && WholeFolio(l, c.view.span(level), home)
      modifies this`nr, this`refs, this`pins, this`folioOf, pages
      ensures Valid() && nr == if ok then end - start else old(nr)
      ensures forall k :: 0 <= k < old(nr) ==> pages[k] == old(pages[k])
      ensures ok ==> forall k :: old(nr) <= k < nr ==> HugeGives(c, level, l, start + k, pages[k])
      ensures !ok ==> exists a: nat :: addr <= a < end && HugeGivesNone(c, level, l, a)
      ensures ok ==> forall k :: old(nr) <= k < nr ==> LookHuge(c, level, l, start + k) == Granted(pages[k])
      ensures !ok ==> exists a: nat :: addr <= a < end && LookHuge(c, level, l, a) == Denied
    {
      ok := GupHugeEntry(level, l, addr, end);
      forall k | old(nr) <= k < nr && ok ensures HugeGives(c, level, l, start + k, pages[k]) {
        HugeTells(c, level, l, start + k, pages[k]);
      }
      if !ok {
        ghost var a: nat :| addr <= a < end && LookHuge(c, level, l, a) == Denied;
        forall page: Page ensures !HugeGives(c, level, l, a, page) { HugeTells(c, level, l, a, page); }
        assert HugeGivesNone(c, level, l, a);
      }
    }

    method GupHugeEntry(level: nat, l: Leaf, addr: nat, end: nat) returns (ok: bool)
      requires Valid() && start <= addr < end && nr == addr - start && end - start <= pages.Length
      requires c.view.span(level) > 0 && end <= EntryLimit(addr, c.view.span(level))
      requires (level == 1 ==> !l.protNone) && WholeFolio(l, c.view.span(level), home)
      modifies this`nr, this`refs, this`pins, this`folioOf, pages
      ensures Valid() && nr == if ok then end - start else old(nr)
      ensures forall k :: 0 <= k < old(nr) ==> pages[k] == old(pages[k])
      ensures ok ==> forall k :: old(nr) <= k < nr ==> LookHuge(c, level, l, start + k) == Granted(pages[k])
      ensures !ok ==> exists a: nat :: addr <= a < end && LookHuge(c, level, l, a) == Denied
    {
      var span := c.view.span(level);
      forall a: nat | addr <= a < end ensures a % span == addr % span + (a - addr) { SameEntry(addr, a, span); }
      if !l.permitted || (l.devmap && c.fl.longterm) {
        assert LookHuge(c, level, l, addr) == Denied;
        return false;
      }
      var page, nrStart := l.pfn + addr % span, nr;
      if l.devmap {
        ok := GupDeviceHuge(page, addr, end);
        if !ok {
          ghost var a: nat :| addr <= a < end && !DevOk(c, a);
          assert LookHuge(c, level, l, a) == Denied;
          return;
        }
        if l.changed {
          Undo(nrStart);
          assert LookHuge(c, level, l, addr) == Denied;
          return false;
        }
        return true;
      }
      WithinEntry(addr, end, span);
      ok := GupHugeFolio(l, page, end - addr);
      assert ok || LookHuge(c, level, l, addr) == Denied;
    }

    /** n consecutive pages of one folio, by a single grab. */
    method GupHugeFolio(l: Leaf, page: Page, n: nat) returns (ok: bool)
      requires Valid() && n > 0 && nr + n <= pages.Length
      requires !l.changed ==> forall p: Page :: page <= p < page + n ==> home(p) == home(page)
      modifies this`nr, this`refs, this`pins, this`folioOf, pages
      ensures Valid() && nr == old(nr) + if ok then n else 0
      ensures forall k :: 0 <= k < old(nr) ==> pages[k] == old(pages[k])
      ensures ok ==> forall k :: old(nr) <= k < nr ==> pages[k] == page + (k - old(nr))
      ensures ok ==> StillFine(c, l) && forall p: Page :: page <= p < page + n ==> GrabOk(c, l, p)
      ensures !ok ==> !GrabOk(c, l, page) || !StillFine(c, l)
    {
      ghost var ps := pages[..nr];
      RecordSubpages(page, n);
      assert pages[..nr] == ps;
      ghost var base, basePins := refs, pins;
      var folio := TryGrabFolio(page, n, l);
      if folio.None? { return false; }
      ok := CheckHuge(l, page, n, folio.value, base, basePins);
      if ok { GrabbedTogether(folioOf, c, l, page, n); }
    }

    /** Keeps the grab of a huge entry if all is still as it was, or gives it back. */
    method CheckHuge(l: Leaf, page: Page, n: nat, f: Folio, ghost base: multiset<Folio>, ghost basePins: multiset<Folio>)
      returns (ok: bool)
      requires Sane(c.view) && ZeroIsZero(folioOf, c.zero) && WholeFolios(c, home) && nr + n <= pages.Length && AtHome(pages[..nr])
      requires Owes(c.fl.pin, folioOf, pages[..nr], base, basePins)
      requires Grabbed(c.fl.pin, f, n, base, basePins, refs, pins)
      requires forall k :: nr <= k < nr + n ==> pages[k] == page + (k - nr)
      requires !l.changed ==> forall p: Page :: page <= p < page + n ==> folioOf(p) == f == home(p)
      modifies this`nr, this`refs, this`pins
      ensures Valid() && nr == old(nr) + if ok then n else 0
      ensures ok <==> StillFine(c, l)
    {
      if l.changed {
        GiveBack(f, n, base, basePins);
        return false;
      }
      if !PinAllowed(c, l) {
        GiveBack(f, n, base, basePins);
        return false;
      }
      if !l.writable && l.mustUnshare {
        GiveBack(f, n, base, basePins);
        return false;
      }
      Commit(n, f, base, basePins);
      return true;
    }

    /** Within one entry, what is seen from its level is what the entry shows. */
    ghost predicate Shows(level: nat, e: Entry, a: nat)
      requires Sane(c.view) && level >= 1
    {
      match e
      case Absent => Look(c, level, a) == Denied
      case Table => Look(c, level, a) == Look(c, level - 1, a)
      case Huge(l) => Look(c, level, a) == LookHuge(c, level, l, a)
    }

    lemma EntryShows(level: nat, addr: nat, a: nat)
      requires Sane(c.view) && level >= 1 && addr <= a < EntryLimit(addr, c.view.span(level))
      ensures Shows(level, c.view.entry(level, EntryOf(addr, c.view.span(level))), a)
    {
      SameEntry(addr, a, c.view.span(level));
    }

    /** What the tables below show counts for the level above. */
    lemma TableLifts(level: nat, addr: nat, end: nat, from: nat)
      requires Sane(c.view) && level >= 1 && nr <= pages.Length && start <= addr <= start + from && start + nr <= end
      requires forall a: nat :: addr <= a < end ==> Shows(level, Table, a)
      requires Recorded(level - 1, from)
      ensures Recorded(level, from)
      ensures addr <= start + nr && Blocked(level - 1, end) ==> Blocked(level, end)
    {
      forall k | from <= k < nr ensures Look(c, level, start + k) == Granted(pages[k]) {
        assert Shows(level, Table, start + k);
      }
      if addr <= start + nr && Blocked(level - 1, end) {
        var a: nat :| start + nr <= a < end && Look(c, level - 1, a) == Denied;
        assert Shows(level, Table, a);
      }
    }

    lemma HugeLifts(level: nat, l: Leaf, addr: nat, end: nat, from: nat)
      requires Sane(c.view) && level >= 1 && nr <= pages.Length && start <= addr <= start + from && start + nr <= end
      requires forall a: nat :: addr <= a < end ==> Shows(level, Huge(l), a)
      requires forall k :: from <= k < nr ==> LookHuge(c, level, l, start + k) == Granted(pages[k])
      ensures Recorded(level, from)
      ensures addr == start + nr < end && (exists a: nat :: addr <= a < end && LookHuge(c, level, l, a) == Denied) ==>
        Blocked(level, end)
    {
      forall k | from <= k < nr ensures Look(c, level, start + k) == Granted(pages[k]) {
        assert Shows(level, Huge(l), start + k);
      }
      if exists a: nat :: addr <= a < end && LookHuge(c, level, l, a) == Denied {
        var a: nat :| addr <= a < end && LookHuge(c, level, l, a) == Denied;
        assert Shows(level, Huge(l), a);
      }
    }

    /** The part of the range under one entry: nothing, a huge page, or the tables below. */
    method GupEntry(level: nat, addr: nat, end: nat) returns (ok: bool)
      requires Valid() && 1 <= level <= TOP
      requires start <= addr < end && nr == addr - start && end - start <= pages.Length
      requires end <= EntryLimit(addr, c.view.span(level))
      modifies this`nr, this`refs, this`pins, this`folioOf, pages
      ensures Valid() && old(nr) <= nr && Recorded(level, old(nr))
      ensures forall k :: 0 <= k < old(nr) ==> pages[k] == old(pages[k])
      ensures if ok then nr == end - start else Blocked(level, end)
      decreases level, 0
    {
      ghost var from := nr;
      var e := c.view.entry(level, EntryOf(addr, c.view.span(level)));
      forall a: nat | addr <= a < end ensures Shows(level, e, a) { EntryShows(level, addr, a); }
      match e {
        case Absent =>
          assert Shows(level, e, addr);
          return false;
        case Table =>
          if level == 1 { ok := GupPteRange(addr, end); } else { ok := GupRange(level - 1, addr, end); }
          TableLifts(level, addr, end, from);
        case Huge(l) =>
          if level == 1 && l.protNone {
            assert Shows(level, e, addr);
            return false;
          }
          ok := GupHuge(level, l, addr, end);
          HugeLifts(level, l, addr, end, from);
      }
    }

    /** One level of the page tables, from pmd up to pgd: entry after entry, up to the first that fails. */
    method GupRange(level: nat, addr: nat, end: nat) returns (ok: bool)
      requires Valid() && 1 <= level <= TOP
      requires start <= addr < end && nr == addr - start && end - start <= pages.Length
      modifies this`nr, this`refs, this`pins, this`folioOf, pages
      ensures Valid() && old(nr) <= nr && Recorded(level, old(nr))
      ensures forall k :: 0 <= k < old(nr) ==> pages[k] == old(pages[k])
      ensures if ok then nr == end - start else Blocked(level, end)
      decreases level, 1
    {
      var a := addr;
      ghost var nrStart := nr;
      while true
        invariant Valid() && addr <= a < end && nr == a - start && Recorded(level, nrStart)
        invariant forall k :: 0 <= k < nrStart ==> pages[k] == old(pages[k])
        decreases end - a
      {
        var next := EntryEnd(a, end, c.view.span(level));
        ok := GupEntry(level, a, next);
        if !ok { return; }
        a := next;
        if a == end { return; }
      }
    }

    /**
     The pages from start to end, as many as can be had without locks. A pin is taken back as a whole
     when a fork has write-protected pages meanwhile: writing says that it is under way at the start,
     retry that one has happened by the end.
     */
    method LocklessPages(end: nat, permitted: bool, writing: bool, retry: bool) returns (n: nat)
      requires Valid() && nr == 0 && start < end && end - start <= pages.Length
      modifies this`nr, this`refs, this`pins, this`folioOf, pages
      ensures n <= end - start
      ensures Owes(c.fl.pin, folioOf, pages[..n], refs, pins)
      ensures forall k :: 0 <= k < n ==> Gives(c, TOP, start + k, pages[k])
      ensures !permitted || (c.fl.pin && (writing || retry)) ==> n == 0
      ensures permitted && !(c.fl.pin && (writing || retry)) && n < end - start ==>
        exists a: nat :: start + n <= a < end && GivesNone(c, TOP, a)
    {
      if !permitted { return 0; }
      if c.fl.pin && writing { return 0; }
      var _ := GupRange(TOP, start, end);
      if c.fl.pin && retry {
        UnpinAll();
        return 0;
      }
      WalkTells(end);
      return nr;
    }

    lemma WalkTells(end: nat)
      requires Sane(c.view) && nr <= pages.Length && Recorded(TOP, 0)
      ensures forall k :: 0 <= k < nr ==> Gives(c, TOP, start + k, pages[k])
      ensures Blocked(TOP, end) ==> exists a: nat :: start + nr <= a < end && GivesNone(c, TOP, a)
    {
      forall k | 0 <= k < nr ensures Gives(c, TOP, start + k, pages[k]) { LookTells(c, TOP, start + k, pages[k]); }
      if Blocked(TOP, end) {
        var a: nat :| start + nr <= a < end && Look(c, TOP, a) == Denied;
        forall page: Page ensures !Gives(c, TOP, a, page) { LookTells(c, TOP, a, page); }
        assert GivesNone(c, TOP, a);
      }
    }
  }
}
