/** The growable array behind the log: it refines appending to a sequence. */
module LogTable {
  import opened KsmTypes

  const GROW_FACTOR := 2
  const FIRST_CAPACITY := 1024

  class LogTable {
    var entries: array<LogEntry>
    var cnt: nat

    ghost predicate Valid()
      reads this, entries
    {
      0 < entries.Length && cnt <= entries.Length
    }

    ghost function Contents(): seq<LogEntry>
      requires Valid()
      reads this, entries
    {
      entries[..cnt]
    }

    constructor (blank: LogEntry)
      ensures Valid() && Contents() == [] && entries.Length == FIRST_CAPACITY && fresh(entries)
    {
      entries := new LogEntry[FIRST_CAPACITY](_ => blank);
      cnt := 0;
    }

    /** realloc: a table of twice the size with the same entries in front. */
    method Grow(blank: LogEntry)
      requires Valid()
      modifies this`entries
      ensures Valid() && Contents() == old(Contents()) && cnt == old(cnt)
      ensures entries.Length == GROW_FACTOR * old(entries.Length) && fresh(entries)
    {
      var bigger := new LogEntry[GROW_FACTOR * entries.Length](_ => blank);
      var i := 0;
      while i < cnt
        invariant 0 <= i <= cnt <= entries.Length == old(entries.Length)
        invariant entries == old(entries) && entries[..] == old(entries[..])
        invariant bigger[..i] == entries[..i]
      {
        bigger[i] := entries[i];
        i := i + 1;
      }
      entries := bigger;
    }

    /** The entry is appended, unless the table is full and cannot grow: then it is dropped. */
    method Insert(e: LogEntry, memory: bool)
      requires Valid()
      modifies this, entries
      ensures Valid() && (entries == old(entries) || fresh(entries))
      ensures old(cnt) < old(entries.Length) || memory ==> Contents() == old(Contents()) + [e]
      ensures old(cnt) >= old(entries.Length) && !memory ==> Contents() == old(Contents()) && entries == old(entries)
      ensures entries.Length == (if old(cnt) >= old(entries.Length) && memory then GROW_FACTOR * old(entries.Length) else old(entries.Length))
    {
      if cnt >= entries.Length {
        if !memory { return; }
        Grow(e);
      }
      entries[cnt] := e;
      cnt := cnt + 1;
    }

    method Clear(blank: LogEntry)
      requires Valid()
      modifies this`cnt, entries
      ensures Valid() && Contents() == []
    {
      var i := 0;
      while i < entries.Length
        invariant 0 <= i <= entries.Length
        invariant cnt == old(cnt)
      {
        entries[i] := blank;
        i := i + 1;
      }
      cnt := 0;
    }
  }

  /** With memory to grow, any run of insertions after a clear leaves exactly the inserted entries, in order. */
  method InsertAll(t: LogTable, es: seq<LogEntry>)
    requires t.Valid()
    modifies t, t.entries
    ensures t.Valid() && t.Contents() == old(t.Contents()) + es
    ensures t.entries == old(t.entries) || fresh(t.entries)
  {
    for i := 0 to |es|
      invariant t.Valid() && t.Contents() == old(t.Contents()) + es[..i]
      invariant t.entries == old(t.entries) || fresh(t.entries)
    {
      t.Insert(es[i], true);
    }
  }
}
