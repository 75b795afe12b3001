/**
 * The chunk table of src/world/worldmap.c: a growable array of chunks with a count and
 * a capacity, searched linearly by chunk coordinates.
 *
 * The C table stores Chunk structs by value and hands out pointers into the array; here
 * the array holds Chunk references, so a pointer's later invalidation by realloc or
 * memmove is not modelled. Lookups compare the startX/startZ fields only.
 */
module WorldMap {
  import opened WorldTypes

  /** An entry is the chunk stored for coordinates (x, z). */
  predicate Holds(c: Chunk?, x: int, z: int) {
    c != null && c.startX == x && c.startZ == z
  }

  /** The position of the first entry for (x, z), or |s| when there is none. */
  function FirstIndex(s: seq<Chunk?>, x: int, z: int): (i: int)
    ensures 0 <= i <= |s|
    ensures i < |s| ==> Holds(s[i], x, z)
    ensures forall j :: 0 <= j < i ==> !Holds(s[j], x, z)
  {
    if |s| == 0 then 0
    else if Holds(s[0], x, z) then 0
    else 1 + FirstIndex(s[1..], x, z)
  }

  /** The sequence without its entry at position i, the others keeping their order. */
  function RemoveAtIndex(s: seq<Chunk?>, i: int): (r: seq<Chunk?>)
    requires 0 <= i < |s|
    ensures |r| == |s| - 1
    ensures forall j :: 0 <= j < i ==> r[j] == s[j]
    ensures forall j :: i <= j < |r| ==> r[j] == s[j + 1]
    ensures multiset(r) + multiset{s[i]} == multiset(s)
  {
    assert s == s[..i] + [s[i]] + s[i + 1..];
    s[..i] + s[i + 1..]
  }

  /** A search of a concatenation looks in the second part only if the first has no match. */
  lemma {:induction false} FirstIndexAppend(a: seq<Chunk?>, b: seq<Chunk?>, x: int, z: int)
    ensures FirstIndex(a + b, x, z)
         == if FirstIndex(a, x, z) < |a| then FirstIndex(a, x, z) else |a| + FirstIndex(b, x, z)
  {
    if |a| == 0 {
      assert a + b == b;
    } else if !Holds(a[0], x, z) {
      FirstIndexAppend(a[1..], b, x, z);
      assert (a + b)[1..] == a[1..] + b;
    }
  }

  // ---------------------------------------------------------------------------
  // Growth (chunktable_insertAt, src/world/worldmap.c:43-48)
  // ---------------------------------------------------------------------------

  /** The new capacity as written, (S32)((F32)n * 1.5f): n + n/2 for positive sizes. */
  function GrowAsWritten(n: int): int
    requires n > 0
  {
    n + n / 2
  }

  /**
   * At capacity 1 the written growth leaves the capacity at 1, so the next insert into
   * a full one-entry table writes entry 1 of a one-entry array.
   */
  lemma GrowthStallsAtOne()
    ensures GrowAsWritten(1) == 1
    ensures !(1 < GrowAsWritten(1))
  {
  }

  /** From capacity 2 on the written growth does make room. */
  lemma GrowAsWrittenFromTwo(n: int)
    requires n >= 2
    ensures n < GrowAsWritten(n) && 2 * GrowAsWritten(n) <= 3 * n
  {
  }

  /** The growth the table uses: at least one more slot, and 1.5x from capacity 2 on. */
  function Grow(n: int): (r: int)
    requires n > 0
    ensures r > n
    ensures n >= 2 ==> r == GrowAsWritten(n)
  {
    if n < 2 then n + 1 else GrowAsWritten(n)
  }

  /** The memmove of chunktable_removeAt: entries i+1..n-1 move down one slot. */
  method ShiftDown(a: array<Chunk?>, i: int, n: int)
    requires 0 <= i < n <= a.Length
    modifies a
    ensures a[..n - 1] == RemoveAtIndex(old(a[..n]), i)
    ensures a[n - 1..] == old(a[n - 1..])
  {
    ghost var s := a[..n];
    var k := i;
    while k < n - 1
      invariant i <= k <= n - 1
      invariant forall j :: 0 <= j < i ==> a[j] == s[j]
      invariant forall j :: i <= j < k ==> a[j] == s[j + 1]
      invariant forall j :: k <= j < a.Length ==> a[j] == old(a[j])
    {
      a[k] := a[k + 1];
      k := k + 1;
    }
    ghost var r := RemoveAtIndex(s, i);
    assert forall j :: 0 <= j < n - 1 ==> a[j] == r[j];
    assert a[..n - 1] == r;
  }

  // ---------------------------------------------------------------------------
  // The table
  // ---------------------------------------------------------------------------

  class ChunkTable {
    var count: int
    var tableSize: int
    var chunkTable: array<Chunk?>

    /** count <= tableSize == the array's length, and the first count slots are filled. */
    ghost predicate Valid()
      reads this, chunkTable
    {
      && 0 < tableSize == chunkTable.Length
      && 0 <= count <= tableSize
      && (forall i :: 0 <= i < count ==> chunkTable[i] != null)
    }

    /** The stored chunks, in array order. */
    ghost function Entries(): (s: seq<Chunk?>)
      requires Valid()
      reads this, chunkTable
      ensures |s| == count
      ensures forall i :: 0 <= i < count ==> s[i] == chunkTable[i] && s[i] != null
    {
      chunkTable[..count]
    }

    /** chunktable_create: an empty table with room for tblSize chunks. */
    constructor (tblSize: int)
      requires tblSize > 0
      ensures Valid() && fresh(chunkTable)
      ensures count == 0 && tableSize == tblSize && Entries() == []
    {
      count := 0;
      tableSize := tblSize;
      chunkTable := new Chunk?[tblSize](_ => null);
    }

    /**
     * chunktable_insertAt: append a zeroed chunk at (x, z), growing a full table first.
     * Earlier entries stay where they are; duplicates are not rejected.
     */
    method InsertAt(x: int, z: int)
      requires Valid()
      modifies this, chunkTable
      ensures Valid()
      ensures count == old(count) + 1
      ensures tableSize == if old(count) == old(tableSize) then Grow(old(tableSize)) else old(tableSize)
      ensures Entries()[..old(count)] == old(Entries())
      ensures var c := Entries()[old(count)];
                c != null && fresh(c) && c.startX == x && c.startZ == z && c.Valid()
                && (forall i :: 0 <= i < c.cubeData.Length ==> c.cubeData[i] == ZeroCube)
                && (forall s, k :: 0 <= s < |c.lightMap| && 0 <= k < c.lightMap[s].Length ==> c.lightMap[s][k] == ZeroLight)
                && (forall s :: 0 <= s < |c.renderChunks| ==> c.renderChunks[s].State() == EmptyMesh)
    {
      if count == tableSize {
        var sz := Grow(tableSize);
        var bigger := new Chunk?[sz](_ => null);
        var i := 0;
        while i < count
          invariant 0 <= i <= count
          invariant forall j :: 0 <= j < i ==> bigger[j] == chunkTable[j]
          modifies bigger
        {
          bigger[i] := chunkTable[i];
          i := i + 1;
        }
        chunkTable := bigger;
        tableSize := sz;
      }
      var index := count;
      count := count + 1;
      var chunk := new Chunk(x, z);
      chunkTable[index] := chunk;
    }

    /**
     * chunktable_removeAt: drop the first entry for (x, z) and shift the tail down by
     * one. The entry must exist: the C code asserts when it does not.
     */
    method RemoveAt(x: int, z: int)
      requires Valid() && FirstIndex(Entries(), x, z) < count
      modifies this, chunkTable
      ensures Valid() && chunkTable == old(chunkTable) && tableSize == old(tableSize)
      ensures count == old(count) - 1
      ensures Entries() == RemoveAtIndex(old(Entries()), FirstIndex(old(Entries()), x, z))
    {
      var i := 0;
      while i < count
        invariant 0 <= i <= FirstIndex(Entries(), x, z)
      {
        var c := chunkTable[i];
        if c != null && c.startX == x && c.startZ == z {
          RemoveEntry(i);
          return;
        }
        i := i + 1;
      }
      assert false;
    }

    /** The memmove and count decrement of chunktable_removeAt, for the entry at i. */
    method RemoveEntry(i: int)
      requires Valid() && 0 <= i < count
      modifies this, chunkTable
      ensures Valid() && chunkTable == old(chunkTable) && tableSize == old(tableSize)
      ensures count == old(count) - 1
      ensures Entries() == RemoveAtIndex(old(Entries()), i)
    {
      ghost var s := Entries();
      ShiftDown(chunkTable, i, count);
      count := count - 1;
      ghost var r := RemoveAtIndex(s, i);
      assert chunkTable[..count] == r;
      forall j | 0 <= j < count
        ensures chunkTable[j] != null
      {
        assert chunkTable[j] == r[j];
      }
    }

    /** chunktable_getAt: the first entry for (x, z), or null when there is none. */
    method GetAt(x: int, z: int) returns (c: Chunk?)
      requires Valid()
      ensures c == null <==> FirstIndex(Entries(), x, z) == count
      ensures c != null ==> c == Entries()[FirstIndex(Entries(), x, z)] && Holds(c, x, z)
    {
      var i := 0;
      while i < count
        invariant 0 <= i <= FirstIndex(Entries(), x, z)
      {
        var candidate := chunkTable[i];
        if candidate != null && candidate.startX == x && candidate.startZ == z {
          return candidate;
        }
        i := i + 1;
      }
      return null;
    }

    /** chunktable_foreach: the callback's arguments, in the order it receives them. */
    method Foreach() returns (visited: seq<Chunk?>)
      requires Valid()
      ensures visited == Entries()
    {
      visited := [];
      var i := 0;
      while i < count
        invariant 0 <= i <= count && visited == chunkTable[..i]
      {
        visited := visited + [chunkTable[i]];
        i := i + 1;
      }
    }
  }

  // ---------------------------------------------------------------------------
  // Properties relating the operations
  // ---------------------------------------------------------------------------

  /** Inserting a new key and removing it again restores the entries; the key is then absent. */
  lemma InsertThenRemove(s: seq<Chunk?>, c: Chunk, x: int, z: int)
    requires FirstIndex(s, x, z) == |s| && Holds(c, x, z)
    ensures FirstIndex(s + [c], x, z) == |s|
    ensures RemoveAtIndex(s + [c], |s|) == s
    ensures FirstIndex(RemoveAtIndex(s + [c], |s|), x, z) == |s|
  {
    FirstIndexAppend(s, [c], x, z);
    assert (s + [c])[..|s|] == s;
  }

  /** An inserted duplicate is shadowed: lookups keep finding the earlier entry. */
  lemma InsertDuplicateShadowed(s: seq<Chunk?>, c: Chunk, x: int, z: int)
    requires FirstIndex(s, x, z) < |s|
    ensures FirstIndex(s + [c], x, z) == FirstIndex(s, x, z)
  {
    FirstIndexAppend(s, [c], x, z);
  }

  /**
   * Dropping an entry e that does not match (x', z') from between a and b: the lookup
   * of (x', z') finds the same entry, one position earlier when it lies in b.
   */
  lemma DropNonMatch(a: seq<Chunk?>, e: Chunk?, b: seq<Chunk?>, x': int, z': int)
    requires !Holds(e, x', z')
    ensures FirstIndex(a + b, x', z')
         == if FirstIndex(a, x', z') < |a| then FirstIndex(a, x', z') else |a| + FirstIndex(b, x', z')
    ensures FirstIndex(a + [e] + b, x', z')
         == if FirstIndex(a, x', z') < |a| then FirstIndex(a, x', z') else |a| + 1 + FirstIndex(b, x', z')
  {
    FirstIndexAppend(a, b, x', z');
    FirstIndexAppend([e], b, x', z');
    FirstIndexAppend(a, [e] + b, x', z');
    assert a + [e] + b == a + ([e] + b);
  }

  /** Removing the entry for one key leaves every other key's lookup result unchanged. */
  lemma RemoveKeepsOtherLookups(s: seq<Chunk?>, x: int, z: int, x': int, z': int)
    requires FirstIndex(s, x, z) < |s| && (x, z) != (x', z')
    ensures var r := RemoveAtIndex(s, FirstIndex(s, x, z));
            var i := FirstIndex(s, x', z');
            var j := FirstIndex(r, x', z');
            (i == |s|) == (j == |r|) && (i < |s| ==> r[j] == s[i])
  {
    var k := FirstIndex(s, x, z);
    var a, b := s[..k], s[k + 1..];
    assert s == a + [s[k]] + b;
    assert RemoveAtIndex(s, k) == a + b;
    assert !Holds(s[k], x', z');
    DropNonMatch(a, s[k], b, x', z');
    var fa, fb := FirstIndex(a, x', z'), FirstIndex(b, x', z');
    if fa < |a| {
      assert (a + b)[fa] == s[fa];
    } else if fb < |b| {
      assert (a + b)[|a| + fb] == s[|a| + 1 + fb];
    }
  }
}
