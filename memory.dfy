/**
  The arena allocator (src/memory.c, src/memory.h).

  A `MemoryArena` is a record of a capacity `size`, a base pointer `base` and
  a bump counter `used`. `push_memory` checks the capacity with an `assert`,
  hands out `base + used` and bumps `used` by the request.

  `base` is declared `u64 *`, so the C expression `base + used` is pointer
  arithmetic in units of eight bytes while `used` and `size` count bytes. The
  model keeps that as written: a push returns a `U64Ptr` (a base and an index
  in u64 units), and `ByteAddress` says which byte it designates.
 */
module Memory {

  /** The pointer `base + index` for a `u64 *` base: element `index` of the
      u64 array starting at byte address `base`. */
  datatype U64Ptr = U64Ptr(base: nat, index: nat)

  /** Byte address of a u64 pointer: each index step is eight bytes. */
  function ByteAddress(p: U64Ptr): (a: nat)
    ensures a >= p.base
    ensures a - p.base == 8 * p.index
  {
    p.base + 8 * p.index
  }

  /** One allocation: its offset `used` at the time of the push and the size requested. */
  datatype Span = Span(offset: nat, length: nat)

  function End(s: Span): nat {
    s.offset + s.length
  }

  /** The spans are laid end to end from 0 and the last one ends at `used`. */
  ghost predicate Tiled(spans: seq<Span>, used: nat)
    decreases |spans|
  {
    if |spans| == 0 then used == 0
    else
      var last := spans[|spans| - 1];
      End(last) == used && Tiled(spans[..|spans| - 1], last.offset)
  }

  /** Tiled spans are increasing, pairwise disjoint and lie inside [0, used). */
  lemma {:induction false} TiledDisjoint(spans: seq<Span>, used: nat)
    requires Tiled(spans, used)
    ensures forall i :: 0 <= i < |spans| ==> End(spans[i]) <= used
    ensures forall i, j :: 0 <= i < j < |spans| ==> End(spans[i]) <= spans[j].offset
    decreases |spans|
  {
    if |spans| > 0 {
      var n := |spans| - 1;
      var init := spans[..n];
      TiledDisjoint(init, spans[n].offset);
      assert forall i :: 0 <= i < n ==> spans[i] == init[i];
    }
  }

  /** Appending the next push keeps the spans tiled. */
  lemma TiledPush(spans: seq<Span>, used: nat, size: nat)
    requires Tiled(spans, used)
    ensures Tiled(spans + [Span(used, size)], used + size)
  {
    assert (spans + [Span(used, size)])[..|spans|] == spans;
  }

  /** MemoryArena (src/memory.h:4-8). `spans` records every push since the
      last `alloc_arena`; it is not part of the C record. */
  class Arena {
    var size: nat
    var base: nat
    var used: nat
    ghost var spans: seq<Span>

    ghost predicate Valid()
      reads this
    {
      used <= size && Tiled(spans, used)
    }

    /** A zero-initialised record. */
    constructor ()
      ensures Valid()
      ensures size == 0 && base == 0 && used == 0 && spans == []
    {
      size, base, used := 0, 0, 0;
      spans := [];
    }

    /** alloc_arena (src/memory.c:3-8). */
    method AllocArena(size': nat, base': nat)
      modifies this
      ensures Valid()
      ensures size == size' && base == base' && used == 0 && spans == []
    {
      size, base, used := size', base', 0;
      spans := [];
    }

    /** push_memory (src/memory.c:10-16). The C `assert` is the precondition. */
    method Push(n: nat) returns (result: U64Ptr)
      requires Valid()
      requires used + n <= size
      modifies this
      ensures Valid()
      ensures result == U64Ptr(base, old(used))
      ensures used == old(used) + n
      ensures size == old(size) && base == old(base)
      ensures spans == old(spans) + [Span(old(used), n)]
    {
      result := U64Ptr(base, used);
      TiledPush(spans, used, n);
      spans := spans + [Span(used, n)];
      used := used + n;
    }

    /** push_struct (src/memory.h:10): a push of `sizeof(type)` bytes. */
    method PushStruct(typeSize: nat) returns (result: U64Ptr)
      requires Valid()
      requires used + typeSize <= size
      modifies this
      ensures Valid()
      ensures result == U64Ptr(base, old(used))
      ensures used == old(used) + typeSize
      ensures size == old(size) && base == old(base)
      ensures spans == old(spans) + [Span(old(used), typeSize)]
    {
      result := Push(typeSize);
    }

    /** push_array (src/memory.h:11): a push of `count * sizeof(type)` bytes. */
    method PushArray(count: nat, typeSize: nat) returns (result: U64Ptr)
      requires Valid()
      requires used + count * typeSize <= size
      modifies this
      ensures Valid()
      ensures result == U64Ptr(base, old(used))
      ensures used == old(used) + count * typeSize
      ensures size == old(size) && base == old(base)
      ensures spans == old(spans) + [Span(old(used), count * typeSize)]
    {
      result := Push(count * typeSize);
    }
  }

  /** The offsets handed out since `alloc_arena` are increasing and their
      spans are disjoint and inside the arena. */
  lemma PushesDisjoint(a: Arena)
    requires a.Valid()
    ensures forall i :: 0 <= i < |a.spans| ==> End(a.spans[i]) <= a.used <= a.size
    ensures forall i, j :: 0 <= i < j < |a.spans| ==>
      a.spans[i].offset + a.spans[i].length <= a.spans[j].offset
  {
    TiledDisjoint(a.spans, a.used);
  }

  /** On an arena of 100 units, pushes of 40 and 40 succeed at offsets 0 and
      40, and a third push of 40 fails the capacity assertion with `used`
      still 80. The second result designates byte `base + 320`, so the 40
      bytes it hands out lie wholly beyond the arena's bytes
      `[base, base + 100)`. */
  method Scenario(base: nat) returns (first: U64Ptr, second: U64Ptr, usedAfter: nat, thirdFits: bool)
    ensures first == U64Ptr(base, 0) && second == U64Ptr(base, 40)
    ensures ByteAddress(second) == base + 320
    ensures ByteAddress(second) >= base + 100
    ensures usedAfter == 80 && !thirdFits
  {
    var arena := new Arena();
    arena.AllocArena(100, base);
    first := arena.Push(40);
    second := arena.Push(40);
    usedAfter := arena.used;
    thirdFits := arena.used + 40 <= arena.size;
  }
}
