/** How the chunk map changes when chunks are split, merged, claimed and released, and why it keeps
    tiling the arenas. */
module HeapShapes {
  import opened HeapLayout

  /** Chunk `a` cut so that its first part keeps `n` user bytes and the rest becomes a free chunk. */
  function Split(chunks: Chunks, a: int, n: int): Chunks
    requires a in chunks
  {
    var ch := chunks[a];
    var second := a + OVERHEAD + n;
    Repoint(chunks, End(chunks, a), second)
      [a := ch.(size := n)]
      [second := Chunk(ch.size - n - OVERHEAD, false, ch.base, a)]
  }

  /** The chunk at `e`, if there is one, now follows `p`. */
  function Repoint(chunks: Chunks, e: int, p: int): Chunks {
    if e in chunks && e != chunks[e].base then chunks[e := chunks[e].(prev := p)] else chunks
  }

  /** Chunk `a` swallows the chunk right after it. */
  function Merge(chunks: Chunks, a: int): Chunks
    requires a in chunks && End(chunks, a) in chunks
  {
    var b := End(chunks, a);
    (Repoint(chunks, End(chunks, b), a) - {b})[a := chunks[a].(size := chunks[a].size + OVERHEAD + chunks[b].size)]
  }

  function SetUsed(chunks: Chunks, a: int, used: bool): Chunks
    requires a in chunks
  {
    chunks[a := chunks[a].(used := used)]
  }

  lemma SplitTiles(chunks: Chunks, arenas: Arenas, a: int, n: int)
    requires Tiling(chunks, arenas) && a in chunks
    requires n >= LINKS && n % 16 == 0 && chunks[a].size - n >= OVERHEAD + LINKS
    ensures Tiling(Split(chunks, a, n), arenas)
  {
    var r := Split(chunks, a, n);
    var d, e := a + OVERHEAD + n, End(chunks, a);
    assert Fits(chunks, arenas, a);
    assert d !in chunks by { if d in chunks { ExtentsApart(chunks, arenas, a, d); } }
    forall x | x in chunks && x != a ensures End(chunks, x) <= a || e <= x {
      ExtentsApart(chunks, arenas, a, x);
    }
    forall x | x in r ensures Fits(r, arenas, x) {
      SplitFits(chunks, arenas, a, n, x);
    }
    forall x, y | x in r && y in r ensures Ordered(r, x, y) {
      if x < y { SplitApart(chunks, arenas, a, n, x, y); }
    }
    forall g | g in arenas ensures ArenaFits(r, arenas, g) { assert ArenaFits(chunks, arenas, g); }
  }

  /** The two neighbours of a chunk, named. */
  lemma Neighbours(chunks: Chunks, arenas: Arenas, x: int)
    requires Tiling(chunks, arenas) && x in chunks
    ensures Fits(chunks, arenas, x)
    ensures x != chunks[x].base ==> PrecededBy(chunks, x, chunks[x].prev)
    ensures !IsLast(chunks, arenas, x) ==> PrecededBy(chunks, End(chunks, x), x)
  {
    assert Fits(chunks, arenas, x);
  }

  /** A chunk that starts where `a` ends, and is not the first of its arena, follows `a`. */
  lemma Follows(chunks: Chunks, arenas: Arenas, a: int, x: int)
    requires Tiling(chunks, arenas) && a in chunks && x in chunks && End(chunks, a) == x && x != chunks[x].base
    ensures PrecededBy(chunks, x, a)
  {
    Neighbours(chunks, arenas, x);
    var p := chunks[x].prev;
    assert p == a by { if p != a { ExtentsApart(chunks, arenas, p, a); } }
  }

  lemma SplitFits(chunks: Chunks, arenas: Arenas, a: int, n: int, x: int)
    requires Tiling(chunks, arenas) && a in chunks
    requires n >= LINKS && n % 16 == 0 && chunks[a].size - n >= OVERHEAD + LINKS
    requires a + OVERHEAD + n !in chunks && x in Split(chunks, a, n)
    ensures Fits(Split(chunks, a, n), arenas, x)
  {
    var r := Split(chunks, a, n);
    var d, e := a + OVERHEAD + n, End(chunks, a);
    Neighbours(chunks, arenas, a);
    if x == a {
      assert PrecededBy(r, d, a);
      if a != chunks[a].base { assert PrecededBy(r, a, chunks[a].prev); }
    } else if x == d {
      assert PrecededBy(r, d, a);
      if !IsLast(chunks, arenas, a) { assert PrecededBy(r, e, d); }
    } else {
      Neighbours(chunks, arenas, x);
      ExtentsApart(chunks, arenas, a, x);
      if x != chunks[x].base {
        if x == e {
          Follows(chunks, arenas, a, x);
          assert PrecededBy(r, e, d);
        } else {
          assert PrecededBy(r, x, chunks[x].prev);
        }
      }
      if !IsLast(chunks, arenas, x) { assert PrecededBy(r, End(chunks, x), x); }
    }
  }

  lemma SplitApart(chunks: Chunks, arenas: Arenas, a: int, n: int, x: int, y: int)
    requires Tiling(chunks, arenas) && a in chunks
    requires n >= LINKS && chunks[a].size - n >= OVERHEAD + LINKS
    requires a + OVERHEAD + n !in chunks
    requires x in Split(chunks, a, n) && y in Split(chunks, a, n) && x < y
    ensures End(Split(chunks, a, n), x) <= y
  {
    if x in chunks && y in chunks { assert Ordered(chunks, x, y); }
    if x in chunks && x != a { ExtentsApart(chunks, arenas, a, x); }
    if y in chunks && y != a { ExtentsApart(chunks, arenas, a, y); }
  }

  lemma MergeTiles(chunks: Chunks, arenas: Arenas, a: int)
    requires Tiling(chunks, arenas) && a in chunks && !IsLast(chunks, arenas, a)
    ensures End(chunks, a) in chunks && Tiling(Merge(chunks, a), arenas)
  {
    assert Fits(chunks, arenas, a);
    var b := End(chunks, a);
    assert PrecededBy(chunks, b, a);
    assert Fits(chunks, arenas, b);
    var r := Merge(chunks, a);
    forall x | x in r ensures Fits(r, arenas, x) { MergeFits(chunks, arenas, a, x); }
    forall x, y | x in r && y in r ensures Ordered(r, x, y) {
      assert Ordered(chunks, x, y);
      if x == a && y != a { ExtentsApart(chunks, arenas, b, y); }
    }
    forall g | g in arenas ensures ArenaFits(r, arenas, g) { assert ArenaFits(chunks, arenas, g); }
  }

  lemma MergeFits(chunks: Chunks, arenas: Arenas, a: int, x: int)
    requires Tiling(chunks, arenas) && a in chunks && PrecededBy(chunks, End(chunks, a), a)
    requires x in Merge(chunks, a)
    ensures Fits(Merge(chunks, a), arenas, x)
  {
    var r := Merge(chunks, a);
    var b := End(chunks, a);
    Neighbours(chunks, arenas, a);
    Neighbours(chunks, arenas, b);
    if x == a {
      if a != chunks[a].base { assert PrecededBy(r, a, chunks[a].prev); }
      if !IsLast(chunks, arenas, b) { assert PrecededBy(r, End(chunks, b), a); }
    } else {
      Neighbours(chunks, arenas, x);
      ExtentsApart(chunks, arenas, a, x);
      ExtentsApart(chunks, arenas, b, x);
      if x != chunks[x].base {
        if x == End(chunks, b) {
          Follows(chunks, arenas, b, x);
          assert PrecededBy(r, x, a);
        } else {
          assert PrecededBy(r, x, chunks[x].prev);
        }
      }
      if !IsLast(chunks, arenas, x) { assert PrecededBy(r, End(chunks, x), x); }
    }
  }

  lemma SetUsedTiles(chunks: Chunks, arenas: Arenas, a: int, used: bool)
    requires Tiling(chunks, arenas) && a in chunks
    ensures Tiling(SetUsed(chunks, a, used), arenas)
  {
    var r := SetUsed(chunks, a, used);
    forall x | x in r ensures Fits(r, arenas, x) {
      assert Fits(chunks, arenas, x);
      if x != chunks[x].base { assert PrecededBy(chunks, x, chunks[x].prev); }
      if !IsLast(chunks, arenas, x) { assert PrecededBy(chunks, End(chunks, x), x); }
    }
    forall x, y | x in r && y in r ensures Ordered(r, x, y) { assert Ordered(chunks, x, y); }
    forall g | g in arenas ensures ArenaFits(r, arenas, g) { assert ArenaFits(chunks, arenas, g); }
  }

  lemma PageAligned(b: int)
    requires b % HEAP_PAGE == 0
    ensures b % 16 == 0 && (b - OVERHEAD) % 16 == 0
  {
    assert b == 16 * (256 * (b / HEAP_PAGE)) && b - OVERHEAD == 16 * (256 * (b / HEAP_PAGE) - 3);
  }

  /** A chunk fits its surroundings whatever happens in other arenas. */
  lemma FitsElsewhere(chunks: Chunks, arenas: Arenas, r: Chunks, s: Arenas, x: int)
    requires Tiling(chunks, arenas) && x in chunks
    requires forall y | y in chunks :: y in r && r[y] == chunks[y]
    requires forall g | g in arenas :: g in s && s[g] == arenas[g]
    ensures Fits(r, s, x)
  {
    Neighbours(chunks, arenas, x);
    if x != chunks[x].base { assert PrecededBy(r, x, chunks[x].prev); }
    if !IsLast(chunks, arenas, x) { assert PrecededBy(r, End(chunks, x), x); }
  }

  /** A freshly mapped region becomes one used chunk. */
  lemma NewArenaTiles(chunks: Chunks, arenas: Arenas, b: int, len: int)
    requires Tiling(chunks, arenas) && b > 0 && b % HEAP_PAGE == 0 && len % HEAP_PAGE == 0 && len >= OVERHEAD + LINKS
    requires forall g | g in arenas :: ArenaEnd(arenas, g) <= b || b + len <= g
    ensures b !in chunks
    ensures Tiling(chunks[b := Chunk(len - OVERHEAD, true, b, 0)], arenas[b := len])
  {
    var r, s := chunks[b := Chunk(len - OVERHEAD, true, b, 0)], arenas[b := len];
    forall x | x in chunks ensures End(chunks, x) <= b || b + len <= x { assert Fits(chunks, arenas, x); }
    forall x | x in chunks ensures x != b { assert Fits(chunks, arenas, x); }
    forall g | g in arenas ensures g != b { assert ArenaFits(chunks, arenas, g); }
    forall x | x in r ensures Fits(r, s, x) {
      if x != b { FitsElsewhere(chunks, arenas, r, s, x); } else { PageAligned(b); PageAligned(len); }
    }
    forall x, y | x in r && y in r ensures Ordered(r, x, y) {
      assert x != b && y != b ==> Ordered(chunks, x, y);
    }
    forall g | g in s ensures ArenaFits(r, s, g) { assert g != b ==> ArenaFits(chunks, arenas, g); }
    forall g, d | g in s && d in s ensures ArenasOrdered(s, g, d) {
      assert g != b && d != b ==> ArenasOrdered(arenas, g, d);
    }
  }

  /** Taking away an arena that is a single chunk. */
  lemma DropArenaTiles(chunks: Chunks, arenas: Arenas, b: int)
    requires Tiling(chunks, arenas) && b in arenas && IsLast(chunks, arenas, b)
    ensures Tiling(chunks - {b}, arenas - {b})
    ensures forall x | x in chunks && x != b :: End(chunks, x) <= b || ArenaEnd(arenas, b) <= x
  {
    var r, s := chunks - {b}, arenas - {b};
    assert ArenaFits(chunks, arenas, b);
    forall x | x in chunks && x != b ensures chunks[x].base != b {
      assert Fits(chunks, arenas, x);
      ExtentsApart(chunks, arenas, b, x);
    }
    forall x | x in r ensures Fits(r, s, x) {
      assert Fits(chunks, arenas, x);
      if x != chunks[x].base { assert PrecededBy(chunks, x, chunks[x].prev); }
      if !IsLast(chunks, arenas, x) { assert PrecededBy(chunks, End(chunks, x), x); }
    }
    forall x, y | x in r && y in r ensures Ordered(r, x, y) { assert Ordered(chunks, x, y); }
    forall g | g in s ensures ArenaFits(r, s, g) { assert ArenaFits(chunks, arenas, g); }
    forall g, d | g in s && d in s ensures ArenasOrdered(s, g, d) { assert ArenasOrdered(arenas, g, d); }
    forall x | x in chunks && x != b ensures End(chunks, x) <= b || ArenaEnd(arenas, b) <= x {
      ExtentsApart(chunks, arenas, b, x);
    }
  }
}
