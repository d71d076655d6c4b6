/** The chunk map after a used chunk is given back: it becomes free and swallows its free neighbours. */
module HeapRelease {
  import opened HeapLayout
  import opened HeapShapes

  predicate FreeAfter(chunks: Chunks, arenas: Arenas, a: int) {
    a in chunks && !IsLast(chunks, arenas, a) && End(chunks, a) in chunks && !chunks[End(chunks, a)].used
  }

  predicate FreeBefore(chunks: Chunks, a: int) {
    a in chunks && a != chunks[a].base && chunks[a].prev in chunks && !chunks[chunks[a].prev].used
  }

  /** Chunk `a` together with the chunk after it, if that is free. */
  function Absorb(chunks: Chunks, arenas: Arenas, a: int): Chunks {
    if FreeAfter(chunks, arenas, a) then Merge(chunks, a) else chunks
  }

  function Released(chunks: Chunks, arenas: Arenas, c: int): Chunks
    requires c in chunks
  {
    var m := Absorb(SetUsed(chunks, c, false), arenas, c);
    var p := chunks[c].prev;
    if FreeBefore(chunks, c) && p in m && End(m, p) in m then Merge(m, p) else m
  }

  /** Where the released chunk starts and ends. */
  function ReleasedStart(chunks: Chunks, c: int): int
    requires c in chunks
  {
    if FreeBefore(chunks, c) then chunks[c].prev else c
  }

  function ReleasedEnd(chunks: Chunks, arenas: Arenas, c: int): int
    requires c in chunks
  {
    if FreeAfter(chunks, arenas, c) then End(chunks, End(chunks, c)) else End(chunks, c)
  }

  /** The chunk at `x` before is the chunk at `x` after, up to which chunk it follows. */
  predicate Same(chunks: Chunks, r: Chunks, x: int) {
    && x in chunks && x in r && r[x].size == chunks[x].size && r[x].used == chunks[x].used
    && r[x].base == chunks[x].base
  }

  lemma MergeEffect(chunks: Chunks, arenas: Arenas, a: int)
    requires Tiling(chunks, arenas) && a in chunks && !IsLast(chunks, arenas, a)
    ensures var b := End(chunks, a); b in chunks && b != a && PrecededBy(chunks, b, a)
    ensures var b, r := End(chunks, a), Merge(chunks, a);
            && Tiling(r, arenas)
            && a in r && r[a].used == chunks[a].used && r[a].base == chunks[a].base && r[a].prev == chunks[a].prev
            && End(r, a) == End(chunks, b) && b !in r
            && (forall x | x in chunks && x != a && x != b :: Same(chunks, r, x))
            && (forall x | x in r :: x in chunks)
  {
    MergeTiles(chunks, arenas, a);
    Neighbours(chunks, arenas, a);
  }

  /** Everything about the released map, chunk by chunk. */
  lemma ReleaseEffect(chunks: Chunks, arenas: Arenas, c: int)
    requires Tiling(chunks, arenas) && c in chunks
    ensures var r, f := Released(chunks, arenas, c), ReleasedStart(chunks, c);
            && Tiling(r, arenas)
            && f in r && !r[f].used && r[f].base == chunks[c].base && End(r, f) == ReleasedEnd(chunks, arenas, c)
            && (forall x | x in chunks && x != c && x != f && !(FreeAfter(chunks, arenas, c) && x == End(chunks, c)) ::
                Same(chunks, r, x))
            && (forall x | x in r ::
                x in chunks && (x == f || (x != c && !(FreeAfter(chunks, arenas, c) && x == End(chunks, c)))))
  {
    var s := SetUsed(chunks, c, false);
    SetUsedTiles(chunks, arenas, c, false);
    Neighbours(chunks, arenas, c);
    var m := Absorb(s, arenas, c);
    assert IsLast(s, arenas, c) == IsLast(chunks, arenas, c);
    assert FreeAfter(s, arenas, c) == FreeAfter(chunks, arenas, c);
    if FreeAfter(s, arenas, c) { MergeEffect(s, arenas, c); }
    assert Tiling(m, arenas) && End(m, c) == ReleasedEnd(chunks, arenas, c);
    if FreeBefore(chunks, c) {
      var p := chunks[c].prev;
      assert PrecededBy(chunks, c, p);
      assert Fits(chunks, arenas, c) && Fits(chunks, arenas, p);
      assert Same(chunks, m, p);
      MergeEffect(m, arenas, p);
    }
  }

  lemma ReleaseCoalesces(chunks: Chunks, arenas: Arenas, c: int)
    requires Tiling(chunks, arenas) && Coalesced(chunks, arenas) && c in chunks && chunks[c].used
    ensures Coalesced(Released(chunks, arenas, c), arenas)
  {
    var r, f := Released(chunks, arenas, c), ReleasedStart(chunks, c);
    ReleaseEffect(chunks, arenas, c);
    Neighbours(chunks, arenas, c);
    forall x | x in r ensures CoalescedAt(r, arenas, x) {
      if x == f {
        if FreeAfter(chunks, arenas, c) {
          assert CoalescedAt(chunks, arenas, End(chunks, c));
          Neighbours(chunks, arenas, End(chunks, c));
        }
      } else {
        assert Same(chunks, r, x) && CoalescedAt(chunks, arenas, x);
        Neighbours(chunks, arenas, x);
      }
    }
  }

  /** The released chunk is a whole arena. */
  predicate Whole(chunks: Chunks, arenas: Arenas, c: int)
    requires c in chunks
  {
    var f := ReleasedStart(chunks, c);
    f == chunks[c].base && ReleasedEnd(chunks, arenas, c) == ArenaEnd(arenas, f)
  }

  /** `c` is the only used chunk of its arena. */
  ghost predicate OnlyUsed(chunks: Chunks, c: int) {
    c in chunks && forall x | x in chunks && chunks[x].used && chunks[x].base == chunks[c].base :: x == c
  }

  lemma ReleaseOccupied(chunks: Chunks, arenas: Arenas, c: int, g: int)
    requires Tiling(chunks, arenas) && NoEmptyArena(chunks, arenas) && c in chunks && g in arenas
    requires g == chunks[c].base ==> !Whole(chunks, arenas, c)
    ensures Occupied(Released(chunks, arenas, c), arenas, g)
  {
    var r, f := Released(chunks, arenas, c), ReleasedStart(chunks, c);
    ReleaseEffect(chunks, arenas, c);
    Neighbours(chunks, arenas, c);
    assert ArenaFits(chunks, arenas, g) && Occupied(chunks, arenas, g);
    assert g != f ==> Same(chunks, r, g);
  }

  /** The arena goes away exactly when the chunk given back was the last used one in it. */
  lemma WholeMeansOnlyUsed(chunks: Chunks, arenas: Arenas, c: int)
    requires Tiling(chunks, arenas) && Coalesced(chunks, arenas) && c in chunks && chunks[c].used
    ensures Whole(chunks, arenas, c) <==> OnlyUsed(chunks, c)
  {
    var r, f := Released(chunks, arenas, c), ReleasedStart(chunks, c);
    ReleaseEffect(chunks, arenas, c);
    Neighbours(chunks, arenas, c);
    if Whole(chunks, arenas, c) {
      forall x | x in chunks && chunks[x].used && chunks[x].base == chunks[c].base ensures x == c {
        if x != c {
          assert Same(chunks, r, x) && Fits(r, arenas, x);
          ExtentsApart(r, arenas, x, f);
        }
      }
    } else if f != chunks[c].base {
      if FreeBefore(chunks, c) {
        Neighbours(chunks, arenas, f);
        assert CoalescedAt(chunks, arenas, chunks[f].prev);
      }
    } else if FreeAfter(chunks, arenas, c) {
      assert CoalescedAt(chunks, arenas, End(chunks, c));
      Neighbours(chunks, arenas, End(chunks, c));
    }
  }
}
