/** Giving a whole arena back, and the free list and live blocks once a chunk is released. */
module HeapUnmap {
  import opened HeapLayout
  import opened HeapShapes
  import opened HeapFrames
  import opened HeapRelease
  import opened HeapJoin
  import opened FreeList

  /** Memory without the span [lo, hi). */
  function Unmapped(mem: Memory, lo: int, hi: int): Memory {
    map w | w in mem && !(lo <= w < hi) :: mem[w]
  }

  /** The blocks callers hold: header address to user size. */
  function Live(chunks: Chunks): map<int, int> {
    map a | a in chunks && chunks[a].used :: chunks[a].size
  }

  predicate InBlock(chunks: Chunks, c: int, w: int) {
    c in Live(chunks) && c + HEADER <= w < c + HEADER + Live(chunks)[c]
  }

  /** Memory after callers have written to their blocks, and nowhere else. */
  ghost predicate ClientWrites(mem: Memory, mem': Memory, chunks: Chunks) {
    mem'.Keys == mem.Keys && forall w | w in mem && mem'[w] != mem[w] :: exists c :: InBlock(chunks, c, w)
  }

  /** No tag and no link lies in the user area of a block. */
  lemma BlocksHoldNoTag(chunks: Chunks, arenas: Arenas, c: int, x: int, w: int)
    requires Tiling(chunks, arenas) && InBlock(chunks, c, w) && x in chunks
    ensures w < x + HEADER ==> w < x
    ensures x + HEADER + chunks[x].size <= w ==> End(chunks, x) <= w
    ensures !chunks[x].used ==> w < x || End(chunks, x) <= w
  {
    if x != c { ExtentsApart(chunks, arenas, x, c); }
  }

  lemma BlockMapped(mem: Memory, hc: nat, fc: nat, chunks: Chunks, arenas: Arenas, c: int, w: int)
    requires Sound(mem, hc, fc, chunks, arenas) && InBlock(chunks, c, w)
    ensures w in mem
  {
    assert Fits(chunks, arenas, c);
    assert InArena(arenas, chunks[c].base, w);
  }

  lemma HeaderMapped(mem: Memory, hc: nat, fc: nat, chunks: Chunks, arenas: Arenas, c: int)
    requires Sound(mem, hc, fc, chunks, arenas) && c in chunks
    ensures c in mem && c + 24 in mem && InArena(arenas, chunks[c].base, c)
  {
    assert Fits(chunks, arenas, c);
    assert InArena(arenas, chunks[c].base, c) && InArena(arenas, chunks[c].base, c + 24);
  }

  /** Whatever callers write into their own blocks, the tags and the free list survive. */
  lemma ClientWritesKeep(mem: Memory, mem': Memory, hc: nat, fc: nat, chunks: Chunks, arenas: Arenas, head: int,
                         list: seq<int>)
    requires Sound(mem, hc, fc, chunks, arenas) && Threaded(mem, hc, head, list) && AllFree(list, chunks)
    requires ClientWrites(mem, mem', chunks)
    ensures Sound(mem', hc, fc, chunks, arenas) && Threaded(mem', hc, head, list)
  {
    forall w, x | w in mem && mem'[w] != mem[w] && x in chunks
      ensures w < x + HEADER ==> w < x
      ensures x + HEADER + chunks[x].size <= w ==> End(chunks, x) <= w
      ensures !chunks[x].used ==> w < x || End(chunks, x) <= w
    {
      var c :| InBlock(chunks, c, w);
      BlocksHoldNoTag(chunks, arenas, c, x, w);
    }
    forall x | x in chunks ensures TaggedAt(mem', hc, fc, chunks, arenas, x) {
      assert TaggedAt(mem, hc, fc, chunks, arenas, x) && Fits(chunks, arenas, x);
    }
    forall x | x in list ensures CanaryOk(mem', hc, x) && SameLinks(mem, mem', x) {
      var i :| 0 <= i < |list| && list[i] == x;
      assert CanaryOk(mem, hc, x) && LinkedAt(mem, list, i) && Fits(chunks, arenas, x);
    }
    ThreadKept(mem, mem', hc, head, list);
  }

  lemma UnmapSound(mem: Memory, hc: nat, fc: nat, chunks: Chunks, arenas: Arenas, f: int)
    requires Sound(mem, hc, fc, chunks, arenas) && f in arenas && IsLast(chunks, arenas, f)
    ensures Sound(Unmapped(mem, f, ArenaEnd(arenas, f)), hc, fc, chunks - {f}, arenas - {f})
  {
    var mem', r, s := Unmapped(mem, f, ArenaEnd(arenas, f)), chunks - {f}, arenas - {f};
    DropArenaTiles(chunks, arenas, f);
    assert ArenaFits(chunks, arenas, f);
    forall x | x in r ensures TaggedAt(mem', hc, fc, r, s, x) {
      assert TaggedAt(mem, hc, fc, chunks, arenas, x);
      assert Fits(chunks, arenas, x) && Fits(r, s, x);
    }
    forall b, w | InArena(s, b, w) ensures w in mem' {
      assert InArena(arenas, b, w) && ArenasOrdered(arenas, b, f) && ArenasOrdered(arenas, f, b);
    }
  }

  lemma UnmapKeepsThread(mem: Memory, hc: nat, fc: nat, chunks: Chunks, arenas: Arenas, f: int, head: int,
                         list: seq<int>)
    requires Sound(mem, hc, fc, chunks, arenas) && f in arenas && IsLast(chunks, arenas, f)
    requires Threaded(mem, hc, head, list) && AllFree(list, chunks - {f})
    ensures Threaded(Unmapped(mem, f, ArenaEnd(arenas, f)), hc, head, list)
  {
    var mem' := Unmapped(mem, f, ArenaEnd(arenas, f));
    DropArenaTiles(chunks, arenas, f);
    forall x | x in list ensures CanaryOk(mem', hc, x) && SameLinks(mem, mem', x) {
      assert CanaryOk(mem, hc, x) && Fits(chunks, arenas, x);
      var i :| 0 <= i < |list| && list[i] == x;
      assert LinkedAt(mem, list, i);
    }
    ThreadKept(mem, mem', hc, head, list);
  }

  /** The chunk map once `c` is released and, if nothing else in its arena is used, the arena unmapped. */
  function Freed(chunks: Chunks, arenas: Arenas, c: int): Chunks
    requires c in chunks
  {
    if Whole(chunks, arenas, c) then Released(chunks, arenas, c) - {chunks[c].base} else Released(chunks, arenas, c)
  }

  function FreedArenas(chunks: Chunks, arenas: Arenas, c: int): Arenas
    requires c in chunks
  {
    if Whole(chunks, arenas, c) then arenas - {chunks[c].base} else arenas
  }

  /** The members of the free list once `c` is released. */
  predicate ListedAfter(chunks: Chunks, arenas: Arenas, c: int, list: seq<int>, x: int)
    requires c in chunks
  {
    if x == ReleasedStart(chunks, c) then !Whole(chunks, arenas, c)
    else x in list && !(FreeAfter(chunks, arenas, c) && x == End(chunks, c))
  }

  lemma FreedList(chunks: Chunks, arenas: Arenas, c: int, list: seq<int>, list': seq<int>)
    requires Tiling(chunks, arenas) && c in chunks && chunks[c].used && AllFree(list, chunks) && Complete(list, chunks)
    requires forall x :: x in list' <==> ListedAfter(chunks, arenas, c, list, x)
    ensures AllFree(list', Freed(chunks, arenas, c)) && Complete(list', Freed(chunks, arenas, c))
    ensures Live(Freed(chunks, arenas, c)) == Live(chunks) - {c}
  {
    var r, r' := Released(chunks, arenas, c), Freed(chunks, arenas, c);
    ReleaseEffect(chunks, arenas, c);
    forall x | x in list' ensures x in r' && !r'[x].used {
      if x != ReleasedStart(chunks, c) { assert Same(chunks, r, x); }
    }
    forall x | x in r' && !r'[x].used ensures x in list' {
      if x != ReleasedStart(chunks, c) { assert Same(chunks, r, x); }
    }
    forall x ensures x in Live(r') <==> x in Live(chunks) && x != c {
      if x in chunks && x !in Gone(chunks, arenas, c) { assert Same(chunks, r, x); }
    }
    forall x | x in Live(r') ensures Live(r')[x] == Live(chunks)[x] { assert Same(chunks, r, x); }
  }

  /** Releasing a used chunk keeps the heap's shape. */
  lemma FreedShape(chunks: Chunks, arenas: Arenas, c: int)
    requires Tiling(chunks, arenas) && Coalesced(chunks, arenas) && NoEmptyArena(chunks, arenas)
    requires c in chunks && chunks[c].used
    ensures Coalesced(Freed(chunks, arenas, c), FreedArenas(chunks, arenas, c))
    ensures NoEmptyArena(Freed(chunks, arenas, c), FreedArenas(chunks, arenas, c))
  {
    var r, r', s := Released(chunks, arenas, c), Freed(chunks, arenas, c), FreedArenas(chunks, arenas, c);
    ReleaseEffect(chunks, arenas, c);
    ReleaseCoalesces(chunks, arenas, c);
    forall g | g in s ensures Occupied(r', s, g) {
      ReleaseOccupied(chunks, arenas, c, g);
      assert Occupied(r, arenas, g) && ArenaFits(r, arenas, g);
    }
    var b := chunks[c].base;
    forall x | x in r' ensures CoalescedAt(r', s, x) {
      assert CoalescedAt(r, arenas, x);
      Neighbours(r, arenas, x);
      if Whole(chunks, arenas, c) && x != b { ExtentsApart(r, arenas, x, b); }
    }
  }

  /** The caller's bytes in block `x` are the same in both memories. */
  ghost predicate KeepsBlock(mem: Memory, mem': Memory, chunks: Chunks, x: int) {
    x in chunks && forall w | x + HEADER <= w < x + HEADER + chunks[x].size ::
        w in mem && w in mem' && mem'[w] == mem[w]
  }

  /** Every live block but `c` keeps its bytes. */
  ghost predicate KeepsBlocks(mem: Memory, mem': Memory, chunks: Chunks, but: int) {
    forall x | x in chunks && chunks[x].used && x != but :: KeepsBlock(mem, mem', chunks, x)
  }

  lemma ReleaseKeepsBlocks(mem: Memory, mem': Memory, chunks: Chunks, arenas: Arenas, c: int, nodes: set<int>)
    requires Tiling(chunks, arenas) && Mapped(mem, arenas) && c in chunks && FreeNodes(nodes, chunks)
    requires Changed(mem, mem', nodes, ReleasedStart(chunks, c), ReleasedEnd(chunks, arenas, c))
    ensures KeepsBlocks(mem, mem', chunks, c)
    ensures Whole(chunks, arenas, c) ==>
            KeepsBlocks(mem, Unmapped(mem', chunks[c].base, ArenaEnd(arenas, chunks[c].base)), chunks, c)
  {
    var f, e, b := ReleasedStart(chunks, c), ReleasedEnd(chunks, arenas, c), chunks[c].base;
    var mem'' := Unmapped(mem', b, ArenaEnd(arenas, b));
    ReleasedSpan(chunks, arenas, c);
    forall x | x in chunks && chunks[x].used && x != c
      ensures KeepsBlock(mem, mem', chunks, x) && (Whole(chunks, arenas, c) ==> KeepsBlock(mem, mem'', chunks, x))
    {
      assert Fits(chunks, arenas, x);
      forall w | x + HEADER <= w < x + HEADER + chunks[x].size
        ensures w in mem && w in mem' && mem'[w] == mem[w] && (Whole(chunks, arenas, c) ==> w in mem'')
      {
        assert InArena(arenas, chunks[x].base, w);
        ContentsKept(mem, mem', chunks, arenas, nodes, f, e, x, w);
      }
    }
  }

  lemma RelinkSound(mem: Memory, mem': Memory, hc: nat, fc: nat, chunks: Chunks, arenas: Arenas, nodes: set<int>)
    requires Sound(mem, hc, fc, chunks, arenas) && FreeNodes(nodes, chunks) && Changed(mem, mem', nodes, 0, 0)
    ensures Sound(mem', hc, fc, chunks, arenas)
  {
    RelinkKeepsTags(mem, mem', hc, fc, chunks, arenas, {}, nodes);
    forall x | x in chunks ensures TaggedAt(mem', hc, fc, chunks, arenas, x) { assert x !in {}; }
  }

  /** The remaining members and the released chunk itself are free after the release. */
  lemma RemainingFree(chunks: Chunks, arenas: Arenas, c: int, list: seq<int>, list': seq<int>)
    requires Tiling(chunks, arenas) && c in chunks && chunks[c].used && AllFree(list, chunks)
    requires forall x :: x in list' <==> x in list && !(FreeAfter(chunks, arenas, c) && x == End(chunks, c))
    ensures FreeNodes(Members(list') + {ReleasedStart(chunks, c)}, Released(chunks, arenas, c))
    ensures forall x | x in list' :: Apart(c, x)
  {
    var r, f := Released(chunks, arenas, c), ReleasedStart(chunks, c);
    ReleaseEffect(chunks, arenas, c);
    forall x | x in Members(list') + {f} ensures x in r && !r[x].used {
      if x != f { assert Same(chunks, r, x); }
    }
    forall x | x in list' ensures Apart(c, x) { ExtentsApart(chunks, arenas, c, x); }
  }

  /** A released chunk that joined nothing before it can go on the free list. */
  lemma ReleasedListable(mem: Memory, hc: nat, fc: nat, chunks: Chunks, arenas: Arenas, c: int)
    requires Tiling(chunks, arenas) && c in chunks && !FreeBefore(chunks, c)
    requires Sound(mem, hc, fc, Released(chunks, arenas, c), arenas)
    ensures c > 0 && CanaryOk(mem, hc, c) && !UsedBit(mem[c]) && c + 32 in mem && c + 40 in mem
    ensures c + OVERHEAD <= End(chunks, c) <= ReleasedEnd(chunks, arenas, c)
  {
    var r := Released(chunks, arenas, c);
    ReleaseEffect(chunks, arenas, c);
    ReleasedSpan(chunks, arenas, c);
    assert TaggedAt(mem, hc, fc, r, arenas, c);
    TagsRead(mem, hc, fc, r, arenas, c);
    assert InArena(arenas, chunks[c].base, c + 32) && InArena(arenas, chunks[c].base, c + 40);
  }

  /** Links of the listed chunk itself lie inside it. */
  lemma LinksInside(mem: Memory, mem': Memory, nodes: set<int>, nodes': set<int>, c: int, hi: int)
    requires Changed(mem, mem', nodes, 0, 0) && nodes <= nodes' + {c} && c + OVERHEAD <= hi
    ensures Changed(mem, mem', nodes', c, hi)
  {
    forall w | w in mem && !(c <= w < hi) && !IsLink(nodes', w) ensures mem'[w] == mem[w] { assert !IsLink(nodes, w); }
  }

  /** Live blocks are pairwise disjoint and lie in mapped memory. */
  lemma LiveBlocksApart(mem: Memory, hc: nat, fc: nat, chunks: Chunks, arenas: Arenas, x: int, y: int, w: int)
    requires Sound(mem, hc, fc, chunks, arenas) && x in Live(chunks) && y in Live(chunks) && x != y
    requires x + HEADER <= w < x + HEADER + Live(chunks)[x]
    ensures w in mem && !(y + HEADER <= w < y + HEADER + Live(chunks)[y])
  {
    ExtentsApart(chunks, arenas, x, y);
    assert Fits(chunks, arenas, x) && InArena(arenas, chunks[x].base, w);
  }
}
