/** What the boundary tags next to a chunk say, and what erasing them leaves alone. */
module HeapJoin {
  import opened Bits
  import opened HeapLayout
  import opened HeapShapes
  import opened HeapFrames
  import opened HeapRelease
  import opened FreeList

  /** Every chunk not in `gone` has its tags. */
  ghost predicate TaggedBut(mem: Memory, hc: nat, fc: nat, chunks: Chunks, arenas: Arenas, gone: set<int>) {
    forall x {:trigger TaggedAt(mem, hc, fc, chunks, arenas, x)} | x in chunks && x !in gone ::
      TaggedAt(mem, hc, fc, chunks, arenas, x)
  }

  /** The words of chunk `a`, decoded. */
  ghost predicate Reads(mem: Memory, hc: nat, fc: nat, chunks: Chunks, arenas: Arenas, a: int) {
    && a in chunks && CanaryOk(mem, hc, a)
    && var f := a + HEADER + chunks[a].size;
    && f in mem && f + 8 in mem && Xor(mem[f + 8], mem[f]) == fc && mem[f + 8] == mem[a]
    && UsedBit(mem[a]) == chunks[a].used && SizeBits(mem[a]) == chunks[a].size
    && a + 8 in mem && mem[a + 8] == ArenaWord(chunks, arenas, a)
    && BeginBit(mem[a + 8]) == (a == chunks[a].base) && EndBit(mem[a + 8]) == IsLast(chunks, arenas, a)
    && chunks[a].base in arenas && ArenaBits(mem[a + 8]) == arenas[chunks[a].base]
  }

  lemma TagsRead(mem: Memory, hc: nat, fc: nat, chunks: Chunks, arenas: Arenas, a: int)
    requires Tiling(chunks, arenas) && TaggedAt(mem, hc, fc, chunks, arenas, a)
    ensures Reads(mem, hc, fc, chunks, arenas, a)
  {
    TagsPass(mem, hc, fc, chunks, arenas, a);
    WordsDecode(chunks, arenas, a);
  }

  /** The footer just before a chunk leads to the chunk before it. */
  lemma FooterBefore(chunks: Chunks, arenas: Arenas, c: int)
    requires Tiling(chunks, arenas) && c in chunks && c != chunks[c].base
    ensures var p := chunks[c].prev; p in chunks && c - FOOTER == p + HEADER + chunks[p].size && p < c
    ensures var p := chunks[c].prev;
            p + HEADER + LINKS <= c && chunks[p].base == chunks[c].base && !IsLast(chunks, arenas, p)
  {
    Neighbours(chunks, arenas, c);
    var p := chunks[c].prev;
    assert PrecededBy(chunks, c, p);
    assert Fits(chunks, arenas, p) && Fits(chunks, arenas, c);
  }

  /** Erasing the tags between chunk `a` and the chunk `b` after it touches no other tag and no link. */
  lemma SeamErased(mem: Memory, mem': Memory, hc: nat, fc: nat, head: int, list: seq<int>, chunks: Chunks,
                   arenas: Arenas,
                   gone: set<int>, a: int, b: int)
    requires Tiling(chunks, arenas) && TaggedBut(mem, hc, fc, chunks, arenas, gone)
    requires Threaded(mem, hc, head, list) && AllFree(list, chunks) && b !in list
    requires a in chunks && b in chunks && End(chunks, a) == b && b in mem && b + 8 in mem && b + 24 in mem
    requires b - FOOTER in mem && b - FOOTER + 8 in mem
    requires mem' == WithHeader(WithFooter(mem, b - FOOTER, 0, 0), b, 0, 0, 0)
    ensures Threaded(mem', hc, head, list) && Changed(mem, mem', {}, b - FOOTER, b + HEADER)
    ensures TaggedBut(mem', hc, fc, chunks, arenas, gone + {a, b})
  {
    var f := WithFooter(mem, b - FOOTER, 0, 0);
    FooterKeepsThread(mem, hc, head, list, chunks, arenas, a, 0, 0);
    HeaderKeepsThread(f, hc, head, list, chunks, arenas, b, 0, 0, 0);
    assert Fits(chunks, arenas, a) && Fits(chunks, arenas, b);
    assert Changed(mem, mem', {}, b - FOOTER, b + HEADER);
    forall x | x in chunks && x !in gone + {a, b} ensures TaggedAt(mem', hc, fc, chunks, arenas, x) {
      assert TaggedAt(mem, hc, fc, chunks, arenas, x);
      ExtentsApart(chunks, arenas, a, x);
      ExtentsApart(chunks, arenas, b, x);
      TaggedElsewhere(mem, mem', hc, fc, chunks, arenas, chunks, arenas, {}, b - FOOTER, b + HEADER, x);
    }
  }

  /** Reading the chunk `c` being released and the footer before it. */
  lemma LookBefore(mem: Memory, hc: nat, fc: nat, chunks: Chunks, arenas: Arenas, c: int)
    requires Sound(mem, hc, fc, chunks, arenas) && c in chunks
    ensures Reads(mem, hc, fc, chunks, arenas, c)
    ensures c != chunks[c].base ==>
              var p := chunks[c].prev;
              && Reads(mem, hc, fc, chunks, arenas, p) && c - FOOTER == p + HEADER + chunks[p].size
              && p < c && p + HEADER + LINKS <= c && !IsLast(chunks, arenas, p) && chunks[p].base == chunks[c].base
  {
    assert TaggedAt(mem, hc, fc, chunks, arenas, c);
    TagsRead(mem, hc, fc, chunks, arenas, c);
    if c != chunks[c].base {
      FooterBefore(chunks, arenas, c);
      assert TaggedAt(mem, hc, fc, chunks, arenas, chunks[c].prev);
      TagsRead(mem, hc, fc, chunks, arenas, chunks[c].prev);
    }
  }

  /** After joining `c` to the free chunk before it. */
  lemma JoinedBefore(mem: Memory, mem': Memory, hc: nat, fc: nat, head: int, list: seq<int>, chunks: Chunks,
                     arenas: Arenas, c: int)
    requires Sound(mem, hc, fc, chunks, arenas) && Threaded(mem, hc, head, list) && AllFree(list, chunks)
    requires c in chunks && chunks[c].used && FreeBefore(chunks, c)
    requires mem' == WithHeader(WithFooter(mem, c - FOOTER, 0, 0), c, 0, 0, 0)
    ensures var p := chunks[c].prev;
            && Threaded(mem', hc, head, list) && Changed(mem, mem', {}, p, End(chunks, c))
            && TaggedBut(mem', hc, fc, chunks, arenas, {p, c})
            && p + 8 in mem' && mem'[p + 8] == ArenaWord(chunks, arenas, p) && ErasedAt(mem', c)
  {
    LookBefore(mem, hc, fc, chunks, arenas, c);
    var p := chunks[c].prev;
    assert TaggedAt(mem, hc, fc, chunks, arenas, c);
    SeamErased(mem, mem', hc, fc, head, list, chunks, arenas, {}, p, c);
    assert {} + {p, c} == {p, c};
    assert Fits(chunks, arenas, c);
  }

  /** Changing only links of free chunks touches no tag. */
  lemma RelinkKeepsTags(mem: Memory, mem': Memory, hc: nat, fc: nat, chunks: Chunks, arenas: Arenas, gone: set<int>,
                        nodes: set<int>)
    requires Tiling(chunks, arenas) && TaggedBut(mem, hc, fc, chunks, arenas, gone)
    requires FreeNodes(nodes, chunks) && Changed(mem, mem', nodes, 0, 0)
    ensures TaggedBut(mem', hc, fc, chunks, arenas, gone)
  {
    forall x | x in chunks && x !in gone ensures TaggedAt(mem', hc, fc, chunks, arenas, x) {
      assert TaggedAt(mem, hc, fc, chunks, arenas, x) && Fits(chunks, arenas, x);
      TaggedElsewhere(mem, mem', hc, fc, chunks, arenas, chunks, arenas, nodes, 0, 0, x);
    }
  }

  /** The header just after a chunk that does not end its arena. */
  lemma LookAfter(mem: Memory, hc: nat, fc: nat, chunks: Chunks, arenas: Arenas, gone: set<int>, c: int)
    requires Tiling(chunks, arenas) && TaggedBut(mem, hc, fc, chunks, arenas, gone)
    requires c in chunks && !IsLast(chunks, arenas, c) && End(chunks, c) !in gone
    ensures var b := End(chunks, c);
            Reads(mem, hc, fc, chunks, arenas, b) && b != c && b != chunks[b].base && chunks[b].base == chunks[c].base
  {
    Neighbours(chunks, arenas, c);
    var b := End(chunks, c);
    assert PrecededBy(chunks, b, c);
    assert TaggedAt(mem, hc, fc, chunks, arenas, b);
    TagsRead(mem, hc, fc, chunks, arenas, b);
  }

  /** After unlinking the free chunk after `c` (giving `mem'`) and erasing the tags between (giving `mem''`). */
  lemma JoinedAfter(mem: Memory, mem': Memory, mem'': Memory, hc: nat, fc: nat, head: int, list: seq<int>,
                    nodes: set<int>,
                    chunks: Chunks, arenas: Arenas, gone: set<int>, c: int, b: int)
    requires Tiling(chunks, arenas) && Mapped(mem, arenas) && TaggedBut(mem, hc, fc, chunks, arenas, gone)
    requires c in chunks && FreeAfter(chunks, arenas, c) && b == End(chunks, c) && c in gone && b !in gone && b !in list
    requires FreeNodes(nodes, chunks) && Changed(mem, mem', nodes, 0, 0)
    requires Threaded(mem', hc, head, list) && AllFree(list, chunks)
    requires mem'' == WithHeader(WithFooter(mem', b - FOOTER, 0, 0), b, 0, 0, 0)
    ensures Threaded(mem'', hc, head, list) && Changed(mem, mem'', nodes, b - FOOTER, b + HEADER)
    ensures TaggedBut(mem'', hc, fc, chunks, arenas, gone + {b})
  {
    RelinkKeepsTags(mem, mem', hc, fc, chunks, arenas, gone, nodes);
    assert Fits(chunks, arenas, c) && TaggedAt(mem', hc, fc, chunks, arenas, b);
    assert InArena(arenas, chunks[c].base, b - FOOTER) && InArena(arenas, chunks[c].base, b - FOOTER + 8);
    SeamErased(mem', mem'', hc, fc, head, list, chunks, arenas, gone, c, b);
    assert gone + {c, b} == gone + {b};
    ChangedMore(mem, mem', mem'', nodes, {}, b - FOOTER, b + HEADER, b - FOOTER, b + HEADER);
  }

  /** The chunks whose tags are gone once `c` has joined its free neighbours. */
  function Gone(chunks: Chunks, arenas: Arenas, c: int): set<int>
    requires c in chunks
  {
    {ReleasedStart(chunks, c), c} + if FreeAfter(chunks, arenas, c) then {End(chunks, c)} else {}
  }

  /** The released span lies inside the arena and starts and ends at chunk boundaries. */
  lemma ReleasedSpan(chunks: Chunks, arenas: Arenas, c: int)
    requires Tiling(chunks, arenas) && c in chunks
    ensures var f, e, b := ReleasedStart(chunks, c), ReleasedEnd(chunks, arenas, c), chunks[c].base;
            && f in chunks && chunks[f].base == b && b in arenas && 0 < b <= f <= c
            && c + OVERHEAD + LINKS <= End(chunks, c) <= e <= ArenaEnd(arenas, b)
            && f % 16 == 0 && (e - f) % 16 == 0 && e - f >= OVERHEAD + LINKS
            && (e == ArenaEnd(arenas, b) <==>
                (IsLast(chunks, arenas, c) || (FreeAfter(chunks, arenas, c) && IsLast(chunks, arenas, End(chunks, c)))))
    ensures forall x | x in chunks && x !in Gone(chunks, arenas, c) ::
              End(chunks, x) <= ReleasedStart(chunks, c) || ReleasedEnd(chunks, arenas, c) <= x
  {
    Neighbours(chunks, arenas, c);
    var f, e := ReleasedStart(chunks, c), ReleasedEnd(chunks, arenas, c);
    if f != c { FooterBefore(chunks, arenas, c); }
    Neighbours(chunks, arenas, f);
    if FreeAfter(chunks, arenas, c) { Neighbours(chunks, arenas, End(chunks, c)); }
    forall x | x in chunks && x !in Gone(chunks, arenas, c) ensures End(chunks, x) <= f || e <= x {
      ExtentsApart(chunks, arenas, x, f);
      ExtentsApart(chunks, arenas, x, c);
      if FreeAfter(chunks, arenas, c) { ExtentsApart(chunks, arenas, x, End(chunks, c)); }
    }
  }

  /** The size and arena words the code computes for the released chunk are the ones its new shape calls for. */
  lemma ReleasedWords(chunks: Chunks, arenas: Arenas, c: int)
    requires Tiling(chunks, arenas) && c in chunks
    ensures var r, f, e := Released(chunks, arenas, c), ReleasedStart(chunks, c), ReleasedEnd(chunks, arenas, c);
            && f in r && e - FOOTER - (f + HEADER) >= LINKS && SizeWord(r[f]) == e - FOOTER - (f + HEADER)
            && chunks[c].base in arenas && ArenaWord(chunks, arenas, f) >= 0
            && ArenaWord(r, arenas, f)
               == ArenaFlags(ArenaWord(chunks, arenas, f), f == chunks[c].base, e == ArenaEnd(arenas, chunks[c].base))
            && (BeginBit(ArenaWord(chunks, arenas, f)) ==> f == chunks[c].base)
            && (EndBit(ArenaWord(chunks, arenas, f)) ==> e == ArenaEnd(arenas, chunks[c].base))
  {
    var r, f, e := Released(chunks, arenas, c), ReleasedStart(chunks, c), ReleasedEnd(chunks, arenas, c);
    ReleaseEffect(chunks, arenas, c);
    ReleasedSpan(chunks, arenas, c);
    WordsDecode(chunks, arenas, f);
    if f != c { FooterBefore(chunks, arenas, c); }
  }

  lemma ReleasedTag(mem: Memory, mem': Memory, hc: nat, fc: nat, chunks: Chunks, arenas: Arenas, c: int, f: int, e: int,
                    word: nat, arena: nat)
    requires Tiling(chunks, arenas) && c in chunks && Mapped(mem, arenas)
    requires f == ReleasedStart(chunks, c) && e == ReleasedEnd(chunks, arenas, c) && word == e - FOOTER - (f + HEADER)
    requires mem' == WithFooter(WithHeader(mem, f, word, arena, Xor(word, hc)), e - FOOTER, word, Xor(word, fc))
    ensures Changed(mem, mem', {}, f, e) && TagWords(mem', hc, fc, f, word, word, arena)
  {
    ReleasedSpan(chunks, arenas, c);
    var b := chunks[c].base;
    assert InArena(arenas, b, f) && InArena(arenas, b, f + 8) && InArena(arenas, b, f + 24);
    assert InArena(arenas, b, e - FOOTER) && InArena(arenas, b, e - 8);
  }

  /** Writing the tags of the joined chunk leaves an erased header inside it erased. */
  lemma RetagErased(mem: Memory, mem': Memory, chunks: Chunks, arenas: Arenas, c: int, f: int, e: int, word: nat,
                    arena: nat, headerCanary: nat, footerCanary: nat)
    requires Tiling(chunks, arenas) && c in chunks && FreeBefore(chunks, c) && ErasedAt(mem, c)
    requires f == ReleasedStart(chunks, c) && e == ReleasedEnd(chunks, arenas, c)
    requires mem' == WithFooter(WithHeader(mem, f, word, arena, headerCanary), e - FOOTER, word, footerCanary)
    ensures ErasedAt(mem', c)
  {
    assert Fits(chunks, arenas, c) && Fits(chunks, arenas, f);
    ReleasedEnds(chunks, arenas, c);
    assert f + OVERHEAD <= c && c + OVERHEAD <= e;
  }

  lemma ReleaseSound(mem: Memory, mem': Memory, hc: nat, fc: nat, chunks: Chunks, arenas: Arenas, c: int, f: int,
                     e: int, word: nat, arena: nat)
    requires Tiling(chunks, arenas) && c in chunks && TaggedBut(mem, hc, fc, chunks, arenas, Gone(chunks, arenas, c))
    requires Mapped(mem, arenas) && f == ReleasedStart(chunks, c) && e == ReleasedEnd(chunks, arenas, c)
    requires word == e - FOOTER - (f + HEADER) && arena == ArenaWord(Released(chunks, arenas, c), arenas, f)
    requires Changed(mem, mem', {}, f, e) && TagWords(mem', hc, fc, f, word, word, arena)
    ensures Sound(mem', hc, fc, Released(chunks, arenas, c), arenas)
  {
    var r := Released(chunks, arenas, c);
    ReleaseEffect(chunks, arenas, c);
    ReleasedSpan(chunks, arenas, c);
    ReleasedWords(chunks, arenas, c);
    forall x | x in r ensures TaggedAt(mem', hc, fc, r, arenas, x) {
      if x != f {
        assert Same(chunks, r, x) && TaggedAt(mem, hc, fc, chunks, arenas, x);
        TaggedElsewhere(mem, mem', hc, fc, chunks, arenas, r, arenas, {}, f, e, x);
      }
    }
  }

  lemma RetagKeepsThread(mem: Memory, key: nat, head: int, list: seq<int>, chunks: Chunks, arenas: Arenas, c: int,
                         word: nat, arena: nat, c1: nat, c2: nat)
    requires Tiling(chunks, arenas) && c in chunks && Threaded(mem, key, head, list) && AllFree(list, chunks)
    requires Xor(word, c1) == key
    ensures var f, e := ReleasedStart(chunks, c), ReleasedEnd(chunks, arenas, c);
            Threaded(WithFooter(WithHeader(mem, f, word, arena, c1), e - FOOTER, word, c2), key, head, list)
  {
    var f := ReleasedStart(chunks, c);
    HeaderKeepsThread(mem, key, head, list, chunks, arenas, f, word, arena, c1);
    var last := if FreeAfter(chunks, arenas, c) then End(chunks, c) else c;
    FooterKeepsThread(WithHeader(mem, f, word, arena, c1), key, head, list, chunks, arenas, last, word, c2);
  }

  /** The heap once the tags of the joined chunk are written. */
  lemma RetagJoins(mem: Memory, mem': Memory, hc: nat, fc: nat, head: int, list: seq<int>, chunks: Chunks,
                   arenas: Arenas, c: int, f: int, e: int, word: nat, arena: nat)
    requires Tiling(chunks, arenas) && c in chunks && TaggedBut(mem, hc, fc, chunks, arenas, Gone(chunks, arenas, c))
    requires Mapped(mem, arenas) && f == ReleasedStart(chunks, c) && e == ReleasedEnd(chunks, arenas, c)
    requires Threaded(mem, hc, head, list) && AllFree(list, chunks)
    requires word == e - FOOTER - (f + HEADER) && arena == ArenaWord(Released(chunks, arenas, c), arenas, f)
    requires mem' == WithFooter(WithHeader(mem, f, word, arena, Xor(word, hc)), e - FOOTER, word, Xor(word, fc))
    ensures Sound(mem', hc, fc, Released(chunks, arenas, c), arenas) && Threaded(mem', hc, head, list)
    ensures Changed(mem, mem', {}, f, e) && (FreeBefore(chunks, c) && ErasedAt(mem, c) ==> ErasedAt(mem', c))
  {
    XorCancels(word, hc);
    RetagKeepsThread(mem, hc, head, list, chunks, arenas, c, word, arena, Xor(word, hc), Xor(word, fc));
    ReleasedTag(mem, mem', hc, fc, chunks, arenas, c, f, e, word, arena);
    ReleaseSound(mem, mem', hc, fc, chunks, arenas, c, f, e, word, arena);
    if FreeBefore(chunks, c) && ErasedAt(mem, c) {
      RetagErased(mem, mem', chunks, arenas, c, f, e, word, arena, Xor(word, hc), Xor(word, fc));
    }
  }

  /** When the released chunk ends its arena, and how it extends past `c`. */
  lemma ReleasedEnds(chunks: Chunks, arenas: Arenas, c: int)
    requires Tiling(chunks, arenas) && c in chunks
    ensures var f, e, b, d := ReleasedStart(chunks, c), ReleasedEnd(chunks, arenas, c), chunks[c].base, End(chunks, c);
            && f in chunks && f <= c && c + OVERHEAD + LINKS <= d <= e
            && (FreeAfter(chunks, arenas, c) ==>
                d + OVERHEAD <= e && (e == ArenaEnd(arenas, b) <==> IsLast(chunks, arenas, d)))
            && (!FreeAfter(chunks, arenas, c) ==> (e == ArenaEnd(arenas, b) <==> IsLast(chunks, arenas, c)))
  {
    ReleasedSpan(chunks, arenas, c);
    Neighbours(chunks, arenas, c);
    if FreeAfter(chunks, arenas, c) { Neighbours(chunks, arenas, End(chunks, c)); }
  }

  lemma ArenaWordKept(mem: Memory, mem': Memory, chunks: Chunks, arenas: Arenas, nodes: set<int>, f: int, lo: int,
                      hi: int)
    requires Tiling(chunks, arenas) && FreeNodes(nodes, chunks) && Changed(mem, mem', nodes, lo, hi)
    requires f in chunks && f + HEADER <= lo && f + 8 in mem
    ensures mem'[f + 8] == mem[f + 8]
  {
    LinksMissTags(chunks, arenas, nodes, f, f + 8);
  }
}
