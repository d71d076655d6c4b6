/** The loader's heap allocator: boundary-tagged chunks in page-granular arenas, with an intrusive
    first-fit free list.

  `mem` is the memory the allocator can touch and `head` the start of its free list; these are all
  the code reads and writes.  The ghost fields are the specification's view of the same bytes. */
module Allocators {
  import opened Bits
  import opened HeapLayout
  import opened HeapShapes
  import opened HeapFrames
  import opened HeapRelease
  import opened HeapJoin
  import opened HeapUnmap
  import opened HeapClaim
  import opened FreeList

  /** How giving a block back ends; `Fault` is an access to memory that is not mapped. */
  datatype FreeResult = Returned | Aborted | Fault

  class Allocator {
    const hc: nat
    const fc: nat
    var mem: Memory
    var head: int
    ghost var chunks: Chunks
    ghost var arenas: Arenas
    ghost var list: seq<int>

    ghost predicate Valid()
      reads this
    {
      && Sound(mem, hc, fc, chunks, arenas) && Coalesced(chunks, arenas) && NoEmptyArena(chunks, arenas)
      && Threaded(mem, hc, head, list) && AllFree(list, chunks) && Complete(list, chunks)
    }

    /** An allocator that has mapped nothing yet. */
    constructor (headerKey: nat, footerKey: nat)
      ensures Valid() && hc == headerKey && fc == footerKey && Live(chunks) == map[] && arenas == map[]
    {
      hc, fc, mem, head := headerKey, footerKey, map[], 0;
      chunks, arenas, list := map[], map[], [];
    }

    /** Puts a free chunk at the front of the free list. */
    method FreelistLink(c: int)
      requires Threaded(mem, hc, head, list)
      requires c > 0 && CanaryOk(mem, hc, c) && !UsedBit(mem[c]) && c + 32 in mem && c + 40 in mem
      requires forall x | x in list :: Apart(c, x)
      modifies `mem, `head, `list
      ensures list == [c] + old(list) && Threaded(mem, hc, head, list)
      ensures Changed(old(mem), mem, Members(list), 0, 0)
    {
      assert !UsedBit(mem[c]);
      LinkPushes(mem, hc, head, list, c);
      if head != 0 {
        assert CanaryOk(mem, hc, head);
        mem := mem[head + 40 := c];
      }
      mem := mem[c + 32 := head];
      mem := mem[c + 40 := 0];
      assert mem == LinkWrites(old(mem), c, head);
      PushKeepsThread(old(mem), mem, hc, head, list, c);
      head := c;
      list := [c] + list;
    }

    /** Takes member `c` out of the free list and clears its links. */
    method FreelistUnlink(c: int, ghost i: int)
      requires Threaded(mem, hc, head, list) && 0 <= i < |list| && list[i] == c
      modifies `mem, `head, `list
      ensures list == Without(old(list), i) && Threaded(mem, hc, head, list)
      ensures Changed(old(mem), mem, Members(old(list)), 0, 0)
    {
      NeighbourWords(mem, hc, head, list, i);
      var next, last := mem[c + 32], mem[c + 40];
      if last == 0 {
        head := next;
      } else {
        assert CanaryOk(mem, hc, last);
        mem := mem[last + 32 := next];
      }
      if next != 0 {
        assert CanaryOk(mem, hc, next);
        mem := mem[next + 40 := last];
      }
      mem := mem[c + 40 := 0];
      mem := mem[c + 32 := 0];
      assert mem == UnlinkWrites(old(mem), c, next, last);
      UnlinkBypasses(old(mem), hc, old(head), list, i);
      UnlinkKeepsThread(old(mem), mem, hc, old(head), list, i);
      list := Without(list, i);
    }

    /** Moves the links of `c` to `d` and points the neighbours at `d`. */
    method MoveLinks(c: int, d: nat) returns (next: nat, last: nat)
      requires c + 32 in mem && c + 40 in mem && d + 32 in mem && d + 40 in mem && Apart(c, d)
      requires mem[c + 32] != 0 ==> var x := mem[c + 32];
               CanaryOk(mem, hc, x) && x + 40 in mem && Apart(c, x) && Apart(d, x)
      requires mem[c + 40] != 0 ==> var x := mem[c + 40];
               CanaryOk(mem, hc, x) && x + 32 in mem && Apart(c, x) && Apart(d, x)
      requires mem[c + 32] != 0 && mem[c + 40] != 0 ==> Apart(mem[c + 32], mem[c + 40])
      modifies `mem
      ensures next == old(mem[c + 32]) && last == old(mem[c + 40])
      ensures Moved(old(mem), mem, c, d, next, last)
    {
      next, last := mem[c + 32], mem[c + 40];
      WritesMove(mem, c, d, next, last);
      mem := mem[d + 32 := next][d + 40 := last];
      mem := mem[c + 32 := 0][c + 40 := 0];
      if next != 0 {
        assert CanaryOk(mem, hc, next);
        mem := mem[next + 40 := d];
      }
      if last != 0 {
        assert CanaryOk(mem, hc, last);
        mem := mem[last + 32 := d];
      }
      assert mem == ReplaceWrites(old(mem), c, d, next, last);
    }

    /** Puts `d` where `c` was in the free list. */
    method FreelistReplace(c: int, d: nat, ghost i: int)
      requires Threaded(mem, hc, head, list) && 0 <= i < |list| && list[i] == c
      requires d > 0 && CanaryOk(mem, hc, d) && d + 32 in mem && d + 40 in mem && forall x | x in list :: Apart(d, x)
      modifies `mem, `head, `list
      ensures list == old(list)[i := d] && Threaded(mem, hc, head, list)
      ensures Changed(old(mem), mem, Members(old(list)) + {d}, 0, 0)
    {
      NeighbourWords(mem, hc, head, list, i);
      NeighboursApart(mem, hc, head, list, i, d);
      var next, last := MoveLinks(c, d);
      MoveReplaces(old(mem), mem, hc, head, list, i, d);
      ReplaceKeepsThread(old(mem), mem, hc, head, list, i, d);
      if head == c { head := d; }
      list := list[i := d];
    }

    /** Erases the tags between `c` and the free chunk before it. */
    method EraseBefore(c: int)
      requires Sound(mem, hc, fc, chunks, arenas) && Threaded(mem, hc, head, list) && AllFree(list, chunks)
      requires c in chunks && chunks[c].used && FreeBefore(chunks, c)
      modifies `mem
      ensures Threaded(mem, hc, head, list) && Changed(old(mem), mem, {}, chunks[c].prev, End(chunks, c))
      ensures TaggedBut(mem, hc, fc, chunks, arenas, {chunks[c].prev, c})
      ensures chunks[c].prev + 8 in mem && mem[chunks[c].prev + 8] == ArenaWord(chunks, arenas, chunks[c].prev)
      ensures ErasedAt(mem, c)
    {
      mem := WithFooter(mem, c - FOOTER, 0, 0);
      mem := WithHeader(mem, c, 0, 0, 0);
      JoinedBefore(old(mem), mem, hc, fc, head, list, chunks, arenas, c);
    }

    /** If the chunk before `c` is free, the released chunk starts there and the tags between them go. */
    method JoinBefore(c: int) returns (first: int, joined: bool, begins: bool, ends: bool)
      requires Sound(mem, hc, fc, chunks, arenas) && Threaded(mem, hc, head, list) && AllFree(list, chunks)
      requires c in chunks && chunks[c].used
      modifies `mem
      ensures first == ReleasedStart(chunks, c) && joined == FreeBefore(chunks, c)
      ensures begins == (first == chunks[c].base) && ends == IsLast(chunks, arenas, c)
      ensures Threaded(mem, hc, head, list) && Changed(old(mem), mem, {}, first, End(chunks, c))
      ensures TaggedBut(mem, hc, fc, chunks, arenas, {first, c})
      ensures first + 8 in mem && mem[first + 8] == ArenaWord(chunks, arenas, first)
      ensures joined ==> ErasedAt(mem, c)
    {
      LookBefore(mem, hc, fc, chunks, arenas, c);
      first, joined := c, false;
      begins, ends := BeginBit(mem[c + 8]), EndBit(mem[c + 8]);
      if !begins {
        var footer := c - FOOTER;
        assert Xor(mem[footer + 8], mem[footer]) == fc;
        if !UsedBit(mem[footer + 8]) {
          first, joined := footer - SizeBits(mem[footer + 8]) - HEADER, true;
          assert first == chunks[c].prev && CanaryOk(mem, hc, first);
          begins, ends := begins || BeginBit(mem[first + 8]), ends || EndBit(mem[first + 8]);
          EraseBefore(c);
        }
      }
    }

    /** Takes the free chunk after `c` out of the list and erases the tags between the two. */
    method EraseAfter(c: int, next: int, ghost gone: set<int>)
      requires Tiling(chunks, arenas) && Mapped(mem, arenas) && TaggedBut(mem, hc, fc, chunks, arenas, gone)
      requires Threaded(mem, hc, head, list) && AllFree(list, chunks) && Complete(list, chunks)
      requires c in chunks && FreeAfter(chunks, arenas, c) && next == End(chunks, c) && c in gone && next !in gone
      modifies `mem, `head, `list
      ensures Threaded(mem, hc, head, list)
      ensures forall x :: x in list <==> x in old(list) && x != next
      ensures Changed(old(mem), mem, Members(old(list)), next - FOOTER, next + HEADER)
      ensures TaggedBut(mem, hc, fc, chunks, arenas, gone + {next})
    {
      ghost var i :| 0 <= i < |list| && list[i] == next;
      ghost var before := list;
      FreelistUnlink(next, i);
      WithoutMembers(before, i);
      ghost var m := mem;
      mem := WithFooter(mem, next - FOOTER, 0, 0);
      mem := WithHeader(mem, next, 0, 0, 0);
      JoinedAfter(old(mem), m, mem, hc, fc, head, list, Members(before), chunks, arenas, gone, c, next);
    }

    /** If the chunk after `c` is free, the released chunk ends with it. */
    method JoinAfter(c: int, footer: int, wasLast: bool, ghost first: int) returns (last: int, ends: bool)
      requires Tiling(chunks, arenas) && Mapped(mem, arenas) && TaggedBut(mem, hc, fc, chunks, arenas, {first, c})
      requires Threaded(mem, hc, head, list) && AllFree(list, chunks) && Complete(list, chunks)
      requires c in chunks && chunks[c].used && first == ReleasedStart(chunks, c)
      requires footer == c + HEADER + chunks[c].size && wasLast == IsLast(chunks, arenas, c)
      requires first + 8 in mem
      modifies `mem, `head, `list
      ensures last == ReleasedEnd(chunks, arenas, c) - FOOTER
      ensures ends == (ReleasedEnd(chunks, arenas, c) == ArenaEnd(arenas, chunks[c].base))
      ensures Threaded(mem, hc, head, list)
      ensures forall x :: x in list <==> x in old(list) && !(FreeAfter(chunks, arenas, c) && x == End(chunks, c))
      ensures Changed(old(mem), mem, Members(old(list)), c, ReleasedEnd(chunks, arenas, c))
      ensures TaggedBut(mem, hc, fc, chunks, arenas, Gone(chunks, arenas, c))
      ensures mem[first + 8] == old(mem[first + 8])
      ensures old(ErasedAt(mem, c)) ==> ErasedAt(mem, c)
    {
      ReleasedEnds(chunks, arenas, c);
      last, ends := footer, wasLast;
      if !ends {
        var next := footer + FOOTER;
        LookAfter(mem, hc, fc, chunks, arenas, {first, c}, c);
        assert CanaryOk(mem, hc, next);
        if !UsedBit(mem[next]) {
          last := next + HEADER + SizeBits(mem[next]);
          assert Xor(mem[last + 8], mem[last]) == fc;
          ends := ends || EndBit(mem[next + 8]);
          EraseAfter(c, next, {first, c});
          ArenaWordKept(old(mem), mem, chunks, arenas, Members(old(list)), first, next - FOOTER, next + HEADER);
          if old(ErasedAt(mem, c)) {
            ErasedKept(old(mem), mem, chunks, arenas, Members(old(list)), c, next - FOOTER, next + HEADER);
          }
        }
      }
    }

    /** Writes the tags of the released chunk. */
    method Retag(c: int, first: int, last: int, begins: bool, ends: bool)
      requires Tiling(chunks, arenas) && Mapped(mem, arenas) && c in chunks
      requires TaggedBut(mem, hc, fc, chunks, arenas, Gone(chunks, arenas, c))
      requires Threaded(mem, hc, head, list) && AllFree(list, chunks)
      requires first == ReleasedStart(chunks, c) && last == ReleasedEnd(chunks, arenas, c) - FOOTER
      requires begins == (first == chunks[c].base) && ends == (last + FOOTER == ArenaEnd(arenas, chunks[c].base))
      requires first + 8 in mem && mem[first + 8] == ArenaWord(chunks, arenas, first)
      modifies `mem
      ensures Sound(mem, hc, fc, Released(chunks, arenas, c), arenas) && Threaded(mem, hc, head, list)
      ensures Changed(old(mem), mem, {}, first, last + FOOTER)
      ensures FreeBefore(chunks, c) && old(ErasedAt(mem, c)) ==> ErasedAt(mem, c)
    {
      ReleasedWords(chunks, arenas, c);
      var size := last - (first + HEADER);
      var w := mem[first + 8];
      var arena := ArenaFlags(w, begins || BeginBit(w), ends || EndBit(w));
      mem := WithHeader(mem, first, size, arena, Xor(size, hc));
      mem := WithFooter(mem, last, size, Xor(size, fc));
      RetagJoins(old(mem), mem, hc, fc, head, list, chunks, arenas, c, first, last + FOOTER, size, arena);
    }

    /** Joins `c` with its free neighbours into one free chunk. */
    method Coalesce(c: int) returns (first: int, joined: bool, whole: bool)
      requires Sound(mem, hc, fc, chunks, arenas)
      requires Threaded(mem, hc, head, list) && AllFree(list, chunks) && Complete(list, chunks)
      requires c in chunks && chunks[c].used
      modifies `mem, `head, `list
      ensures first == ReleasedStart(chunks, c) && joined == FreeBefore(chunks, c) && whole == Whole(chunks, arenas, c)
      ensures Sound(mem, hc, fc, Released(chunks, arenas, c), arenas) && Threaded(mem, hc, head, list)
      ensures forall x :: x in list <==> x in old(list) && !(FreeAfter(chunks, arenas, c) && x == End(chunks, c))
      ensures Changed(old(mem), mem, Members(old(list)), first, ReleasedEnd(chunks, arenas, c))
      ensures joined ==> ErasedAt(mem, c)
    {
      LookBefore(mem, hc, fc, chunks, arenas, c);
      ReleasedSpan(chunks, arenas, c);
      var footer := c + HEADER + SizeBits(mem[c]);
      assert Xor(mem[footer + 8], mem[footer]) == fc;
      ghost var e := ReleasedEnd(chunks, arenas, c);
      var begins, ends, last;
      first, joined, begins, ends := JoinBefore(c);
      ghost var m1 := mem;
      last, ends := JoinAfter(c, footer, ends, first);
      ghost var m2 := mem;
      Retag(c, first, last, begins, ends);
      ChangedMore(old(mem), m1, m2, Members(old(list)), Members(old(list)), first, e, c, e);
      ChangedMore(old(mem), m2, mem, Members(old(list)), {}, first, e, first, e);
      whole := begins && ends;
    }

    /** Puts the released chunk, which started no earlier than `c`, on the free list. */
    method ListReleased(c: int, ghost before: seq<int>)
      requires Tiling(chunks, arenas) && c in chunks && chunks[c].used && !FreeBefore(chunks, c)
      requires AllFree(before, chunks)
      requires Sound(mem, hc, fc, Released(chunks, arenas, c), arenas) && Threaded(mem, hc, head, list)
      requires forall x :: x in list <==> x in before && !(FreeAfter(chunks, arenas, c) && x == End(chunks, c))
      modifies `mem, `head, `list
      ensures Sound(mem, hc, fc, Released(chunks, arenas, c), arenas) && Threaded(mem, hc, head, list)
      ensures list == [c] + old(list)
      ensures Changed(old(mem), mem, Members(before), c, End(chunks, c))
    {
      RemainingFree(chunks, arenas, c, before, list);
      ReleasedListable(mem, hc, fc, chunks, arenas, c);
      FreelistLink(c);
      RelinkSound(old(mem), mem, hc, fc, Released(chunks, arenas, c), arenas, Members(old(list)) + {c});
      LinksInside(old(mem), mem, Members(list), Members(before), c, End(chunks, c));
    }

    /** Takes the released chunk off the list if it is on it, and unmaps the arena it fills. */
    method UnmapReleased(c: int, first: int, joined: bool, ghost before: seq<int>) returns (ghost m: Memory)
      requires Tiling(chunks, arenas) && c in chunks && chunks[c].used && AllFree(before, chunks)
      requires Complete(before, chunks)
      requires first == ReleasedStart(chunks, c) && joined == FreeBefore(chunks, c) && Whole(chunks, arenas, c)
      requires Sound(mem, hc, fc, Released(chunks, arenas, c), arenas) && Threaded(mem, hc, head, list)
      requires forall x :: x in list <==> x in before && !(FreeAfter(chunks, arenas, c) && x == End(chunks, c))
      modifies `mem, `head, `list
      ensures Sound(mem, hc, fc, Freed(chunks, arenas, c), FreedArenas(chunks, arenas, c))
      ensures Threaded(mem, hc, head, list)
      ensures forall x :: x in list <==> ListedAfter(chunks, arenas, c, before, x)
      ensures Changed(old(mem), m, Members(before), 0, 0)
      ensures mem == Unmapped(m, chunks[c].base, ArenaEnd(arenas, chunks[c].base))
    {
      ghost var r := Released(chunks, arenas, c);
      ReleaseEffect(chunks, arenas, c);
      ReleasedSpan(chunks, arenas, c);
      RemainingFree(chunks, arenas, c, before, list);
      if joined {
        ghost var i :| 0 <= i < |list| && list[i] == first;
        WithoutMembers(list, i);
        FreelistUnlink(first, i);
        RelinkSound(old(mem), mem, hc, fc, r, arenas, Members(old(list)));
      }
      assert TaggedAt(mem, hc, fc, r, arenas, first);
      TagsRead(mem, hc, fc, r, arenas, first);
      m := mem;
      UnmapSound(m, hc, fc, r, arenas, first);
      UnmapKeepsThread(m, hc, fc, r, arenas, first, head, list);
      mem := Unmapped(mem, first, first + ArenaBits(mem[first + 8]));
    }

    /** Gives back the used block `c`. */
    method Release(c: int)
      requires Valid() && c in chunks && chunks[c].used
      modifies this
      ensures Valid()
      ensures chunks == Freed(old(chunks), old(arenas), c) && arenas == FreedArenas(old(chunks), old(arenas), c)
      ensures Live(chunks) == Live(old(chunks)) - {c} && KeepsBlocks(old(mem), mem, old(chunks), c)
      ensures forall w :: w in mem <==>
        && w in old(mem)
        && !(Whole(old(chunks), old(arenas), c) && InArena(old(arenas), old(chunks[c]).base, w))
      ensures !Whole(old(chunks), old(arenas), c) ==> SeenFreed(mem, chunks, c)
    {
      ghost var before, m0 := list, mem;
      var first, joined, whole := Coalesce(c);
      ghost var m1, f, e := mem, ReleasedStart(chunks, c), ReleasedEnd(chunks, arenas, c);
      ReleasedSpan(chunks, arenas, c);
      if whole {
        ghost var m := UnmapReleased(c, first, joined, before);
        ChangedMore(m0, m1, m, Members(before), Members(before), f, e, 0, 0);
        ReleaseKeepsBlocks(m0, m, chunks, arenas, c, Members(before));
      } else {
        if !joined { ListReleased(c, before); }
        ChangedMore(m0, m1, mem, Members(before), Members(before), f, e, c, End(chunks, c));
        ReleaseKeepsBlocks(m0, mem, chunks, arenas, c, Members(before));
      }
      FreedList(chunks, arenas, c, before, list);
      FreedShape(chunks, arenas, c);
      chunks, arenas := Freed(chunks, arenas, c), FreedArenas(chunks, arenas, c);
    }

    /** Gives back the block at `ptr`; aborts if the header there fails a check.  The one thing asked of callers is
        that words which are no header do not pass both checks. */
    method Free(ptr: int) returns (r: FreeResult)
      requires Valid() && (ptr == 0 || ptr - HEADER in chunks || !LooksUsed(mem, hc, ptr - HEADER))
      modifies this
      ensures Valid()
      ensures r == Returned <==> ptr == 0 || ptr - HEADER in old(Live(chunks))
      ensures r == Fault <==> ptr != 0 && !(ptr - HEADER in old(mem) && ptr - HEADER + 24 in old(mem))
      ensures ptr == 0 || r != Returned ==>
        && mem == old(mem) && head == old(head) && list == old(list)
        && chunks == old(chunks) && arenas == old(arenas)
      ensures ptr != 0 && r == Returned ==>
        && var c := ptr - HEADER;
        && var b := old(chunks[c].base);
        && Live(chunks) == old(Live(chunks)) - {c}
        && KeepsBlocks(old(mem), mem, old(chunks), c)
        && arenas == (if OnlyUsed(old(chunks), c) then old(arenas) - {b} else old(arenas))
        && (forall w :: w in mem <==> w in old(mem) && !(OnlyUsed(old(chunks), c) && InArena(old(arenas), b, w)))
        && (!OnlyUsed(old(chunks), c) ==> SeenFreed(mem, chunks, c))
    {
      if ptr == 0 { return Returned; }
      var c := ptr - HEADER;
      if c in chunks { LookBefore(mem, hc, fc, chunks, arenas, c); }
      if c !in mem || c + 24 !in mem { return Fault; }
      if !CanaryOk(mem, hc, c) { return Aborted; }
      if !UsedBit(mem[c]) { return Aborted; }
      WholeMeansOnlyUsed(chunks, arenas, c);
      Release(c);
      return Returned;
    }

    /** Freeing a block twice never succeeds: it aborts, or faults if the first call unmapped the arena. */
    method FreeTwice(ptr: int) returns (r: FreeResult)
      requires Valid() && ptr != 0 && ptr - HEADER in Live(chunks)
      modifies this
      ensures Valid() && Live(chunks) == old(Live(chunks)) - {ptr - HEADER}
      ensures r == if OnlyUsed(old(chunks), ptr - HEADER) then Fault else Aborted
    {
      var c := ptr - HEADER;
      HeaderMapped(mem, hc, fc, chunks, arenas, c);
      r := Free(ptr);
      assert r == Returned && c !in Live(chunks);
      r := Free(ptr);
    }

    /** A caller's own store into the block at `ptr`, between two calls of the allocator. */
    method ClientStore(ptr: int, offset: nat, value: nat)
      requires Valid() && ptr - HEADER in Live(chunks) && offset < Live(chunks)[ptr - HEADER]
      modifies `mem
      ensures Valid() && ptr + offset in old(mem) && mem == old(mem)[ptr + offset := value]
    {
      BlockMapped(mem, hc, fc, chunks, arenas, ptr - HEADER, ptr + offset);
      assert InBlock(chunks, ptr - HEADER, ptr + offset);
      mem := mem[ptr + offset := value];
      ClientWritesKeep(old(mem), mem, hc, fc, chunks, arenas, head, list);
    }

    /** Writes the tags of the two parts of `c`. */
    method WriteSplit(c: int, n: nat, word: nat, rest: nat, first: nat, second: nat)
      requires Tiling(chunks, arenas) && Mapped(mem, arenas) && Threaded(mem, hc, head, list) && AllFree(list, chunks)
      requires c in chunks && n >= LINKS && n % 16 == 0 && CanSplit(chunks[c].size, n)
      requires rest == chunks[c].size - n - OVERHEAD
      modifies `mem
      ensures TagWords(mem, hc, fc, c, n, word, first) && TagWords(mem, hc, fc, c + OVERHEAD + n, rest, rest, second)
      ensures Changed(old(mem), mem, {}, c, End(chunks, c)) && Threaded(mem, hc, head, list)
    {
      ChunkMapped(mem, chunks, arenas, c);
      SplitTagsTag(mem, hc, fc, c, n, word, rest, first, second);
      SplitKeepsThread(mem, hc, fc, head, list, chunks, arenas, c, n, word, rest, first, second);
      mem := SplitTags(mem, hc, fc, c, n, word, rest, first, second);
    }

    /** Cuts chunk `c` in two and tags both parts. */
    method SplitChunk(c: int, n: nat) returns (second: int)
      requires Sound(mem, hc, fc, chunks, arenas) && Threaded(mem, hc, head, list) && AllFree(list, chunks)
      requires c in chunks && n >= LINKS && n % 16 == 0 && CanSplit(chunks[c].size, n)
      modifies `mem, `chunks
      ensures second == c + OVERHEAD + n && chunks == Split(old(chunks), c, n)
      ensures Sound(mem, hc, fc, chunks, arenas) && Threaded(mem, hc, head, list)
      ensures Changed(old(mem), mem, {}, c, End(old(chunks), c))
    {
      LookBefore(mem, hc, fc, chunks, arenas, c);
      assert CanaryOk(mem, hc, c);
      var word := if UsedBit(mem[c]) then n + 1 else n;
      var w, size := mem[c + 8], SizeBits(mem[c]);
      var footer := c + HEADER + size;
      assert Xor(mem[footer + 8], mem[footer]) == fc;
      var rest := size - (n + OVERHEAD);
      second := c + HEADER + n + FOOTER;
      assert second + HEADER + rest == footer;
      var begin, end := ArenaFlags(w, BeginBit(w), false), ArenaFlags(w, false, EndBit(w));
      WriteSplit(c, n, word, rest, begin, end);
      SplitDone(old(mem), mem, hc, fc, chunks, arenas, c, n, word, rest, begin, end);
      chunks := Split(chunks, c, n);
    }

    /** The first member of the free list with room for `n` bytes, or 0. */
    method FirstFitting(n: nat) returns (cur: int, ghost i: nat)
      requires Sound(mem, hc, fc, chunks, arenas) && Threaded(mem, hc, head, list) && AllFree(list, chunks)
      ensures i == FirstFit(list, chunks, n)
      ensures cur == (if i < |list| then list[i] else 0) && (cur == 0 <==> i == |list|)
    {
      cur, i := head, 0;
      while cur != 0
        invariant i <= |list| && cur == if i < |list| then list[i] else 0
        invariant forall j | 0 <= j < i :: list[j] in chunks && chunks[list[j]].size < n
        decreases |list| - i
      {
        assert list[i] in list && TaggedAt(mem, hc, fc, chunks, arenas, cur);
        TagsRead(mem, hc, fc, chunks, arenas, cur);
        if mem[cur] >= n { break; }
        assert CanaryOk(mem, hc, cur);
        assert Xor(mem[cur + HEADER + SizeBits(mem[cur]) + 8], mem[cur + HEADER + SizeBits(mem[cur])]) == fc;
        NeighbourWords(mem, hc, head, list, i);
        cur, i := mem[cur + 32], i + 1;
      }
      assert i < |list| ==> LinkedAt(mem, list, i);
      FirstFitIs(list, chunks, n, i);
    }

    /** Writes both tags of chunk `c`. */
    method WriteTags(c: int, size: nat, word: nat, arena: nat)
      requires Tiling(chunks, arenas) && c in chunks && size == chunks[c].size && size >= LINKS && HasTags(mem, c, size)
      requires Threaded(mem, hc, head, list) && AllFree(list, chunks) && c !in list
      modifies `mem
      ensures TagWords(mem, hc, fc, c, size, word, arena) && Changed(old(mem), mem, {}, c, End(chunks, c))
      ensures Threaded(mem, hc, head, list)
    {
      MarkTag(mem, hc, fc, c, size, word, arena);
      MarkKeepsThread(mem, hc, fc, head, list, chunks, arenas, c, word, arena);
      mem := WithHeader(mem, c, word, arena, Xor(word, hc));
      mem := WithFooter(mem, c + HEADER + size, word, Xor(word, fc));
    }

    /** Marks chunk `c`, which is not on the free list, used. */
    method MarkUsed(c: int)
      requires Sound(mem, hc, fc, chunks, arenas) && Threaded(mem, hc, head, list) && AllFree(list, chunks)
      requires c in chunks && c !in list
      modifies `mem, `chunks
      ensures chunks == SetUsed(old(chunks), c, true)
      ensures Sound(mem, hc, fc, chunks, arenas) && Threaded(mem, hc, head, list)
      ensures Changed(old(mem), mem, {}, c, End(old(chunks), c))
    {
      LookBefore(mem, hc, fc, chunks, arenas, c);
      ChunkMapped(mem, chunks, arenas, c);
      assert Fits(chunks, arenas, c);
      var size := SizeBits(mem[c]);
      WriteTags(c, size, size + 1, mem[c + 8]);
      MarkSound(old(mem), mem, hc, fc, chunks, arenas, c);
      chunks := SetUsed(chunks, c, true);
    }

    /** Cuts the free chunk `c`, member `i` of the list, to `n` bytes; the rest takes its place in the list. */
    method SplitFree(c: int, n: nat, ghost i: nat)
      requires Sound(mem, hc, fc, chunks, arenas) && Threaded(mem, hc, head, list) && AllFree(list, chunks)
      requires i < |list| && c == list[i] && c in chunks && n >= LINKS && n % 16 == 0 && CanSplit(chunks[c].size, n)
      modifies `mem, `head, `list, `chunks
      ensures chunks == Split(old(chunks), c, n) && list == old(list)[i := c + OVERHEAD + n]
      ensures Sound(mem, hc, fc, chunks, arenas) && Threaded(mem, hc, head, list)
      ensures Changed(old(mem), mem, Members(old(list)), c, End(old(chunks), c))
    {
      SplitEffect(chunks, arenas, c, n);
      ghost var before, e := chunks, End(chunks, c);
      var second := SplitChunk(c, n);
      ghost var m1 := mem;
      assert TaggedAt(mem, hc, fc, chunks, arenas, second);
      TagsRead(mem, hc, fc, chunks, arenas, second);
      ChunkMapped(mem, chunks, arenas, second);
      assert Fits(chunks, arenas, second);
      forall x | x in list ensures x in chunks && !chunks[x].used && Apart(second, x) {
        assert x != c ==> Same(before, chunks, x);
        ExtentsApart(chunks, arenas, second, x);
      }
      FreelistReplace(c, second, i);
      RelinkSound(m1, mem, hc, fc, chunks, arenas, Members(old(list)) + {second});
      SplitChanged(old(mem), m1, mem, Members(old(list)), c, e, second);
    }

    /** Takes chunk `c`, member `i`, off the free list, cut to size. */
    method TakeMember(c: int, n: nat, ghost i: nat)
      requires Sound(mem, hc, fc, chunks, arenas) && n >= LINKS && n % 16 == 0
      requires Threaded(mem, hc, head, list) && AllFree(list, chunks) && Complete(list, chunks)
      requires i < |list| && c == list[i] && c in chunks && chunks[c].size >= n
      modifies `mem, `head, `list, `chunks
      ensures chunks == Taken(old(chunks), c, n)
      ensures Sound(mem, hc, fc, chunks, arenas) && Threaded(mem, hc, head, list) && ListsAllBut(list, chunks, c)
      ensures Changed(old(mem), mem, Members(old(list)), c, End(old(chunks), c))
    {
      TakenList(chunks, arenas, list, i, n);
      assert TaggedAt(mem, hc, fc, chunks, arenas, c);
      TagsRead(mem, hc, fc, chunks, arenas, c);
      if CanSplit(SizeBits(mem[c]), n) {
        SplitFree(c, n, i);
      } else {
        FreelistUnlink(c, i);
        RelinkSound(old(mem), mem, hc, fc, chunks, arenas, Members(old(list)));
      }
    }

    /** Takes the first fitting chunk off the free list, cut to size; 0 if there is none. */
    method FindFreelist(n: nat) returns (c: int, ghost i: nat)
      requires Sound(mem, hc, fc, chunks, arenas) && n >= LINKS && n % 16 == 0
      requires Threaded(mem, hc, head, list) && AllFree(list, chunks) && Complete(list, chunks)
      modifies `mem, `head, `list, `chunks
      ensures i == FirstFit(old(list), old(chunks), n) && (c == 0 <==> i == |old(list)|)
      ensures i == |old(list)| ==> mem == old(mem) && head == old(head) && list == old(list) && chunks == old(chunks)
      ensures i < |old(list)| ==>
        && c == old(list)[i] && c in old(chunks) && chunks == Taken(old(chunks), c, n)
        && Sound(mem, hc, fc, chunks, arenas) && Threaded(mem, hc, head, list) && ListsAllBut(list, chunks, c)
        && Changed(old(mem), mem, Members(old(list)), c, End(old(chunks), c))
    {
      c, i := FirstFitting(n);
      if c != 0 { TakeMember(c, n, i); }
    }

    method PutTags(a: int, size: nat, word: nat, arena: nat)
      requires size >= LINKS && HasTags(mem, a, size)
      modifies `mem
      ensures TagWords(mem, hc, fc, a, size, word, arena) && Changed(old(mem), mem, {}, a, a + OVERHEAD + size)
    {
      MarkTag(mem, hc, fc, a, size, word, arena);
      mem := WithHeader(mem, a, word, arena, Xor(word, hc));
      mem := WithFooter(mem, a + HEADER + size, word, Xor(word, fc));
    }

    /** Maps the region [b, b + len), writes one pair of tags over all of it and nothing else. */
    method WriteRegion(b: int, len: nat)
      requires len >= OVERHEAD + LINKS
      modifies `mem
      ensures Extended(old(mem), mem, b, b + len)
      ensures TagWords(mem, hc, fc, b, len - OVERHEAD, len - OVERHEAD + 1, len + 3)
    {
      ZeroesExtend(mem, b, b + len);
      mem := mem + Zeroes(b, b + len);
      ghost var m := mem;
      PutTags(b, len - OVERHEAD, len - OVERHEAD + 1, len + 3);
      ExtendedMore(old(mem), m, mem, b, b + len);
    }

    /** Makes the freshly mapped region [b, b + len) one used chunk. */
    method TagRegion(b: int, len: nat)
      requires Sound(mem, hc, fc, chunks, arenas) && Threaded(mem, hc, head, list) && AllFree(list, chunks)
      requires Fresh(arenas, b, len) && len % HEAP_PAGE == 0 && len >= OVERHEAD + LINKS
      modifies `mem, `chunks, `arenas
      ensures chunks == WithArena(old(chunks), b, len) && arenas == old(arenas)[b := len]
      ensures Sound(mem, hc, fc, chunks, arenas) && Threaded(mem, hc, head, list)
      ensures Extended(old(mem), mem, b, b + len)
    {
      WriteRegion(b, len);
      ArenaSound(old(mem), mem, hc, fc, chunks, arenas, b, len);
      ArenaKeepsThread(old(mem), mem, hc, head, list, chunks, arenas, b, len);
      chunks, arenas := WithArena(chunks, b, len), arenas[b := len];
    }

    /** Cuts the used chunk `b` to `n` bytes and puts the rest on the free list. */
    method SplitFresh(b: int, n: nat)
      requires Sound(mem, hc, fc, chunks, arenas) && Threaded(mem, hc, head, list) && AllFree(list, chunks)
      requires b in chunks && chunks[b].used && n >= LINKS && n % 16 == 0 && CanSplit(chunks[b].size, n)
      modifies `mem, `head, `list, `chunks
      ensures chunks == Split(old(chunks), b, n) && list == [b + OVERHEAD + n] + old(list)
      ensures Sound(mem, hc, fc, chunks, arenas) && Threaded(mem, hc, head, list)
      ensures Changed(old(mem), mem, Members(old(list)), b, End(old(chunks), b))
    {
      SplitEffect(chunks, arenas, b, n);
      ghost var before, e := chunks, End(chunks, b);
      var second := SplitChunk(b, n);
      ghost var m1 := mem;
      assert TaggedAt(mem, hc, fc, chunks, arenas, second);
      TagsRead(mem, hc, fc, chunks, arenas, second);
      ChunkMapped(mem, chunks, arenas, second);
      assert Fits(chunks, arenas, second);
      forall x | x in list ensures x in chunks && !chunks[x].used && Apart(second, x) {
        assert Same(before, chunks, x);
        ExtentsApart(chunks, arenas, second, x);
      }
      FreelistLink(second);
      assert Members(list) == Members(old(list)) + {second};
      RelinkSound(m1, mem, hc, fc, chunks, arenas, Members(old(list)) + {second});
      SplitChanged(old(mem), m1, mem, Members(old(list)), b, e, second);
    }

    /** Maps a new arena, hands out its first `n` bytes and lists the rest if that makes a chunk. */
    method MapArena(n: nat, b: int, len: nat)
      requires Sound(mem, hc, fc, chunks, arenas) && n >= LINKS && n % 16 == 0
      requires Threaded(mem, hc, head, list) && AllFree(list, chunks) && Complete(list, chunks)
      requires Coalesced(chunks, arenas) && NoEmptyArena(chunks, arenas)
      requires Fresh(arenas, b, len) && len % HEAP_PAGE == 0 && len >= OVERHEAD + n
      modifies `mem, `head, `list, `chunks, `arenas
      ensures b !in old(chunks) && chunks == Taken(WithArena(old(chunks), b, len), b, n)
      ensures arenas == old(arenas)[b := len]
      ensures Sound(mem, hc, fc, chunks, arenas) && Threaded(mem, hc, head, list) && ListsAllBut(list, chunks, b)
      ensures KeepsBlocks(old(mem), mem, old(chunks), b)
    {
      ghost var before, m0 := chunks, mem;
      ArenaShape(chunks, arenas, b, len);
      FreshApart(chunks, arenas, b, len);
      ghost var s := arenas;
      TagRegion(b, len);
      ExtensionKeeps(m0, mem, before, s, b, len);
      ghost var m1, r := mem, chunks;
      if CanSplit(len - OVERHEAD, n) {
        SplitEffect(r, arenas, b, n);
        SplitFresh(b, n);
        KeepsMore(m0, m1, mem, before, b, r, arenas, Members(old(list)), b, b + len);
        ListFresh(before, b, len, n, arenas, old(list));
      }
    }

    /** Hands out the chunk `c` just taken. */
    method Claim(c: int, n: nat, ghost before: Chunks, ghost m0: Memory, ghost blocks: Chunks)
      requires Sound(mem, hc, fc, chunks, arenas) && Threaded(mem, hc, head, list) && ListsAllBut(list, chunks, c)
      requires Tiling(before, arenas) && Coalesced(before, arenas) && NoEmptyArena(before, arenas)
      requires c in before && n >= LINKS && n % 16 == 0 && before[c].size >= n && !FreeAfter(before, arenas, c)
      requires chunks == Taken(before, c, n)
      requires KeepsBlocks(m0, mem, blocks, c)
      requires forall x | x in blocks && x != c :: Same(blocks, before, x)
      modifies `mem, `chunks
      ensures Valid() && chunks == Claimed(before, c, n)
      ensures KeepsBlocks(m0, mem, blocks, c)
    {
      ghost var m1, t := mem, chunks;
      if CanSplit(before[c].size, n) { SplitEffect(before, arenas, c, n); }
      MarkUsed(c);
      ClaimCoalesced(before, arenas, c, n);
      ClaimOccupied(before, arenas, c, n);
      forall x | x in blocks && blocks[x].used && x != c
        ensures Same(blocks, t, x) && (End(blocks, x) <= c || End(t, c) <= x)
      {
        assert Same(blocks, before, x) && Same(before, t, x);
        ExtentsApart(t, arenas, c, x);
      }
      KeepsMore(m0, m1, mem, blocks, c, t, arenas, {}, c, End(t, c));
    }

    /** Hands out the first fitting free chunk; 0 if there is none. */
    method FromList(n: nat) returns (c: int, ghost i: nat)
      requires Valid() && n >= LINKS && n % 16 == 0
      modifies `mem, `head, `list, `chunks
      ensures Valid() && i == FirstFit(old(list), old(chunks), n) && (c == 0 <==> i == |old(list)|)
      ensures i == |old(list)| ==> mem == old(mem) && head == old(head) && list == old(list) && chunks == old(chunks)
      ensures i < |old(list)| ==>
        c == old(list)[i] && Granted(old(chunks), chunks, c, n) && KeepsBlocks(old(mem), mem, old(chunks), c)
    {
      ghost var before, m0 := chunks, mem;
      c, i := FindFreelist(n);
      if c != 0 {
        assert CoalescedAt(before, arenas, c) && old(list)[i] in old(list);
        NothingChanged(m0, before, arenas, c);
        forall x | x in before && before[x].used && x != c ensures End(before, x) <= c || End(before, c) <= x {
          ExtentsApart(before, arenas, x, c);
        }
        KeepsMore(m0, m0, mem, before, c, before, arenas, Members(old(list)), c, End(before, c));
        Claim(c, n, before, m0, before);
        GrantListed(before, arenas, c, n);
      }
    }

    /** Hands out the start of a freshly mapped arena. */
    method FromKernel(n: nat, b: int, len: nat)
      requires Valid() && n >= LINKS && n % 16 == 0
      requires Fresh(arenas, b, len) && len % HEAP_PAGE == 0 && len >= OVERHEAD + n
      modifies `mem, `head, `list, `chunks, `arenas
      ensures Valid() && arenas == old(arenas)[b := len]
      ensures Granted(old(chunks), chunks, b, n) && KeepsBlocks(old(mem), mem, old(chunks), b)
    {
      ghost var before, m0 := chunks, mem;
      ArenaShape(chunks, arenas, b, len);
      MapArena(n, b, len);
      Claim(b, n, WithArena(before, b, len), m0, before);
      GrantFresh(before, arenas, b, len, n);
    }

    /** Allocates `n` bytes.  `region` is what mapping `MapLength(n)` bytes would return, 0 if it would fail. */
    method Malloc(n: nat, region: int) returns (ptr: int)
      requires Valid() && (region == 0 || Fresh(arenas, region, MapLength(n)))
      modifies this
      ensures Valid()
      ensures var size, i, c := AlignSize(n), FirstFit(old(list), old(chunks), AlignSize(n)), ptr - HEADER;
        && (ptr == 0 <==> n == 0 || (i == |old(list)| && region == 0))
        && (ptr == 0 ==> mem == old(mem) && head == old(head) && chunks == old(chunks) && arenas == old(arenas))
        && (ptr != 0 ==>
             && c == (if i < |old(list)| then old(list)[i] else region)
             && arenas == (if i < |old(list)| then old(arenas) else old(arenas)[region := MapLength(n)])
             && Granted(old(chunks), chunks, c, size) && n <= size && ptr % 16 == 0
             && KeepsBlocks(old(mem), mem, old(chunks), c))
    {
      if n == 0 { return 0; }
      var size := AlignSize(n);
      var c, i := FromList(size);
      if c == 0 {
        if region == 0 { return 0; }
        c := region;
        FromKernel(size, c, MapLength(n));
      }
      return c + HEADER;
    }
  }
}
