/** The heap when a block is handed out: chunks cut, marked used, or freshly mapped. */
module HeapClaim {
  import opened Bits
  import opened HeapLayout
  import opened HeapShapes
  import opened HeapFrames
  import opened HeapRelease
  import opened HeapJoin
  import opened HeapUnmap
  import opened FreeList

  /** Splitting needs room for a header, a footer and the smallest user area. */
  predicate CanSplit(size: int, n: int) { size > n && size - n >= OVERHEAD + LINKS }

  /** What a split changes, chunk by chunk. */
  lemma SplitEffect(chunks: Chunks, arenas: Arenas, a: int, n: int)
    requires Tiling(chunks, arenas) && a in chunks && n >= LINKS && n % 16 == 0 && CanSplit(chunks[a].size, n)
    ensures var r, d := Split(chunks, a, n), a + OVERHEAD + n;
            && Tiling(r, arenas) && d !in chunks && a in r && d in r && d != a
            && r[a].size == n && r[a].used == chunks[a].used && r[a].base == chunks[a].base
            && r[d].size == chunks[a].size - n - OVERHEAD && !r[d].used && r[d].base == chunks[a].base
            && End(r, a) == d && End(r, d) == End(chunks, a)
            && !IsLast(r, arenas, a) && IsLast(r, arenas, d) == IsLast(chunks, arenas, a)
            && d != chunks[a].base
            && (forall x | x in chunks && x != a :: Same(chunks, r, x))
            && (forall x | x in r :: x in chunks || x == d)
  {
    SplitTiles(chunks, arenas, a, n);
    Neighbours(chunks, arenas, a);
    var d := a + OVERHEAD + n;
    assert Fits(chunks, arenas, a);
    forall x | x in chunks && x != a ensures x != d { ExtentsApart(chunks, arenas, a, x); }
  }

  /** The arena words of the two parts: only the first may begin the arena, only the second may end it. */
  lemma SplitWords(chunks: Chunks, arenas: Arenas, a: int, n: int)
    requires Tiling(chunks, arenas) && a in chunks && n >= LINKS && n % 16 == 0 && CanSplit(chunks[a].size, n)
    ensures var r, d, w := Split(chunks, a, n), a + OVERHEAD + n, ArenaWord(chunks, arenas, a);
            && w >= 0
            && ArenaWord(r, arenas, a) == ArenaFlags(w, BeginBit(w), false)
            && ArenaWord(r, arenas, d) == ArenaFlags(w, false, EndBit(w))
  {
    SplitEffect(chunks, arenas, a, n);
    WordsDecode(chunks, arenas, a);
  }

  /** Both parts correctly tagged, and nothing else touched: the split heap is sound. */
  lemma SplitSound(mem: Memory, mem': Memory, hc: nat, fc: nat, chunks: Chunks, arenas: Arenas, a: int, n: int)
    requires Sound(mem, hc, fc, chunks, arenas) && a in chunks && n >= LINKS && n % 16 == 0
    requires CanSplit(chunks[a].size, n)
    requires Changed(mem, mem', {}, a, End(chunks, a))
    requires TaggedAt(mem', hc, fc, Split(chunks, a, n), arenas, a)
    requires TaggedAt(mem', hc, fc, Split(chunks, a, n), arenas, a + OVERHEAD + n)
    ensures Sound(mem', hc, fc, Split(chunks, a, n), arenas)
  {
    var r, d := Split(chunks, a, n), a + OVERHEAD + n;
    SplitEffect(chunks, arenas, a, n);
    forall x | x in r ensures TaggedAt(mem', hc, fc, r, arenas, x) {
      if x != a && x != d {
        assert Same(chunks, r, x) && TaggedAt(mem, hc, fc, chunks, arenas, x);
        ExtentsApart(chunks, arenas, a, x);
        TaggedElsewhere(mem, mem', hc, fc, chunks, arenas, r, arenas, {}, a, End(chunks, a), x);
      }
    }
  }

  /** The words of a header at `a` and of a footer `size` bytes after it are mapped. */
  predicate HasTags(mem: Memory, a: int, size: int) {
    a in mem && a + 8 in mem && a + 24 in mem && a + HEADER + size in mem && a + HEADER + size + 8 in mem
  }

  /** The memory after the four tags of a split are written. */
  function SplitTags(mem: Memory, hc: nat, fc: nat, a: int, n: nat, word: nat, rest: nat, first: nat,
                     second: nat): Memory {
    var d := a + OVERHEAD + n;
    var m := WithFooter(WithHeader(mem, a, word, first, Xor(word, hc)), a + HEADER + n, word, Xor(word, fc));
    WithFooter(WithHeader(m, d, rest, second, Xor(rest, hc)), d + HEADER + rest, rest, Xor(rest, fc))
  }

  lemma SplitTagsTag(mem: Memory, hc: nat, fc: nat, a: int, n: nat, word: nat, rest: nat, first: nat, second: nat)
    requires n >= LINKS && rest >= LINKS
    requires HasTags(mem, a, n) && HasTags(mem, a + OVERHEAD + n, rest)
    ensures var mem', d := SplitTags(mem, hc, fc, a, n, word, rest, first, second), a + OVERHEAD + n;
            && TagWords(mem', hc, fc, a, n, word, first) && TagWords(mem', hc, fc, d, rest, rest, second)
            && Changed(mem, mem', {}, a, d + OVERHEAD + rest)
  {
  }

  lemma SplitKeepsThread(mem: Memory, hc: nat, fc: nat, head: int, list: seq<int>, chunks: Chunks, arenas: Arenas,
                         a: int, n: nat, word: nat, rest: nat, first: nat, second: nat)
    requires Tiling(chunks, arenas) && a in chunks && n >= LINKS && n % 16 == 0 && CanSplit(chunks[a].size, n)
    requires rest == chunks[a].size - n - OVERHEAD && Threaded(mem, hc, head, list) && AllFree(list, chunks)
    ensures Threaded(SplitTags(mem, hc, fc, a, n, word, rest, first, second), hc, head, list)
  {
    var r, d := Split(chunks, a, n), a + OVERHEAD + n;
    SplitEffect(chunks, arenas, a, n);
    forall x | x in list ensures x in r && !r[x].used { assert x != a ==> Same(chunks, r, x); }
    XorCancels(word, hc);
    var m1 := WithHeader(mem, a, word, first, Xor(word, hc));
    HeaderKeepsThread(mem, hc, head, list, r, arenas, a, word, first, Xor(word, hc));
    var m2 := WithFooter(m1, a + HEADER + n, word, Xor(word, fc));
    FooterKeepsThread(m1, hc, head, list, r, arenas, a, word, Xor(word, fc));
    var m3 := WithHeader(m2, d, rest, second, Xor(rest, hc));
    HeaderKeepsThread(m2, hc, head, list, r, arenas, d, rest, second, Xor(rest, hc));
    FooterKeepsThread(m3, hc, head, list, r, arenas, d, rest, Xor(rest, fc));
  }

  /** What the split's writes achieve. */
  lemma SplitDone(mem: Memory, mem': Memory, hc: nat, fc: nat, chunks: Chunks, arenas: Arenas,
                  a: int, n: nat, word: nat, rest: nat, first: nat, second: nat)
    requires Sound(mem, hc, fc, chunks, arenas) && a in chunks && n >= LINKS && n % 16 == 0
    requires CanSplit(chunks[a].size, n)
    requires rest == chunks[a].size - n - OVERHEAD && word == (if chunks[a].used then n + 1 else n)
    requires ArenaWord(chunks, arenas, a) >= 0
    requires var w := ArenaWord(chunks, arenas, a);
             first == ArenaFlags(w, BeginBit(w), false) && second == ArenaFlags(w, false, EndBit(w))
    requires TagWords(mem', hc, fc, a, n, word, first) && TagWords(mem', hc, fc, a + OVERHEAD + n, rest, rest, second)
    requires Changed(mem, mem', {}, a, End(chunks, a))
    ensures Sound(mem', hc, fc, Split(chunks, a, n), arenas)
  {
    SplitEffect(chunks, arenas, a, n);
    SplitWords(chunks, arenas, a, n);
    SplitSound(mem, mem', hc, fc, chunks, arenas, a, n);
  }

  lemma ChunkMapped(mem: Memory, chunks: Chunks, arenas: Arenas, a: int)
    requires Tiling(chunks, arenas) && Mapped(mem, arenas) && a in chunks
    ensures forall w | a <= w < End(chunks, a) :: w in mem
  {
    assert Fits(chunks, arenas, a);
    forall w | a <= w < End(chunks, a) ensures w in mem { assert InArena(arenas, chunks[a].base, w); }
  }

  // ---------------------------------------------------------------- marking a chunk used

  lemma MarkSound(mem: Memory, mem': Memory, hc: nat, fc: nat, chunks: Chunks, arenas: Arenas, c: int)
    requires Sound(mem, hc, fc, chunks, arenas) && c in chunks && Changed(mem, mem', {}, c, End(chunks, c))
    requires TaggedAt(mem', hc, fc, SetUsed(chunks, c, true), arenas, c)
    ensures Sound(mem', hc, fc, SetUsed(chunks, c, true), arenas)
  {
    var r := SetUsed(chunks, c, true);
    SetUsedTiles(chunks, arenas, c, true);
    forall x | x in r ensures TaggedAt(mem', hc, fc, r, arenas, x) {
      if x != c {
        assert TaggedAt(mem, hc, fc, chunks, arenas, x);
        ExtentsApart(chunks, arenas, c, x);
        TaggedElsewhere(mem, mem', hc, fc, chunks, arenas, r, arenas, {}, c, End(chunks, c), x);
      }
    }
  }

  lemma MarkKeepsThread(mem: Memory, hc: nat, fc: nat, head: int, list: seq<int>, chunks: Chunks, arenas: Arenas,
                        c: int, word: nat, arena: nat)
    requires Tiling(chunks, arenas) && c in chunks && Threaded(mem, hc, head, list) && AllFree(list, chunks)
    requires c !in list
    ensures Threaded(WithFooter(WithHeader(mem, c, word, arena, Xor(word, hc)), c + HEADER + chunks[c].size, word,
                                Xor(word, fc)), hc, head, list)
  {
    HeaderKeepsThread(mem, hc, head, list, chunks, arenas, c, word, arena, Xor(word, hc));
    FooterKeepsThread(WithHeader(mem, c, word, arena, Xor(word, hc)), hc, head, list, chunks, arenas, c, word,
                      Xor(word, fc));
  }

  lemma WordsWritten(mem: Memory, a: int, size: nat, word: nat, arena: nat, c1: nat, c2: nat)
    requires size >= LINKS && HasTags(mem, a, size)
    ensures var f := a + HEADER + size;
            var mem' := WithFooter(WithHeader(mem, a, word, arena, c1), f, word, c2);
            && Changed(mem, mem', {}, a, a + OVERHEAD + size) && HasTags(mem', a, size)
            && mem'[a] == word && mem'[a + 8] == arena && mem'[a + 24] == c1 && mem'[f] == c2 && mem'[f + 8] == word
  {
  }

  lemma MarkTag(mem: Memory, hc: nat, fc: nat, a: int, size: nat, word: nat, arena: nat)
    requires size >= LINKS && HasTags(mem, a, size)
    ensures var f := a + HEADER + size;
            var mem' := WithFooter(WithHeader(mem, a, word, arena, Xor(word, hc)), f, word, Xor(word, fc));
            TagWords(mem', hc, fc, a, size, word, arena) && Changed(mem, mem', {}, a, a + OVERHEAD + size)
  {
    WordsWritten(mem, a, size, word, arena, Xor(word, hc), Xor(word, fc));
  }

  // ---------------------------------------------------------------- a fresh arena

  /** `mem'` is `mem` with the span [lo, hi) mapped on top. */
  ghost predicate Extended(mem: Memory, mem': Memory, lo: int, hi: int) {
    && (forall w :: w in mem' <==> w in mem || lo <= w < hi)
    && forall w | w in mem && !(lo <= w < hi) :: mem'[w] == mem[w]
  }

  predicate InSpan(lo: int, hi: int, w: int) { lo <= w < hi }

  /** Freshly mapped memory. */
  function Zeroes(lo: int, hi: int): Memory { map w | lo <= w < hi && InSpan(lo, hi, w) :: 0 }

  lemma ZeroesExtend(mem: Memory, lo: int, hi: int)
    requires lo + OVERHEAD + LINKS <= hi
    ensures Extended(mem, mem + Zeroes(lo, hi), lo, hi) && HasTags(mem + Zeroes(lo, hi), lo, hi - lo - OVERHEAD)
  {
    forall w ensures w in mem + Zeroes(lo, hi) <==> w in mem || lo <= w < hi {
      assert InSpan(lo, hi, w) <==> lo <= w < hi;
    }
  }

  lemma ExtendedMore(mem: Memory, mem': Memory, mem'': Memory, lo: int, hi: int)
    requires Extended(mem, mem', lo, hi) && Changed(mem', mem'', {}, lo, hi)
    ensures Extended(mem, mem'', lo, hi)
  {
    forall w ensures w in mem'' <==> w in mem || lo <= w < hi { assert w in mem'' <==> w in mem'; }
    forall w | w in mem && !(lo <= w < hi) ensures mem''[w] == mem[w] { assert !IsLink({}, w); }
  }

  /** The region the kernel returned meets no arena. */
  ghost predicate Fresh(arenas: Arenas, b: int, len: int) {
    b > 0 && b % HEAP_PAGE == 0 && forall g | g in arenas :: ArenaEnd(arenas, g) <= b || b + len <= g
  }

  function WithArena(chunks: Chunks, b: int, len: int): Chunks { chunks[b := Chunk(len - OVERHEAD, true, b, 0)] }

  lemma FreshApart(chunks: Chunks, arenas: Arenas, b: int, len: int)
    requires Tiling(chunks, arenas) && Fresh(arenas, b, len)
    ensures forall x | x in chunks :: End(chunks, x) <= b || b + len <= x
  {
    forall x | x in chunks ensures End(chunks, x) <= b || b + len <= x { assert Fits(chunks, arenas, x); }
  }

  lemma ArenaSound(mem: Memory, mem': Memory, hc: nat, fc: nat, chunks: Chunks, arenas: Arenas, b: int, len: int)
    requires Sound(mem, hc, fc, chunks, arenas) && Fresh(arenas, b, len) && len % HEAP_PAGE == 0
    requires len >= OVERHEAD + LINKS
    requires Extended(mem, mem', b, b + len) && TagWords(mem', hc, fc, b, len - OVERHEAD, len - OVERHEAD + 1, len + 3)
    ensures b !in chunks && Sound(mem', hc, fc, WithArena(chunks, b, len), arenas[b := len])
  {
    var r, s := WithArena(chunks, b, len), arenas[b := len];
    NewArenaTiles(chunks, arenas, b, len);
    FreshApart(chunks, arenas, b, len);
    forall x | x in r ensures TaggedAt(mem', hc, fc, r, s, x) {
      if x != b { assert TaggedAt(mem, hc, fc, chunks, arenas, x) && Fits(chunks, arenas, x); }
    }
    forall g, w | InArena(s, g, w) ensures w in mem' {
      if g != b { assert InArena(arenas, g, w); }
    }
  }

  lemma ArenaKeepsThread(mem: Memory, mem': Memory, hc: nat, head: int, list: seq<int>, chunks: Chunks,
                         arenas: Arenas, b: int, len: int)
    requires Tiling(chunks, arenas) && Fresh(arenas, b, len) && Extended(mem, mem', b, b + len)
    requires Threaded(mem, hc, head, list) && AllFree(list, chunks)
    ensures Threaded(mem', hc, head, list)
  {
    FreshApart(chunks, arenas, b, len);
    forall x | x in list ensures CanaryOk(mem', hc, x) && SameLinks(mem, mem', x) {
      assert CanaryOk(mem, hc, x) && Fits(chunks, arenas, x);
      var i :| 0 <= i < |list| && list[i] == x;
      assert LinkedAt(mem, list, i);
    }
    ThreadKept(mem, mem', hc, head, list);
  }

  // ---------------------------------------------------------------- the heap after a block is handed out

  /** Chunk `c` cut down to `n` bytes if what is left over makes a chunk. */
  function Taken(chunks: Chunks, c: int, n: int): Chunks
    requires c in chunks
  {
    if CanSplit(chunks[c].size, n) then Split(chunks, c, n) else chunks
  }

  function Claimed(chunks: Chunks, c: int, n: int): Chunks
    requires c in chunks
  {
    SetUsed(Taken(chunks, c, n), c, true)
  }

  /** Cutting and claiming a chunk that no free chunk follows keeps free chunks apart. */
  lemma ClaimCoalesced(chunks: Chunks, arenas: Arenas, c: int, n: int)
    requires Tiling(chunks, arenas) && Coalesced(chunks, arenas) && c in chunks && n >= LINKS && n % 16 == 0
    requires !FreeAfter(chunks, arenas, c)
    ensures Coalesced(Claimed(chunks, c, n), arenas)
  {
    var r, d := Claimed(chunks, c, n), c + OVERHEAD + n;
    Neighbours(chunks, arenas, c);
    if CanSplit(chunks[c].size, n) { SplitEffect(chunks, arenas, c, n); }
    forall x | x in r ensures CoalescedAt(r, arenas, x) {
      if x in chunks && x != c {
        assert CoalescedAt(chunks, arenas, x);
        assert Same(chunks, Taken(chunks, c, n), x);
        var y := End(chunks, x);
        assert y in chunks && y != c ==> Same(chunks, Taken(chunks, c, n), y);
      } else if x != c {
        var y := End(chunks, c);
        assert y in chunks && y != c ==> Same(chunks, Taken(chunks, c, n), y);
      }
    }
  }

  lemma ClaimOccupied(chunks: Chunks, arenas: Arenas, c: int, n: int)
    requires Tiling(chunks, arenas) && NoEmptyArena(chunks, arenas) && c in chunks && n >= LINKS && n % 16 == 0
    ensures NoEmptyArena(Claimed(chunks, c, n), arenas)
  {
    var t, r := Taken(chunks, c, n), Claimed(chunks, c, n);
    if CanSplit(chunks[c].size, n) { SplitEffect(chunks, arenas, c, n); }
    forall g | g in arenas ensures Occupied(r, arenas, g) {
      assert ArenaFits(chunks, arenas, g) && Occupied(chunks, arenas, g);
      assert g != c ==> Same(chunks, t, g);
    }
  }

  /** The live blocks gain exactly `c`, with at least `n` and fewer than `n + 64` bytes. */
  lemma ClaimLive(chunks: Chunks, arenas: Arenas, c: int, n: int)
    requires Tiling(chunks, arenas) && c in chunks && n >= LINKS && n % 16 == 0 && chunks[c].size >= n
    ensures var r := Claimed(chunks, c, n);
            && c in r && r[c].used && n <= r[c].size < n + OVERHEAD + LINKS
            && Live(r) == Live(chunks)[c := r[c].size]
  {
    var t, r := Taken(chunks, c, n), Claimed(chunks, c, n);
    if CanSplit(chunks[c].size, n) { SplitEffect(chunks, arenas, c, n); }
    forall x | x in chunks && x != c ensures x in r && r[x].used == chunks[x].used && r[x].size == chunks[x].size {
      assert Same(chunks, t, x);
    }
    forall x ensures x in Live(r) <==> x in Live(chunks)[c := r[c].size] {
      if x in r && x !in chunks { assert !r[x].used; }
    }
  }

  lemma ArenaShape(chunks: Chunks, arenas: Arenas, b: int, len: int)
    requires Tiling(chunks, arenas) && Coalesced(chunks, arenas) && NoEmptyArena(chunks, arenas)
    requires Fresh(arenas, b, len) && len % HEAP_PAGE == 0 && len >= OVERHEAD + LINKS
    ensures var r, s := WithArena(chunks, b, len), arenas[b := len];
            && b !in chunks && Tiling(r, s) && Coalesced(r, s) && NoEmptyArena(r, s) && IsLast(r, s, b)
  {
    var r, s := WithArena(chunks, b, len), arenas[b := len];
    NewArenaTiles(chunks, arenas, b, len);
    forall x | x in r ensures CoalescedAt(r, s, x) {
      if x != b { assert CoalescedAt(chunks, arenas, x) && Fits(chunks, arenas, x); Neighbours(chunks, arenas, x); }
    }
    forall g | g in s ensures Occupied(r, s, g) {
      if g != b { assert Occupied(chunks, arenas, g) && ArenaFits(chunks, arenas, g); }
    }
  }

  lemma SplitChanged(mem: Memory, mem': Memory, mem'': Memory, nodes: set<int>, lo: int, hi: int, d: int)
    requires Changed(mem, mem', {}, lo, hi) && Changed(mem', mem'', nodes + {d}, 0, 0) && lo <= d && d + OVERHEAD <= hi
    ensures Changed(mem, mem'', nodes, lo, hi)
  {
    forall w | w in mem && !(lo <= w < hi) && !IsLink(nodes, w) ensures mem''[w] == mem[w] {
      assert !IsLink(nodes + {d}, w) && !IsLink({}, w);
    }
  }

  /** The list holds the free chunks other than `c`. */
  ghost predicate ListsAllBut(list: seq<int>, chunks: Chunks, c: int) {
    forall x :: x in list <==> x in chunks && !chunks[x].used && x != c
  }

  /** A change away from every other block, or in links only, keeps the blocks that were kept so far. */
  lemma KeepsMore(m0: Memory, m1: Memory, m2: Memory, chunks: Chunks, c: int, r: Chunks, arenas: Arenas,
                  nodes: set<int>, lo: int, hi: int)
    requires KeepsBlocks(m0, m1, chunks, c) && Changed(m1, m2, nodes, lo, hi) && Tiling(r, arenas)
    requires FreeNodes(nodes, r)
    requires forall x | x in chunks && chunks[x].used && x != c ::
             Same(chunks, r, x) && (End(chunks, x) <= lo || hi <= x)
    ensures KeepsBlocks(m0, m2, chunks, c)
  {
    forall x | x in chunks && chunks[x].used && x != c ensures KeepsBlock(m0, m2, chunks, x) {
      assert KeepsBlock(m0, m1, chunks, x) && Same(chunks, r, x);
      forall w | x + HEADER <= w < x + HEADER + chunks[x].size ensures w in m2 && m2[w] == m1[w] {
        LinksMissUsed(r, arenas, nodes, x, w);
      }
    }
  }

  lemma ExtensionKeeps(mem: Memory, mem': Memory, chunks: Chunks, arenas: Arenas, b: int, len: int)
    requires Tiling(chunks, arenas) && Mapped(mem, arenas) && Fresh(arenas, b, len) && Extended(mem, mem', b, b + len)
    ensures KeepsBlocks(mem, mem', chunks, b)
  {
    FreshApart(chunks, arenas, b, len);
    forall x | x in chunks && chunks[x].used && x != b ensures KeepsBlock(mem, mem', chunks, x) {
      ChunkMapped(mem, chunks, arenas, x);
    }
  }

  lemma NothingChanged(mem: Memory, chunks: Chunks, arenas: Arenas, c: int)
    requires Tiling(chunks, arenas) && Mapped(mem, arenas)
    ensures KeepsBlocks(mem, mem, chunks, c)
  {
    forall x | x in chunks && chunks[x].used && x != c ensures KeepsBlock(mem, mem, chunks, x) {
      ChunkMapped(mem, chunks, arenas, x);
    }
  }

  /** After taking `list[i]` off a complete list, split or whole, the list is complete but for it. */
  lemma TakenList(chunks: Chunks, arenas: Arenas, list: seq<int>, i: nat, n: int)
    requires Tiling(chunks, arenas) && AllFree(list, chunks) && Complete(list, chunks) && Spread(list)
    requires i < |list| && list[i] in chunks && n >= LINKS && n % 16 == 0
    ensures var c := list[i];
            var rest := if CanSplit(chunks[c].size, n) then list[i := c + OVERHEAD + n] else Without(list, i);
            ListsAllBut(rest, Taken(chunks, c, n), c)
  {
    var c := list[i];
    WithoutMembers(list, i);
    if CanSplit(chunks[c].size, n) {
      var t, d := Taken(chunks, c, n), c + OVERHEAD + n;
      SplitEffect(chunks, arenas, c, n);
      var list' := list[i := d];
      forall x ensures x in list' <==> x in t && !t[x].used && x != c {
        if x in chunks && x != c { assert Same(chunks, t, x); }
        if x in list && x != c { var j :| 0 <= j < |list| && list[j] == x; assert list'[j] == x; }
        if x in list' {
          var j :| 0 <= j < |list'| && list'[j] == x;
          if j != i { assert list[j] in list && Apart(list[j], list[i]); }
        }
        if x == d { assert list'[i] == d; }
      }
    }
  }

  /** A complete list with the rest of a fresh arena in front is complete again. */
  lemma ListFresh(chunks: Chunks, b: int, len: int, n: int, arenas: Arenas, list: seq<int>)
    requires b !in chunks && Tiling(WithArena(chunks, b, len), arenas) && AllFree(list, chunks)
    requires Complete(list, chunks)
    requires n >= LINKS && n % 16 == 0 && CanSplit(len - OVERHEAD, n)
    ensures ListsAllBut([b + OVERHEAD + n] + list, Split(WithArena(chunks, b, len), b, n), b)
  {
    var r, d := WithArena(chunks, b, len), b + OVERHEAD + n;
    var t, list' := Split(r, b, n), [d] + list;
    SplitEffect(r, arenas, b, n);
    forall x ensures x in list' <==> x in t && !t[x].used && x != b {
      if x in r && x != b { assert Same(r, t, x); }
      assert x in list' <==> x == d || x in list;
    }
  }

  /** Block `c` of at least `n` and fewer than `n + 64` bytes was not live before, and is the one new live block. */
  ghost predicate Granted(chunks: Chunks, chunks': Chunks, c: int, n: int) {
    && c in chunks' && c > 0 && (c + HEADER) % 16 == 0 && n <= chunks'[c].size < n + OVERHEAD + LINKS
    && c !in Live(chunks) && Live(chunks') == Live(chunks)[c := chunks'[c].size]
  }

  lemma GrantListed(chunks: Chunks, arenas: Arenas, c: int, n: int)
    requires Tiling(chunks, arenas) && c in chunks && !chunks[c].used && n >= LINKS && n % 16 == 0
    requires chunks[c].size >= n
    ensures Granted(chunks, Claimed(chunks, c, n), c, n)
  {
    assert Fits(chunks, arenas, c);
    ClaimLive(chunks, arenas, c, n);
  }

  lemma GrantFresh(chunks: Chunks, arenas: Arenas, b: int, len: int, n: int)
    requires b !in chunks && Tiling(WithArena(chunks, b, len), arenas) && n >= LINKS && n % 16 == 0
    requires len >= OVERHEAD + n
    ensures Granted(chunks, Claimed(WithArena(chunks, b, len), b, n), b, n)
  {
    var r := WithArena(chunks, b, len);
    assert Fits(r, arenas, b);
    ClaimLive(r, arenas, b, n);
    assert Live(r) == Live(chunks)[b := len - OVERHEAD];
  }
}
