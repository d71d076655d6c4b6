/** What a change confined to one span of memory and to the links of free chunks leaves alone. */
module HeapFrames {
  import opened Bits
  import opened HeapLayout
  import opened FreeList

  /** The heap as the tags describe it. */
  ghost predicate Sound(mem: Memory, hc: nat, fc: nat, chunks: Chunks, arenas: Arenas) {
    Tiling(chunks, arenas) && Tagged(mem, hc, fc, chunks, arenas) && Mapped(mem, arenas)
  }

  /** Every node is a free chunk. */
  ghost predicate FreeNodes(nodes: set<int>, chunks: Chunks) {
    forall y | y in nodes :: y in chunks && !chunks[y].used
  }

  /** Chunk `x` looks the same from outside in both chunk maps. */
  predicate SameTags(chunks: Chunks, arenas: Arenas, chunks': Chunks, arenas': Arenas, x: int) {
    && x in chunks && x in chunks' && chunks[x].size == chunks'[x].size && chunks[x].used == chunks'[x].used
    && chunks[x].base == chunks'[x].base && ArenaEnd(arenas, chunks[x].base) == ArenaEnd(arenas', chunks[x].base)
  }

  /** No link word of a free chunk is a tag word of any chunk. */
  lemma LinksMissTags(chunks: Chunks, arenas: Arenas, nodes: set<int>, x: int, w: int)
    requires Tiling(chunks, arenas) && FreeNodes(nodes, chunks) && x in chunks
    requires x <= w < x + HEADER || x + HEADER + chunks[x].size <= w < End(chunks, x)
    ensures !IsLink(nodes, w)
  {
    forall y | y in nodes ensures w != y + 32 && w != y + 40 {
      assert Fits(chunks, arenas, y);
      if y != x { ExtentsApart(chunks, arenas, x, y); }
    }
  }

  /** No link word of a free chunk lies in a used chunk. */
  lemma LinksMissUsed(chunks: Chunks, arenas: Arenas, nodes: set<int>, x: int, w: int)
    requires Tiling(chunks, arenas) && FreeNodes(nodes, chunks) && x in chunks && chunks[x].used
    requires x <= w < End(chunks, x)
    ensures !IsLink(nodes, w)
  {
    forall y | y in nodes ensures w != y + 32 && w != y + 40 {
      ExtentsApart(chunks, arenas, x, y);
    }
  }

  lemma TaggedElsewhere(mem: Memory, mem': Memory, hc: nat, fc: nat, chunks: Chunks, arenas: Arenas,
                        chunks': Chunks, arenas': Arenas, nodes: set<int>, lo: int, hi: int, x: int)
    requires Tiling(chunks, arenas) && TaggedAt(mem, hc, fc, chunks, arenas, x)
    requires Changed(mem, mem', nodes, lo, hi) && FreeNodes(nodes, chunks)
    requires SameTags(chunks, arenas, chunks', arenas', x) && (End(chunks, x) <= lo || hi <= x)
    ensures TaggedAt(mem', hc, fc, chunks', arenas', x)
  {
    assert Fits(chunks, arenas, x);
    var f := x + HEADER + chunks[x].size;
    LinksMissTags(chunks, arenas, nodes, x, x);
    LinksMissTags(chunks, arenas, nodes, x, x + 8);
    LinksMissTags(chunks, arenas, nodes, x, x + 24);
    LinksMissTags(chunks, arenas, nodes, x, f);
    LinksMissTags(chunks, arenas, nodes, x, f + 8);
  }

  /** Intact tags pass every canary check. */
  lemma TagsPass(mem: Memory, hc: nat, fc: nat, chunks: Chunks, arenas: Arenas, x: int)
    requires TaggedAt(mem, hc, fc, chunks, arenas, x)
    ensures CanaryOk(mem, hc, x)
    ensures var f := x + HEADER + chunks[x].size; f in mem && f + 8 in mem && Xor(mem[f + 8], mem[f]) == fc
  {
    XorCancels(SizeWord(chunks[x]), hc);
    XorCancels(SizeWord(chunks[x]), fc);
  }

  /** The user area of every used chunk outside the span keeps its contents. */
  lemma ContentsKept(mem: Memory, mem': Memory, chunks: Chunks, arenas: Arenas, nodes: set<int>, lo: int, hi: int,
                     x: int, w: int)
    requires Tiling(chunks, arenas) && Changed(mem, mem', nodes, lo, hi) && FreeNodes(nodes, chunks)
    requires x in chunks && chunks[x].used && x <= w < End(chunks, x) && (End(chunks, x) <= lo || hi <= x)
    ensures w in mem <==> w in mem'
    ensures w in mem ==> mem'[w] == mem[w]
  {
    LinksMissUsed(chunks, arenas, nodes, x, w);
  }

  predicate SameLinks(mem: Memory, mem': Memory, x: int) {
    && x + 32 in mem && x + 32 in mem' && mem'[x + 32] == mem[x + 32]
    && x + 40 in mem && x + 40 in mem' && mem'[x + 40] == mem[x + 40]
  }

  /** A list threaded through untouched links stays threaded. */
  lemma ThreadKept(mem: Memory, mem': Memory, key: nat, head: int, list: seq<int>)
    requires Threaded(mem, key, head, list)
    requires forall x | x in list :: CanaryOk(mem', key, x) && SameLinks(mem, mem', x)
    ensures Threaded(mem', key, head, list)
  {
    forall i | 0 <= i < |list| ensures LinkedAt(mem', list, i) {
      assert LinkedAt(mem, list, i) && list[i] in list;
    }
  }

  // ---------------------------------------------------------------- writing tags

  function WithHeader(mem: Memory, a: int, word: nat, arena: nat, canary: nat): Memory {
    mem[a := word][a + 8 := arena][a + 24 := canary]
  }

  function WithFooter(mem: Memory, f: int, word: nat, canary: nat): Memory {
    mem[f + 8 := word][f := canary]
  }

  /** The header words at `x` are erased. */
  predicate ErasedAt(mem: Memory, x: int) {
    x in mem && x + 24 in mem && mem[x] == 0 && mem[x + 24] == 0
  }

  /** The header words at `x` pass the two checks made of a chunk that is freed. */
  predicate LooksUsed(mem: Memory, key: nat, x: int) {
    CanaryOk(mem, key, x) && UsedBit(mem[x])
  }

  /** Memory still shows that the block at `x` was given back. */
  ghost predicate SeenFreed(mem: Memory, chunks: Chunks, x: int) {
    ErasedAt(mem, x) || (x in chunks && !chunks[x].used)
  }

  /** Changing links of free chunks and words outside its header leaves an erased header erased. */
  lemma ErasedKept(mem: Memory, mem': Memory, chunks: Chunks, arenas: Arenas, nodes: set<int>, c: int, lo: int, hi: int)
    requires Tiling(chunks, arenas) && FreeNodes(nodes, chunks) && c in chunks && ErasedAt(mem, c)
    requires Changed(mem, mem', nodes, lo, hi) && (hi <= c || c + HEADER <= lo)
    ensures ErasedAt(mem', c)
  {
    LinksMissTags(chunks, arenas, nodes, c, c);
    LinksMissTags(chunks, arenas, nodes, c, c + 24);
  }

  lemma HeaderKeepsThread(mem: Memory, key: nat, head: int, list: seq<int>, chunks: Chunks, arenas: Arenas,
                          a: int, word: nat, arena: nat, canary: nat)
    requires Threaded(mem, key, head, list) && AllFree(list, chunks) && Tiling(chunks, arenas) && a in chunks
    requires a in list ==> Xor(word, canary) == key
    ensures Threaded(WithHeader(mem, a, word, arena, canary), key, head, list)
  {
    var mem' := WithHeader(mem, a, word, arena, canary);
    forall x | x in list ensures CanaryOk(mem', key, x) && SameLinks(mem, mem', x) {
      assert CanaryOk(mem, key, x);
      var i :| 0 <= i < |list| && list[i] == x;
      assert LinkedAt(mem, list, i);
      if x != a { ExtentsApart(chunks, arenas, x, a); }
    }
    ThreadKept(mem, mem', key, head, list);
  }

  lemma FooterKeepsThread(mem: Memory, key: nat, head: int, list: seq<int>, chunks: Chunks, arenas: Arenas,
                          a: int, word: nat, canary: nat)
    requires Threaded(mem, key, head, list) && AllFree(list, chunks) && Tiling(chunks, arenas) && a in chunks
    ensures Threaded(WithFooter(mem, a + HEADER + chunks[a].size, word, canary), key, head, list)
  {
    var mem' := WithFooter(mem, a + HEADER + chunks[a].size, word, canary);
    assert Fits(chunks, arenas, a);
    forall x | x in list ensures CanaryOk(mem', key, x) && SameLinks(mem, mem', x) {
      assert CanaryOk(mem, key, x);
      var i :| 0 <= i < |list| && list[i] == x;
      assert LinkedAt(mem, list, i);
      if x != a { ExtentsApart(chunks, arenas, x, a); }
    }
    ThreadKept(mem, mem', key, head, list);
  }

  lemma ChangedMore(mem: Memory, mem': Memory, mem'': Memory, nodes: set<int>, nodes': set<int>,
                    lo: int, hi: int, lo': int, hi': int)
    requires Changed(mem, mem', nodes, lo, hi) && Changed(mem', mem'', nodes', lo', hi')
    requires nodes' <= nodes && (lo' >= hi' || lo <= lo' <= hi' <= hi)
    ensures Changed(mem, mem'', nodes, lo, hi)
  {
    forall w | w in mem && !(lo <= w < hi) && !IsLink(nodes, w) ensures mem''[w] == mem[w] {
      assert !IsLink(nodes', w);
    }
  }
}
