/** The shape of the loader's heap: raw memory words, the chunks they encode and the free list
    threaded through them.

  Memory is a map from (8-byte aligned) addresses to words.  `Chunk` is the specification's view of
  one boundary-tagged chunk, keyed by the address of its header. */
module HeapLayout {
  import opened Bits

  const HEADER: int := 32
  const FOOTER: int := 16
  const OVERHEAD: int := 48
  const LINKS: int := 16
  const HEAP_PAGE: int := 4096

  type Memory = map<int, nat>

  /** `LD_MALLOC_ALIGN_SIZE`: the least multiple of 16 that is at least `n`. */
  function AlignSize(n: nat): (r: nat)
    ensures r % 16 == 0 && n <= r < n + LINKS && (n > 0 ==> r >= LINKS)
  {
    (n + (LINKS - 1)) / LINKS * LINKS
  }

  /** The least multiple of the page size that is at least `n`. */
  function RoundToPage(n: nat): (r: nat)
    ensures r % HEAP_PAGE == 0 && n <= r < n + HEAP_PAGE
  {
    (n + (HEAP_PAGE - 1)) / HEAP_PAGE * HEAP_PAGE
  }

  const WORD: int := 0x1_0000_0000_0000_0000

  /** The length asked of the kernel for a request of `n` bytes. */
  function MapLength(n: nat): (r: nat)
    ensures r % HEAP_PAGE == 0 && AlignSize(n) + OVERHEAD <= r < AlignSize(n) + OVERHEAD + HEAP_PAGE
  {
    RoundToPage(AlignSize(n) + OVERHEAD)
  }

  /** A 64-bit sum. */
  function Wrap(x: nat): (r: nat)
    requires x < 2 * WORD
    ensures r < WORD
  {
    if x < WORD then x else x - WORD
  }

  function RoundDown(x: nat, unit: nat): (r: nat)
    requires unit > 0
    ensures r <= x
  {
    x / unit * unit
  }

  /** The same length as 64-bit arithmetic computes it. */
  function MapLengthWrapped(n: nat): nat
    requires n < WORD
  {
    var size := RoundDown(Wrap(n + (LINKS - 1)), LINKS);
    RoundDown(Wrap(Wrap(size + OVERHEAD) + (HEAP_PAGE - 1)), HEAP_PAGE)
  }

  /** 64-bit arithmetic gives a length with room for the request exactly when no sum wraps. */
  lemma MapLengthExact(n: nat)
    requires n < WORD
    ensures MapLengthWrapped(n) >= n + OVERHEAD <==> AlignSize(n) + OVERHEAD + HEAP_PAGE - 1 < WORD
    ensures AlignSize(n) + OVERHEAD + HEAP_PAGE - 1 < WORD ==> MapLengthWrapped(n) == MapLength(n)
  {
    var size := RoundDown(Wrap(n + (LINKS - 1)), LINKS);
    assert n + (LINKS - 1) < WORD ==> size == AlignSize(n);
    assert n + (LINKS - 1) >= WORD ==> size < LINKS;
  }

  // ---------------------------------------------------------------- chunks

  /** A chunk's user size, its USED flag, the arena it lies in and the chunk before it. */
  datatype Chunk = Chunk(size: int, used: bool, base: int, prev: int)

  type Chunks = map<int, Chunk>

  /** Arena start to arena length. */
  type Arenas = map<int, int>

  function End(chunks: Chunks, a: int): int {
    if a in chunks then a + OVERHEAD + chunks[a].size else a
  }

  function ArenaEnd(arenas: Arenas, b: int): int { if b in arenas then b + arenas[b] else b }

  predicate IsLast(chunks: Chunks, arenas: Arenas, a: int) {
    a in chunks && End(chunks, a) == ArenaEnd(arenas, chunks[a].base)
  }

  /** Chunk `a` lies in its arena, aligned, and meets its neighbours exactly. */
  ghost predicate Fits(chunks: Chunks, arenas: Arenas, a: int) {
    && a in chunks
    && var ch := chunks[a];
    && ch.size >= LINKS && ch.size % 16 == 0 && a % 16 == 0
    && ch.base in arenas && 0 < ch.base <= a && End(chunks, a) <= ArenaEnd(arenas, ch.base)
    && (a != ch.base ==> PrecededBy(chunks, a, ch.prev))
    && (End(chunks, a) != ArenaEnd(arenas, ch.base) ==> PrecededBy(chunks, End(chunks, a), a))
  }

  /** `p` is the chunk that ends where chunk `a` begins. */
  ghost predicate PrecededBy(chunks: Chunks, a: int, p: int) {
    && a in chunks && p in chunks && End(chunks, p) == a
    && chunks[a].prev == p && chunks[a].base == chunks[p].base && a != chunks[a].base
  }

  predicate Ordered(chunks: Chunks, a: int, b: int) { a < b ==> End(chunks, a) <= b }

  ghost predicate ArenaFits(chunks: Chunks, arenas: Arenas, b: int) {
    b in chunks && b in arenas && chunks[b].base == b && arenas[b] % HEAP_PAGE == 0
  }

  predicate ArenasOrdered(arenas: Arenas, b: int, d: int) { b < d ==> ArenaEnd(arenas, b) <= d }

  /** The chunks tile the arenas.  (The triggers keep the solver from walking from neighbour to
      neighbour; proofs name the chunks they look at.) */
  ghost predicate Tiling(chunks: Chunks, arenas: Arenas) {
    && (forall a {:trigger Fits(chunks, arenas, a)} | a in chunks :: Fits(chunks, arenas, a))
    && (forall a, b {:trigger Ordered(chunks, a, b)} | a in chunks && b in chunks :: Ordered(chunks, a, b))
    && (forall b {:trigger ArenaFits(chunks, arenas, b)} | b in arenas :: ArenaFits(chunks, arenas, b))
    && (forall b, d {:trigger ArenasOrdered(arenas, b, d)} | b in arenas && d in arenas :: ArenasOrdered(arenas, b, d))
  }

  /** No two neighbours are both free. */
  ghost predicate Coalesced(chunks: Chunks, arenas: Arenas) {
    forall a {:trigger CoalescedAt(chunks, arenas, a)} | a in chunks :: CoalescedAt(chunks, arenas, a)
  }

  ghost predicate CoalescedAt(chunks: Chunks, arenas: Arenas, a: int) {
    a in chunks && !chunks[a].used && !IsLast(chunks, arenas, a) ==>
      End(chunks, a) in chunks && chunks[End(chunks, a)].used
  }

  /** No arena is a single free chunk. */
  ghost predicate NoEmptyArena(chunks: Chunks, arenas: Arenas) {
    forall b {:trigger Occupied(chunks, arenas, b)} | b in arenas :: Occupied(chunks, arenas, b)
  }

  ghost predicate Occupied(chunks: Chunks, arenas: Arenas, b: int) {
    IsLast(chunks, arenas, b) ==> chunks[b].used
  }

  // ---------------------------------------------------------------- tags

  function SizeWord(ch: Chunk): nat {
    if ch.size < 0 then 0 else ch.size + if ch.used then 1 else 0
  }

  function ArenaWord(chunks: Chunks, arenas: Arenas, a: int): int {
    if a !in chunks then 0
    else ArenaEnd(arenas, chunks[a].base) - chunks[a].base
         + (if a == chunks[a].base then 1 else 0) + (if IsLast(chunks, arenas, a) then 2 else 0)
  }

  // The flag bits the code masks in and out of the two words.
  predicate UsedBit(word: nat) { word % 2 == 1 }
  function SizeBits(word: nat): nat { word - word % 2 }
  predicate BeginBit(word: nat) { word % 2 == 1 }
  predicate EndBit(word: nat) { word / 2 % 2 == 1 }
  function ArenaBits(word: nat): nat { word - word % 4 }

  /** The arena word with these flags. */
  function ArenaFlags(word: nat, begins: bool, ends: bool): nat {
    ArenaBits(word) + (if begins then 1 else 0) + (if ends then 2 else 0)
  }

  /** The words of a chunk decode to what they encode. */
  lemma WordsDecode(chunks: Chunks, arenas: Arenas, a: int)
    requires Tiling(chunks, arenas) && a in chunks
    ensures var w := SizeWord(chunks[a]); UsedBit(w) == chunks[a].used && SizeBits(w) == chunks[a].size
    ensures ArenaWord(chunks, arenas, a) >= 0
    ensures var w := ArenaWord(chunks, arenas, a);
            BeginBit(w) == (a == chunks[a].base) && EndBit(w) == IsLast(chunks, arenas, a)
            && chunks[a].base in arenas && ArenaBits(w) == arenas[chunks[a].base]
  {
    assert Fits(chunks, arenas, a);
    var b := chunks[a].base;
    assert ArenaFits(chunks, arenas, b);
    SizeFlag(chunks[a].size, chunks[a].used);
    PageFlags(arenas[b], a == b, IsLast(chunks, arenas, a));
  }

  lemma SizeFlag(size: nat, used: bool)
    requires size % 16 == 0
    ensures var w := size + if used then 1 else 0; UsedBit(w) == used && SizeBits(w) == size
  {
    assert size == 2 * (8 * (size / 16));
  }

  lemma PageFlags(len: nat, begins: bool, ends: bool)
    requires len % HEAP_PAGE == 0
    ensures var w := len + (if begins then 1 else 0) + (if ends then 2 else 0);
            BeginBit(w) == begins && EndBit(w) == ends && ArenaBits(w) == len
  {
    var k := 1024 * (len / HEAP_PAGE);
    assert len == 4 * k;
    QuarterFlags(k, (if begins then 1 else 0) + (if ends then 2 else 0));
  }

  lemma QuarterFlags(k: nat, f: nat)
    requires f < 4
    ensures (4 * k + f) % 2 == f % 2 && (4 * k + f) / 2 % 2 == f / 2 && (4 * k + f) % 4 == f
  {
    assert (4 * k + f) / 2 == 2 * k + f / 2;
  }

  /** A header at `a` and a footer `size` bytes after it, holding these words under these canaries. */
  predicate TagWords(mem: Memory, hc: nat, fc: nat, a: int, size: int, word: nat, arena: int) {
    var f := a + HEADER + size;
    && a in mem && a + 8 in mem && a + 24 in mem && f in mem && f + 8 in mem
    && mem[a] == word && mem[a + 8] == arena && mem[a + 24] == Xor(word, hc)
    && mem[f] == Xor(word, fc) && mem[f + 8] == word
  }

  ghost predicate TaggedAt(mem: Memory, hc: nat, fc: nat, chunks: Chunks, arenas: Arenas, a: int) {
    a in chunks && TagWords(mem, hc, fc, a, chunks[a].size, SizeWord(chunks[a]), ArenaWord(chunks, arenas, a))
  }

  ghost predicate Tagged(mem: Memory, hc: nat, fc: nat, chunks: Chunks, arenas: Arenas) {
    forall a {:trigger TaggedAt(mem, hc, fc, chunks, arenas, a)} | a in chunks ::
      TaggedAt(mem, hc, fc, chunks, arenas, a)
  }

  ghost predicate Mapped(mem: Memory, arenas: Arenas) {
    forall b, w {:trigger InArena(arenas, b, w)} | InArena(arenas, b, w) :: w in mem
  }

  predicate InArena(arenas: Arenas, b: int, w: int) { b in arenas && b <= w < ArenaEnd(arenas, b) }

  // ---------------------------------------------------------------- free list

  /** The doubly linked list `list` is threaded through memory and starts at `head`. */
  ghost predicate Linked(mem: Memory, head: int, list: seq<int>) {
    && head == (if list == [] then 0 else list[0])
    && forall i {:trigger LinkedAt(mem, list, i)} | 0 <= i < |list| :: LinkedAt(mem, list, i)
  }

  ghost predicate LinkedAt(mem: Memory, list: seq<int>, i: int) {
    && 0 <= i < |list| && list[i] > 0 && list[i] + 32 in mem && list[i] + 40 in mem
    && mem[list[i] + 32] == (if i + 1 < |list| then list[i + 1] else 0)
    && mem[list[i] + 40] == (if i > 0 then list[i - 1] else 0)
  }

  /** Members are too far apart for their links to overlap; in particular there are no duplicates. */
  ghost predicate Spread(list: seq<int>) {
    forall i, j | 0 <= i < |list| && 0 <= j < |list| && i != j :: Apart(list[i], list[j])
  }

  predicate Apart(x: int, y: int) { x + OVERHEAD <= y || y + OVERHEAD <= x }

  /** Every member of the list is a free chunk. */
  ghost predicate AllFree(list: seq<int>, chunks: Chunks) {
    forall x | x in list :: x in chunks && !chunks[x].used
  }

  /** The list holds every free chunk. */
  ghost predicate Complete(list: seq<int>, chunks: Chunks) {
    forall a | a in chunks && !chunks[a].used :: a in list
  }

  // ---------------------------------------------------------------- frames

  /** `w` is a link word of a member of `nodes`. */
  predicate IsLink(nodes: set<int>, w: int) { w - 32 in nodes || w - 40 in nodes }

  /** Memory changed only in the link words of `nodes` and in the span [lo, hi). */
  ghost predicate Changed(mem: Memory, mem': Memory, nodes: set<int>, lo: int, hi: int) {
    && mem'.Keys == mem.Keys
    && forall w | w in mem && !(lo <= w < hi) && !IsLink(nodes, w) :: mem'[w] == mem[w]
  }

  // ---------------------------------------------------------------- consequences

  lemma ExtentsApart(chunks: Chunks, arenas: Arenas, a: int, b: int)
    requires Tiling(chunks, arenas) && a in chunks && b in chunks && a != b
    ensures End(chunks, a) <= b || End(chunks, b) <= a
    ensures Apart(a, b) && chunks[a].size >= LINKS && chunks[b].size >= LINKS
  {
    assert Fits(chunks, arenas, a) && Fits(chunks, arenas, b);
    assert Ordered(chunks, a, b) && Ordered(chunks, b, a);
  }

  /** Chunks tile each arena exactly: every address of an arena lies in exactly one chunk. */
  lemma {:induction false} ArenaCovered(chunks: Chunks, arenas: Arenas, b: int, w: int) returns (a: int)
    requires Tiling(chunks, arenas) && b in arenas && b <= w < ArenaEnd(arenas, b)
    ensures a in chunks && chunks[a].base == b && a <= w < End(chunks, a)
    ensures forall x | x in chunks && x <= w < End(chunks, x) :: x == a
  {
    assert ArenaFits(chunks, arenas, b);
    a := CoveredFrom(chunks, arenas, b, b, w);
    forall x | x in chunks && x <= w < End(chunks, x) ensures x == a {
      if x != a { ExtentsApart(chunks, arenas, x, a); }
    }
  }

  lemma {:induction false} CoveredFrom(chunks: Chunks, arenas: Arenas, b: int, from: int, w: int) returns (a: int)
    requires Tiling(chunks, arenas) && b in arenas && from in chunks && chunks[from].base == b
    requires from <= w < ArenaEnd(arenas, b)
    ensures a in chunks && chunks[a].base == b && a <= w < End(chunks, a)
    decreases w - from
  {
    assert Fits(chunks, arenas, from);
    a := from;
    if w >= End(chunks, from) {
      assert PrecededBy(chunks, End(chunks, from), from);
      a := CoveredFrom(chunks, arenas, b, End(chunks, from), w);
    }
  }

  /** Every mapped arena holds a used chunk. */
  lemma ArenaHasUsedChunk(chunks: Chunks, arenas: Arenas, b: int) returns (a: int)
    requires Tiling(chunks, arenas) && Coalesced(chunks, arenas) && NoEmptyArena(chunks, arenas) && b in arenas
    ensures a in chunks && chunks[a].used && chunks[a].base == b
  {
    assert ArenaFits(chunks, arenas, b) && Fits(chunks, arenas, b);
    assert Occupied(chunks, arenas, b) && CoalescedAt(chunks, arenas, b);
    a := b;
    if !chunks[b].used {
      a := End(chunks, b);
      assert PrecededBy(chunks, a, b);
    }
  }
}
