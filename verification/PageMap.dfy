/** The address map that a list of page groups stands for, and how cutting and joining lists changes it. */
module PageMap {
  const PAGE: int := 4096

  /** One page group: its list node, the bytes it covers and what is recorded about them. */
  datatype VirtPage = VirtPage(node: int, start: int, size: int, prot: int, flags: int, cid: int)

  function End(g: VirtPage): int { g.start + g.size }

  predicate Covers(g: VirtPage, a: int) { g.start <= a < End(g) }

  /** What the list says about one address. */
  datatype Info = Unmapped | Mapped(prot: int, flags: int, cid: int)

  function InfoOf(g: VirtPage): Info { Mapped(g.prot, g.flags, g.cid) }

  function At(list: seq<VirtPage>, a: int): Info {
    if list == [] then Unmapped else if Covers(list[0], a) then InfoOf(list[0]) else At(list[1..], a)
  }

  /** Groups are nonempty, in address order and disjoint. */
  ghost predicate Sorted(list: seq<VirtPage>) {
    && (forall i | 0 <= i < |list| :: list[i].size > 0)
    && (forall i, j | 0 <= i < j < |list| :: End(list[i]) <= list[j].start)
  }

  /** No group reaches past `m`. */
  ghost predicate Below(list: seq<VirtPage>, m: int) { forall i | 0 <= i < |list| :: End(list[i]) <= m }

  /** No group starts before `m`. */
  ghost predicate Above(list: seq<VirtPage>, m: int) { forall i | 0 <= i < |list| :: list[i].start >= m }

  /** The least multiple of the page size that is at least `n`. */
  function RoundUp(n: nat): (r: nat)
    ensures r % PAGE == 0 && n <= r < n + PAGE
  {
    (n + (PAGE - 1)) / PAGE * PAGE
  }

  // ---------------------------------------------------------------- the map of a list

  lemma {:induction false} AtConcat(x: seq<VirtPage>, y: seq<VirtPage>, a: int)
    ensures At(x + y, a) == if At(x, a) != Unmapped then At(x, a) else At(y, a)
  {
    if x == [] {
      assert x + y == y;
    } else {
      assert (x + y)[1..] == x[1..] + y;
      AtConcat(x[1..], y, a);
    }
  }

  lemma {:induction false} AtNone(list: seq<VirtPage>, a: int)
    requires forall i | 0 <= i < |list| :: !Covers(list[i], a)
    ensures At(list, a) == Unmapped
  {
    if list != [] {
      forall i | 0 <= i < |list[1..]| ensures !Covers(list[1..][i], a) { assert list[1..][i] == list[i + 1]; }
      AtNone(list[1..], a);
    }
  }

  /** In a sorted list an address belongs to the one group that covers it. */
  lemma {:induction false} AtGroup(list: seq<VirtPage>, i: int, a: int)
    requires Sorted(list) && 0 <= i < |list| && Covers(list[i], a)
    ensures At(list, a) == InfoOf(list[i])
  {
    assert list == list[..i] + ([list[i]] + list[i + 1..]);
    AtNone(list[..i], a);
    AtConcat(list[..i], [list[i]] + list[i + 1..], a);
  }

  /** A mapped address is covered by some group. */
  lemma {:induction false} AtSome(list: seq<VirtPage>, a: int) returns (i: int)
    requires At(list, a) != Unmapped
    ensures 0 <= i < |list| && Covers(list[i], a) && At(list, a) == InfoOf(list[i])
  {
    if Covers(list[0], a) { i := 0; } else { i := AtSome(list[1..], a); i := i + 1; }
  }

  lemma BelowMap(list: seq<VirtPage>, m: int, a: int)
    requires Below(list, m) && a >= m
    ensures At(list, a) == Unmapped
  {
    AtNone(list, a);
  }

  lemma AboveMap(list: seq<VirtPage>, m: int, a: int)
    requires Above(list, m) && a < m
    ensures At(list, a) == Unmapped
  {
    AtNone(list, a);
  }

  // ---------------------------------------------------------------- splices

  lemma SortedJoin(x: seq<VirtPage>, y: seq<VirtPage>, m: int)
    requires Sorted(x) && Sorted(y) && Below(x, m) && Above(y, m)
    ensures Sorted(x + y)
  {
    forall i, j | 0 <= i < j < |x + y| ensures End((x + y)[i]) <= (x + y)[j].start {
      if i < |x| <= j { assert End(x[i]) <= m <= y[j - |x|].start; }
    }
  }

  lemma SortedParts(list: seq<VirtPage>, j: int, k: int)
    requires Sorted(list) && 0 <= j <= k <= |list|
    ensures Sorted(list[..j]) && Sorted(list[j..k]) && Sorted(list[k..])
    ensures j < |list| ==> Below(list[..j], list[j].start)
    ensures k > 0 ==> Above(list[k..], End(list[k - 1]))
  {
  }

  /** Replacing the groups from `j` to `k` by groups inside a span that no other group meets. */
  lemma SpliceSorted(pre: seq<VirtPage>, mid: seq<VirtPage>, post: seq<VirtPage>, lo: int, hi: int)
    requires Sorted(pre) && Sorted(mid) && Sorted(post) && lo <= hi
    requires Below(pre, lo) && Above(mid, lo) && Below(mid, hi) && Above(post, hi)
    ensures Sorted(pre + mid + post)
  {
    SortedJoin(pre, mid, lo);
    forall i | 0 <= i < |pre + mid| ensures End((pre + mid)[i]) <= hi {
      if i < |pre| { assert End(pre[i]) <= lo; } else { assert (pre + mid)[i] == mid[i - |pre|]; }
    }
    SortedJoin(pre + mid, post, hi);
  }

  lemma SpliceMap(pre: seq<VirtPage>, mid: seq<VirtPage>, post: seq<VirtPage>, lo: int, hi: int, a: int)
    requires lo <= hi && Below(pre, lo) && Above(mid, lo) && Below(mid, hi) && Above(post, hi)
    ensures At(pre + mid + post, a) == if a < lo then At(pre, a) else if a < hi then At(mid, a) else At(post, a)
  {
    AtConcat(pre + mid, post, a);
    AtConcat(pre, mid, a);
    if a >= lo { BelowMap(pre, lo, a); } else { AboveMap(mid, lo, a); }
    if a >= hi { BelowMap(mid, hi, a); } else { AboveMap(post, hi, a); }
  }

  // ---------------------------------------------------------------- cutting a span out

  /** The part of `g` before `lo`. */
  function Front(g: VirtPage, lo: int): seq<VirtPage> {
    if g.start < lo then [g.(size := lo - g.start)] else []
  }

  /** The part of `g` from `hi` on, kept in `node`. */
  function Back(g: VirtPage, hi: int, node: int): seq<VirtPage> {
    if End(g) > hi then [g.(node := node, start := hi, size := End(g) - hi)] else []
  }

  /** The list with [lo, hi) cut out of groups `j` to `k`. */
  function Trimmed(list: seq<VirtPage>, j: int, k: int, lo: int, hi: int, node: int): seq<VirtPage>
    requires 0 <= j <= k < |list|
  {
    list[..j] + (Front(list[j], lo) + Back(list[k], hi, node)) + list[k + 1..]
  }

  /** Groups `j` to `k` are the ones that meet [lo, hi). */
  ghost predicate Meets(list: seq<VirtPage>, j: int, k: int, lo: int, hi: int) {
    && 0 <= j <= k < |list| && lo < hi
    && Below(list[..j], lo) && End(list[j]) > lo && list[k].start < hi && Above(list[k + 1..], hi)
  }

  lemma FrontBackMap(g: VirtPage, h: VirtPage, lo: int, hi: int, node: int, a: int)
    requires lo < hi && End(g) > lo && h.start < hi
    ensures At(Front(g, lo) + Back(h, hi, node), a)
         == if a < lo then (if Covers(g, a) then InfoOf(g) else Unmapped)
            else if a < hi then Unmapped
            else if Covers(h, a) then InfoOf(h) else Unmapped
  {
    AtConcat(Front(g, lo), Back(h, hi, node), a);
  }

  lemma {:induction false} EndsMap(mid: seq<VirtPage>, lo: int, hi: int, a: int)
    requires mid != [] && Sorted(mid) && End(mid[0]) > lo && mid[|mid| - 1].start < hi
    ensures a < lo ==> At(mid, a) == if Covers(mid[0], a) then InfoOf(mid[0]) else Unmapped
    ensures a >= hi ==> At(mid, a) == if Covers(mid[|mid| - 1], a) then InfoOf(mid[|mid| - 1]) else Unmapped
  {
    var last := |mid| - 1;
    if a < lo && Covers(mid[0], a) { AtGroup(mid, 0, a); }
    if a >= hi && Covers(mid[last], a) { AtGroup(mid, last, a); }
    if a < lo && !Covers(mid[0], a) {
      forall i | 0 <= i < |mid| ensures !Covers(mid[i], a) { if i > 0 { assert End(mid[0]) <= mid[i].start; } }
      AtNone(mid, a);
    }
    if a >= hi && !Covers(mid[last], a) {
      forall i | 0 <= i < |mid| ensures !Covers(mid[i], a) { if i < last { assert End(mid[i]) <= mid[last].start; } }
      AtNone(mid, a);
    }
  }

  /** Cutting keeps the list sorted and unmaps exactly [lo, hi). */
  lemma TrimSorted(list: seq<VirtPage>, j: int, k: int, lo: int, hi: int, node: int)
    requires Sorted(list) && Meets(list, j, k, lo, hi)
    ensures Sorted(Trimmed(list, j, k, lo, hi, node))
  {
    var l, h := if list[j].start < lo then list[j].start else lo, if End(list[k]) > hi then End(list[k]) else hi;
    SortedParts(list, j, k + 1);
    SpliceSorted(list[..j], Front(list[j], lo) + Back(list[k], hi, node), list[k + 1..], l, h);
  }

  /** Everything from group `j` to group `k` lies between their ends. */
  lemma MidBounds(list: seq<VirtPage>, j: int, k: int)
    requires Sorted(list) && 0 <= j <= k < |list|
    ensures var mid := list[j..k + 1]; Above(mid, list[j].start) && Below(mid, End(list[k]))
    ensures list == list[..j] + list[j..k + 1] + list[k + 1..]
  {
    forall i | j <= i <= k ensures list[j].start <= list[i].start && End(list[i]) <= End(list[k]) {
      if j < i { assert End(list[j]) <= list[i].start; }
      if i < k { assert End(list[i]) <= list[k].start; }
    }
  }

  lemma TrimMap(list: seq<VirtPage>, j: int, k: int, lo: int, hi: int, node: int, a: int)
    requires Sorted(list) && Meets(list, j, k, lo, hi)
    ensures At(Trimmed(list, j, k, lo, hi, node), a) == if lo <= a < hi then Unmapped else At(list, a)
  {
    var pre, mid, post := list[..j], list[j..k + 1], list[k + 1..];
    var mid' := Front(list[j], lo) + Back(list[k], hi, node);
    TrimParts(list, j, k, lo, hi, node);
    var l, h := if list[j].start < lo then list[j].start else lo, if End(list[k]) > hi then End(list[k]) else hi;
    SpliceMap(pre, mid, post, l, h, a);
    SpliceMap(pre, mid', post, l, h, a);
    FrontBackMap(list[j], list[k], lo, hi, node, a);
    EndsMap(mid, lo, hi, a);
  }

  lemma TrimParts(list: seq<VirtPage>, j: int, k: int, lo: int, hi: int, node: int)
    requires Sorted(list) && Meets(list, j, k, lo, hi)
    ensures var l := if list[j].start < lo then list[j].start else lo;
            var h := if End(list[k]) > hi then End(list[k]) else hi;
            var mid, mid' := list[j..k + 1], Front(list[j], lo) + Back(list[k], hi, node);
            && l <= h && list == list[..j] + mid + list[k + 1..] && Sorted(mid)
            && Below(list[..j], l) && Above(mid, l) && Below(mid, h) && Above(mid', l) && Below(mid', h)
            && Above(list[k + 1..], h)
  {
    SortedParts(list, j, k + 1);
    MidBounds(list, j, k);
  }

  // ---------------------------------------------------------------- inserting and recolouring

  function Inserted(list: seq<VirtPage>, i: int, g: VirtPage): seq<VirtPage>
    requires 0 <= i <= |list|
  {
    list[..i] + [g] + list[i..]
  }

  /** `g` fits between groups `i - 1` and `i`. */
  ghost predicate FitsAt(list: seq<VirtPage>, i: int, g: VirtPage) {
    0 <= i <= |list| && g.size > 0 && Below(list[..i], g.start) && Above(list[i..], End(g))
  }

  lemma InsertSorted(list: seq<VirtPage>, i: int, g: VirtPage)
    requires Sorted(list) && FitsAt(list, i, g)
    ensures Sorted(Inserted(list, i, g))
  {
    SortedParts(list, i, i);
    SpliceSorted(list[..i], [g], list[i..], g.start, End(g));
  }

  lemma InsertMap(list: seq<VirtPage>, i: int, g: VirtPage, a: int)
    requires FitsAt(list, i, g)
    ensures At(Inserted(list, i, g), a) == if Covers(g, a) then InfoOf(g) else At(list, a)
  {
    SpliceMap(list[..i], [g], list[i..], g.start, End(g), a);
    SpliceMap(list[..i], [], list[i..], g.start, End(g), a);
    assert list == list[..i] + [] + list[i..];
  }

  /** The pieces of `g` when the part in [lo, hi) is recorded as `piece`. */
  function Pieces(g: VirtPage, lo: int, hi: int, piece: VirtPage, node: int): seq<VirtPage> {
    Front(g, lo) + [piece] + Back(g, hi, node)
  }

  function Recoloured(list: seq<VirtPage>, j: int, lo: int, hi: int, piece: VirtPage, node: int): seq<VirtPage>
    requires 0 <= j < |list|
  {
    list[..j] + Pieces(list[j], lo, hi, piece, node) + list[j + 1..]
  }

  lemma RecolourSorted(list: seq<VirtPage>, j: int, lo: int, hi: int, piece: VirtPage, node: int)
    requires Sorted(list) && 0 <= j < |list| && list[j].start <= lo < hi <= End(list[j]) && piece.start == lo
    requires End(piece) == hi
    ensures Sorted(Recoloured(list, j, lo, hi, piece, node))
  {
    SortedParts(list, j, j + 1);
    SpliceSorted(list[..j], Pieces(list[j], lo, hi, piece, node), list[j + 1..], list[j].start, End(list[j]));
  }

  lemma RecolourMap(list: seq<VirtPage>, j: int, lo: int, hi: int, piece: VirtPage, node: int, a: int)
    requires Sorted(list) && 0 <= j < |list| && list[j].start <= lo < hi <= End(list[j]) && piece.start == lo
    requires End(piece) == hi
    ensures At(Recoloured(list, j, lo, hi, piece, node), a) == if lo <= a < hi then InfoOf(piece) else At(list, a)
  {
    var g := list[j];
    SortedParts(list, j, j + 1);
    assert list == list[..j] + [g] + list[j + 1..];
    SpliceMap(list[..j], [g], list[j + 1..], g.start, End(g), a);
    SpliceMap(list[..j], Pieces(g, lo, hi, piece, node), list[j + 1..], g.start, End(g), a);
    PiecesMap(g, lo, hi, piece, node, a);
  }

  lemma PiecesMap(g: VirtPage, lo: int, hi: int, piece: VirtPage, node: int, a: int)
    requires g.start <= lo < hi <= End(g) && piece.start == lo && End(piece) == hi
    ensures At(Pieces(g, lo, hi, piece, node), a)
         == if lo <= a < hi then InfoOf(piece) else if Covers(g, a) then InfoOf(g) else Unmapped
  {
    AtConcat(Front(g, lo) + [piece], Back(g, hi, node), a);
    AtConcat(Front(g, lo), [piece], a);
  }

  // ---------------------------------------------------------------- list nodes

  /** The nodes a list is made of, in link order. */
  function Ids(list: seq<VirtPage>): seq<int> {
    seq(|list|, i requires 0 <= i < |list| => list[i].node)
  }

  /** The same nodes, counted. */
  function Nodes(list: seq<VirtPage>): multiset<int> { multiset(Ids(list)) }

  lemma NodesConcat(x: seq<VirtPage>, y: seq<VirtPage>)
    ensures Nodes(x + y) == Nodes(x) + Nodes(y)
  {
    assert Ids(x + y) == Ids(x) + Ids(y);
  }

  lemma NodesSplice(pre: seq<VirtPage>, mid: seq<VirtPage>, post: seq<VirtPage>)
    ensures Nodes(pre + mid + post) == Nodes(pre) + Nodes(mid) + Nodes(post)
  {
    NodesConcat(pre + mid, post);
    NodesConcat(pre, mid);
  }

  lemma NodesOne(g: VirtPage)
    ensures Nodes([g]) == multiset{g.node}
  {
    assert Ids([g]) == [g.node];
  }

  lemma InsertNodes(list: seq<VirtPage>, at: int, g: VirtPage)
    requires 0 <= at <= |list|
    ensures Nodes(Inserted(list, at, g)) == Nodes(list) + multiset{g.node}
  {
    NodesSplice(list[..at], [g], list[at..]);
    NodesConcat(list[..at], list[at..]);
    assert list[..at] + list[at..] == list;
    NodesOne(g);
  }

  lemma DropNodes(list: seq<VirtPage>, p: int)
    requires 0 <= p < |list|
    ensures Nodes(list) == Nodes(list[..p] + list[p + 1..]) + multiset{list[p].node}
  {
    InsertNodes(list[..p] + list[p + 1..], p, list[p]);
    assert Inserted(list[..p] + list[p + 1..], p, list[p]) == list;
  }

  /** Changing a group but not its node. */
  lemma KeepNode(list: seq<VirtPage>, p: int, g: VirtPage)
    requires 0 <= p < |list| && g.node == list[p].node
    ensures Nodes(list[p := g]) == Nodes(list)
  {
    assert Ids(list[p := g]) == Ids(list);
  }

  /** A range inside one group meets that group alone. */
  lemma MeetsOne(list: seq<VirtPage>, j: int, lo: int, hi: int)
    requires Sorted(list) && 0 <= j < |list| && list[j].start <= lo < hi <= End(list[j])
    ensures Meets(list, j, j, lo, hi)
  {
    SortedParts(list, j, j + 1);
  }
}
