/** The loader heap's free list: a doubly linked list threaded through the user area of free chunks.
    A member `x` keeps its successor at `x + 32` and its predecessor at `x + 40`; 0 ends the list. */
module FreeList {
  import opened Bits
  import opened HeapLayout

  /** The header canary of `x` is intact. */
  predicate CanaryOk(mem: Memory, key: nat, x: int) {
    x in mem && x + 24 in mem && Xor(mem[x], mem[x + 24]) == key
  }

  ghost predicate CanariesOk(mem: Memory, key: nat, list: seq<int>) {
    forall x | x in list :: CanaryOk(mem, key, x)
  }

  /** The list a heap of `list` and the words at `head` represent. */
  ghost predicate Threaded(mem: Memory, key: nat, head: int, list: seq<int>) {
    Linked(mem, head, list) && Spread(list) && CanariesOk(mem, key, list)
  }

  function Members(list: seq<int>): set<int> { set x | x in list }

  function Without(list: seq<int>, i: int): seq<int>
    requires 0 <= i < |list|
  {
    list[..i] + list[i + 1..]
  }

  function Next(list: seq<int>, i: int): int
    requires 0 <= i < |list|
  {
    if i + 1 < |list| then list[i + 1] else 0
  }

  function Last(list: seq<int>, i: int): int
    requires 0 <= i < |list|
  {
    if i > 0 then list[i - 1] else 0
  }

  // ---------------------------------------------------------------- effects on the list

  /** Only link words of `nodes` differ: the canaries of members that keep apart from them survive. */
  lemma CanariesKept(mem: Memory, mem': Memory, key: nat, list: seq<int>, nodes: set<int>)
    requires CanariesOk(mem, key, list) && Changed(mem, mem', nodes, 0, 0)
    requires forall x, y | x in list && y in nodes :: x == y || Apart(x, y)
    ensures CanariesOk(mem', key, list)
  {
    forall x | x in list ensures CanaryOk(mem', key, x) {
      assert CanaryOk(mem, key, x);
      forall y | y in nodes ensures x != y + 32 && x != y + 40 && x + 24 != y + 32 && x + 24 != y + 40 {
        assert x == y || Apart(x, y);
      }
      assert !IsLink(nodes, x) && !IsLink(nodes, x + 24);
    }
  }

  /** `w` is a link word that unlinking `list[i]` may write. */
  predicate Touched(list: seq<int>, i: int, w: int)
    requires 0 <= i < |list|
  {
    || w == list[i] + 32 || w == list[i] + 40
    || (i > 0 && w == list[i - 1] + 32) || (i + 1 < |list| && w == list[i + 1] + 40)
  }

  /** `mem'` is `mem` with the neighbours of `list[i]` joined to each other. */
  ghost predicate Bypassed(mem: Memory, mem': Memory, list: seq<int>, i: int) {
    && 0 <= i < |list| && mem'.Keys == mem.Keys
    && (forall w | w in mem && !Touched(list, i, w) :: mem'[w] == mem[w])
    && (i > 0 ==> list[i - 1] + 32 in mem' && mem'[list[i - 1] + 32] == Next(list, i))
    && (i + 1 < |list| ==> list[i + 1] + 40 in mem' && mem'[list[i + 1] + 40] == Last(list, i))
  }

  lemma UnlinkKeepsThread(mem: Memory, mem': Memory, key: nat, head: int, list: seq<int>, i: int)
    requires Threaded(mem, key, head, list) && Bypassed(mem, mem', list, i)
    ensures Threaded(mem', key, if i == 0 then Next(list, 0) else head, Without(list, i))
    ensures Changed(mem, mem', Members(list), 0, 0)
  {
    var list' := Without(list, i);
    forall j | 0 <= j < |list'| ensures LinkedAt(mem', list', j) {
      UnlinkAt(mem, mem', head, list, i, j);
    }
    forall j, k | 0 <= j < |list'| && 0 <= k < |list'| && j != k ensures Apart(list'[j], list'[k]) {
      assert list'[j] == list[if j < i then j else j + 1] && list'[k] == list[if k < i then k else k + 1];
    }
    BypassChanges(mem, mem', head, list, i);
    SpreadMembers(list);
    CanariesKept(mem, mem', key, list', Members(list));
  }

  lemma SpreadMembers(list: seq<int>)
    requires Spread(list)
    ensures forall x, y | x in list && y in list :: x == y || Apart(x, y)
  {
    forall x, y | x in list && y in list ensures x == y || Apart(x, y) {
      var j :| 0 <= j < |list| && list[j] == x;
      var k :| 0 <= k < |list| && list[k] == y;
    }
  }

  lemma WithoutMembers(list: seq<int>, i: int)
    requires Spread(list) && 0 <= i < |list|
    ensures forall x :: x in Without(list, i) <==> x in list && x != list[i]
  {
    forall x | x in list && x != list[i] ensures x in Without(list, i) {
      var j :| 0 <= j < |list| && list[j] == x;
      assert Without(list, i)[if j < i then j else j - 1] == x;
    }
    forall x | x in Without(list, i) ensures x in list && x != list[i] {
      var j :| 0 <= j < |list| - 1 && Without(list, i)[j] == x;
      var k := if j < i then j else j + 1;
      assert list[k] == x && Apart(list[k], list[i]);
    }
  }

  lemma BypassChanges(mem: Memory, mem': Memory, head: int, list: seq<int>, i: int)
    requires Linked(mem, head, list) && Bypassed(mem, mem', list, i)
    ensures Changed(mem, mem', Members(list), 0, 0)
  {
    assert LinkedAt(mem, list, i);
    forall w | w in mem && !IsLink(Members(list), w) ensures mem'[w] == mem[w] {
      assert list[i] in list;
      if i > 0 { assert list[i - 1] in list; }
      if i + 1 < |list| { assert list[i + 1] in list; }
    }
  }

  lemma UnlinkAt(mem: Memory, mem': Memory, head: int, list: seq<int>, i: int, j: int)
    requires Linked(mem, head, list) && Spread(list) && Bypassed(mem, mem', list, i)
    requires 0 <= j < |list| - 1
    ensures LinkedAt(mem', Without(list, i), j)
  {
    var list' := Without(list, i);
    var k := if j < i then j else j + 1;
    var x := list[k];
    assert list'[j] == x && LinkedAt(mem, list, k) && LinkedAt(mem, list, i);
    assert Apart(x, list[i]);
    if i > 0 && k + 1 != i { assert Apart(x, list[i - 1]); }
    if i + 1 < |list| && k != i + 1 { assert Apart(x, list[i + 1]); }
  }

  /** `mem'` is `mem` with `c` put before the list. */
  ghost predicate Pushed(mem: Memory, mem': Memory, list: seq<int>, c: int) {
    && mem'.Keys == mem.Keys && c + 32 in mem && c + 40 in mem
    && (forall w | w in mem && w != c + 32 && w != c + 40 && (list != [] ==> w != list[0] + 40) :: mem'[w] == mem[w])
    && mem'[c + 32] == (if list == [] then 0 else list[0]) && mem'[c + 40] == 0
    && (list != [] ==> list[0] + 40 in mem' && mem'[list[0] + 40] == c)
  }

  lemma PushKeepsThread(mem: Memory, mem': Memory, key: nat, head: int, list: seq<int>, c: int)
    requires Threaded(mem, key, head, list) && Pushed(mem, mem', list, c)
    requires c > 0 && CanaryOk(mem, key, c) && forall x | x in list :: Apart(c, x)
    ensures Threaded(mem', key, c, [c] + list)
    ensures Changed(mem, mem', Members([c] + list), 0, 0)
  {
    var list' := [c] + list;
    forall j | 0 <= j < |list'| ensures LinkedAt(mem', list', j) {
      if j > 0 {
        assert LinkedAt(mem, list, j - 1) && list[j - 1] in list;
        if j > 1 { assert Apart(list[0], list[j - 1]); }
      }
    }
    forall j, k | 0 <= j < |list'| && 0 <= k < |list'| && j != k ensures Apart(list'[j], list'[k]) {
      assert j > 0 ==> list'[j] == list[j - 1] && list[j - 1] in list;
      assert k > 0 ==> list'[k] == list[k - 1] && list[k - 1] in list;
    }
    assert Spread(list');
    SpreadMembers(list');
    forall w | w in mem && !IsLink(Members(list'), w) ensures mem'[w] == mem[w] {
      assert c in list';
      if list != [] { assert list'[1] in list'; }
    }
    CanariesKept(mem, mem', key, list', Members(list'));
  }

  /** `mem'` is `mem` with `d` taking the place of `list[i]`. */
  ghost predicate Replaced(mem: Memory, mem': Memory, list: seq<int>, i: int, d: int) {
    && 0 <= i < |list| && mem'.Keys == mem.Keys && d + 32 in mem && d + 40 in mem
    && (forall w | w in mem && w != d + 32 && w != d + 40 && !Touched(list, i, w) :: mem'[w] == mem[w])
    && mem'[d + 32] == Next(list, i) && mem'[d + 40] == Last(list, i)
    && (i > 0 ==> list[i - 1] + 32 in mem' && mem'[list[i - 1] + 32] == d)
    && (i + 1 < |list| ==> list[i + 1] + 40 in mem' && mem'[list[i + 1] + 40] == d)
  }

  lemma ReplaceKeepsThread(mem: Memory, mem': Memory, key: nat, head: int, list: seq<int>, i: int, d: int)
    requires Threaded(mem, key, head, list) && Replaced(mem, mem', list, i, d)
    requires d > 0 && CanaryOk(mem, key, d) && forall x | x in list :: Apart(d, x)
    ensures Threaded(mem', key, if i == 0 then d else head, list[i := d])
    ensures Changed(mem, mem', Members(list) + {d}, 0, 0)
  {
    var list' := list[i := d];
    forall j | 0 <= j < |list'| ensures LinkedAt(mem', list', j) { ReplaceAt(mem, mem', head, list, i, d, j); }
    forall j, k | 0 <= j < |list'| && 0 <= k < |list'| && j != k ensures Apart(list'[j], list'[k]) {
      assert list[j] in list && list[k] in list && Apart(list[j], list[k]);
    }
    assert Spread(list');
    ReplaceChanges(mem, mem', list, i, d);
    SpreadMembers(list);
    forall x | x in list' ensures CanaryOk(mem, key, x) && (x == d || x in list) {}
    CanariesKept(mem, mem', key, list', Members(list) + {d});
  }

  lemma ReplaceChanges(mem: Memory, mem': Memory, list: seq<int>, i: int, d: int)
    requires Replaced(mem, mem', list, i, d)
    ensures Changed(mem, mem', Members(list) + {d}, 0, 0)
  {
    forall w | w in mem && !IsLink(Members(list) + {d}, w) ensures mem'[w] == mem[w] {
      assert list[i] in list;
      if i > 0 { assert list[i - 1] in list; }
      if i + 1 < |list| { assert list[i + 1] in list; }
    }
  }

  lemma ReplaceAt(mem: Memory, mem': Memory, head: int, list: seq<int>, i: int, d: int, j: int)
    requires Linked(mem, head, list) && Spread(list) && Replaced(mem, mem', list, i, d)
    requires d > 0 && forall x | x in list :: Apart(d, x)
    requires 0 <= j < |list|
    ensures LinkedAt(mem', list[i := d], j)
  {
    assert LinkedAt(mem, list, j);
    var x := list[j];
    assert x in list && list[i] in list;
    if j != i {
      assert Apart(x, list[i]);
      if i > 0 && j + 1 != i { assert Apart(x, list[i - 1]); }
      if i + 1 < |list| && j != i + 1 { assert Apart(x, list[i + 1]); }
    }
  }

  // ---------------------------------------------------------------- the code's writes

  /** The links of a member name its neighbours, and 0 where there is none. */
  lemma NeighbourWords(mem: Memory, key: nat, head: int, list: seq<int>, i: int)
    requires Threaded(mem, key, head, list) && 0 <= i < |list|
    ensures var c := list[i];
            && c + 32 in mem && c + 40 in mem && mem[c + 32] == Next(list, i) && mem[c + 40] == Last(list, i)
    ensures Last(list, i) == 0 <==> i == 0
    ensures Next(list, i) == 0 <==> i + 1 == |list|
    ensures i > 0 ==> CanaryOk(mem, key, list[i - 1]) && list[i - 1] + 32 in mem
    ensures i + 1 < |list| ==> CanaryOk(mem, key, list[i + 1]) && list[i + 1] + 40 in mem
    ensures 0 < i < |list| - 1 ==> Apart(list[i - 1], list[i + 1])
  {
    assert LinkedAt(mem, list, i);
    if i > 0 { assert LinkedAt(mem, list, i - 1) && list[i - 1] in list; }
    if i + 1 < |list| { assert LinkedAt(mem, list, i + 1) && list[i + 1] in list; }
  }

  /** Writes of one unlink: the neighbours are joined and the member's own links cleared. */
  function UnlinkWrites(mem: Memory, c: int, next: nat, last: nat): Memory {
    var joined := if last == 0 then mem else mem[last + 32 := next];
    (if next == 0 then joined else joined[next + 40 := last])[c + 40 := 0][c + 32 := 0]
  }

  lemma UnlinkBypasses(mem: Memory, key: nat, head: int, list: seq<int>, i: int)
    requires Threaded(mem, key, head, list) && 0 <= i < |list|
    requires Next(list, i) >= 0 && Last(list, i) >= 0
    ensures Bypassed(mem, UnlinkWrites(mem, list[i], Next(list, i), Last(list, i)), list, i)
  {
    NeighbourWords(mem, key, head, list, i);
    if i > 0 { assert Apart(list[i], list[i - 1]); }
    if i + 1 < |list| { assert Apart(list[i], list[i + 1]); }
    if i > 0 && i + 1 < |list| { assert Apart(list[i - 1], list[i + 1]); }
  }

  /** Writes of one link at the front. */
  function LinkWrites(mem: Memory, c: int, head: int): Memory
    requires c >= 0 && head >= 0
  {
    (if head == 0 then mem else mem[head + 40 := c])[c + 32 := head][c + 40 := 0]
  }

  lemma LinkPushes(mem: Memory, key: nat, head: int, list: seq<int>, c: int)
    requires Threaded(mem, key, head, list) && c > 0 && c + 32 in mem && c + 40 in mem
    requires forall x | x in list :: Apart(c, x)
    ensures head >= 0 && (head != 0 ==> CanaryOk(mem, key, head))
    ensures Pushed(mem, LinkWrites(mem, c, head), list, c)
  {
    if list != [] { assert LinkedAt(mem, list, 0) && list[0] in list; }
  }

  /** Writes that put `d` in the place of member `c`. */
  function ReplaceWrites(mem: Memory, c: int, d: nat, next: nat, last: nat): Memory {
    var moved := mem[d + 32 := next][d + 40 := last][c + 32 := 0][c + 40 := 0];
    var after := if next == 0 then moved else moved[next + 40 := d];
    if last == 0 then after else after[last + 32 := d]
  }

  /** `mem'` differs from `mem` by those writes alone. */
  ghost predicate Moved(mem: Memory, mem': Memory, c: int, d: int, next: int, last: int) {
    && mem'.Keys == mem.Keys && d + 32 in mem && d + 40 in mem && mem'[d + 32] == next && mem'[d + 40] == last
    && (next != 0 ==> next + 40 in mem && mem'[next + 40] == d)
    && (last != 0 ==> last + 32 in mem && mem'[last + 32] == d)
    && forall w | w in mem && w != c + 32 && w != c + 40 && w != d + 32 && w != d + 40
                  && (next != 0 ==> w != next + 40) && (last != 0 ==> w != last + 32) :: mem'[w] == mem[w]
  }

  lemma WritesMove(mem: Memory, c: int, d: nat, next: nat, last: nat)
    requires c + 32 in mem && c + 40 in mem && d + 32 in mem && d + 40 in mem
    requires (next != 0 ==> next + 40 in mem) && (last != 0 ==> last + 32 in mem)
    requires Apart(c, d) && (next != 0 ==> Apart(c, next) && Apart(d, next))
    requires (last != 0 ==> Apart(c, last) && Apart(d, last))
    requires next != 0 && last != 0 ==> Apart(next, last)
    ensures Moved(mem, ReplaceWrites(mem, c, d, next, last), c, d, next, last)
  {
  }

  lemma NeighboursApart(mem: Memory, key: nat, head: int, list: seq<int>, i: int, d: int)
    requires Threaded(mem, key, head, list) && 0 <= i < |list| && forall x | x in list :: Apart(d, x)
    ensures Apart(list[i], d)
    ensures i > 0 ==> Apart(list[i], list[i - 1]) && Apart(d, list[i - 1])
    ensures i + 1 < |list| ==> Apart(list[i], list[i + 1]) && Apart(d, list[i + 1])
    ensures head == list[i] <==> i == 0
  {
    assert list[i] in list;
    if i > 0 { assert list[i - 1] in list && Apart(list[0], list[i]); }
    if i + 1 < |list| { assert list[i + 1] in list; }
  }

  lemma MoveReplaces(mem: Memory, mem': Memory, key: nat, head: int, list: seq<int>, i: int, d: nat)
    requires Threaded(mem, key, head, list) && 0 <= i < |list|
    requires Moved(mem, mem', list[i], d, Next(list, i), Last(list, i))
    ensures Replaced(mem, mem', list, i, d)
  {
    NeighbourWords(mem, key, head, list, i);
  }

  /** The position of the first member that satisfies the request, or the length of the list. */
  ghost function FirstFit(list: seq<int>, chunks: Chunks, n: int): (i: nat)
    ensures i <= |list| && (i < |list| ==> list[i] in chunks && chunks[list[i]].size >= n)
    ensures forall j | 0 <= j < i :: !(list[j] in chunks && chunks[list[j]].size >= n)
  {
    if list == [] || (list[0] in chunks && chunks[list[0]].size >= n) then 0
    else
      var k := FirstFit(list[1..], chunks, n);
      assert forall j | 0 < j < |list| :: list[j] == list[1..][j - 1];
      1 + k
  }

  lemma FirstFitIs(list: seq<int>, chunks: Chunks, n: int, i: nat)
    requires i <= |list| && (i < |list| ==> list[i] in chunks && chunks[list[i]].size >= n)
    requires forall j | 0 <= j < i :: !(list[j] in chunks && chunks[list[j]].size >= n)
    ensures FirstFit(list, chunks, n) == i
  {
  }
}
