/** The bounded, oldest-first breakpoint table that every thread keeps a copy of.

  This is the value-level meaning of `hbreakpoint_controller`: which pages are watched, at which
  addresses, in which order, and how much of the hardware budget is spent.  `BreakpointController`
  proves the in-place class against it; the round protocol replicates it. */
module BreakpointTable {
  type Addr = nat

  const PAGE_SIZE: nat := 4096

  function PageOf(a: Addr): nat { a / PAGE_SIZE }

  /** One inner sequence per watched page: the addresses that carry a breakpoint. */
  datatype Table = Table(statics: seq<seq<Addr>>, dynamics: seq<seq<Addr>>, used: int, maxDynamic: int)

  function Total(pages: seq<seq<Addr>>): nat {
    if pages == [] then 0 else |pages[0]| + Total(pages[1..])
  }

  /** The accounting every operation keeps: `used` is what the pages really use, it fits the
      hardware, and `maxDynamic` is what the static pages leave over. */
  ghost predicate Budgeted(cap: nat, t: Table) {
    && [] !in t.statics && [] !in t.dynamics
    && t.used == Total(t.statics) + Total(t.dynamics) <= cap
    && t.maxDynamic == cap - Total(t.statics)
  }

  /** The table a fresh controller starts from. */
  function EmptyTable(cap: nat): Table {
    Table([], [], 0, cap)
  }

  function DropOldest(t: Table): Table {
    if t.dynamics == [] then t else t.(dynamics := t.dynamics[1..], used := t.used - |t.dynamics[0]|)
  }

  /** The table with one more page, room for it being there already. */
  function Placed(t: Table, page: seq<Addr>, isStatic: bool): Table {
    if isStatic
    then t.(statics := t.statics + [page], used := t.used + |page|, maxDynamic := t.maxDynamic - |page|)
    else t.(dynamics := t.dynamics + [page], used := t.used + |page|)
  }

  lemma {:induction false} TotalSplit(a: seq<seq<Addr>>, b: seq<seq<Addr>>)
    ensures Total(a + b) == Total(a) + Total(b)
  {
    if a == [] {
      assert a + b == b;
    } else {
      TotalSplit(a[1..], b);
      assert (a + b)[1..] == a[1..] + b;
    }
  }

  lemma TotalOne(p: seq<Addr>)
    ensures Total([p]) == |p|
  {
    assert [p][1..] == [];
  }

  /** Nonempty pages use at least one breakpoint each: this is why no page index can run off the
      fixed-size page lists. */
  lemma {:induction false} TotalBoundsLength(pages: seq<seq<Addr>>)
    requires [] !in pages
    ensures |pages| <= Total(pages)
  {
    if pages != [] {
      assert pages[0] in pages;
      TotalBoundsLength(pages[1..]);
    }
  }

  lemma DropKeepsBudget(cap: nat, t: Table)
    requires Budgeted(cap, t) && t.dynamics != []
    ensures Budgeted(cap, DropOldest(t))
  {
    assert t.dynamics == [t.dynamics[0]] + t.dynamics[1..];
  }

  lemma PlacedKeepsBudget(cap: nat, t: Table, page: seq<Addr>, isStatic: bool)
    requires Budgeted(cap, t) && page != [] && t.used + |page| <= cap
    ensures Budgeted(cap, Placed(t, page, isStatic))
    ensures |t.statics| < cap && |t.dynamics| < cap
  {
    TotalBoundsLength(t.statics);
    TotalBoundsLength(t.dynamics);
    TotalOne(page);
    TotalSplit(t.statics, [page]);
    TotalSplit(t.dynamics, [page]);
  }

  /** Evict oldest pages until `n` more breakpoints fit. */
  function Evict(cap: nat, t: Table, n: nat): (r: Table)
    requires Budgeted(cap, t) && n <= t.maxDynamic
    ensures Budgeted(cap, r) && r.used + n <= cap
    ensures r.statics == t.statics && r.maxDynamic == t.maxDynamic
    ensures |r.dynamics| <= |t.dynamics|
    decreases |t.dynamics|
  {
    if t.used + n <= cap then t
    else
      assert t.dynamics != [];
      DropKeepsBudget(cap, t);
      Evict(cap, DropOldest(t), n)
  }

  /** `add_breakpoints` for a page that may later be evicted. */
  function Add(cap: nat, t: Table, page: seq<Addr>): (r: Table)
    requires Budgeted(cap, t) && 1 <= |page| <= t.maxDynamic
    ensures Budgeted(cap, r)
    ensures r.statics == t.statics && r.maxDynamic == t.maxDynamic
    ensures page in r.dynamics
  {
    var e := Evict(cap, t, |page|);
    PlacedKeepsBudget(cap, e, page, false);
    Placed(e, page, false)
  }

  /** `add_breakpoints` for a page of the fault handler itself, which is never evicted. */
  function AddStatic(cap: nat, t: Table, page: seq<Addr>): (r: Table)
    requires Budgeted(cap, t) && 1 <= |page| <= t.maxDynamic
    ensures Budgeted(cap, r)
    ensures r.statics == t.statics + [page] && r.maxDynamic == t.maxDynamic - |page|
  {
    var e := Evict(cap, t, |page|);
    PlacedKeepsBudget(cap, e, page, true);
    Placed(e, page, true)
  }

  /** Eviction removes exactly the shortest oldest-first prefix that makes room: everything after
      it survives in order, and every shorter prefix would still leave too little room. */
  lemma {:induction false} EvictionIsShortest(cap: nat, t: Table, n: nat) returns (k: nat)
    requires Budgeted(cap, t) && n <= t.maxDynamic
    ensures k <= |t.dynamics|
    ensures Evict(cap, t, n).dynamics == t.dynamics[k..]
    ensures Total(t.statics) + Total(t.dynamics[k..]) + n <= cap
    ensures forall j | 0 <= j < k :: Total(t.statics) + Total(t.dynamics[j..]) + n > cap
    decreases |t.dynamics|
  {
    if t.used + n <= cap {
      k := 0;
      assert t.dynamics[0..] == t.dynamics;
    } else {
      DropKeepsBudget(cap, t);
      var d := DropOldest(t);
      var m := EvictionIsShortest(cap, d, n);
      k := m + 1;
      assert d.dynamics[m..] == t.dynamics[k..];
      assert t.dynamics[0..] == t.dynamics;
      forall j | 0 <= j < k
        ensures Total(t.statics) + Total(t.dynamics[j..]) + n > cap
      {
        if j > 0 { assert t.dynamics[j..] == d.dynamics[j - 1..]; }
      }
    }
  }

  /** The pages from `j` on do not fit next to `others` breakpoints. */
  ghost predicate TooMany(cap: nat, others: nat, pages: seq<seq<Addr>>, j: nat) {
    j <= |pages| && others + Total(pages[j..]) > cap
  }

  ghost predicate NoneFit(cap: nat, others: nat, pages: seq<seq<Addr>>, k: nat) {
    forall j: nat {:trigger TooMany(cap, others, pages, j)} | j < k :: TooMany(cap, others, pages, j)
  }

  /** An added page comes last, after the old ones that stay, in their order. */
  lemma AddKeepsOrder(cap: nat, t: Table, page: seq<Addr>) returns (k: nat)
    requires Budgeted(cap, t) && 1 <= |page| <= t.maxDynamic
    ensures k <= |t.dynamics| && Add(cap, t, page).dynamics == t.dynamics[k..] + [page]
    ensures Total(t.statics) + Total(t.dynamics[k..]) + |page| <= cap
    ensures NoneFit(cap, Total(t.statics) + |page|, t.dynamics, k)
  {
    k := EvictionIsShortest(cap, t, |page|);
  }

  /** A static page displaces dynamic ones in the same way. */
  lemma AddStaticKeepsOrder(cap: nat, t: Table, page: seq<Addr>) returns (k: nat)
    requires Budgeted(cap, t) && 1 <= |page| <= t.maxDynamic
    ensures k <= |t.dynamics| && AddStatic(cap, t, page).dynamics == t.dynamics[k..]
    ensures Total(t.statics) + Total(t.dynamics[k..]) + |page| <= cap
    ensures NoneFit(cap, Total(t.statics) + |page|, t.dynamics, k)
  {
    k := EvictionIsShortest(cap, t, |page|);
  }

  /** One page after the other, each by `Add`. */
  function AddAll(cap: nat, t: Table, pages: seq<seq<Addr>>): (r: Table)
    requires Budgeted(cap, t) && forall p | p in pages :: 1 <= |p| <= t.maxDynamic
    ensures Budgeted(cap, r) && r.statics == t.statics && r.maxDynamic == t.maxDynamic
  {
    if pages == [] then t else Add(cap, AddAll(cap, t, pages[..|pages| - 1]), pages[|pages| - 1])
  }

  /** `held` are the last pages, from `k` on: they fit next to `others` breakpoints, and no more would. */
  ghost predicate Newest(cap: nat, others: nat, pages: seq<seq<Addr>>, held: seq<seq<Addr>>, k: nat) {
    k <= |pages| && held == pages[k..] && others + Total(held) <= cap && NoneFit(cap, others, pages, k)
  }

  lemma TotalPage(pages: seq<seq<Addr>>, page: seq<Addr>, j: nat)
    requires j <= |pages|
    ensures (pages + [page])[j..] == pages[j..] + [page] && Total((pages + [page])[j..]) == Total(pages[j..]) + |page|
  {
    TotalSplit(pages[j..], [page]);
    TotalOne(page);
    assert (pages + [page])[j..] == pages[j..] + [page];
  }

  lemma NewestStep(cap: nat, others: nat, pages: seq<seq<Addr>>, held: seq<seq<Addr>>, m: nat, page: seq<Addr>, i: nat)
    requires Newest(cap, others, pages, held, m) && i <= |held|
    requires others + Total(held[i..]) + |page| <= cap
    requires NoneFit(cap, others + |page|, held, i)
    ensures Newest(cap, others, pages + [page], held[i..] + [page], m + i)
  {
    assert held[i..] == pages[m + i..];
    TotalPage(pages, page, m + i);
    forall j: nat | j < m + i ensures TooMany(cap, others, pages + [page], j) {
      TotalPage(pages, page, j);
      if j < m {
        assert TooMany(cap, others, pages, j);
      } else {
        assert TooMany(cap, others + |page|, held, j - m) && held[j - m..] == pages[j..];
      }
    }
  }

  lemma AddKeepsNewest(cap: nat, t: Table, pages: seq<seq<Addr>>, m: nat, page: seq<Addr>) returns (k: nat)
    requires Budgeted(cap, t) && 1 <= |page| <= t.maxDynamic && Newest(cap, Total(t.statics), pages, t.dynamics, m)
    ensures Newest(cap, Total(t.statics), pages + [page], Add(cap, t, page).dynamics, k) && k <= |pages|
  {
    var i := AddKeepsOrder(cap, t, page);
    NewestStep(cap, Total(t.statics), pages, t.dynamics, m, page, i);
    k := m + i;
  }

  /** First in, first out: after any sequence of adds the table holds, in the order they were added, the newest
      pages, as many as fit next to the static ones. */
  lemma {:induction false} NewestAreKept(cap: nat, t: Table, pages: seq<seq<Addr>>) returns (k: nat)
    requires Budgeted(cap, t) && t.dynamics == [] && forall p | p in pages :: 1 <= |p| <= t.maxDynamic
    ensures Newest(cap, Total(t.statics), pages, AddAll(cap, t, pages).dynamics, k)
    ensures pages != [] ==> k < |pages|
  {
    k := 0;
    if pages != [] {
      var before, page := pages[..|pages| - 1], pages[|pages| - 1];
      assert before + [page] == pages;
      var m := NewestAreKept(cap, t, before);
      k := AddKeepsNewest(cap, AddAll(cap, t, before), before, m, page);
    }
  }

  /** One eviction step never changes where the whole operation ends: this is what lets each
      thread evict at its own pace during a round and still reach the same table. */
  lemma DropCommutesWithAdd(cap: nat, t: Table, page: seq<Addr>)
    requires Budgeted(cap, t) && 1 <= |page| <= t.maxDynamic
    requires t.used + |page| > cap
    ensures t.dynamics != [] && Budgeted(cap, DropOldest(t))
    ensures Add(cap, DropOldest(t), page) == Add(cap, t, page)
  {
    if t.dynamics == [] { assert false; }
    DropKeepsBudget(cap, t);
  }
}
