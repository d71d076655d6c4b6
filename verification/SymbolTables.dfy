/** Symbol lookup through the System V and GNU hash tables of a shared object, against a linear search. */
module SymbolTables {
  import opened Bits
  import opened SymbolHash

  /** A dynamic symbol: offset of its name (0 for none), defining section (0 for undefined) and value. */
  datatype Symbol = Symbol(name: nat, section: nat, value: nat)

  datatype Dso = Dso(base: nat, symtab: seq<Symbol>, strtab: map<nat, Name>)

  datatype Result = Null | Address(at: nat)

  ghost predicate NamesOk(dso: Dso) {
    forall i | 0 <= i < |dso.symtab| :: dso.symtab[i].name != 0 ==> dso.symtab[i].name in dso.strtab
  }

  /** Symbol `i` has a name. */
  predicate Named(dso: Dso, i: int) {
    0 <= i < |dso.symtab| && dso.symtab[i].name != 0 && dso.symtab[i].name in dso.strtab
  }

  function NameOf(dso: Dso, i: int): Name { if Named(dso, i) then dso.strtab[dso.symtab[i].name] else [] }

  predicate Matches(dso: Dso, i: int, name: Name) { Named(dso, i) && NameOf(dso, i) == name }

  /** `r` is the address at which symbol `i` defines that name. */
  ghost predicate Defines(dso: Dso, i: int, name: Name, r: Result) {
    Matches(dso, i, name) && dso.symtab[i].section != 0 && r == Address(dso.base + dso.symtab[i].value)
  }

  /** What a lookup that found symbol `i` (or nothing, -1) returns. */
  function Resolve(dso: Dso, i: int): Result {
    if 0 <= i < |dso.symtab| && dso.symtab[i].section != 0 then Address(dso.base + dso.symtab[i].value) else Null
  }

  /** Linear search: the first symbol from `i` on with that name, or -1. */
  function LinearFrom(dso: Dso, i: nat, name: Name): (k: int)
    ensures k == -1 || (i <= k && Matches(dso, k, name))
    ensures forall t | i <= t < |dso.symtab| && (k == -1 || t < k) :: !Matches(dso, t, name)
    decreases |dso.symtab| - i
  {
    if i >= |dso.symtab| then -1 else if Matches(dso, i, name) then i else LinearFrom(dso, i + 1, name)
  }

  /** A linear search that resolves gives the address of a defining symbol, and of the first one with the name. */
  lemma LinearDefines(dso: Dso, from: nat, name: Name)
    ensures var k := LinearFrom(dso, from, name); var r := Resolve(dso, k);
            && (r != Null ==> Defines(dso, k, name, r) && forall t | from <= t < k :: !Matches(dso, t, name))
            && (r == Null ==> k == -1 || dso.symtab[k].section == 0)
  {
  }

  ghost predicate UniqueNames(dso: Dso) {
    forall i, j | Named(dso, i) && Named(dso, j) :: NameOf(dso, i) == NameOf(dso, j) ==> i == j
  }

  // ---------------------------------------------------------------- System V

  datatype SysvTable = SysvTable(buckets: seq<nat>, chains: seq<nat>)

  /** The chain that starts at `start` runs through `list` and ends at symbol 0. */
  ghost predicate Chained(chains: seq<nat>, start: nat, list: seq<nat>)
    decreases |list|
  {
    if list == [] then start == 0
    else start == list[0] && 0 < start < |chains| && Chained(chains, chains[start], list[1..])
  }

  function Bucket(h: nat, n: nat): nat
    requires n > 0
  {
    h % n
  }

  /** Every named symbol is on the chain of its standard hash and on no other; `lists` are the chains. */
  ghost predicate SysvWellFormed(dso: Dso, t: SysvTable, lists: seq<seq<nat>>) {
    && NamesOk(dso) && |t.buckets| == |lists| > 0 && |t.chains| == |dso.symtab|
    && (forall b | 0 <= b < |lists| :: Chained(t.chains, t.buckets[b], lists[b]))
    && (forall i | Named(dso, i) :: i > 0 && i in lists[StandardElfHash(NameOf(dso, i)) % |lists|])
    && (forall b, i | 0 <= b < |lists| && i in lists[b] && Named(dso, i) ::
        StandardElfHash(NameOf(dso, i)) % |lists| == b)
  }

  /** The first symbol of `list` with that name, or -1. */
  function FirstIn(dso: Dso, list: seq<nat>, name: Name): (k: int)
    ensures k == -1 || (k in list && Matches(dso, k, name))
    ensures k == -1 ==> forall i | i in list :: !Matches(dso, i, name)
    ensures k != -1 ==>
      exists p :: 0 <= p < |list| && list[p] == k && forall q | 0 <= q < p :: !Matches(dso, list[q], name)
  {
    if list == [] then -1 else if Matches(dso, list[0], name) then list[0] else FirstIn(dso, list[1..], name)
  }

  method SysvLookup(dso: Dso, t: SysvTable, name: Name, ghost lists: seq<seq<nat>>) returns (r: Result)
    requires SysvWellFormed(dso, t, lists)
    ensures r == Resolve(dso, FirstIn(dso, lists[ElfHash(name) % |lists|], name))
    ensures r != Null ==> exists i :: Defines(dso, i, name, r)
  {
    var hash := ComputeElfHash(name);
    var b := Bucket(hash, |t.buckets|);
    var i := t.buckets[b];
    ghost var rest := lists[b];
    while i != 0
      invariant Chained(t.chains, i, rest) && FirstIn(dso, rest, name) == FirstIn(dso, lists[b], name)
      decreases |rest|
    {
      var cur := dso.symtab[i];
      if cur.name != 0 {
        if dso.strtab[cur.name] == name {
          assert Matches(dso, i, name);
          if cur.section == 0 { return Null; }
          r := Address(dso.base + cur.value);
          assert Defines(dso, i, name, r);
          return;
        }
      }
      rest := rest[1..];
      i := t.chains[i];
    }
    return Null;
  }

  /** A symbol is found exactly when one has the name and the loader's hash leads to the bucket of the standard hash. */
  lemma SysvFinds(dso: Dso, t: SysvTable, lists: seq<seq<nat>>, name: Name)
    requires SysvWellFormed(dso, t, lists)
    ensures FirstIn(dso, lists[ElfHash(name) % |lists|], name) != -1
       <==> LinearFrom(dso, 0, name) != -1 && ElfHash(name) % |lists| == StandardElfHash(name) % |lists|
  {
    var b := ElfHash(name) % |lists|;
    var k, f := LinearFrom(dso, 0, name), FirstIn(dso, lists[b], name);
    if k != -1 { assert k in lists[StandardElfHash(name) % |lists|]; }
    if f != -1 { assert Matches(dso, f, name) && f < |dso.symtab|; }
  }

  /** With unique names the lookup is the linear search, exactly unless that finds a definition and the buckets
      differ. */
  lemma SysvIsLinear(dso: Dso, t: SysvTable, lists: seq<seq<nat>>, name: Name)
    requires SysvWellFormed(dso, t, lists) && UniqueNames(dso)
    ensures var b, linear := ElfHash(name) % |lists|, Resolve(dso, LinearFrom(dso, 0, name));
            Resolve(dso, FirstIn(dso, lists[b], name)) == linear <==>
            linear == Null || b == StandardElfHash(name) % |lists|
  {
    SysvFinds(dso, t, lists, name);
  }

  /** The property without its condition is false: a well-formed table holds a symbol whose name is the byte 0x80,
      linear search finds it, and the lookup does not. */
  lemma HighByteMissed() returns (dso: Dso, t: SysvTable, lists: seq<seq<nat>>, name: Name)
    ensures SysvWellFormed(dso, t, lists) && UniqueNames(dso)
    ensures Resolve(dso, LinearFrom(dso, 0, name)) == Address(0x1010)
    ensures Resolve(dso, FirstIn(dso, lists[ElfHash(name) % |lists|], name)) == Null
  {
    name := [0x80];
    dso := Dso(0x1000, [Symbol(0, 0, 0), Symbol(1, 1, 16)], map[1 := name]);
    t, lists := SysvTable([0, 0, 1], [0, 0]), [[], [], [1]];
    assert name[..0] == [];
    HighByteHashes();
    assert ElfHash(name) % 3 == 1 && StandardElfHash(name) % 3 == 2;
    assert Matches(dso, 1, name) && LinearFrom(dso, 0, name) == 1;
    assert Chained(t.chains, 0, []) && Chained(t.chains, 1, [1]);
  }

  // ---------------------------------------------------------------- GNU: buckets and chains

  datatype GnuTable = GnuTable(symOffset: nat, bloom: seq<nat>, bloomShift: nat, buckets: seq<nat>, chains: seq<nat>)

  // A chain word is the hash with its lowest bit replaced by an end-of-bucket mark.
  function ChainPrefix(word: nat): nat { word / 2 }
  predicate ChainEnds(word: nat) { word % 2 == 1 }

  /** Hashed symbol `i` is named, recorded in its chain word, and not before the start of its bucket. */
  ghost predicate HashedOk(dso: Dso, t: GnuTable, bucketOf: Name -> nat, prefixOf: Name -> nat, i: int) {
    && t.symOffset <= i < |dso.symtab| == |t.chains| + t.symOffset && Named(dso, i)
    && var name, word := NameOf(dso, i), t.chains[i - t.symOffset];
    && word / 2 == prefixOf(name) && bucketOf(name) < |t.buckets|
    && (word % 2 == 1 <==> i + 1 == |dso.symtab| || bucketOf(NameOf(dso, i + 1)) != bucketOf(name))
    && t.symOffset <= t.buckets[bucketOf(name)] <= i
  }

  /** The hashed symbols stand in bucket order, and each nonempty bucket points to a symbol of its own. */
  ghost predicate Bucketed(dso: Dso, t: GnuTable, bucketOf: Name -> nat, prefixOf: Name -> nat) {
    && NamesOk(dso) && |t.chains| + t.symOffset == |dso.symtab|
    && (forall i {:trigger HashedOk(dso, t, bucketOf, prefixOf, i)} | t.symOffset <= i < |dso.symtab| ::
        HashedOk(dso, t, bucketOf, prefixOf, i))
    && (forall i, j | t.symOffset <= i <= j < |dso.symtab| :: bucketOf(NameOf(dso, i)) <= bucketOf(NameOf(dso, j)))
    && (forall b | 0 <= b < |t.buckets| && t.buckets[b] >= t.symOffset ::
          t.buckets[b] < |dso.symtab| && bucketOf(NameOf(dso, t.buckets[b])) == b)
  }

  /** Symbol `k` has that name and passes the comparison of hash prefixes. */
  ghost predicate Hit(dso: Dso, t: GnuTable, name: Name, prefix: nat, k: int) {
    && t.symOffset <= k < |t.chains| + t.symOffset && Matches(dso, k, name)
    && ChainPrefix(t.chains[k - t.symOffset]) == prefix
  }

  /** A symbol of that name lies in the run of its bucket, from the bucket's start on. */
  lemma MatchInRun(dso: Dso, t: GnuTable, bucketOf: Name -> nat, prefixOf: Name -> nat, k: int, name: Name)
    requires Bucketed(dso, t, bucketOf, prefixOf) && t.symOffset <= k && Matches(dso, k, name)
    ensures bucketOf(name) < |t.buckets| && t.symOffset <= t.buckets[bucketOf(name)] <= k
    ensures Hit(dso, t, name, prefixOf(name), k)
  {
    assert HashedOk(dso, t, bucketOf, prefixOf, k);
  }

  /** Walks the run of a bucket from its start. */
  method WalkRun(dso: Dso, t: GnuTable, name: Name, prefix: nat, start: nat,
                 ghost bucketOf: Name -> nat, ghost prefixOf: Name -> nat)
    returns (found: int)
    requires Bucketed(dso, t, bucketOf, prefixOf) && t.symOffset <= start < |dso.symtab|
    ensures found == -1 || (start <= found && Hit(dso, t, name, prefix, found)
                            && bucketOf(NameOf(dso, found)) == bucketOf(NameOf(dso, start)))
    ensures forall k | start <= k < |dso.symtab| && (found == -1 || k < found)
            && bucketOf(NameOf(dso, k)) == bucketOf(NameOf(dso, start)) ::
              !Hit(dso, t, name, prefix, k)
  {
    var i := start;
    while true
      invariant start <= i < |dso.symtab| && bucketOf(NameOf(dso, i)) == bucketOf(NameOf(dso, start))
      invariant forall k | start <= k < i :: !Hit(dso, t, name, prefix, k)
      decreases |dso.symtab| - i
    {
      assert HashedOk(dso, t, bucketOf, prefixOf, i);
      var word, cur := t.chains[i - t.symOffset], dso.symtab[i];
      if prefix == ChainPrefix(word) && cur.name != 0 {
        if dso.strtab[cur.name] == name { return i; }
      }
      if ChainEnds(word) { return -1; }
      i := i + 1;
    }
  }

  /** Searches bucket `b` for hash prefix `prefix`: the linear search if these are the name's own, else nothing. */
  method SearchBucket(dso: Dso, t: GnuTable, name: Name, b: nat, prefix: nat,
                      ghost bucketOf: Name -> nat, ghost prefixOf: Name -> nat)
    returns (r: Result)
    requires Bucketed(dso, t, bucketOf, prefixOf) && b < |t.buckets|
    ensures r == if b == bucketOf(name) && prefix == prefixOf(name)
            then Resolve(dso, LinearFrom(dso, t.symOffset, name)) else Null
  {
    ghost var linear := LinearFrom(dso, t.symOffset, name);
    if linear != -1 { MatchInRun(dso, t, bucketOf, prefixOf, linear, name); }
    var i := t.buckets[b];
    if i < t.symOffset { return Null; }
    var found := WalkRun(dso, t, name, prefix, i, bucketOf, prefixOf);
    if found == -1 { return Null; }
    MatchInRun(dso, t, bucketOf, prefixOf, found, name);
    if dso.symtab[found].section == 0 { return Null; }
    return Address(dso.base + dso.symtab[found].value);
  }

  // ---------------------------------------------------------------- GNU: the whole lookup

  /** The two bits a hash sets in its word of the Bloom filter. */
  function BloomMask(h: nat, shift: nat): nat {
    Or(Shifted(1, h % 64), Shifted(1, h / Shifted(1, shift) % 64))
  }

  predicate BloomPasses(t: GnuTable, h: nat)
    requires |t.bloom| > 0
  {
    var mask := BloomMask(h, t.bloomShift);
    And(t.bloom[h / 64 % |t.bloom|], mask) == mask
  }

  /** The filter as it is built: in the word the hash picks, the bit of the hash and the bit of the shifted hash. */
  ghost predicate InFilter(t: GnuTable, h: nat)
    requires |t.bloom| > 0
  {
    var word := t.bloom[(h / 64) % |t.bloom|];
    Bit(word, h % 64) && Bit(word, h / Shifted(1, t.bloomShift) % 64)
  }

  /** Masking the word tests those two bits. */
  lemma FilterTest(t: GnuTable, h: nat)
    requires |t.bloom| > 0
    ensures BloomPasses(t, h) <==> InFilter(t, h)
  {
    var word, i, j := t.bloom[h / 64 % |t.bloom|], h % 64, h / Shifted(1, t.bloomShift) % 64;
    HasOneBit(word, i);
    HasOneBit(word, j);
    HasBoth(word, Shifted(1, i), Shifted(1, j));
  }

  function StandardBucket(n: nat): Name -> nat
    requires n > 0
  {
    name => StandardGnuHash(name) % n
  }

  function StandardPrefix(): Name -> nat { name => StandardGnuHash(name) / 2 }

  /** There are buckets and filter words, the symbols are bucketed by their standard hash, and each is in the filter. */
  ghost predicate GnuWellFormed(dso: Dso, t: GnuTable) {
    && |t.buckets| > 0 && |t.bloom| > 0 && t.bloomShift < 32
    && Bucketed(dso, t, StandardBucket(|t.buckets|), StandardPrefix())
    && forall i | t.symOffset <= i < |dso.symtab| :: InFilter(t, StandardGnuHash(NameOf(dso, i)))
  }

  /** The loader's hash of the name passes the filter and leads to where the table put the standard one. */
  ghost predicate GnuReaches(t: GnuTable, name: Name)
    requires |t.buckets| > 0 && |t.bloom| > 0
  {
    && InFilter(t, GnuHash(name))
    && GnuHash(name) % |t.buckets| == StandardGnuHash(name) % |t.buckets|
    && GnuHash(name) / 2 == StandardGnuHash(name) / 2
  }

  /** The linear search over the hashed symbols if the loader's hash leads there, and nothing otherwise. */
  ghost function GnuFinds(dso: Dso, t: GnuTable, name: Name): Result
    requires |t.buckets| > 0 && |t.bloom| > 0
  {
    if GnuReaches(t, name) then Resolve(dso, LinearFrom(dso, t.symOffset, name)) else Null
  }

  method GnuLookup(dso: Dso, t: GnuTable, name: Name) returns (r: Result)
    requires GnuWellFormed(dso, t)
    ensures r == GnuFinds(dso, t, name)
    ensures r != Null ==> exists i :: Defines(dso, i, name, r)
  {
    var hash := ComputeGnuHash(name);
    FilterTest(t, hash);
    LinearDefines(dso, t.symOffset, name);
    if !BloomPasses(t, hash) { return Null; }
    var b := Bucket(hash, |t.buckets|);
    r := SearchBucket(dso, t, name, b, ChainPrefix(hash), StandardBucket(|t.buckets|), StandardPrefix());
  }

  /** The GNU lookup is the linear search over the hashed symbols, exactly unless that finds a definition and the
      loader's hash does not lead there; for ASCII names it always does. */
  lemma GnuIsLinear(dso: Dso, t: GnuTable, name: Name)
    requires GnuWellFormed(dso, t)
    ensures var linear := Resolve(dso, LinearFrom(dso, t.symOffset, name));
            && (GnuFinds(dso, t, name) == linear <==> linear == Null || GnuReaches(t, name))
            && (Ascii(name) ==> GnuFinds(dso, t, name) == linear)
  {
    if Ascii(name) { AsciiHashes(name); }
    var k := LinearFrom(dso, t.symOffset, name);
    if k != -1 { assert InFilter(t, StandardGnuHash(NameOf(dso, k))); }
  }

  /** Here too the condition is needed: a well-formed GNU table holds a symbol whose name is the byte 0x80, linear
      search finds it, and the lookup does not. */
  lemma GnuHighByteMissed() returns (dso: Dso, t: GnuTable, name: Name)
    ensures GnuWellFormed(dso, t) && UniqueNames(dso)
    ensures Resolve(dso, LinearFrom(dso, t.symOffset, name)) == Address(0x1010) && GnuFinds(dso, t, name) == Null
  {
    name := [0x80];
    dso := Dso(0x1000, [Symbol(0, 0, 0), Symbol(1, 1, 16)], map[1 := name]);
    t := GnuTable(1, [Shifted(1, 37)], 0, [1], [177701]);
    HighByteHashes();
    assert Matches(dso, 1, name) && LinearFrom(dso, 1, name) == 1;
    assert HashedOk(dso, t, StandardBucket(1), StandardPrefix(), 1);
    BitOfShifted(37);
    assert InFilter(t, StandardGnuHash(NameOf(dso, 1)));
  }

  /** With unique names, and only undefined symbols left out of the GNU table, both lookups of an ASCII name agree. */
  lemma LookupsAgree(dso: Dso, sysv: SysvTable, lists: seq<seq<nat>>, gnu: GnuTable, name: Name)
    requires SysvWellFormed(dso, sysv, lists) && GnuWellFormed(dso, gnu) && UniqueNames(dso) && Ascii(name)
    requires forall i | 0 <= i < |dso.symtab| && i < gnu.symOffset :: dso.symtab[i].section == 0
    ensures Resolve(dso, FirstIn(dso, lists[ElfHash(name) % |lists|], name)) == GnuFinds(dso, gnu, name)
  {
    AsciiHashes(name);
    SysvIsLinear(dso, sysv, lists, name);
    GnuIsLinear(dso, gnu, name);
    LinearSkips(dso, gnu.symOffset, name);
  }

  /** Skipping a prefix of undefined symbols does not change what a linear search resolves to. */
  lemma LinearSkips(dso: Dso, from: nat, name: Name)
    requires UniqueNames(dso) && forall i | 0 <= i < |dso.symtab| && i < from :: dso.symtab[i].section == 0
    ensures Resolve(dso, LinearFrom(dso, 0, name)) == Resolve(dso, LinearFrom(dso, from, name))
  {
    var a, b := LinearFrom(dso, 0, name), LinearFrom(dso, from, name);
    if b != -1 { assert Matches(dso, b, name); }
  }
}
