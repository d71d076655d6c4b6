/** The two hash functions of ELF symbol tables, as the loader computes them and as the tables are built.
    Hashes are `uint32_t`: every sum and shift is taken modulo 2^32. */
module SymbolHash {
  import opened Bits

  type Byte = b: nat | b < 256

  /** The bytes of a C string before its terminator. */
  type Name = seq<Byte>

  const WORD32: nat := 0x1_0000_0000
  const WORD28: nat := 0x1000_0000

  // ---------------------------------------------------------------- the loader's loops

  /** `char` is signed on the target: a byte above 0x7f enters the sum sign-extended. */
  function SignedByte(b: Byte): (c: nat)
    ensures c < WORD32
  {
    if b < 0x80 then b else b + 0xffff_ff00
  }

  function Sum(h: nat, c: nat): nat { (h * 16 % WORD32 + c) % WORD32 }
  function TopNibble(sum: nat): nat { sum / WORD28 * WORD28 }
  function Fold(sum: nat, top: nat): nat { if top != 0 then Xor(sum, top / 0x100_0000) else sum }
  function Clear(sum: nat, top: nat): nat { AndNot(sum, top) }

  function ElfStep(h: nat, c: nat): nat {
    var sum := Sum(h, c);
    var top := TopNibble(sum);
    Clear(Fold(sum, top), top)
  }

  function GnuStep(h: nat, c: nat): nat { (h * 32 % WORD32 + h + c) % WORD32 }

  /** The System V hash the loader computes. */
  function ElfHash(name: Name): nat {
    if name == [] then 0 else ElfStep(ElfHash(name[..|name| - 1]), SignedByte(name[|name| - 1]))
  }

  function GnuHash(name: Name): nat {
    if name == [] then 5381 else GnuStep(GnuHash(name[..|name| - 1]), SignedByte(name[|name| - 1]))
  }

  lemma PrefixHashes(name: Name, i: nat)
    requires i < |name|
    ensures ElfHash(name[..i + 1]) == ElfStep(ElfHash(name[..i]), SignedByte(name[i]))
    ensures GnuHash(name[..i + 1]) == GnuStep(GnuHash(name[..i]), SignedByte(name[i]))
  {
    assert name[..i + 1][..i] == name[..i] && name[..i + 1][i] == name[i];
  }

  method ComputeElfHash(name: Name) returns (hash: nat)
    ensures hash == ElfHash(name)
    ensures Ascii(name) ==> hash == StandardElfHash(name)
  {
    hash := 0;
    for i := 0 to |name|
      invariant hash == ElfHash(name[..i])
    {
      PrefixHashes(name, i);
      hash := Sum(hash, SignedByte(name[i]));
      var topNibble := TopNibble(hash);
      hash := Fold(hash, topNibble);
      hash := Clear(hash, topNibble);
    }
    assert name[..|name|] == name;
    if Ascii(name) { AsciiHashes(name); }
  }

  method ComputeGnuHash(name: Name) returns (hash: nat)
    ensures hash == GnuHash(name)
    ensures Ascii(name) ==> hash == StandardGnuHash(name)
  {
    hash := 5381;
    for i := 0 to |name|
      invariant hash == GnuHash(name[..i])
    {
      PrefixHashes(name, i);
      hash := GnuStep(hash, SignedByte(name[i]));
    }
    assert name[..|name|] == name;
    if Ascii(name) { AsciiHashes(name); }
  }

  // ---------------------------------------------------------------- the standard hashes

  function Pow(b: nat, n: nat): nat { if n == 0 then 1 else b * Pow(b, n - 1) }

  /** The name as a number in base `b`, its first byte the most significant digit. */
  function Digits(b: nat, name: Name): nat {
    if name == [] then 0 else name[0] * Pow(b, |name| - 1) + Digits(b, name[1..])
  }

  /** The GNU hash: 5381 and the unsigned bytes as digits in base 33, modulo 2^32. */
  function StandardGnuHash(name: Name): nat { GnuNumber(name) % WORD32 }

  function GnuNumber(name: Name): nat { 5381 * Pow(33, |name|) + Digits(33, name) }

  /** The System V hash of the gABI, chapter 5, section "Hash Table": unsigned bytes as digits in base 16. */
  function StandardElfHash(name: Name): nat {
    if name == [] then 0 else Wrapped(16 * StandardElfHash(name[..|name| - 1]) + name[|name| - 1])
  }

  /** The low 28 bits, with the next four folded in from bit 4 on. */
  function Wrapped(sum: nat): nat { Xor(sum % WORD28, 16 * (sum % WORD32 / WORD28)) }

  lemma ShiftedBy28(a: nat)
    ensures Shifted(a, 28) == a * WORD28
  {
    ShiftedFour(a, 0);
    ShiftedFour(a, 4);
    ShiftedFour(a, 8);
    ShiftedFour(a, 12);
    ShiftedFour(a, 16);
    ShiftedFour(a, 20);
    ShiftedFour(a, 24);
  }

  lemma Parts(s: nat)
    ensures s % WORD32 == s % WORD32 / WORD28 * WORD28 + s % WORD28 && s % WORD32 / WORD28 < 16
  {
    var q, t, l := s / WORD32, s % WORD32 / WORD28, s % WORD32 % WORD28;
    assert s == (16 * q + t) * WORD28 + l;
    LowPart(16 * q + t, l);
  }

  lemma LowPart(k: nat, l: nat)
    requires l < WORD28
    ensures (k * WORD28 + l) % WORD28 == l
  {
  }

  lemma SumIs(h: nat, c: nat)
    ensures Sum(h, c) == (16 * h + c) % WORD32
  {
  }

  /** One round of the System V loop is one more digit, wrapped. */
  lemma ElfStepIsDigit(h: nat, c: nat)
    ensures ElfStep(h, c) == Wrapped(16 * h + c) < WORD28
  {
    var s := 16 * h + c;
    SumIs(h, c);
    Parts(s);
    FoldAndClear(s % WORD32 / WORD28, s % WORD28);
  }

  /** Folding the top nibble `t` in and clearing it. */
  lemma FoldAndClear(t: nat, l: nat)
    requires t < 16 && l < WORD28
    ensures var sum, top := t * WORD28 + l, t * WORD28; Clear(Fold(sum, top), top) == Xor(l, 16 * t) < WORD28
  {
    ShiftedBy28(1);
    ShiftedBy28(t);
    XorHigh(t, l, 16 * t, 28);
    AndNotHigh(t, Xor(l, 16 * t), 28);
    if t == 0 { XorZero(l); }
    assert t * WORD28 / 0x100_0000 == 16 * t;
  }

  lemma GnuStepIsDigit(x: nat, c: nat)
    ensures GnuStep(x % WORD32, c) == (33 * x + c) % WORD32
  {
  }

  lemma {:induction false} DigitsAppend(b: nat, name: Name, c: Byte)
    ensures Digits(b, name + [c]) == b * Digits(b, name) + c
  {
    if name == [] {
      assert [c][1..] == [];
    } else {
      var p := Pow(b, |name| - 1);
      assert (name + [c])[1..] == name[1..] + [c];
      DigitsAppend(b, name[1..], c);
      assert name[0] * (b * p) == b * (name[0] * p);
    }
  }

  ghost predicate Ascii(name: Name) { forall i | 0 <= i < |name| :: name[i] < 0x80 }

  lemma {:induction false} AsciiElfHash(name: Name)
    requires Ascii(name)
    ensures ElfHash(name) == StandardElfHash(name)
  {
    if name != [] {
      AsciiElfHash(name[..|name| - 1]);
      LastDigit(name, ElfHash(name[..|name| - 1]));
    }
  }

  /** After equal prefixes, one more character makes equal hashes. */
  lemma LastDigit(name: Name, h: nat)
    requires name != [] && name[|name| - 1] < 0x80
    requires ElfHash(name[..|name| - 1]) == h == StandardElfHash(name[..|name| - 1])
    ensures ElfHash(name) == StandardElfHash(name)
  {
    ElfStepIsDigit(h, name[|name| - 1]);
  }

  lemma GnuNumberAppend(name: Name, c: Byte)
    ensures GnuNumber(name + [c]) == 33 * GnuNumber(name) + c
  {
    DigitsAppend(33, name, c);
  }

  lemma {:induction false} AsciiGnuHash(name: Name)
    requires Ascii(name)
    ensures GnuHash(name) == GnuNumber(name) % WORD32
  {
    if name != [] {
      var before, c := name[..|name| - 1], name[|name| - 1];
      assert name == before + [c];
      AsciiGnuHash(before);
      GnuNumberAppend(before, c);
      GnuStepIsDigit(GnuNumber(before), c);
    }
  }

  /** On ASCII names the loader's loops compute the standard hashes. */
  lemma AsciiHashes(name: Name)
    requires Ascii(name)
    ensures ElfHash(name) == StandardElfHash(name) && GnuHash(name) == StandardGnuHash(name)
  {
    AsciiElfHash(name);
    AsciiGnuHash(name);
  }

  lemma WrappedSmall(sum: nat)
    requires sum < WORD28
    ensures Wrapped(sum) == sum
  {
    assert sum % WORD28 == sum && sum % WORD32 == sum && sum / WORD28 == 0;
    XorZero(sum);
  }

  /** Up to six characters nothing grows past 28 bits: the System V hash is the number itself. */
  lemma {:induction false} ShortElfHash(name: Name)
    requires Ascii(name) && |name| <= 6
    ensures ElfHash(name) == Digits(16, name)
    ensures Digits(16, name) + 9 <= 9 * Pow(16, |name|)
  {
    if name != [] {
      var before, c := name[..|name| - 1], name[|name| - 1];
      assert name == before + [c];
      ShortElfHash(before);
      ElfStepIsDigit(ElfHash(before), c);
      DigitsAppend(16, before, c);
      SmallPowers(|name|);
      WrappedSmall(Digits(16, name));
    }
  }

  lemma {:induction false} SmallPowers(n: nat)
    requires n <= 6
    ensures 9 * Pow(16, n) < WORD28
  {
    assert Pow(16, 2) == 256;
    assert Pow(16, 4) == 65536;
    assert Pow(16, 6) == 16777216;
    if n < 6 { PowGrows(n, 6); }
  }

  lemma {:induction false} PowGrows(n: nat, m: nat)
    requires n <= m
    ensures Pow(16, n) <= Pow(16, m)
  {
    if n < m { PowGrows(n, m - 1); }
  }

  lemma NextDigit(b: nat, name: Name, c: Byte, d: nat)
    requires Digits(b, name) == d
    ensures Digits(b, name + [c]) == b * d + c
  {
    DigitsAppend(b, name, c);
  }

  lemma NextGnu(name: Name, c: Byte, d: nat)
    requires GnuNumber(name) == d
    ensures GnuNumber(name + [c]) == 33 * d + c
  {
    GnuNumberAppend(name, c);
  }

  lemma PrintfElf(printf: Name)
    requires printf == [0x70, 0x72, 0x69, 0x6e, 0x74, 0x66]
    ensures Digits(16, printf) == 0x0779_05a6
  {
    NextDigit(16, [], 0x70, 0);
    NextDigit(16, [] + [0x70], 0x72, 0x70);
    NextDigit(16, [] + [0x70] + [0x72], 0x69, 0x772);
    NextDigit(16, [] + [0x70] + [0x72] + [0x69], 0x6e, 0x7789);
    NextDigit(16, [] + [0x70] + [0x72] + [0x69] + [0x6e], 0x74, 0x7_78fe);
    NextDigit(16, [] + [0x70] + [0x72] + [0x69] + [0x6e] + [0x74], 0x66, 0x77_9054);
    assert [] + [0x70] + [0x72] + [0x69] + [0x6e] + [0x74] + [0x66] == printf;
  }

  lemma PrintfGnu(printf: Name)
    requires printf == [0x70, 0x72, 0x69, 0x6e, 0x74, 0x66]
    ensures GnuNumber(printf) % WORD32 == 0x156b_2bb8
  {
    NextGnu([], 0x70, 5381);
    NextGnu([] + [0x70], 0x72, 177685);
    NextGnu([] + [0x70] + [0x72], 0x69, 5863719);
    NextGnu([] + [0x70] + [0x72] + [0x69], 0x6e, 193502832);
    NextGnu([] + [0x70] + [0x72] + [0x69] + [0x6e], 0x74, 6385593566);
    NextGnu([] + [0x70] + [0x72] + [0x69] + [0x6e] + [0x74], 0x66, 210724587794);
    assert [] + [0x70] + [0x72] + [0x69] + [0x6e] + [0x74] + [0x66] == printf;
    Remainder(1619, 0x156b_2bb8);
  }

  lemma Remainder(q: nat, r: nat)
    requires r < WORD32
    ensures (q * WORD32 + r) % WORD32 == r
  {
  }

  /** The hashes of "printf" as published for the two formats. */
  lemma PrintfHashes(printf: Name)
    requires printf == [0x70, 0x72, 0x69, 0x6e, 0x74, 0x66]
    ensures ElfHash(printf) == 0x0779_05a6 && GnuHash(printf) == 0x156b_2bb8
  {
    assert Ascii(printf);
    PrintfElf(printf);
    PrintfGnu(printf);
    NumbersAreHashes(printf);
  }

  lemma NumbersAreHashes(name: Name)
    requires Ascii(name) && |name| <= 6
    ensures ElfHash(name) == Digits(16, name) && GnuHash(name) == GnuNumber(name) % WORD32
  {
    ShortElfHash(name);
    AsciiGnuHash(name);
  }

  /** System V hashes fit in 28 bits. */
  lemma ElfHashTop(name: Name)
    ensures ElfHash(name) < WORD28
  {
    if name != [] { ElfStepIsDigit(ElfHash(name[..|name| - 1]), SignedByte(name[|name| - 1])); }
  }

  /** One byte above 0x7f is enough to tell the loader's hashes from the standard ones. */
  lemma HighByteHashes()
    ensures ElfHash([0x80]) == 0x0fff_ff70 && StandardElfHash([0x80]) == 0x80
    ensures GnuHash([0x80]) == 177445 && StandardGnuHash([0x80]) == 177701
  {
    HighElf();
    HighGnu();
  }

  lemma HighXor(a: nat)
    ensures Xor(a * 256 + 0x80, 0xf0) == a * 256 + 0x70
  {
    SmallXor();
    ShiftedBy8(a);
    ShiftedBy8(1);
    XorHigh(a, 0x80, 0xf0, 8);
  }

  lemma ShiftedBy8(a: nat)
    ensures Shifted(a, 8) == a * 256
  {
    ShiftedFour(a, 0);
    ShiftedFour(a, 4);
  }

  lemma SmallXor()
    ensures Xor(0x80, 0xf0) == 0x70
  {
    assert Xor(8, 15) == 7;
    assert Xor(32, 60) == 28;
  }

  lemma HighWrapped()
    ensures Wrapped(0xffff_ff80) == 0x0fff_ff70
  {
    HighXor(0xf_ffff);
  }

  lemma HighElf()
    ensures ElfHash([0x80]) == 0x0fff_ff70 && StandardElfHash([0x80]) == 0x80
  {
    OneByte(0x80);
    WrappedSmall(0x80);
    HighWrapped();
  }

  lemma OneByte(b: Byte)
    ensures ElfHash([b]) == Wrapped(SignedByte(b)) && StandardElfHash([b]) == Wrapped(b)
  {
    assert [b][..0] == [];
    ElfStepIsDigit(0, SignedByte(b));
  }

  lemma HighGnu()
    ensures GnuHash([0x80]) == 177445 && StandardGnuHash([0x80]) == 177701
  {
    var n: Name := [0x80];
    assert n[..0] == [] && n[1..] == [];
    GnuStepIsDigit(5381, 0xffff_ff80);
    assert Pow(33, 1) == 33 && Digits(33, n) == 0x80;
  }
}
