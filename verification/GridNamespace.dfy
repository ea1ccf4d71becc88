/**
 * The AI Grid namespace derived from the applications namespace.
 *
 * Names are strings with one character per byte.  A short name only gets a suffix; a name
 * that would overflow a DNS label is cut, trimmed and followed by its FNV-1a hash.
 */
module GridNamespace {

  /** One byte of a Go string. */
  type Byte = c: char | (c as int) < 256 witness 'a'
  type Name = seq<Byte>

  const MAX_LABEL := 63
  const SUFFIX: Name := "-ai-grid"
  const HASH_WIDTH := 8
  /** Bytes of a long name that survive next to a dash, the hash and the suffix. */
  const CUT := MAX_LABEL - |SUFFIX| - HASH_WIDTH - 1
  /** The longest name that takes the suffix unshortened. */
  const LONGEST_PLAIN := MAX_LABEL - |SUFFIX|

  const RHOAI_APPLICATIONS: Name := "redhat-ods-applications"
  const ODH_APPLICATIONS: Name := "opendatahub"

  // ----- FNV-1a, section 2 of draft-eastlake-fnv, on 32-bit states -----

  const WORD := 0x1_0000_0000

  type Word = n: nat | n < WORD

  function Xor(x: nat, y: nat): nat
    decreases x + y
  {
    if x == 0 && y == 0 then 0 else 2 * Xor(x / 2, y / 2) + (x + y) % 2
  }

  function Mix(x: nat): Word {
    x * 16777619 % WORD
  }

  function FnvStep(h: Word, b: Byte): Word {
    Mix(Xor(h, b as int))
  }

  function FnvFrom(h: Word, s: Name): Word
    decreases |s|
  {
    if s == [] then h else FnvFrom(FnvStep(h, s[0]), s[1..])
  }

  function Fnv32a(s: Name): Word {
    FnvFrom(0x811c9dc5, s)
  }

  // ----- %08x -----

  function HexDigit(n: nat): Byte
    requires n < 16
  {
    "0123456789abcdef"[n]
  }

  /** The `width` least significant hexadecimal digits of `n`, most significant first. */
  function Hex(n: nat, width: nat): (s: Name)
    ensures |s| == width
  {
    if width == 0 then [] else Hex(n / 16, width - 1) + [HexDigit(n % 16)]
  }

  function Hex8(h: Word): Name {
    Hex(h, HASH_WIDTH)
  }

  // ----- the derivation -----

  /** strings.TrimRight(s, "-") */
  function TrimDashes(s: Name): Name {
    if s != [] && s[|s| - 1] == '-' then TrimDashes(s[..|s| - 1]) else s
  }

  function Base(app: Name): Name
    requires |app| > LONGEST_PLAIN
  {
    TrimDashes(app[..CUT])
  }

  function Shortened(app: Name): Name
    requires |app| > LONGEST_PLAIN
  {
    Base(app) + "-" + Hex8(Fnv32a(app))
  }

  function Derive(app: Name): Name {
    if app == RHOAI_APPLICATIONS then "redhat-ai-grid"
    else if app == ODH_APPLICATIONS then "odh-ai-grid"
    else if |app| + |SUFFIX| <= MAX_LABEL then app + SUFFIX
    else Shortened(app) + SUFFIX
  }

  // ----- the hash separates -----

  lemma {:induction false} XorUnfolds(x: nat, y: nat)
    ensures Xor(x, y) == 2 * Xor(x / 2, y / 2) + (x + y) % 2
  {
  }

  lemma BitsOfDouble(a: nat, b: nat, x: nat, y: nat, z: nat)
    requires 2 * a + (x + y) % 2 == 2 * b + (x + z) % 2
    ensures a == b && y % 2 == z % 2
  {
  }

  lemma {:induction false} XorInjective(x: nat, y: nat, z: nat)
    requires Xor(x, y) == Xor(x, z)
    ensures y == z
    decreases x + y + z
  {
    if x + y + z > 0 {
      XorUnfolds(x, y);
      XorUnfolds(x, z);
      BitsOfDouble(Xor(x / 2, y / 2), Xor(x / 2, z / 2), x, y, z);
      XorInjective(x / 2, y / 2, z / 2);
    }
  }

  lemma {:induction false} XorCommutes(x: nat, y: nat)
    ensures Xor(x, y) == Xor(y, x)
    decreases x + y
  {
    if x + y > 0 {
      XorCommutes(x / 2, y / 2);
    }
  }

  lemma {:induction false} XorZero(x: nat)
    ensures Xor(x, 0) == x
  {
    if x > 0 {
      XorZero(x / 2);
    }
  }

  lemma XorOfOffset()
    ensures Xor(0x811c9dc5, 0x61) == 0x811c9da4
  {
    XorZero(16922939);
    XorUnfolds(33845879, 1);
    assert Xor(33845879, 1) == 33845878;
    XorUnfolds(67691758, 3);
    assert Xor(67691758, 3) == 67691757;
    XorUnfolds(135383516, 6);
    assert Xor(135383516, 6) == 135383514;
    XorUnfolds(270767032, 12);
    assert Xor(270767032, 12) == 270767028;
    XorUnfolds(541534065, 24);
    assert Xor(541534065, 24) == 541534057;
    XorUnfolds(1083068130, 48);
    assert Xor(1083068130, 48) == 1083068114;
    XorUnfolds(2166136261, 97);
    assert Xor(2166136261, 97) == 2166136228;
  }

  lemma MixOfOffset(x: nat)
    requires x == 0x811c9da4
    ensures Mix(x) == 0xe40c292c
  {
  }

  /** The test vector of draft-eastlake-fnv for "a". */
  lemma FnvTestVector(h: Word, s: Name)
    requires h == 0x811c9dc5 && |s| == 1 && s[0] == 'a'
    ensures FnvFrom(h, s) == 0xe40c292c
  {
    XorOfOffset();
    MixOfOffset(Xor(h, s[0] as int));
    assert FnvFrom(FnvStep(h, s[0]), s[1..]) == FnvStep(h, s[0]);
  }

  /** FNV-1a over a whole string starts from the offset basis: its values for "" and "a". */
  lemma Fnv32aVectors()
    ensures Fnv32a([]) == 0x811c9dc5 && Fnv32a(['a']) == 0xe40c292c
  {
    FnvTestVector(0x811c9dc5, ['a']);
  }

  /** Bytes are hashed first to last: one more byte is one more step at the end. */
  lemma {:induction false} FnvSnoc(h: Word, s: Name, b: Byte)
    ensures FnvFrom(h, s + [b]) == FnvStep(FnvFrom(h, s), b)
    decreases |s|
  {
    if s == [] {
      assert s + [b] == [b];
      assert FnvFrom(FnvStep(h, b), [b][1..]) == FnvStep(h, b);
    } else {
      assert (s + [b])[0] == s[0] && (s + [b])[1..] == s[1..] + [b];
      FnvSnoc(FnvStep(h, s[0]), s[1..], b);
    }
  }

  /** Bit `k` of a number. */
  function Bit(x: nat, k: nat): nat {
    if k == 0 then x % 2 else Bit(x / 2, k - 1)
  }

  lemma BitZeroOfXor(x: nat, y: nat, z: nat)
    ensures (2 * z + (x + y) % 2) / 2 == z
    ensures (2 * z + (x + y) % 2) % 2 == (x % 2 + y % 2) % 2
  {
  }

  /** The exclusive or is taken bit by bit. */
  lemma {:induction false} XorBits(x: nat, y: nat, k: nat)
    ensures Bit(Xor(x, y), k) == (Bit(x, k) + Bit(y, k)) % 2
    decreases k
  {
    hide Xor;
    XorUnfolds(x, y);
    BitZeroOfXor(x, y, Xor(x / 2, y / 2));
    if k > 0 {
      XorBits(x / 2, y / 2, k - 1);
    }
  }

  function Pow2(k: nat): nat {
    if k == 0 then 1 else 2 * Pow2(k - 1)
  }

  lemma WordIsPow2()
    ensures Pow2(32) == WORD
  {
    assert Pow2(8) == 256;
    assert Pow2(16) == 65536;
    assert Pow2(24) == 0x100_0000;
  }

  lemma {:induction false} XorStaysBelow(x: nat, y: nat, k: nat)
    requires x < Pow2(k) && y < Pow2(k)
    ensures Xor(x, y) < Pow2(k)
    decreases k
  {
    if k > 0 {
      XorStaysBelow(x / 2, y / 2, k - 1);
    }
  }

  /** The odd prime is invertible modulo 2^32, so mixing loses nothing. */
  lemma MixInvertible(x: Word)
    ensures Mix(x) * 899433627 % WORD == x
  {
    var k := x * 16777619 / WORD;
    assert Mix(x) == x * 16777619 - k * WORD;
    assert 16777619 * 899433627 == 1 + 3513497 * WORD;
    assert Mix(x) * 899433627 == x + (x * 3513497 - k * 899433627) * WORD;
  }

  /** A step is injective in the state ... */
  lemma FnvStepInjectiveInState(g: Word, h: Word, b: Byte)
    requires FnvStep(g, b) == FnvStep(h, b)
    ensures g == h
  {
    var y := b as int;
    WordIsPow2();
    XorStaysBelow(g, y, 32);
    XorStaysBelow(h, y, 32);
    MixInvertible(Xor(g, y));
    MixInvertible(Xor(h, y));
    XorCommutes(g, y);
    XorCommutes(h, y);
    XorInjective(y, g, h);
  }

  /** ... and in the byte. */
  lemma FnvStepInjectiveInByte(h: Word, b: Byte, c: Byte)
    requires FnvStep(h, b) == FnvStep(h, c)
    ensures b == c
  {
    WordIsPow2();
    XorStaysBelow(h, b as int, 32);
    XorStaysBelow(h, c as int, 32);
    MixInvertible(Xor(h, b as int));
    MixInvertible(Xor(h, c as int));
    XorInjective(h, b as int, c as int);
  }

  lemma {:induction false} FnvKeepsStatesApart(g: Word, h: Word, s: Name)
    requires g != h
    ensures FnvFrom(g, s) != FnvFrom(h, s)
    decreases |s|
  {
    if s != [] {
      if FnvStep(g, s[0]) == FnvStep(h, s[0]) {
        FnvStepInjectiveInState(g, h, s[0]);
      }
      FnvKeepsStatesApart(FnvStep(g, s[0]), FnvStep(h, s[0]), s[1..]);
    }
  }

  ghost predicate DifferAt(a: Name, b: Name, i: nat) {
    i < |a| == |b| && a[i] != b[i] && a[..i] == b[..i] && a[i + 1..] == b[i + 1..]
  }

  lemma {:induction false} FnvSeparatesAt(h: Word, a: Name, b: Name, i: nat)
    requires DifferAt(a, b, i)
    ensures FnvFrom(h, a) != FnvFrom(h, b)
    decreases i
  {
    if i == 0 {
      if FnvStep(h, a[0]) == FnvStep(h, b[0]) {
        FnvStepInjectiveInByte(h, a[0], b[0]);
      }
      FnvKeepsStatesApart(FnvStep(h, a[0]), FnvStep(h, b[0]), a[1..]);
    } else {
      assert a[0] == a[..i][0] == b[..i][0] == b[0];
      assert a[1..][..i - 1] == a[..i][1..] == b[..i][1..] == b[1..][..i - 1];
      assert a[1..][i..] == a[i + 1..] && b[1..][i..] == b[i + 1..];
      FnvSeparatesAt(FnvStep(h, a[0]), a[1..], b[1..], i - 1);
    }
  }

  function DigitValue(c: Byte): nat {
    if '0' <= c <= '9' then c as int - '0' as int
    else if 'a' <= c <= 'f' then c as int - 'a' as int + 10
    else 0
  }

  /** The number a string of lower-case hexadecimal digits denotes. */
  function ReadHex(s: Name): nat {
    if s == [] then 0 else 16 * ReadHex(s[..|s| - 1]) + DigitValue(s[|s| - 1])
  }

  lemma DigitRoundTrip(n: nat)
    requires n < 16
    ensures DigitValue(HexDigit(n)) == n
  {
  }

  /** The fixed-width field can be read back. */
  lemma {:induction false} HexRoundTrip(n: nat, width: nat)
    requires n < Pow2(4 * width)
    ensures ReadHex(Hex(n, width)) == n
    decreases width
  {
    if width > 0 {
      assert Pow2(4 * width) == 2 * Pow2(4 * width - 1) == 4 * Pow2(4 * width - 2)
          == 8 * Pow2(4 * width - 3) == 16 * Pow2(4 * width - 4);
      HexRoundTrip(n / 16, width - 1);
      DigitRoundTrip(n % 16);
      assert Hex(n, width)[..width - 1] == Hex(n / 16, width - 1);
    }
  }

  // ----- collisions, exactly -----

  /** The two fixed names are the only ones that collide with a name they do not equal. */
  ghost predicate PlainCollision(a: Name, b: Name) {
    || (a == "odh" && b == ODH_APPLICATIONS)
    || (a == "redhat" && b == RHOAI_APPLICATIONS)
  }

  lemma SuffixCancels(x: Name, y: Name)
    requires x + SUFFIX == y + SUFFIX
    ensures x == y
  {
    assert |x| == |y|;
    assert x == (x + SUFFIX)[..|x|] == (y + SUFFIX)[..|y|] == y;
  }

  /** What precedes the common suffix. */
  function Stem(app: Name): Name {
    if app == RHOAI_APPLICATIONS then "redhat"
    else if app == ODH_APPLICATIONS then "odh"
    else if |app| <= LONGEST_PLAIN then app
    else Shortened(app)
  }

  lemma DeriveIsStemPlusSuffix(app: Name)
    ensures Derive(app) == Stem(app) + SUFFIX
  {
  }

  lemma DeriveEqualIffStemsEqual(a: Name, b: Name)
    ensures Derive(a) == Derive(b) <==> Stem(a) == Stem(b)
  {
    DeriveIsStemPlusSuffix(a);
    DeriveIsStemPlusSuffix(b);
    if Derive(a) == Derive(b) {
      SuffixCancels(Stem(a), Stem(b));
    }
  }

  /** Unshortened names: two different names collide for exactly two pairs. */
  lemma PlainCollisions(a: Name, b: Name)
    requires |a| <= LONGEST_PLAIN && |b| <= LONGEST_PLAIN && a != b
    ensures Derive(a) == Derive(b) <==> PlainCollision(a, b) || PlainCollision(b, a)
  {
  }

  lemma {:induction false} TrimKeepsPrefix(s: Name)
    ensures |TrimDashes(s)| <= |s| && TrimDashes(s) == s[..|TrimDashes(s)|]
    ensures TrimDashes(s) != [] ==> TrimDashes(s)[|TrimDashes(s)| - 1] != '-'
    ensures forall i :: |TrimDashes(s)| <= i < |s| ==> s[i] == '-'
  {
    if s != [] && s[|s| - 1] == '-' {
      TrimKeepsPrefix(s[..|s| - 1]);
      assert s[..|s| - 1][..|TrimDashes(s)|] == s[..|TrimDashes(s)|];
    }
  }

  /** The base is the first 46 bytes up to their trailing dashes. */
  lemma BaseIsTrimmedPrefix(app: Name)
    requires |app| > 55
    ensures Base(app) <= app[..46]
    ensures Base(app) != [] ==> Base(app)[|Base(app)| - 1] != '-'
    ensures forall i :: |Base(app)| <= i < 46 ==> app[i] == '-'
  {
    TrimKeepsPrefix(app[..CUT]);
    assert forall i :: 0 <= i < CUT ==> app[..CUT][i] == app[i];
  }

  /** Names that fit only get the suffix; the two known applications namespaces have fixed names. */
  lemma PlainDerivation(app: Name)
    ensures app == "redhat-ods-applications" ==> Derive(app) == "redhat-ai-grid"
    ensures app == "opendatahub" ==> Derive(app) == "odh-ai-grid"
    ensures |app| <= 55 && app != "redhat-ods-applications" && app != "opendatahub" ==>
              Derive(app) == app + "-ai-grid"
  {
  }

  /** A name that does not fit is cut at 46 bytes, trimmed of dashes, and followed by its hash in hex. */
  lemma LongDerivation(app: Name) returns (n: nat, x: Name)
    requires |app| > 55
    ensures n <= 46 && Derive(app) == app[..n] + "-" + x + "-ai-grid"
    ensures (forall i :: n <= i < 46 ==> app[i] == '-') && (n > 0 ==> app[n - 1] != '-')
    ensures |x| == 8 && ReadHex(x) == Fnv32a(app)
    ensures forall i :: 0 <= i < 8 ==> '0' <= x[i] <= '9' || 'a' <= x[i] <= 'f'
  {
    BaseIsTrimmedPrefix(app);
    n, x := |Base(app)|, Hex8(Fnv32a(app));
    assert Base(app) == app[..46][..n] == app[..n];
    WordIsPow2();
    HexRoundTrip(Fnv32a(app), HASH_WIDTH);
    HexIsLowerCase(Fnv32a(app), HASH_WIDTH);
  }

  lemma {:induction false} HexIsLowerCase(n: nat, width: nat)
    ensures forall i :: 0 <= i < width ==> '0' <= Hex(n, width)[i] <= '9' || 'a' <= Hex(n, width)[i] <= 'f'
    decreases width
  {
    if width > 0 {
      HexIsLowerCase(n / 16, width - 1);
      assert forall d :: 0 <= d < 16 ==> '0' <= HexDigit(d) <= '9' || 'a' <= HexDigit(d) <= 'f';
    }
  }

  /** Shortened names: two names collide exactly when trimmed prefix and hash both agree. */
  lemma ShortenedCollisions(a: Name, b: Name)
    requires |a| > LONGEST_PLAIN && |b| > LONGEST_PLAIN
    ensures Derive(a) == Derive(b) <==> Base(a) == Base(b) && Fnv32a(a) == Fnv32a(b)
  {
    DeriveEqualIffStemsEqual(a, b);
    if Stem(a) == Stem(b) {
      var x, y := Hex8(Fnv32a(a)), Hex8(Fnv32a(b));
      var n := |Base(a)|;
      assert |Stem(a)| == n + 1 + HASH_WIDTH && |Stem(b)| == |Base(b)| + 1 + HASH_WIDTH;
      assert Base(a) == Stem(a)[..n] == Stem(b)[..n] == Base(b);
      assert x == Stem(a)[n + 1..] == Stem(b)[n + 1..] == y;
      WordIsPow2();
      HexRoundTrip(Fnv32a(a), HASH_WIDTH);
      HexRoundTrip(Fnv32a(b), HASH_WIDTH);
    }
  }

  lemma FixedNamesAreNotShortenings(b: Name)
    requires |b| > LONGEST_PLAIN
    ensures |Shortened(b)| > 8
    ensures Shortened(b) != ODH_APPLICATIONS && Shortened(b) != RHOAI_APPLICATIONS
  {
    var s := Shortened(b);
    assert s[|Base(b)|] == '-' && |Base(b)| == |s| - 9;
    assert ODH_APPLICATIONS[2] == 'e' && |ODH_APPLICATIONS| - 9 == 2;
    assert RHOAI_APPLICATIONS[14] == 'l' && |RHOAI_APPLICATIONS| - 9 == 14;
  }

  /** A plain name collides with a shortened one exactly when it spells out the shortening. */
  lemma MixedCollisions(a: Name, b: Name)
    requires |a| <= LONGEST_PLAIN < |b|
    ensures Derive(a) == Derive(b) <==> a == Shortened(b)
  {
    DeriveEqualIffStemsEqual(a, b);
    FixedNamesAreNotShortenings(b);
  }

  ghost predicate Collide(a: Name, b: Name) {
    if |a| <= LONGEST_PLAIN && |b| <= LONGEST_PLAIN then PlainCollision(a, b)
    else if |a| <= LONGEST_PLAIN then a == Shortened(b)
    else |b| > LONGEST_PLAIN && Base(a) == Base(b) && Fnv32a(a) == Fnv32a(b)
  }

  /** All collisions between different names, of any length. */
  lemma CollisionsExactly(a: Name, b: Name)
    requires a != b
    ensures Derive(a) == Derive(b) <==> Collide(a, b) || Collide(b, a)
  {
    if |a| <= LONGEST_PLAIN && |b| <= LONGEST_PLAIN {
      PlainCollisions(a, b);
    } else if |a| <= LONGEST_PLAIN {
      MixedCollisions(a, b);
    } else if |b| <= LONGEST_PLAIN {
      MixedCollisions(b, a);
    } else {
      ShortenedCollisions(a, b);
    }
  }

  /** Long names of one length that differ in a single byte never share a grid namespace. */
  lemma OneByteApartIsSeparated(a: Name, b: Name, i: nat)
    requires |a| > LONGEST_PLAIN && DifferAt(a, b, i)
    ensures Derive(a) != Derive(b)
  {
    FnvSeparatesAt(0x811c9dc5, a, b, i);
    ShortenedCollisions(a, b);
  }

  // ----- validity, section 2.1 of RFC 1123 and section 2.3.4 of RFC 1035 -----

  predicate LetterOrDigit(c: Byte) {
    'a' <= c <= 'z' || '0' <= c <= '9'
  }

  predicate ValidLabel(s: Name) {
    && 0 < |s| <= MAX_LABEL
    && LetterOrDigit(s[0]) && LetterOrDigit(s[|s| - 1])
    && forall i :: 0 <= i < |s| ==> LetterOrDigit(s[i]) || s[i] == '-'
  }

  lemma {:induction false} HexIsAlphanumeric(n: nat, width: nat)
    ensures forall i :: 0 <= i < width ==> LetterOrDigit(Hex(n, width)[i])
    decreases width
  {
    if width > 0 {
      HexIsAlphanumeric(n / 16, width - 1);
      assert forall d :: 0 <= d < 16 ==> LetterOrDigit("0123456789abcdef"[d]);
    }
  }

  lemma StemIsLabelHead(app: Name)
    requires ValidLabel(app)
    ensures 0 < |Stem(app)| <= LONGEST_PLAIN && LetterOrDigit(Stem(app)[0])
    ensures forall i :: 0 <= i < |Stem(app)| ==> LetterOrDigit(Stem(app)[i]) || Stem(app)[i] == '-'
  {
    if |app| > LONGEST_PLAIN {
      TrimKeepsPrefix(app[..CUT]);
      assert app[..CUT][0] == app[0];
      var base := Base(app);
      assert base == app[..|base|] && base[0] == app[0];
      HexIsAlphanumeric(Fnv32a(app), HASH_WIDTH);
    }
  }

  /** Every valid applications namespace yields a valid grid namespace. */
  lemma DerivedIsValid(app: Name)
    requires ValidLabel(app)
    ensures ValidLabel(Derive(app))
  {
    StemIsLabelHead(app);
    DeriveIsStemPlusSuffix(app);
    var s := Stem(app);
    forall i | 0 <= i < |Derive(app)|
      ensures LetterOrDigit(Derive(app)[i]) || Derive(app)[i] == '-'
    {
      if i < |s| {
        assert Derive(app)[i] == s[i];
      } else {
        assert Derive(app)[i] == SUFFIX[i - |s|];
      }
    }
  }

  /**
   * The hash does not make a shortened namespace unique among all applications namespaces:
   * every valid long name has a valid short one that derives the same grid namespace.
   */
  lemma EveryLongNameHasAShortTwin(b: Name) returns (a: Name)
    requires ValidLabel(b) && |b| > LONGEST_PLAIN
    ensures ValidLabel(a) && a != b && Derive(a) == Derive(b)
  {
    a := Shortened(b);
    StemIsLabelHead(b);
    HexIsAlphanumeric(Fnv32a(b), HASH_WIDTH);
    assert a[|a| - 1] == Hex8(Fnv32a(b))[HASH_WIDTH - 1];
    MixedCollisions(a, b);
  }
}
