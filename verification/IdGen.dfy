/** The Crockford base-32 ids of internal/idgen: section 6 of RFC 4648 without padding, with
    Crockford's alphabet. */
module IdGen {
  import opened Common
  import opened Jobs

  const CROCKFORD := "0123456789ABCDEFGHJKMNPQRSTVWXYZ"

  const TWO64: nat := 0x1_0000_0000_0000_0000

  // ---------- Digit strings and the numbers they stand for ----------

  /** The number whose big-endian digits in the given base are s. */
  function Num(s: seq<nat>, base: nat): nat {
    if s == [] then 0 else Num(s[..|s| - 1], base) * base + s[|s| - 1]
  }

  predicate Digits(s: seq<nat>, base: nat) {
    forall i :: 0 <= i < |s| ==> s[i] < base
  }

  /** Lexicographic order. */
  ghost predicate LexLess(a: seq<nat>, b: seq<nat>) {
    exists k: nat :: FirstDiffers(a, b, k)
  }

  predicate FirstDiffers(a: seq<nat>, b: seq<nat>, k: nat) {
    k < |a| && k < |b| && a[..k] == b[..k] && a[k] < b[k]
  }

  /** Between digit strings of one length, numeric order is lexicographic order. */
  lemma {:induction false} OrderIsLexicographic(a: seq<nat>, b: seq<nat>, base: nat)
    requires base >= 1 && |a| == |b| && Digits(a, base) && Digits(b, base)
    ensures Num(a, base) < Num(b, base) <==> LexLess(a, b)
    ensures Num(a, base) == Num(b, base) <==> a == b
  {
    if a != [] {
      var a', b' := a[..|a| - 1], b[..|b| - 1];
      var x, y := a[|a| - 1], b[|b| - 1];
      OrderIsLexicographic(a', b', base);
      LexSnoc(a', b', x, y);
      assert a == a' + [x] && b == b' + [y];
      CompareLast(Num(a', base), Num(b', base), x, y, base);
    }
  }

  lemma CompareLast(m: nat, n: nat, x: nat, y: nat, base: nat)
    requires x < base && y < base
    ensures m * base + x < n * base + y <==> m < n || (m == n && x < y)
    ensures m * base + x == n * base + y <==> m == n && x == y
  {
    if m < n {
      assert (m + 1) * base <= n * base;
    } else if n < m {
      assert (n + 1) * base <= m * base;
    }
  }

  lemma LexSnoc(a: seq<nat>, b: seq<nat>, x: nat, y: nat)
    requires |a| == |b|
    ensures LexLess(a + [x], b + [y]) <==> LexLess(a, b) || (a == b && x < y)
  {
    if LexLess(a + [x], b + [y]) {
      var k: nat :| FirstDiffers(a + [x], b + [y], k);
      assert (a + [x])[..k] == a[..k] && (b + [y])[..k] == b[..k];
      if k < |a| {
        assert FirstDiffers(a, b, k);
      }
    }
    if LexLess(a, b) {
      var k: nat :| FirstDiffers(a, b, k);
      assert (a + [x])[..k] == a[..k] && (b + [y])[..k] == b[..k];
      assert FirstDiffers(a + [x], b + [y], k);
    }
    if a == b && x < y {
      assert (a + [x])[..|a|] == (b + [y])[..|a|];
      assert FirstDiffers(a + [x], b + [y], |a|);
    }
  }

  // ---------- The alphabet ----------

  /** The character of digit v: the alphabet skips I, L, O and U. */
  function Digit(v: nat): (c: char)
    requires v < 32
  {
    if v < 10 then (v + 48) as char
    else if v < 18 then (v + 55) as char
    else if v < 20 then (v + 56) as char
    else if v < 22 then (v + 57) as char
    else if v < 27 then (v + 58) as char
    else (v + 59) as char
  }

  lemma AlphabetIs(v: nat)
    requires v < 32
    ensures CROCKFORD[v] == Digit(v)
  {
  }

  function Chars(d: seq<nat>): (s: string)
    requires Digits(d, 32)
    ensures |s| == |d|
    ensures forall i :: 0 <= i < |s| ==> s[i] == Digit(d[i])
  {
    seq(|d|, i requires 0 <= i < |d| => Digit(d[i]))
  }

  ghost predicate InAlphabet(s: string) {
    exists d: seq<nat> :: Digits(d, 32) && s == Chars(d)
  }

  /** String order, as Go compares strings of ASCII characters. */
  ghost predicate Precedes(s: string, t: string) {
    exists k: nat :: PrecedesAt(s, t, k)
  }

  predicate PrecedesAt(s: string, t: string, k: nat) {
    k < |s| && k < |t| && s[..k] == t[..k] && s[k] < t[k]
  }

  lemma CharsOrder(d: seq<nat>, e: seq<nat>)
    requires |d| == |e| && Digits(d, 32) && Digits(e, 32)
    ensures Precedes(Chars(d), Chars(e)) <==> LexLess(d, e)
    ensures Chars(d) == Chars(e) <==> d == e
  {
    var s, t := Chars(d), Chars(e);
    forall k: nat | k <= |d|
      ensures s[..k] == t[..k] <==> d[..k] == e[..k]
    {
      if s[..k] == t[..k] {
        forall i | 0 <= i < k
          ensures d[i] == e[i]
        {
          assert s[..k][i] == t[..k][i];
        }
      }
      if d[..k] == e[..k] {
        forall i | 0 <= i < k
          ensures s[i] == t[i]
        {
          assert d[..k][i] == e[..k][i];
        }
      }
    }
    assert s[..|d|] == s && t[..|d|] == t && d[..|d|] == d && e[..|d|] == e;
    if Precedes(s, t) {
      var k: nat :| PrecedesAt(s, t, k);
      assert FirstDiffers(d, e, k);
    }
    if LexLess(d, e) {
      var k: nat :| FirstDiffers(d, e, k);
      assert PrecedesAt(s, t, k);
    }
  }

  // ---------- The encoder ----------

  function Nats(src: Bytes): (s: seq<nat>)
    ensures |s| == |src| && Digits(s, 256)
    ensures forall i :: 0 <= i < |s| ==> s[i] == src[i] as nat
  {
    seq(|src|, i requires 0 <= i < |src| => src[i] as nat)
  }

  /** s is the encoding of the 16 bytes src: the 26 base-32 digits of the 128-bit number,
      followed by two zero bits. */
  ghost predicate Encodes(src: Bytes, s: string) {
    exists d: seq<nat> :: EncodesAs(src, s, d)
  }

  ghost predicate EncodesAs(src: Bytes, s: string, d: seq<nat>) {
    |d| == 26 && Digits(d, 32) && s == Chars(d) && Num(d, 32) == 4 * Num(Nats(src), 256)
  }

  lemma ShiftIn(v: nat, x: nat, e: nat)
    requires x < 256 && e < 5
    ensures (v * 256 + x) / P2(e + 8) == v / P2(e)
  {
    P2Values();
  }

  lemma ShiftOut(v: nat, e: nat)
    requires e < 8
    ensures v / P2(e) == v / P2(e + 5) * 32 + v / P2(e) % 32
  {
    hide P2;
    P2Values();
    assert P2(e) in {1, 2, 4, 8, 16, 32, 64, 128} && P2(e + 5) == 32 * P2(e);
  }

  lemma DivShift(c: nat, p: nat, r: nat)
    requires p > 0
    ensures (c * p + r) / p == c + r / p
  {
    var d, m := r / p, r % p;
    assert c * p + r == (c + d) * p + m;
    DivUnique((c + d) * p + m, p, c + d, m);
  }

  lemma DivUnique(x: nat, p: nat, d: nat, m: nat)
    requires p > 0 && x == d * p + m && m < p
    ensures x / p == d
  {
    var e, g := x / p, x % p;
    assert (d - e) * p == g - m;
    OutOfReach(d - e, p);
  }

  lemma ModShift(c: nat, p: nat, r: nat)
    requires p > 0
    ensures (c * p + r) % p == r % p
  {
    DivShift(c, p, r);
    assert (c * p + r) - (c + r / p) * p == r - r / p * p;
  }

  lemma OutOfReach(k: int, p: int)
    requires p >= 0
    ensures k >= 1 ==> k * p >= p
    ensures k <= -1 ==> k * p <= -p
  {
  }

  /** 2^64 times q is a multiple of 32 * 2^e. */
  lemma Regroup(q: nat, e: nat) returns (c: nat)
    requires e < 8
    ensures q * TWO64 == 32 * c * P2(e)
  {
    var k := PowerDivides(e);
    c := q * k;
    Rearrange(q, k, P2(e));
  }

  lemma PowerDivides(e: nat) returns (k: nat)
    requires e < 8
    ensures TWO64 == 32 * k * P2(e)
  {
    P2Values();
    k := if e == 0 then 0x800_0000_0000_0000
         else if e == 1 then 0x400_0000_0000_0000
         else if e == 2 then 0x200_0000_0000_0000
         else if e == 3 then 0x100_0000_0000_0000
         else if e == 4 then 0x80_0000_0000_0000
         else if e == 5 then 0x40_0000_0000_0000
         else if e == 6 then 0x20_0000_0000_0000
         else 0x10_0000_0000_0000;
  }

  lemma Rearrange(q: nat, k: nat, p: nat)
    ensures q * (32 * k * p) == 32 * (q * k) * p
  {
  }

  /** The accumulator may forget everything above 64 bits. */
  lemma Wrapped(v: nat, e: nat)
    requires e < 8
    ensures v % TWO64 / P2(e) % 32 == v / P2(e) % 32
  {
    var q := v / TWO64;
    var c := Regroup(q, e);
    WrappedAt(c, P2(e), v % TWO64);
    assert v == q * TWO64 + v % TWO64;
  }

  lemma WrappedAt(c: nat, p: nat, r: nat)
    requires p > 0
    ensures (32 * c * p + r) / p % 32 == r / p % 32
  {
    DivShift(32 * c, p, r);
    ModShift(c, 32, r / p);
  }

  lemma NumSnoc(d: seq<nat>, x: nat, base: nat)
    ensures Num(d + [x], base) == Num(d, base) * base + x
  {
    assert (d + [x])[..|d|] == d;
  }

  /** The inner loop: write out every whole group of five bits. v is the number fed in so far. */
  method WriteGroups(s0: string, n: nat, nbits0: nat, ghost v: nat, ghost d0: seq<nat>)
    returns (s: string, nbits: nat, ghost d: seq<nat>)
    requires nbits0 < 13 && Digits(d0, 32) && s0 == Chars(d0)
    requires n == v % TWO64 && Num(d0, 32) == v / P2(nbits0)
    ensures nbits < 5 && 5 * |d| + nbits == 5 * |d0| + nbits0
    ensures Digits(d, 32) && s == Chars(d) && Num(d, 32) == v / P2(nbits)
  {
    s, nbits, d := s0, nbits0, d0;
    while nbits >= 5
      invariant nbits < 13 && 5 * |d| + nbits == 5 * |d0| + nbits0
      invariant Digits(d, 32) && s == Chars(d) && Num(d, 32) == v / P2(nbits)
    {
      nbits := nbits - 5;
      var idx := n / P2(nbits) % 32;
      Wrapped(v, nbits);
      ShiftOut(v, nbits);
      s, d := Write(s, d, idx);
    }
  }

  /** b.WriteByte(crockford[idx]). */
  method Write(s0: string, ghost d0: seq<nat>, idx: nat) returns (s: string, ghost d: seq<nat>)
    requires Digits(d0, 32) && s0 == Chars(d0) && idx < 32
    ensures d == d0 + [idx] && Digits(d, 32) && s == Chars(d) && Num(d, 32) == Num(d0, 32) * 32 + idx
  {
    NumSnoc(d0, idx, 32);
    AlphabetIs(idx);
    s := s0 + [CROCKFORD[idx]];
    d := d0 + [idx];
  }

  method EncodeCrockford(src: Bytes) returns (s: string)
    ensures |s| == 26 && InAlphabet(s)
    ensures |src| == 16 ==> Encodes(src, s)
  {
    hide P2;
    P2Values();
    var n: nat, nbits: nat := 0, 0;
    s := "";
    ghost var d: seq<nat> := [];
    ghost var v: nat := 0;
    for i := 0 to |src|
      invariant nbits < 5 && 5 * |d| + nbits == 8 * i
      invariant Digits(d, 32) && s == Chars(d) && v == Num(Nats(src)[..i], 256)
      invariant n == v % TWO64 && Num(d, 32) == v / P2(nbits)
    {
      var octet := src[i] as nat;
      Feed(v, n, octet);
      NumSnoc(Nats(src)[..i], octet, 256);
      assert Nats(src)[..i + 1] == Nats(src)[..i] + [octet];
      ShiftIn(v, octet, nbits);
      n := (n * 256 + octet) % TWO64;
      v := v * 256 + octet;
      s, nbits, d := WriteGroups(s, n, nbits + 8, v, d);
    }
    assert Nats(src)[..|src|] == Nats(src);
    s, d := Flush(s, d, n, nbits, v);
    assert |src| == 16 ==> EncodesAs(src, s, d);
    s, d := Fit(s, d);
  }

  /** The bits left over, if any, filled up with zeros. */
  method Flush(s0: string, ghost d0: seq<nat>, n: nat, nbits: nat, ghost v: nat) returns (s: string, ghost d: seq<nat>)
    requires nbits < 5 && Digits(d0, 32) && s0 == Chars(d0) && n == v % TWO64 && Num(d0, 32) == v / P2(nbits)
    ensures Digits(d, 32) && s == Chars(d) && |d| == |d0| + if nbits > 0 then 1 else 0
    ensures nbits == 3 ==> Num(d, 32) == 4 * v
  {
    hide P2;
    s, d := s0, d0;
    if nbits > 0 {
      var idx := n * P2(5 - nbits) % TWO64 % 32;
      LastDigit(v);
      s, d := Write(s, d, idx);
    }
  }

  /** Cuts or zero-pads to 26 characters. */
  method Fit(s0: string, ghost d0: seq<nat>) returns (s: string, ghost d: seq<nat>)
    requires Digits(d0, 32) && s0 == Chars(d0)
    ensures |s| == 26 && Digits(d, 32) && s == Chars(d)
    ensures |s0| == 26 ==> s == s0 && d == d0
  {
    s, d := s0, d0;
    if |s| > 26 {
      s, d := s[..26], d[..26];
    }
    while |s| < 26
      invariant |s| <= 26 && Digits(d, 32) && s == Chars(d)
      invariant |s0| == 26 ==> s == s0 && d == d0
    {
      s, d := Write(s, d, 0);
    }
  }

  lemma Feed(v: nat, n: nat, x: nat)
    requires n == v % TWO64
    ensures (n * 256 + x) % TWO64 == (v * 256 + x) % TWO64
  {
    ModShift(v / TWO64 * 256, TWO64, n * 256 + x);
  }

  lemma LastDigit(v: nat)
    ensures v / P2(3) * 32 + v % TWO64 * P2(2) % TWO64 % 32 == 4 * v
  {
    hide P2;
    P2Values();
    var q, r := v / TWO64, v % TWO64;
    assert v == q * TWO64 + r;
    assert v / 8 == q * (TWO64 / 8) + r / 8;
  }

  // ---------- What the encoding promises ----------

  /** Injective, and order preserving: ids compare as the bytes they encode. */
  lemma EncodingKeepsOrder(a: Bytes, b: Bytes, s: string, t: string)
    requires |a| == |b| && Encodes(a, s) && Encodes(b, t)
    ensures s == t <==> a == b
    ensures Precedes(s, t) <==> LexLess(Nats(a), Nats(b))
  {
    var d: seq<nat> :| EncodesAs(a, s, d);
    var e: seq<nat> :| EncodesAs(b, t, e);
    OrderIsLexicographic(d, e, 32);
    OrderIsLexicographic(Nats(a), Nats(b), 256);
    CharsOrder(d, e);
    if Nats(a) == Nats(b) {
      forall i | 0 <= i < |a|
        ensures a[i] == b[i]
      {
        assert Nats(a)[i] == Nats(b)[i];
      }
    }
  }

  const MS48: nat := 0x1_0000_0000_0000

  /** The first six bytes of an id: the low 48 bits of the millisecond clock, most significant first. */
  function StampBytes(ms: int): (b: Bytes)
    ensures |b| == 6
  {
    [(ms / 0x100_0000_0000 % 256) as Byte, (ms / 0x1_0000_0000 % 256) as Byte, (ms / 0x100_0000 % 256) as Byte,
     (ms / 0x1_0000 % 256) as Byte, (ms / 0x100 % 256) as Byte, (ms % 256) as Byte]
  }

  lemma StampNumber(ms: int)
    ensures Num(Nats(StampBytes(ms)), 256) == ms % MS48
  {
    var b := Nats(StampBytes(ms));
    NumSnoc([], b[0], 256);
    NumSnoc(b[..1], b[1], 256);
    NumSnoc(b[..2], b[2], 256);
    NumSnoc(b[..3], b[3], 256);
    NumSnoc(b[..4], b[4], 256);
    NumSnoc(b[..5], b[5], 256);
    assert [] + [b[0]] == b[..1] && b[..1] + [b[1]] == b[..2] && b[..2] + [b[2]] == b[..3];
    assert b[..3] + [b[3]] == b[..4] && b[..4] + [b[4]] == b[..5] && b[..5] + [b[5]] == b;
    assert Num(b, 256) == Horner(b[0], b[1], b[2], b[3], b[4], b[5]);
    StampDigits(ms);
  }

  function Horner(a: nat, b: nat, c: nat, d: nat, e: nat, f: nat): nat {
    ((((a * 256 + b) * 256 + c) * 256 + d) * 256 + e) * 256 + f
  }

  lemma StampDigits(ms: int)
    ensures Horner(ms / 0x100_0000_0000 % 256, ms / 0x1_0000_0000 % 256, ms / 0x100_0000 % 256,
                   ms / 0x1_0000 % 256, ms / 0x100 % 256, ms % 256) == ms % MS48
  {
    var m1 := ms / 256;
    var m2 := m1 / 256;
    var m3 := m2 / 256;
    var m4 := m3 / 256;
    var m5 := m4 / 256;
    assert ms / 0x1_0000 == m2 && ms / 0x100_0000 == m3 && ms / 0x1_0000_0000 == m4 && ms / 0x100_0000_0000 == m5;
    var h := m5 / 256;
    assert ms == h * MS48 + Horner(m5 % 256, m4 % 256, m3 % 256, m2 % 256, m1 % 256, ms % 256);
  }

  /** idgen.New: `entropy` is what the random source filled the last ten bytes with. */
  method New(prefix: string, nowMs: int, entropy: Bytes) returns (id: string, ghost raw: Bytes, ghost enc: string)
    requires |entropy| == 10
    ensures raw == StampBytes(nowMs) + entropy && Encodes(raw, enc) && |enc| == 26
    ensures id == if prefix == "" then enc else prefix + "_" + enc
    ensures ValidId(id, prefix)
  {
    var e := EncodeCrockford(StampBytes(nowMs) + entropy);
    raw, enc := StampBytes(nowMs) + entropy, e;
    if prefix == "" {
      return e, raw, enc;
    }
    id := prefix + "_" + e;
    assert id[..|prefix| + 1] == prefix + "_" && id[|prefix| + 1..] == e;
  }

  /** Ids of one prefix sort strictly by their 48-bit millisecond stamp, whatever the entropy. */
  lemma IdsSortByTime(prefix: string, ms1: int, ms2: int, e1: Bytes, e2: Bytes, enc1: string, enc2: string)
    requires |e1| == |e2| == 10 && ms1 % MS48 < ms2 % MS48
    requires Encodes(StampBytes(ms1) + e1, enc1) && Encodes(StampBytes(ms2) + e2, enc2)
    ensures Precedes(enc1, enc2) && Precedes(prefix + "_" + enc1, prefix + "_" + enc2)
  {
    var a, b := StampBytes(ms1) + e1, StampBytes(ms2) + e2;
    var x, y := Nats(StampBytes(ms1)), Nats(StampBytes(ms2));
    StampNumber(ms1);
    StampNumber(ms2);
    OrderIsLexicographic(x, y, 256);
    var k: nat :| FirstDiffers(x, y, k);
    assert Nats(a)[..k] == x[..k] && Nats(b)[..k] == y[..k];
    assert FirstDiffers(Nats(a), Nats(b), k);
    EncodingKeepsOrder(a, b, enc1, enc2);
    var m: nat :| PrecedesAt(enc1, enc2, m);
    var p := prefix + "_";
    assert (p + enc1)[..|p| + m] == p + enc1[..m] && (p + enc2)[..|p| + m] == p + enc2[..m];
    assert PrecedesAt(p + enc1, p + enc2, |p| + m);
  }

  // ---------- The recogniser ----------

  ghost predicate ValidId(id: string, prefix: string) {
    prefix == "" ||
    (|id| == |prefix| + 1 + 26 && id[..|prefix| + 1] == prefix + "_" && InAlphabet(id[|prefix| + 1..]))
  }

  lemma InAlphabetIff(s: string)
    ensures InAlphabet(s) <==> forall i :: 0 <= i < |s| ==> s[i] in CROCKFORD
  {
    if InAlphabet(s) {
      var d: seq<nat> :| Digits(d, 32) && s == Chars(d);
      forall i | 0 <= i < |s|
        ensures s[i] in CROCKFORD
      {
        AlphabetIs(d[i]);
      }
    }
    if forall i :: 0 <= i < |s| ==> s[i] in CROCKFORD {
      var d := seq(|s|, i requires 0 <= i < |s| => var v: nat :| v < 32 && CROCKFORD[v] == s[i]; v);
      forall i | 0 <= i < |s|
        ensures Chars(d)[i] == s[i]
      {
        AlphabetIs(d[i]);
      }
      assert Chars(d) == s;
    }
  }

  /** Accepts exactly the valid ids. */
  method ValidatePrefix(id: string, prefix: string) returns (ok: bool)
    ensures ok <==> ValidId(id, prefix)
    ensures prefix == "" ==> ok
    ensures prefix != "" ==>
      (ok <==> && |id| == |prefix| + 1 + 26 && prefix + "_" <= id
               && forall i :: |prefix| + 1 <= i < |id| ==> id[i] in CROCKFORD)
  {
    if prefix == "" {
      return true;
    }
    var want := prefix + "_";
    if !(want <= id) {
      return false;
    }
    if |id| != |want| + 26 {
      return false;
    }
    var body := id[|want|..];
    InAlphabetIff(body);
    for i := 0 to |body|
      invariant forall k :: 0 <= k < i ==> body[k] in CROCKFORD
    {
      if body[i] !in CROCKFORD {
        return false;
      }
    }
    return true;
  }
}
