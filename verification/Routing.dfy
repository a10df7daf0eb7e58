/** Which stores a frame goes to: prefix matching (internal/frame), the store registry
    (internal/geology) and the fan-out plan (internal/fanout). */
module Routing {
  import opened Common
  import opened Jobs

  // ---------- Prefix matching ----------

  predicate HasSuffixDot(p: string) {
    |p| > 0 && p[|p| - 1] == '.'
  }

  /** frame.MatchPrefix; `p <= t` on strings is Go's HasPrefix(t, p). */
  predicate MatchPrefix(t: string, p: string) {
    if p == "" then true
    else if p == t then true
    else if HasSuffixDot(p) then p <= t
    else t == p || p + "." <= t
  }

  /** strings.Split(s, "."). */
  function Split(s: string): (r: seq<string>)
    ensures |r| >= 1
  {
    if s == "" then [""]
    else if s[0] == '.' then [""] + Split(s[1..])
    else [[s[0]] + Split(s[1..])[0]] + Split(s[1..])[1..]
  }

  /** The segments of p begin the segments of t exactly when p is t or t continues p at a dot. */
  lemma {:induction false} SplitPrefix(p: string, t: string)
    ensures Split(p) <= Split(t) <==> t == p || p + "." <= t
  {
    if p == "" {
      assert p + "." == "." && (t != "" ==> t == [t[0]] + t[1..]);
      assert Split(p) <= Split(t) <==> Split(t)[0] == "";
    } else if t == "" {
      assert |p + "."| > 0 && Split(t) == [""];
      if p[0] == '.' {
        assert |Split(p)| >= 2;
      } else {
        assert Split(p)[0] != "";
      }
    } else {
      var p', t' := p[1..], t[1..];
      SplitPrefix(p', t');
      assert p == [p[0]] + p' && t == [t[0]] + t';
      assert (p + ".") == [p[0]] + (p' + ".");
      assert p + "." <= t <==> p[0] == t[0] && p' + "." <= t' by {
        assert p' + "." <= t' && p[0] == t[0] ==> [p[0]] + (p' + ".") <= [t[0]] + t';
        if p + "." <= t {
          assert (p + ".")[1..] == p' + ".";
          assert (p + ".")[0] == p[0];
        }
      }
      HeadTail(p, t);
    }
  }

  lemma HeadTail(p: string, t: string)
    requires p != "" && t != ""
    ensures Split(p) <= Split(t) <==> p[0] == t[0] && Split(p[1..]) <= Split(t[1..])
  {
    var a, b := Split(p[1..]), Split(t[1..]);
    if p[0] == '.' && t[0] == '.' {
      PrefixCons("", a, "", b);
    } else if p[0] == '.' || t[0] == '.' {
      assert (|Split(p)[0]| == 0) != (|Split(t)[0]| == 0);
    } else {
      HeadTailInside(p[0], a, t[0], b);
    }
  }

  lemma HeadTailInside(c: char, a: seq<string>, d: char, b: seq<string>)
    requires a != [] && b != []
    ensures [[c] + a[0]] + a[1..] <= [[d] + b[0]] + b[1..] <==> c == d && a <= b
  {
    var x, y := [c] + a[0], [d] + b[0];
    assert x == y <==> c == d && a[0] == b[0] by {
      assert x[0] == c && x[1..] == a[0] && y[0] == d && y[1..] == b[0];
    }
    assert a == [a[0]] + a[1..] && b == [b[0]] + b[1..];
    PrefixCons(x, a[1..], y, b[1..]);
    PrefixCons(a[0], a[1..], b[0], b[1..]);
  }

  lemma PrefixCons(x: string, a: seq<string>, y: string, b: seq<string>)
    ensures [x] + a <= [y] + b <==> x == y && a <= b
  {
    if [x] + a <= [y] + b {
      assert ([x] + a)[0] == x && ([y] + b)[0] == y;
      assert ([x] + a)[1..] == a && ([y] + b)[1..] == b;
    }
  }

  lemma SplitInjective(a: string, b: string)
    requires Split(a) == Split(b)
    ensures a == b
  {
    SplitPrefix(a, b);
    SplitPrefix(b, a);
    assert |a + "."| == |a| + 1 && |b + "."| == |b| + 1;
  }

  /** A prefix without trailing dot matches the types whose segments begin with its segments. */
  lemma MatchIsSegmentPrefix(t: string, p: string)
    requires p != "" && !HasSuffixDot(p)
    ensures MatchPrefix(t, p) <==> Split(p) <= Split(t)
  {
    SplitPrefix(p, t);
  }

  /** A prefix with a trailing dot matches the types with at least one more segment than its stem. */
  lemma MatchIsProperSegmentPrefix(t: string, stem: string)
    ensures MatchPrefix(t, stem + ".") <==> Split(stem) < Split(t)
  {
    SplitPrefix(stem, t);
    if Split(stem) == Split(t) {
      SplitInjective(stem, t);
    }
    assert |stem + "."| == |stem| + 1;
    assert MatchPrefix(t, stem + ".") <==> stem + "." <= t;
  }

  // ---------- Types ----------

  /** unicode.IsSpace. */
  predicate IsSpace(c: char) {
    || '\t' <= c <= '\r' || c == ' ' || c == '\U{85}' || c == '\U{A0}' || c == '\U{1680}'
    || '\U{2000}' <= c <= '\U{200A}' || c == '\U{2028}' || c == '\U{2029}' || c == '\U{202F}'
    || c == '\U{205F}' || c == '\U{3000}'
  }

  function TrimLeft(s: string): (r: string)
    ensures r != "" ==> !IsSpace(r[0])
    ensures s != "" && !IsSpace(s[0]) ==> r == s
  {
    if s != "" && IsSpace(s[0]) then TrimLeft(s[1..]) else s
  }

  function TrimRight(s: string): (r: string)
    ensures r <= s && (r != "" ==> !IsSpace(r[|r| - 1]))
    ensures forall i :: |r| <= i < |s| ==> IsSpace(s[i])
  {
    if s != "" && IsSpace(s[|s| - 1]) then TrimRight(s[..|s| - 1]) else s
  }

  /** strings.TrimSpace. */
  function Trim(s: string): string {
    TrimRight(TrimLeft(s))
  }

  /** What begins and ends without a space is trimmed already. */
  lemma TrimNothing(s: string)
    requires s != "" ==> !IsSpace(s[0]) && !IsSpace(s[|s| - 1])
    ensures Trim(s) == s
  {
  }

  /** What TrimSpace leaves: m, if s is m between runs of spaces and m has no space at either end. */
  lemma TrimIs(s: string, l: string, m: string, r: string)
    requires s == l + m + r
    requires (forall i :: 0 <= i < |l| ==> IsSpace(l[i])) && (forall i :: 0 <= i < |r| ==> IsSpace(r[i]))
    requires m != "" ==> !IsSpace(m[0]) && !IsSpace(m[|m| - 1])
    ensures Trim(s) == m
  {
    if m == "" {
      AllSpaces(s);
    } else {
      LeftTrimmed(l, m + r);
      assert s == l + (m + r);
      RightTrimmed(m, r);
    }
  }

  lemma {:induction false} AllSpaces(s: string)
    requires forall i :: 0 <= i < |s| ==> IsSpace(s[i])
    ensures Trim(s) == ""
  {
    if s != "" {
      AllSpaces(s[1..]);
    }
  }

  lemma {:induction false} LeftTrimmed(l: string, m: string)
    requires (forall i :: 0 <= i < |l| ==> IsSpace(l[i])) && m != "" && !IsSpace(m[0])
    ensures TrimLeft(l + m) == m
  {
    if l == "" {
      assert l + m == m;
    } else {
      LeftTrimmed(l[1..], m);
      assert (l + m)[1..] == l[1..] + m && (l + m)[0] == l[0];
    }
  }

  lemma {:induction false} RightTrimmed(m: string, r: string)
    requires (forall i :: 0 <= i < |r| ==> IsSpace(r[i])) && m != "" && !IsSpace(m[|m| - 1])
    ensures TrimRight(m + r) == m
    decreases |r|
  {
    if r == "" {
      assert m + r == m;
    } else {
      var n := |r| - 1;
      RightTrimmed(m, r[..n]);
      assert (m + r)[..|m + r| - 1] == m + r[..n] && (m + r)[|m + r| - 1] == r[n];
    }
  }

  lemma TrimTwice(s: string)
    ensures Trim(Trim(s)) == Trim(s)
  {
    var l, r := TrimLeft(s), Trim(s);
    if r != "" {
      assert r[0] == l[0];
    }
    TrimNothing(r);
  }

  /** len(s): the number of bytes of its UTF-8 encoding. */
  function Utf8Len(s: string): nat {
    if s == "" then 0
    else
      var c := s[|s| - 1];
      Utf8Len(s[..|s| - 1]) + if c < '\U{80}' then 1 else if c < '\U{800}' then 2 else if c < '\U{10000}' then 3 else 4
  }

  /** How many code points a UTF-8 sequence of n bytes has room for: seven bits in one byte, else 7 - n in
      the first byte and six in each that follows. */
  function Utf8Room(n: nat): nat
    requires 1 <= n <= 4
  {
    if n == 1 then 128 else P2(7 - n) * Sixes(n - 1)
  }

  function Sixes(n: nat): nat {
    if n == 0 then 1 else 64 * Sixes(n - 1)
  }

  /** A string is as long as its characters, each in the shortest UTF-8 sequence that has room for it. */
  lemma Utf8LenIs(c: char, a: string, b: string) returns (n: nat)
    ensures 1 <= n <= 4 && Utf8Len([c]) == n && c as int < Utf8Room(n) && (n > 1 ==> Utf8Room(n - 1) <= c as int)
    ensures Utf8Len(a + b) == Utf8Len(a) + Utf8Len(b)
  {
    P2Values();
    assert Sixes(1) == 64 && Sixes(2) == 4096 && Sixes(3) == 262144;
    assert [c][..|[c]| - 1] == "" && [c][|[c]| - 1] == c;
    n := if c < '\U{80}' then 1 else if c < '\U{800}' then 2 else if c < '\U{10000}' then 3 else 4;
    assert Utf8Room(2) == 2048 && Utf8Room(3) == 65536 && Utf8Room(4) == 2097152;
    Utf8Concat(a, b);
  }

  lemma {:induction false} Utf8Concat(a: string, b: string)
    ensures Utf8Len(a + b) == Utf8Len(a) + Utf8Len(b)
    decreases |b|
  {
    if b == "" {
      assert a + b == a;
    } else {
      var n := |b| - 1;
      Utf8Concat(a, b[..n]);
      assert (a + b)[..|a + b| - 1] == a + b[..n];
    }
  }

  predicate LegalChar(c: char) {
    'a' <= c <= 'z' || '0' <= c <= '9' || c == '_' || c == '-'
  }

  predicate LegalChars(p: string) {
    forall i :: 0 <= i < |p| ==> LegalChar(p[i])
  }

  predicate LegalSegment(p: string) {
    p != "" && LegalChars(p)
  }

  predicate AllLegal(ss: seq<string>) {
    forall i :: 0 <= i < |ss| ==> LegalSegment(ss[i])
  }

  /** The types frame.ValidateType accepts once they are trimmed. */
  predicate ValidType(t: string) {
    t != "" && Utf8Len(t) <= 128 && AllLegal(Split(t))
  }

  method ValidateType(t: string) returns (ok: bool)
    ensures ok <==> ValidType(Trim(t))
  {
    var s := Trim(t);
    if s == "" {
      return false;
    }
    if Utf8Len(s) > 128 {
      return false;
    }
    var parts := Split(s);
    for k := 0 to |parts|
      invariant forall i :: 0 <= i < k ==> LegalSegment(parts[i])
    {
      var p := parts[k];
      if p == "" {
        return false;
      }
      for i := 0 to |p|
        invariant forall j :: 0 <= j < i ==> LegalChar(p[j])
      {
        if !LegalChar(p[i]) {
          return false;
        }
      }
    }
    return true;
  }

  /** Legal characters and dots, no dot at either end and no two in a row. */
  predicate DottedLower(t: string) {
    && (forall i :: 0 <= i < |t| ==> LegalChar(t[i]) || t[i] == '.')
    && (t != "" ==> t[0] != '.' && t[|t| - 1] != '.')
    && (forall i :: 0 <= i < |t| - 1 ==> t[i] != '.' || t[i + 1] != '.')
  }

  /** All segments legal, but the first one may be empty. */
  predicate LaterLegal(t: string) {
    LegalChars(Split(t)[0]) && AllLegal(Split(t)[1..])
  }

  /** The same without splitting: a dot at the front is allowed. */
  predicate DottedTail(t: string) {
    && (forall i :: 0 <= i < |t| ==> LegalChar(t[i]) || t[i] == '.')
    && (t != "" ==> t[|t| - 1] != '.')
    && (forall i :: 0 <= i < |t| - 1 ==> t[i] != '.' || t[i + 1] != '.')
  }

  lemma {:induction false} LaterIsDotted(t: string)
    ensures LaterLegal(t) <==> DottedTail(t)
  {
    if t != "" {
      var u := t[1..];
      LaterIsDotted(u);
      FirstSegment(u);
      DottedFront(t);
      if t[0] == '.' {
        assert Split(t)[1..] == Split(u);
        AllLegalIs(Split(u));
      } else {
        assert Split(t)[1..] == Split(u)[1..];
        LegalFront(t[0], Split(u)[0]);
      }
    }
  }

  lemma AllLegalIs(ss: seq<string>)
    requires ss != []
    ensures AllLegal(ss) <==> LegalSegment(ss[0]) && AllLegal(ss[1..])
  {
    assert forall i :: 1 <= i < |ss| ==> ss[i] == ss[1..][i - 1];
    assert forall i :: 0 <= i < |ss| - 1 ==> ss[1..][i] == ss[i + 1];
  }

  lemma LegalFront(c: char, p: string)
    ensures LegalChars([c] + p) <==> LegalChar(c) && LegalChars(p)
  {
    var q := [c] + p;
    assert q[0] == c && forall i :: 0 <= i < |p| ==> q[i + 1] == p[i];
    assert forall i :: 1 <= i < |q| ==> q[i] == p[i - 1];
  }

  lemma DottedFront(t: string)
    requires t != ""
    ensures DottedTail(t) <==>
      DottedTail(t[1..]) && if t[0] == '.' then t[1..] != "" && t[1] != '.' else LegalChar(t[0])
  {
    var u := t[1..];
    assert forall i :: 0 <= i < |u| ==> u[i] == t[i + 1];
    assert forall i :: 1 <= i < |t| ==> t[i] == u[i - 1];
  }

  /** A string starts with a nonempty segment exactly when it does not start with a dot. */
  lemma FirstSegment(t: string)
    ensures Split(t)[0] == "" <==> t == "" || t[0] == '.'
  {
  }

  /** The type grammar, without splitting. */
  lemma ValidTypeIs(t: string)
    ensures ValidType(t) <==> t != "" && Utf8Len(t) <= 128 && DottedLower(t)
    ensures ValidType(t) <==>
      && 0 < |t| <= 128 && t[0] != '.' && t[|t| - 1] != '.'
      && (forall i :: 0 <= i < |t| ==>
            'a' <= t[i] <= 'z' || '0' <= t[i] <= '9' || t[i] == '_' || t[i] == '-' || t[i] == '.')
      && (forall i :: 0 <= i < |t| - 1 ==> t[i] != '.' || t[i + 1] != '.')
  {
    if forall i :: 0 <= i < |t| ==> LegalChar(t[i]) || t[i] == '.' {
      Utf8Digits(t);
    }
    LaterIsDotted(t);
    FirstSegment(t);
    AllLegalIs(Split(t));
  }

  // ---------- The registry ----------

  datatype Store = Store(
    id: Id, typePrefixes: seq<string>, ordered: bool, rate: real, burst: int, maxInFlight: int, enabled: bool)
  {
    /** A prefix of the store matches. */
    predicate Takes(t: string) {
      exists i :: 0 <= i < |typePrefixes| && MatchPrefix(t, typePrefixes[i])
    }

    predicate Matches(t: string) {
      enabled && Takes(t)
    }
  }

  /** The limits and prefixes every created store has. */
  predicate Normalized(d: Store) {
    d.rate > 0.0 && d.burst >= 1 && 1 <= d.maxInFlight <= 16 && CleanPrefixes(d.typePrefixes)
  }

  /** The blank prefix alone, or trimmed prefixes that are not blank. */
  predicate CleanPrefixes(ps: seq<string>) {
    ps == [""] || (|ps| >= 1 && forall i :: 0 <= i < |ps| ==> ps[i] != "" && Trim(ps[i]) == ps[i] && PrefixOk(ps[i]))
  }

  /** What a store is created from. Whether the URL is acceptable is an arbitrary verdict. */
  datatype CreateInput = CreateInput(
    name: string, urlOk: bool, secret: string, typePrefixes: seq<string>,
    ordered: bool, rate: real, burst: int, maxInFlight: int, enabled: Option<bool>)

  datatype CreateError = NameMissing | NameTooLong | BadUrl | SecretMissing | SecretTooShort | BadPrefix

  /** A prefix may end in a dot whatever comes before it; any other must be a valid type. */
  predicate PrefixOk(p: string) {
    p == "" || HasSuffixDot(p) || ValidType(Trim(p))
  }

  function Trims(ps: seq<string>): (r: seq<string>)
    ensures |r| == |ps| && forall i :: 0 <= i < |r| ==> r[i] == Trim(ps[i])
  {
    seq(|ps|, i requires 0 <= i < |ps| => Trim(ps[i]))
  }

  function NonEmpty(ps: seq<string>): (r: seq<string>)
    ensures forall p :: p in r <==> p in ps && p != ""
  {
    if ps == [] then []
    else if ps[|ps| - 1] == "" then NonEmpty(ps[..|ps| - 1])
    else NonEmpty(ps[..|ps| - 1]) + [ps[|ps| - 1]]
  }

  predicate PrefixesOk(ps: seq<string>) {
    forall i :: 0 <= i < |ps| ==> PrefixOk(Trim(ps[i]))
  }

  /** The loop over the prefixes; None when one of them is refused. */
  method Clean(ps: seq<string>) returns (cleaned: Option<seq<string>>)
    ensures cleaned == if PrefixesOk(ps) then Some(NonEmpty(Trims(ps))) else None
  {
    hide Trim, ValidType, NonEmpty;
    var out: seq<string> := [];
    CleanedNone();
    assert ps[..0] == [];
    for i := 0 to |ps|
      invariant PrefixesOk(ps[..i]) && out == NonEmpty(Trims(ps[..i]))
    {
      CleanedNext(ps, i);
      var p := Trim(ps[i]);
      if p == "" {
        continue;
      }
      var ok := ValidateType(TrimSuffixDot(p));
      if !ok && !HasSuffixDot(p) {
        return None;
      }
      out := out + [p];
    }
    assert ps[..|ps|] == ps;
    return Some(out);
  }

  lemma CleanedNone()
    ensures NonEmpty(Trims([])) == []
  {
  }

  lemma CleanedNext(ps: seq<string>, i: nat)
    requires i < |ps|
    ensures var p := Trim(ps[i]);
      NonEmpty(Trims(ps[..i + 1])) == NonEmpty(Trims(ps[..i])) + if p == "" then [] else [p]
    ensures PrefixesOk(ps[..i + 1]) <==> PrefixesOk(ps[..i]) && PrefixOk(Trim(ps[i]))
    ensures PrefixesOk(ps) ==> PrefixOk(Trim(ps[i]))
  {
    hide Trim, ValidType;
    var now, before := ps[..i + 1], ps[..i];
    assert Trims(now)[..i] == Trims(before);
    assert forall k :: 0 <= k < i ==> now[k] == before[k];
  }

  /** strings.TrimSuffix(p, "."). */
  function TrimSuffixDot(p: string): string {
    if HasSuffixDot(p) then p[..|p| - 1] else p
  }

  /** Why normalize refuses the input, if it does. */
  function Refusal(c: CreateInput): Option<CreateError> {
    if Trim(c.name) == "" then Some(NameMissing)
    else if Utf8Len(Trim(c.name)) > 80 then Some(NameTooLong)
    else if !c.urlOk then Some(BadUrl)
    else if Trim(c.secret) == "" then Some(SecretMissing)
    else if Utf8Len(c.secret) < 8 then Some(SecretTooShort)
    else if !PrefixesOk(c.typePrefixes) then Some(BadPrefix)
    else None
  }

  /** The store created from an accepted input. */
  function StoreOf(id: Id, c: CreateInput): (r: Store)
    ensures r.rate > 0.0 && r.burst >= 1 && 1 <= r.maxInFlight <= 16 && |r.typePrefixes| >= 1
    ensures PrefixesOk(c.typePrefixes) ==> Normalized(r)
    ensures r.id == id && r.ordered == c.ordered
  {
    var ps := NonEmpty(Trims(c.typePrefixes));
    CleanedIsClean(c.typePrefixes);
    Store(id, if ps == [] then [""] else ps, c.ordered,
          if c.rate <= 0.0 then 5.0 else c.rate,
          if c.burst < 1 then 5 else c.burst,
          if c.maxInFlight < 1 then 2 else Min(c.maxInFlight, 16),
          if c.enabled.Some? then c.enabled.value else true)
  }

  lemma CleanedIsClean(ps: seq<string>)
    ensures PrefixesOk(ps) && NonEmpty(Trims(ps)) != [] ==> CleanPrefixes(NonEmpty(Trims(ps)))
  {
    hide Trim, ValidType;
    var cs := NonEmpty(Trims(ps));
    forall i | 0 <= i < |cs| && PrefixesOk(ps)
      ensures cs[i] != "" && Trim(cs[i]) == cs[i] && PrefixOk(cs[i])
    {
      assert cs[i] in cs;
      FromInput(ps, cs[i]);
      var p :| p in ps && Trim(p) == cs[i];
      TrimTwice(p);
    }
  }

  lemma CreatedIsNormal(id: Id, c: CreateInput)
    requires Refusal(c).None?
    ensures Normalized(StoreOf(id, c))
  {
  }

  /** The stores Create can register are the normalized ones. */
  lemma CreatedIff(d: Store)
    ensures Normalized(d) <==> exists c: CreateInput :: Refusal(c).None? && StoreOf(d.id, c) == d
  {
    hide Trim, ValidType;
    if Normalized(d) {
      var c := CreateInput("store", true, "12345678", d.typePrefixes, d.ordered, d.rate, d.burst, d.maxInFlight,
                           Some(d.enabled));
      FairName();
      PrefixesKept(d.typePrefixes);
      assert Refusal(c).None? && StoreOf(d.id, c) == d;
    }
  }

  lemma FairName()
    ensures Trim("store") == "store" && Trim("12345678") == "12345678"
    ensures Utf8Len("store") == 5 && Utf8Len("12345678") == 8
  {
    Utf8Digits("store");
    Utf8Digits("12345678");
  }

  lemma {:induction false} Utf8Digits(s: string)
    requires forall i :: 0 <= i < |s| ==> s[i] < '\U{80}'
    ensures Utf8Len(s) == |s|
  {
    if s != "" {
      Utf8Digits(s[..|s| - 1]);
    }
  }

  lemma PrefixesKept(ps: seq<string>)
    requires CleanPrefixes(ps)
    ensures PrefixesOk(ps) && NonEmpty(Trims(ps)) == if ps == [""] then [] else ps
  {
    hide Trim, ValidType;
    if ps == [""] {
      TrimNothing("");
      assert Trims(ps) == [""] && [""][..0] == [];
    } else {
      assert Trims(ps) == ps;
      NonEmptyAll(ps);
    }
  }

  /** A created store takes what its nonblank prefixes match, and everything when it has none. */
  lemma CreatedMatches(id: Id, c: CreateInput, t: string)
    ensures StoreOf(id, c).Matches(t) <==>
      && StoreOf(id, c).enabled
      && ((forall p :: p in c.typePrefixes ==> Trim(p) == "")
          || exists p :: p in c.typePrefixes && Trim(p) != "" && MatchPrefix(t, Trim(p)))
  {
    var ts := Trims(c.typePrefixes);
    var ps, r := NonEmpty(ts), StoreOf(id, c);
    forall p | p in c.typePrefixes
      ensures Trim(p) in ts
    {
      var i :| 0 <= i < |c.typePrefixes| && c.typePrefixes[i] == p;
      assert ts[i] == Trim(p);
    }
    if ps == [] {
      assert r.typePrefixes[0] == "" && MatchPrefix(t, r.typePrefixes[0]);
      forall p | p in c.typePrefixes
        ensures Trim(p) == ""
      {
        assert Trim(p) != "" ==> Trim(p) in ps;
      }
    } else {
      assert r.typePrefixes == ps && ps[0] in ps;
      if p :| p in c.typePrefixes && Trim(p) != "" && MatchPrefix(t, Trim(p)) {
        assert Trim(p) in ps;
      }
      FromInput(c.typePrefixes, ps[0]);
      if i :| 0 <= i < |ps| && MatchPrefix(t, ps[i]) {
        assert ps[i] in ps;
        FromInput(c.typePrefixes, ps[i]);
      }
    }
  }

  lemma FromInput(ps: seq<string>, q: string)
    requires q in NonEmpty(Trims(ps))
    ensures q != "" && exists p :: p in ps && Trim(p) == q
  {
    var i :| 0 <= i < |Trims(ps)| && Trims(ps)[i] == q;
    assert ps[i] in ps && Trim(ps[i]) == q;
  }

  predicate AllTrimmed(ps: seq<string>) {
    forall i :: 0 <= i < |ps| ==> ps[i] != "" && Trim(ps[i]) == ps[i]
  }

  /** What is in range is kept as given. */
  lemma CreatedKeepsGood(id: Id, c: CreateInput)
    ensures var r := StoreOf(id, c);
      && (c.rate > 0.0 ==> r.rate == c.rate) && (c.burst >= 1 ==> r.burst == c.burst)
      && (1 <= c.maxInFlight <= 16 ==> r.maxInFlight == c.maxInFlight)
      && (c.enabled.Some? ==> r.enabled == c.enabled.value)
      && (c.typePrefixes != [] && AllTrimmed(c.typePrefixes) ==> r.typePrefixes == c.typePrefixes)
  {
    var ps := c.typePrefixes;
    if ps != [] && AllTrimmed(ps) {
      assert Trims(ps) == ps;
      NonEmptyAll(ps);
    }
  }

  lemma {:induction false} NonEmptyAll(ps: seq<string>)
    requires forall i :: 0 <= i < |ps| ==> ps[i] != ""
    ensures NonEmpty(ps) == ps
  {
    if ps != [] {
      NonEmptyAll(ps[..|ps| - 1]);
    }
  }

  // ---------- Which stores can be given a relay at all ----------

  /** Some type that is accepted at ingest, trimmed or not, has a prefix of the store. */
  ghost predicate TakesSome(d: Store) {
    exists t :: ValidType(Trim(t)) && d.Takes(t)
  }

  /** Decides it from the prefixes alone: one is blank or without a trailing dot, or something valid
      comes after its dot. */
  predicate HasLivePrefix(d: Store) {
    exists i :: 0 <= i < |d.typePrefixes| && LivePrefix(d.typePrefixes[i])
  }

  predicate LivePrefix(p: string) {
    !HasSuffixDot(p) || ValidType(p + "a")
  }

  lemma TakesSomeIff(d: Store)
    requires Normalized(d)
    ensures TakesSome(d) <==> HasLivePrefix(d)
  {
    hide Trim, ValidType, MatchPrefix, LivePrefix;
    if t :| ValidType(Trim(t)) && d.Takes(t) {
      var i :| 0 <= i < |d.typePrefixes| && MatchPrefix(t, d.typePrefixes[i]);
      TrimNothing("");
      LiveIfMatched(t, d.typePrefixes[i]);
    }
    if i :| 0 <= i < |d.typePrefixes| && LivePrefix(d.typePrefixes[i]) {
      TrimNothing("");
      var t := TypeFor(d.typePrefixes[i]);
      assert d.Takes(t);
    }
  }

  lemma TypeFor(p: string) returns (t: string)
    requires LivePrefix(p) && Trim(p) == p && PrefixOk(p)
    ensures ValidType(Trim(t)) && MatchPrefix(t, p)
  {
    hide Trim, ValidType;
    if p == "" {
      t := "a";
      LetterIsValid();
    } else if HasSuffixDot(p) {
      t := p + "a";
      ValidIsTrimmed(t);
    } else {
      t := p;
    }
  }

  lemma LetterIsValid()
    ensures ValidType(Trim("a"))
  {
    TrimNothing("a");
    Utf8Digits("a");
    ValidTypeIs("a");
  }

  lemma ValidIsTrimmed(t: string)
    requires ValidType(t)
    ensures Trim(t) == t
  {
    ValidTypeIs(t);
    TrimNothing(t);
  }

  lemma LiveIfMatched(t: string, p: string)
    requires ValidType(Trim(t)) && MatchPrefix(t, p) && Trim(p) == p
    ensures LivePrefix(p)
  {
    hide ValidType, Trim;
    if HasSuffixDot(p) {
      var v := Trim(t);
      LongerThan(t, p);
      assert p + "a" == p + ['a'];
      ShorterIsValid(p, v);
    }
  }

  /** What is left of a type with this prefix, once trimmed, goes on after the dot. */
  lemma LongerThan(t: string, p: string)
    requires HasSuffixDot(p) && p <= t && Trim(p) == p && ValidType(Trim(t))
    ensures p < Trim(t)
  {
    hide Utf8Len;
    ValidTypeIs(Trim(t));
    var v, n := Trim(t), |p| - 1;
    assert p[0] == TrimLeft(p)[0] && t[0] == p[0];
    assert v == TrimRight(t) && v <= t;
    assert t[n] == '.' && !IsSpace(t[n]);
    assert |v| > n && v[n] == '.';
  }

  lemma ShorterIsValid(p: string, v: string)
    requires HasSuffixDot(p) && p < v && ValidType(v)
    ensures ValidType(p + ['a'])
  {
    hide Utf8Len;
    ValidTypeIs(v);
    ValidTypeIs(p + ['a']);
    Utf8Grows(p, v);
    Utf8Snoc(p);
    var s := p + ['a'];
    forall i | 0 <= i < |p|
      ensures s[i] == v[i]
    {
    }
    assert DottedLower(s);
  }

  lemma Utf8Snoc(p: string)
    ensures Utf8Len(p + ['a']) == Utf8Len(p) + 1
  {
    assert (p + ['a'])[..|p|] == p;
  }

  lemma {:induction false} Utf8Grows(p: string, v: string)
    requires p < v
    ensures Utf8Len(p) + 1 <= Utf8Len(v)
    decreases |v|
  {
    var u := v[..|v| - 1];
    if |p| < |u| {
      Utf8Grows(p, u);
    } else {
      assert p == u;
    }
  }

  /** A prefix is refused that is neither blank nor ends in a dot nor is a valid type. */
  lemma PrefixTests(ps: seq<string>)
    ensures !PrefixesOk(ps) <==> exists p :: p in ps && Trim(p) != "" && !HasSuffixDot(Trim(p)) && !ValidType(Trim(p))
  {
    hide Trim, ValidType;
    forall p
      ensures PrefixOk(Trim(p)) <==> Trim(p) == "" || HasSuffixDot(Trim(p)) || ValidType(Trim(p))
    {
      TrimTwice(p);
    }
    if i :| 0 <= i < |ps| && !PrefixOk(Trim(ps[i])) {
      assert ps[i] in ps;
    }
  }

  /** The prefixes that are left are the nonblank ones, trimmed. */
  lemma CleanedAre(ps: seq<string>)
    ensures forall p :: p in NonEmpty(Trims(ps)) <==> p != "" && exists q :: q in ps && Trim(q) == p
    ensures NonEmpty(Trims(ps)) == [] <==> forall q :: q in ps ==> Trim(q) == ""
  {
    hide Trim;
    forall p | p in NonEmpty(Trims(ps))
      ensures exists q :: q in ps && Trim(q) == p
    {
      FromInput(ps, p);
    }
    forall q | q in ps && Trim(q) != ""
      ensures Trim(q) in NonEmpty(Trims(ps))
    {
      var i :| 0 <= i < |ps| && ps[i] == q;
      assert Trims(ps)[i] == Trim(q);
    }
    if NonEmpty(Trims(ps)) != [] {
      assert NonEmpty(Trims(ps))[0] in NonEmpty(Trims(ps));
    }
  }

  datatype CreateResult = Created(store: Store) | Rejected(error: CreateError)

  class Registry {
    var items: map<Id, Store>

    ghost predicate Valid()
      reads this
    {
      forall id :: id in items ==> items[id].id == id && Normalized(items[id])
    }

    constructor ()
      ensures Valid() && items == map[]
    {
      items := map[];
    }

    /** `id` is the freshly generated store id. */
    method Create(id: Id, c: CreateInput) returns (r: CreateResult)
      requires Valid()
      modifies this
      ensures Valid()
      ensures Refusal(c).Some? ==> r == Rejected(Refusal(c).value) && items == old(items)
      ensures Refusal(c).None? ==> r == Created(StoreOf(id, c)) && items == old(items)[id := StoreOf(id, c)]
      // Every test in its turn.
      ensures r == Rejected(NameMissing) <==> Trim(c.name) == ""
      ensures r == Rejected(NameTooLong) <==> Trim(c.name) != "" && Utf8Len(Trim(c.name)) > 80
      ensures r == Rejected(BadUrl) <==> Trim(c.name) != "" && Utf8Len(Trim(c.name)) <= 80 && !c.urlOk
      ensures r == Rejected(SecretMissing) <==>
        Trim(c.name) != "" && Utf8Len(Trim(c.name)) <= 80 && c.urlOk && Trim(c.secret) == ""
      ensures r == Rejected(SecretTooShort) <==>
        && Trim(c.name) != "" && Utf8Len(Trim(c.name)) <= 80 && c.urlOk
        && Trim(c.secret) != "" && Utf8Len(c.secret) < 8
      ensures r == Rejected(BadPrefix) <==>
        && Trim(c.name) != "" && Utf8Len(Trim(c.name)) <= 80 && c.urlOk
        && Trim(c.secret) != "" && Utf8Len(c.secret) >= 8
        && exists p :: p in c.typePrefixes && Trim(p) != "" && !HasSuffixDot(Trim(p)) && !ValidType(Trim(p))
      // What is registered, field by field, the defaults included.
      ensures r.Created? ==> items == old(items)[id := r.store] && r.store.id == id && r.store.ordered == c.ordered
      ensures r.Created? ==> r.store.rate == if c.rate <= 0.0 then 5.0 else c.rate
      ensures r.Created? ==> r.store.burst == if c.burst < 1 then 5 else c.burst
      ensures r.Created? ==>
        r.store.maxInFlight == if c.maxInFlight < 1 then 2 else if c.maxInFlight > 16 then 16 else c.maxInFlight
      ensures r.Created? ==> (r.store.enabled <==> c.enabled == None || c.enabled == Some(true))
      ensures r.Created? ==> forall p :: p in r.store.typePrefixes <==>
        if forall q :: q in c.typePrefixes ==> Trim(q) == "" then p == ""
        else p != "" && exists q :: q in c.typePrefixes && Trim(q) == p
    {
      PrefixTests(c.typePrefixes);
      CleanedAre(c.typePrefixes);
      var name := Trim(c.name);
      if name == "" {
        return Rejected(NameMissing);
      }
      if Utf8Len(name) > 80 {
        return Rejected(NameTooLong);
      }
      if !c.urlOk {
        return Rejected(BadUrl);
      }
      if Trim(c.secret) == "" {
        return Rejected(SecretMissing);
      }
      if Utf8Len(c.secret) < 8 {
        return Rejected(SecretTooShort);
      }
      var cleaned := Clean(c.typePrefixes);
      if cleaned.None? {
        return Rejected(BadPrefix);
      }
      var d := Limited(id, c, cleaned.value);
      items := items[id := d];
      r := Created(d);
    }

    /** The end of normalize: the defaults, one after the other. */
    method Limited(id: Id, c: CreateInput, cleaned: seq<string>) returns (d: Store)
      requires cleaned == NonEmpty(Trims(c.typePrefixes))
      ensures d == StoreOf(id, c)
    {
      d := Store(id, cleaned, c.ordered, c.rate, c.burst, c.maxInFlight, true);
      if |cleaned| == 0 {
        d := d.(typePrefixes := [""]);
      }
      if d.rate <= 0.0 {
        d := d.(rate := 5.0);
      }
      if d.burst < 1 {
        d := d.(burst := 5);
      }
      if d.maxInFlight < 1 {
        d := d.(maxInFlight := 2);
      }
      if d.maxInFlight > 16 {
        d := d.(maxInFlight := 16);
      }
      if c.enabled.Some? {
        d := d.(enabled := c.enabled.value);
      }
    }

    method SetEnabled(id: Id, enabled: bool) returns (r: Option<Store>)
      requires Valid()
      modifies this
      ensures Valid()
      ensures id !in old(items) ==> r == None && items == old(items)
      ensures id in old(items) ==> r == Some(old(items)[id].(enabled := enabled)) && items == old(items)[id := r.value]
    {
      if id !in items {
        return None;
      }
      var d := items[id].(enabled := enabled);
      items := items[id := d];
      r := Some(d);
    }

    /** The stores a type goes to, in whatever order the map yields them. */
    method Matching(t: string) returns (out: seq<Store>)
      requires Valid()
      ensures EachOnce(out, items, items.Keys, t)
    {
      out := [];
      var todo := items.Keys;
      while todo != {}
        invariant todo <= items.Keys
        invariant EachOnce(out, items, items.Keys - todo, t)
        decreases todo
      {
        var id :| id in todo;
        todo := todo - {id};
        var d := items[id];
        if d.Matches(t) {
          out := out + [d];
        }
      }
      assert items.Keys - {} == items.Keys;
    }
  }

  /** out lists every store of ids that matches t, and lists it once. */
  ghost predicate EachOnce(out: seq<Store>, items: map<Id, Store>, ids: set<Id>, t: string) {
    && (forall i :: 0 <= i < |out| ==>
          out[i].id in ids && out[i].id in items && items[out[i].id] == out[i] && out[i].Matches(t))
    && (forall i, j :: 0 <= i < j < |out| ==> out[i].id != out[j].id)
    && (forall id :: id in ids && id in items && items[id].Matches(t) ==> items[id] in out)
  }

  // ---------- The plan ----------

  datatype PlanItem = PlanItem(storeId: Id, relayId: Id)

  /** One item for every store that matches, in order; relayIds(k) is the k-th id the generator hands out. */
  function Planned(t: string, stores: seq<Store>, relayIds: nat -> Id): (plan: seq<PlanItem>)
    ensures |plan| <= |stores|
  {
    if stores == [] then []
    else
      var before, d := Planned(t, stores[..|stores| - 1], relayIds), stores[|stores| - 1];
      if d.Matches(t) then before + [PlanItem(d.id, relayIds(|before|))] else before
  }

  /** fanout.PlanStores. */
  method PlanStores(t: string, stores: seq<Store>, relayIds: nat -> Id) returns (plan: seq<PlanItem>, droppedOff: nat)
    ensures plan == Planned(t, stores, relayIds) && droppedOff == |stores| - |plan|
  {
    plan, droppedOff := [], 0;
    for k := 0 to |stores|
      invariant plan == Planned(t, stores[..k], relayIds) && droppedOff == k - |plan|
    {
      assert stores[..k + 1][..k] == stores[..k];
      if !stores[k].Matches(t) {
        droppedOff := droppedOff + 1;
        continue;
      }
      plan := plan + [PlanItem(stores[k].id, relayIds(|plan|))];
    }
    assert stores[..|stores|] == stores;
  }

  /** The plan names exactly the stores given that match, in order, each with its own id of the generator. */
  lemma {:induction false} PlannedMatch(t: string, stores: seq<Store>, relayIds: nat -> Id)
    ensures var plan := Planned(t, stores, relayIds);
      && (forall k :: 0 <= k < |plan| ==> plan[k].relayId == relayIds(k) && Has(stores, t, plan[k].storeId))
      && (forall i :: 0 <= i < |stores| && stores[i].Matches(t) ==>
            exists k :: 0 <= k < |plan| && plan[k].storeId == stores[i].id)
  {
    hide Store.Matches;
    if stores != [] {
      var n := |stores| - 1;
      var before, plan := Planned(t, stores[..n], relayIds), Planned(t, stores, relayIds);
      PlannedMatch(t, stores[..n], relayIds);
      forall k | 0 <= k < |plan|
        ensures plan[k].relayId == relayIds(k) && Has(stores, t, plan[k].storeId)
      {
        if k < |before| {
          var i :| 0 <= i < n && stores[..n][i].id == plan[k].storeId && stores[..n][i].Matches(t);
          assert stores[i].id == plan[k].storeId;
        }
      }
      forall i | 0 <= i < |stores| && stores[i].Matches(t)
        ensures exists k :: 0 <= k < |plan| && plan[k].storeId == stores[i].id
      {
        if i < n {
          assert stores[..n][i] == stores[i];
          var k :| 0 <= k < |before| && before[k].storeId == stores[i].id;
          assert plan[k] == before[k];
        } else {
          assert plan[|before|].storeId == stores[i].id;
        }
      }
    }
  }

  ghost predicate Has(stores: seq<Store>, t: string, id: Id) {
    exists i :: 0 <= i < |stores| && stores[i].id == id && stores[i].Matches(t)
  }

  /** When every store matches, none is dropped. */
  lemma {:induction false} PlannedAll(t: string, stores: seq<Store>, relayIds: nat -> Id)
    requires forall i :: 0 <= i < |stores| ==> stores[i].Matches(t)
    ensures |Planned(t, stores, relayIds)| == |stores|
    ensures forall i :: 0 <= i < |stores| ==> Planned(t, stores, relayIds)[i] == PlanItem(stores[i].id, relayIds(i))
  {
    hide Store.Matches;
    if stores != [] {
      var n := |stores| - 1;
      assert stores[n].Matches(t);
      PlannedAll(t, stores[..n], relayIds);
    }
  }
}
