/** The JavaScript primitives the components rely on: truthiness, object
    spread, `trim`, `toLowerCase`, `includes`, `split`, `join`, `parseInt`,
    `parseFloat`, `Array.prototype.filter` and the decimal form of an
    integer. */
module JsText {

  datatype Option<T> = None | Some(value: T)

  /** JavaScript truthiness of an optional string: absent and "" are falsy. */
  predicate Truthy(o: Option<string>)
  {
    o.Some? && o.value != ""
  }

  /** `a || b` on optional strings. */
  function OrElse(a: Option<string>, b: string): (r: string)
    ensures Truthy(a) ==> r == a.value
    ensures !Truthy(a) ==> r == b
  {
    if Truthy(a) then a.value else b
  }

  /** The object literal `{...obj, k: v}`: a copy of obj with k set to v,
      whatever obj held under k before. */
  function SpreadWith<V>(obj: map<string, V>, k: string, v: V): (r: map<string, V>)
    ensures r.Keys == obj.Keys + {k}
    ensures r[k] == v
    ensures forall j :: j in obj && j != k ==> r[j] == obj[j]
  {
    obj[k := v]
  }

  // ---------------------------------------------------------------------------
  // Arrays

  /** `xs.map(f)`: f applied to each element, in order. */
  function Map<A, B>(xs: seq<A>, f: A -> B): (r: seq<B>)
    ensures |r| == |xs|
    ensures forall k :: 0 <= k < |xs| ==> r[k] == f(xs[k])
  {
    if xs == [] then [] else [f(xs[0])] + Map(xs[1..], f)
  }

  /** `xs.filter(p)`: the elements of xs that satisfy p, in their input order. */
  function Filter<T>(xs: seq<T>, p: T -> bool): (r: seq<T>)
    ensures |r| <= |xs|
    ensures forall k :: 0 <= k < |r| ==> p(r[k])
  {
    if xs == [] then []
    else if p(xs[0]) then [xs[0]] + Filter(xs[1..], p)
    else Filter(xs[1..], p)
  }

  /** Each element is kept as many times as it occurs in xs when it passes the
      filter, and dropped otherwise. */
  lemma {:induction false} FilterCount<T>(xs: seq<T>, p: T -> bool, c: T)
    ensures multiset(Filter(xs, p))[c] == if p(c) then multiset(xs)[c] else 0
  {
    if xs != [] {
      FilterCount(xs[1..], p, c);
      assert xs == [xs[0]] + xs[1..];
    }
  }

  /** An element survives the filter exactly when it was there and passes. */
  lemma FilterMember<T>(xs: seq<T>, p: T -> bool, c: T)
    ensures c in Filter(xs, p) <==> c in xs && p(c)
  {
    FilterCount(xs, p, c);
  }

  /** Filtering a concatenation filters each part and keeps them in order:
      filtering never reorders what it keeps. */
  lemma {:induction false} FilterAppend<T>(xs: seq<T>, ys: seq<T>, p: T -> bool)
    ensures Filter(xs + ys, p) == Filter(xs, p) + Filter(ys, p)
  {
    if xs == [] {
      assert xs + ys == ys;
    } else {
      assert (xs + ys)[0] == xs[0];
      assert (xs + ys)[1..] == xs[1..] + ys;
      FilterAppend(xs[1..], ys, p);
    }
  }

  /** Filters that agree on every element keep the same elements. */
  lemma {:induction false} FilterSame<T>(xs: seq<T>, p: T -> bool, q: T -> bool)
    requires forall c :: p(c) == q(c)
    ensures Filter(xs, p) == Filter(xs, q)
  {
    if xs != [] {
      FilterSame(xs[1..], p, q);
    }
  }

  /** A filter that passes every element keeps the list as it is. */
  lemma {:induction false} FilterAll<T>(xs: seq<T>, p: T -> bool)
    requires forall k :: 0 <= k < |xs| ==> p(xs[k])
    ensures Filter(xs, p) == xs
  {
    if xs != [] {
      FilterAll(xs[1..], p);
      assert xs == [xs[0]] + xs[1..];
    }
  }

  // ---------------------------------------------------------------------------
  // Whitespace and trim

  /** The characters JavaScript's WhiteSpace and LineTerminator productions
      name: what `trim` removes and what `\s` in a regular expression matches. */
  predicate IsSpace(c: char)
  {
    || c == ' ' || c == '\t' || c == '\n' || c == '\r'
    || c == '\U{000B}' || c == '\U{000C}' || c == '\U{00A0}' || c == '\U{1680}'
    || ('\U{2000}' <= c <= '\U{200A}')
    || c == '\U{2028}' || c == '\U{2029}' || c == '\U{202F}' || c == '\U{205F}'
    || c == '\U{3000}' || c == '\U{FEFF}'
  }

  predicate AllSpace(s: string)
  {
    forall k :: 0 <= k < |s| ==> IsSpace(s[k])
  }

  /** A string with no whitespace at either end. */
  predicate IsTrimmed(s: string)
  {
    s == [] || (!IsSpace(s[0]) && !IsSpace(s[|s| - 1]))
  }

  /** `trimStart`: the longest suffix that does not begin with whitespace. */
  function TrimStart(s: string): (r: string)
    ensures |r| <= |s| && r == s[|s| - |r|..]
    ensures forall k :: 0 <= k < |s| - |r| ==> IsSpace(s[k])
    ensures r == [] || !IsSpace(r[0])
  {
    if s != [] && IsSpace(s[0]) then TrimStart(s[1..]) else s
  }

  /** `trimEnd`: the longest prefix that does not end with whitespace. */
  function TrimEnd(s: string): (r: string)
    ensures |r| <= |s| && r == s[..|r|]
    ensures forall k :: |r| <= k < |s| ==> IsSpace(s[k])
    ensures r == [] || !IsSpace(r[|r| - 1])
  {
    if s != [] && IsSpace(s[|s| - 1]) then TrimEnd(s[..|s| - 1]) else s
  }

  /** `trim`: `trimStart` then `trimEnd`; the result has no whitespace at
      either end and is no longer than the input. */
  function Trim(s: string): (r: string)
    ensures IsTrimmed(r) && |r| <= |s|
  {
    TrimEnd(TrimStart(s))
  }

  /** `r` is the part of `s` starting at `i`, and everything of `s` before
      and after it is whitespace. */
  predicate InnerSliceAt(s: string, r: string, i: int)
  {
    && 0 <= i <= |s| - |r| && r == s[i..i + |r|]
    && (forall k :: 0 <= k < i ==> IsSpace(s[k]))
    && (forall k :: i + |r| <= k < |s| ==> IsSpace(s[k]))
  }

  /** What `trim` removes is exactly whitespace: the result is the slice of
      the input between a run of leading and a run of trailing whitespace. */
  lemma TrimIsInnerSlice(s: string)
    ensures exists i :: InnerSliceAt(s, Trim(s), i)
  {
    var m := TrimStart(s);
    var r := TrimEnd(m);
    assert r == Trim(s);
    var i := |s| - |m|;
    PrefixOfSuffix(s, i, |r|);
    forall k | i + |r| <= k < |s| ensures IsSpace(s[k]) {
      assert s[k] == s[i..][k - i];
    }
    assert InnerSliceAt(s, r, i);
  }

  /** A prefix of a suffix is a slice. */
  lemma PrefixOfSuffix<T>(s: seq<T>, i: nat, n: nat)
    requires i + n <= |s|
    ensures s[i..][..n] == s[i..i + n]
  {
  }

  /** A string is blank (`!s.trim()`) exactly when every character is whitespace. */
  lemma {:induction false} TrimEmptyIffAllSpace(s: string)
    ensures Trim(s) == [] <==> AllSpace(s)
  {
    var t := TrimStart(s);
    if AllSpace(s) {
      assert AllSpace(t);
    } else {
      var k :| 0 <= k < |s| && !IsSpace(s[k]);
      assert t[k - (|s| - |t|)] == s[k];
      assert !AllSpace(t);
    }
  }

  /** Trimming a string that is already trimmed changes nothing. */
  lemma TrimOfTrimmed(s: string)
    requires IsTrimmed(s)
    ensures Trim(s) == s
  {
    if s != [] {
      assert TrimStart(s) == s;
      assert TrimEnd(s) == s;
    }
  }

  /** A leading space does not survive `trim`. */
  lemma TrimDropsLeadingSpace(c: char, s: string)
    requires IsSpace(c)
    ensures Trim([c] + s) == Trim(s)
  {
    assert ([c] + s)[1..] == s;
  }

  // ---------------------------------------------------------------------------
  // Case and substring search

  /** Lower-casing of one character (the ASCII letters). */
  function LowerChar(c: char): (r: char)
    ensures 'A' <= c <= 'Z' ==> r as int == c as int + 32
    ensures !('A' <= c <= 'Z') ==> r == c
  {
    if 'A' <= c <= 'Z' then (c as int + 32) as char else c
  }

  /** `toLowerCase`: character by character, same length. */
  function ToLower(s: string): (r: string)
    ensures |r| == |s|
    ensures forall k :: 0 <= k < |s| ==> r[k] == LowerChar(s[k])
  {
    if s == [] then [] else [LowerChar(s[0])] + ToLower(s[1..])
  }

  predicate OccursAt(s: string, sub: string, i: int)
  {
    0 <= i && i + |sub| <= |s| && s[i..i + |sub|] == sub
  }

  /** `indexOf(sub, from)`: the first occurrence at or after `from`, or -1. */
  function IndexOfFrom(s: string, sub: string, from: nat): (r: int)
    requires from <= |s|
    ensures r == -1 ==> forall i :: from <= i ==> !OccursAt(s, sub, i)
    ensures r != -1 ==> from <= r && OccursAt(s, sub, r)
    ensures r != -1 ==> forall i :: from <= i < r ==> !OccursAt(s, sub, i)
    decreases |s| - from
  {
    if from + |sub| > |s| then -1
    else if s[from..from + |sub|] == sub then from
    else IndexOfFrom(s, sub, from + 1)
  }

  /** `s.includes(sub)`: sub occurs somewhere in s. */
  function Includes(s: string, sub: string): (r: bool)
    ensures r <==> exists i :: OccursAt(s, sub, i)
  {
    IndexOfFrom(s, sub, 0) != -1
  }

  /** Case-insensitive substring test, as written
      `a.toLowerCase().includes(b.toLowerCase())`. */
  predicate IncludesIgnoringCase(s: string, sub: string)
  {
    Includes(ToLower(s), ToLower(sub))
  }

  // ---------------------------------------------------------------------------
  // split and join

  /** `parts.join(sep)`. */
  function Join(parts: seq<string>, sep: string): string
  {
    if |parts| == 0 then ""
    else if |parts| == 1 then parts[0]
    else parts[0] + sep + Join(parts[1..], sep)
  }

  /** The first position of c in s. */
  function FirstIndex(s: string, c: char): (i: nat)
    requires c in s
    ensures i < |s| && s[i] == c
    ensures forall k :: 0 <= k < i ==> s[k] != c
  {
    if s[0] == c then 0
    else
      assert c in s[1..] by { assert s == [s[0]] + s[1..]; }
      FirstIndex(s[1..], c) + 1
  }

  /** `s.split(sep)` with a one-character separator: the pieces between
      separators, at least one, none containing the separator, and joining
      them back with the separator gives s. */
  function Split(s: string, sep: char): (r: seq<string>)
    ensures |r| >= 1
    ensures forall k :: 0 <= k < |r| ==> sep !in r[k]
    ensures Join(r, [sep]) == s
    decreases |s|
  {
    if sep !in s then [s]
    else
      var i := FirstIndex(s, sep);
      var rest := Split(s[i + 1..], sep);
      assert sep !in s[..i] by {
        assert forall k :: 0 <= k < i ==> s[..i][k] == s[k];
      }
      assert s == s[..i] + [sep] + s[i + 1..];
      [s[..i]] + rest
  }

  /** Splitting a join on a separator no piece contains gives the pieces back. */
  lemma {:induction false} SplitJoin(parts: seq<string>, sep: char)
    requires |parts| >= 1
    requires forall k :: 0 <= k < |parts| ==> sep !in parts[k]
    ensures Split(Join(parts, [sep]), sep) == parts
  {
    if |parts| > 1 {
      JoinSplitsAtFirst(parts, sep);
      SplitJoin(parts[1..], sep);
    }
  }

  /** The first separator of a join is the one after the first piece. */
  lemma JoinSplitsAtFirst(parts: seq<string>, sep: char)
    requires |parts| > 1 && sep !in parts[0]
    ensures var s := Join(parts, [sep]);
      && sep in s && FirstIndex(s, sep) == |parts[0]|
      && s[..|parts[0]|] == parts[0] && s[|parts[0]| + 1..] == Join(parts[1..], [sep])
  {
    var s := Join(parts, [sep]);
    var rest := Join(parts[1..], [sep]);
    assert s == parts[0] + [sep] + rest;
    assert s[|parts[0]|] == sep;
    var i := FirstIndex(s, sep);
    assert forall k :: 0 <= k < |parts[0]| ==> s[k] == parts[0][k];
    assert i == |parts[0]|;
  }

  /** `s.replace(c, '')` with a one-character pattern: only the first
      occurrence is removed. */
  function RemoveFirst(s: string, c: char): (r: string)
    ensures c !in s ==> r == s
    ensures c in s ==> r == s[..FirstIndex(s, c)] + s[FirstIndex(s, c) + 1..]
    ensures c in s ==> |r| == |s| - 1
  {
    if c in s then
      var i := FirstIndex(s, c);
      s[..i] + s[i + 1..]
    else s
  }

  // ---------------------------------------------------------------------------
  // Numbers

  predicate IsDigit(c: char)
  {
    '0' <= c <= '9'
  }

  predicate AllDigits(s: string)
  {
    forall k :: 0 <= k < |s| ==> IsDigit(s[k])
  }

  lemma AllDigitsAppend(a: string, b: string)
    requires AllDigits(a) && AllDigits(b)
    ensures AllDigits(a + b)
  {
    forall k | 0 <= k < |a + b| ensures IsDigit((a + b)[k]) {
      if k >= |a| { assert (a + b)[k] == b[k - |a|]; }
    }
  }

  function DigitChar(d: nat): (c: char)
    requires d < 10
    ensures IsDigit(c) && c as int - '0' as int == d
  {
    ('0' as int + d) as char
  }

  /** The value of a string of decimal digits. */
  function DigitsValue(s: string): nat
    requires AllDigits(s)
  {
    if s == [] then 0 else DigitsValue(s[..|s| - 1]) * 10 + (s[|s| - 1] as int - '0' as int)
  }

  /** The decimal form of a natural number: digits only, no leading zero. */
  function NatToString(n: nat): (r: string)
    ensures |r| >= 1 && AllDigits(r)
    ensures |r| > 1 ==> r[0] != '0'
    ensures DigitsValue(r) == n
  {
    if n < 10 then [DigitChar(n)]
    else
      var r := NatToString(n / 10) + [DigitChar(n % 10)];
      assert r[..|r| - 1] == NatToString(n / 10);
      r
  }

  /** `n.toString()` for an integer-valued number. */
  function IntToString(n: int): (r: string)
    ensures r != [] && (r[0] == '-' || IsDigit(r[0]))
    ensures n < 0 <==> r[0] == '-'
  {
    if n < 0 then "-" + NatToString(-n) else NatToString(n)
  }

  /** The longest prefix of s made of decimal digits. */
  function DigitPrefix(s: string): (r: string)
    ensures |r| <= |s| && r == s[..|r|] && AllDigits(r)
    ensures |r| == |s| || !IsDigit(s[|r|])
  {
    if s != [] && IsDigit(s[0]) then
      var r := [s[0]] + DigitPrefix(s[1..]);
      assert s == [s[0]] + s[1..];
      r
    else []
  }

  lemma DigitPrefixOfDigits(s: string)
    requires AllDigits(s)
    ensures DigitPrefix(s) == s
  {
  }

  /** A run of digits followed by anything that does not start with a digit
      has that run as its digit prefix. */
  lemma {:induction false} DigitPrefixOfDigitsThen(d: string, rest: string)
    requires AllDigits(d) && (rest == [] || !IsDigit(rest[0]))
    ensures DigitPrefix(d + rest) == d
  {
    if d != [] {
      assert (d + rest)[0] == d[0] && (d + rest)[1..] == d[1..] + rest;
      DigitPrefixOfDigitsThen(d[1..], rest);
    } else {
      assert d + rest == rest;
    }
  }

  /** The sign of a number literal after leading whitespace: the unsigned
      rest, and whether a '-' was read. */
  function Unsigned(t: string): (string, bool)
  {
    if t != [] && (t[0] == '-' || t[0] == '+') then (t[1..], t[0] == '-') else (t, false)
  }

  /** `parseInt(s)` in base ten: leading whitespace, an optional sign, the
      longest run of digits; `None` stands for NaN (no digit at all). */
  function ParseInt(s: string): (r: Option<int>)
  {
    var (u, neg) := Unsigned(TrimStart(s));
    var ds := DigitPrefix(u);
    if ds == [] then None
    else
      var v: int := DigitsValue(ds);
      Some(if neg then -v else v)
  }

  /** A string that starts with neither whitespace, a sign nor a digit
      reads as NaN. */
  lemma ParseIntWithoutDigit(s: string)
    requires s != [] && !IsSpace(s[0]) && s[0] != '-' && s[0] != '+' && !IsDigit(s[0])
    ensures ParseInt(s) == None
  {
    assert TrimStart(s) == s;
    assert Unsigned(s) == (s, false);
  }

  /** `parseInt` of a digit run followed by anything that does not start
      with a digit is the run's value: the rest is ignored. */
  lemma ParseIntOfDigitsThen(d: string, rest: string)
    requires d != [] && AllDigits(d) && (rest == [] || !IsDigit(rest[0]))
    ensures ParseInt(d + rest) == Some(DigitsValue(d) as int)
  {
    var s := d + rest;
    assert s[0] == d[0] && !IsSpace(s[0]);
    assert TrimStart(s) == s;
    assert Unsigned(s) == (s, false);
    DigitPrefixOfDigitsThen(d, rest);
  }

  /** Reading back the decimal form of any integer gives that integer. */
  lemma ParseIntOfIntToString(n: int)
    ensures ParseInt(IntToString(n)) == Some(n)
  {
    var s := IntToString(n);
    assert !IsSpace(s[0]);
    assert TrimStart(s) == s;
    var m: nat := if n < 0 then -n else n;
    var digits := NatToString(m);
    DigitPrefixOfDigits(digits);
    if n < 0 {
      assert s == "-" + digits;
      assert Unsigned(s) == (digits, true);
    } else {
      assert s == digits;
      assert Unsigned(s) == (digits, false);
    }
  }

  function Pow10(k: nat): (r: nat)
    ensures r >= 1
  {
    if k == 0 then 1 else 10 * Pow10(k - 1)
  }

  /** A decimal number as `parseFloat` reads it: its sign, its digits with
      the point removed, and how many of them came after the point. */
  datatype Decimal = Decimal(negative: bool, digits: nat, scale: nat)

  /** The number a decimal stands for. */
  function DecimalValue(d: Decimal): (r: real)
    ensures d.digits == 0 ==> r == 0.0
    ensures !d.negative && d.digits > 0 ==> r > 0.0
    ensures d.negative && d.digits > 0 ==> r < 0.0
  {
    var m := d.digits as real / Pow10(d.scale) as real;
    if d.negative then -m else m
  }

  /** The decimal literal `parseFloat` reads from s: leading whitespace, an
      optional sign, digits with an optional fraction after '.', at least
      one digit in all; `None` stands for NaN. */
  function ParseDecimal(s: string): (r: Option<Decimal>)
  {
    var (u, neg) := Unsigned(TrimStart(s));
    var ip := DigitPrefix(u);
    var rest := u[|ip|..];
    var fp := if rest != [] && rest[0] == '.' then DigitPrefix(rest[1..]) else [];
    if ip == [] && fp == [] then None
    else
      AllDigitsAppend(ip, fp);
      Some(Decimal(neg, DigitsValue(ip + fp), |fp|))
  }

  /** `parseFloat(s)`. */
  function ParseFloat(s: string): (r: Option<real>)
    ensures r.Some? <==> ParseDecimal(s).Some?
    ensures r.Some? ==> r.value == DecimalValue(ParseDecimal(s).value)
  {
    match ParseDecimal(s)
    case None => None
    case Some(d) => Some(DecimalValue(d))
  }

  /** `parseFloat` of a string that starts with no digit, sign or point is NaN,
      and one that starts with a digit is a number. */
  lemma ParseFloatLeadingChar(s: string)
    requires s != [] && !IsSpace(s[0])
    ensures IsDigit(s[0]) ==> ParseFloat(s).Some?
    ensures !IsDigit(s[0]) && s[0] != '-' && s[0] != '+' && s[0] != '.' ==> ParseFloat(s) == None
  {
    assert TrimStart(s) == s;
  }

  /** The decimal form of a natural number reads back as that number. */
  lemma ParseFloatOfNat(n: nat)
    ensures ParseFloat(NatToString(n)) == Some(n as real)
  {
    var s := NatToString(n);
    assert !IsSpace(s[0]);
    assert TrimStart(s) == s;
    assert Unsigned(s) == (s, false);
    DigitPrefixOfDigits(s);
    assert s[|s|..] == [];
    assert s + [] == s;
    assert ParseDecimal(s) == Some(Decimal(false, n, 0));
  }
}
