/** The string operations the advisor's input handling relies on: Python's
    `strip`, `lower`, `isdigit`, `endswith`, `in` (substring), `find` and
    `float()` on text, restricted to ASCII. */
module Text {
  import opened Wrappers

  /** The ASCII characters that Python's `str.isspace` accepts. */
  predicate IsSpace(c: char) {
    c == ' ' || ('\t' <= c <= '\r') || ('\U{1C}' <= c <= '\U{1F}')
  }

  predicate IsUpper(c: char) { 'A' <= c <= 'Z' }

  predicate IsDigit(c: char) { '0' <= c <= '9' }

  predicate AllDigits(s: string) {
    forall i :: 0 <= i < |s| ==> IsDigit(s[i])
  }

  /** No whitespace at either end. */
  predicate IsStripped(s: string) {
    s == [] || (!IsSpace(s[0]) && !IsSpace(s[|s| - 1]))
  }

  /** Python `lstrip()`: leading whitespace removed. */
  function TrimStart(s: string): string {
    if |s| > 0 && IsSpace(s[0]) then TrimStart(s[1..]) else s
  }

  /** Python `rstrip()`: trailing whitespace removed. */
  function TrimEnd(s: string): string {
    if |s| > 0 && IsSpace(s[|s| - 1]) then TrimEnd(s[..|s| - 1]) else s
  }

  /** Python `str.strip()`. */
  function Strip(s: string): string {
    TrimEnd(TrimStart(s))
  }

  function LowerChar(c: char): char {
    if IsUpper(c) then (c as int + 32) as char else c
  }

  /** Python `str.lower()` on ASCII letters: each character lower-cased in
      place. */
  function Lower(s: string): string {
    seq(|s|, i requires 0 <= i < |s| => LowerChar(s[i]))
  }

  /** `text.strip().lower()`, the form every user answer is compared in. */
  function Canon(s: string): string {
    Lower(Strip(s))
  }

  /** `TrimStart` keeps a suffix, cuts off only whitespace, and the suffix it
      keeps does not start with whitespace. */
  lemma {:induction false} TrimStartShape(s: string)
    ensures var r := TrimStart(s);
      |r| <= |s| && r == s[|s| - |r|..] && (r == [] || !IsSpace(r[0])) &&
      forall i :: 0 <= i < |s| - |r| ==> IsSpace(s[i])
  {
    if |s| > 0 && IsSpace(s[0]) {
      TrimStartShape(s[1..]);
    }
  }

  /** `TrimEnd` keeps a prefix, cuts off only whitespace, and the prefix it
      keeps does not end with whitespace. */
  lemma {:induction false} TrimEndShape(s: string)
    ensures var r := TrimEnd(s);
      |r| <= |s| && r == s[..|r|] && (r == [] || !IsSpace(r[|r| - 1])) &&
      forall i :: |r| <= i < |s| ==> IsSpace(s[i])
    decreases |s|
  {
    if |s| > 0 && IsSpace(s[|s| - 1]) {
      TrimEndShape(s[..|s| - 1]);
    }
  }

  /** The result of `Strip` has no whitespace at either end. */
  lemma StripIsStripped(s: string)
    ensures IsStripped(Strip(s)) && |Strip(s)| <= |s|
  {
    TrimStartShape(s);
    var t := TrimStart(s);
    TrimEndShape(t);
    var r := TrimEnd(t);
    if r != [] {
      assert r[0] == t[0];
    }
  }



  /** Already in canonical form: stripped and free of upper-case letters. */
  predicate IsCanonical(s: string) {
    IsStripped(s) && forall i :: 0 <= i < |s| ==> !IsUpper(s[i])
  }

  lemma TrimStartOfStripped(s: string)
    requires s == [] || !IsSpace(s[0])
    ensures TrimStart(s) == s
  {
  }

  lemma TrimEndOfStripped(s: string)
    requires s == [] || !IsSpace(s[|s| - 1])
    ensures TrimEnd(s) == s
  {
  }

  lemma {:induction false} StripOfStripped(s: string)
    requires IsStripped(s)
    ensures Strip(s) == s
  {
    TrimStartOfStripped(s);
    TrimEndOfStripped(s);
  }

  lemma {:induction false} LowerOfLower(s: string)
    requires forall i :: 0 <= i < |s| ==> !IsUpper(s[i])
    ensures Lower(s) == s
  {
    if s != [] {
      LowerOfLower(s[1..]);
    }
  }

  lemma {:induction false} TrimStartLower(s: string)
    ensures TrimStart(Lower(s)) == Lower(TrimStart(s))
  {
    if s != [] {
      assert Lower(s)[1..] == Lower(s[1..]);
      if IsSpace(s[0]) {
        TrimStartLower(s[1..]);
      }
    }
  }

  lemma {:induction false} LowerPrefix(s: string, n: nat)
    requires n <= |s|
    ensures Lower(s)[..n] == Lower(s[..n])
  {
    if n > 0 {
      assert s[..n][1..] == s[1..][..n - 1];
      LowerPrefix(s[1..], n - 1);
    }
  }

  lemma {:induction false} TrimEndLower(s: string)
    ensures TrimEnd(Lower(s)) == Lower(TrimEnd(s))
    decreases |s|
  {
    if s != [] {
      LowerPrefix(s, |s| - 1);
      if IsSpace(s[|s| - 1]) {
        TrimEndLower(s[..|s| - 1]);
      }
    }
  }

  /** Lower-casing maps whitespace to whitespace, so it commutes with strip. */
  lemma StripLower(s: string)
    ensures Strip(Lower(s)) == Lower(Strip(s))
  {
    TrimStartLower(s);
    TrimEndLower(TrimStart(s));
  }

  /** Canonicalising twice is canonicalising once. */
  lemma CanonIdempotent(s: string)
    ensures Canon(Canon(s)) == Canon(s)
  {
    var t := Strip(s);
    StripIsStripped(s);
    StripLower(t);
    StripOfStripped(t);
    LowerOfLower(Lower(t));
  }

  /** The canonical strings are exactly the fixed points of `Canon`. */
  lemma CanonicalIffFixed(s: string)
    ensures IsCanonical(s) <==> Canon(s) == s
  {
    if IsCanonical(s) {
      StripOfStripped(s);
      LowerOfLower(s);
    }
    if Canon(s) == s {
      var t := Strip(s);
      StripIsStripped(s);
      assert s == Lower(t);
      assert forall i :: 0 <= i < |s| ==> !IsUpper(s[i]);
      if s != [] {
        assert s[0] == LowerChar(t[0]) && s[|s| - 1] == LowerChar(t[|t| - 1]);
      }
    }
  }

  lemma CanonIsCanonical(s: string)
    ensures IsCanonical(Canon(s))
  {
    CanonIdempotent(s);
    CanonicalIffFixed(Canon(s));
  }

  /** The digits and decimal points of `s`, in order. */
  function DigitsAndDots(s: string): string {
    if s == [] then []
    else (if IsDigit(s[0]) || s[0] == '.' then [s[0]] else []) + DigitsAndDots(s[1..])
  }

  /** The filter keeps at most the characters it is given, and only digits
      and points. */
  lemma {:induction false} DigitsAndDotsShape(s: string)
    ensures |DigitsAndDots(s)| <= |s|
    ensures forall i :: 0 <= i < |DigitsAndDots(s)| ==> IsDigit(DigitsAndDots(s)[i]) || DigitsAndDots(s)[i] == '.'
  {
    if s != [] {
      DigitsAndDotsShape(s[1..]);
    }
  }

  lemma {:induction false} DigitsAndDotsAppend(a: string, b: string)
    ensures DigitsAndDots(a + b) == DigitsAndDots(a) + DigitsAndDots(b)
  {
    if a != [] {
      var head := if IsDigit(a[0]) || a[0] == '.' then [a[0]] else [];
      assert (a + b)[0] == a[0] && (a + b)[1..] == a[1..] + b;
      DigitsAndDotsAppend(a[1..], b);
      calc {
        DigitsAndDots(a + b);
        head + DigitsAndDots(a[1..] + b);
        head + (DigitsAndDots(a[1..]) + DigitsAndDots(b));
        (head + DigitsAndDots(a[1..])) + DigitsAndDots(b);
      }
    } else {
      assert a + b == b;
    }
  }

  /** Text without digits or decimal points filters to nothing. */
  lemma {:induction false} DigitsAndDotsNone(s: string)
    requires forall i :: 0 <= i < |s| ==> !IsDigit(s[i]) && s[i] != '.'
    ensures DigitsAndDots(s) == []
  {
    if s != [] {
      DigitsAndDotsNone(s[1..]);
    }
  }

  /** Only digits and decimal points. */
  predicate IsNumeral(s: string) {
    forall i :: 0 <= i < |s| ==> IsDigit(s[i]) || s[i] == '.'
  }

  lemma {:induction false} DigitsAndDotsAll(s: string)
    requires IsNumeral(s)
    ensures DigitsAndDots(s) == s
  {
    if s != [] {
      assert IsNumeral(s[1..]) by {
        assert forall i :: 0 <= i < |s| - 1 ==> s[1..][i] == s[i + 1];
      }
      DigitsAndDotsAll(s[1..]);
    }
  }

  /** Python `s.startswith(prefix)`. */
  predicate StartsWith(s: string, prefix: string) {
    |prefix| <= |s| && s[..|prefix|] == prefix
  }

  /** Stripping keeps a head that starts and ends with visible text. */
  lemma StripKeepsHead(h: string, t: string)
    requires h != [] && !IsSpace(h[0]) && !IsSpace(h[|h| - 1])
    ensures StartsWith(Strip(h + t), h)
  {
    var s := h + t;
    TrimStartOfStripped(s);
    TrimEndShape(s);
    var r := TrimEnd(s);
    assert !IsSpace(s[|h| - 1]);
    assert r[..|h|] == s[..|h|];
  }

  /** Stripping keeps a tail that starts and ends with visible text. */
  lemma StripKeepsTail(t: string, h: string)
    requires h != [] && !IsSpace(h[0]) && !IsSpace(h[|h| - 1])
    ensures EndsWith(Strip(t + h), h)
  {
    var s := t + h;
    TrimEndOfStripped(s);
    TrimStartShape(s);
    var r := TrimStart(s);
    assert !IsSpace(s[|s| - |h|]);
    assert r[|r| - |h|..] == s[|s| - |h|..];
  }

  /** Trailing whitespace makes no difference to `TrimEnd`. */
  lemma TrimEndSpace(s: string, c: char)
    requires IsSpace(c)
    ensures TrimEnd(s + [c]) == TrimEnd(s)
  {
    assert (s + [c])[..|s|] == s;
  }

  /** Python `s.endswith(suffix)`. */
  predicate EndsWith(s: string, suffix: string) {
    |suffix| <= |s| && s[|s| - |suffix|..] == suffix
  }

  /** `p` occurs in `s` starting at index `i`. */
  predicate OccursAt(s: string, p: string, i: int) {
    0 <= i <= |s| - |p| && s[i..i + |p|] == p
  }

  /** The characters of `p` from index `k` on match those of `s` from `i + k`. */
  predicate MatchesFrom(s: string, p: string, i: nat, k: nat)
    requires i + |p| <= |s|
    decreases |p| - k
  {
    k >= |p| || (s[i + k] == p[k] && MatchesFrom(s, p, i, k + 1))
  }

  /** `p` occurs in `s` at some index from `i` on. */
  predicate ContainsFrom(s: string, p: string, i: nat)
    decreases |s| - i
  {
    i + |p| <= |s| && (MatchesFrom(s, p, i, 0) || ContainsFrom(s, p, i + 1))
  }

  /** Python `p in s` on strings: `p` occurs in `s` as a block. */
  predicate Contains(s: string, p: string) {
    ContainsFrom(s, p, 0)
  }

  lemma {:induction false} MatchesFromAt(s: string, p: string, i: nat, k: nat)
    requires i + |p| <= |s| && k <= |p|
    ensures MatchesFrom(s, p, i, k) <==> s[i + k..i + |p|] == p[k..]
    decreases |p| - k
  {
    if k < |p| {
      MatchesFromAt(s, p, i, k + 1);
      assert s[i + k..i + |p|] == [s[i + k]] + s[i + k + 1..i + |p|];
      assert p[k..] == [p[k]] + p[k + 1..];
    }
  }

  lemma {:induction false} ContainsFromAt(s: string, p: string, i: nat)
    ensures ContainsFrom(s, p, i) <==> exists j :: i <= j && OccursAt(s, p, j)
    decreases |s| - i
  {
    if i + |p| <= |s| {
      MatchesFromAt(s, p, i, 0);
      ContainsFromAt(s, p, i + 1);
      if !ContainsFrom(s, p, i) {
        forall j | i <= j
          ensures !OccursAt(s, p, j)
        {
          if j == i {
            assert !MatchesFrom(s, p, i, 0);
          } else {
            assert !(i + 1 <= j && OccursAt(s, p, j));
          }
        }
      } else if MatchesFrom(s, p, i, 0) {
        assert OccursAt(s, p, i);
      }
    } else {
      forall j | i <= j
        ensures !OccursAt(s, p, j)
      {
      }
    }
  }

  /** `Contains` agrees with the positional definition of a substring. */
  lemma ContainsAt(s: string, p: string)
    ensures Contains(s, p) <==> exists i :: OccursAt(s, p, i)
  {
    ContainsFromAt(s, p, 0);
  }

  /** A pattern holding a character that `s` lacks does not occur in `s`. */
  lemma NotContainsMissingChar(s: string, p: string, c: char)
    requires c in p && c !in s
    ensures !Contains(s, p)
  {
    forall i
      ensures !OccursAt(s, p, i)
    {
      if 0 <= i <= |s| - |p| {
        var k :| 0 <= k < |p| && p[k] == c;
        assert s[i..i + |p|][k] == s[i + k];
      }
    }
    ContainsAt(s, p);
  }

  /** A substring of a substring is a substring. */
  lemma ContainsTransitive(s: string, q: string, p: string)
    requires Contains(s, q) && Contains(q, p)
    ensures Contains(s, p)
  {
    ContainsAt(s, q);
    ContainsAt(q, p);
    var i :| OccursAt(s, q, i);
    var j :| OccursAt(q, p, j);
    forall k | 0 <= k < |p|
      ensures s[i + j..i + j + |p|][k] == p[k]
    {
      assert p[k] == q[j + k] == s[i..i + |q|][j + k];
    }
    assert s[i + j..i + j + |p|] == p;
    assert OccursAt(s, p, i + j);
    ContainsAt(s, p);
  }

  /** Python `s.find(c)`: the first index of `c`, or -1. */
  function FindChar(s: string, c: char): (r: int)
    ensures -1 <= r < |s|
  {
    if s == [] then -1
    else if s[0] == c then 0
    else
      var k := FindChar(s[1..], c);
      if k < 0 then -1 else k + 1
  }

  /** `FindChar` answers -1 exactly when `c` does not occur, and otherwise the
      index of its first occurrence. */
  lemma {:induction false} FindCharSpec(s: string, c: char)
    ensures FindChar(s, c) == -1 <==> c !in s
    ensures FindChar(s, c) >= 0 ==> s[FindChar(s, c)] == c && c !in s[..FindChar(s, c)]
  {
    if s != [] && s[0] != c {
      FindCharSpec(s[1..], c);
      assert s == [s[0]] + s[1..];
      var k := FindChar(s[1..], c);
      if k >= 0 {
        assert s[..k + 1] == [s[0]] + s[1..][..k];
      }
    }
  }

  function DigitValue(c: char): nat
    requires IsDigit(c)
  {
    c as int - '0' as int
  }

  function DigitChar(d: nat): (c: char)
    requires d < 10
    ensures IsDigit(c) && DigitValue(c) == d
  {
    ('0' as int + d) as char
  }

  /** The value of a string of decimal digits ("" reads as 0). */
  function NatOf(ds: string): nat
    requires AllDigits(ds)
  {
    if ds == [] then 0 else 10 * NatOf(ds[..|ds| - 1]) + DigitValue(ds[|ds| - 1])
  }

  /** The value of the digits after a decimal point. */
  function FracValue(ds: string): (r: real)
    requires AllDigits(ds)
    ensures 0.0 <= r <= 1.0
  {
    if ds == [] then 0.0 else (DigitValue(ds[0]) as real + FracValue(ds[1..])) / 10.0
  }

  /** Python `str(n)` for a natural number: its digits with no leading zero. */
  function NatToString(n: nat): (r: string)
    ensures r != [] && AllDigits(r) && NatOf(r) == n
  {
    if n < 10 then [DigitChar(n)]
    else
      var r := NatToString(n / 10) + [DigitChar(n % 10)];
      assert r[..|r| - 1] == NatToString(n / 10);
      r
  }

  /** Python `float(t)` on a string that holds no whitespace and no sign:
      digits with at most one decimal point and at least one digit. */
  function ParseUnsigned(t: string): (r: Option<real>)
    ensures r.Some? ==> r.value >= 0.0
  {
    var k := FindChar(t, '.');
    if k < 0 then
      if t != [] && AllDigits(t) then Some(NatOf(t) as real) else None
    else
      var whole, frac := t[..k], t[k + 1..];
      if AllDigits(whole) && AllDigits(frac) && |whole| + |frac| > 0
      then Some(NatOf(whole) as real + FracValue(frac))
      else None
  }

  /** Python `float(s)` on ASCII decimal text: surrounding whitespace and one
      leading sign are allowed. */
  function ParseFloat(s: string): Option<real> {
    var t := Strip(s);
    if |t| > 0 && t[0] == '-' then
      match ParseUnsigned(t[1..])
      case Some(v) => Some(-v)
      case None => None
    else if |t| > 0 && t[0] == '+' then ParseUnsigned(t[1..])
    else ParseUnsigned(t)
  }

  lemma NoDotInDigits(ds: string)
    requires AllDigits(ds)
    ensures '.' !in ds
  {
    forall i | 0 <= i < |ds|
      ensures ds[i] != '.'
    {
      assert IsDigit(ds[i]);
    }
  }

  /** Reading back the decimal rendering of a natural number gives it back. */
  lemma ParseNatToString(n: nat)
    ensures ParseUnsigned(NatToString(n)) == Some(n as real)
    ensures ParseFloat(NatToString(n)) == Some(n as real)
  {
    var ds := NatToString(n);
    NoDotInDigits(ds);
    FindCharSpec(ds, '.');
    assert IsDigit(ds[0]) && IsDigit(ds[|ds| - 1]);
    StripOfStripped(ds);
    assert Strip(ds) == ds;
  }

  /** `float()` of any non-empty digit string, leading zeros included, is
      its value. */
  lemma ParseDigits(ds: string)
    requires ds != [] && AllDigits(ds)
    ensures ParseFloat(ds) == Some(NatOf(ds) as real)
  {
    NoDotInDigits(ds);
    FindCharSpec(ds, '.');
    assert IsDigit(ds[0]) && IsDigit(ds[|ds| - 1]);
    StripOfStripped(ds);
    assert Strip(ds) == ds;
  }

  /** No decimal digit anywhere in the text. */
  predicate NoDigits(s: string) {
    forall i :: 0 <= i < |s| ==> !IsDigit(s[i])
  }

  lemma NoDigitsPrefix(s: string, k: nat)
    requires NoDigits(s) && k <= |s|
    ensures NoDigits(s[..k]) && NoDigits(s[k..])
  {
    assert forall i :: 0 <= i < k ==> s[..k][i] == s[i];
    assert forall i :: 0 <= i < |s| - k ==> s[k..][i] == s[k + i];
  }

  /** Stripping and lower-casing never bring in a digit. */
  lemma CanonNoDigits(s: string)
    requires NoDigits(s)
    ensures NoDigits(Canon(s))
  {
    TrimStartShape(s);
    var ts := TrimStart(s);
    TrimEndShape(ts);
    var t := Strip(s);
    assert forall i :: 0 <= i < |t| ==> t[i] == s[|s| - |ts| + i];
  }

  /** The digits-and-points filter of digitless text is digitless. */
  lemma {:induction false} DigitsAndDotsKeepsNoDigits(s: string)
    requires NoDigits(s)
    ensures NoDigits(DigitsAndDots(s))
  {
    if s != [] {
      NoDigitsPrefix(s, 1);
      DigitsAndDotsKeepsNoDigits(s[1..]);
      var head := if IsDigit(s[0]) || s[0] == '.' then [s[0]] else [];
      var rest := DigitsAndDots(s[1..]);
      assert DigitsAndDots(s) == head + rest;
      assert forall i :: |head| <= i < |head| + |rest| ==> (head + rest)[i] == rest[i - |head|];
    }
  }

  /** `float()` refuses text without a digit, whatever its points and
      signs. */
  lemma NoDigitsNotNumber(s: string)
    requires NoDigits(s)
    ensures ParseFloat(s) == None
  {
    CanonNoDigits(s);
    var t := Strip(s);
    assert forall i :: 0 <= i < |t| ==> Canon(s)[i] == LowerChar(t[i]);
    assert NoDigits(t);
    UnsignedNeedsDigit(t);
    if |t| > 0 {
      NoDigitsPrefix(t, 1);
      UnsignedNeedsDigit(t[1..]);
    }
  }

  lemma UnsignedNeedsDigit(t: string)
    requires NoDigits(t)
    ensures ParseUnsigned(t) == None
  {
    var k := FindChar(t, '.');
    if k >= 0 {
      NoDigitsPrefix(t, k);
      NoDigitsPrefix(t, k + 1);
      var whole, frac := t[..k], t[k + 1..];
      assert whole != [] ==> !IsDigit(whole[0]);
      assert frac != [] ==> !IsDigit(frac[0]);
    } else {
      assert t != [] ==> !IsDigit(t[0]);
    }
  }

  /** `float()` of a whole part, a point and a run of fraction digits. */
  lemma ParseDecimal(w: nat, ds: string)
    requires AllDigits(ds)
    ensures ParseFloat(NatToString(w) + "." + ds) == Some(w as real + FracValue(ds))
  {
    var ws := NatToString(w);
    var s := ws + "." + ds;
    assert IsDigit(s[0]) by {
      assert s[0] == ws[0];
    }
    assert Strip(s) == s by {
      assert ds != [] ==> s[|s| - 1] == ds[|ds| - 1];
      StripOfStripped(s);
    }
    assert ParseUnsigned(s) == Some(w as real + FracValue(ds)) by {
      UnsignedDecimal(ws, ds);
    }
    UnsignedWhenStripped(s);
  }

  /** Stripped text that starts with a digit is read without a sign. */
  lemma UnsignedWhenStripped(s: string)
    requires s != [] && IsDigit(s[0]) && Strip(s) == s
    ensures ParseFloat(s) == ParseUnsigned(s)
  {
  }

  /** The unsigned reading of whole digits, a point and fraction digits. */
  lemma UnsignedDecimal(ws: string, ds: string)
    requires ws != [] && AllDigits(ws) && AllDigits(ds)
    ensures ParseUnsigned(ws + "." + ds) == Some(NatOf(ws) as real + FracValue(ds))
  {
    var s := ws + "." + ds;
    assert FindChar(s, '.') == |ws| by {
      NoDotInDigits(ws);
      assert s == ws + ("." + ds);
      FindCharAfter(ws, "." + ds, '.');
    }
    assert s[..|ws|] == ws by { }
    assert s[|ws| + 1..] == ds by { }
    UnsignedAtDot(s, |ws|);
  }

  /** Text whose first point is at `k`, with digits on both sides, reads as
      the whole part plus the fraction. */
  lemma UnsignedAtDot(t: string, k: nat)
    requires k < |t| && FindChar(t, '.') == k
    requires AllDigits(t[..k]) && AllDigits(t[k + 1..]) && k > 0
    ensures ParseUnsigned(t) == Some(NatOf(t[..k]) as real + FracValue(t[k + 1..]))
  {
  }

  /** Past a prefix without `c`, the search goes on in the rest. */
  lemma {:induction false} FindCharAfter(a: string, b: string, c: char)
    requires c !in a
    ensures FindChar(a + b, c) == if FindChar(b, c) < 0 then -1 else |a| + FindChar(b, c)
  {
    if a != [] {
      assert (a + b)[0] == a[0] && (a + b)[1..] == a[1..] + b;
      FindCharAfter(a[1..], b, c);
    } else {
      assert a + b == b;
    }
  }

  /** The empty text is not a number. */
  lemma ParseEmpty()
    ensures ParseUnsigned("") == None && ParseFloat("") == None
  {
    StripOfStripped("");
  }
}
