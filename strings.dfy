/**
 * The JavaScript string operations the assistant relies on: `toLowerCase`,
 * `includes`, `replace` with a case-insensitive two-way alternation, `trim`,
 * `parseInt` and the decimal rendering of a non-negative number.
 * Case mapping is restricted to ASCII letters.
 */
module Strings {
  import opened Wrappers
  import opened Sequences

  // ---------------------------------------------------------------------------
  // Case mapping

  function LowerChar(c: char): char {
    if 'A' <= c <= 'Z' then (c as int + 32) as char else c
  }

  /** `s.toLowerCase()` on ASCII letters: same length, letters lowered one by one. */
  function ToLower(s: string): (r: string)
    ensures |r| == |s|
    ensures forall i :: 0 <= i < |s| ==> r[i] == LowerChar(s[i])
  {
    seq(|s|, i requires 0 <= i < |s| => LowerChar(s[i]))
  }

  // ---------------------------------------------------------------------------
  // Substring search

  /** `p` occurs in `s` starting at index `i`. */
  predicate MatchesAt(s: string, i: nat, p: string) {
    i + |p| <= |s| && s[i..i + |p|] == p
  }

  /** `p` occurs in `s` at `from` or later. */
  predicate ContainsFrom(s: string, p: string, from: nat)
    decreases |s| - from
  {
    from + |p| <= |s| && (s[from..from + |p|] == p || ContainsFrom(s, p, from + 1))
  }

  /** `s.includes(p)`. */
  predicate Contains(s: string, p: string) {
    ContainsFrom(s, p, 0)
  }

  /** The first index at or after `from` where `p` occurs in `s`. */
  function IndexFrom(s: string, p: string, from: nat): (r: Option<nat>)
    decreases |s| - from
    ensures r.Some? <==> ContainsFrom(s, p, from)
    ensures r.Some? ==> from <= r.value && MatchesAt(s, r.value, p)
    ensures r.Some? ==> forall j: nat :: from <= j < r.value ==> !MatchesAt(s, j, p)
    ensures r.None? ==> forall j: nat :: from <= j ==> !MatchesAt(s, j, p)
  {
    if from + |p| > |s| then None
    else if s[from..from + |p|] == p then Some(from)
    else IndexFrom(s, p, from + 1)
  }

  /** `s.indexOf(p)`, with `None` for -1: the first occurrence, present exactly when `s.includes(p)`. */
  function IndexOf(s: string, p: string): (r: Option<nat>)
    ensures r.Some? <==> Contains(s, p)
    ensures r.Some? ==> MatchesAt(s, r.value, p) && forall j: nat :: j < r.value ==> !MatchesAt(s, j, p)
    ensures r.None? ==> forall j: nat :: !MatchesAt(s, j, p)
  {
    IndexFrom(s, p, 0)
  }

  /** `includes` holds exactly when the pattern occurs somewhere; the empty pattern occurs everywhere. */
  lemma ContainsMeansOccurs(s: string, p: string)
    ensures Contains(s, p) <==> exists j: nat :: MatchesAt(s, j, p)
    ensures p == "" ==> Contains(s, p)
  {
    var r := IndexOf(s, p);
    if p == "" {
      assert MatchesAt(s, 0, p);
    }
  }

  /**
   * Where the regular expression `/p|q/i` first matches `s`, given `low`, the
   * lowered `s`, and lower-case alternatives: the leftmost position where either
   * alternative occurs, `p` preferred when both start there. The result is the
   * position and the length of the matched text.
   */
  function LeftmostMatch(low: string, p: string, q: string): (r: Option<(nat, nat)>)
    ensures r.Some? ==>
      var (k, n) := r.value;
      (n == |p| && MatchesAt(low, k, p)) || (n == |q| && MatchesAt(low, k, q) && !MatchesAt(low, k, p))
    ensures r.Some? ==> forall j: nat :: j < r.value.0 ==> !MatchesAt(low, j, p) && !MatchesAt(low, j, q)
    ensures r.None? <==> !Contains(low, p) && !Contains(low, q)
  {
    match (IndexOf(low, p), IndexOf(low, q))
    case (Some(i), Some(j)) => if i <= j then Some((i, |p|)) else Some((j, |q|))
    case (Some(i), None) => Some((i, |p|))
    case (None, Some(j)) => Some((j, |q|))
    case (None, None) => None
  }

  /**
   * `s.replace(/p|q/i, '')`: the first case-insensitive match of `p` or `q` is cut
   * out of `s`; without a match `s` is returned as it is. The alternatives are
   * given in lower case, as they are compared with the lowered `s`; every caller
   * passes lower-case literals.
   */
  function StripFirst(s: string, p: string, q: string): (r: string)
    ensures !Contains(ToLower(s), p) && !Contains(ToLower(s), q) ==> r == s
    ensures match LeftmostMatch(ToLower(s), p, q)
      case None => r == s
      case Some((k, n)) => k + n <= |s| && r == s[..k] + s[k + n..]
  {
    var low := ToLower(s);
    match LeftmostMatch(low, p, q)
    case None => s
    case Some((k, n)) =>
      assert k + n <= |low|;
      s[..k] + s[k + n..]
  }

  // ---------------------------------------------------------------------------
  // Whitespace

  /** The characters `String.prototype.trim` removes: ECMAScript WhiteSpace and LineTerminator. */
  predicate IsWhite(c: char) {
    c == '\t' || c == '\n' || c == '\U{000B}' || c == '\U{000C}' || c == '\r' || c == ' '
    || c == '\U{00A0}' || c == '\U{1680}' || ('\U{2000}' <= c <= '\U{200A}')
    || c == '\U{2028}' || c == '\U{2029}' || c == '\U{202F}' || c == '\U{205F}'
    || c == '\U{3000}' || c == '\U{FEFF}'
  }

  /** `s.trimStart()`: a suffix of `s` obtained by dropping only white space, and not starting with any. */
  function TrimStart(s: string): (r: string)
    ensures |r| <= |s| && r == s[|s| - |r|..]
    ensures forall i :: 0 <= i < |s| - |r| ==> IsWhite(s[i])
    ensures r != "" ==> !IsWhite(r[0])
  {
    if s != "" && IsWhite(s[0]) then TrimStart(s[1..]) else s
  }

  /** `s.trimEnd()`: a prefix of `s` obtained by dropping only white space, and not ending with any. */
  function TrimEnd(s: string): (r: string)
    ensures |r| <= |s| && r == s[..|r|]
    ensures forall i :: |r| <= i < |s| ==> IsWhite(s[i])
    ensures r != "" ==> !IsWhite(r[|r| - 1])
  {
    if s != "" && IsWhite(s[|s| - 1]) then TrimEnd(s[..|s| - 1]) else s
  }

  /**
   * `s.trim()`: the slice of `s` left once leading and trailing white space is
   * dropped; empty exactly when `s` is all white space.
   */
  function Trim(s: string): (r: string)
    ensures exists a: nat :: TrimmedAt(s, r, a)
    ensures r != "" ==> !IsWhite(r[0]) && !IsWhite(r[|r| - 1])
    ensures r == "" <==> forall i :: 0 <= i < |s| ==> IsWhite(s[i])
  {
    var t := TrimStart(s);
    var r := TrimEnd(t);
    TrimIsSlice(s, t, r);
    r
  }

  /** Trimming the start and then the end leaves a slice with white space on both sides of it. */
  lemma TrimIsSlice(s: string, t: string, r: string)
    requires |t| <= |s| && t == s[|s| - |t|..] && forall i :: 0 <= i < |s| - |t| ==> IsWhite(s[i])
    requires |r| <= |t| && r == t[..|r|] && forall i :: |r| <= i < |t| ==> IsWhite(t[i])
    ensures TrimmedAt(s, r, |s| - |t|)
    ensures r != "" ==> r[0] == s[|s| - |t|]
  {
    var a := |s| - |t|;
    assert t == s[a..];
    assert r == t[..|r|];
    assert s[a..][..|r|] == s[a..a + |r|];
    forall i | a + |r| <= i < |s|
      ensures IsWhite(s[i])
    {
      var j := i - a;
      assert |r| <= j < |t| && s[i] == t[j];
    }
  }

  /** `r` is the slice of `s` starting at `a`, and everything of `s` outside it is white space. */
  predicate TrimmedAt(s: string, r: string, a: nat) {
    && a + |r| <= |s| && r == s[a..a + |r|]
    && (forall i :: 0 <= i < a ==> IsWhite(s[i]))
    && (forall i :: a + |r| <= i < |s| ==> IsWhite(s[i]))
  }

  // ---------------------------------------------------------------------------
  // Decimal numbers

  predicate IsDigit(c: char) {
    '0' <= c <= '9'
  }

  predicate AllDigits(s: string) {
    forall i :: 0 <= i < |s| ==> IsDigit(s[i])
  }

  /** The longest prefix of `s` consisting of decimal digits. */
  function DigitPrefix(s: string): (r: string)
    ensures |r| <= |s| && r == s[..|r|] && AllDigits(r)
    ensures |r| < |s| ==> !IsDigit(s[|r|])
  {
    if s != "" && IsDigit(s[0]) then [s[0]] + DigitPrefix(s[1..]) else ""
  }

  /** The value of a string of decimal digits, most significant first. */
  function DigitsValue(ds: string): nat
    requires AllDigits(ds)
  {
    if ds == "" then 0 else DigitsValue(ds[..|ds| - 1]) * 10 + (ds[|ds| - 1] as int - '0' as int)
  }

  /**
   * `parseInt(s)` as a decimal parse: leading white space is skipped, then an
   * optional sign, then the longest run of digits; text after the digits is
   * ignored. With no digits the result is `NaN`, here `None`.
   */
  function ParseInt(s: string): (r: Option<int>)
    ensures r.None? <==> DigitPrefix(UnsignedPart(TrimStart(s))) == ""
  {
    var t := TrimStart(s);
    var ds := DigitPrefix(UnsignedPart(t));
    if ds == "" then None
    else if t[0] == '-' then Some(-(DigitsValue(ds) as int))
    else Some(DigitsValue(ds))
  }

  /** What follows an optional leading `+` or `-`. */
  function UnsignedPart(t: string): (r: string)
    ensures r == t || (t != "" && (t[0] == '+' || t[0] == '-') && r == t[1..])
  {
    if t != "" && (t[0] == '+' || t[0] == '-') then t[1..] else t
  }

  function DigitChar(d: nat): char
    requires d < 10
  {
    ('0' as int + d) as char
  }

  /** `String(n)` for a non-negative integer: its decimal digits, with no leading zero. */
  function NatToString(n: nat): (r: string)
    ensures r != "" && AllDigits(r)
    ensures r[0] == '0' ==> n == 0
  {
    if n < 10 then [DigitChar(n)] else NatToString(n / 10) + [DigitChar(n % 10)]
  }

  /** Reading back the digits of `n` gives `n`. */
  lemma {:induction false} DigitsValueOfNatToString(n: nat)
    ensures DigitsValue(NatToString(n)) == n
  {
    var r := NatToString(n);
    if n >= 10 {
      DigitsValueOfNatToString(n / 10);
      assert r[..|r| - 1] == NatToString(n / 10);
    }
  }

  /** The digit prefix of a digit string followed by a non-digit is that string. */
  lemma {:induction false} DigitPrefixOfDigits(ds: string, rest: string)
    requires AllDigits(ds)
    requires rest == "" || !IsDigit(rest[0])
    ensures DigitPrefix(ds + rest) == ds
  {
    if ds != "" {
      assert (ds + rest)[1..] == ds[1..] + rest;
      DigitPrefixOfDigits(ds[1..], rest);
    }
  }

  /** `parseInt(String(n))` is `n`, and so is `parseInt` of `n` followed by any non-digit text. */
  lemma ParseIntOfNatToString(n: nat, rest: string)
    requires rest == "" || !IsDigit(rest[0])
    ensures ParseInt(NatToString(n) + rest) == Some(n)
  {
    var ds := NatToString(n);
    var s := ds + rest;
    var c := s[0];
    assert c == ds[0] && IsDigit(c);
    assert !IsWhite(c) && c != '+' && c != '-';
    assert TrimStart(s) == s;
    assert UnsignedPart(s) == s;
    DigitPrefixOfDigits(ds, rest);
    DigitsValueOfNatToString(n);
  }

  /** `k` zero digits. */
  function Zeros(k: nat): (r: string)
    ensures |r| == k && AllDigits(r)
  {
    seq(k, _ => '0')
  }

  /** Any number of zeros is worth nothing. */
  lemma {:induction false} ZerosValue(k: nat)
    ensures DigitsValue(Zeros(k)) == 0
  {
    if k > 0 {
      assert Zeros(k)[..k - 1] == Zeros(k - 1);
      ZerosValue(k - 1);
    }
  }

  /** Leading zeros do not change the value of a digit string. */
  lemma {:induction false} LeadingZerosValue(k: nat, ds: string)
    requires AllDigits(ds)
    ensures AllDigits(Zeros(k) + ds)
    ensures DigitsValue(Zeros(k) + ds) == DigitsValue(ds)
  {
    var d := Zeros(k) + ds;
    if ds == "" {
      assert d == Zeros(k);
      ZerosValue(k);
    } else {
      assert d[..|d| - 1] == Zeros(k) + ds[..|ds| - 1];
      assert d[|d| - 1] == ds[|ds| - 1];
      LeadingZerosValue(k, ds[..|ds| - 1]);
    }
  }

  /** `trimStart` drops exactly the white space in front of text that starts with something else. */
  lemma {:induction false} TrimStartSkipsWhite(w: string, x: string)
    requires forall i :: 0 <= i < |w| ==> IsWhite(w[i])
    requires x != "" && !IsWhite(x[0])
    ensures TrimStart(w + x) == x
  {
    if w == "" {
      assert w + x == x;
    } else {
      assert (w + x)[0] == w[0];
      assert (w + x)[1..] == w[1..] + x;
      TrimStartSkipsWhite(w[1..], x);
    }
  }

  /** Before the digits, `parseInt` skips the white space and a sign, and remembers whether it was a minus. */
  lemma SignedPrefix(w: string, sign: string, u: string)
    requires forall i :: 0 <= i < |w| ==> IsWhite(w[i])
    requires sign == "" || sign == "+" || sign == "-"
    requires u != "" && IsDigit(u[0])
    ensures TrimStart(w + (sign + u)) == sign + u
    ensures UnsignedPart(sign + u) == u
    ensures (sign + u)[0] == '-' <==> sign == "-"
  {
    var t := sign + u;
    assert t[0] == '+' || t[0] == '-' || IsDigit(t[0]);
    TrimStartSkipsWhite(w, t);
    if sign == "" {
      assert t == u;
    } else {
      assert t[1..] == u;
    }
  }

  /**
   * `parseInt` of white space, an optional sign, any number of leading zeros,
   * the digits of `n` and text that does not continue the digits is `n`,
   * negated after a minus sign.
   */
  lemma ParseIntOfSignedDigits(w: string, sign: string, k: nat, n: nat, rest: string)
    requires forall i :: 0 <= i < |w| ==> IsWhite(w[i])
    requires sign == "" || sign == "+" || sign == "-"
    requires rest == "" || !IsDigit(rest[0])
    ensures ParseInt(w + sign + Zeros(k) + NatToString(n) + rest) == Some(if sign == "-" then -(n as int) else n)
  {
    var ds := Zeros(k) + NatToString(n);
    LeadingZerosValue(k, NatToString(n));
    DigitsValueOfNatToString(n);
    var u := ds + rest;
    AppendAssociates(w + sign, Zeros(k), NatToString(n));
    AppendAssociates(w + sign, ds, rest);
    AppendAssociates(w, sign, u);
    assert u[0] == ds[0];
    SignedPrefix(w, sign, u);
    DigitPrefixOfDigits(ds, rest);
  }

  /** `parseInt` of text without any digit is `NaN`; in particular `parseInt("")`. */
  lemma ParseIntWithoutDigits(s: string)
    requires forall i :: 0 <= i < |s| ==> !IsDigit(s[i])
    ensures ParseInt(s) == None
  {
    var t := TrimStart(s);
    var u := UnsignedPart(t);
    assert u == s[|s| - |u|..];
    if u != "" {
      assert u[0] == s[|s| - |u|];
    }
  }
}
