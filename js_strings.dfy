// The pieces of JavaScript's String and Math behaviour the modelled code relies on:
// indexOf/includes/startsWith, replace with a string pattern (first match only),
// trim, decimal rendering of a non-negative integer, an ordering of ids, number
// parsing, and `Math.round`.
module JsStrings {
  import opened Wrappers


  predicate StartsWith(s: string, p: string) {
    |p| <= |s| && s[..|p|] == p
  }

  /** `s.indexOf(pat)`: the first position where `pat` occurs, or -1. */
  function IndexOf(s: string, pat: string): (r: int)
    ensures r == -1 || (0 <= r && r + |pat| <= |s| && s[r..r + |pat|] == pat)
    decreases |s|
  {
    if StartsWith(s, pat) then 0
    else if s == [] then -1
    else
      var i := IndexOf(s[1..], pat);
      if i < 0 then -1 else i + 1
  }

  /** The position found is the first occurrence, and -1 means there is none. */
  lemma {:induction false} IndexOfFirst(s: string, pat: string)
    ensures IndexOf(s, pat) >= 0 ==> forall k :: 0 <= k < IndexOf(s, pat) ==> !StartsWith(s[k..], pat)
    ensures IndexOf(s, pat) == -1 ==> forall k :: 0 <= k <= |s| ==> !StartsWith(s[k..], pat)
    decreases |s|
  {
    if !StartsWith(s, pat) && s != [] {
      IndexOfFirst(s[1..], pat);
      assert forall k :: 1 <= k <= |s| ==> s[1..][k - 1..] == s[k..];
    }
  }

  /** `s.includes(sub)`. */
  function Includes(s: string, sub: string): (b: bool)
    ensures b <==> exists k :: 0 <= k <= |s| && StartsWith(s[k..], sub)
  {
    IndexOfFirst(s, sub);
    var i := IndexOf(s, sub);
    assert i >= 0 ==> s[i..][..|sub|] == s[i..i + |sub|];
    i >= 0
  }

  /** `s.replace(pat, rep)` with a string pattern: only the first occurrence is replaced. */
  function ReplaceFirst(s: string, pat: string, rep: string): (r: string)
    ensures IndexOf(s, pat) < 0 ==> r == s
    ensures IndexOf(s, pat) >= 0 ==>
      exists i :: 0 <= i && i + |pat| <= |s| && s[i..i + |pat|] == pat && r == s[..i] + rep + s[i + |pat|..]
  {
    var i := IndexOf(s, pat);
    if i < 0 then s else s[..i] + rep + s[i + |pat|..]
  }

  /** WhiteSpace and LineTerminator code points of ECMAScript (section 12.2 and 12.3 of ECMA-262). */
  predicate IsJsWhitespace(c: char) {
    c == '\t' || c == '\n' || c == '\U{B}' || c == '\U{C}' || c == '\r' || c == ' ' ||
    c == '\U{A0}' || c == '\U{1680}' || ('\U{2000}' <= c <= '\U{200A}') || c == '\U{2028}' ||
    c == '\U{2029}' || c == '\U{202F}' || c == '\U{205F}' || c == '\U{3000}' || c == '\U{FEFF}'
  }

  function TrimStart(s: string): (r: string)
    ensures |r| <= |s| && r == s[|s| - |r|..]
    ensures r != [] ==> !IsJsWhitespace(r[0])
  {
    if s != [] && IsJsWhitespace(s[0]) then TrimStart(s[1..]) else s
  }

  /** What `trimStart` removes is whitespace only. */
  lemma {:induction false} TrimStartDropsBlanks(s: string)
    ensures forall i :: 0 <= i < |s| - |TrimStart(s)| ==> IsJsWhitespace(s[i])
    decreases |s|
  {
    if s != [] && IsJsWhitespace(s[0]) {
      TrimStartDropsBlanks(s[1..]);
      assert forall i :: 1 <= i < |s| ==> s[1..][i - 1] == s[i];
    }
  }

  function TrimEnd(s: string): (r: string)
    ensures |r| <= |s| && r == s[..|r|]
    ensures r != [] ==> !IsJsWhitespace(r[|r| - 1])
  {
    if s != [] && IsJsWhitespace(s[|s| - 1]) then TrimEnd(s[..|s| - 1]) else s
  }

  /** What `trimEnd` removes is whitespace only. */
  lemma {:induction false} TrimEndDropsBlanks(s: string)
    ensures forall i :: |TrimEnd(s)| <= i < |s| ==> IsJsWhitespace(s[i])
    decreases |s|
  {
    if s != [] && IsJsWhitespace(s[|s| - 1]) {
      TrimEndDropsBlanks(s[..|s| - 1]);
    }
  }

  /** `s.trim()`. */
  function Trim(s: string): (r: string)
    ensures r != [] ==> !IsJsWhitespace(r[0]) && !IsJsWhitespace(r[|r| - 1])
  {
    var t := TrimStart(s);
    var r := TrimEnd(t);
    assert r != [] ==> r[0] == t[0];
    r
  }

  /** The trimmed string is a piece of the original. */
  lemma TrimInside(s: string)
    ensures exists i :: 0 <= i <= |s| && StartsWith(s[i..], Trim(s))
  {
    var t := TrimStart(s);
    var r := TrimEnd(t);
    var i := |s| - |t|;
    assert 0 <= i <= |s| - |r| && s[i..][..|r|] == r;
  }

  /** A string trims to nothing exactly when every character of it is whitespace. */
  lemma TrimEmptyIffBlank(s: string)
    ensures Trim(s) == [] <==> forall i :: 0 <= i < |s| ==> IsJsWhitespace(s[i])
  {
    var t := TrimStart(s);
    TrimStartDropsBlanks(s);
    TrimEndDropsBlanks(t);
    if Trim(s) != [] {
      var r := Trim(s);
      assert r == t[..|r|];
      assert !IsJsWhitespace(s[|s| - |t|]);
    }
  }

  // ---- decimal numerals -------------------------------------------------

  function DigitChar(d: nat): (c: char)
    requires d < 10
    ensures '0' <= c <= '9'
  {
    (48 + d) as char
  }

  predicate AllDigits(s: string) {
    forall i :: 0 <= i < |s| ==> '0' <= s[i] <= '9'
  }

  /** The value of a string of decimal digits. */
  function DigitsValue(s: string): nat
    requires AllDigits(s)
  {
    if s == [] then 0 else 10 * DigitsValue(s[..|s| - 1]) + (s[|s| - 1] as int - 48)
  }

  /** Split off the last decimal digit: n == 10 * q + d. */
  function SplitDigit(n: nat): (r: (nat, nat))
    ensures n == 10 * r.0 + r.1 && r.1 < 10
  {
    (n / 10, n % 10)
  }

  /** `String(n)` for a non-negative integer: its shortest decimal numeral. */
  function NatToString(n: nat): (r: string)
    ensures |r| >= 1 && AllDigits(r)
    ensures r[0] == '0' ==> n == 0
  {
    if n < 10 then [DigitChar(n)]
    else
      var qd := SplitDigit(n);
      NatToString(qd.0) + [DigitChar(qd.1)]
  }

  /** Reading the numeral back gives the number again. */
  lemma {:induction false} NatToStringValue(n: nat)
    ensures DigitsValue(NatToString(n)) == n
  {
    if n >= 10 {
      var qd := SplitDigit(n);
      var r := NatToString(n);
      assert r[..|r| - 1] == NatToString(qd.0);
      NatToStringValue(qd.0);
    }
  }

  // ---- ordering of identifiers ------------------------------------------

  /** Code-unit lexicographic order: `a` sorts no later than `b`. */
  predicate StrLe(a: string, b: string)
    decreases |a|
  {
    a == [] || (b != [] && (a[0] < b[0] || (a[0] == b[0] && StrLe(a[1..], b[1..]))))
  }

  lemma {:induction false} StrLeTotal(a: string, b: string)
    ensures StrLe(a, b) || StrLe(b, a)
    decreases |a|
  {
    if a != [] && b != [] && a[0] == b[0] {
      StrLeTotal(a[1..], b[1..]);
    }
  }

  lemma {:induction false} StrLeTrans(a: string, b: string, c: string)
    requires StrLe(a, b) && StrLe(b, c)
    ensures StrLe(a, c)
    decreases |a|
  {
    if a != [] && a[0] == b[0] && b[0] == c[0] {
      StrLeTrans(a[1..], b[1..], c[1..]);
    }
  }

  predicate SortedStrings(s: seq<string>) {
    forall i :: 0 < i < |s| ==> StrLe(s[i - 1], s[i])
  }

  function InsertString(x: string, s: seq<string>): (r: seq<string>)
    requires SortedStrings(s)
    ensures SortedStrings(r)
    ensures multiset(r) == multiset(s) + multiset{x}
    ensures |r| == |s| + 1
    ensures r != [] && (r[0] == x || (s != [] && r[0] == s[0]))
  {
    if s == [] then [x]
    else if StrLe(x, s[0]) then [x] + s
    else
      StrLeTotal(x, s[0]);
      var t := InsertString(x, s[1..]);
      assert s == [s[0]] + s[1..];
      [s[0]] + t
  }

  /** The ids in ascending order (Array.prototype.sort with a comparator). */
  function SortStrings(s: seq<string>): (r: seq<string>)
    ensures SortedStrings(r)
    ensures multiset(r) == multiset(s)
  {
    if s == [] then []
    else
      assert s == [s[0]] + s[1..];
      InsertString(s[0], SortStrings(s[1..]))
  }

  /** `Math.round` on a finite number: halves round up, towards positive infinity. */
  function JsRound(x: real): (n: int)
    ensures x - 0.5 < n as real <= x + 0.5
  {
    (x + 0.5).Floor
  }

  // ---- number parsing -----------------------------------------------------

  predicate IsDigit(c: char) {
    '0' <= c <= '9'
  }

  /** Length of the leading run of decimal digits. */
  function ScanDigits(s: string): (n: nat)
    ensures n <= |s| && AllDigits(s[..n])
    ensures n < |s| ==> !IsDigit(s[n])
  {
    if s != [] && IsDigit(s[0]) then
      var m := ScanDigits(s[1..]);
      assert s[..1 + m] == [s[0]] + s[1..][..m];
      1 + m
    else 0
  }

  lemma {:induction false} ScanAllDigits(s: string)
    requires AllDigits(s)
    ensures ScanDigits(s) == |s|
  {
    if s != [] {
      ScanAllDigits(s[1..]);
    }
  }

  function Pow10(n: nat): (r: nat)
    ensures r >= 1
  {
    if n == 0 then 1 else 10 * Pow10(n - 1)
  }

  /** The value of the numeral `whole.frac`. */
  function DecimalValue(whole: string, frac: string): (v: real)
    requires AllDigits(whole) && AllDigits(frac)
    ensures v >= 0.0
  {
    DigitsValue(whole) as real + DigitsValue(frac) as real / Pow10(|frac|) as real
  }

  /**
   * An unsigned decimal literal at the head of `s` (digits, optionally a point and more
   * digits, at least one digit in all): its value and the number of characters it spans.
   */
  function UnsignedDecimalPrefix(s: string): (r: Option<(real, nat)>)
    ensures r.Some? ==> 0.0 <= r.value.0 && 1 <= r.value.1 <= |s|
  {
    var n := ScanDigits(s);
    if n < |s| && s[n] == '.' then PointNumeral(s[..n], s[n + 1..])
    else if n == 0 then None
    else Some((DigitsValue(s[..n]) as real, n))
  }

  /** The numeral `whole.digits` once a point has followed the digits `whole`; `rest` is the text after the point. */
  function PointNumeral(whole: string, rest: string): (r: Option<(real, nat)>)
    requires AllDigits(whole)
    ensures r.Some? ==> 0.0 <= r.value.0 && r.value.1 == |whole| + 1 + ScanDigits(rest)
  {
    var m := ScanDigits(rest);
    if |whole| + m == 0 then None
    else Some((DecimalValue(whole, rest[..m]), |whole| + 1 + m))
  }

  /** A decimal literal with an optional sign at the head of `s`. */
  function DecimalPrefix(s: string): (r: Option<(real, nat)>)
    ensures r.Some? ==> 1 <= r.value.1 <= |s|
  {
    if s != [] && (s[0] == '+' || s[0] == '-') then
      match UnsignedDecimalPrefix(s[1..])
      case None => None
      case Some(p) => Some((if s[0] == '-' then -p.0 else p.0, p.1 + 1))
    else UnsignedDecimalPrefix(s)
  }

  /**
   * `parseFloat(s)` restricted to decimal notation; `None` stands for NaN. Text whose first
   * non-blank character is a digit always gives a number; text that starts with anything
   * but a digit, a sign or a point gives NaN.
   */
  function ParseFloat(s: string): (r: Option<real>)
    ensures TrimStart(s) != [] && IsDigit(TrimStart(s)[0]) ==> r.Some?
    ensures TrimStart(s) == [] || !(IsDigit(TrimStart(s)[0]) || TrimStart(s)[0] in "+-.") ==> r.None?
  {
    DecimalPrefixLead(TrimStart(s));
    match DecimalPrefix(TrimStart(s))
    case None => None
    case Some(p) => Some(p.0)
  }

  /** `Number(s)` restricted to decimal notation: the whole trimmed text must be the literal; blank text gives 0. */
  function NumberValue(s: string): (r: Option<real>)
    ensures Trim(s) == [] ==> r == Some(0.0)
    ensures Trim(s) != [] && !(IsDigit(Trim(s)[0]) || Trim(s)[0] in "+-.") ==> r.None?
  {
    var t := Trim(s);
    DecimalPrefixLead(t);
    if t == [] then Some(0.0)
    else match DecimalPrefix(t)
      case Some(p) => if p.1 == |t| then Some(p.0) else None
      case None => None
  }

  lemma DigitsUntrimmed(s: string)
    requires s != [] && AllDigits(s)
    ensures TrimStart(s) == s && TrimEnd(s) == s
  {
    assert !IsJsWhitespace(s[0]);
    assert !IsJsWhitespace(s[|s| - 1]);
  }

  lemma DigitsAsDecimal(s: string)
    requires s != [] && AllDigits(s)
    ensures DecimalPrefix(s) == Some((DigitsValue(s) as real, |s|))
  {
    ScanAllDigits(s);
    assert s[..|s|] == s;
  }

  /** Decimal numerals read back exactly, by both `parseFloat` and `Number`. */
  lemma ParseNumeral(n: nat)
    ensures ParseFloat(NatToString(n)) == Some(n as real)
    ensures NumberValue(NatToString(n)) == Some(n as real)
  {
    var s := NatToString(n);
    DigitsUntrimmed(s);
    DigitsAsDecimal(s);
    NatToStringValue(n);
  }

  /** A digit run is not lengthened by text that starts with a non-digit. */
  lemma {:induction false} ScanDigitsAppend(t: string, w: string)
    requires ScanDigits(t) < |t| || w == [] || !IsDigit(w[0])
    ensures ScanDigits(t + w) == ScanDigits(t)
  {
    if t != [] && IsDigit(t[0]) {
      assert (t + w)[1..] == t[1..] + w;
      ScanDigitsAppend(t[1..], w);
    }
  }

  /** Slicing within `t` is not affected by what follows it. */
  lemma DropAppend(t: string, w: string, k: nat)
    requires k <= |t|
    ensures (t + w)[k..] == t[k..] + w
    ensures (t + w)[..k] == t[..k]
  {
  }

  /** A numeral that spans all of `t` reads the same when blanks follow it. */
  lemma UnsignedDecimalAppend(t: string, w: string, v: real)
    requires UnsignedDecimalPrefix(t) == Some((v, |t|))
    requires w == [] || IsJsWhitespace(w[0])
    ensures UnsignedDecimalPrefix(t + w) == Some((v, |t|))
  {
    var n := ScanDigits(t);
    if n < |t| && t[n] == '.' {
      PointAppend(t, w, n);
    } else {
      WholeAppend(t, w);
    }
  }

  /** A numeral with a point that spans all of `t` reads the same when a non-digit follows it. */
  lemma PointAppend(t: string, w: string, n: nat)
    requires n == ScanDigits(t) && n < |t| && t[n] == '.'
    requires n + 1 + ScanDigits(t[n + 1..]) == |t| && |t| >= 2
    requires w == [] || !IsDigit(w[0])
    ensures UnsignedDecimalPrefix(t + w) == UnsignedDecimalPrefix(t)
  {
    PointParts(t, w, n);
    SamePoint(t + w, t, n, ScanDigits(t[n + 1..]));
  }

  /** Two strings whose digit runs around a point agree hold the same numeral. */
  lemma SamePoint(a: string, b: string, n: nat, m: nat)
    requires ScanDigits(a) == n == ScanDigits(b) && n < |a| && n < |b| && a[n] == '.' && b[n] == '.'
    requires ScanDigits(a[n + 1..]) == m == ScanDigits(b[n + 1..]) && n + m != 0
    requires a[..n] == b[..n] && a[n + 1..][..m] == b[n + 1..][..m]
    ensures UnsignedDecimalPrefix(a) == UnsignedDecimalPrefix(b)
  {
    assert UnsignedDecimalPrefix(a) == PointNumeral(a[..n], a[n + 1..]);
    assert UnsignedDecimalPrefix(b) == PointNumeral(b[..n], b[n + 1..]);
    SameFraction(a[..n], a[n + 1..], b[n + 1..], m);
  }

  /** The numeral after a point depends only on the digit run that follows it. */
  lemma SameFraction(whole: string, ra: string, rb: string, m: nat)
    requires AllDigits(whole)
    requires ScanDigits(ra) == m == ScanDigits(rb) && ra[..m] == rb[..m]
    ensures PointNumeral(whole, ra) == PointNumeral(whole, rb)
  {
  }

  /** Blanks after a numeral with a point leave its digit runs as they are. */
  lemma PointParts(t: string, w: string, n: nat)
    requires n == ScanDigits(t) && n < |t| && t[n] == '.'
    requires n + 1 + ScanDigits(t[n + 1..]) == |t|
    requires w == [] || !IsDigit(w[0])
    ensures ScanDigits(t + w) == n && (t + w)[n] == '.'
    ensures ScanDigits((t + w)[n + 1..]) == ScanDigits(t[n + 1..])
    ensures (t + w)[..n] == t[..n]
    ensures (t + w)[n + 1..][..ScanDigits(t[n + 1..])] == t[n + 1..][..ScanDigits(t[n + 1..])]
  {
    var frac := t[n + 1..];
    var m := ScanDigits(frac);
    ScanDigitsAppend(t, w);
    DropAppend(t, w, n);
    DropAppend(t, w, n + 1);
    ScanDigitsAppend(frac, w);
    DropAppend(frac, w, m);
  }

  /** A digit run that spans all of `t` reads the same when neither a digit nor a point follows it. */
  lemma WholeAppend(t: string, w: string)
    requires ScanDigits(t) == |t| != 0
    requires w == [] || (!IsDigit(w[0]) && w[0] != '.')
    ensures UnsignedDecimalPrefix(t + w) == UnsignedDecimalPrefix(t)
  {
    var u := t + w;
    ScanDigitsAppend(t, w);
    DropAppend(t, w, |t|);
    assert |t| < |u| ==> u[|t|] == w[0];
  }

  /** Which leading characters decide the outcome of `DecimalPrefix` on their own. */
  lemma DecimalPrefixLead(t: string)
    ensures t != [] && IsDigit(t[0]) ==> DecimalPrefix(t).Some?
    ensures t == [] || !(IsDigit(t[0]) || t[0] in "+-.") ==> DecimalPrefix(t).None?
  {
    DecimalPrefixCases(t);
    if t != [] && IsDigit(t[0]) {
      assert t[0] != '+' && t[0] != '-';
      assert ScanDigits(t) >= 1;
      assert UnsignedDecimalPrefix(t).Some?;
    } else if t == [] || !(IsDigit(t[0]) || t[0] in "+-.") {
      assert ScanDigits(t) == 0;
      assert UnsignedDecimalPrefix(t).None?;
    }
  }

  /** `DecimalPrefix` by the first character: a sign applies to the unsigned numeral after it; otherwise the numeral is unsigned. */
  lemma DecimalPrefixCases(t: string)
    ensures !(t != [] && (t[0] == '+' || t[0] == '-')) ==> DecimalPrefix(t) == UnsignedDecimalPrefix(t)
    ensures t != [] && (t[0] == '+' || t[0] == '-') ==>
      (DecimalPrefix(t).Some? <==> UnsignedDecimalPrefix(t[1..]).Some?)
    ensures t != [] && (t[0] == '+' || t[0] == '-') && DecimalPrefix(t).Some? ==>
      var p := UnsignedDecimalPrefix(t[1..]).value;
      DecimalPrefix(t).value == (if t[0] == '-' then -p.0 else p.0, p.1 + 1)
  {
  }

  /** A signed numeral that spans all of `t` reads the same when blanks follow it. */
  lemma DecimalAppend(t: string, w: string, v: real)
    requires DecimalPrefix(t) == Some((v, |t|))
    requires w == [] || IsJsWhitespace(w[0])
    ensures DecimalPrefix(t + w) == Some((v, |t|))
  {
    DecimalPrefixCases(t);
    DecimalPrefixCases(t + w);
    assert (t + w)[0] == t[0];
    if t[0] == '+' || t[0] == '-' {
      SignedAppend(t, w);
    } else {
      UnsignedDecimalAppend(t, w, v);
    }
  }

  /** The unsigned numeral after a sign that spans the rest of `t` reads the same when blanks follow. */
  lemma SignedAppend(t: string, w: string)
    requires t != [] && UnsignedDecimalPrefix(t[1..]).Some? && UnsignedDecimalPrefix(t[1..]).value.1 + 1 == |t|
    requires w == [] || IsJsWhitespace(w[0])
    ensures UnsignedDecimalPrefix((t + w)[1..]) == UnsignedDecimalPrefix(t[1..])
  {
    DropAppend(t, w, 1);
    UnsignedDecimalAppend(t[1..], w, UnsignedDecimalPrefix(t[1..]).value.0);
  }

  /**
   * Whenever `Number` reads a value from non-blank text, `parseFloat` reads the same one,
   * so the `parseFloat` fallback of `parseProb` only matters where `Number` gives NaN.
   */
  lemma NumberAgreesWithParseFloat(s: string)
    requires Trim(s) != [] && NumberValue(s).Some?
    ensures ParseFloat(s) == NumberValue(s)
  {
    var v := NumberValue(s).value;
    NumberSpans(s, v);
    TrailingBlanks(TrimStart(s), v);
  }

  /** A numeral `Number` accepts spans the whole trimmed text. */
  lemma NumberSpans(s: string, v: real)
    requires Trim(s) != [] && NumberValue(s) == Some(v)
    ensures DecimalPrefix(Trim(s)) == Some((v, |Trim(s)|))
  {
  }

  /** Blanks after a numeral that spans the text before them do not change it. */
  lemma TrailingBlanks(t0: string, v: real)
    requires DecimalPrefix(TrimEnd(t0)) == Some((v, |TrimEnd(t0)|))
    ensures DecimalPrefix(t0) == Some((v, |TrimEnd(t0)|))
  {
    var t := TrimEnd(t0);
    var w := t0[|t|..];
    TrimEndDropsBlanks(t0);
    assert t0 == t + w;
    DecimalAppend(t, w, v);
  }

  // ---- hexadecimal ------------------------------------------------------------

  function HexDigitValue(c: char): Option<nat> {
    if '0' <= c <= '9' then Some(c as int - 48)
    else if 'a' <= c <= 'f' then Some(c as int - 87)
    else if 'A' <= c <= 'F' then Some(c as int - 55)
    else None
  }

  /** Length of the leading run of hexadecimal digits. */
  function ScanHex(s: string): (n: nat)
    ensures n <= |s|
  {
    if s != [] && HexDigitValue(s[0]).Some? then 1 + ScanHex(s[1..]) else 0
  }

  /** The run `ScanHex` measures is made of hexadecimal digits and is as long as it can be. */
  lemma {:induction false} ScanHexRun(s: string)
    ensures forall i :: 0 <= i < ScanHex(s) ==> HexDigitValue(s[i]).Some?
    ensures ScanHex(s) < |s| ==> HexDigitValue(s[ScanHex(s)]).None?
    decreases |s|
  {
    if s != [] && HexDigitValue(s[0]).Some? {
      ScanHexRun(s[1..]);
      assert forall i :: 1 <= i < |s| ==> s[1..][i - 1] == s[i];
    }
  }

  /** The value of a run of hexadecimal digits, most significant first. */
  function HexValue(s: string): nat {
    if s == [] then 0
    else
      var d := HexDigitValue(s[|s| - 1]);
      16 * HexValue(s[..|s| - 1]) + (if d.Some? then d.value else 0)
  }

  /** `parseInt(s, 16)`: leading whitespace skipped, then a sign, an optional 0x prefix and the longest hex-digit run; `None` is NaN. */
  function ParseIntHex(s: string): (r: Option<int>)
    ensures s == [] ==> r.None?
    ensures s != [] && (forall i :: 0 <= i < |s| ==> HexDigitValue(s[i]).Some?) ==> r == Some(HexValue(s))
    ensures s != [] && !IsJsWhitespace(s[0]) && s[0] != '+' && s[0] != '-' && HexDigitValue(s[0]).None? ==> r.None?
  {
    ScanHexRun(s);
    if s != [] && IsJsWhitespace(s[0]) then ParseIntHex(s[1..])
    else
      assert s != [] && (forall i :: 0 <= i < |s| ==> HexDigitValue(s[i]).Some?) ==>
        ScanHex(s) == |s| && s[..|s|] == s && (|s| < 2 || HexDigitValue(s[1]).Some?);
      ParseSignedHex(s)
  }

  /** `parseInt(t, 16)` once the leading whitespace is gone. */
  function ParseSignedHex(t: string): (r: Option<int>)
  {
    var neg := t != [] && t[0] == '-';
    var u := if t != [] && (t[0] == '+' || t[0] == '-') then t[1..] else t;
    var v := if |u| >= 2 && u[0] == '0' && (u[1] == 'x' || u[1] == 'X') then u[2..] else u;
    var n := ScanHex(v);
    if n == 0 then None
    else
      var magnitude: int := HexValue(v[..n]);
      Some(if neg then -magnitude else magnitude)
  }

  /** Two hexadecimal digits parse to their value 16·a + b. */
  lemma ParseHexPair(s: string)
    requires |s| == 2 && HexDigitValue(s[0]).Some? && HexDigitValue(s[1]).Some?
    ensures ParseIntHex(s) == Some(16 * HexDigitValue(s[0]).value + HexDigitValue(s[1]).value)
  {
    assert !IsJsWhitespace(s[0]);
    assert ScanHex(s[1..]) == 1;
    assert ScanHex(s) == 2;
    assert s[..2] == s && s[..1] == [s[0]] && [s[0]][..0] == [];
    assert HexValue([s[0]]) == HexDigitValue(s[0]).value;
  }

  /** ASCII lower-casing (`toLowerCase` on the hex colour strings the engine compares). */
  function ToLowerAscii(s: string): (r: string)
    ensures |r| == |s|
    ensures forall i :: 0 <= i < |s| ==> r[i] == (if 'A' <= s[i] <= 'Z' then (s[i] as int + 32) as char else s[i])
  {
    seq(|s|, i requires 0 <= i < |s| => if 'A' <= s[i] <= 'Z' then (s[i] as int + 32) as char else s[i])
  }
}
