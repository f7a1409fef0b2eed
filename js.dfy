/**
 * The JavaScript built-ins that the bot's label and lookup code relies on, stated with
 * their ECMAScript meaning on strings: truthiness and `||`, `String(v)`, `trim()`,
 * `replace(/\D/g, '')`, `/^\d+$/.test`, `substring`, `split(/\s+/)`, `parseInt(s, 10)`,
 * number-to-text conversion and a lower-cased `startsWith`.
 */
module Js {
  import opened Base

  /**
   * A JavaScript value as it reaches the core: `undefined`, `null`, a string, or a number
   * (only whole numbers occur: the price column holds rupiah amounts).
   */
  datatype Value = Undefined | Null | Str(s: string) | Num(n: int)

  /** A value that is not a number: what the text columns and JSON text fields hold. */
  type Text = v: Value | !v.Num? witness Undefined

  /** JavaScript truthiness: `undefined`, `null`, `''` and `0` are falsy. */
  predicate Truthy(v: Value) {
    (v.Str? && v.s != []) || (v.Num? && v.n != 0)
  }

  /** `a || b` */
  function Or(a: Value, b: Value): Value {
    if Truthy(a) then a else b
  }

  /** `a || 'fallback'` where the fallback is a string literal. */
  function OrText(a: Value, fallback: string): string {
    if Truthy(a) then ToString(a) else fallback
  }

  /** `String(v)` */
  function ToString(v: Value): string {
    match v
    case Undefined => "undefined"
    case Null => "null"
    case Str(s) => s
    case Num(n) => IntToString(n)
  }

  // ---------------------------------------------------------------------------
  // Whitespace and trim()

  /**
   * The characters ECMAScript counts as WhiteSpace or LineTerminator: the set removed by
   * `trim()` and matched by `\s` in a regular expression.
   */
  predicate IsSpace(c: char) {
    || c == '\t' || c == '\n' || c == '\U{000B}' || c == '\U{000C}' || c == '\r'
    || c == ' ' || c == '\U{00A0}' || c == '\U{1680}'
    || ('\U{2000}' <= c <= '\U{200A}')
    || c == '\U{2028}' || c == '\U{2029}' || c == '\U{202F}' || c == '\U{205F}'
    || c == '\U{3000}' || c == '\U{FEFF}'
  }

  predicate NoSpace(s: string) {
    forall i :: 0 <= i < |s| ==> !IsSpace(s[i])
  }

  predicate AllSpace(s: string) {
    forall i :: 0 <= i < |s| ==> IsSpace(s[i])
  }

  /** Removes the leading whitespace of `s`. */
  function TrimStart(s: string): (r: string)
    ensures |r| <= |s|
    ensures forall i :: 0 <= i < |s| - |r| ==> IsSpace(s[i])
    ensures r != [] ==> !IsSpace(r[0])
  {
    if s != [] && IsSpace(s[0]) then TrimStart(s[1..]) else s
  }

  /** Removes the trailing whitespace of `s`. */
  function TrimEnd(s: string): (r: string)
    ensures |r| <= |s|
    ensures forall i :: |r| <= i < |s| ==> IsSpace(s[i])
    ensures r != [] ==> !IsSpace(r[|r| - 1])
  {
    if s != [] && IsSpace(s[|s| - 1]) then TrimEnd(s[..|s| - 1]) else s
  }

  /** What `TrimStart` leaves is the end of `s`. */
  lemma {:induction false} TrimStartSuffix(s: string)
    ensures TrimStart(s) == s[|s| - |TrimStart(s)|..]
    decreases |s|
  {
    if s != [] && IsSpace(s[0]) {
      TrimStartSuffix(s[1..]);
      assert s[1..][|s| - 1 - |TrimStart(s[1..])|..] == s[|s| - |TrimStart(s)|..];
    }
  }

  /** What `TrimEnd` leaves is the start of `s`. */
  lemma {:induction false} TrimEndPrefix(s: string)
    ensures TrimEnd(s) == s[..|TrimEnd(s)|]
    decreases |s|
  {
    if s != [] && IsSpace(s[|s| - 1]) {
      TrimEndPrefix(s[..|s| - 1]);
      assert s[..|s| - 1][..|TrimEnd(s)|] == s[..|TrimEnd(s)|];
    }
  }

  /**
   * `s.trim()`: a contiguous piece of `s` with no whitespace at either end, where everything
   * cut from either side is whitespace.
   */
  function Trim(s: string): (r: string)
    ensures |r| <= |s|
    ensures r != [] ==> !IsSpace(r[0]) && !IsSpace(r[|r| - 1])
    ensures exists a :: 0 <= a <= |s| - |r| && r == s[a..a + |r|]
                        && AllSpace(s[..a]) && AllSpace(s[a + |r|..])
  {
    TrimEndPrefix(TrimStart(s));
    TrimPiece(s, |s| - |TrimStart(s)|);
    TrimEnd(TrimStart(s))
  }

  /** `TrimEnd(TrimStart(s))` is the piece of `s` at offset `a`, with whitespace on both sides. */
  lemma TrimPiece(s: string, a: nat)
    requires a == |s| - |TrimStart(s)|
    ensures var r := TrimEnd(TrimStart(s));
            && a + |r| <= |s| && r == s[a..a + |r|] && AllSpace(s[..a]) && AllSpace(s[a + |r|..])
  {
    var t := TrimStart(s);
    var r := TrimEnd(t);
    TrimStartSuffix(s);
    TrimEndPrefix(t);
    assert t == s[a..];
    assert r == s[a..a + |r|];
    assert s[a + |r|..] == t[|r|..];
  }

  /** `s.trim()` is empty exactly when `s` is all whitespace (the blank test of the source). */
  lemma TrimEmptyIffAllSpace(s: string)
    ensures Trim(s) == [] <==> AllSpace(s)
  {
    var t := TrimStart(s);
    TrimStartSuffix(s);
    TrimEndPrefix(t);
    assert t != [] ==> t[0] == s[|s| - |t|] && IsSpace(t[0]) == (TrimEnd(t) == []);
  }

  /** Text that does not start with whitespace has nothing to remove at its start. */
  lemma TrimStartKeeps(s: string)
    requires s == [] || !IsSpace(s[0])
    ensures TrimStart(s) == s
  {
  }

  /** Text that does not end with whitespace has nothing to remove at its end. */
  lemma TrimEndKeeps(s: string)
    requires s == [] || !IsSpace(s[|s| - 1])
    ensures TrimEnd(s) == s
  {
  }

  /** A string without whitespace is its own trim. */
  lemma TrimNoSpace(s: string)
    requires NoSpace(s)
    ensures Trim(s) == s
  {
    TrimStartKeeps(s);
    TrimEndKeeps(s);
  }

  /** Trimming twice is trimming once. */
  lemma TrimIdempotent(s: string)
    ensures Trim(Trim(s)) == Trim(s)
  {
    var r := Trim(s);
    if r != [] {
      assert TrimStart(r) == r;
      assert TrimEnd(r) == r;
    }
  }

  // ---------------------------------------------------------------------------
  // Digits

  predicate IsDigit(c: char) {
    '0' <= c <= '9'
  }

  predicate DigitsOnlyText(s: string) {
    forall i :: 0 <= i < |s| ==> IsDigit(s[i])
  }

  /** `/^\d+$/.test(s)`: a non-empty string of ASCII digits. */
  predicate AllDigits(s: string) {
    s != [] && DigitsOnlyText(s)
  }

  /** `s.replace(/\D/g, '')`: the digits of `s`, in order. */
  function DigitsOnly(s: string): (r: string)
    ensures |r| <= |s|
    ensures DigitsOnlyText(r)
    ensures r == s <==> DigitsOnlyText(s)
    ensures r == [] <==> forall i :: 0 <= i < |s| ==> !IsDigit(s[i])
  {
    if s == [] then []
    else (if IsDigit(s[0]) then [s[0]] else []) + DigitsOnly(s[1..])
  }

  // ---------------------------------------------------------------------------
  // substring()

  function Clamp(x: int, len: nat): nat {
    if x < 0 then 0 else if x > len then len else x
  }

  /** `s.substring(start, end)`: both bounds clamped to the string, swapped when reversed. */
  function Substring(s: string, start: int, end: int): string {
    var a := Clamp(start, |s|);
    var b := Clamp(end, |s|);
    if a <= b then s[a..b] else s[b..a]
  }

  /** `s.substring(start)` */
  function SubstringFrom(s: string, start: int): string {
    Substring(s, start, |s|)
  }

  /** `s.length > n ? s.substring(0, n) : s`: the prefix of `s` of length min(|s|, n). */
  function Truncate(s: string, n: nat): (r: string)
    ensures |r| == Min(|s|, n)
    ensures r == s[..|r|]
    ensures |s| <= n ==> r == s
  {
    if |s| > n then Substring(s, 0, n) else s
  }

  /** An unconditional `s.substring(0, n)` cuts exactly like the guarded truncation. */
  lemma SubstringIsTruncate(s: string, n: nat)
    ensures Substring(s, 0, n) == Truncate(s, n)
  {
  }

  // ---------------------------------------------------------------------------
  // split(/\s+/)

  /** Index of the first whitespace at or after `i`, or |s|. */
  function FirstSpace(s: string, i: nat): (k: nat)
    requires i <= |s|
    ensures i <= k <= |s|
    ensures forall m :: i <= m < k ==> !IsSpace(s[m])
    ensures k < |s| ==> IsSpace(s[k])
    decreases |s| - i
  {
    if i == |s| || IsSpace(s[i]) then i else FirstSpace(s, i + 1)
  }

  /** Index of the first non-whitespace at or after `i`, or |s|. */
  function SkipSpaces(s: string, i: nat): (k: nat)
    requires i <= |s|
    ensures i <= k <= |s|
    ensures forall m :: i <= m < k ==> IsSpace(s[m])
    ensures k < |s| ==> !IsSpace(s[k])
    decreases |s| - i
  {
    if i == |s| || !IsSpace(s[i]) then i else SkipSpaces(s, i + 1)
  }

  /**
   * `s.split(/\s+/)`: the pieces between maximal whitespace runs. An empty string gives
   * `['']`, and leading or trailing whitespace gives an empty first or last piece.
   */
  function SplitWs(s: string): (r: seq<string>)
    ensures |r| >= 1
    ensures forall k :: 0 <= k < |r| ==> NoSpace(r[k])
    decreases |s|
  {
    var i := FirstSpace(s, 0);
    if i == |s| then [s]
    else [s[..i]] + SplitWs(s[SkipSpaces(s, i)..])
  }

  function RemoveSpaces(s: string): string {
    if s == [] then [] else (if IsSpace(s[0]) then [] else [s[0]]) + RemoveSpaces(s[1..])
  }

  function Concat(ts: seq<string>): string {
    if ts == [] then [] else ts[0] + Concat(ts[1..])
  }

  lemma {:induction false} RemoveSpacesAppend(a: string, b: string)
    ensures RemoveSpaces(a + b) == RemoveSpaces(a) + RemoveSpaces(b)
    decreases |a|
  {
    if a == [] {
      assert a + b == b;
    } else {
      assert (a + b)[1..] == a[1..] + b;
      RemoveSpacesAppend(a[1..], b);
    }
  }

  lemma {:induction false} RemoveSpacesOfNoSpace(s: string)
    requires NoSpace(s)
    ensures RemoveSpaces(s) == s
    decreases |s|
  {
    if s != [] {
      RemoveSpacesOfNoSpace(s[1..]);
    }
  }

  lemma {:induction false} RemoveSpacesOfAllSpace(s: string)
    requires AllSpace(s)
    ensures RemoveSpaces(s) == []
    decreases |s|
  {
    if s != [] {
      RemoveSpacesOfAllSpace(s[1..]);
    }
  }

  /** The pieces of `split(/\s+/)` are, in order, exactly the non-whitespace text of `s`. */
  lemma {:induction false} SplitWsKeepsText(s: string)
    ensures Concat(SplitWs(s)) == RemoveSpaces(s)
    decreases |s|
  {
    var i := FirstSpace(s, 0);
    if i == |s| {
      RemoveSpacesOfNoSpace(s);
    } else {
      var j := SkipSpaces(s, i);
      RemoveSpacesAtRun(s, i, j);
      SplitWsKeepsText(s[j..]);
      var rest := SplitWs(s[j..]);
      assert SplitWs(s) == [s[..i]] + rest;
      assert ([s[..i]] + rest)[1..] == rest;
    }
  }

  /** A word, a run of whitespace, and the rest: removing whitespace keeps the word and the rest's text. */
  lemma {:induction false} RemoveSpacesAtRun(s: string, i: nat, j: nat)
    requires i <= j <= |s|
    requires NoSpace(s[..i]) && AllSpace(s[i..j])
    ensures RemoveSpaces(s) == s[..i] + RemoveSpaces(s[j..])
  {
    var word, run, rest := s[..i], s[i..j], s[j..];
    assert s == word + (run + rest);
    RemoveSpacesOfParts(word, run, rest);
  }

  lemma {:induction false} RemoveSpacesOfParts(word: string, run: string, rest: string)
    requires NoSpace(word) && AllSpace(run)
    ensures RemoveSpaces(word + (run + rest)) == word + RemoveSpaces(rest)
  {
    RemoveSpacesAppend(word, run + rest);
    RemoveSpacesAppend(run, rest);
    RemoveSpacesOfNoSpace(word);
    RemoveSpacesOfAllSpace(run);
  }

  /** A string with no whitespace at either end splits into non-empty pieces. */
  lemma {:induction false} SplitWsOfTrimmed(s: string)
    requires s != [] && !IsSpace(s[0]) && !IsSpace(s[|s| - 1])
    ensures forall k :: 0 <= k < |SplitWs(s)| ==> SplitWs(s)[k] != []
    decreases |s|
  {
    var i := FirstSpace(s, 0);
    if i < |s| {
      var j := SkipSpaces(s, i);
      assert !IsSpace(s[|s| - 1]) && i <= |s| - 1;
      assert j < |s|;
      SplitWsOfTrimmed(s[j..]);
    }
  }

  /** A string with no whitespace at either end is its own trim. */
  lemma TrimOfTrimmed(s: string)
    requires s != [] && !IsSpace(s[0]) && !IsSpace(s[|s| - 1])
    ensures Trim(s) == s
  {
    assert TrimStart(s) == s;
  }

  /** Leading whitespace does not change the trim. */
  lemma TrimAfterSpace(c: char, s: string)
    requires IsSpace(c)
    ensures Trim([c] + s) == Trim(s)
  {
    assert ([c] + s)[1..] == s;
  }

  /** Removing leading whitespace leaves the non-whitespace text unchanged. */
  lemma RemoveSpacesOfTrimStart(s: string)
    ensures RemoveSpaces(TrimStart(s)) == RemoveSpaces(s)
  {
    var t := TrimStart(s);
    TrimStartSuffix(s);
    var lead := s[..|s| - |t|];
    assert s == lead + t;
    assert AllSpace(lead) by {
      forall i | 0 <= i < |lead| ensures IsSpace(lead[i]) {
        assert lead[i] == s[i];
      }
    }
    RemoveSpacesAppend(lead, t);
    RemoveSpacesOfAllSpace(lead);
  }

  /** Removing trailing whitespace leaves the non-whitespace text unchanged. */
  lemma RemoveSpacesOfTrimEnd(t: string)
    ensures RemoveSpaces(TrimEnd(t)) == RemoveSpaces(t)
  {
    var r := TrimEnd(t);
    TrimEndPrefix(t);
    var trail := t[|r|..];
    assert t == r + trail;
    assert AllSpace(trail) by {
      forall i | 0 <= i < |trail| ensures IsSpace(trail[i]) {
        assert trail[i] == t[|r| + i];
      }
    }
    RemoveSpacesAppend(r, trail);
    RemoveSpacesOfAllSpace(trail);
  }

  /** Trimming removes only whitespace: the non-whitespace text is unchanged. */
  lemma RemoveSpacesOfTrim(s: string)
    ensures RemoveSpaces(Trim(s)) == RemoveSpaces(s)
  {
    RemoveSpacesOfTrimStart(s);
    RemoveSpacesOfTrimEnd(TrimStart(s));
  }

  /** `ts.join(' ')` */
  function JoinSpaces(ts: seq<string>): string {
    if ts == [] then []
    else if |ts| == 1 then ts[0]
    else ts[0] + " " + JoinSpaces(ts[1..])
  }

  /** Words joined by single spaces begin with the first word and end with the last. */
  lemma {:induction false} JoinSpacesEnds(ts: seq<string>)
    requires ts != [] && forall k :: 0 <= k < |ts| ==> ts[k] != []
    ensures JoinSpaces(ts) != []
    ensures JoinSpaces(ts)[0] == ts[0][0]
    ensures JoinSpaces(ts)[|JoinSpaces(ts)| - 1] == ts[|ts| - 1][|ts[|ts| - 1]| - 1]
    decreases |ts|
  {
    if |ts| > 1 {
      JoinSpacesEnds(ts[1..]);
    }
  }

  /** A word, one space and a rest starting with a non-space split into the word and the rest's pieces. */
  lemma SplitWsAtSpace(a: string, b: string)
    requires NoSpace(a)
    requires b == [] || !IsSpace(b[0])
    ensures SplitWs(a + " " + b) == [a] + SplitWs(b)
  {
    var s := a + " " + b;
    assert s[|a|] == ' ';
    var i := FirstSpace(s, 0);
    assert forall m :: 0 <= m < |a| ==> s[m] == a[m];
    assert i == |a|;
    var j := SkipSpaces(s, i);
    assert b != [] ==> s[|a| + 1] == b[0];
    assert j == |a| + 1;
    assert s[..i] == a && s[j..] == b;
  }

  /**
   * `split(/\s+/)` undoes `join(' ')` on non-empty words without whitespace: the two are
   * inverse on the argument lists of a chat command.
   */
  lemma {:induction false} SplitWsOfJoin(ts: seq<string>)
    requires ts != [] && forall k :: 0 <= k < |ts| ==> ts[k] != [] && NoSpace(ts[k])
    ensures SplitWs(JoinSpaces(ts)) == ts
    decreases |ts|
  {
    if |ts| == 1 {
      var i := FirstSpace(ts[0], 0);
      assert i == |ts[0]|;
    } else {
      SplitWsOfJoin(ts[1..]);
      JoinSpacesEnds(ts[1..]);
      SplitWsAtSpace(ts[0], JoinSpaces(ts[1..]));
      assert [ts[0]] + ts[1..] == ts;
    }
  }

  // ---------------------------------------------------------------------------
  // Numbers as text: parseInt(s, 10) and `${n}`

  function DigitValue(c: char): nat
    requires IsDigit(c)
  {
    (c as int) - ('0' as int)
  }

  function DigitChar(d: nat): (c: char)
    requires d < 10
    ensures IsDigit(c) && DigitValue(c) == d
  {
    (('0' as int) + d) as char
  }

  /** The longest prefix of `s` made of digits. */
  function LeadingDigits(s: string): (r: string)
    ensures |r| <= |s| && r == s[..|r|]
    ensures DigitsOnlyText(r)
    ensures |r| < |s| ==> !IsDigit(s[|r|])
  {
    if s != [] && IsDigit(s[0]) then [s[0]] + LeadingDigits(s[1..]) else []
  }

  /** The number a string of decimal digits denotes. */
  function DecimalValue(ds: string): nat
    requires DigitsOnlyText(ds)
  {
    if ds == [] then 0 else DecimalValue(ds[..|ds| - 1]) * 10 + DigitValue(ds[|ds| - 1])
  }

  /**
   * `parseInt(s, 10)`; `None` stands for NaN. Leading whitespace is skipped, one sign is
   * accepted, and the longest digit prefix is read; text after it is ignored.
   */
  function ParseInt(s: string): Option<int> {
    ParseSigned(TrimStart(s))
  }

  /** `parseInt` once the leading whitespace is gone: an optional sign, then the digit prefix. */
  function ParseSigned(t: string): Option<int> {
    var negative := t != [] && t[0] == '-';
    var body := if t != [] && (t[0] == '-' || t[0] == '+') then t[1..] else t;
    var ds := LeadingDigits(body);
    if ds == [] then None
    else Some(if negative then -(DecimalValue(ds) as int) else DecimalValue(ds))
  }

  /** Decimal text of a natural number, as `${n}` writes it. */
  function NatToString(n: nat): (r: string)
    ensures r != [] && DigitsOnlyText(r)
  {
    if n < 10 then [DigitChar(n)] else NatToString(n / 10) + [DigitChar(n % 10)]
  }

  /** Decimal text of an integer, as `${n}` writes it. */
  function IntToString(n: int): string {
    if n < 0 then "-" + NatToString(-n) else NatToString(n)
  }

  lemma {:induction false} DecimalValueOfNatToString(n: nat)
    ensures DecimalValue(NatToString(n)) == n
    decreases n
  {
    if n >= 10 {
      var a := NatToString(n / 10);
      var s := a + [DigitChar(n % 10)];
      assert s[..|s| - 1] == a;
      DecimalValueOfNatToString(n / 10);
    }
  }

  lemma {:induction false} LeadingDigitsOfDigits(s: string)
    requires DigitsOnlyText(s)
    ensures LeadingDigits(s) == s
    decreases |s|
  {
    if s != [] {
      LeadingDigitsOfDigits(s[1..]);
    }
  }

  /** The digit prefix of digits followed by a non-digit is exactly those digits. */
  lemma {:induction false} LeadingDigitsStop(d: string, r: string)
    requires DigitsOnlyText(d)
    requires r == [] || !IsDigit(r[0])
    ensures LeadingDigits(d + r) == d
    decreases |d|
  {
    if d != [] {
      assert (d + r)[1..] == d[1..] + r;
      LeadingDigitsStop(d[1..], r);
    }
  }

  /** The longest run of decimal digits that ends `s`. */
  function TrailingDigits(s: string): (r: string)
    ensures |r| <= |s|
  {
    if s != [] && IsDigit(s[|s| - 1]) then TrailingDigits(s[..|s| - 1]) + [s[|s| - 1]] else []
  }

  /** The digit suffix of a non-digit followed by digits is exactly those digits. */
  lemma {:induction false} TrailingDigitsStop(l: string, d: string)
    requires DigitsOnlyText(d)
    requires l == [] || !IsDigit(l[|l| - 1])
    ensures TrailingDigits(l + d) == d
    decreases |d|
  {
    if d != [] {
      var n := |d| - 1;
      var s, init := l + d, l + d[..n];
      assert s[|s| - 1] == d[n] && IsDigit(d[n]);
      assert s[..|s| - 1] == init;
      TrailingDigitsStop(l, d[..n]);
      assert TrailingDigits(s) == TrailingDigits(init) + [d[n]];
      assert d[..n] + [d[n]] == d;
    }
  }

  /** A digit string, with or without a minus sign in front, reads as its value or its negation. */
  lemma ParseSignedDigits(digits: string)
    requires AllDigits(digits)
    ensures ParseSigned(digits) == Some(DecimalValue(digits))
    ensures ParseSigned("-" + digits) == Some(-(DecimalValue(digits) as int))
  {
    var s := "-" + digits;
    assert s[1..] == digits;
    LeadingDigitsOfDigits(digits);
  }

  lemma ParseIntOfDigits(digits: string)
    requires AllDigits(digits)
    ensures ParseInt(digits) == Some(DecimalValue(digits))
  {
    TrimStartKeeps(digits);
    ParseSignedDigits(digits);
  }

  lemma ParseIntOfNegated(digits: string)
    requires AllDigits(digits)
    ensures ParseInt("-" + digits) == Some(-(DecimalValue(digits) as int))
  {
    TrimStartKeeps("-" + digits);
    ParseSignedDigits(digits);
  }

  lemma ParseIntOfNegativeText(n: int)
    requires n < 0
    ensures ParseInt("-" + NatToString(-n)) == Some(n)
  {
    DecimalValueOfNatToString(-n);
    ParseIntOfNegated(NatToString(-n));
  }

  /** parseInt reads back exactly the number that `${n}` wrote. */
  lemma ParseIntOfIntToString(n: int)
    ensures ParseInt(IntToString(n)) == Some(n)
  {
    if n < 0 {
      ParseIntOfNegativeText(n);
    } else {
      DecimalValueOfNatToString(n);
      ParseIntOfDigits(NatToString(n));
    }
  }

  /** `${n}` is one non-empty word. */
  lemma IntToStringIsWord(n: int)
    ensures IntToString(n) != [] && NoSpace(IntToString(n))
  {
    var d := NatToString(if n < 0 then -n else n);
    assert forall i :: 0 <= i < |d| ==> IsDigit(d[i]);
    if n < 0 {
      assert IntToString(n) == "-" + d;
    }
  }

  // ---------------------------------------------------------------------------
  // s.toLowerCase().startsWith(prefix)

  /**
   * The lower-case mapping restricted to what can produce an ASCII letter: A-Z and the
   * Kelvin sign (U+212A), whose lower case is `k`. Every other character either stays
   * itself or lower-cases to something that is not ASCII.
   */
  function LowerForPrefix(c: char): char {
    if 'A' <= c <= 'Z' then ((c as int) + 32) as char
    else if c == '\U{212A}' then 'k'
    else c
  }

  /** `s.toLowerCase().startsWith(prefix)` for an ASCII lower-case `prefix`. */
  predicate StartsWithIgnoreCase(s: string, prefix: string) {
    |prefix| <= |s| && forall i :: 0 <= i < |prefix| ==> LowerForPrefix(s[i]) == prefix[i]
  }
}
