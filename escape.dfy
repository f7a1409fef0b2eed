/**
 * Escaping of text before it is embedded in SVG markup. The source writes every escaper
 * as a chain of global `replace` calls, `&` first. Two variants exist: the 3-character
 * `esc` (`& < >`) and the 5-character one (`& < > " '`), the latter with or without the
 * `|| ''` guard for falsy input. The chains are proved equal to a per-character entity
 * table, safe for markup, and inverted by an XML parser's entity decoding.
 */
module Escape {
  import opened Js

  /** `s.replace(/c/g, rep)` for a one-character pattern. */
  function ReplaceAll(s: string, c: char, rep: string): string
    decreases |s|
  {
    if s == [] then [] else (if s[0] == c then rep else [s[0]]) + ReplaceAll(s[1..], c, rep)
  }

  lemma {:induction false} ReplaceAllAppend(a: string, b: string, c: char, rep: string)
    ensures ReplaceAll(a + b, c, rep) == ReplaceAll(a, c, rep) + ReplaceAll(b, c, rep)
    decreases |a|
  {
    if a == [] {
      assert a + b == b;
    } else {
      assert (a + b)[1..] == a[1..] + b;
      ReplaceAllAppend(a[1..], b, c, rep);
    }
  }

  lemma {:induction false} ReplaceAllAbsent(s: string, c: char, rep: string)
    requires c !in s
    ensures ReplaceAll(s, c, rep) == s
    decreases |s|
  {
    if s != [] {
      ReplaceAllAbsent(s[1..], c, rep);
    }
  }

  /** The chain `.replace(/&/g,'&amp;').replace(/</g,'&lt;').replace(/>/g,'&gt;')`. */
  function EscapeChain3(s: string): string {
    ReplaceAll(ReplaceAll(ReplaceAll(s, '&', "&amp;"), '<', "&lt;"), '>', "&gt;")
  }

  /** The 3-character chain followed by `.replace(/"/g,'&quot;').replace(/'/g,'&#39;')`. */
  function EscapeChain5(s: string): string {
    ReplaceAll(ReplaceAll(EscapeChain3(s), '"', "&quot;"), '\'', "&#39;")
  }

  // ---------------------------------------------------------------------------
  // Reference definition: one entity per character

  function Entity3(c: char): string {
    if c == '&' then "&amp;"
    else if c == '<' then "&lt;"
    else if c == '>' then "&gt;"
    else [c]
  }

  function Entity5(c: char): string {
    if c == '"' then "&quot;"
    else if c == '\'' then "&#39;"
    else Entity3(c)
  }

  function EscapeEach3(s: string): string {
    if s == [] then [] else Entity3(s[0]) + EscapeEach3(s[1..])
  }

  function EscapeEach5(s: string): string {
    if s == [] then [] else Entity5(s[0]) + EscapeEach5(s[1..])
  }

  lemma EscapeChain3Append(a: string, b: string)
    ensures EscapeChain3(a + b) == EscapeChain3(a) + EscapeChain3(b)
  {
    var r1a, r1b := ReplaceAll(a, '&', "&amp;"), ReplaceAll(b, '&', "&amp;");
    ReplaceAllAppend(a, b, '&', "&amp;");
    var r2a, r2b := ReplaceAll(r1a, '<', "&lt;"), ReplaceAll(r1b, '<', "&lt;");
    ReplaceAllAppend(r1a, r1b, '<', "&lt;");
    ReplaceAllAppend(r2a, r2b, '>', "&gt;");
  }

  lemma EscapeChain5Append(a: string, b: string)
    ensures EscapeChain5(a + b) == EscapeChain5(a) + EscapeChain5(b)
  {
    EscapeChain3Append(a, b);
    var r3a, r3b := EscapeChain3(a), EscapeChain3(b);
    ReplaceAllAppend(r3a, r3b, '"', "&quot;");
    ReplaceAllAppend(ReplaceAll(r3a, '"', "&quot;"), ReplaceAll(r3b, '"', "&quot;"), '\'', "&#39;");
  }

  lemma ReplaceAllOfChar(c: char, x: char, rep: string)
    ensures ReplaceAll([c], x, rep) == if c == x then rep else [c]
  {
    assert [c][1..] == [];
  }

  lemma EscapeChain3OfChar(c: char)
    ensures EscapeChain3([c]) == Entity3(c)
  {
    ReplaceAllOfChar(c, '&', "&amp;");
    if c == '&' {
      assert '<' !in "&amp;" && '>' !in "&amp;";
      ReplaceAllAbsent("&amp;", '<', "&lt;");
      ReplaceAllAbsent("&amp;", '>', "&gt;");
    } else {
      ReplaceAllOfChar(c, '<', "&lt;");
      if c == '<' {
        assert '>' !in "&lt;";
        ReplaceAllAbsent("&lt;", '>', "&gt;");
      } else {
        ReplaceAllOfChar(c, '>', "&gt;");
      }
    }
  }

  lemma EscapeChain5OfChar(c: char)
    ensures EscapeChain5([c]) == Entity5(c)
  {
    EscapeChain3OfChar(c);
    var r3 := Entity3(c);
    if c == '"' {
      assert ReplaceAll(r3, '"', "&quot;") == "&quot;";
      ReplaceAllAbsent("&quot;", '\'', "&#39;");
    } else if c == '\'' {
      ReplaceAllAbsent(r3, '"', "&quot;");
      assert ReplaceAll(r3, '\'', "&#39;") == "&#39;";
    } else {
      ReplaceAllAbsent(r3, '"', "&quot;");
      ReplaceAllAbsent(r3, '\'', "&#39;");
    }
  }

  /** Replacing `&` first makes the chain act character by character. */
  lemma {:induction false} EscapeChain3IsPerChar(s: string)
    ensures EscapeChain3(s) == EscapeEach3(s)
    decreases |s|
  {
    if s != [] {
      assert s == [s[0]] + s[1..];
      EscapeChain3Append([s[0]], s[1..]);
      EscapeChain3OfChar(s[0]);
      EscapeChain3IsPerChar(s[1..]);
    }
  }

  /** The same for the 5-character chain: no replacement re-introduces a replaced character. */
  lemma {:induction false} EscapeChain5IsPerChar(s: string)
    ensures EscapeChain5(s) == EscapeEach5(s)
    decreases |s|
  {
    if s != [] {
      assert s == [s[0]] + s[1..];
      EscapeChain5Append([s[0]], s[1..]);
      EscapeChain5OfChar(s[0]);
      EscapeChain5IsPerChar(s[1..]);
    }
  }

  // ---------------------------------------------------------------------------
  // Safety for markup

  predicate HasPrefix(t: string, p: string) {
    |p| <= |t| && t[..|p|] == p
  }

  predicate StartsEntity3(t: string) {
    HasPrefix(t, "&amp;") || HasPrefix(t, "&lt;") || HasPrefix(t, "&gt;")
  }

  predicate StartsEntity5(t: string) {
    StartsEntity3(t) || HasPrefix(t, "&quot;") || HasPrefix(t, "&#39;")
  }

  /** Text fit for an SVG text node: no `<` or `>`, and every `&` begins `&amp;`, `&lt;` or `&gt;`. */
  predicate SafeText3(t: string) {
    forall i :: 0 <= i < |t| ==>
      t[i] != '<' && t[i] != '>' && (t[i] == '&' ==> StartsEntity3(t[i..]))
  }

  /** Text fit for markup and attributes: none of `< > " '`, and every `&` begins one of the five entities. */
  predicate SafeText5(t: string) {
    forall i :: 0 <= i < |t| ==>
      t[i] != '<' && t[i] != '>' && t[i] != '"' && t[i] != '\''
      && (t[i] == '&' ==> StartsEntity5(t[i..]))
  }

  lemma PrependEntity3(c: char, r: string)
    requires SafeText3(r)
    ensures SafeText3(Entity3(c) + r)
  {
    var p := Entity3(c);
    var t := p + r;
    forall i | 0 <= i < |t|
      ensures t[i] != '<' && t[i] != '>' && (t[i] == '&' ==> StartsEntity3(t[i..]))
    {
      if i < |p| {
        assert t[..|p|] == p;
        if i == 0 {
          assert t[0..] == t;
        }
      } else {
        assert t[i] == r[i - |p|];
        assert t[i..] == r[i - |p|..];
      }
    }
  }

  lemma PrependEntity5(c: char, r: string)
    requires SafeText5(r)
    ensures SafeText5(Entity5(c) + r)
  {
    var p := Entity5(c);
    var t := p + r;
    forall i | 0 <= i < |t|
      ensures t[i] != '<' && t[i] != '>' && t[i] != '"' && t[i] != '\''
              && (t[i] == '&' ==> StartsEntity5(t[i..]))
    {
      if i < |p| {
        assert t[..|p|] == p;
        if i == 0 {
          assert t[0..] == t;
        }
      } else {
        assert t[i] == r[i - |p|];
        assert t[i..] == r[i - |p|..];
      }
    }
  }

  lemma {:induction false} EscapeEach3Safe(s: string)
    ensures SafeText3(EscapeEach3(s))
    decreases |s|
  {
    if s != [] {
      EscapeEach3Safe(s[1..]);
      PrependEntity3(s[0], EscapeEach3(s[1..]));
    }
  }

  lemma {:induction false} EscapeEach5Safe(s: string)
    ensures SafeText5(EscapeEach5(s))
    decreases |s|
  {
    if s != [] {
      EscapeEach5Safe(s[1..]);
      PrependEntity5(s[0], EscapeEach5(s[1..]));
    }
  }

  // ---------------------------------------------------------------------------
  // Reading the markup back: XML's predefined entities

  /** How an XML parser reads character data: each of the five predefined entities is one character. */
  function DecodeEntities(t: string): string
    decreases |t|
  {
    if t == [] then []
    else if HasPrefix(t, "&amp;") then "&" + DecodeEntities(t[5..])
    else if HasPrefix(t, "&lt;") then "<" + DecodeEntities(t[4..])
    else if HasPrefix(t, "&gt;") then ">" + DecodeEntities(t[4..])
    else if HasPrefix(t, "&quot;") then "\"" + DecodeEntities(t[6..])
    else if HasPrefix(t, "&#39;") then "'" + DecodeEntities(t[5..])
    else [t[0]] + DecodeEntities(t[1..])
  }

  lemma DecodeNamed(e: string, c: char, r: string)
    requires (e, c) in {("&amp;", '&'), ("&lt;", '<'), ("&gt;", '>'), ("&quot;", '"'), ("&#39;", '\'')}
    ensures DecodeEntities(e + r) == [c] + DecodeEntities(r)
  {
    var t := e + r;
    assert t[..|e|] == e;
    assert t[|e|..] == r;
    assert t[1] == e[1];
    if e == "&gt;" || e == "&quot;" || e == "&#39;" {
      assert !HasPrefix(t, "&amp;");
      assert !HasPrefix(t, "&lt;");
    }
    if e == "&quot;" || e == "&#39;" {
      assert !HasPrefix(t, "&gt;");
    }
    if e == "&#39;" {
      assert !HasPrefix(t, "&quot;");
    }
  }

  /** Text that does not start with `&` does not start with an entity. */
  lemma NotEntityAt(t: string, e: string)
    requires t != [] && t[0] != '&' && e != [] && e[0] == '&'
    ensures !HasPrefix(t, e)
  {
  }

  lemma DecodeLiteral(c: char, r: string)
    requires c != '&'
    ensures DecodeEntities([c] + r) == [c] + DecodeEntities(r)
  {
    var t := [c] + r;
    assert t[0] == c;
    NotEntityAt(t, "&amp;");
    NotEntityAt(t, "&lt;");
    NotEntityAt(t, "&gt;");
    NotEntityAt(t, "&quot;");
    NotEntityAt(t, "&#39;");
    assert t[1..] == r;
  }

  lemma DecodeEntity5(c: char, r: string)
    ensures DecodeEntities(Entity5(c) + r) == [c] + DecodeEntities(r)
  {
    if c == '&' {
      DecodeNamed("&amp;", c, r);
    } else if c == '<' {
      DecodeNamed("&lt;", c, r);
    } else if c == '>' {
      DecodeNamed("&gt;", c, r);
    } else if c == '"' {
      DecodeNamed("&quot;", c, r);
    } else if c == '\'' {
      DecodeNamed("&#39;", c, r);
    } else {
      DecodeLiteral(c, r);
    }
  }

  lemma DecodeEntity3(c: char, r: string)
    ensures DecodeEntities(Entity3(c) + r) == [c] + DecodeEntities(r)
  {
    if c == '"' || c == '\'' {
      DecodeLiteral(c, r);
    } else {
      DecodeEntity5(c, r);
    }
  }

  /** An XML parser reads back exactly the text that the 3-character escaper was given. */
  lemma {:induction false} DecodeEscapeEach3(s: string)
    ensures DecodeEntities(EscapeEach3(s)) == s
    decreases |s|
  {
    if s != [] {
      DecodeEntity3(s[0], EscapeEach3(s[1..]));
      DecodeEscapeEach3(s[1..]);
    }
  }

  /** An XML parser reads back exactly the text that the 5-character escaper was given. */
  lemma {:induction false} DecodeEscapeEach5(s: string)
    ensures DecodeEntities(EscapeEach5(s)) == s
    decreases |s|
  {
    if s != [] {
      DecodeEntity5(s[0], EscapeEach5(s[1..]));
      DecodeEscapeEach5(s[1..]);
    }
  }

  // ---------------------------------------------------------------------------
  // The escapers as the source files call them

  /**
   * `esc(s)` of bot.js, bot-db-old.js, test-real-data.js and generate-samples.js:
   * `String(s || '')` through the 3-character chain.
   */
  function Esc3(v: Value): (r: string)
    ensures SafeText3(r)
    ensures DecodeEntities(r) == OrText(v, "")
    ensures !Truthy(v) ==> r == []
  {
    var s := OrText(v, "");
    EscapeChain3IsPerChar(s);
    EscapeEach3Safe(s);
    DecodeEscapeEach3(s);
    EscapeChain3(s)
  }

  /**
   * `escapeXml(s)` of lib/core.js and `esc(s)` of test-bulk-new.js, test-with-images.js and
   * test-plu.js: `String(s || '')` through the 5-character chain.
   */
  function Esc5(v: Value): (r: string)
    ensures SafeText5(r)
    ensures DecodeEntities(r) == OrText(v, "")
    ensures !Truthy(v) ==> r == []
  {
    var s := OrText(v, "");
    EscapeChain5IsPerChar(s);
    EscapeEach5Safe(s);
    DecodeEscapeEach5(s);
    EscapeChain5(s)
  }

  /**
   * `esc(s)` of test-bulk.js: `String(s)` with no falsy guard through the 5-character
   * chain, so `undefined` becomes the text "undefined".
   */
  function Esc5Unguarded(v: Value): (r: string)
    ensures SafeText5(r)
    ensures DecodeEntities(r) == ToString(v)
    ensures v == Undefined ==> r == "undefined"
  {
    var s := ToString(v);
    EscapeChain5IsPerChar(s);
    EscapeEach5Safe(s);
    DecodeEscapeEach5(s);
    EscapeUndefined();
    EscapeChain5(s)
  }

  /** Text without any of the five special characters passes through the chain unchanged. */
  lemma PlainTextUnchanged5(s: string)
    requires forall i :: 0 <= i < |s| ==> s[i] !in "&<>\"'"
    ensures EscapeChain5(s) == s
  {
    ReplaceAllAbsent(s, '&', "&amp;");
    ReplaceAllAbsent(s, '<', "&lt;");
    ReplaceAllAbsent(s, '>', "&gt;");
    ReplaceAllAbsent(s, '"', "&quot;");
    ReplaceAllAbsent(s, '\'', "&#39;");
  }

  lemma EscapeUndefined()
    ensures EscapeChain5("undefined") == "undefined"
  {
    var u := "undefined";
    assert '&' !in u && '<' !in u && '>' !in u && '"' !in u && '\'' !in u;
    ReplaceAllAbsent(u, '&', "&amp;");
    ReplaceAllAbsent(u, '<', "&lt;");
    ReplaceAllAbsent(u, '>', "&gt;");
    ReplaceAllAbsent(u, '"', "&quot;");
    ReplaceAllAbsent(u, '\'', "&#39;");
  }

  /**
   * The 3-character escaper leaves every text without `&`, `<` or `>` as it is; in particular,
   * unlike the 5-character one, it keeps quotes.
   */
  lemma Esc3KeepsQuotes(s: string)
    requires forall i :: 0 <= i < |s| ==> s[i] != '&' && s[i] != '<' && s[i] != '>'
    ensures Esc3(Str(s)) == s
    ensures Esc3(Str("\"'")) == "\"'"
  {
    assert '&' !in "\"'" && '<' !in "\"'" && '>' !in "\"'";
    ReplaceAllAbsent("\"'", '&', "&amp;");
    ReplaceAllAbsent("\"'", '<', "&lt;");
    ReplaceAllAbsent("\"'", '>', "&gt;");
    ReplaceAllAbsent(s, '&', "&amp;");
    ReplaceAllAbsent(s, '<', "&lt;");
    ReplaceAllAbsent(s, '>', "&gt;");
  }
}
