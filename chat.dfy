/**
 * The routing rules of the message handler that bot.js and bot-db-old.js share: a trimmed
 * message starting (case-insensitively) with `.plu` is a multi-lookup, one starting with
 * `.bulk` asks for a batch of labels, and anything else is a single product lookup.
 */
module Chat {
  import opened Base
  import opened Js
  import opened Externals
  import opened Catalog

  /** What a chat message asks for. */
  datatype Command =
    | PluUsage                              // `.plu` with nothing after it
    | PluSearch(tokens: seq<string>)        // `.plu a b c`: one lookup per word
    | BulkUsage                             // `.bulk` with a missing, non-numeric or out-of-range quantity
    | Bulk(qty: int, code: Option<string>)  // `.bulk <qty> [code]`
    | Lookup(text: string)                  // anything else: one lookup of the whole message

  /** The replies both handlers send word for word. */
  const PluUsageText := "Format: .plu <plu1> <plu2> ..."
  const BulkUsageText := "Format: .bulk <qty> [plu]\nContoh: .bulk 10 10000019"
  const NoProductText := "Produk tidak ditemukan"
  const BulkErrorText := "\U{274C} Error membuat bulk"
  const LabelErrorText := "\U{274C} Error membuat barcode"

  /** The largest quantity `.bulk` accepts. */
  const MaxChatQty: int := 100

  /**
   * `substring(4).trim().split(/\s+/)`: the words after `.plu`. The first word is empty
   * exactly when nothing but whitespace follows; otherwise every word is non-empty, and the
   * words are, in order, the non-whitespace text after the command.
   */
  function PluWords(text: string): (r: seq<string>)
    ensures r != []
    ensures r[0] == [] <==> AllSpace(SubstringFrom(text, 4))
    ensures r[0] != [] ==> forall k :: 0 <= k < |r| ==> r[k] != [] && NoSpace(r[k])
    ensures Concat(r) == RemoveSpaces(SubstringFrom(text, 4))
  {
    var after := SubstringFrom(text, 4);
    var rest := Trim(after);
    TrimEmptyIffAllSpace(after);
    SplitWsKeepsText(rest);
    RemoveSpacesOfTrim(after);
    if rest != [] then SplitWsOfTrimmed(rest); SplitWs(rest)
    else
      assert SplitWs(rest) == [[]];
      SplitWs(rest)
  }

  /** `split(/\s+/).slice(1)` of a trimmed message: its words after the command, none empty. */
  function BulkArguments(text: string): (r: seq<string>)
    requires text != [] && !IsSpace(text[0]) && !IsSpace(text[|text| - 1])
    ensures forall k :: 0 <= k < |r| ==> r[k] != [] && NoSpace(r[k])
  {
    SplitWsOfTrimmed(text);
    SplitWs(text)[1..]
  }

  /** `parseInt(parts[0], 10)`, NaN (`None`) when there is no first argument. */
  function QtyArgument(parts: seq<string>): Option<int> {
    if parts == [] then None else ParseInt(parts[0])
  }

  /** The `.plu` branch: the usage reply when nothing follows the command, else the search. */
  function PluCommand(text: string): (c: Command)
    ensures c.PluUsage? || c.PluSearch?
    ensures c.PluUsage? <==> AllSpace(SubstringFrom(text, 4))
    ensures c.PluSearch? ==> c.tokens == PluWords(text) && c.tokens[0] != []
  {
    var words := PluWords(text);
    if words[0] == [] then PluUsage else PluSearch(words)
  }

  /**
   * The `.bulk` branch: `!qty || qty <= 0 || qty > 100` is the usage reply; otherwise the
   * second argument, when present, is the code to look up.
   */
  function BulkCommand(text: string): (c: Command)
    requires text != [] && !IsSpace(text[0]) && !IsSpace(text[|text| - 1])
    ensures c.BulkUsage? || c.Bulk?
    ensures c.Bulk? ==> 1 <= c.qty <= MaxChatQty
    ensures c.Bulk? ==> QtyArgument(BulkArguments(text)) == Some(c.qty)
    ensures c.Bulk? && c.code.Some? ==> c.code.value != [] && NoSpace(c.code.value)
  {
    var parts := BulkArguments(text);
    var qty := QtyArgument(parts);
    if qty.None? || qty.value <= 0 || qty.value > MaxChatQty then BulkUsage
    else Bulk(qty.value, if |parts| > 1 && parts[1] != [] then Some(parts[1]) else None)
  }

  /** The handler's dispatch on `msg.body.trim()`: `.plu` first, then `.bulk`, then a plain lookup. */
  function ParseCommand(body: string): (c: Command)
    ensures c.PluUsage? || c.PluSearch? <==> StartsWithIgnoreCase(Trim(body), ".plu")
    ensures c.BulkUsage? || c.Bulk? <==>
              !StartsWithIgnoreCase(Trim(body), ".plu") && StartsWithIgnoreCase(Trim(body), ".bulk")
    ensures c.Lookup? ==> c.text == Trim(body)
  {
    var text := Trim(body);
    if StartsWithIgnoreCase(text, ".plu") then PluCommand(text)
    else if StartsWithIgnoreCase(text, ".bulk") then BulkCommand(text)
    else Lookup(text)
  }

  lemma DotPluPrefix(s: string)
    requires |s| >= 4 && s[..4] == ".plu"
    ensures StartsWithIgnoreCase(s, ".plu")
  {
    assert forall i :: 0 <= i < 4 ==> s[i] == ".plu"[i];
  }

  lemma TrimAfterCommand(j: string)
    requires j != [] && !IsSpace(j[0]) && !IsSpace(j[|j| - 1])
    ensures Trim(SubstringFrom(".plu " + j, 4)) == j
  {
    var after := SubstringFrom(".plu " + j, 4);
    assert after == [' '] + j;
    TrimAfterSpace(' ', j);
    TrimOfTrimmed(j);
  }

  lemma TrimSpaceThenJoin(tokens: seq<string>)
    requires tokens != [] && forall k :: 0 <= k < |tokens| ==> tokens[k] != [] && NoSpace(tokens[k])
    ensures Trim(SubstringFrom(".plu " + JoinSpaces(tokens), 4)) == JoinSpaces(tokens)
  {
    JoinSpacesEnds(tokens);
    TrimAfterCommand(JoinSpaces(tokens));
  }

  lemma PluWordsOfJoin(tokens: seq<string>)
    requires tokens != [] && forall k :: 0 <= k < |tokens| ==> tokens[k] != [] && NoSpace(tokens[k])
    ensures PluWords(".plu " + JoinSpaces(tokens)) == tokens
  {
    TrimSpaceThenJoin(tokens);
    SplitWsOfJoin(tokens);
  }

  /** `.plu` followed by words joined by spaces asks for exactly those words, in that order. */
  lemma ParsePluOfJoin(tokens: seq<string>)
    requires tokens != [] && forall k :: 0 <= k < |tokens| ==> tokens[k] != [] && NoSpace(tokens[k])
    ensures ParseCommand(".plu " + JoinSpaces(tokens)) == PluSearch(tokens)
  {
    var j := JoinSpaces(tokens);
    JoinSpacesEnds(tokens);
    PluMessageTrimmed(j);
    PluWordsOfJoin(tokens);
    ParsePluOfWords(".plu " + j);
  }

  /** A trimmed `.plu` message with words after the command asks for those words. */
  lemma ParsePluOfWords(msg: string)
    requires Trim(msg) == msg && StartsWithIgnoreCase(msg, ".plu") && PluWords(msg)[0] != []
    ensures ParseCommand(msg) == PluSearch(PluWords(msg))
  {
  }

  /** `.plu` followed by text with no whitespace at its end is already trimmed and starts with the command. */
  lemma PluMessageTrimmed(j: string)
    requires j != [] && !IsSpace(j[|j| - 1])
    ensures Trim(".plu " + j) == ".plu " + j
    ensures StartsWithIgnoreCase(".plu " + j, ".plu")
  {
    PluMessageEnds(j);
    TrimOfTrimmed(".plu " + j);
    DotPluPrefix(".plu " + j);
  }

  lemma PluMessageEnds(j: string)
    requires j != [] && !IsSpace(j[|j| - 1])
    ensures var m := ".plu " + j;
            && m != [] && !IsSpace(m[0]) && !IsSpace(m[|m| - 1])
            && |m| >= 4 && m[..4] == ".plu"
  {
    var m := ".plu " + j;
    assert m[0] == '.' && m[|m| - 1] == j[|j| - 1];
  }

  /** `.plu` with only whitespace after it is the usage case. */
  lemma ParsePluAlone(blank: string)
    requires AllSpace(blank)
    ensures ParseCommand(".plu" + blank) == PluUsage
  {
    var msg := ".plu" + blank;
    assert TrimStart(msg) == msg;
    var t := TrimEnd(msg);
    TrimEndPrefix(msg);
    assert forall i :: 4 <= i < |msg| ==> IsSpace(msg[i]);
    assert !IsSpace(msg[3]);
    assert |t| == 4;
    assert t == ".plu";
    DotPluPrefix(t);
  }

  lemma DotBulkPrefix(s: string)
    requires |s| >= 5 && s[..5] == ".bulk"
    ensures StartsWithIgnoreCase(s, ".bulk") && !StartsWithIgnoreCase(s, ".plu")
  {
    assert forall i :: 0 <= i < 5 ==> s[i] == ".bulk"[i];
    assert LowerForPrefix(s[1]) != 'p';
  }

  /** `.bulk <qty> [code]` with single spaces is its own trim and splits back into its arguments. */
  lemma BulkMessage(qty: int, args: seq<string>)
    requires forall k :: 0 <= k < |args| ==> args[k] != [] && NoSpace(args[k])
    ensures var msg := JoinSpaces([".bulk", IntToString(qty)] + args);
            && msg != [] && !IsSpace(msg[0]) && !IsSpace(msg[|msg| - 1])
            && Trim(msg) == msg
            && |msg| >= 5 && msg[..5] == ".bulk"
            && BulkArguments(msg) == [IntToString(qty)] + args
  {
    IntToStringIsWord(qty);
    var words := [".bulk", IntToString(qty)] + args;
    assert forall k :: 0 <= k < |words| ==> words[k] != [] && NoSpace(words[k]);
    var msg := JoinSpaces(words);
    JoinSpacesEnds(words);
    TrimOfTrimmed(msg);
    SplitWsOfJoin(words);
    assert words[1..] == [IntToString(qty)] + args;
    assert msg == ".bulk" + " " + JoinSpaces(words[1..]);
  }

  lemma BulkCommandOfArguments(text: string, qty: int, args: seq<string>)
    requires text != [] && !IsSpace(text[0]) && !IsSpace(text[|text| - 1])
    requires BulkArguments(text) == [IntToString(qty)] + args
    ensures BulkCommand(text)
            == if 1 <= qty <= MaxChatQty then Bulk(qty, if args == [] || args[0] == [] then None else Some(args[0]))
               else BulkUsage
  {
    ParseIntOfIntToString(qty);
  }

  /**
   * `.bulk <qty> [code]` written out with single spaces is accepted exactly when the
   * quantity is in 1..100, and then carries that quantity and that code.
   */
  lemma ParseBulkOfJoin(qty: int, args: seq<string>)
    requires |args| <= 1 && forall k :: 0 <= k < |args| ==> args[k] != [] && NoSpace(args[k])
    ensures ParseCommand(JoinSpaces([".bulk", IntToString(qty)] + args))
            == if 1 <= qty <= MaxChatQty then Bulk(qty, if args == [] then None else Some(args[0]))
               else BulkUsage
  {
    var msg := JoinSpaces([".bulk", IntToString(qty)] + args);
    BulkMessage(qty, args);
    DotBulkPrefix(msg);
    BulkCommandOfArguments(msg, qty, args);
  }

  /** The outgoing messages of one handled message, in the order they are sent. */
  datatype Outgoing =
    | Say(text: string)
    | SendImage(image: Image, filename: string, caption: string)

  /** `lines.join('\n')` */
  function JoinLines(lines: seq<string>): string {
    if lines == [] then []
    else if |lines| == 1 then lines[0]
    else lines[0] + "\n" + JoinLines(lines[1..])
  }

  /** The text split at every newline: the inverse reading of a joined reply. */
  function Lines(s: string): (r: seq<string>)
    ensures r != []
    decreases |s|
  {
    if s == [] then [[]]
    else if s[0] == '\n' then [[]] + Lines(s[1..])
    else
      var rest := Lines(s[1..]);
      [[s[0]] + rest[0]] + rest[1..]
  }

  predicate OneLine(s: string) {
    forall i :: 0 <= i < |s| ==> s[i] != '\n'
  }

  lemma LinesCons(c: char, s: string)
    requires c != '\n'
    ensures Lines([c] + s) == [[c] + Lines(s)[0]] + Lines(s)[1..]
  {
    assert ([c] + s)[1..] == s;
  }

  lemma {:induction false} LinesOfOneLine(a: string, b: string)
    requires OneLine(a)
    ensures Lines(a + b) == [a + Lines(b)[0]] + Lines(b)[1..]
    decreases |a|
  {
    if a == [] {
      assert a + b == b;
      assert [] + Lines(b)[0] == Lines(b)[0];
      assert [Lines(b)[0]] + Lines(b)[1..] == Lines(b);
    } else {
      assert a + b == [a[0]] + (a[1..] + b);
      LinesCons(a[0], a[1..] + b);
      LinesOfOneLine(a[1..], b);
      assert [a[0]] + (a[1..] + Lines(b)[0]) == a + Lines(b)[0];
    }
  }

  lemma LinesAfterNewline(s: string)
    ensures Lines("\n" + s) == [[]] + Lines(s)
  {
    assert ("\n" + s)[1..] == s;
  }

  /** Reading the reply back line by line gives the result lines, as long as none holds a newline. */
  lemma {:induction false} LinesOfJoin(lines: seq<string>)
    requires lines != [] && forall k :: 0 <= k < |lines| ==> OneLine(lines[k])
    ensures Lines(JoinLines(lines)) == lines
    decreases |lines|
  {
    if |lines| == 1 {
      LinesOfOneLine(lines[0], []);
      assert lines[0] + [] == lines[0];
    } else {
      LinesOfJoin(lines[1..]);
      var rest := JoinLines(lines[1..]);
      LinesAfterNewline(rest);
      LinesOfOneLine(lines[0], "\n" + rest);
      assert JoinLines(lines) == lines[0] + ("\n" + rest);
      assert lines[0] + [] == lines[0];
      assert [lines[0]] + lines[1..] == lines;
    }
  }

  /** One entry of the `.plu` reply: `✅ <word>: <name>` or `❌ <word>: Tidak ditemukan`. */
  function PluResultLine(token: string, found: Option<Product>): string {
    match found
    case Some(p) => "\U{2705} " + token + ": " + ToString(Or(p.productName, p.nama))
    case None => "\U{274C} " + token + ": Tidak ditemukan"
  }

  /** A result line names its word and says whether it was found. */
  lemma PluResultLineShape(token: string, found: Option<Product>)
    ensures var line := PluResultLine(token, found);
            && |line| >= |token| + 4
            && line[2..|token| + 2] == token
            && line[|token| + 2..|token| + 4] == ": "
            && (line[0] == '\U{2705}' <==> found.Some?)
            && (line[0] == '\U{274C}' <==> found.None?)
  {
  }

  /** `*Hasil Pencarian:*\n\n${results.join('\n')}` */
  function SearchReply(lines: seq<string>): string {
    "*Hasil Pencarian:*\n\n" + JoinLines(lines)
  }

  /** A one-line header, a blank line, then a body: the header, the empty line, the body's lines. */
  lemma LinesOfHeader(header: string, body: string)
    requires OneLine(header)
    ensures Lines(header + "\n\n" + body) == [header, ""] + Lines(body)
  {
    LinesAfterNewline(body);
    LinesAfterNewline("\n" + body);
    LinesOfOneLine(header, "\n\n" + body);
    assert header + "\n\n" + body == header + ("\n" + ("\n" + body));
    assert "\n\n" + body == "\n" + ("\n" + body);
    assert header + [] == header;
  }

  lemma SearchHeaderOneLine()
    ensures OneLine("*Hasil Pencarian:*")
  {
  }

  /** The search reply is its two header lines followed by exactly the result lines. */
  lemma SearchReplyLines(lines: seq<string>)
    requires lines != [] && forall k :: 0 <= k < |lines| ==> OneLine(lines[k])
    ensures Lines(SearchReply(lines)) == ["*Hasil Pencarian:*", ""] + lines
  {
    LinesOfJoin(lines);
    SearchHeaderOneLine();
    LinesOfHeader("*Hasil Pencarian:*", JoinLines(lines));
    assert SearchReply(lines) == "*Hasil Pencarian:*" + "\n\n" + JoinLines(lines);
  }
}
