/**
 * bot-db-old.js: the earlier database bot. Its lookup reads the raw query with no cache and
 * no digit retry; its label is an information block over the barcode, sized by options with
 * defaults; its bulk sheet repeats a two-layer label `qty` times down the canvas; its handler
 * keeps only the barcode cache and the last product of each chat.
 */
module BotDbOld {
  import opened Base
  import opened Js
  import opened Escape
  import opened Externals
  import opened Raster
  import opened Layout
  import opened Barcode
  import opened Catalog
  import opened Chat
  import opened Label

  /** `esc(s)` wrote `plain`: the text is markup-safe and reads back as `plain`. */
  predicate Escaped3(t: string, plain: string) {
    SafeText3(t) && DecodeEntities(t) == plain
  }

  /** A fixed label followed by an escaped value: the label, then text that decodes to the value. */
  lemma LabelledEscaped(tag: string, plain: string)
    ensures var t := tag + Esc3(Str(plain));
            |t| >= |tag| && t[..|tag|] == tag && Escaped3(t[|tag|..], plain)
  {
    DropPrefix(tag, Esc3(Str(plain)));
  }

  /** The code both generators render: the barcode when it is not blank, else the PLU, else `N/A`. */
  function Code(p: Product): string {
    CodeToRender(p.barcode, p.plu)
  }

  // ---------------------------------------------------------------------------
  // createBarcodeImage(product, options)

  /** What a caller may pass; a missing option is `None`. */
  datatype Options = Options(
    targetWidth: Option<nat>, sidePadding: Option<nat>, barcodeScale: Option<nat>, barcodeHeight: Option<nat>)

  /** The sizes in effect once every option has taken its default. */
  datatype Settings = Settings(targetWidth: nat, sidePadding: nat, barcodeScale: nat, barcodeHeight: nat)

  /**
   * `options.x || d`: an absent option and an option of 0 both take the default, so the
   * value in effect is never 0 when the default is not.
   */
  function OrDefault(o: Option<nat>, d: nat): (r: nat)
    ensures r == d <==> o.None? || o.value == 0 || o.value == d
    ensures d != 0 ==> r != 0
  {
    if o.Some? && o.value != 0 then o.value else d
  }

  /** The defaults: width 1000, side padding 60, scale 2, bar height 10. */
  function Effective(o: Options): (s: Settings)
    ensures s.targetWidth != 0 && s.sidePadding != 0 && s.barcodeScale != 0 && s.barcodeHeight != 0
    ensures o == Options(None, None, None, None) ==> s == Settings(1000, 60, 2, 10)
  {
    Settings(OrDefault(o.targetWidth, 1000), OrDefault(o.sidePadding, 60),
             OrDefault(o.barcodeScale, 2), OrDefault(o.barcodeHeight, 10))
  }

  /** The options `sendBarcodeInfo` passes: `{ barcodeHeight: 10 }`. */
  const InfoOptions := Options(None, None, None, Some(10))

  /** The height of the information block. */
  const InfoHeight: nat := 100

  /** The block over the barcode: `PLU: <plu>`, the name and `Barcode: <code>`, each escaped, none cut. */
  function InfoBlock(p: Product, width: nat): (r: Image)
    ensures r.width == width && r.height == InfoHeight && r.content.Markup?
    ensures var t := r.content.texts;
            && |t| == 3
            && |t[0]| >= 5 && t[0][..5] == "PLU: " && Escaped3(t[0][5..], OrText(p.plu, "N/A"))
            && Escaped3(t[1], DisplayName(p))
            && |t[2]| >= 9 && t[2][..9] == "Barcode: " && Escaped3(t[2][9..], Code(p))
  {
    LabelledEscaped("PLU: ", OrText(p.plu, "N/A"));
    LabelledEscaped("Barcode: ", Code(p));
    TextBlock(width, InfoHeight, ["PLU: " + Esc3(Str(OrText(p.plu, "N/A"))), Esc3(Str(DisplayName(p))),
                                  "Barcode: " + Esc3(Str(Code(p)))])
  }

  /**
   * The label once the barcode is encoded and sharp accepts the width: the barcode resized to
   * at most `targetWidth - 2 * sidePadding`, the information block at the top and the barcode
   * at 115 from the top and `sidePadding` from the left, on a canvas `100 + bh + 30` high. The
   * block fills the top 100 pixels, the barcode starts 15 below it, ends 15 above the bottom
   * and lies between the side paddings.
   */
  function InfoCanvas(env: Env, p: Product, png: Image, s: Settings): (r: Image)
    requires s.targetWidth - 2 * s.sidePadding >= 1
    ensures r.width == s.targetWidth && r.content.Composite?
    ensures var layers := r.content.layers;
            && |layers| == 2
            && layers[0] == Layer(0, 0, InfoBlock(p, s.targetWidth))
            && layers[0].image.height + 15 == layers[1].top
            && layers[1].top + layers[1].image.height + 15 == r.height
            && layers[1].left == s.sidePadding
            && layers[1].left + layers[1].image.width + s.sidePadding <= r.width
            && layers[1].image.width == Min(png.width, s.targetWidth - 2 * s.sidePadding)
  {
    var bc := ResizeToWidth(env, png, s.targetWidth - 2 * s.sidePadding, true);
    Image(s.targetWidth, InfoHeight + bc.height + 30, Composite("#ffffff", [
      Layer(0, 0, InfoBlock(p, s.targetWidth)), Layer(InfoHeight + 15, s.sidePadding, bc)]))
  }

  /** sharp rejects a resize width below 1; otherwise the label. */
  function InfoLabel(env: Env, p: Product, png: Image, s: Settings): (r: Result<Image, Failure>)
    ensures var w := s.targetWidth - 2 * s.sidePadding;
            && (w < 1 <==> r.Err?)
            && (r.Err? ==> r.error == ResizeRejected(w))
  {
    var w := s.targetWidth - 2 * s.sidePadding;
    if w < 1 then Err(ResizeRejected(w)) else Ok(InfoCanvas(env, p, png, s))
  }

  /** The encoder request: the code, its symbology, and the scale and bar height in effect. */
  function InfoRequest(p: Product, s: Settings): EncodeRequest {
    EncodeRequest(ChooseBcid(Code(p)), Code(p), s.barcodeScale as real, s.barcodeHeight)
  }

  /**
   * `createBarcodeImage(product, options)`: the cached encode inside a `try` that rethrows as
   * `Barcode error: <message>`, then the label.
   */
  function CreateBarcodeImageSpec(entries: map<string, Image>, env: Env, p: Product, o: Options): Rendered {
    var s := Effective(o);
    var step := CachedEncode(entries, env, InfoRequest(p, s));
    match step.outcome
    case Encoded(png) => Rendered(InfoLabel(env, p, png, s), step.entries)
    case EncodeFailed(m) => Rendered(Err(Thrown("Barcode error: " + m)), step.entries)
  }

  /**
   * A cached code is never re-encoded; an encoder failure throws `Barcode error: ...` and
   * stores nothing; a new barcode stays cached even when the resize that follows is rejected.
   */
  lemma CreateBarcodeImageCases(entries: map<string, Image>, env: Env, p: Product, o: Options)
    ensures var req := InfoRequest(p, Effective(o));
            var key := CacheKey(req.bcid, req.text);
            var r := CreateBarcodeImageSpec(entries, env, p, o);
            && (key in entries ==> r == Rendered(InfoLabel(env, p, entries[key], Effective(o)), entries))
            && (key !in entries && env.encode(req).EncodeFailed? ==>
                  r == Rendered(Err(Thrown("Barcode error: " + env.encode(req).message)), entries))
            && (key !in entries && env.encode(req).Encoded? ==>
                  && r.result == InfoLabel(env, p, env.encode(req).png, Effective(o))
                  && r.entries == entries[key := env.encode(req).png])
  {
    var req := InfoRequest(p, Effective(o));
    if CacheKey(req.bcid, req.text) in entries {
      CachedEncodeHit(entries, env, req);
    } else {
      CachedEncodeMiss(entries, env, req);
    }
  }

  /**
   * The cache key holds neither the scale nor the bar height: once a code is cached, a call
   * with other options gets the barcode drawn at the first call's size, without the encoder.
   */
  lemma CacheKeyIgnoresSize(entries: map<string, Image>, env: Env, p: Product, o1: Options, o2: Options)
    requires CachedEncode(entries, env, InfoRequest(p, Effective(o1))).outcome.Encoded?
    ensures var first := CachedEncode(entries, env, InfoRequest(p, Effective(o1)));
            var second := CachedEncode(first.entries, env, InfoRequest(p, Effective(o2)));
            && !second.encoderCalled && second.outcome == first.outcome
  {
  }

  // ---------------------------------------------------------------------------
  // generateBulkImage(product, qty)

  const BulkWidth: nat := 800
  const BulkInfoHeight: nat := 80
  const BulkPadding: nat := 20

  /** The bulk encoder request: scale 2 and bar height 10. */
  function BulkRequest(p: Product): EncodeRequest {
    EncodeRequest(ChooseBcid(Code(p)), Code(p), 2.0, 10)
  }

  /** The bulk information block: `<plu> - <name>`, `Code: <code>` and a fixed hint, escaped. */
  function BulkInfo(p: Product): (r: Image)
    ensures r.width == BulkWidth && r.height == BulkInfoHeight && r.content.Markup?
    ensures var t := r.content.texts;
            && |t| == 3 && t[2] == "Scan barcode di bawah"
            && t[0] == Esc3(Str(OrText(p.plu, "N/A"))) + " - " + Esc3(Str(DisplayName(p)))
            && |t[1]| >= 6 && t[1][..6] == "Code: " && Escaped3(t[1][6..], Code(p))
  {
    LabelledEscaped("Code: ", Code(p));
    TextBlock(BulkWidth, BulkInfoHeight,
              [Esc3(Str(OrText(p.plu, "N/A"))) + " - " + Esc3(Str(DisplayName(p))), "Code: " + Esc3(Str(Code(p))),
               "Scan barcode di bawah"])
  }

  /** One label of the sheet: the block at its top, the barcode 90 below and 20 from the left. */
  function BulkUnit(info: Image, bc: Image): seq<Layer> {
    [Layer(0, 0, info), Layer(BulkInfoHeight + 10, BulkPadding, bc)]
  }

  /** The barcode as every copy uses it: resized once to at most 760 wide. */
  function BulkBarcode(env: Env, png: Image): (bc: Image)
    ensures bc.width == Min(png.width, BulkWidth - 2 * BulkPadding)
  {
    ResizeToWidth(env, png, BulkWidth - 2 * BulkPadding, true)
  }

  /** `infoHeight + bh + 20`: the height of one label. */
  function BulkLabelHeight(bc: Image): nat {
    BulkInfoHeight + bc.height + 20
  }

  /** The sheet: `qty` copies of the label made of `info` and `bc`, copy `i` moved down by `i` label heights. */
  function Sheet(info: Image, bc: Image, qty: nat): Image {
    var h := BulkLabelHeight(bc);
    assert h * qty >= 0 by {
      if qty > 0 {
        BandBounds(h, qty, 0);
      }
    }
    Image(BulkWidth, h * qty, Composite("#ffffff", Replicated(BulkUnit(info, bc), h, qty)))
  }

  /**
   * The sheet holds exactly two layers per copy. Copy `i` has its block at `i * L` and its
   * barcode at `i * L + 90`, 20 from the left, both inside the band `[i * L, (i + 1) * L)`,
   * the barcode ending 10 above the band's end; every copy uses the same block and barcode.
   */
  lemma SheetCopies(info: Image, bc: Image, qty: nat, i: nat)
    requires i < qty
    ensures var h := BulkLabelHeight(bc);
            var sheet := Sheet(info, bc, qty);
            var layers := sheet.content.layers;
            && sheet.width == 800 && sheet.height == h * qty
            && |layers| == 2 * qty
            && layers[2 * i] == Layer(i * h, 0, info)
            && layers[2 * i + 1] == Layer(i * h + 90, 20, bc)
            && layers[2 * i + 1].top + bc.height + 10 == (i + 1) * h
            && (i + 1) * h <= sheet.height
  {
    var h := BulkLabelHeight(bc);
    var unit := BulkUnit(info, bc);
    assert |unit| == 2;
    var layers := Replicated(unit, h, qty);
    assert Sheet(info, bc, qty).content.layers == layers;
    ReplicatedLength(unit, h, qty);
    ReplicatedCopy(unit, h, qty, i, 0);
    ReplicatedCopy(unit, h, qty, i, 1);
    assert layers[2 * i] == Layer(i * h, 0, info);
    assert layers[2 * i + 1] == Layer(i * h + 90, 20, bc);
    BandBounds(h, qty, i);
  }

  /**
   * `generateBulkImage(product, qty)`: `qty invalid` before anything else, then the cached
   * encode with no `try` (the encoder's own error propagates), then the sheet.
   */
  function GenerateBulkImageSpec(entries: map<string, Image>, env: Env, p: Product, qty: int): Rendered {
    if qty <= 0 || qty > 200 then Rendered(Err(Thrown("qty invalid")), entries)
    else
      var step := CachedEncode(entries, env, BulkRequest(p));
      match step.outcome
      case Encoded(png) => Rendered(Ok(Sheet(BulkInfo(p), BulkBarcode(env, png), qty)), step.entries)
      case EncodeFailed(m) => Rendered(Err(Thrown(m)), step.entries)
  }

  /**
   * A quantity outside 1..200 throws before the cache or the encoder is touched; otherwise
   * the outcome is the cached encode's, and a sheet is 800 wide and `qty` labels high.
   */
  lemma GenerateBulkImageCases(entries: map<string, Image>, env: Env, p: Product, qty: int)
    ensures var r := GenerateBulkImageSpec(entries, env, p, qty);
            var step := CachedEncode(entries, env, BulkRequest(p));
            && (!BulkQtyValid(qty) ==> r == Rendered(Err(Thrown("qty invalid")), entries))
            && (BulkQtyValid(qty) ==> r.entries == step.entries)
            && (BulkQtyValid(qty) ==> (r.result.Ok? <==> step.outcome.Encoded?))
            && (BulkQtyValid(qty) && step.outcome.EncodeFailed? ==> r.result == Err(Thrown(step.outcome.message)))
            && (r.result.Ok? ==>
                  r.result.value == Sheet(BulkInfo(p), BulkBarcode(env, step.outcome.png), qty)
                  && r.result.value.height == qty * BulkLabelHeight(BulkBarcode(env, step.outcome.png)))
  {
  }

  // ---------------------------------------------------------------------------
  // The lookup and the message handler

  /**
   * The raw lookup finds what the trimmed lookup of bot.js finds whenever it finds anything,
   * and they agree on every key whose digits are empty or the key itself; they differ only
   * where bot.js retries with the digits.
   */
  lemma RawLookupAgrees(rows: seq<Product>, key: string)
    ensures ResolveRaw(Available(rows), key).Some? ==> Resolve(rows, key) == ResolveRaw(Available(rows), key)
    ensures DigitsOnly(key) == [] || DigitsOnly(key) == key ==> Resolve(rows, key) == ResolveRaw(Available(rows), key)
  {
  }

  /** What the handler remembers between messages. */
  datatype DbState = DbState(barcodes: map<string, Image>, lastProduct: map<string, Product>)

  /** The messages one handled message sends, in order, and the state it leaves. */
  datatype Handled = Handled(out: seq<Outgoing>, state: DbState)

  function BulkAck(qty: int): string {
    "Membuat " + IntToString(qty) + " label..."
  }

  /** The usage hint that ends a label's caption. */
  const CaptionHelp := "\n\nGunakan .bulk <qty> untuk membuat banyak label"

  /** The caption of a single label. */
  function Caption(p: Product): string {
    "*PLU:* " + OrText(p.plu, "N/A") + "\n*Nama:* " + OrText(Or(p.productName, p.nama), "N/A") + CaptionHelp
  }

  /** What follows the quoted message in the not-found reply: the formats the bot accepts. */
  const NotFoundHelp := "\" tidak ditemukan\n\nGunakan format:\n\U{2022} PLU: 10000019\n"
    + "\U{2022} Barcode: 8992702000018\n\U{2022} Multiple: .plu 10000019 10000020\n\U{2022} Bulk: .bulk 10 10000019"

  /** The reply to a lookup that found nothing, quoting the trimmed message. */
  function NotFoundText(text: string): string {
    "\U{274C} PLU/Barcode \"" + text + NotFoundHelp
  }

  /** The result lines of `.plu`: one raw lookup per word, in order. */
  function SearchLines(store: Store, tokens: seq<string>): (r: seq<string>)
    ensures |r| == |tokens|
  {
    seq(|tokens|, k requires 0 <= k < |tokens| => PluResultLine(tokens[k], ResolveRaw(store, tokens[k])))
  }

  /** Each of `lines` is the raw lookup's line for the word at the same position. */
  predicate RawLines(lines: seq<string>, store: Store, tokens: seq<string>) {
    |lines| == |tokens|
    && forall k :: 0 <= k < |tokens| ==> lines[k] == PluResultLine(tokens[k], ResolveRaw(store, tokens[k]))
  }

  /** The raw lines for some words, then the line for one more word. */
  lemma RawLinesSnoc(lines: seq<string>, store: Store, tokens: seq<string>, t: string)
    requires RawLines(lines, store, tokens)
    ensures RawLines(lines + [PluResultLine(t, ResolveRaw(store, t))], store, tokens + [t])
  {
    var lines' := lines + [PluResultLine(t, ResolveRaw(store, t))];
    var tokens' := tokens + [t];
    forall k | 0 <= k < |tokens'|
      ensures lines'[k] == PluResultLine(tokens'[k], ResolveRaw(store, tokens'[k]))
    {
      if k < |tokens| {
        assert lines'[k] == lines[k] && tokens'[k] == tokens[k];
      }
    }
  }

  /**
   * What `sendBarcodeInfo` sends and keeps once the generator has given `r`: the label with its
   * caption, after which the chat's last product is this one, or the error message with
   * nothing recorded.
   */
  function LabelFlow(s: DbState, chat: string, p: Product, r: Rendered): Handled {
    match r.result
    case Ok(img) =>
      Handled([SendImage(img, "barcode.png", Caption(p))],
              s.(barcodes := r.entries, lastProduct := s.lastProduct[chat := p]))
    case Err(_) => Handled([Say(LabelErrorText)], s.(barcodes := r.entries))
  }

  /** `sendBarcodeInfo`: the generator with the handler's options, then the reply it calls for. */
  function SendBarcodeInfoSpec(s: DbState, env: Env, chat: string, p: Product): Handled {
    LabelFlow(s, chat, p, CreateBarcodeImageSpec(s.barcodes, env, p, InfoOptions))
  }

  /** The one reply of `sendBarcodeInfo` is the label exactly when one was made, and only then is the product recorded. */
  lemma LabelFlowCases(s: DbState, chat: string, p: Product, r: Rendered)
    ensures var h := LabelFlow(s, chat, p, r);
            && |h.out| == 1 && (h.out[0].SendImage? <==> r.result.Ok?)
            && (!r.result.Ok? ==> h.out[0] == Say(LabelErrorText))
            && h.state.barcodes == r.entries
            && (r.result.Ok? ==> h.state.lastProduct == s.lastProduct[chat := p])
            && (!r.result.Ok? ==> h.state.lastProduct == s.lastProduct)
  {
  }

  /** The product a `.bulk` names, or the chat's last product when it names none. */
  function BulkProduct(s: DbState, store: Store, chat: string, code: Option<string>): Option<Product> {
    match code
    case Some(k) => ResolveRaw(store, k)
    case None => if chat in s.lastProduct then Some(s.lastProduct[chat]) else None
  }

  /** The `.bulk` branch once a product is known. */
  function BulkReply(s: DbState, env: Env, p: Product, qty: int): Handled {
    var r := GenerateBulkImageSpec(s.barcodes, env, p, qty);
    var reply := match r.result
                 case Ok(img) => SendImage(img, "bulk-" + IntToString(qty) + ".png",
                                           "Bulk " + IntToString(qty) + "x " + ToString(p.plu))
                 case Err(_) => Say(BulkErrorText);
    Handled([Say(BulkAck(qty)), reply], s.(barcodes := r.entries))
  }

  /** The handler once the message is parsed. */
  function HandleCommand(s: DbState, env: Env, store: Store, chat: string, cmd: Command): Handled {
    match cmd
    case PluUsage => Handled([Say(PluUsageText)], s)
    case PluSearch(tokens) => Handled([Say(SearchReply(SearchLines(store, tokens)))], s)
    case BulkUsage => Handled([Say(BulkUsageText)], s)
    case Bulk(qty, code) =>
      var found := BulkProduct(s, store, chat, code);
      if found.None? then Handled([Say(NoProductText)], s) else BulkReply(s, env, found.value, qty)
    case Lookup(text) =>
      var found := ResolveRaw(store, text);
      if found.None? then Handled([Say(NotFoundText(text))], s)
      else SendBarcodeInfoSpec(s, env, chat, found.value)
  }

  /** The message handler on one message `body` from `chat`. */
  function Handle(s: DbState, env: Env, store: Store, chat: string, body: string): Handled {
    HandleCommand(s, env, store, chat, ParseCommand(body))
  }

  /**
   * `.plu w1 ... wn` sends one message: the header and, for each word in order, what the raw
   * lookup finds for it; it encodes nothing and records nothing.
   */
  lemma HandlePluSearch(s: DbState, env: Env, store: Store, chat: string, body: string)
    requires ParseCommand(body).PluSearch?
    ensures var tokens := ParseCommand(body).tokens;
            var h := Handle(s, env, store, chat, body);
            && h.state == s && |h.out| == 1
            && ((forall k :: 0 <= k < |tokens| ==> OneLine(SearchLines(store, tokens)[k])) ==>
                  Lines(h.out[0].text) == ["*Hasil Pencarian:*", ""] + SearchLines(store, tokens))
  {
    var tokens := ParseCommand(body).tokens;
    var lines := SearchLines(store, tokens);
    if forall k :: 0 <= k < |tokens| ==> OneLine(lines[k]) {
      SearchReplyLines(lines);
    }
  }

  /**
   * A chat's last product changes only when a plain lookup finds a product and its label is
   * made, and then it becomes that product; `.plu`, `.bulk` and every failure leave it alone.
   */
  lemma HandleRecordsLastProduct(s: DbState, env: Env, store: Store, chat: string, cmd: Command)
    ensures var h := HandleCommand(s, env, store, chat, cmd);
            && (cmd.Lookup? && ResolveRaw(store, cmd.text).Some?
                && CreateBarcodeImageSpec(s.barcodes, env, ResolveRaw(store, cmd.text).value, InfoOptions).result.Ok?
                ==> h.state.lastProduct == s.lastProduct[chat := ResolveRaw(store, cmd.text).value]
                    && h.out[0].SendImage?)
            && (!(cmd.Lookup? && ResolveRaw(store, cmd.text).Some?
                  && CreateBarcodeImageSpec(s.barcodes, env, ResolveRaw(store, cmd.text).value, InfoOptions).result.Ok?)
                ==> h.state.lastProduct == s.lastProduct)
  {
    match cmd
    case Lookup(text) =>
      var found := ResolveRaw(store, text);
      if found.Some? {
        LabelFlowCases(s, chat, found.value, CreateBarcodeImageSpec(s.barcodes, env, found.value, InfoOptions));
      }
    case Bulk(qty, code) =>
      var found := BulkProduct(s, store, chat, code);
      if found.Some? {
        assert BulkReply(s, env, found.value, qty).state.lastProduct == s.lastProduct;
      }
    case _ =>
  }

  /**
   * `.bulk <qty>` with no code uses the chat's last product: with none recorded the reply is
   * `Produk tidak ditemukan` and nothing changes. A quantity the handler accepts (1..100)
   * never trips the generator's own check.
   */
  lemma HandleBulkFallback(s: DbState, env: Env, store: Store, chat: string, qty: int)
    requires 1 <= qty <= MaxChatQty
    ensures var h := HandleCommand(s, env, store, chat, Bulk(qty, None));
            && (chat !in s.lastProduct ==> h == Handled([Say(NoProductText)], s))
            && (chat in s.lastProduct ==> h == BulkReply(s, env, s.lastProduct[chat], qty))
            && h.state.lastProduct == s.lastProduct
    ensures BulkQtyValid(qty)
  {
  }

  // ---------------------------------------------------------------------------
  // The bot's state, updated in place

  class OldBot {
    /** `barcodeCache` */
    const barcodes: BarcodeCache
    /** `lastProductByChat` */
    var lastProduct: map<string, Product>

    constructor()
      ensures fresh(barcodes)
      ensures State() == DbState(map[], map[])
    {
      barcodes := new BarcodeCache();
      lastProduct := map[];
    }

    function State(): DbState
      reads this, barcodes
    {
      DbState(barcodes.entries, lastProduct)
    }

    method CreateBarcodeImage(env: Env, p: Product, o: Options) returns (result: Result<Image, Failure>)
      modifies barcodes
      ensures Rendered(result, barcodes.entries) == CreateBarcodeImageSpec(old(barcodes.entries), env, p, o)
    {
      var s := Effective(o);
      var outcome := barcodes.Render(env, InfoRequest(p, s));
      match outcome
      case Encoded(png) => result := InfoLabel(env, p, png, s);
      case EncodeFailed(m) => result := Err(Thrown("Barcode error: " + m));
    }

    /** `generateBulkImage`, with the `for (let i = 0; i < qty; i++)` loop that fills `composites`. */
    method GenerateBulkImage(env: Env, p: Product, qty: int) returns (result: Result<Image, Failure>)
      modifies barcodes
      ensures Rendered(result, barcodes.entries) == GenerateBulkImageSpec(old(barcodes.entries), env, p, qty)
    {
      if qty <= 0 || qty > 200 {
        return Err(Thrown("qty invalid"));
      }
      var outcome := barcodes.Render(env, BulkRequest(p));
      match outcome
      case Encoded(png) =>
        var bc := BulkBarcode(env, png);
        var labelHeight := BulkLabelHeight(bc);
        var composites := ReplicateLabel(BulkUnit(BulkInfo(p), bc), labelHeight, qty);
        BandBounds(labelHeight, qty, 0);
        var sheet := Image(BulkWidth, labelHeight * qty, Composite("#ffffff", composites));
        assert sheet == Sheet(BulkInfo(p), bc, qty);
        result := Ok(sheet);
      case EncodeFailed(m) => result := Err(Thrown(m));
    }

    /** The `for (const plu of pluList)` loop of `.plu`: one raw lookup and one line per word. */
    method LookUpEach(store: Store, tokens: seq<string>) returns (lines: seq<string>)
      ensures |lines| == |tokens|
      ensures forall k :: 0 <= k < |tokens| ==> lines[k] == PluResultLine(tokens[k], ResolveRaw(store, tokens[k]))
    {
      lines := [];
      var i := 0;
      while i < |tokens|
        invariant 0 <= i <= |tokens|
        invariant RawLines(lines, store, tokens[..i])
      {
        var found := ResolveRaw(store, tokens[i]);
        RawLinesSnoc(lines, store, tokens[..i], tokens[i]);
        PrefixSnoc(tokens, i);
        lines := lines + [PluResultLine(tokens[i], found)];
        i := i + 1;
      }
      assert tokens[..|tokens|] == tokens;
    }

    method SendBarcodeInfo(env: Env, chat: string, p: Product) returns (out: seq<Outgoing>)
      modifies this, barcodes
      ensures Handled(out, State()) == SendBarcodeInfoSpec(old(State()), env, chat, p)
    {
      ghost var s0 := State();
      var result := CreateBarcodeImage(env, p, InfoOptions);
      assert SendBarcodeInfoSpec(s0, env, chat, p) == LabelFlow(s0, chat, p, Rendered(result, barcodes.entries));
      match result
      case Ok(img) =>
        out := [SendImage(img, "barcode.png", Caption(p))];
        lastProduct := lastProduct[chat := p];
      case Err(_) =>
        out := [Say(LabelErrorText)];
    }

    /** The `.bulk` reply once the product is known: the acknowledgement, then the sheet or the error. */
    method SendBulk(env: Env, p: Product, qty: int) returns (out: seq<Outgoing>)
      modifies barcodes
      ensures Handled(out, State()) == BulkReply(old(State()), env, p, qty)
    {
      var result := GenerateBulkImage(env, p, qty);
      match result
      case Ok(img) =>
        out := [Say(BulkAck(qty)), SendImage(img, "bulk-" + IntToString(qty) + ".png",
                                             "Bulk " + IntToString(qty) + "x " + ToString(p.plu))];
      case Err(_) => out := [Say(BulkAck(qty)), Say(BulkErrorText)];
    }

    /** The `.bulk` branch of the handler. */
    method Bulk(env: Env, store: Store, chat: string, qty: int, code: Option<string>) returns (out: seq<Outgoing>)
      modifies barcodes
      ensures Handled(out, State()) == HandleCommand(old(State()), env, store, chat, Command.Bulk(qty, code))
    {
      var found := BulkProduct(State(), store, chat, code);
      if found.None? {
        out := [Say(NoProductText)];
      } else {
        out := SendBulk(env, found.value, qty);
      }
    }

    /** A plain lookup: the label of what the raw lookup finds, or the not-found reply. */
    method LookupAndSend(env: Env, store: Store, chat: string, text: string) returns (out: seq<Outgoing>)
      modifies this, barcodes
      ensures Handled(out, State()) == HandleCommand(old(State()), env, store, chat, Lookup(text))
    {
      ghost var s0 := State();
      var found := ResolveRaw(store, text);
      assert HandleCommand(s0, env, store, chat, Lookup(text))
             == if found.None? then Handled([Say(NotFoundText(text))], s0) else SendBarcodeInfoSpec(s0, env, chat, found.value);
      if found.None? {
        out := [Say(NotFoundText(text))];
      } else {
        out := SendBarcodeInfo(env, chat, found.value);
      }
    }

    /** The `client.on('message')` handler. */
    method HandleMessage(env: Env, store: Store, chat: string, body: string) returns (out: seq<Outgoing>)
      modifies this, barcodes
      ensures Handled(out, State()) == Handle(old(State()), env, store, chat, body)
    {
      var cmd := ParseCommand(body);
      match cmd
      case PluUsage => out := [Say(PluUsageText)];
      case PluSearch(tokens) =>
        var lines := LookUpEach(store, tokens);
        assert lines == SearchLines(store, tokens);
        out := [Say(SearchReply(lines))];
      case BulkUsage => out := [Say(BulkUsageText)];
      case Bulk(qty, code) => out := Bulk(env, store, chat, qty, code);
      case Lookup(text) => out := LookupAndSend(env, store, chat, text);
    }
  }
}
