/**
 * bot.js: the WhatsApp bot's product lookup, its two label generators and its message
 * handler. The lookup cache, the barcode cache and the last product of each chat are the
 * fields of a `Bot`; each method is proved to do what a function of the old state says, and
 * the lemmas state what those functions promise.
 */
module BotJs {
  import opened Base
  import opened Js
  import opened Escape
  import opened Externals
  import opened Raster
  import opened Layout
  import opened Barcode
  import opened Catalog
  import opened Resolver
  import opened Chat
  import opened Label

  /** `Math.max(1, width - 80)`: the width the barcode is resized to. */
  const BarcodeWidth: nat := 460

  /** The name band: the display name, cut to 40 characters, escaped with `esc`. */
  function NameBand(p: Product): (r: Image)
    ensures Shows3(r, LabelWidth, NameHeight, Truncate(DisplayName(p), NameLimit))
  {
    var name := Truncate(DisplayName(p), NameLimit);
    TextBlock(LabelWidth, NameHeight, [Esc3(Str(name))])
  }

  /** The price band: the shown price (`'Rp 0,-'` for a missing or `-` price), escaped with `esc`. */
  function PriceBand(p: Product): (r: Image)
    ensures Shows3(r, LabelWidth, PriceHeight, ToString(ShownPrice(p)))
  {
    TextBlock(LabelWidth, PriceHeight, [Esc3(ShownPrice(p))])
  }

  /** The barcode band: the barcode resized to at most 460 wide, placed by the clamped formula. */
  function BarcodeBandOf(env: Env, png: Image): (r: Image)
    ensures r.width == LabelWidth && r.height == BarcodeBand
    ensures r.content.Composite? && |r.content.layers| == 1
    ensures var l := r.content.layers[0];
            && l.image.width == Min(png.width, BarcodeWidth)
            && 5 <= l.top && 0 <= l.left && l.left + l.image.width <= LabelWidth
            && (l.top + l.image.height <= BarcodeBand <==> l.image.height <= BarcodeBand - 5)
  {
    ClampedBarcodeBand(env, png, BarcodeWidth)
  }

  /** The single label: photo, name, barcode and price at tops 0, 300, 390 and 590 on 540 by 670. */
  function SingleLabel(env: Env, p: Product, png: Image): (r: Image)
    ensures r.width == LabelWidth && r.height == 670
    ensures r.content == Composite("#ffffff", [
              Layer(0, 0, PhotoBand(env, GambarUrl(p))), Layer(300, 0, NameBand(p)),
              Layer(390, 0, BarcodeBandOf(env, png)), Layer(590, 0, PriceBand(p))])
  {
    BotStack([PhotoBand(env, GambarUrl(p)), NameBand(p), BarcodeBandOf(env, png), PriceBand(p)])
  }

  /** The bulk label: one label with a quantity band, sections at 0, 300, 380, 580 and 640 on 540 by 730. */
  function BulkLabel(env: Env, p: Product, qty: int, png: Image): (r: Image)
    ensures r.width == LabelWidth && r.height == 730
    ensures r.content == Composite("#ffffff", [
              Layer(0, 0, PhotoBand(env, GambarUrl(p))), Layer(300, 0, NameBand(p)),
              Layer(380, 0, BarcodeBandOf(env, png)), Layer(580, 0, QtyBand(qty)),
              Layer(640, 0, PriceBand(p))])
  {
    BulkStack([PhotoBand(env, GambarUrl(p)), NameBand(p), BarcodeBandOf(env, png), QtyBand(qty), PriceBand(p)])
  }

  /**
   * Every band of a label shows what the product says: the photo is the placeholder exactly
   * when the photo step fails, the name band the name cut to 40 characters, the price band the
   * shown price, and the barcode lies across the band's width no nearer its top than 5 pixels.
   */
  lemma LabelBands(env: Env, p: Product, png: Image)
    ensures PhotoBand(env, GambarUrl(p)) == Placeholder(LabelWidth, PhotoHeight)
            <==> PhotoFails(env, OrText(p.gambar, ""))
    ensures var name := Truncate(DisplayName(p), NameLimit);
            && Shows3(NameBand(p), LabelWidth, NameHeight, name)
            && |name| <= NameLimit && name == DisplayName(p)[..|name|]
            && (|DisplayName(p)| <= NameLimit ==> name == DisplayName(p))
    ensures Shows3(PriceBand(p), LabelWidth, PriceHeight, ToString(ShownPrice(p)))
    ensures ShownPrice(p) == Str("Rp 0,-") <==>
              !Truthy(p.price) || p.price == Str("-") || p.price == Str("Rp 0,-")
  {
    ShownPriceCases(p);
  }

  // ---------------------------------------------------------------------------
  // The two generators, as functions of the barcode cache they read and update

  /**
   * `createBarcodeImage(product)`: the cached encode, where an encoder error is rethrown as
   * `Barcode error: <message>`, then the single label.
   */
  function CreateBarcodeImageSpec(entries: map<string, Image>, env: Env, p: Product): Rendered {
    var step := CachedEncode(entries, env, LabelRequest(p));
    match step.outcome
    case Encoded(png) => Rendered(Ok(SingleLabel(env, p, png)), step.entries)
    case EncodeFailed(m) => Rendered(Err(Thrown("Barcode error: " + m)), step.entries)
  }

  /**
   * A cached code is never re-encoded; an encoder failure throws `Barcode error: ...` and
   * stores nothing; a success stores the barcode under `bcid:code` and gives the 540 by 670 label.
   */
  lemma CreateBarcodeImageCases(entries: map<string, Image>, env: Env, p: Product)
    ensures var req := LabelRequest(p);
            var key := CacheKey(req.bcid, req.text);
            var r := CreateBarcodeImageSpec(entries, env, p);
            && (key in entries ==> r == Rendered(Ok(SingleLabel(env, p, entries[key])), entries))
            && (key !in entries && env.encode(req).EncodeFailed? ==>
                  r == Rendered(Err(Thrown("Barcode error: " + env.encode(req).message)), entries))
            && (key !in entries && env.encode(req).Encoded? ==>
                  && r.result == Ok(SingleLabel(env, p, env.encode(req).png))
                  && r.entries == entries[key := env.encode(req).png])
            && (r.result.Ok? ==> r.result.value.width == 540 && r.result.value.height == 670)
  {
    var req := LabelRequest(p);
    if CacheKey(req.bcid, req.text) in entries {
      CachedEncodeHit(entries, env, req);
    } else {
      CachedEncodeMiss(entries, env, req);
    }
  }

  /**
   * `generateBulkImage(product, qty)`: `qty invalid` before anything else, then the cached
   * encode with no `try` (the encoder's own error propagates), then the bulk label.
   */
  function GenerateBulkImageSpec(entries: map<string, Image>, env: Env, p: Product, qty: int): Rendered {
    if qty <= 0 || qty > 200 then Rendered(Err(Thrown("qty invalid")), entries)
    else
      var step := CachedEncode(entries, env, LabelRequest(p));
      match step.outcome
      case Encoded(png) => Rendered(Ok(BulkLabel(env, p, qty, png)), step.entries)
      case EncodeFailed(m) => Rendered(Err(Thrown(m)), step.entries)
  }

  /**
   * A quantity outside 1..200 throws before the cache or the encoder is touched; otherwise the
   * outcome is the cached encode's, and a label is always the one 540 by 730 image.
   */
  lemma GenerateBulkImageCases(entries: map<string, Image>, env: Env, p: Product, qty: int)
    ensures var r := GenerateBulkImageSpec(entries, env, p, qty);
            var step := CachedEncode(entries, env, LabelRequest(p));
            && (!BulkQtyValid(qty) ==> r == Rendered(Err(Thrown("qty invalid")), entries))
            && (BulkQtyValid(qty) ==> r.entries == step.entries)
            && (BulkQtyValid(qty) ==> (r.result.Ok? <==> step.outcome.Encoded?))
            && (BulkQtyValid(qty) && step.outcome.EncodeFailed? ==> r.result == Err(Thrown(step.outcome.message)))
            && (r.result.Ok? ==> r.result.value.width == 540 && r.result.value.height == 730
                                 && r.result.value.content.layers[3].image == QtyBand(qty))
  {
    var req := LabelRequest(p);
    if CacheKey(req.bcid, req.text) in entries {
      CachedEncodeHit(entries, env, req);
    } else {
      CachedEncodeMiss(entries, env, req);
    }
  }

  // ---------------------------------------------------------------------------
  // The message handler

  const PluAck := "\U{23F3} Mencari beberapa PLU..."
  const LookupAck := "\U{23F3} Mencari produk..."
  const LabelAck := "\U{23F3} Membuat barcode..."

  function BulkAck(qty: int): string {
    "\U{23F3} Membuat " + IntToString(qty) + " label..."
  }

  /** The image message of a bulk label: `bulk-<qty>.png` captioned `✅ Bulk <qty>x <plu>`. */
  function BulkImage(img: Image, qty: int, p: Product): Outgoing {
    SendImage(img, "bulk-" + IntToString(qty) + ".png",
              "\U{2705} Bulk " + IntToString(qty) + "x " + ToString(p.plu))
  }

  /** The usage hint that ends a label's caption. */
  const LabelHelp := "\n\n\U{1F4E6} Gunakan:\n\U{2022} .bulk <qty> untuk banyak label\n\U{2022} .plu <plu1> <plu2> untuk cari multiple"

  /** The caption of a single label. */
  function LabelCaption(p: Product): string {
    "\U{2705} *PLU:* " + OrText(p.plu, "N/A") + "\n*Nama:* " + OrText(Or(p.productName, p.nama), "N/A") + LabelHelp
  }

  /** What follows the quoted message in the not-found reply: the formats the bot accepts. */
  const NotFoundHelp := "\" tidak ditemukan\n\nGunakan:\n\U{2022} PLU: 10000019\n"
    + "\U{2022} Barcode: 8992702000018\n\U{2022} Multiple: .plu 10000019 10000020\n\U{2022} Bulk: .bulk 10 10000019"

  /** The reply to a lookup that found nothing, quoting the trimmed message. */
  function NotFoundText(text: string): string {
    "\U{274C} PLU/Barcode \"" + text + NotFoundHelp
  }

  /** The three pieces of state the bot keeps between messages. */
  datatype BotState = BotState(products: Cache, barcodes: map<string, Image>, lastProduct: map<string, Product>)

  /** What one message does: the messages sent, in order, and the state left behind. */
  datatype Handled = Handled(out: seq<Outgoing>, state: BotState)

  /** The result lines of `.plu` and the product cache they leave: one lookup per word, in order. */
  datatype Search = Search(lines: seq<string>, cache: Cache)

  function SearchSpec(c: Cache, store: Store, tokens: seq<string>): (r: Search)
    ensures |r.lines| == |tokens|
    decreases |tokens|
  {
    if tokens == [] then Search([], c)
    else
      var before := SearchSpec(c, store, tokens[..|tokens| - 1]);
      var step := LookupStep(before.cache, store, Str(tokens[|tokens| - 1]));
      Search(before.lines + [PluResultLine(tokens[|tokens| - 1], step.found)], step.cache)
  }

  /** A word of `.plu` is its own key: through a coherent cache it finds what the catalog has for it. */
  lemma WordLookupTransparent(c: Cache, rows: seq<Product>, w: string)
    requires Resolver.Coherent(c, rows) && w != [] && NoSpace(w)
    ensures LookupStep(c, Available(rows), Str(w)).found == Resolve(rows, w)
    ensures Resolver.Coherent(LookupStep(c, Available(rows), Str(w)).cache, rows)
  {
    LookupStepTransparent(c, rows, Str(w));
    TrimNoSpace(w);
  }

  /**
   * Through a coherent cache the `.plu` reply has, for each word in order, the line the catalog
   * alone gives for that word, and the cache stays coherent.
   */
  /** Each of `lines` is the line the catalog alone gives for the word at the same position. */
  predicate CatalogLines(lines: seq<string>, rows: seq<Product>, tokens: seq<string>) {
    |lines| == |tokens|
    && forall k :: 0 <= k < |tokens| ==> lines[k] == PluResultLine(tokens[k], Resolve(rows, tokens[k]))
  }

  /** The catalog's lines for some words, then its line for one more word. */
  lemma CatalogLinesSnoc(lines: seq<string>, rows: seq<Product>, tokens: seq<string>, t: string)
    requires CatalogLines(lines, rows, tokens)
    ensures CatalogLines(lines + [PluResultLine(t, Resolve(rows, t))], rows, tokens + [t])
  {
    var lines' := lines + [PluResultLine(t, Resolve(rows, t))];
    var tokens' := tokens + [t];
    forall k | 0 <= k < |tokens'|
      ensures lines'[k] == PluResultLine(tokens'[k], Resolve(rows, tokens'[k]))
    {
      if k < |tokens| {
        assert lines'[k] == lines[k] && tokens'[k] == tokens[k];
      }
    }
  }

  /**
   * Through a coherent cache the `.plu` reply has, for each word in order, the line the catalog
   * alone gives for that word, and the cache stays coherent.
   */
  lemma {:induction false} SearchTransparent(c: Cache, rows: seq<Product>, tokens: seq<string>)
    requires Resolver.Coherent(c, rows)
    requires forall k :: 0 <= k < |tokens| ==> tokens[k] != [] && NoSpace(tokens[k])
    ensures var r := SearchSpec(c, Available(rows), tokens);
            Resolver.Coherent(r.cache, rows) && CatalogLines(r.lines, rows, tokens)
    decreases |tokens|
  {
    if tokens != [] {
      var init := tokens[..|tokens| - 1];
      var last := tokens[|tokens| - 1];
      assert init + [last] == tokens;
      SearchTransparent(c, rows, init);
      var before := SearchSpec(c, Available(rows), init);
      WordLookupTransparent(before.cache, rows, last);
      SearchSpecSnoc(c, Available(rows), init, last);
      CatalogLinesSnoc(before.lines, rows, init, last);
    }
  }

  /** The `.plu` lookups keep the cache's keys distinct and its size within 2000. */
  lemma {:induction false} SearchValid(c: Cache, store: Store, tokens: seq<string>)
    requires ValidCache(c)
    ensures ValidCache(SearchSpec(c, store, tokens).cache)
    decreases |tokens|
  {
    if tokens != [] {
      var init := tokens[..|tokens| - 1];
      SearchValid(c, store, init);
      LookupStepValid(SearchSpec(c, store, init).cache, store, Str(tokens[|tokens| - 1]));
    }
  }

  /** One more word: the search so far, then one lookup through the cache it left. */
  lemma SearchSpecSnoc(c: Cache, store: Store, tokens: seq<string>, t: string)
    ensures var before := SearchSpec(c, store, tokens);
            var step := LookupStep(before.cache, store, Str(t));
            SearchSpec(c, store, tokens + [t]) == Search(before.lines + [PluResultLine(t, step.found)], step.cache)
  {
    assert (tokens + [t])[..|tokens|] == tokens;
  }

  /** The loop step of `.plu`: one more lookup, through the cache the search left, extends it by one word. */
  lemma SearchStep(c: Cache, store: Store, done: seq<string>, t: string, lines: seq<string>,
                   before: Cache, found: Option<Product>, after: Cache)
    requires Search(lines, before) == SearchSpec(c, store, done)
    requires Lookup.Lookup(found, after) == LookupStep(before, store, Str(t))
    ensures Search(lines + [PluResultLine(t, found)], after) == SearchSpec(c, store, done + [t])
  {
    SearchSpecSnoc(c, store, done, t);
  }

  /**
   * What `sendBarcodeInfo` sends and keeps once the generator has given `r`: the progress
   * message, then the label with its caption (after which the chat's last product is this one)
   * or the error message (and nothing recorded).
   */
  function LabelFlow(s: BotState, chat: string, p: Product, r: Rendered): Handled {
    match r.result
    case Ok(img) =>
      Handled([Say(LabelAck), SendImage(img, "barcode.png", LabelCaption(p))],
              s.(barcodes := r.entries, lastProduct := s.lastProduct[chat := p]))
    case Err(_) => Handled([Say(LabelAck), Say(LabelErrorText)], s.(barcodes := r.entries))
  }

  /** `sendBarcodeInfo`: the single-label generator, then the replies it calls for. */
  function SendBarcodeInfoSpec(s: BotState, env: Env, chat: string, p: Product): Handled {
    LabelFlow(s, chat, p, CreateBarcodeImageSpec(s.barcodes, env, p))
  }

  /** The `.plu` branch with at least one word: acknowledge, look every word up, reply once. */
  function PluBranch(s: BotState, store: Store, tokens: seq<string>): Handled {
    var r := SearchSpec(s.products, store, tokens);
    Handled([Say(PluAck), Say(SearchReply(r.lines))], s.(products := r.cache))
  }

  /** The `.bulk` branch once a product is known. */
  function BulkReply(s: BotState, env: Env, p: Product, qty: int): Handled {
    var r := GenerateBulkImageSpec(s.barcodes, env, p, qty);
    var reply := match r.result
                 case Ok(img) => BulkImage(img, qty, p)
                 case Err(_) => Say(BulkErrorText);
    Handled([Say(BulkAck(qty)), reply], s.(barcodes := r.entries))
  }

  /** The product a `.bulk` names, or the chat's last product when it names none. */
  function BulkProduct(s: BotState, store: Store, chat: string, code: Option<string>): Lookup {
    match code
    case Some(k) => LookupStep(s.products, store, Str(k))
    case None => Lookup.Lookup(if chat in s.lastProduct then Some(s.lastProduct[chat]) else None, s.products)
  }

  /** The `.bulk` branch with an accepted quantity. */
  function BulkBranch(s: BotState, env: Env, store: Store, chat: string, qty: int, code: Option<string>): Handled {
    var l := BulkProduct(s, store, chat, code);
    var s1 := s.(products := l.cache);
    if l.found.None? then Handled([Say(NoProductText)], s1)
    else BulkReply(s1, env, l.found.value, qty)
  }

  /** The default branch once the lookup has given `l`: the not-found reply, or the label flow. */
  function LookupFlow(s: BotState, env: Env, chat: string, text: string, l: Lookup): Handled {
    var s1 := s.(products := l.cache);
    if l.found.None? then Handled([Say(LookupAck), Say(NotFoundText(text))], s1)
    else
      var h := SendBarcodeInfoSpec(s1, env, chat, l.found.value);
      Handled([Say(LookupAck)] + h.out, h.state)
  }

  /** The default branch: acknowledge, look the whole message up, send its label or the not-found reply. */
  function LookupBranch(s: BotState, env: Env, store: Store, chat: string, text: string): Handled {
    LookupFlow(s, env, chat, text, LookupStep(s.products, store, Str(text)))
  }

  /** The handler once the message is parsed. */
  function HandleCommand(s: BotState, env: Env, store: Store, chat: string, cmd: Command): Handled {
    match cmd
    case PluUsage => Handled([Say(PluUsageText)], s)
    case PluSearch(tokens) => PluBranch(s, store, tokens)
    case BulkUsage => Handled([Say(BulkUsageText)], s)
    case Bulk(qty, code) => BulkBranch(s, env, store, chat, qty, code)
    case Lookup(text) => LookupBranch(s, env, store, chat, text)
  }

  /** The message handler on one message `body` from `chat`. */
  function Handle(s: BotState, env: Env, store: Store, chat: string, body: string): Handled {
    HandleCommand(s, env, store, chat, ParseCommand(body))
  }

  /** A usage reply is the only message sent and nothing is looked up, encoded or recorded. */
  lemma HandleUsage(s: BotState, env: Env, store: Store, chat: string, cmd: Command)
    requires cmd.PluUsage? || cmd.BulkUsage?
    ensures var h := HandleCommand(s, env, store, chat, cmd);
            && h.state == s
            && h.out == [Say(if cmd.PluUsage? then PluUsageText else BulkUsageText)]
  {
  }

  /**
   * The `.plu` branch over a coherent cache answers, after the acknowledgement, with the
   * header and one line per word in order, each saying what the catalog has for that word.
   */
  lemma PluBranchTransparent(s: BotState, rows: seq<Product>, tokens: seq<string>)
    requires Resolver.Coherent(s.products, rows)
    requires forall k :: 0 <= k < |tokens| ==> tokens[k] != [] && NoSpace(tokens[k])
    ensures var h := PluBranch(s, Available(rows), tokens);
            && h.out == [Say(PluAck), Say(SearchReply(seq(|tokens|, k requires 0 <= k < |tokens| =>
                                              PluResultLine(tokens[k], Resolve(rows, tokens[k])))))]
            && Resolver.Coherent(h.state.products, rows)
            && h.state.barcodes == s.barcodes && h.state.lastProduct == s.lastProduct
  {
    SearchTransparent(s.products, rows, tokens);
    var r := SearchSpec(s.products, Available(rows), tokens);
    assert r.lines == seq(|tokens|, k requires 0 <= k < |tokens| =>
                          PluResultLine(tokens[k], Resolve(rows, tokens[k])));
  }

  /**
   * `.plu w1 ... wn` over a coherent cache answers, after the acknowledgement, with the header
   * and one line per word in order, each saying what the catalog has for that word; it encodes
   * nothing and records nothing.
   */
  lemma HandlePluSearch(s: BotState, rows: seq<Product>, env: Env, chat: string, body: string)
    requires Resolver.Coherent(s.products, rows)
    requires ParseCommand(body).PluSearch?
    ensures var tokens := ParseCommand(body).tokens;
            var h := Handle(s, env, Available(rows), chat, body);
            && h.out == [Say(PluAck), Say(SearchReply(seq(|tokens|, k requires 0 <= k < |tokens| =>
                                              PluResultLine(tokens[k], Resolve(rows, tokens[k])))))]
            && Resolver.Coherent(h.state.products, rows)
            && h.state.barcodes == s.barcodes && h.state.lastProduct == s.lastProduct
  {
    var tokens := ParseCommand(body).tokens;
    assert Handle(s, env, Available(rows), chat, body) == PluBranch(s, Available(rows), tokens);
    PluBranchTransparent(s, rows, tokens);
  }

  /**
   * `.bulk <qty>` with no code uses the chat's last product: with none recorded the reply is
   * `Produk tidak ditemukan` and nothing changes; otherwise that product's bulk label is made
   * without a lookup.
   */
  lemma HandleBulkFallback(s: BotState, env: Env, store: Store, chat: string, qty: int)
    ensures var h := HandleCommand(s, env, store, chat, Bulk(qty, None));
            && (chat !in s.lastProduct ==> h == Handled([Say(NoProductText)], s))
            && (chat in s.lastProduct ==> h == BulkReply(s, env, s.lastProduct[chat], qty))
            && h.state.products == s.products && h.state.lastProduct == s.lastProduct
  {
  }

  /**
   * A quantity the handler accepts never trips the generator's own check: a `.bulk` label
   * fails only when the encoder does.
   */
  lemma BulkReplyFromChat(s: BotState, env: Env, p: Product, qty: int)
    requires 1 <= qty <= MaxChatQty
    ensures var h := BulkReply(s, env, p, qty);
            var step := CachedEncode(s.barcodes, env, LabelRequest(p));
            && h.out[0] == Say(BulkAck(qty))
            && (h.out[1] == Say(BulkErrorText) <==> step.outcome.EncodeFailed?)
            && h.state == s.(barcodes := step.entries)
  {
  }

  /** The default branch records the product exactly when it found one and its label was made. */
  lemma LookupBranchRecords(s: BotState, env: Env, store: Store, chat: string, text: string)
    ensures var h := LookupBranch(s, env, store, chat, text);
            var l := LookupStep(s.products, store, Str(text));
            var made := l.found.Some? && CreateBarcodeImageSpec(s.barcodes, env, l.found.value).result.Ok?;
            && (made ==> h.state.lastProduct == s.lastProduct[chat := l.found.value])
            && (!made ==> h.state.lastProduct == s.lastProduct)
  {
    var l := LookupStep(s.products, store, Str(text));
    if l.found.Some? {
      SendBarcodeInfoReplies(s.(products := l.cache), env, chat, l.found.value);
    }
  }

  /** A `.bulk` never changes any chat's last product. */
  lemma BulkBranchKeepsLast(s: BotState, env: Env, store: Store, chat: string, qty: int, code: Option<string>)
    ensures BulkBranch(s, env, store, chat, qty, code).state.lastProduct == s.lastProduct
  {
    var l := BulkProduct(s, store, chat, code);
    if l.found.Some? {
      assert BulkReply(s.(products := l.cache), env, l.found.value, qty).state.lastProduct == s.lastProduct;
    }
  }

  /**
   * The last product of a chat changes only when a plain lookup found a product and its label
   * was made, and it then becomes that product; no other chat's entry ever changes.
   */
  lemma HandleRecordsLastProduct(s: BotState, env: Env, store: Store, chat: string, cmd: Command)
    ensures var h := HandleCommand(s, env, store, chat, cmd);
            && (forall other :: other != chat ==>
                  (other in h.state.lastProduct <==> other in s.lastProduct)
                  && (other in s.lastProduct ==> h.state.lastProduct[other] == s.lastProduct[other]))
            && (h.state.lastProduct != s.lastProduct ==>
                  && cmd.Lookup?
                  && var l := LookupStep(s.products, store, Str(cmd.text));
                     && l.found.Some?
                     && CreateBarcodeImageSpec(s.barcodes, env, l.found.value).result.Ok?
                     && h.state.lastProduct == s.lastProduct[chat := l.found.value])
  {
    match cmd
    case Lookup(text) => LookupBranchRecords(s, env, store, chat, text);
    case Bulk(qty, code) => BulkBranchKeepsLast(s, env, store, chat, qty, code);
    case PluSearch(tokens) => assert PluBranch(s, store, tokens).state.lastProduct == s.lastProduct;
    case _ =>
  }

  /** The `.bulk` branch changes the product cache only through the lookup of its code. */
  lemma BulkBranchProducts(s: BotState, env: Env, store: Store, chat: string, qty: int, code: Option<string>)
    ensures BulkBranch(s, env, store, chat, qty, code).state.products == BulkProduct(s, store, chat, code).cache
    ensures code.None? ==> BulkBranch(s, env, store, chat, qty, code).state.products == s.products
  {
  }

  /** The default branch changes the product cache only through its one lookup. */
  lemma LookupBranchProducts(s: BotState, env: Env, store: Store, chat: string, text: string)
    ensures LookupBranch(s, env, store, chat, text).state.products == LookupStep(s.products, store, Str(text)).cache
  {
  }

  /** Every message keeps the product cache's keys distinct and its size within 2000. */
  lemma HandleKeepsCacheValid(s: BotState, env: Env, store: Store, chat: string, cmd: Command)
    requires ValidCache(s.products)
    ensures ValidCache(HandleCommand(s, env, store, chat, cmd).state.products)
  {
    match cmd
    case PluSearch(tokens) => SearchValid(s.products, store, tokens);
    case Bulk(qty, code) =>
      BulkBranchProducts(s, env, store, chat, qty, code);
      if code.Some? {
        LookupStepValid(s.products, store, Str(code.value));
      }
    case Lookup(text) =>
      LookupBranchProducts(s, env, store, chat, text);
      LookupStepValid(s.products, store, Str(text));
    case _ =>
  }

  /**
   * `sendBarcodeInfo` sends its progress message, then the label exactly when one was made; it
   * records the product as the chat's last exactly then, and leaves the product cache alone.
   */
  lemma SendBarcodeInfoReplies(s: BotState, env: Env, chat: string, p: Product)
    ensures var h := SendBarcodeInfoSpec(s, env, chat, p);
            var r := CreateBarcodeImageSpec(s.barcodes, env, p);
            && |h.out| == 2 && h.out[0] == Say(LabelAck)
            && (h.out[1].SendImage? <==> r.result.Ok?)
            && (h.out[1].SendImage? ==> h.out[1].caption == LabelCaption(p))
            && (!h.out[1].SendImage? ==> h.out[1] == Say(LabelErrorText))
            && h.state.products == s.products && h.state.barcodes == r.entries
            && (r.result.Ok? ==> h.state.lastProduct == s.lastProduct[chat := p])
            && (!r.result.Ok? ==> h.state.lastProduct == s.lastProduct)
  {
    LabelFlowCases(s, chat, p, CreateBarcodeImageSpec(s.barcodes, env, p));
  }

  lemma LabelFlowCases(s: BotState, chat: string, p: Product, r: Rendered)
    ensures var h := LabelFlow(s, chat, p, r);
            && |h.out| == 2 && h.out[0] == Say(LabelAck)
            && (h.out[1].SendImage? <==> r.result.Ok?)
            && (h.out[1].SendImage? ==> h.out[1].caption == LabelCaption(p))
            && (!h.out[1].SendImage? ==> h.out[1] == Say(LabelErrorText))
            && h.state.products == s.products && h.state.barcodes == r.entries
            && (r.result.Ok? ==> h.state.lastProduct == s.lastProduct[chat := p])
            && (!r.result.Ok? ==> h.state.lastProduct == s.lastProduct)
  {
  }

  /** A plain lookup that finds nothing quotes the message and touches neither the barcodes nor the last product. */
  lemma HandleLookupMiss(s: BotState, env: Env, store: Store, chat: string, text: string)
    requires LookupStep(s.products, store, Str(text)).found.None?
    ensures HandleCommand(s, env, store, chat, Command.Lookup(text))
            == Handled([Say(LookupAck), Say(NotFoundText(text))], s)
  {
    LookupStepMissKeeps(s.products, store, Str(text));
  }

  /**
   * A plain lookup that finds a product acknowledges and then sends the label flow for it: the
   * label exactly when one was made, else the error message.
   */
  lemma HandleLookupHit(s: BotState, env: Env, store: Store, chat: string, text: string)
    requires LookupStep(s.products, store, Str(text)).found.Some?
    ensures var h := HandleCommand(s, env, store, chat, Command.Lookup(text));
            var l := LookupStep(s.products, store, Str(text));
            && |h.out| == 3 && h.out[0] == Say(LookupAck) && h.out[1] == Say(LabelAck)
            && (h.out[2].SendImage? <==> CreateBarcodeImageSpec(s.barcodes, env, l.found.value).result.Ok?)
  {
    var l := LookupStep(s.products, store, Str(text));
    var s1 := s.(products := l.cache);
    SendBarcodeInfoReplies(s1, env, chat, l.found.value);
    var h1 := SendBarcodeInfoSpec(s1, env, chat, l.found.value);
    assert HandleCommand(s, env, store, chat, Command.Lookup(text)) == Handled([Say(LookupAck)] + h1.out, h1.state);
  }

  // ---------------------------------------------------------------------------
  // The bot's state, updated in place

  class Bot {
    /** `productCache` together with `findProductLocally`. */
    const products: ProductResolver
    /** `barcodeCache` */
    const barcodes: BarcodeCache
    /** `lastProductByChat` */
    var lastProduct: map<string, Product>

    constructor()
      ensures fresh(products) && fresh(barcodes)
      ensures State() == BotState([], map[], map[])
    {
      products := new ProductResolver();
      barcodes := new BarcodeCache();
      lastProduct := map[];
    }

    function State(): BotState
      reads this, products, barcodes
    {
      BotState(products.cache, barcodes.entries, lastProduct)
    }

    method CreateBarcodeImage(env: Env, p: Product) returns (result: Result<Image, Failure>)
      modifies barcodes
      ensures Rendered(result, barcodes.entries) == CreateBarcodeImageSpec(old(barcodes.entries), env, p)
    {
      var outcome := barcodes.Render(env, LabelRequest(p));
      match outcome
      case Encoded(png) => result := Ok(SingleLabel(env, p, png));
      case EncodeFailed(m) => result := Err(Thrown("Barcode error: " + m));
    }

    method GenerateBulkImage(env: Env, p: Product, qty: int) returns (result: Result<Image, Failure>)
      modifies barcodes
      ensures Rendered(result, barcodes.entries) == GenerateBulkImageSpec(old(barcodes.entries), env, p, qty)
    {
      if qty <= 0 || qty > 200 {
        return Err(Thrown("qty invalid"));
      }
      var outcome := barcodes.Render(env, LabelRequest(p));
      match outcome
      case Encoded(png) => result := Ok(BulkLabel(env, p, qty, png));
      case EncodeFailed(m) => result := Err(Thrown(m));
    }

    method SendBarcodeInfo(env: Env, chat: string, p: Product) returns (out: seq<Outgoing>)
      modifies this, barcodes
      ensures Handled(out, State()) == SendBarcodeInfoSpec(old(State()), env, chat, p)
    {
      ghost var s0 := State();
      var result := CreateBarcodeImage(env, p);
      ghost var r := Rendered(result, barcodes.entries);
      assert SendBarcodeInfoSpec(s0, env, chat, p) == LabelFlow(s0, chat, p, r);
      match result
      case Ok(img) =>
        out := [Say(LabelAck), SendImage(img, "barcode.png", LabelCaption(p))];
        lastProduct := lastProduct[chat := p];
      case Err(_) =>
        out := [Say(LabelAck), Say(LabelErrorText)];
    }

    /** The `for (const plu of pluList)` loop of `.plu`: one lookup and one result line per word. */
    method LookUpEach(store: Store, tokens: seq<string>) returns (lines: seq<string>)
      modifies products
      ensures Search(lines, products.cache) == SearchSpec(old(products.cache), store, tokens)
    {
      lines := [];
      var i := 0;
      while i < |tokens|
        invariant 0 <= i <= |tokens|
        invariant Search(lines, products.cache) == SearchSpec(old(products.cache), store, tokens[..i])
      {
        ghost var before := products.cache;
        var found := products.FindProductLocally(store, Str(tokens[i]));
        SearchStep(old(products.cache), store, tokens[..i], tokens[i], lines, before, found, products.cache);
        PrefixSnoc(tokens, i);
        lines := lines + [PluResultLine(tokens[i], found)];
        i := i + 1;
      }
      assert tokens[..|tokens|] == tokens;
    }

    /** The `.plu` branch with words: the acknowledgement, the lookups, the one reply. */
    method SearchMany(store: Store, tokens: seq<string>) returns (out: seq<Outgoing>)
      modifies products
      ensures Handled(out, State()) == PluBranch(old(State()), store, tokens)
    {
      var lines := LookUpEach(store, tokens);
      out := [Say(PluAck), Say(SearchReply(lines))];
    }

    /** The `.bulk` branch with an accepted quantity. */
    method Bulk(env: Env, store: Store, chat: string, qty: int, code: Option<string>) returns (out: seq<Outgoing>)
      modifies products, barcodes
      ensures Handled(out, State()) == BulkBranch(old(State()), env, store, chat, qty, code)
    {
      var found: Option<Product>;
      if code.Some? {
        found := products.FindProductLocally(store, Str(code.value));
      } else if chat in lastProduct {
        found := Some(lastProduct[chat]);
      } else {
        found := None;
      }
      if found.None? {
        out := [Say(NoProductText)];
      } else {
        var result := GenerateBulkImage(env, found.value, qty);
        match result
        case Ok(img) => out := [Say(BulkAck(qty)), BulkImage(img, qty, found.value)];
        case Err(_) => out := [Say(BulkAck(qty)), Say(BulkErrorText)];
      }
    }

    /** The default branch. */
    method LookupAndSend(env: Env, store: Store, chat: string, text: string) returns (out: seq<Outgoing>)
      modifies this, products, barcodes
      ensures Handled(out, State()) == LookupBranch(old(State()), env, store, chat, text)
    {
      ghost var s0 := State();
      var found := products.FindProductLocally(store, Str(text));
      assert LookupBranch(s0, env, store, chat, text) == LookupFlow(s0, env, chat, text, Lookup.Lookup(found, products.cache));
      if found.None? {
        out := [Say(LookupAck), Say(NotFoundText(text))];
      } else {
        var sent := SendBarcodeInfo(env, chat, found.value);
        out := [Say(LookupAck)] + sent;
      }
    }

    /** The `client.on('message')` handler. */
    method HandleMessage(env: Env, store: Store, chat: string, body: string) returns (out: seq<Outgoing>)
      modifies this, products, barcodes
      ensures Handled(out, State()) == Handle(old(State()), env, store, chat, body)
    {
      var cmd := ParseCommand(body);
      match cmd
      case PluUsage => out := [Say(PluUsageText)];
      case PluSearch(tokens) => out := SearchMany(store, tokens);
      case BulkUsage => out := [Say(BulkUsageText)];
      case Bulk(qty, code) => out := Bulk(env, store, chat, qty, code);
      case Lookup(text) => out := LookupAndSend(env, store, chat, text);
    }
  }
}
