/**
 * test-bulk.js: the first bulk sheet generator. It checks the quantity, encodes the code at
 * scale 3 through its own cache, and builds one 540 by 820 label (a grey 540 by 400 photo
 * placeholder, the name, the barcode with its code written under it, and the stored price,
 * all escaped with the unguarded five-entity `esc`), then a `for` loop places `qty` copies of
 * that label one below the other.
 */
module TestBulk {
  import opened Base
  import opened Js
  import opened Escape
  import opened Externals
  import opened Raster
  import opened Layout
  import opened Barcode
  import opened Catalog
  import opened Label

  const ProductH: nat := 400
  const NamaH: nat := 100
  const CodeH: nat := 200
  const PriceH: nat := 100
  /** `productH + namaH + barcodeH + priceH + 20`: the height of one label of the sheet. */
  const UnitHeight: nat := 820
  /** `labelWidth - 60`: the width the barcode is resized to. */
  const BarcodeWidth: nat := 480

  /** The encoder request: the code to render, its symbology, scale 3 and bar height 15. */
  function Request(p: Product): EncodeRequest {
    var code := CodeToRender(p.barcode, p.plu);
    EncodeRequest(ChooseBcid(code), code, 3.0, 15)
  }

  /** The name band: the display name cut to 40 characters, through `esc`. */
  function NameBand(p: Product): (r: Image)
    ensures Shows5(r, LabelWidth, NamaH, Truncate(DisplayName(p), NameLimit))
  {
    TextBlock(LabelWidth, NamaH, [Esc5Unguarded(Str(Truncate(DisplayName(p), NameLimit)))])
  }

  /** The price band: `product.price || '-'` through `esc`, with no "Rp 0,-" substitution. */
  function PriceBand(p: Product): (r: Image)
    ensures Shows5(r, LabelWidth, PriceH, ToString(PriceOrDash(p)))
  {
    TextBlock(LabelWidth, PriceH, [Esc5Unguarded(PriceOrDash(p))])
  }

  /**
   * The barcode band: a 540 by 200 SVG that writes the code near its bottom, with the barcode
   * (resized to at most 480 wide) composited 20 from the top and centred across the width.
   * The barcode always clears both side edges by 30 pixels, and stays inside the band
   * exactly when it is at most 180 high.
   */
  function CodeBand(env: Env, p: Product, png: Image): (r: Image)
    ensures r.width == LabelWidth && r.height == CodeH && r.content.Composite?
    ensures var ls := r.content.layers;
            && |ls| == 2
            && ls[0].top == 0 && ls[0].left == 0
            && Shows5(ls[0].image, LabelWidth, CodeH, CodeToRender(p.barcode, p.plu))
            && ls[1].top == 20 && ls[1].image.width == Min(png.width, BarcodeWidth)
            && 0 <= 2 * ls[1].left - (LabelWidth - ls[1].image.width) <= 1
            && 30 <= ls[1].left && ls[1].left + ls[1].image.width <= LabelWidth - 30
            && (ls[1].top + ls[1].image.height <= CodeH <==> ls[1].image.height <= 180)
  {
    var code := CodeToRender(p.barcode, p.plu);
    var bc := ResizeToWidth(env, png, BarcodeWidth, true);
    Image(LabelWidth, CodeH, Composite("#ffffff", [
      Layer(0, 0, TextBlock(LabelWidth, CodeH, [Esc5Unguarded(Str(code))])),
      Layer(20, Centre(LabelWidth, bc.width), bc)]))
  }

  /** One label: placeholder, name, barcode band and, after a 10-pixel gap, the price. */
  function Unit(name: Image, code: Image, price: Image): seq<Layer> {
    [Layer(0, 0, Placeholder(LabelWidth, ProductH)), Layer(ProductH, 0, name),
     Layer(ProductH + NamaH, 0, code), Layer(ProductH + NamaH + CodeH + 10, 0, price)]
  }

  /** The sheet: 540 wide, `820 * qty` high, with `qty` copies of the label. */
  function Sheet(name: Image, code: Image, price: Image, qty: nat): Image {
    Image(LabelWidth, UnitHeight * qty, Composite("#ffffff", Replicated(Unit(name, code, price), UnitHeight, qty)))
  }

  /**
   * The sheet holds exactly four layers per copy: copy `i` has the placeholder at `820 i`,
   * the name at `820 i + 400`, the barcode band at `820 i + 500` and the price at
   * `820 i + 710`. Bands of their nominal heights keep each copy inside
   * `[820 i, 820 (i + 1))`, which lies within the sheet.
   */
  lemma SheetCopies(name: Image, code: Image, price: Image, qty: nat, i: nat)
    requires i < qty
    ensures var sheet := Sheet(name, code, price, qty);
            var ls := sheet.content.layers;
            && sheet.width == 540 && sheet.height == 820 * qty
            && |ls| == 4 * qty
            && ls[4 * i] == Layer(820 * i, 0, Placeholder(540, 400))
            && ls[4 * i + 1] == Layer(820 * i + 400, 0, name)
            && ls[4 * i + 2] == Layer(820 * i + 500, 0, code)
            && ls[4 * i + 3] == Layer(820 * i + 710, 0, price)
            && 820 * (i + 1) <= sheet.height
    ensures name.height <= NamaH && code.height <= CodeH && price.height <= PriceH ==>
              var ls := Sheet(name, code, price, qty).content.layers;
              forall j :: 4 * i <= j < 4 * i + 4 ==>
                820 * i <= ls[j].top && ls[j].top + ls[j].image.height <= 820 * (i + 1)
  {
    var unit := Unit(name, code, price);
    assert |unit| == 4;
    var ls := Replicated(unit, UnitHeight, qty);
    assert Sheet(name, code, price, qty).content.layers == ls;
    ReplicatedLength(unit, UnitHeight, qty);
    ReplicatedCopy(unit, UnitHeight, qty, i, 0);
    ReplicatedCopy(unit, UnitHeight, qty, i, 1);
    ReplicatedCopy(unit, UnitHeight, qty, i, 2);
    ReplicatedCopy(unit, UnitHeight, qty, i, 3);
    BandBounds(UnitHeight, qty, i);
  }

  /**
   * `generateBulkImage(product, qty)`: `qty invalid` before anything else, then the cached
   * encode with no `try` (the encoder's own error propagates), then the sheet.
   */
  function GenerateBulkImageSpec(entries: map<string, Image>, env: Env, p: Product, qty: int): Rendered {
    if qty <= 0 || qty > 200 then Rendered(Err(Thrown("qty invalid")), entries)
    else
      var step := CachedEncode(entries, env, Request(p));
      match step.outcome
      case Encoded(png) => Rendered(Ok(Sheet(NameBand(p), CodeBand(env, p, png), PriceBand(p), qty)), step.entries)
      case EncodeFailed(m) => Rendered(Err(Thrown(m)), step.entries)
  }

  /**
   * A quantity outside 1..200 throws before the cache or the encoder is touched; otherwise a
   * cached code is not re-encoded, an encoder failure is thrown unchanged and stores nothing,
   * and a success stores the barcode and gives the sheet of `qty` labels, 540 by `820 qty`.
   */
  lemma GenerateBulkImageCases(entries: map<string, Image>, env: Env, p: Product, qty: int)
    ensures var req := Request(p);
            var key := CacheKey(req.bcid, req.text);
            var r := GenerateBulkImageSpec(entries, env, p, qty);
            && (!BulkQtyValid(qty) ==> r == Rendered(Err(Thrown("qty invalid")), entries))
            && (BulkQtyValid(qty) && key in entries ==>
                  r == Rendered(Ok(Sheet(NameBand(p), CodeBand(env, p, entries[key]), PriceBand(p), qty)), entries))
            && (BulkQtyValid(qty) && key !in entries && env.encode(req).EncodeFailed? ==>
                  r == Rendered(Err(Thrown(env.encode(req).message)), entries))
            && (BulkQtyValid(qty) && key !in entries && env.encode(req).Encoded? ==>
                  && r.result == Ok(Sheet(NameBand(p), CodeBand(env, p, env.encode(req).png), PriceBand(p), qty))
                  && r.entries == entries[key := env.encode(req).png])
            && (r.result.Ok? ==> r.result.value.width == 540 && r.result.value.height == 820 * qty)
  {
    var req := Request(p);
    if CacheKey(req.bcid, req.text) in entries {
      CachedEncodeHit(entries, env, req);
    } else {
      CachedEncodeMiss(entries, env, req);
    }
  }

  /**
   * The script's own run: three copies make a 540 by 2460 sheet of twelve composites whose
   * last label starts at 1640.
   */
  lemma ThreeCopies(name: Image, code: Image, price: Image)
    ensures var sheet := Sheet(name, code, price, 3);
            && sheet.width == 540 && sheet.height == 2460
            && |sheet.content.layers| == 12
            && sheet.content.layers[8] == Layer(1640, 0, Placeholder(540, 400))
  {
    SheetCopies(name, code, price, 3, 2);
  }

  /** The module-level `barcodeCache` and `generateBulkImage`. */
  class Generator {
    const barcodes: BarcodeCache

    constructor()
      ensures fresh(barcodes) && barcodes.entries == map[]
    {
      barcodes := new BarcodeCache();
    }

    /** `generateBulkImage`, with the `for (let i = 0; i < qty; i++)` loop that fills `composites`. */
    method GenerateBulkImage(env: Env, p: Product, qty: int) returns (result: Result<Image, Failure>)
      modifies barcodes
      ensures Rendered(result, barcodes.entries) == GenerateBulkImageSpec(old(barcodes.entries), env, p, qty)
    {
      if qty <= 0 || qty > 200 {
        return Err(Thrown("qty invalid"));
      }
      var outcome := barcodes.Render(env, Request(p));
      match outcome
      case Encoded(png) =>
        var unit := Unit(NameBand(p), CodeBand(env, p, png), PriceBand(p));
        var composites := ReplicateLabel(unit, UnitHeight, qty);
        result := Ok(Image(LabelWidth, UnitHeight * qty, Composite("#ffffff", composites)));
      case EncodeFailed(m) => result := Err(Thrown(m));
    }
  }
}
