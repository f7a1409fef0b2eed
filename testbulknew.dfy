/**
 * test-bulk-new.js: the bulk generator that makes one label carrying the quantity instead of
 * a sheet of copies. The label is bot.js's five-band bulk layout, but the name comes from
 * `nama` alone, the photo from `gambar` alone, every text goes through the guarded
 * five-entity `esc`, the barcode is resized to at most 500 wide, and the quantity is never
 * checked.
 */
module TestBulkNew {
  import opened Base
  import opened Js
  import opened Escape
  import opened Externals
  import opened Raster
  import opened Layout
  import opened Barcode
  import opened Catalog
  import opened Label

  /** `width - 40`: the width the barcode is resized to. */
  const BarcodeWidth: nat := 500

  /** The label: photo, name, barcode, quantity and price at tops 0, 300, 380, 580 and 640 on 540 by 730. */
  function BulkLabel(env: Env, p: Product, qty: int, png: Image): (r: Image)
    ensures r.width == LabelWidth && r.height == 730
    ensures r.content == Composite("#ffffff", [
              Layer(0, 0, PhotoBand(env, GambarUrl(p))), Layer(300, 0, NameBand5(SheetName(p))),
              Layer(380, 0, ClampedBarcodeBand(env, png, BarcodeWidth)), Layer(580, 0, QtyBand(qty)),
              Layer(640, 0, PriceBand5(ShownPrice(p)))])
  {
    BulkStack([PhotoBand(env, GambarUrl(p)), NameBand5(SheetName(p)), ClampedBarcodeBand(env, png, BarcodeWidth),
               QtyBand(qty), PriceBand5(ShownPrice(p))])
  }

  /**
   * The name band shows `nama` (or the placeholder name) cut to 40 characters, the price band
   * the shown price (`Rp 0,-` exactly when the price is missing, zero, `-` or `Rp 0,-`), and
   * the photo is the placeholder exactly when the `gambar` photo fails; the five bands are
   * contiguous, the price band ending at 720, 10 pixels above the canvas's end; the barcode
   * keeps at least 5 pixels above it and stays inside its band only while at most 195 high.
   */
  lemma LabelBands(env: Env, p: Product, qty: int, png: Image)
    ensures var r := BulkLabel(env, p, qty, png);
            var ls := r.content.layers;
            && Shows5(ls[1].image, LabelWidth, NameHeight, Truncate(SheetName(p), NameLimit))
            && Shows5(ls[4].image, LabelWidth, PriceHeight, ToString(ShownPrice(p)))
            && (ls[0].image == Placeholder(LabelWidth, PhotoHeight) <==> PhotoFails(env, GambarUrl(p)))
            && ls[0].top + ls[0].image.height == ls[1].top && ls[1].top + ls[1].image.height == ls[2].top
            && ls[2].top + ls[2].image.height == ls[3].top && ls[3].top + ls[3].image.height == ls[4].top
            && ls[4].top + ls[4].image.height + 10 == r.height
    ensures ShownPrice(p) == Str("Rp 0,-") <==>
              !Truthy(p.price) || p.price == Str("-") || p.price == Str("Rp 0,-")
    ensures var l := ClampedBarcodeBand(env, png, BarcodeWidth).content.layers[0];
            && l.top >= 5
            && (l.top + l.image.height <= BarcodeBand <==> l.image.height <= BarcodeBand - 5)
  {
    ShownPriceCases(p);
    var photo, name, bc, price := PhotoBand(env, GambarUrl(p)), NameBand5(SheetName(p)),
      ClampedBarcodeBand(env, png, BarcodeWidth), PriceBand5(ShownPrice(p));
    var ls := BulkLabel(env, p, qty, png).content.layers;
    assert ls[0].image == photo && ls[1].image == name && ls[2].image == bc && ls[4].image == price;
  }

  /**
   * The quantity changes the label only through its own band: two quantities give labels of
   * the same size whose other four layers are identical, and different quantities give
   * different quantity bands.
   */
  lemma QtyOnlyInItsBand(env: Env, p: Product, png: Image, q1: int, q2: int)
    ensures var a := BulkLabel(env, p, q1, png);
            var b := BulkLabel(env, p, q2, png);
            && a.width == b.width && a.height == b.height
            && |a.content.layers| == |b.content.layers| == 5
            && (forall i :: 0 <= i < 5 && i != 3 ==> a.content.layers[i] == b.content.layers[i])
            && (a.content.layers[3] == b.content.layers[3] <==> q1 == q2)
  {
    QtyBandInjective(q1, q2);
    var a := BulkLabel(env, p, q1, png).content.layers;
    var b := BulkLabel(env, p, q2, png).content.layers;
    assert a[0] == b[0] && a[1] == b[1] && a[2] == b[2] && a[4] == b[4];
    assert a[3] == Layer(580, 0, QtyBand(q1)) && b[3] == Layer(580, 0, QtyBand(q2));
  }

  /**
   * `generateBulkImage(product, qty)`: no check of `qty` at all, the cached encode with no
   * `try` (the encoder's own error propagates), then the one label.
   */
  function GenerateBulkImageSpec(entries: map<string, Image>, env: Env, p: Product, qty: int): Rendered {
    var step := CachedEncode(entries, env, LabelRequest(p));
    match step.outcome
    case Encoded(png) => Rendered(Ok(BulkLabel(env, p, qty, png)), step.entries)
    case EncodeFailed(m) => Rendered(Err(Thrown(m)), step.entries)
  }

  /**
   * Whatever the quantity (zero, negative or above 200 included), a cached code is not
   * re-encoded, an encoder failure is thrown unchanged and stores nothing, and a success
   * stores the barcode and gives the 540 by 730 label showing `Qty: <qty>`.
   */
  lemma GenerateBulkImageCases(entries: map<string, Image>, env: Env, p: Product, qty: int)
    ensures var req := LabelRequest(p);
            var key := CacheKey(req.bcid, req.text);
            var r := GenerateBulkImageSpec(entries, env, p, qty);
            && (key in entries ==> r == Rendered(Ok(BulkLabel(env, p, qty, entries[key])), entries))
            && (key !in entries && env.encode(req).EncodeFailed? ==>
                  r == Rendered(Err(Thrown(env.encode(req).message)), entries))
            && (key !in entries && env.encode(req).Encoded? ==>
                  && r.result == Ok(BulkLabel(env, p, qty, env.encode(req).png))
                  && r.entries == entries[key := env.encode(req).png])
            && (r.result.Ok? ==> r.result.value.width == 540 && r.result.value.height == 730
                                 && r.result.value.content.layers[3].image == QtyBand(qty))
  {
    var req := LabelRequest(p);
    if CacheKey(req.bcid, req.text) in entries {
      CachedEncodeHit(entries, env, req);
    } else {
      CachedEncodeMiss(entries, env, req);
    }
  }

  /** Once the encode succeeds, the label of every quantity comes from the same barcode. */
  lemma EncodedLabel(entries: map<string, Image>, env: Env, p: Product, qty: int)
    requires CachedEncode(entries, env, LabelRequest(p)).outcome.Encoded?
    ensures var s := CachedEncode(entries, env, LabelRequest(p));
            GenerateBulkImageSpec(entries, env, p, qty) == Rendered(Ok(BulkLabel(env, p, qty, s.outcome.png)), s.entries)
  {
  }

  /**
   * The script's own run over quantities 5, 12 and 20 of one product: once the first call has
   * encoded the barcode, the later two are cache hits, and the three labels differ only in
   * the quantity band.
   */
  lemma RunOfThree(entries: map<string, Image>, env: Env, p: Product)
    requires CachedEncode(entries, env, LabelRequest(p)).outcome.Encoded?
    ensures var r5 := GenerateBulkImageSpec(entries, env, p, 5);
            var r12 := GenerateBulkImageSpec(r5.entries, env, p, 12);
            var r20 := GenerateBulkImageSpec(r12.entries, env, p, 20);
            && r5.result.Ok? && r12.result.Ok? && r20.result.Ok?
            && r20.entries == r12.entries == r5.entries
            && (forall i :: 0 <= i < 5 && i != 3 ==>
                  && r12.result.value.content.layers[i] == r5.result.value.content.layers[i]
                  && r20.result.value.content.layers[i] == r5.result.value.content.layers[i])
            && r12.result.value.content.layers[3] != r5.result.value.content.layers[3]
            && r20.result.value.content.layers[3] != r5.result.value.content.layers[3]
  {
    var req := LabelRequest(p);
    var s := CachedEncode(entries, env, req);
    var png := s.outcome.png;
    CachedEncodeOnce(entries, env, env, req);
    EncodedLabel(entries, env, p, 5);
    EncodedLabel(s.entries, env, p, 12);
    EncodedLabel(s.entries, env, p, 20);
    var a, b, c := BulkLabel(env, p, 5, png), BulkLabel(env, p, 12, png), BulkLabel(env, p, 20, png);
    assert GenerateBulkImageSpec(entries, env, p, 5) == Rendered(Ok(a), s.entries);
    assert GenerateBulkImageSpec(s.entries, env, p, 12) == Rendered(Ok(b), s.entries);
    assert GenerateBulkImageSpec(s.entries, env, p, 20) == Rendered(Ok(c), s.entries);
    QtyOnlyInItsBand(env, p, png, 5, 12);
    QtyOnlyInItsBand(env, p, png, 5, 20);
  }

  /** The module-level `barcodeCache` and `generateBulkImage`. */
  class Generator {
    const barcodes: BarcodeCache

    constructor()
      ensures fresh(barcodes) && barcodes.entries == map[]
    {
      barcodes := new BarcodeCache();
    }

    method GenerateBulkImage(env: Env, p: Product, qty: int) returns (result: Result<Image, Failure>)
      modifies barcodes
      ensures Rendered(result, barcodes.entries) == GenerateBulkImageSpec(old(barcodes.entries), env, p, qty)
    {
      var outcome := barcodes.Render(env, LabelRequest(p));
      match outcome
      case Encoded(png) => result := Ok(BulkLabel(env, p, qty, png));
      case EncodeFailed(m) => result := Err(Thrown(m));
    }
  }
}
