/**
 * test-real-data.js: an 800 by 920 label for sheet records with a price given beside them.
 * It keeps no cache (every call encodes), encodes at scale 4 and bar height 20, always shows
 * the grey placeholder instead of a photo, always cuts the name with `substring(0, 50)`, and
 * escapes the name and the price with the three-entity `esc`.
 */
module TestRealData {
  import opened Base
  import opened Js
  import opened Escape
  import opened Externals
  import opened Raster
  import opened Barcode
  import opened Catalog
  import opened Label

  const Width: nat := 800
  const ProductH: nat := 600
  const NamaH: nat := 80
  const BarcodeH: nat := 150
  const PriceH: nat := 70
  /** `productHeight + namaHeight + barcodeHeight + priceHeight + 20` */
  const TotalHeight: nat := 920
  /** `width - 40`: the width the barcode is resized to. */
  const BarcodeWidth: nat := 760
  /** The length `substring(0, 50)` keeps. */
  const NameCut: nat := 50

  /** The encoder request: the code to render, its symbology, scale 4 and bar height 20. */
  function Request(p: Product): EncodeRequest {
    var code := CodeToRender(p.barcode, p.plu);
    EncodeRequest(ChooseBcid(code), code, 4.0, 20)
  }

  /** The name band: `nama || 'Nama Tidak Tersedia'`, always cut with `substring(0, 50)`, through `esc`. */
  function NameBand(p: Product): (r: Image)
    ensures Shows3(r, Width, NamaH, Truncate(SheetName(p), NameCut))
  {
    SubstringIsTruncate(SheetName(p), NameCut);
    TextBlock(Width, NamaH, [Esc3(Str(Substring(SheetName(p), 0, NameCut)))])
  }

  /** The price band: the given price through `esc`. */
  function PriceBand(price: Value): (r: Image)
    ensures Shows3(r, Width, PriceH, OrText(price, ""))
  {
    TextBlock(Width, PriceH, [Esc3(price)])
  }

  /** The composite: placeholder at 0, name at 600, the resized barcode at (20, 690), price at 840. */
  function RealLabel(env: Env, p: Product, price: Value, png: Image): Image {
    Image(Width, TotalHeight, Composite("#ffffff", [
      Layer(0, 0, Placeholder(Width, ProductH)),
      Layer(ProductH, 0, NameBand(p)),
      Layer(ProductH + NamaH + 10, 20, ResizeToWidth(env, png, BarcodeWidth, true)),
      Layer(ProductH + NamaH + BarcodeH + 10, 0, PriceBand(price))]))
  }

  /**
   * The label is 800 by 920: the 800 by 600 placeholder, then the name band, which shows a
   * prefix of at most 50 characters of the name; the barcode 10 pixels below it, at most 760
   * wide with 20 pixels on either side, which clears the price band exactly when it is at
   * most 150 high; and the price band, which shows the given price and ends 10 pixels above
   * the canvas's end.
   */
  lemma LabelLayout(env: Env, p: Product, price: Value, png: Image)
    ensures var r := RealLabel(env, p, price, png);
            var ls := r.content.layers;
            && r.width == 800 && r.height == 920 && r.content.Composite? && |ls| == 4
            && ls[0] == Layer(0, 0, Placeholder(800, 600))
            && ls[1].top == 600 && ls[1].left == 0
            && Shows3(ls[1].image, 800, 80, Truncate(SheetName(p), NameCut))
            && ls[1].top + ls[1].image.height + 10 == ls[2].top
            && ls[2].left == 20 && ls[2].image.width == Min(png.width, 760)
            && ls[2].left + ls[2].image.width + 20 <= r.width
            && (ls[2].top + ls[2].image.height <= ls[3].top <==> ls[2].image.height <= 150)
            && ls[3].top == 840 && ls[3].left == 0
            && Shows3(ls[3].image, 800, 70, OrText(price, ""))
            && ls[3].top + ls[3].image.height + 10 == r.height
  {
    var name, bc, priceBand := NameBand(p), ResizeToWidth(env, png, BarcodeWidth, true), PriceBand(price);
    var ls := RealLabel(env, p, price, png).content.layers;
    assert ls[1].image == name && ls[2].image == bc && ls[3].image == priceBand;
  }

  /** The name is shown cut to a prefix of at most 50 characters, and whole when it is no longer. */
  lemma NameCutToFifty(p: Product)
    ensures var shown := DecodeEntities(NameBand(p).content.texts[0]);
            && |shown| <= 50 && shown == SheetName(p)[..|shown|]
            && (|SheetName(p)| <= 50 ==> shown == SheetName(p))
  {
  }

  /**
   * `createBarcodeImage(product, price)`: the encode with no cache and no `try` (its error
   * propagates), then the label.
   */
  function CreateBarcodeImageSpec(env: Env, p: Product, price: Value): Result<Image, Failure> {
    match env.encode(Request(p))
    case Encoded(png) => Ok(RealLabel(env, p, price, png))
    case EncodeFailed(m) => Err(Thrown(m))
  }

  /**
   * The call succeeds exactly when the encoder does, throws the encoder's own message
   * otherwise, and every label it gives is 800 by 920. With no cache, the outcome depends
   * on what the encoder answers now, whatever it answered before.
   */
  lemma CreateBarcodeImageCases(env: Env, p: Product, price: Value)
    ensures var req := Request(p);
            var r := CreateBarcodeImageSpec(env, p, price);
            && (r.Ok? <==> env.encode(req).Encoded?)
            && (r.Err? ==> r.error == Thrown(env.encode(req).message))
            && (r.Ok? ==> r.value == RealLabel(env, p, price, env.encode(req).png)
                          && r.value.width == 800 && r.value.height == 920)
            && req.scale == 4.0 && req.height == 20 && req.text != []
  {
  }
}
