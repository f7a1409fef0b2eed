/**
 * lib/core.js: the lookup and label code the HTTP server shares. Its `findProductLocally` is
 * the same cached lookup as bot.js's; its `createBarcodeImage` builds the 540 by 670 label
 * with the five-entity `escapeXml`, a photo URL that falls back from `gambar` to `imageUrl`,
 * a barcode resized to at most 500 wide and placed without an upper clamp, and an encoder
 * whose errors propagate unchanged.
 */
module LibCore {
  import opened Base
  import opened Js
  import opened Escape
  import opened Externals
  import opened Raster
  import opened Layout
  import opened Barcode
  import opened Catalog
  import opened Resolver
  import opened Label

  /** `width - 40`: the width the barcode is resized to. */
  const BarcodeWidth: nat := 500

  /** `product.gambar || product.imageUrl || ''` */
  function PhotoUrl(p: Product): (r: string)
    ensures Truthy(p.gambar) ==> r == p.gambar.s
    ensures !Truthy(p.gambar) && Truthy(p.imageUrl) ==> r == p.imageUrl.s
    ensures !Truthy(p.gambar) && !Truthy(p.imageUrl) ==> r == []
  {
    OrText(Or(p.gambar, p.imageUrl), "")
  }

  /**
   * The barcode band: the barcode resized to at most 500 wide, at
   * `Math.max(5, Math.round((200 - bh) / 2))` from the top and
   * `Math.max(0, Math.round((540 - bw) / 2))` from the left. Because the resized barcode is
   * never wider than the band, this is exactly bot.js's clamped placement, for every height.
   */
  function BarcodeBandOf(env: Env, png: Image): (r: Image)
    ensures r.width == LabelWidth && r.height == BarcodeBand
    ensures r.content.Composite? && |r.content.layers| == 1
    ensures var l := r.content.layers[0];
            && l.image.width == Min(png.width, BarcodeWidth)
            && l == ClampedBarcodeLayer(l.image)
            && l.left >= 0 && l.left + l.image.width <= LabelWidth
  {
    var bc := ResizeToWidth(env, png, BarcodeWidth, true);
    BarcodeSection(CoreBarcodeLayer(bc))
  }

  /** The label: photo, name, barcode and price at tops 0, 300, 380 and 590 on 540 by 670. */
  function CoreLabel(env: Env, p: Product, png: Image): (r: Image)
    ensures r.width == LabelWidth && r.height == 670
    ensures r.content == Composite("#ffffff", [
              Layer(0, 0, PhotoBand(env, PhotoUrl(p))), Layer(300, 0, NameBand5(DisplayName(p))),
              Layer(380, 0, BarcodeBandOf(env, png)), Layer(590, 0, PriceBand5(ShownPrice(p)))])
  {
    CoreStack([PhotoBand(env, PhotoUrl(p)), NameBand5(DisplayName(p)), BarcodeBandOf(env, png), PriceBand5(ShownPrice(p))])
  }

  /**
   * The photo falls back from `gambar` to `imageUrl`, and to the placeholder when neither
   * gives a usable photo; the barcode band ends at 580, 10 pixels above the price band, which
   * ends the canvas; a barcode at most 195 high stays inside its band. The name band shows
   * the display name cut to 40 characters and the price band the shown price.
   */
  lemma CoreLabelBands(env: Env, p: Product, png: Image)
    ensures var layers := CoreLabel(env, p, png).content.layers;
            && Shows5(layers[1].image, LabelWidth, NameHeight, Truncate(DisplayName(p), NameLimit))
            && Shows5(layers[3].image, LabelWidth, PriceHeight, ToString(ShownPrice(p)))
    ensures PhotoBand(env, PhotoUrl(p)) == Placeholder(LabelWidth, PhotoHeight)
            <==> PhotoFails(env, PhotoUrl(p))
    ensures !Truthy(p.gambar) && !Truthy(p.imageUrl) ==>
              PhotoBand(env, PhotoUrl(p)) == Placeholder(LabelWidth, PhotoHeight)
    ensures var layers := CoreLabel(env, p, png).content.layers;
            && layers[2].top + BarcodeBand + 10 == layers[3].top
            && layers[3].top + PriceHeight == CoreLabel(env, p, png).height
    ensures var l := BarcodeBandOf(env, png).content.layers[0];
            l.top + l.image.height <= BarcodeBand <==> l.image.height <= BarcodeBand - 5
  {
    ShownPriceCases(p);
    var l := BarcodeBandOf(env, png).content.layers[0];
    assert l == ClampedBarcodeLayer(l.image);
  }

  /**
   * `createBarcodeImage(product)`: the cached encode with no `try` (an encoder error is
   * thrown unchanged and nothing is stored), then the label.
   */
  function CreateBarcodeImageSpec(entries: map<string, Image>, env: Env, p: Product): Rendered {
    var step := CachedEncode(entries, env, LabelRequest(p));
    match step.outcome
    case Encoded(png) => Rendered(Ok(CoreLabel(env, p, png)), step.entries)
    case EncodeFailed(m) => Rendered(Err(Thrown(m)), step.entries)
  }

  /**
   * A cached code is never re-encoded; an encoder failure is thrown as it is and stores
   * nothing; a success stores the barcode under `bcid:code` and gives the 540 by 670 label.
   */
  lemma CreateBarcodeImageCases(entries: map<string, Image>, env: Env, p: Product)
    ensures var req := LabelRequest(p);
            var key := CacheKey(req.bcid, req.text);
            var r := CreateBarcodeImageSpec(entries, env, p);
            && (key in entries ==> r == Rendered(Ok(CoreLabel(env, p, entries[key])), entries))
            && (key !in entries && env.encode(req).EncodeFailed? ==>
                  r == Rendered(Err(Thrown(env.encode(req).message)), entries))
            && (key !in entries && env.encode(req).Encoded? ==>
                  && r.result == Ok(CoreLabel(env, p, env.encode(req).png))
                  && r.entries == entries[key := env.encode(req).png])
            && (r.result.Ok? ==> r.result.value.width == 540 && r.result.value.height == 670)
  {
    var req := LabelRequest(p);
    if CacheKey(req.bcid, req.text) in entries {
      CachedEncodeHit(entries, env, req);
    } else {
      CachedEncodeMiss(entries, env, req);
    }
  }

  /** The module's two caches and the two functions it exports. */
  class Core {
    /** `productCache` together with `findProductLocally`. */
    const products: ProductResolver
    /** `barcodeCache` */
    const barcodes: BarcodeCache

    constructor()
      ensures fresh(products) && fresh(barcodes)
      ensures products.cache == [] && barcodes.entries == map[]
    {
      products := new ProductResolver();
      barcodes := new BarcodeCache();
    }

    /** The exported `findProductLocally(query)`. */
    method FindProductLocally(store: Store, query: Value) returns (found: Option<Product>)
      modifies products
      ensures Lookup(found, products.cache) == LookupStep(old(products.cache), store, query)
      ensures old(ValidCache(products.cache)) ==> ValidCache(products.cache)
    {
      found := products.FindProductLocally(store, query);
    }

    /** The exported `createBarcodeImage(product)`. */
    method CreateBarcodeImage(env: Env, p: Product) returns (result: Result<Image, Failure>)
      modifies barcodes
      ensures Rendered(result, barcodes.entries) == CreateBarcodeImageSpec(old(barcodes.entries), env, p)
    {
      var outcome := barcodes.Render(env, LabelRequest(p));
      match outcome
      case Encoded(png) => result := Ok(CoreLabel(env, p, png));
      case EncodeFailed(m) => result := Err(Thrown(m));
    }
  }
}
