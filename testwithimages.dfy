/**
 * test-with-images.js: lib/core.js's 540 by 670 label with the photo taken from `gambar`
 * alone, the name from `nama` alone, the barcode placed by the clamped formula, and a price
 * band that always reads `Rp 0,-` whatever the product's price. `generateExamples` renders
 * each sample in turn through one barcode cache, writes every label that succeeds and goes
 * on after one that fails.
 */
module TestWithImages {
  import opened Base
  import opened Js
  import opened Escape
  import opened Externals
  import opened Raster
  import opened Layout
  import opened Barcode
  import opened Catalog
  import opened Label

  /** `width - 40`: the width the barcode is resized to. */
  const BarcodeWidth: nat := 500

  /** `priceDisplay`: the one price every label shows. */
  const FixedPrice := "Rp 0,-"

  /** The label: photo, name, barcode and the fixed price at tops 0, 300, 380 and 590 on 540 by 670. */
  function ImageLabel(env: Env, p: Product, png: Image): (r: Image)
    ensures r.width == LabelWidth && r.height == 670
    ensures r.content == Composite("#ffffff", [
              Layer(0, 0, PhotoBand(env, GambarUrl(p))), Layer(300, 0, NameBand5(SheetName(p))),
              Layer(380, 0, ClampedBarcodeBand(env, png, BarcodeWidth)), Layer(590, 0, PriceBand5(Str(FixedPrice)))])
  {
    CoreStack([PhotoBand(env, GambarUrl(p)), NameBand5(SheetName(p)), ClampedBarcodeBand(env, png, BarcodeWidth),
               PriceBand5(Str(FixedPrice))])
  }

  /** The price band of every label shows `Rp 0,-`. */
  lemma FixedPriceBand()
    ensures Shows5(PriceBand5(Str(FixedPrice)), LabelWidth, PriceHeight, FixedPrice)
  {
  }

  /**
   * The name band shows `nama` (or the placeholder name) cut to 40 characters and the price
   * band `Rp 0,-`; the photo is the placeholder exactly when the `gambar` photo fails.
   */
  lemma LabelShows(env: Env, p: Product, png: Image)
    ensures var ls := ImageLabel(env, p, png).content.layers;
            && Shows5(ls[1].image, LabelWidth, NameHeight, Truncate(SheetName(p), NameLimit))
            && Shows5(ls[3].image, LabelWidth, PriceHeight, FixedPrice)
            && (ls[0].image == Placeholder(LabelWidth, PhotoHeight) <==> PhotoFails(env, GambarUrl(p)))
  {
    FixedPriceBand();
    var photo, name, price := PhotoBand(env, GambarUrl(p)), NameBand5(SheetName(p)), PriceBand5(Str(FixedPrice));
    var ls := ImageLabel(env, p, png).content.layers;
    assert ls[0].image == photo && ls[1].image == name && ls[3].image == price;
  }

  /**
   * The barcode band ends 10 pixels above the price band, which ends the canvas; the barcode
   * keeps 5 pixels above it and stays inside its band only while at most 195 high.
   */
  lemma LabelLayout(env: Env, p: Product, png: Image)
    ensures var r := ImageLabel(env, p, png);
            var ls := r.content.layers;
            && ls[2].top + ls[2].image.height + 10 == ls[3].top
            && ls[3].top + ls[3].image.height == r.height
    ensures var l := ClampedBarcodeBand(env, png, BarcodeWidth).content.layers[0];
            && l.top >= 5
            && (l.top + l.image.height <= BarcodeBand <==> l.image.height <= BarcodeBand - 5)
  {
    var ls := ImageLabel(env, p, png).content.layers;
    assert ls[2].image == ClampedBarcodeBand(env, png, BarcodeWidth) && ls[3].image == PriceBand5(Str(FixedPrice));
  }

  /** What `createBarcodeImage` resolves with: `{ png, plu, nama }`. */
  datatype Made = Made(png: Image, plu: string, nama: string)

  /** What a call gives (the record or the error it throws) and the barcode cache it leaves. */
  datatype Created = Created(result: Result<Made, Failure>, entries: map<string, Image>)

  /**
   * `createBarcodeImage(product)`: the cached encode with no `try` (the encoder's error
   * propagates), then the label, returned with `plu || 'N/A'` and `nama || 'Nama Tidak Tersedia'`.
   */
  function CreateBarcodeImageSpec(entries: map<string, Image>, env: Env, p: Product): Created {
    var step := CachedEncode(entries, env, LabelRequest(p));
    match step.outcome
    case Encoded(png) => Created(Ok(Made(ImageLabel(env, p, png), OrText(p.plu, "N/A"), SheetName(p))), step.entries)
    case EncodeFailed(m) => Created(Err(Thrown(m)), step.entries)
  }

  /**
   * A cached code is not re-encoded, an encoder failure is thrown unchanged and stores
   * nothing, and a success stores the barcode and gives the 540 by 670 label together with
   * the product's `plu` (or `N/A`) and name.
   */
  lemma CreateBarcodeImageCases(entries: map<string, Image>, env: Env, p: Product)
    ensures var req := LabelRequest(p);
            var key := CacheKey(req.bcid, req.text);
            var r := CreateBarcodeImageSpec(entries, env, p);
            && (key in entries ==> r.entries == entries && r.result.Ok?
                                   && r.result.value.png == ImageLabel(env, p, entries[key]))
            && (key !in entries && env.encode(req).EncodeFailed? ==>
                  r == Created(Err(Thrown(env.encode(req).message)), entries))
            && (key !in entries && env.encode(req).Encoded? ==>
                  && r.result.Ok? && r.result.value.png == ImageLabel(env, p, env.encode(req).png)
                  && r.entries == entries[key := env.encode(req).png])
            && (r.result.Ok? ==> r.result.value.plu == OrText(p.plu, "N/A") && r.result.value.nama == SheetName(p)
                                 && r.result.value.png.width == 540 && r.result.value.png.height == 670)
  {
    var req := LabelRequest(p);
    if CacheKey(req.bcid, req.text) in entries {
      CachedEncodeHit(entries, env, req);
    } else {
      CachedEncodeMiss(entries, env, req);
    }
  }

  /**
   * The product's price plays no part: changing it changes neither the label nor the cache,
   * so the samples' prices never reach the picture.
   */
  lemma PriceIgnored(entries: map<string, Image>, env: Env, p: Product, price: Value)
    ensures CreateBarcodeImageSpec(entries, env, p.(price := price)) == CreateBarcodeImageSpec(entries, env, p)
  {
    var q := p.(price := price);
    assert LabelRequest(q) == LabelRequest(p);
    assert GambarUrl(q) == GambarUrl(p) && SheetName(q) == SheetName(p);
  }

  // ---------------------------------------------------------------------------
  // generateExamples

  /** A file written by the loop: its name and the label it holds. */
  datatype Written = Written(name: string, png: Image)

  /** `example-${i + 1}-plu${plu}.png`, with `plu` defaulting to `N/A`. */
  function FileName(i: nat, p: Product): string {
    "example-" + NatToString(i + 1) + "-plu" + OrText(p.plu, "N/A") + ".png"
  }

  /** The digits after `example-` in a file name are the position's number. */
  lemma FileNameNumber(i: nat, p: Product)
    ensures var f := FileName(i, p);
            |f| >= 8 && LeadingDigits(f[8..]) == NatToString(i + 1)
  {
    var d := NatToString(i + 1);
    var rest := "-plu" + OrText(p.plu, "N/A") + ".png";
    assert FileName(i, p)[8..] == d + rest;
    LeadingDigitsStop(d, rest);
  }

  /** Different positions give different file names, so no label overwrites another. */
  lemma FileNamesDistinct(i: nat, j: nat, p: Product, q: Product)
    ensures FileName(i, p) == FileName(j, q) ==> i == j
  {
    FileNameNumber(i, p);
    FileNameNumber(j, q);
    DecimalValueOfNatToString(i + 1);
    DecimalValueOfNatToString(j + 1);
  }

  /** The files written and the barcode cache left by a run over some samples. */
  datatype Batch = Batch(files: seq<Written>, entries: map<string, Image>)

  /**
   * The loop over the samples in order: each sample's label is written under its own name
   * when `createBarcodeImage` succeeds, and the loop goes on when it throws.
   */
  function Examples(entries: map<string, Image>, env: Env, samples: seq<Product>): Batch
    decreases |samples|
  {
    if samples == [] then Batch([], entries)
    else
      var i := |samples| - 1;
      var prev := Examples(entries, env, samples[..i]);
      var c := CreateBarcodeImageSpec(prev.entries, env, samples[i]);
      match c.result
      case Ok(m) => Batch(prev.files + [Written(FileName(i, samples[i]), m.png)], c.entries)
      case Err(_) => Batch(prev.files, c.entries)
  }

  /** With an encoder that never fails, `createBarcodeImage` always gives a 540 by 670 label. */
  lemma NeverFails(entries: map<string, Image>, env: Env, p: Product)
    requires forall req :: env.encode(req).Encoded?
    ensures var c := CreateBarcodeImageSpec(entries, env, p);
            c.result.Ok? && c.result.value.png.height == 670
  {
    var req := LabelRequest(p);
    assert env.encode(req).Encoded?;
  }

  /** A run over one more sample writes that sample's label after the others when it succeeds. */
  lemma ExamplesSnoc(entries: map<string, Image>, env: Env, samples: seq<Product>, p: Product)
    ensures var prev := Examples(entries, env, samples);
            var c := CreateBarcodeImageSpec(prev.entries, env, p);
            var b := Examples(entries, env, samples + [p]);
            && (c.result.Ok? ==> b.files == prev.files + [Written(FileName(|samples|, p), c.result.value.png)])
            && (c.result.Err? ==> b.files == prev.files)
            && b.entries == c.entries
  {
    assert (samples + [p])[..|samples|] == samples;
  }

  /** One file per sample, in order, the k-th named after position k and holding a 540 by 670 label. */
  predicate WrittenInOrder(files: seq<Written>, samples: seq<Product>) {
    && |files| == |samples|
    && forall k :: 0 <= k < |samples| ==> files[k].name == FileName(k, samples[k]) && files[k].png.height == 670
  }

  lemma WrittenInOrderSnoc(files: seq<Written>, samples: seq<Product>, w: Written, p: Product)
    requires WrittenInOrder(files, samples)
    requires w.name == FileName(|samples|, p) && w.png.height == 670
    ensures WrittenInOrder(files + [w], samples + [p])
  {
  }

  /** With an encoder that never fails, every sample is written, one file per sample and in order. */
  lemma {:induction false} AllWritten(entries: map<string, Image>, env: Env, samples: seq<Product>)
    requires forall req :: env.encode(req).Encoded?
    ensures WrittenInOrder(Examples(entries, env, samples).files, samples)
    decreases |samples|
  {
    if samples != [] {
      var i := |samples| - 1;
      var init, p := samples[..i], samples[i];
      assert init + [p] == samples;
      AllWritten(entries, env, init);
      var prev := Examples(entries, env, init);
      NeverFails(prev.entries, env, p);
      ExamplesSnoc(entries, env, init, p);
      var c := CreateBarcodeImageSpec(prev.entries, env, p);
      WrittenInOrderSnoc(prev.files, init, Written(FileName(i, p), c.result.value.png), p);
    }
  }

  /** The module-level `barcodeCache`, `createBarcodeImage` and `generateExamples`. */
  class Generator {
    const barcodes: BarcodeCache

    constructor()
      ensures fresh(barcodes) && barcodes.entries == map[]
    {
      barcodes := new BarcodeCache();
    }

    method CreateBarcodeImage(env: Env, p: Product) returns (result: Result<Made, Failure>)
      modifies barcodes
      ensures Created(result, barcodes.entries) == CreateBarcodeImageSpec(old(barcodes.entries), env, p)
    {
      var outcome := barcodes.Render(env, LabelRequest(p));
      match outcome
      case Encoded(png) => result := Ok(Made(ImageLabel(env, p, png), OrText(p.plu, "N/A"), SheetName(p)));
      case EncodeFailed(m) => result := Err(Thrown(m));
    }

    /** `generateExamples`: the `for` loop with a `try` around each sample. */
    method GenerateExamples(env: Env, samples: seq<Product>) returns (files: seq<Written>)
      modifies barcodes
      ensures Batch(files, barcodes.entries) == Examples(old(barcodes.entries), env, samples)
    {
      files := [];
      var i := 0;
      while i < |samples|
        invariant 0 <= i <= |samples|
        invariant Batch(files, barcodes.entries) == Examples(old(barcodes.entries), env, samples[..i])
      {
        var made := CreateBarcodeImage(env, samples[i]);
        if made.Ok? {
          files := files + [Written(FileName(i, samples[i]), made.value.png)];
        }
        PrefixSnoc(samples, i);
        i := i + 1;
      }
      assert samples[..|samples|] == samples;
    }
  }
}
