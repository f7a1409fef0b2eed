/**
 * test-plu.js: one label for one PLU of `barcodesheet.json`. The record is found by exact
 * PLU, the code is `barcode || plu` taken as it is (no trim, no `N/A`), the encoding goes
 * through the script's own cache at scale 3.5, the photo comes from `gambar`, the name is
 * `nama` read with no fallback, and the price band shows `price || 'Rp 0,-'`. Any error
 * ends the process.
 */
module TestPlu {
  import opened Base
  import opened Js
  import opened Escape
  import opened Externals
  import opened Raster
  import opened Layout
  import opened Barcode
  import opened Catalog
  import opened Label

  /** `width - 40`: the width the barcode is resized to. */
  const BarcodeWidth: nat := 500

  /** `barcodesheet.find(p => p.plu === plu)`: the first record whose `plu` is the string `plu`. */
  function FindByPlu(sheet: seq<Product>, plu: string): (r: Option<Product>)
    ensures r.None? <==> forall j :: 0 <= j < |sheet| ==> sheet[j].plu != Str(plu)
    ensures r.Some? ==> exists i :: 0 <= i < |sheet| && sheet[i] == r.value && sheet[i].plu == Str(plu)
                                    && forall j :: 0 <= j < i ==> sheet[j].plu != Str(plu)
  {
    match FirstMatch(sheet, {PluColumn}, plu)
    case Some(i) =>
      assert Matches(sheet[i], {PluColumn}, plu);
      Some(sheet[i])
    case None => None
  }

  /** `product.barcode || product.plu`, used as the code with no trimming. */
  function Code(p: Product): string {
    ToString(Or(p.barcode, p.plu))
  }

  /**
   * The code agrees with the other generators' whenever the barcode has a non-space
   * character; a barcode made only of spaces is sent to the encoder as it is, as Code 128,
   * where the other generators fall back to the PLU.
   */
  lemma CodeCompared(p: Product)
    ensures !AllSpace(OrText(p.barcode, "")) ==> Code(p) == CodeToRender(p.barcode, p.plu)
    ensures Truthy(p.barcode) && AllSpace(p.barcode.s) ==>
              Code(p) == p.barcode.s && ChooseBcid(Code(p)) == Code128
  {
    if Truthy(p.barcode) && AllSpace(p.barcode.s) {
      var s := p.barcode.s;
      assert !IsDigit(s[0]) by { assert IsSpace(s[0]); }
      assert !AllDigits(s);
    }
  }

  /** The encoder request: the code, its symbology, scale 3.5 and bar height 15. */
  function Request(p: Product): EncodeRequest {
    var code := Code(p);
    EncodeRequest(ChooseBcid(code), code, 3.5, 15)
  }

  /** `product.price || 'Rp 0,-'`: a stored `-` is shown as it is. */
  function PriceOrDefault(p: Product): (r: Value)
    ensures Truthy(r)
  {
    Or(p.price, Str("Rp 0,-"))
  }

  /**
   * This price differs from lib/core.js's shown price only for the stored price `-`, which
   * this script prints where lib/core.js prints `Rp 0,-`.
   */
  lemma PriceCompared(p: Product)
    ensures PriceOrDefault(p) == ShownPrice(p) <==> p.price != Str("-")
  {
  }

  /** The label: photo, name, barcode and price at tops 0, 300, 380 and 590 on 540 by 670. */
  function PluLabel(env: Env, p: Product, name: string, png: Image): (r: Image)
    ensures r.width == LabelWidth && r.height == 670
    ensures r.content == Composite("#ffffff", [
              Layer(0, 0, PhotoBand(env, GambarUrl(p))), Layer(300, 0, NameBand5(name)),
              Layer(380, 0, ClampedBarcodeBand(env, png, BarcodeWidth)), Layer(590, 0, PriceBand5(PriceOrDefault(p)))])
  {
    CoreStack([PhotoBand(env, GambarUrl(p)), NameBand5(name), ClampedBarcodeBand(env, png, BarcodeWidth),
               PriceBand5(PriceOrDefault(p))])
  }

  /**
   * The name band shows the name cut to 40 characters, the price band the stored price or
   * `Rp 0,-` when it is falsy, and the photo is the placeholder exactly when the `gambar`
   * photo fails; the barcode band ends 10 pixels above the price band, which ends the canvas.
   */
  lemma LabelShows(env: Env, p: Product, name: string, png: Image)
    ensures var r := PluLabel(env, p, name, png);
            var ls := r.content.layers;
            && Shows5(ls[1].image, LabelWidth, NameHeight, Truncate(name, NameLimit))
            && Shows5(ls[3].image, LabelWidth, PriceHeight, ToString(PriceOrDefault(p)))
            && (Truthy(p.price) ==> ToString(PriceOrDefault(p)) == ToString(p.price))
            && (ls[0].image == Placeholder(LabelWidth, PhotoHeight) <==> PhotoFails(env, GambarUrl(p)))
            && ls[2].top + ls[2].image.height + 10 == ls[3].top
            && ls[3].top + ls[3].image.height == r.height
  {
    var photo, nameBand, bc, price := PhotoBand(env, GambarUrl(p)), NameBand5(name),
      ClampedBarcodeBand(env, png, BarcodeWidth), PriceBand5(PriceOrDefault(p));
    var ls := PluLabel(env, p, name, png).content.layers;
    assert ls[0].image == photo && ls[1].image == nameBand && ls[2].image == bc && ls[3].image == price;
  }

  /** `test-plu-${plu}.png` */
  function FileName(plu: string): string {
    "test-plu-" + plu + ".png"
  }

  /** Different PLUs are saved under different names. */
  lemma FileNameInjective(a: string, b: string)
    ensures FileName(a) == FileName(b) <==> a == b
  {
    if FileName(a) == FileName(b) {
      var fa, fb := FileName(a), FileName(b);
      assert fa[9..|fa| - 4] == a;
      assert fb[9..|fb| - 4] == b;
    }
  }

  /** How a call ends: the PLU is not in the sheet, an error ends the process, or a file is saved. */
  datatype PluRun = NotInSheet | Failed(failure: Failure) | Saved(fileName: string, png: Image)

  /** What a call does and the barcode cache it leaves. */
  datatype Outcome = Outcome(run: PluRun, entries: map<string, Image>)

  /**
   * `generateBarcodeForPLU(plu)`: the lookup, then, inside the `try`, the cached encode, the
   * photo, the name (`product.nama.length` throws when `nama` is missing), the barcode band,
   * the price and the composite.
   */
  function GenerateForPluSpec(entries: map<string, Image>, env: Env, sheet: seq<Product>, plu: string): Outcome {
    match FindByPlu(sheet, plu)
    case None => Outcome(NotInSheet, entries)
    case Some(p) =>
      var step := CachedEncode(entries, env, Request(p));
      match step.outcome
      case EncodeFailed(m) => Outcome(Failed(Thrown(m)), step.entries)
      case Encoded(png) =>
        if p.nama.Str? then Outcome(Saved(FileName(plu), PluLabel(env, p, p.nama.s, png)), step.entries)
        else Outcome(Failed(NameNotText), step.entries)
  }

  /**
   * A PLU missing from the sheet touches nothing. Otherwise a cached code is not re-encoded,
   * an encoder failure ends the run and stores nothing, a record without a name ends the run
   * after its barcode has been cached, and a named record is saved as `test-plu-<plu>.png`,
   * a 540 by 670 label of that record.
   */
  lemma GenerateForPluCases(entries: map<string, Image>, env: Env, sheet: seq<Product>, plu: string)
    ensures var r := GenerateForPluSpec(entries, env, sheet, plu);
            && (FindByPlu(sheet, plu).None? ==> r == Outcome(NotInSheet, entries))
            && (FindByPlu(sheet, plu).Some? ==>
                  var p := FindByPlu(sheet, plu).value;
                  var req := Request(p);
                  var key := CacheKey(req.bcid, req.text);
                  && (key in entries ==> r.entries == entries && r.run != NotInSheet
                                         && (r.run.Failed? ==> r.run.failure == NameNotText))
                  && (key !in entries && env.encode(req).EncodeFailed? ==>
                        r == Outcome(Failed(Thrown(env.encode(req).message)), entries))
                  && (key !in entries && env.encode(req).Encoded? ==>
                        r.entries == entries[key := env.encode(req).png])
                  && (r.run.Failed? && r.run.failure == NameNotText <==>
                        CachedEncode(entries, env, req).outcome.Encoded? && !p.nama.Str?)
                  && (r.run.Saved? ==> r.run.fileName == FileName(plu) && p.nama.Str?
                                       && r.run.png.width == 540 && r.run.png.height == 670))
  {
    if FindByPlu(sheet, plu).Some? {
      var req := Request(FindByPlu(sheet, plu).value);
      if CacheKey(req.bcid, req.text) in entries {
        CachedEncodeHit(entries, env, req);
      } else {
        CachedEncodeMiss(entries, env, req);
      }
    }
  }

  /** The module-level `barcodeCache` and `generateBarcodeForPLU`. */
  class Generator {
    const barcodes: BarcodeCache

    constructor()
      ensures fresh(barcodes) && barcodes.entries == map[]
    {
      barcodes := new BarcodeCache();
    }

    method GenerateBarcodeForPlu(env: Env, sheet: seq<Product>, plu: string) returns (run: PluRun)
      modifies barcodes
      ensures Outcome(run, barcodes.entries) == GenerateForPluSpec(old(barcodes.entries), env, sheet, plu)
    {
      var found := FindByPlu(sheet, plu);
      if found.None? {
        return NotInSheet;
      }
      var p := found.value;
      var outcome := barcodes.Render(env, Request(p));
      match outcome
      case EncodeFailed(m) => run := Failed(Thrown(m));
      case Encoded(png) =>
        if !p.nama.Str? {
          return Failed(NameNotText);
        }
        run := Saved(FileName(plu), PluLabel(env, p, p.nama.s, png));
    }
  }
}
