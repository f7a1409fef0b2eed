/**
 * generate-samples.js: 1000-wide sample images for the first `SAMPLE_COUNT` sheet records.
 * Each image stacks the product photo (or a light grey 1000 by 600 placeholder) resized to
 * width 1000, an info block with the name and the PLU, and the barcode resized to width 880
 * at 60 from the left. The batch writes `<plu>_<n>.png` for every record whose image can be
 * made and goes on after one that fails.
 */
module GenerateSamples {
  import opened Base
  import opened Js
  import opened Escape
  import opened Externals
  import opened Raster
  import opened Barcode
  import opened Catalog

  const TargetWidth: nat := 1000
  /** The placeholder's size and colour: 1000 by 600 in `#f6f6f6`. */
  const PlaceholderHeight: nat := 600
  const PlaceholderColour := "#f6f6f6"
  /** `Math.round(36 * 1.4)` */
  const LineHeight: nat := 50
  const Padding: nat := 20
  const SidePadding: nat := 60

  // ---------------------------------------------------------------------------
  // The code

  /** `(barcode && barcode.trim() !== '') ? barcode : (plu || '')` */
  function Code(p: Product): (r: string)
    ensures !AllSpace(OrText(p.barcode, "")) ==> r == OrText(p.barcode, "")
    ensures AllSpace(OrText(p.barcode, "")) ==> r == OrText(p.plu, "")
  {
    var b := OrText(p.barcode, "");
    TrimEmptyIffAllSpace(b);
    if b != [] && Trim(b) != [] then b else OrText(p.plu, "")
  }

  /** `code || plu || '000000'`: the text handed to the encoder. */
  function EncoderText(p: Product): string {
    if Code(p) != [] then Code(p)
    else if OrText(p.plu, "") != [] then OrText(p.plu, "")
    else "000000"
  }

  /** The symbology is chosen from the code, the text is the encoder text; scale 2, bar height 15. */
  function Request(p: Product): EncodeRequest {
    EncodeRequest(ChooseBcid(Code(p)), EncoderText(p), 2.0, 15)
  }

  /**
   * A record with neither a usable barcode nor a PLU is encoded as `000000` in Code 128 (the
   * symbology of the empty code); every other record is encoded as its code, so the encoder
   * text is never empty. The `plu` step of the fallback never applies.
   */
  lemma RequestText(p: Product)
    ensures Code(p) == [] ==> Request(p).text == "000000" && Request(p).bcid == Code128
    ensures Code(p) != [] ==> Request(p).text == Code(p) && Request(p).bcid == ChooseBcid(Code(p))
    ensures Request(p).text != []
  {
    if Code(p) == [] && !AllSpace(OrText(p.barcode, "")) {
      assert false;
    }
  }

  // ---------------------------------------------------------------------------
  // The photo

  /** `fetchImageBuffer(url)`: the body of an OK response; `null` for any other status and for a network error. */
  function FetchImageBuffer(env: Env, url: string): (r: Option<seq<bv8>>)
    ensures r.Some? <==> env.fetch(url).Response? && StatusOk(env.fetch(url).status)
    ensures r.Some? ==> r.value == env.fetch(url).body
  {
    match env.fetch(url)
    case Response(status, body) => if StatusOk(status) then Some(body) else None
    case NetworkError => None
  }

  /** The photo buffer: fetched only when `gambar` is truthy (no trim), `null` otherwise. */
  function PhotoBuffer(env: Env, p: Product): Option<seq<bv8>> {
    if Truthy(p.gambar) then FetchImageBuffer(env, p.gambar.s) else None
  }

  /** The light grey placeholder sharp creates when there is no buffer. */
  function SamplePlaceholder(): Image {
    Image(TargetWidth, PlaceholderHeight, Solid(PlaceholderColour))
  }

  /**
   * `sharp(prodBuf).resize({ width: 1000 })`: the buffer (or the placeholder) resized to width
   * 1000, enlarging if need be; sharp throws on a fetched buffer it cannot decode.
   */
  function ProductImage(env: Env, p: Product): Result<Image, Failure> {
    match PhotoBuffer(env, p)
    case None => Ok(ResizeToWidth(env, SamplePlaceholder(), TargetWidth, false))
    case Some(bytes) =>
      match env.decode(bytes)
      case Some(img) => Ok(ResizeToWidth(env, img, TargetWidth, false))
      case None => Err(DecodeRejected)
  }

  /**
   * The product image is always 1000 wide. When `gambar` is falsy or the fetch does not
   * answer OK it is the resized placeholder; otherwise it is the resized decoded photo, and
   * the call fails exactly when the OK body cannot be decoded.
   */
  lemma ProductImageCases(env: Env, p: Product)
    ensures var r := ProductImage(env, p);
            var fetched := Truthy(p.gambar) && env.fetch(p.gambar.s).Response? && StatusOk(env.fetch(p.gambar.s).status);
            && (r.Ok? ==> r.value.width == 1000)
            && (!fetched ==> r == Ok(ResizeToWidth(env, SamplePlaceholder(), TargetWidth, false)))
            && (fetched && env.decode(env.fetch(p.gambar.s).body).Some? ==>
                  r == Ok(ResizeToWidth(env, env.decode(env.fetch(p.gambar.s).body).value, TargetWidth, false)))
            && (r.Err? <==> fetched && env.decode(env.fetch(p.gambar.s).body).None?)
            && (r.Err? ==> r.error == DecodeRejected)
  {
  }

  // ---------------------------------------------------------------------------
  // The info block

  /** `[nama, `PLU: ${plu}`]` with `nama || 'Nama Tidak Tersedia'` and `plu || ''`. */
  function Lines(p: Product): seq<string> {
    [SheetName(p), "PLU: " + OrText(p.plu, "")]
  }

  /** `lines.map(ln => esc(ln))`: each line through the three-entity `esc`. */
  function EscapeLines(lines: seq<string>): (r: seq<string>)
    ensures |r| == |lines|
    ensures forall i :: 0 <= i < |lines| ==> SafeText3(r[i]) && DecodeEntities(r[i]) == OrText(Str(lines[i]), "")
  {
    seq(|lines|, i requires 0 <= i < |lines| => Esc3(Str(lines[i])))
  }

  /** The info block: 1000 wide and `padding * 2 + lineHeight * lines.length` high. */
  function InfoBlock(p: Product): Image {
    var lines := Lines(p);
    Image(TargetWidth, Padding * 2 + LineHeight * |lines|, Markup(EscapeLines(lines)))
  }

  /** The info block is 1000 by 140 and shows the name and `PLU: <plu>`, each escaped. */
  lemma InfoBlockShows(p: Product)
    ensures var b := InfoBlock(p);
            && b.width == 1000 && b.height == 140
            && b.content.Markup? && |b.content.texts| == 2
            && SafeText3(b.content.texts[0]) && DecodeEntities(b.content.texts[0]) == SheetName(p)
            && SafeText3(b.content.texts[1]) && DecodeEntities(b.content.texts[1]) == "PLU: " + OrText(p.plu, "")
  {
    var lines := Lines(p);
    assert |lines| == 2 && lines[0] == SheetName(p) && lines[1] == "PLU: " + OrText(p.plu, "");
  }

  // ---------------------------------------------------------------------------
  // The image

  /** `Math.max(200, targetWidth - sidePadding * 2)` */
  function BarcodeWidth(): (w: nat)
    ensures w == 880
  {
    Max(200, TargetWidth - SidePadding * 2)
  }

  /** The three layers on a canvas exactly as high as they are together. */
  function Stack(prod: Image, info: Image, bar: Image): Image {
    Image(TargetWidth, prod.height + info.height + bar.height, Composite("#ffffff", [
      Layer(0, 0, prod), Layer(prod.height, 0, info), Layer(prod.height + info.height, SidePadding, bar)]))
  }

  /**
   * `makeImage(entry)`: the encode (its error propagates), the product image, the info block,
   * the barcode resized to width 880, and the stack.
   */
  function MakeImage(env: Env, p: Product): Result<Image, Failure> {
    match env.encode(Request(p))
    case EncodeFailed(m) => Err(Thrown(m))
    case Encoded(png) =>
      match ProductImage(env, p)
      case Err(e) => Err(e)
      case Ok(prod) => Ok(Stack(prod, InfoBlock(p), ResizeToWidth(env, png, BarcodeWidth(), false)))
  }

  /** A stacked image has its three layers contiguous from the top, the last ending where the canvas ends. */
  predicate Contiguous(img: Image) {
    && img.width == 1000 && img.content.Composite? && |img.content.layers| == 3
    && var ls := img.content.layers;
    && ls[0].top == 0 && ls[0].left == 0
    && ls[1].top == ls[0].top + ls[0].image.height && ls[1].left == 0
    && ls[2].top == ls[1].top + ls[1].image.height
    && ls[2].top + ls[2].image.height == img.height
  }

  lemma StackContiguous(prod: Image, info: Image, bar: Image)
    ensures var s := Stack(prod, info, bar);
            && Contiguous(s)
            && s.content.layers[0].image == prod && s.content.layers[1].image == info
            && s.content.layers[2].image == bar && s.content.layers[2].left == 60
  {
  }

  /**
   * An image is 1000 wide with its three layers contiguous from the top: the 1000-wide
   * product image at 0, the 140-high info block below it and the 880-wide barcode below
   * that, 60 from either side, ending where the canvas ends. An encoder failure is thrown
   * unchanged, and otherwise the call fails only when the product image does.
   */
  lemma MakeImageCases(env: Env, p: Product)
    ensures var r := MakeImage(env, p);
            var req := Request(p);
            && (env.encode(req).EncodeFailed? ==> r == Err(Thrown(env.encode(req).message)))
            && (env.encode(req).Encoded? ==> (r.Ok? <==> ProductImage(env, p).Ok?))
            && (r.Ok? ==>
                  var ls := r.value.content.layers;
                  && Contiguous(r.value)
                  && ls[0].image.width == 1000
                  && ls[1].image == InfoBlock(p) && ls[1].image.height == 140
                  && ls[2].left == 60 && ls[2].image.width == 880
                  && ls[2].left + ls[2].image.width + 60 == r.value.width)
  {
    var req := Request(p);
    if env.encode(req).Encoded? && ProductImage(env, p).Ok? {
      var prod := ProductImage(env, p).value;
      var bar := ResizeToWidth(env, env.encode(req).png, BarcodeWidth(), false);
      ProductImageCases(env, p);
      InfoBlockShows(p);
      StackContiguous(prod, InfoBlock(p), bar);
      assert MakeImage(env, p) == Ok(Stack(prod, InfoBlock(p), bar));
    }
  }

  // ---------------------------------------------------------------------------
  // The batch

  /** `parseInt(process.env.SAMPLE_COUNT || '10', 10)`, with `None` for NaN; an unset and an empty variable both mean 10. */
  function SampleCount(setting: Option<string>): Option<int> {
    ParseInt(if setting.Some? && setting.value != [] then setting.value else "10")
  }

  /** The end index `data.slice(0, count)` uses: NaN is 0, a negative count counts from the end. */
  function SliceEnd(n: nat, count: Option<int>): (e: nat)
    ensures e <= n
    ensures count.None? ==> e == 0
    ensures count.Some? && count.value >= 0 ==> e == Min(count.value, n)
    ensures count.Some? && count.value < 0 ==> e == Max(n + count.value, 0)
  {
    match count
    case None => 0
    case Some(c) => if c >= 0 then Min(c, n) else Max(n + c, 0)
  }

  /** `data.slice(0, COUNT)` */
  function Items(data: seq<Product>, setting: Option<string>): (r: seq<Product>)
    ensures |r| <= |data| && r == data[..|r|]
  {
    data[..SliceEnd(|data|, SampleCount(setting))]
  }

  /** With no setting the batch takes the first ten records, or all of them when there are fewer. */
  lemma DefaultCount(data: seq<Product>)
    ensures Items(data, None) == data[..Min(10, |data|)]
  {
    ParseIntOfDigits("10");
    assert DecimalValue("10") == 10 by {
      assert "10"[..1] == "1";
    }
  }

  /** `${plu || 'no-plu'}_${i + 1}.png` */
  function FileName(p: Product, i: nat): string {
    OrText(p.plu, "no-plu") + "_" + NatToString(i + 1) + ".png"
  }

  /** A file name gives back the position and the PLU text it was made from. */
  lemma FileNameInjective(p: Product, i: nat, q: Product, j: nat)
    ensures FileName(p, i) == FileName(q, j) <==> i == j && OrText(p.plu, "no-plu") == OrText(q.plu, "no-plu")
  {
    if FileName(p, i) == FileName(q, j) {
      var a, b := OrText(p.plu, "no-plu") + "_", OrText(q.plu, "no-plu") + "_";
      var da, db := NatToString(i + 1), NatToString(j + 1);
      var f := FileName(p, i);
      assert f[..|f| - 4] == a + da;
      assert FileName(q, j)[..|f| - 4] == b + db;
      TrailingDigitsStop(a, da);
      TrailingDigitsStop(b, db);
      DecimalValueOfNatToString(i + 1);
      DecimalValueOfNatToString(j + 1);
      assert (a + da)[..|a|] == a && (b + db)[..|b|] == b;
      assert a[..|a| - 1] == OrText(p.plu, "no-plu") && b[..|b| - 1] == OrText(q.plu, "no-plu");
    }
  }

  /** A file the batch writes: the position of its record, its name and its image. */
  datatype Written = Written(index: nat, name: string, png: Image)

  /** What `makeImage` gives for each item, in order. */
  function Made(env: Env, items: seq<Product>): (r: seq<Result<Image, Failure>>)
    ensures |r| == |items|
    ensures forall i :: 0 <= i < |items| ==> r[i] == MakeImage(env, items[i])
  {
    seq(|items|, i requires 0 <= i < |items| => MakeImage(env, items[i]))
  }

  /** The `for` loop over the items and their images: each image made is written, and a failure is logged and skipped. */
  function BatchOf(items: seq<Product>, made: seq<Result<Image, Failure>>): seq<Written>
    requires |made| == |items|
    decreases |items|
  {
    if items == [] then []
    else
      var i := |items| - 1;
      var prev := BatchOf(items[..i], made[..i]);
      match made[i]
      case Ok(img) => prev + [Written(i, FileName(items[i], i), img)]
      case Err(_) => prev
  }

  /** The batch over the items `data.slice(0, COUNT)` selects. */
  function Batch(env: Env, items: seq<Product>): seq<Written> {
    BatchOf(items, Made(env, items))
  }

  /** The positions whose records were written. */
  function Indices(files: seq<Written>): set<nat> {
    set k | 0 <= k < |files| :: files[k].index
  }

  /**
   * Files in increasing position order, each named after its position and record and
   * holding that record's image, and exactly one for each record whose image was made.
   */
  predicate WellWritten(files: seq<Written>, items: seq<Product>, made: seq<Result<Image, Failure>>)
    requires |made| == |items|
  {
    && (forall k :: 0 <= k < |files| ==>
          && files[k].index < |items|
          && files[k].name == FileName(items[files[k].index], files[k].index)
          && made[files[k].index] == Ok(files[k].png))
    && (forall a, b :: 0 <= a < b < |files| ==> files[a].index < files[b].index)
    && (forall i :: 0 <= i < |items| ==> (i in Indices(files) <==> made[i].Ok?))
  }

  lemma IndicesSnoc(files: seq<Written>, w: Written)
    ensures Indices(files + [w]) == Indices(files) + {w.index}
  {
    var files' := files + [w];
    forall x | x in Indices(files') ensures x in Indices(files) + {w.index} {
      var k :| 0 <= k < |files'| && files'[k].index == x;
      if k < |files| { assert files'[k] == files[k]; }
    }
    forall x | x in Indices(files) + {w.index} ensures x in Indices(files') {
      if x == w.index {
        assert files'[|files|].index == x;
      } else {
        var k :| 0 <= k < |files| && files[k].index == x;
        assert files'[k].index == x;
      }
    }
  }

  lemma WellWrittenSnoc(files: seq<Written>, items: seq<Product>, made: seq<Result<Image, Failure>>,
                        p: Product, m: Result<Image, Failure>)
    requires |made| == |items| && WellWritten(files, items, made)
    ensures m.Ok? ==> WellWritten(files + [Written(|items|, FileName(p, |items|), m.value)], items + [p], made + [m])
    ensures m.Err? ==> WellWritten(files, items + [p], made + [m])
  {
    var items', made' := items + [p], made + [m];
    assert forall i :: 0 <= i < |items| ==> items'[i] == items[i] && made'[i] == made[i];
    if m.Ok? {
      IndicesSnoc(files, Written(|items|, FileName(p, |items|), m.value));
    } else {
      assert |items| !in Indices(files);
    }
  }

  /**
   * The batch writes one file for each record whose image can be made, whatever happened to
   * the records before it, in order, each under its own name with that record's image.
   */
  lemma {:induction false} BatchOfWellWritten(items: seq<Product>, made: seq<Result<Image, Failure>>)
    requires |made| == |items|
    ensures WellWritten(BatchOf(items, made), items, made)
    decreases |items|
  {
    if items != [] {
      var i := |items| - 1;
      var init, p, m := items[..i], items[i], made[i];
      assert init + [p] == items && made[..i] + [m] == made;
      BatchOfWellWritten(init, made[..i]);
      WellWrittenSnoc(BatchOf(init, made[..i]), init, made[..i], p, m);
    }
  }

  /**
   * Every record of the batch whose image can be made is written under
   * `<plu>_<position + 1>.png`, in order, and no other file is written.
   */
  lemma BatchWellWritten(env: Env, items: seq<Product>)
    ensures WellWritten(Batch(env, items), items, Made(env, items))
  {
    BatchOfWellWritten(items, Made(env, items));
  }

  /** No two files of a batch share a name, so none overwrites another. */
  lemma BatchNamesDistinct(env: Env, items: seq<Product>, a: nat, b: nat)
    requires a < b < |Batch(env, items)|
    ensures Batch(env, items)[a].name != Batch(env, items)[b].name
  {
    var files := Batch(env, items);
    BatchOfWellWritten(items, Made(env, items));
    FileNameInjective(items[files[a].index], files[a].index, items[files[b].index], files[b].index);
  }
}
