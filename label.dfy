/**
 * The 540-pixel label that bot.js, lib/core.js and most test scripts build: a product photo,
 * a name band, a barcode band and a price band (the bulk variant adds a quantity band),
 * stacked top to bottom on a white canvas. Each source file is one configuration of these
 * parts: its own section gaps, escaping, resize width and barcode placement.
 */
module Label {
  import opened Base
  import opened Js
  import opened Escape
  import opened Externals
  import opened Raster
  import opened Layout
  import opened Barcode
  import opened Catalog

  const LabelWidth: nat := 540
  const PhotoHeight: nat := 300
  const NameHeight: nat := 80
  const BarcodeBand: nat := 200
  const QtyHeight: nat := 60
  const PriceHeight: nat := 80
  /** The longest name a band shows before it is cut. */
  const NameLimit: nat := 40

  /**
   * The encoder request of the 540-wide generators: the code to render, its symbology,
   * scale 3.5 and bar height 15.
   */
  function LabelRequest(p: Product): EncodeRequest {
    var code := CodeToRender(p.barcode, p.plu);
    EncodeRequest(ChooseBcid(code), code, 3.5, 15)
  }

  /** What a generator gives (a label or the error it throws) and the barcode cache it leaves. */
  datatype Rendered = Rendered(result: Result<Image, Failure>, entries: map<string, Image>)

  /** `qty <= 0 || qty > 200` is the bulk generators' `qty invalid`. */
  predicate BulkQtyValid(qty: int) {
    0 < qty <= 200
  }

  /** An SVG band rendered to an image: what matters of it is the text it shows. */
  function TextBlock(width: nat, height: nat, texts: seq<string>): Image {
    Image(width, height, Markup(texts))
  }

  /** The quantity band of the bulk label: `Qty: ${qty}`, written with no escaping. */
  function QtyBand(qty: int): Image {
    TextBlock(LabelWidth, QtyHeight, ["Qty: " + IntToString(qty)])
  }

  /** Different quantities give different quantity bands. */
  lemma QtyBandInjective(q1: int, q2: int)
    ensures QtyBand(q1) == QtyBand(q2) <==> q1 == q2
  {
    if QtyBand(q1) == QtyBand(q2) {
      var t1, t2 := IntToString(q1), IntToString(q2);
      assert ("Qty: " + t1)[5..] == t1 && ("Qty: " + t2)[5..] == t2;
      ParseIntOfIntToString(q1);
      ParseIntOfIntToString(q2);
    }
  }

  /** The band shows exactly `plain`, written as markup escaped with the three-entity `esc`. */
  predicate Shows3(img: Image, width: nat, height: nat, plain: string) {
    && img == Image(width, height, img.content)
    && img.content.Markup? && |img.content.texts| == 1
    && SafeText3(img.content.texts[0]) && DecodeEntities(img.content.texts[0]) == plain
  }

  /** The band shows exactly `plain`, written as markup escaped with the five-entity `esc`. */
  predicate Shows5(img: Image, width: nat, height: nat, plain: string) {
    && img == Image(width, height, img.content)
    && img.content.Markup? && |img.content.texts| == 1
    && SafeText5(img.content.texts[0]) && DecodeEntities(img.content.texts[0]) == plain
  }

  /**
   * The name band of lib/core.js and of the scripts that copy it: `name` cut to 40
   * characters, through the five-entity escaper.
   */
  function NameBand5(name: string): (r: Image)
    ensures Shows5(r, LabelWidth, NameHeight, Truncate(name, NameLimit))
  {
    TextBlock(LabelWidth, NameHeight, [Esc5(Str(Truncate(name, NameLimit)))])
  }

  /** The price band of lib/core.js and of the scripts that copy it: `price` through the five-entity escaper. */
  function PriceBand5(price: Value): (r: Image)
    ensures Shows5(r, LabelWidth, PriceHeight, OrText(price, ""))
  {
    TextBlock(LabelWidth, PriceHeight, [Esc5(price)])
  }

  /** The barcode band: a white 540 by 200 section with the resized barcode composited on it. */
  function BarcodeSection(layer: Layer): Image {
    Image(LabelWidth, BarcodeBand, Composite("#ffffff", [layer]))
  }

  /**
   * The placement of bot.js and its copies: `Math.round(Math.max(5, Math.min(200 - bh - 5,
   * (200 - bh) / 2)))` from the top and `Math.round((540 - bw) / 2)` from the left. The top
   * margin is never below 5 and the barcode stays in its band only while it is at most 195
   * high; a barcode no wider than the band is centred to within a pixel.
   */
  function ClampedBarcodeLayer(bc: Image): (l: Layer)
    ensures l.image == bc && l.top >= 5
    ensures l.top + bc.height <= BarcodeBand <==> bc.height <= BarcodeBand - 5
    ensures bc.height <= BarcodeBand - 10 ==> l.top == Centre(BarcodeBand, bc.height)
    ensures 0 <= 2 * l.left - (LabelWidth - bc.width) <= 1
    ensures bc.width <= LabelWidth ==> 0 <= l.left && l.left + bc.width <= LabelWidth
  {
    Layer(ClampedTop(BarcodeBand, bc.height), Centre(LabelWidth, bc.width), bc)
  }

  /**
   * The placement of lib/core.js: `Math.max(5, Math.round((200 - bh) / 2))` from the top and
   * `Math.max(0, Math.round((540 - bw) / 2))` from the left. For a barcode that fits the
   * band's width it is the same layer as the clamped placement.
   */
  function CoreBarcodeLayer(bc: Image): (l: Layer)
    ensures l.image == bc && l.top >= 5 && l.left >= 0
    ensures bc.width <= LabelWidth ==> l == ClampedBarcodeLayer(bc)
  {
    ClampedTopIsCoreTop(BarcodeBand, bc.height);
    Layer(CoreTop(BarcodeBand, bc.height), CoreLeft(LabelWidth, bc.width), bc)
  }

  /**
   * A barcode band of bot.js and the scripts that copy it: the barcode resized to at most `w`
   * wide and placed by the clamped formula.
   */
  function ClampedBarcodeBand(env: Env, png: Image, w: nat): (r: Image)
    requires 1 <= w <= LabelWidth
    ensures r.width == LabelWidth && r.height == BarcodeBand
    ensures r.content.Composite? && |r.content.layers| == 1
    ensures var l := r.content.layers[0];
            && l.image.width == Min(png.width, w)
            && l == ClampedBarcodeLayer(l.image)
            && 5 <= l.top && 0 <= l.left && l.left + l.image.width <= LabelWidth
            && (l.top + l.image.height <= BarcodeBand <==> l.image.height <= BarcodeBand - 5)
  {
    BarcodeSection(ClampedBarcodeLayer(ResizeToWidth(env, png, w, true)))
  }

  /** The photo band: the product photo fitted into 540 by 300, or the grey placeholder. */
  function PhotoBand(env: Env, url: string): (r: Image)
    ensures r.width == LabelWidth && r.height == PhotoHeight
    ensures r == Placeholder(LabelWidth, PhotoHeight) <==> PhotoFails(env, url)
  {
    AcquirePhoto(env, url, LabelWidth, PhotoHeight)
  }

  /** A 540-wide label: every band composited at left 0 at its section's top. */
  function StackedLabel(secs: seq<Section>, trailing: nat, bands: seq<Image>): (r: Image)
    requires |bands| == |secs|
    ensures r.width == LabelWidth && r.height == Extent(secs) + trailing
    ensures r.content.Composite? && |r.content.layers| == |secs|
    ensures forall i :: 0 <= i < |secs| ==>
              r.content.layers[i] == Layer(Top(secs, i), 0, bands[i])
  {
    Compose(LabelWidth, secs, trailing, seq(|bands|, i requires 0 <= i < |bands| => Placed(bands[i], 0)))
  }

  /** bot.js's single label: photo, name, a 10-pixel gap, barcode, price. */
  const BotSections: seq<Section> :=
    [Section(0, PhotoHeight), Section(0, NameHeight), Section(10, BarcodeBand), Section(0, PriceHeight)]

  /** lib/core.js's single label and its test copies: the 10-pixel gap sits before the price. */
  const CoreSections: seq<Section> :=
    [Section(0, PhotoHeight), Section(0, NameHeight), Section(0, BarcodeBand), Section(10, PriceHeight)]

  /** The bulk label of bot.js and test-bulk-new.js: five contiguous bands. */
  const BulkSections: seq<Section> :=
    [Section(0, PhotoHeight), Section(0, NameHeight), Section(0, BarcodeBand), Section(0, QtyHeight),
     Section(0, PriceHeight)]

  /** The tops of a stack's sections, in order. */
  function Tops(secs: seq<Section>): (r: seq<int>)
    ensures |r| == |secs|
    ensures forall i :: 0 <= i < |secs| ==> r[i] == Top(secs, i)
  {
    seq(|secs|, i requires 0 <= i < |secs| => Top(secs, i))
  }

  /** bot.js: bands at 0, 300, 390 and 590, on a 670-high canvas that the price band ends. */
  lemma BotSectionsLayout()
    ensures Tops(BotSections) == [0, 300, 390, 590]
    ensures Extent(BotSections) == 670 && Bottom(BotSections, 3) == 670
    ensures Bottom(BotSections, 1) + 10 == Top(BotSections, 2)
  {
    var s := BotSections;
    assert s[..1] == [] + [s[0]];
    ExtentSnoc([], s[0]);
    assert s[..2] == s[..1] + [s[1]];
    ExtentSnoc(s[..1], s[1]);
    assert s[..3] == s[..2] + [s[2]];
    ExtentSnoc(s[..2], s[2]);
    assert s[..4] == s[..3] + [s[3]];
    ExtentSnoc(s[..3], s[3]);
    assert s[..4] == s;
  }

  /** lib/core.js: bands at 0, 300, 380 and 590; the barcode band ends at 580, 10 pixels above the price. */
  lemma CoreSectionsLayout()
    ensures Tops(CoreSections) == [0, 300, 380, 590]
    ensures Bottom(CoreSections, 2) == 580
    ensures Extent(CoreSections) == 670 && Bottom(CoreSections, 3) == 670
  {
    var s := CoreSections;
    assert s[..1] == [] + [s[0]];
    ExtentSnoc([], s[0]);
    assert s[..2] == s[..1] + [s[1]];
    ExtentSnoc(s[..1], s[1]);
    assert s[..3] == s[..2] + [s[2]];
    ExtentSnoc(s[..2], s[2]);
    assert s[..4] == s[..3] + [s[3]];
    ExtentSnoc(s[..3], s[3]);
    assert s[..4] == s;
  }

  /** The heights of the bulk label's first one to five bands. */
  lemma BulkPrefixExtents()
    ensures Extent(BulkSections[..1]) == 300 && Extent(BulkSections[..2]) == 380
    ensures Extent(BulkSections[..3]) == 580 && Extent(BulkSections[..4]) == 640
    ensures Extent(BulkSections) == 720
  {
    var s := BulkSections;
    assert s[..1] == [] + [s[0]];
    ExtentSnoc([], s[0]);
    assert s[..2] == s[..1] + [s[1]];
    ExtentSnoc(s[..1], s[1]);
    assert s[..3] == s[..2] + [s[2]];
    ExtentSnoc(s[..2], s[2]);
    assert s[..4] == s[..3] + [s[3]];
    ExtentSnoc(s[..3], s[3]);
    assert s[..5] == s[..4] + [s[4]];
    ExtentSnoc(s[..4], s[4]);
    assert s[..5] == s;
  }

  /** The bulk label: contiguous bands at 0, 300, 380, 580 and 640, the last ending at 720. */
  lemma BulkSectionsLayout()
    ensures Tops(BulkSections) == [0, 300, 380, 580, 640]
    ensures forall i :: 0 <= i < 4 ==> Bottom(BulkSections, i) == Top(BulkSections, i + 1)
    ensures Extent(BulkSections) == 720 && Bottom(BulkSections, 4) == 720
  {
    BulkPrefixExtents();
    var s := BulkSections;
    assert s[..0] == [];
    assert Top(s, 0) == 0 && Top(s, 1) == 300 && Top(s, 2) == 380 && Top(s, 3) == 580 && Top(s, 4) == 640;
    forall i | 0 <= i < 4
      ensures Bottom(s, i) == Top(s, i + 1)
    {
      NextTop(s, i);
    }
  }

  /** bot.js's single label: four bands at 0, 300, 390 and 590 on 540 by 670. */
  function BotStack(bands: seq<Image>): (r: Image)
    requires |bands| == 4
    ensures r.width == LabelWidth && r.height == 670
    ensures r.content == Composite("#ffffff", [
              Layer(0, 0, bands[0]), Layer(300, 0, bands[1]), Layer(390, 0, bands[2]), Layer(590, 0, bands[3])])
  {
    BotSectionsLayout();
    var r := StackedLabel(BotSections, 0, bands);
    var tops := Tops(BotSections);
    assert tops[0] == 0 && tops[1] == 300 && tops[2] == 390 && tops[3] == 590;
    var ls := r.content.layers;
    assert ls[0] == Layer(0, 0, bands[0]) && ls[1] == Layer(300, 0, bands[1]);
    assert ls[2] == Layer(390, 0, bands[2]) && ls[3] == Layer(590, 0, bands[3]);
    assert ls == [ls[0], ls[1], ls[2], ls[3]];
    r
  }

  /** The single label of lib/core.js and its test copies: four bands at 0, 300, 380 and 590 on 540 by 670. */
  function CoreStack(bands: seq<Image>): (r: Image)
    requires |bands| == 4
    ensures r.width == LabelWidth && r.height == 670
    ensures r.content == Composite("#ffffff", [
              Layer(0, 0, bands[0]), Layer(300, 0, bands[1]), Layer(380, 0, bands[2]), Layer(590, 0, bands[3])])
  {
    CoreSectionsLayout();
    var r := StackedLabel(CoreSections, 0, bands);
    var tops := Tops(CoreSections);
    assert tops[0] == 0 && tops[1] == 300 && tops[2] == 380 && tops[3] == 590;
    var ls := r.content.layers;
    assert ls[0] == Layer(0, 0, bands[0]) && ls[1] == Layer(300, 0, bands[1]);
    assert ls[2] == Layer(380, 0, bands[2]) && ls[3] == Layer(590, 0, bands[3]);
    assert ls == [ls[0], ls[1], ls[2], ls[3]];
    r
  }

  /**
   * The bulk label of bot.js and test-bulk-new.js: five bands at 0, 300, 380, 580 and 640 on
   * 540 by 730, the last 10 pixels left blank.
   */
  function BulkStack(bands: seq<Image>): (r: Image)
    requires |bands| == 5
    ensures r.width == LabelWidth && r.height == 730
    ensures r.content == Composite("#ffffff", [
              Layer(0, 0, bands[0]), Layer(300, 0, bands[1]), Layer(380, 0, bands[2]),
              Layer(580, 0, bands[3]), Layer(640, 0, bands[4])])
  {
    BulkSectionsLayout();
    var r := StackedLabel(BulkSections, 10, bands);
    var tops := Tops(BulkSections);
    assert tops[0] == 0 && tops[1] == 300 && tops[2] == 380 && tops[3] == 580 && tops[4] == 640;
    var ls := r.content.layers;
    assert ls[0] == Layer(0, 0, bands[0]) && ls[1] == Layer(300, 0, bands[1]);
    assert ls[2] == Layer(380, 0, bands[2]) && ls[3] == Layer(580, 0, bands[3]);
    assert ls[4] == Layer(640, 0, bands[4]);
    assert ls == [ls[0], ls[1], ls[2], ls[3], ls[4]];
    r
  }
}
