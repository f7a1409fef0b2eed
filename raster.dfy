/**
 * The raster steps every label generator shares: getting the product photo (or the grey
 * placeholder), sharp's resize-to-width, JavaScript's `Math.round`, and the offsets that
 * centre and clamp a barcode inside its section.
 */
module Raster {
  import opened Base
  import opened Js
  import opened Externals

  /** The flat grey image a generator uses when it has no photo. */
  function Placeholder(w: nat, h: nat): Image {
    Image(w, h, Solid("#e8e8e8"))
  }

  /** The cases in which the photo step falls back to the placeholder. */
  predicate PhotoFails(env: Env, url: string) {
    AllSpace(url)
    || match env.fetch(url)
       case NetworkError => true
       case Response(status, body) => !StatusOk(status) || env.decode(body).None?
  }

  /**
   * The photo step of the 540-wide generators: a blank URL gives the placeholder with no
   * fetch; otherwise the URL is fetched, and a network error, a status outside 200..299 or a
   * body sharp cannot decode all give the same placeholder. A decoded photo is fitted
   * (`fit: 'contain'`) into exactly w by h.
   */
  function AcquirePhoto(env: Env, url: string, w: nat, h: nat): (r: Image)
    ensures r.width == w && r.height == h
    ensures r == Placeholder(w, h) <==> PhotoFails(env, url)
    ensures !PhotoFails(env, url) ==>
              r.content == Resampled(env.decode(env.fetch(url).body).value)
  {
    TrimEmptyIffAllSpace(url);
    if url != [] && Trim(url) != [] then
      match env.fetch(url)
      case Response(status, body) =>
        if StatusOk(status) then
          match env.decode(body)
          case Some(img) => Image(w, h, Resampled(img))
          case None => Placeholder(w, h)
        else Placeholder(w, h)
      case NetworkError => Placeholder(w, h)
    else Placeholder(w, h)
  }

  /**
   * `sharp(img).resize(w, null, { withoutEnlargement })`: the image is scaled to width `w`
   * keeping its aspect ratio, except that with `withoutEnlargement` an image no wider than
   * `w` is left as it is. sharp rejects a width below 1, which callers check first.
   */
  function ResizeToWidth(env: Env, img: Image, w: nat, withoutEnlargement: bool): (r: Image)
    requires w >= 1
    ensures withoutEnlargement ==> r.width == Min(img.width, w) && r.width <= w
    ensures !withoutEnlargement ==> r.width == w
    ensures withoutEnlargement && img.width <= w ==> r == img
    ensures r != img ==> r.content == Resampled(img)
  {
    if withoutEnlargement && img.width <= w then img
    else Image(w, env.scaledHeight(img.width, img.height, w), Resampled(img))
  }

  /** JavaScript's `Math.round`: the nearest integer, halves rounded up. */
  function JsRound(x: real): int {
    (x + 0.5).Floor
  }

  lemma JsRoundOfInt(n: int)
    ensures JsRound(n as real) == n
  {
  }

  /** `Math.round(n / 2)` for an integer `n` is `(n + 1) / 2` in Dafny's floor division. */
  lemma JsRoundHalf(n: int)
    ensures JsRound(n as real / 2.0) == (n + 1) / 2
  {
    var q := (n + 1) / 2;
    assert n + 1 == 2 * q + (n + 1) % 2;
    assert n as real / 2.0 + 0.5 == (n + 1) as real / 2.0;
    assert q as real <= (n + 1) as real / 2.0 < q as real + 1.0;
  }

  function RealMin(a: real, b: real): real { if a <= b then a else b }

  function RealMax(a: real, b: real): real { if a >= b then a else b }

  /**
   * `Math.round((space - size) / 2)`: the offset that centres `size` pixels in `space`.
   * The two margins differ by at most one pixel.
   */
  function Centre(space: int, size: int): (r: int)
    ensures r == (space - size + 1) / 2
    ensures 0 <= 2 * r - (space - size) <= 1
  {
    JsRoundHalf(space - size);
    JsRound((space - size) as real / 2.0)
  }

  /** A centred object no larger than its space lies wholly inside it. */
  lemma CentreFits(space: int, size: int)
    requires 0 <= size <= space
    ensures 0 <= Centre(space, size) && Centre(space, size) + size <= space
  {
  }

  /**
   * The clamped top offset of bot.js and its copies:
   * `Math.round(Math.max(5, Math.min(section - bh - 5, (section - bh) / 2)))`.
   * It is never above 5, equals the centred offset while the barcode leaves 10 pixels, and is
   * exactly 5 otherwise; the barcode stays inside the section only while it leaves 5 pixels.
   */
  function ClampedTop(section: int, bh: int): (r: int)
    ensures r >= 5
    ensures bh <= section - 10 ==> r == Centre(section, bh)
    ensures bh > section - 10 ==> r == 5
    ensures r + bh <= section <==> bh <= section - 5
  {
    var centred := (section - bh) as real / 2.0;
    var upper := (section - bh - 5) as real;
    JsRoundHalf(section - bh);
    JsRoundOfInt(5);
    JsRound(RealMax(5.0, RealMin(upper, centred)))
  }

  /** The top offset of lib/core.js: `Math.max(5, Math.round((section - bh) / 2))`. */
  function CoreTop(section: int, bh: int): (r: int)
    ensures r >= 5
    ensures r == Centre(section, bh) || r == 5
  {
    Max(5, Centre(section, bh))
  }

  /** lib/core.js's simpler formula gives the same offset as the clamped one for every height. */
  lemma ClampedTopIsCoreTop(section: int, bh: int)
    ensures ClampedTop(section, bh) == CoreTop(section, bh)
  {
  }

  /** The left offset of lib/core.js: `Math.max(0, Math.round((width - bw) / 2))`. */
  function CoreLeft(width: int, bw: int): (r: int)
    ensures r >= 0
    ensures bw <= width ==> r == Centre(width, bw)
  {
    Max(0, Centre(width, bw))
  }
}
