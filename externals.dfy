/**
 * The parts of the bot that live in foreign code: the bwip-js barcode encoder, the HTTP
 * fetch and sharp's decoder and resampler. They are given to the model as the fields of an
 * `Env` value (total functions the model never looks inside), and every image is an opaque
 * record of its size and of what it was made from.
 */
module Externals {
  import opened Base

  /** A raster image: its pixel size and a description of its pixels. */
  datatype Image = Image(width: nat, height: nat, content: Content)

  /** What an image holds: a flat colour, decoded bytes, rendered SVG text, a resampled copy of another image, or layers composited over a blank canvas. */
  datatype Content =
    | Solid(colour: string)
    | Bytes(data: seq<bv8>)
    | Markup(texts: seq<string>)
    | Resampled(source: Image)
    | Composite(background: string, layers: seq<Layer>)

  /** One entry of sharp's `composite([...])` list: an image drawn with its top-left corner at (`left`, `top`). */
  datatype Layer = Layer(top: int, left: int, image: Image)

  /** The three bwip-js symbologies the bot chooses between. */
  datatype Bcid = Ean13 | Upca | Code128

  /** The options the source hands to `bwipjs.toBuffer` (`includetext` and `textxalign` are always the same). */
  datatype EncodeRequest = EncodeRequest(bcid: Bcid, text: string, scale: real, height: int)

  /** What `bwipjs.toBuffer` does: it resolves with a PNG or rejects with an error message. */
  datatype EncodeOutcome = Encoded(png: Image) | EncodeFailed(message: string)

  /** What `fetch(url)` followed by `response.buffer()` does: a status with a body, or a network error. */
  datatype FetchOutcome = Response(status: int, body: seq<bv8>) | NetworkError

  /**
   * The foreign functions: the encoder, the network, sharp's decoder (`None` when it throws
   * on the bytes) and the height sharp gives an image of size (w, h) resized to a new width.
   */
  datatype Env = Env(
    encode: EncodeRequest -> EncodeOutcome,
    fetch: string -> FetchOutcome,
    decode: seq<bv8> -> Option<Image>,
    scaledHeight: (nat, nat, nat) -> nat)

  /** The errors a label generator can throw. */
  datatype Failure =
    | Thrown(message: string)    // an `Error` thrown or re-thrown with this message
    | DecodeRejected             // sharp could not decode a fetched buffer
    | ResizeRejected(width: int) // sharp refused a target width below 1
    | NameNotText                // `.length` read on a missing name (a TypeError)

  /** `response.ok`: a status in 200..299. */
  predicate StatusOk(status: int) {
    200 <= status <= 299
  }
}
