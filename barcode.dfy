/**
 * Choosing what to encode and how: the code to render, the bwip-js symbology picked from
 * the code's shape, and the memo cache keyed by `"bcid:code"` that spares the encoder.
 */
module Barcode {
  import opened Base
  import opened Js
  import opened Externals

  /** The `bcid` name bwip-js knows each symbology by. */
  function BcidName(b: Bcid): string {
    match b
    case Ean13 => "ean13"
    case Upca => "upca"
    case Code128 => "code128"
  }

  /**
   * `/^\d+$/.test(code)` followed by the length test: EAN-13 for thirteen digits, UPC-A for
   * twelve, Code 128 for every other string, the empty one included.
   */
  function ChooseBcid(code: string): (b: Bcid)
    ensures b == Ean13 <==> AllDigits(code) && |code| == 13
    ensures b == Upca <==> AllDigits(code) && |code| == 12
    ensures b == Code128 <==> !AllDigits(code) || (|code| != 12 && |code| != 13)
    ensures code == [] ==> b == Code128
  {
    var isDigits := AllDigits(code);
    if isDigits && |code| == 13 then Ean13
    else if isDigits && |code| == 12 then Upca
    else Code128
  }

  /**
   * The code the 540-wide generators render: `barcode || ''` when it has a non-space
   * character (kept untrimmed), otherwise `plu || 'N/A'`. It is never empty.
   */
  function CodeToRender(barcode: Text, plu: Text): (r: string)
    ensures r != []
    ensures !AllSpace(OrText(barcode, "")) ==> r == OrText(barcode, "")
    ensures AllSpace(OrText(barcode, "")) ==> r == OrText(plu, "N/A")
  {
    var b := OrText(barcode, "");
    TrimEmptyIffAllSpace(b);
    if b != [] && Trim(b) != [] then b else OrText(plu, "N/A")
  }

  /** `${bcid}:${code}` */
  function CacheKey(b: Bcid, code: string): string {
    BcidName(b) + ":" + code
  }

  /** Two different requests never share a cache key: no symbology name holds a colon. */
  lemma CacheKeyInjective(b1: Bcid, c1: string, b2: Bcid, c2: string)
    requires CacheKey(b1, c1) == CacheKey(b2, c2)
    ensures b1 == b2 && c1 == c2
  {
    var n1, n2 := BcidName(b1), BcidName(b2);
    var k := CacheKey(b1, c1);
    assert k == n2 + ":" + c2;
    assert forall i :: 0 <= i < |n1| ==> n1[i] != ':';
    assert forall i :: 0 <= i < |n2| ==> n2[i] != ':';
    assert k[|n1|] == ':' && k[|n2|] == ':';
    assert |n1| == |n2|;
    assert c1 == k[|n1| + 1..] == c2;
  }

  /** The result of one cache-fronted encode: what the caller gets, the new cache, and whether the encoder ran. */
  datatype CacheStep = CacheStep(outcome: EncodeOutcome, entries: map<string, Image>, encoderCalled: bool)

  /**
   * `barcodeCache.get(key)`, and on a miss `bwipjs.toBuffer(req)` followed by
   * `barcodeCache.set(key, png)` when the encoder succeeds.
   */
  function CachedEncode(entries: map<string, Image>, env: Env, req: EncodeRequest): CacheStep {
    var key := CacheKey(req.bcid, req.text);
    if key in entries then CacheStep(Encoded(entries[key]), entries, false)
    else
      var outcome := env.encode(req);
      if outcome.Encoded? then CacheStep(outcome, entries[key := outcome.png], true)
      else CacheStep(outcome, entries, true)
  }

  /** A hit returns the stored image and leaves both the cache and the encoder alone. */
  lemma CachedEncodeHit(entries: map<string, Image>, env: Env, req: EncodeRequest)
    requires CacheKey(req.bcid, req.text) in entries
    ensures CachedEncode(entries, env, req)
            == CacheStep(Encoded(entries[CacheKey(req.bcid, req.text)]), entries, false)
  {
  }

  /** A miss runs the encoder; a failure stores nothing and a success stores exactly the new image. */
  lemma CachedEncodeMiss(entries: map<string, Image>, env: Env, req: EncodeRequest)
    requires CacheKey(req.bcid, req.text) !in entries
    ensures var s := CachedEncode(entries, env, req);
            && s.encoderCalled && s.outcome == env.encode(req)
            && (s.outcome.EncodeFailed? ==> s.entries == entries)
            && (s.outcome.Encoded? ==> s.entries == entries[CacheKey(req.bcid, req.text) := s.outcome.png])
  {
  }

  /** Every stored image is what the encoder gives for the key's request at this scale and height. */
  ghost predicate Coherent(entries: map<string, Image>, env: Env, scale: real, height: int) {
    forall b: Bcid, code: string :: CacheKey(b, code) in entries ==>
      env.encode(EncodeRequest(b, code, scale, height)) == Encoded(entries[CacheKey(b, code)])
  }

  /**
   * The cache is invisible: over a coherent cache, and with every call using the same scale
   * and height, the caller gets exactly what the encoder alone would give, and the cache
   * stays coherent.
   */
  lemma CachedEncodeTransparent(entries: map<string, Image>, env: Env, req: EncodeRequest)
    requires Coherent(entries, env, req.scale, req.height)
    ensures CachedEncode(entries, env, req).outcome == env.encode(req)
    ensures Coherent(CachedEncode(entries, env, req).entries, env, req.scale, req.height)
  {
    var key := CacheKey(req.bcid, req.text);
    var s := CachedEncode(entries, env, req);
    if key in entries {
      assert env.encode(EncodeRequest(req.bcid, req.text, req.scale, req.height)) == Encoded(entries[key]);
    } else if s.outcome.Encoded? {
      forall b: Bcid, code: string | CacheKey(b, code) in s.entries
        ensures env.encode(EncodeRequest(b, code, req.scale, req.height)) == Encoded(s.entries[CacheKey(b, code)])
      {
        if CacheKey(b, code) == key {
          CacheKeyInjective(b, code, req.bcid, req.text);
        }
      }
    }
  }

  /**
   * The encoder runs at most once per key: after a successful encode, the same request is a
   * hit however the encoder would behave the second time.
   */
  lemma CachedEncodeOnce(entries: map<string, Image>, env: Env, env2: Env, req: EncodeRequest)
    requires CachedEncode(entries, env, req).outcome.Encoded?
    ensures var s := CachedEncode(entries, env, req);
            var s2 := CachedEncode(s.entries, env2, req);
            && !s2.encoderCalled && s2.outcome == s.outcome && s2.entries == s.entries
  {
  }

  /** A module-level `barcodeCache = new Map()` of one source file. */
  class BarcodeCache {
    var entries: map<string, Image>

    constructor()
      ensures entries == map[]
    {
      entries := map[];
    }

    /** The get / encode / set sequence of the generators, in place. */
    method Render(env: Env, req: EncodeRequest) returns (outcome: EncodeOutcome)
      modifies this
      ensures outcome == CachedEncode(old(entries), env, req).outcome
      ensures entries == CachedEncode(old(entries), env, req).entries
    {
      var key := CacheKey(req.bcid, req.text);
      if key in entries {
        outcome := Encoded(entries[key]);
      } else {
        outcome := env.encode(req);
        if outcome.Encoded? {
          entries := entries[key := outcome.png];
        }
      }
    }
  }
}
