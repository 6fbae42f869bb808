/** Serialising the rendered canvas: an ordered chain of encoding strategies,
    each of which either throws or delivers a blob (possibly null). The first
    strategy that does not throw decides the outcome; when every strategy
    throws the outcome is null, the `done(null)` of the source. */
module EncodeChain {
  import opened Wrappers
  import opened ByteString

  const PngType: string := "image/png"

  /** A Blob: its bytes and its content type. */
  datatype Blob = Blob(bytes: seq<uint8>, mimeType: string)

  /** What `canvas.toBlob(callback, "image/png", 1.0)` does: throw at once, or
      call back with a blob or with null. */
  datatype ToBlobCall = ToBlobThrows | ToBlobCallback(blob: Option<Blob>)

  /** The rendered canvas as the encoder sees it. `dataUrl` is what
      `canvas.toDataURL("image/png", 1.0)` returns (None: it throws); `atob`
      decodes base64 (None: it throws). */
  datatype Canvas = Canvas(toBlob: ToBlobCall, dataUrl: Option<string>, atob: string -> Option<string>)

  /** The outcome of one strategy. */
  datatype TierResult = Threw | Delivered(blob: Option<Blob>)

  /** Tier 1: `canvas.toBlob`. */
  function BlobTier(c: Canvas): (t: TierResult)
    ensures t.Threw? <==> c.toBlob.ToBlobThrows?
  {
    match c.toBlob
    case ToBlobThrows => Threw
    case ToBlobCallback(b) => Delivered(b)
  }

  /** The argument `atob` receives: `dataUrl.split(",")[1]`, where a missing
      field is `undefined` and is converted to the string "undefined". */
  function Base64Payload(dataUrl: string): (payload: string)
    ensures ',' !in dataUrl ==> payload == "undefined"
    ensures ',' in dataUrl ==> ',' !in payload && Some(payload) == SecondField(dataUrl)
  {
    match SecondField(dataUrl)
    case Some(p) => p
    case None => "undefined"
  }

  /** Tier 2: `toDataURL`, `atob`, the byte copy and `new Blob([ab], { type: "image/png" })`.
      It never delivers null: a PNG blob is built whether or not the payload is empty. */
  function DataUrlTier(c: Canvas): (t: TierResult)
    ensures t.Delivered? ==> t.blob.Some? && t.blob.value.mimeType == PngType
    ensures t.Threw? <==> c.dataUrl.None? || c.atob(Base64Payload(c.dataUrl.value)).None?
    ensures t.Delivered? ==>
              t.blob.value.bytes == CharCodeBytes(c.atob(Base64Payload(c.dataUrl.value)).value)
  {
    match c.dataUrl
    case None => Threw
    case Some(url) =>
      match c.atob(Base64Payload(url))
      case None => Threw
      case Some(byteString) => Delivered(Some(Blob(CharCodeBytes(byteString), PngType)))
  }

  /** The chain driver: try the strategies in order and stop at the first one
      that does not throw. */
  function RunChain(tiers: seq<TierResult>): (r: Option<Blob>)
    ensures r.Some? ==> Delivered(r) in tiers
  {
    if tiers == [] then None
    else if tiers[0].Delivered? then tiers[0].blob
    else RunChain(tiers[1..])
  }

  /** The strategies of convertPdfToImage, in order. */
  function Tiers(c: Canvas): seq<TierResult>
  {
    [BlobTier(c), DataUrlTier(c)]
  }

  /** The blob handed to `done`. */
  function EncodeSpec(c: Canvas): (r: Option<Blob>)
    ensures c.toBlob.ToBlobCallback? ==> r == c.toBlob.blob
    ensures c.toBlob.ToBlobThrows? && r.Some? ==> r.value.mimeType == PngType
  {
    // Both branches are the same chain; the `if` only places the lemma call
    // that proves the first postcondition.
    if c.toBlob.ToBlobCallback? then
      RunChainFirstDelivered(Tiers(c), 0);
      RunChain(Tiers(c))
    else
      RunChain(Tiers(c))
  }

  /** The chain's outcome is the blob of the first strategy that does not throw. */
  lemma {:induction false} RunChainFirstDelivered(tiers: seq<TierResult>, k: nat)
    requires k < |tiers| && tiers[k].Delivered?
    requires forall j :: 0 <= j < k ==> tiers[j].Threw?
    ensures RunChain(tiers) == tiers[k].blob
  {
    if k > 0 {
      assert tiers[0].Threw?;
      RunChainFirstDelivered(tiers[1..], k - 1);
    }
  }

  /** When every strategy throws, the chain ends in null. */
  lemma {:induction false} RunChainAllThrew(tiers: seq<TierResult>)
    requires forall j :: 0 <= j < |tiers| ==> tiers[j].Threw?
    ensures RunChain(tiers) == None
  {
    if tiers != [] {
      RunChainAllThrew(tiers[1..]);
    }
  }

  /** Tier 2 runs only when `toBlob` throws: otherwise the outcome is the
      blob or null passed to the callback, whatever the data-URL path would do. */
  lemma ToBlobDecides(c: Canvas)
    requires c.toBlob.ToBlobCallback?
    ensures EncodeSpec(c) == c.toBlob.blob
  {
    RunChainFirstDelivered(Tiers(c), 0);
  }

  /** When `toBlob` throws, the outcome is the data-URL path's PNG blob of the
      decoded bytes, or null when `toDataURL` or `atob` throws too. */
  lemma DataUrlFallback(c: Canvas)
    requires c.toBlob.ToBlobThrows?
    ensures c.dataUrl.None? || c.atob(Base64Payload(c.dataUrl.value)).None? ==> EncodeSpec(c) == None
    ensures c.dataUrl.Some? && c.atob(Base64Payload(c.dataUrl.value)).Some? ==>
              EncodeSpec(c) == Some(Blob(CharCodeBytes(c.atob(Base64Payload(c.dataUrl.value)).value), PngType))
  {
    var ts := Tiers(c);
    if ts[1].Threw? {
      RunChainAllThrew(ts);
    } else {
      RunChainFirstDelivered(ts, 1);
    }
  }

  /** The outcome is null exactly when `toBlob` calls back with null, or when
      `toBlob`, and then `toDataURL` or `atob`, throw. */
  lemma EncodeFailsIff(c: Canvas)
    ensures EncodeSpec(c).None? <==>
              (c.toBlob.ToBlobCallback? && c.toBlob.blob.None?)
              || (c.toBlob.ToBlobThrows? && (c.dataUrl.None? || c.atob(Base64Payload(c.dataUrl.value)).None?))
  {
    if c.toBlob.ToBlobCallback? { ToBlobDecides(c); } else { DataUrlFallback(c); }
  }

  /** The encoder as the source runs it, with the byte copy done in a loop. */
  method EncodeCanvas(c: Canvas) returns (blob: Option<Blob>)
    ensures blob == EncodeSpec(c)
  {
    if c.toBlob.ToBlobCallback? {
      ToBlobDecides(c);
      blob := c.toBlob.blob;
      return;
    }
    DataUrlFallback(c);
    if c.dataUrl.None? {
      return None;
    }
    var decoded := c.atob(Base64Payload(c.dataUrl.value));
    if decoded.None? {
      return None;
    }
    var ia := ByteStringToBytes(decoded.value);
    blob := Some(Blob(ia[..], PngType));
  }
}
