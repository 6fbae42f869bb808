/** convertPdfToImage: render the first page of a PDF to a canvas of bounded
    size and return it as a PNG, or a structured failure. The browser and
    pdf.js calls are the fields of a Runtime record; the engine is the settled
    value of `await loadPdfJs()`. */
module Conversion {
  import opened Wrappers
  import opened JsNumber
  import opened ByteString
  import opened ScalePolicy
  import opened OutputName
  import opened EncodeChain
  import PdfLoader

  const ContextUnavailableMessage: string := "Canvas 2D context unavailable"
  const BlobFailedMessage: string := "Failed to create image blob"
  const ConvertFailedPrefix: string := "Failed to convert PDF: "

  /** `new File([blob], name, { type })`. */
  datatype ImageFile = ImageFile(name: string, mimeType: string, bytes: seq<uint8>)

  /** PdfConversionResult; `error: None` is the absent property. */
  datatype ConversionResult = ConversionResult(imageUrl: string, file: Option<ImageFile>, error: Option<string>)

  /** The success shape: a non-empty image URL, a PNG file and no error. */
  predicate IsSuccess(r: ConversionResult)
  {
    r.imageUrl != "" && r.file.Some? && r.file.value.mimeType == PngType && r.error.None?
  }

  /** The failure shape: an empty image URL, no file and a non-empty error. */
  predicate IsFailure(r: ConversionResult)
  {
    r.imageUrl == "" && r.file.None? && r.error.Some? && r.error.value != ""
  }

  /** `URL.createObjectURL(blob)`: a URL of the `blob:` scheme, with the
      document's origin and a fresh identifier. */
  function ObjectUrl(origin: string, uuid: string): (url: string)
    ensures |url| > 5 && url[..5] == "blob:"
  {
    "blob:" + origin + "/" + uuid
  }

  /** The error returns `{ imageUrl: "", file: null, error }`. */
  function Failure(message: string): (r: ConversionResult)
    requires message != ""
    ensures IsFailure(r) && r.error == Some(message)
  {
    ConversionResult("", None, Some(message))
  }

  /** The catch-all error: "Failed to convert PDF: " followed by `${err}`. */
  function ConvertFailure(errText: string): (r: ConversionResult)
    ensures IsFailure(r)
    ensures |r.error.value| >= |ConvertFailedPrefix|
            && r.error.value[..|ConvertFailedPrefix|] == ConvertFailedPrefix
            && r.error.value[|ConvertFailedPrefix|..] == errText
  {
    Failure(ConvertFailedPrefix + errText)
  }

  /** `done(blob)`: a blob becomes a PNG file named after the PDF, with an
      object URL for it; null becomes the blob error. */
  function Done(blob: Option<Blob>, sourceName: string, origin: string, uuid: string): (r: ConversionResult)
    ensures blob.Some? ==> IsSuccess(r) && r.file.value.name == PngName(sourceName)
                           && r.file.value.bytes == blob.value.bytes
    ensures blob.None? ==> IsFailure(r) && r.error == Some(BlobFailedMessage)
  {
    match blob
    case Some(b) => ConversionResult(ObjectUrl(origin, uuid), Some(ImageFile(PngName(sourceName), PngType, b.bytes)), None)
    case None => Failure(BlobFailedMessage)
  }

  /** The first page as pdf.js gives it: its size at scale 1, and the outcome
      of `page.render(...)` at a viewport (None: it resolved; Some: the error text). */
  datatype Page = Page(baseWidth: Number, baseHeight: Number, render: Viewport -> Option<string>)

  /** The answers of the browser and of pdf.js for one call. Every Err carries
      the string form of what was thrown or rejected. */
  datatype Runtime = Runtime(
    fileName: string,
    arrayBuffer: Result<seq<uint8>>,            // file.arrayBuffer()
    getDocument: seq<uint8> -> Result<Page>,    // getDocument(...).promise, then getPage(1)
    hasContext2d: bool,                         // canvas.getContext("2d") !== null
    canvas: Viewport -> Canvas,                 // the canvas after rendering at a viewport
    origin: string,
    uuid: string)

  /** The outcome of convertPdfToImage once every awaited step has settled. */
  function ConversionSpec(engine: Result<PdfLoader.Engine>, rt: Runtime): (r: ConversionResult)
    ensures IsSuccess(r) || IsFailure(r)
    ensures engine.Err? ==> IsFailure(r)
    ensures IsSuccess(r) ==> r.file.value.name == PngName(rt.fileName)
  {
    match engine
    case Err(e) => ConvertFailure(e)
    case Ok(_) =>
      match rt.arrayBuffer
      case Err(e) => ConvertFailure(e)
      case Ok(bytes) =>
        match rt.getDocument(bytes)
        case Err(e) => ConvertFailure(e)
        case Ok(page) =>
          var viewport := RenderViewport(page.baseWidth, page.baseHeight);
          if !rt.hasContext2d then Failure(ContextUnavailableMessage)
          else
            match page.render(viewport)
            case Some(e) => ConvertFailure(e)
            case None => Done(EncodeSpec(rt.canvas(viewport)), rt.fileName, rt.origin, rt.uuid)
  }

  /** convertPdfToImage as the source runs it, with the encode chain's byte
      copy done in a loop. */
  method ConvertPdfToImage(engine: Result<PdfLoader.Engine>, rt: Runtime) returns (r: ConversionResult)
    ensures r == ConversionSpec(engine, rt)
  {
    if engine.Err? {
      return ConvertFailure(engine.error);
    }
    if rt.arrayBuffer.Err? {
      return ConvertFailure(rt.arrayBuffer.error);
    }
    var document := rt.getDocument(rt.arrayBuffer.value);
    if document.Err? {
      return ConvertFailure(document.error);
    }
    var page := document.value;
    var scale := ChooseScale(page.baseWidth, page.baseHeight).value;
    var viewport := ScaledViewport(page.baseWidth, page.baseHeight, scale);
    if !rt.hasContext2d {
      return Failure(ContextUnavailableMessage);
    }
    var rendered := page.render(viewport);
    if rendered.Some? {
      return ConvertFailure(rendered.value);
    }
    var blob := EncodeCanvas(rt.canvas(viewport));
    r := Done(blob, rt.fileName, rt.origin, rt.uuid);
  }

  /** Every outcome has exactly one of the two shapes, and its error is one of
      the three messages of the source. */
  lemma ResultShapes(engine: Result<PdfLoader.Engine>, rt: Runtime)
    ensures var r := ConversionSpec(engine, rt);
            (IsSuccess(r) || IsFailure(r)) && !(IsSuccess(r) && IsFailure(r))
    ensures var r := ConversionSpec(engine, rt);
            r.error.Some? ==>
              r.error.value == ContextUnavailableMessage || r.error.value == BlobFailedMessage
              || (|r.error.value| >= |ConvertFailedPrefix|
                  && r.error.value[..|ConvertFailedPrefix|] == ConvertFailedPrefix)
  {
  }

  /** A successful result carries a PNG file named after the PDF whose bytes
      are the blob the encode chain produced, for a page rendered at a scale
      in (0, 4]. */
  lemma SuccessCarriesEncodedPage(engine: Result<PdfLoader.Engine>, rt: Runtime)
    requires IsSuccess(ConversionSpec(engine, rt))
    ensures engine.Ok? && rt.arrayBuffer.Ok? && rt.getDocument(rt.arrayBuffer.value).Ok? && rt.hasContext2d
    ensures var page := rt.getDocument(rt.arrayBuffer.value).value;
            var viewport := RenderViewport(page.baseWidth, page.baseHeight);
            var blob := EncodeSpec(rt.canvas(viewport));
            && 0.0 < viewport.scale <= MaxUpscale
            && page.render(viewport).None?
            && blob.Some?
            && ConversionSpec(engine, rt).file == Some(ImageFile(PngName(rt.fileName), PngType, blob.value.bytes))
  {
  }

  /** The engine's environment error surfaces as a failure result, never as
      an exception: its error is "Failed to convert PDF: Error: " followed by
      "PDF conversion is only available in the browser". */
  lemma OutsideBrowser(rt: Runtime)
    ensures var r := ConversionSpec(Err(PdfLoader.ErrorText(PdfLoader.BrowserOnlyMessage)), rt);
            var m := PdfLoader.BrowserOnlyMessage;
            && IsFailure(r)
            && r.error.value == ConvertFailedPrefix + "Error: " + m
            && r.error.value[|r.error.value| - |m|..] == m
  {
    var m := PdfLoader.BrowserOnlyMessage;
    assert ConvertFailedPrefix + PdfLoader.ErrorText(m) == ConvertFailedPrefix + "Error: " + m;
  }

  /** Without a 2D context the result is the context error, and neither the
      render nor the encoders are consulted. */
  lemma NoContextNoRender(engine: Result<PdfLoader.Engine>, rt: Runtime)
    requires engine.Ok? && rt.arrayBuffer.Ok? && rt.getDocument(rt.arrayBuffer.value).Ok?
    requires !rt.hasContext2d
    ensures ConversionSpec(engine, rt) == Failure(ContextUnavailableMessage)
  {
  }

  /** The encode chain only runs on a rendered page: when the render fails the
      result is that error, whatever the canvas would have encoded to. */
  lemma RenderFailureSkipsEncoding(engine: Result<PdfLoader.Engine>, rt: Runtime, other: Viewport -> Canvas)
    requires engine.Ok? && rt.arrayBuffer.Ok? && rt.getDocument(rt.arrayBuffer.value).Ok?
    requires var page := rt.getDocument(rt.arrayBuffer.value).value;
             page.render(RenderViewport(page.baseWidth, page.baseHeight)).Some?
    ensures ConversionSpec(engine, rt) == ConversionSpec(engine, rt.(canvas := other))
    ensures IsFailure(ConversionSpec(engine, rt))
  {
  }

  /** Both encoders failing gives exactly `{ imageUrl: "", file: null,
      error: "Failed to create image blob" }`; a throwing `toBlob` with a
      working data-URL path gives a PNG file of the decoded bytes. */
  lemma EncodeFallbackOutcomes(blobless: Canvas, sourceName: string, origin: string, uuid: string)
    requires blobless.toBlob.ToBlobThrows?
    ensures blobless.dataUrl.None? || blobless.atob(Base64Payload(blobless.dataUrl.value)).None? ==>
              Done(EncodeSpec(blobless), sourceName, origin, uuid)
              == ConversionResult("", None, Some(BlobFailedMessage))
    ensures blobless.dataUrl.Some? && blobless.atob(Base64Payload(blobless.dataUrl.value)).Some? ==>
              var r := Done(EncodeSpec(blobless), sourceName, origin, uuid);
              IsSuccess(r) && r.file.value.bytes
                              == CharCodeBytes(blobless.atob(Base64Payload(blobless.dataUrl.value)).value)
  {
    DataUrlFallback(blobless);
  }
}
