# pdf2img: a verified model of the PDF-to-PNG conversion helper

This project models `app/lib/pdf2img.ts` of a resume-analysis web app. That
file holds the app's one piece of engineering: a converter that turns the
first page of an uploaded PDF into a PNG image. It has two parts.

- **`loadPdfJs`** loads the pdf.js engine lazily, once. It returns a cached
  library or the in-flight load promise, refuses to run outside a browser, and
  binds a module worker. If the worker cannot be constructed it falls back to
  `workerSrc`.
- **`convertPdfToImage`** does the rest, in order:
  - opens the document and its first page;
  - chooses a scale that keeps the longest side within 2048 units and never
    upscales past 4;
  - renders to a canvas;
  - encodes the canvas as PNG with `toBlob`, falling back to `toDataURL`
    followed by a manual base64-to-bytes copy;
  - returns a `PdfConversionResult`. This has one of two shapes: an image URL
    and a PNG `File`, or an error string.

Modules:

- `PdfLoader` (`pdf_loader.dfy`): the three module variables `pdfjsLib`,
  `isLoading` and `loadPromise` are the fields of the class `PdfJsLoader`.
  - `Call` is one call of `loadPdfJs`.
  - `Resolve` is the `.then` callback that runs once both imports succeed.
  - `Reject` is an import rejecting.
  - The load promise is a `LoadPromise` object. A call that finds it stored
    hands back a promise that adopts it, so every such caller's promise
    settles with the stored promise's value.
  - The imported library is an `Engine` object whose `workerPort` and
    `workerSrc` model `GlobalWorkerOptions`.
  - Ghost counters record how many import and worker-construction attempts
    have happened. The class invariant `Valid()` keeps both at one or less.
  - Two client methods, `SharedFirstUse` and `RetryAfterEnvironmentError`,
    show what callers can prove from the contracts alone.
- `JsNumber` (`js_number.dfy`): JavaScript numbers as finite reals, plus
  Infinity and NaN. It gives `Math.max`, `Math.min`, division of 2048 and `>`
  their IEEE behaviour on those values.
- `ScalePolicy` (`scale_policy.dfy`): the scale choice and the viewport it
  produces.
- `OutputName` (`output_name.dfy`): `file.name.replace(/\.pdf$/i, "") + ".png"`.
- `ByteString` (`byte_string.dfy`): `dataUrl.split(",")[1]`, plus the array
  loop that copies the string `atob` returns into a `Uint8Array`, including
  the modulo-256 store.
- `EncodeChain` (`encode_chain.dfy`): the nested try/catch written as an
  ordered chain of strategies. Each strategy throws or delivers a blob, which
  may be null. The first strategy that does not throw decides the outcome.
- `Conversion` (`conversion.dfy`): the result datatype, `done`, the error
  returns, `ConversionSpec` (the conversion on its oracles) and the method
  `ConvertPdfToImage`, which is proved equal to it.
- `Wrappers` (`wrappers.dfy`): `Option` and `Result`.

The browser and pdf.js are the fields of `Runtime` and of the `Page` and
`Canvas` values its oracles return:
`file.arrayBuffer()`, `getDocument` followed by `getPage(1)`, `getContext`,
`render`, `toBlob`, `toDataURL`, `atob`, and the origin and identifier of
`URL.createObjectURL`. `await loadPdfJs()` becomes a parameter: the settled
engine, or the string form of the error. `PdfLoader.AwaitedEngine` maps a
`Call` outcome to that value.

Behaviour of the code that the model keeps:

- `isLoading` is written but never read.
- After a rejected import, `loadPromise` is never cleared. From then on, every
  call's promise adopts the same rejected promise.
- Outside a browser, the call throws after setting `isLoading` and before
  storing a promise, so a later call in a browser starts the load.
- A null blob from `toBlob` ends in "Failed to create image blob". It does not
  fall through to the data-URL tier.
- A blob with no bytes (an empty `atob` result, for instance) is still a
  success.
- Release of the page and document is attempted only after a successful
  render; the early error returns skip it.

## Model

| member | source | states |
|---|---|---|
| PdfLoader.PdfJsLoader.constructor | app/lib/pdf2img.ts:7-9 | the loader starts with no library, `isLoading` false, no promise, and no import or worker attempt |
| PdfLoader.PdfJsLoader.Call | app/lib/pdf2img.ts:11-41 | a cached library is returned unchanged; when a promise is stored, the call's promise adopts that stored promise (and settles with its value), with no state changed and no import started; outside a browser the call throws "PDF conversion is only available in the browser" with `isLoading` set and no promise stored; otherwise exactly one import is started and its fresh pending promise is stored and adopted; the invariant (at most one import ever) is kept |
| PdfLoader.PdfJsLoader.Resolve | app/lib/pdf2img.ts:26-39 | after the imports succeed, exactly one worker construction is attempted; on success only `workerPort` is assigned, on a throw only `workerSrc`; the load never fails because of the binding; afterwards `pdfjsLib` is the library, `isLoading` is false and the stored promise is fulfilled with it |
| PdfLoader.PdfJsLoader.Reject | app/lib/pdf2img.ts:22-25 | a rejected import rejects the stored promise and leaves `loadPromise` and `isLoading` set, so no second load is ever started |
| PdfLoader.WorkerUrl | app/lib/pdf2img.ts:27 | the worker script is the module's default export when it has one, else the module object itself |
| PdfLoader.ErrorText | app/lib/pdf2img.ts:125 | `${err}` of an Error with a non-empty message ends with that message |
| PdfLoader.AwaitedEngine | app/lib/pdf2img.ts:48 | `await loadPdfJs()` is still pending exactly when the adopted load promise is pending; a cached or fulfilled library is the awaited engine; a thrown Error awaits to an error carrying its `${err}` text; a rejected load awaits to an error carrying the rejection's text |
| JsNumber.Max | app/lib/pdf2img.ts:57 | `Math.max` is NaN exactly when an argument is NaN, otherwise an argument no smaller than either |
| JsNumber.Min | app/lib/pdf2img.ts:58 | `Math.min` is NaN exactly when an argument is NaN, otherwise an argument no larger than either |
| JsNumber.DivPositive | app/lib/pdf2img.ts:58 | 2048 divided by a zero side is +Infinity and by an infinite side is zero; a finite nonzero side gives the exact quotient; NaN propagates |
| JsNumber.Greater | app/lib/pdf2img.ts:59 | `>` is false whenever a side is NaN and is the real order on finite numbers |
| ScalePolicy.ChooseScale | app/lib/pdf2img.ts:55-59 | whatever sizes the page reports, the render scale is a finite number in (0, 4] |
| ScalePolicy.ScaleFitsLongestSide | app/lib/pdf2img.ts:55-59 | for a positive finite longest side m, scale·m ≤ 2048, with equality once m ≥ 512, and scale = 4 when m ≤ 512 |
| ScalePolicy.DegenerateScale | app/lib/pdf2img.ts:57-59 | a zero longest side gives 2048/0 = Infinity and scale 4; a NaN, negative or infinite longest side gives scale 1 |
| ScalePolicy.ViewportWithinMaxDimension | app/lib/pdf2img.ts:54-59 | for every page with finite sides (zero and negative ones included), both sides of the rendered viewport are at most 2048 |
| OutputName.StripPdfSuffix | app/lib/pdf2img.ts:91 | a name ending in ".pdf" (any case) loses exactly those four characters; any other name is unchanged |
| OutputName.PngName | app/lib/pdf2img.ts:91-92 | the artifact name always ends in ".png" |
| OutputName.PdfNameBecomesPng | app/lib/pdf2img.ts:91-92 | stem + ".pdf" in any case becomes stem + ".png" for every stem, so only one suffix is removed ("a.pdf.pdf" gives "a.pdf.png") |
| OutputName.OtherNameGetsPngAppended | app/lib/pdf2img.ts:91-92 | a name without the suffix only gets ".png" appended |
| OutputName.PngNameRecoversSource | app/lib/pdf2img.ts:91-92 | the source name is the result's stem, or that stem followed by a ".pdf" in some case |
| OutputName.ExampleNames | app/lib/pdf2img.ts:91-92 | "report.PDF" gives "report.png", "notes" gives "notes.png", "a.pdf.pdf" gives "a.pdf.png" |
| ByteString.ToUint8 | app/lib/pdf2img.ts:114 | a Uint8Array store keeps a code below 256 and otherwise keeps it modulo 256 |
| ByteString.CharCodeBytes | app/lib/pdf2img.ts:114 | one byte per character, each congruent modulo 256 to the character's code |
| ByteString.ByteStringToBytes | app/lib/pdf2img.ts:112-114 | the fresh byte array has the string's length, and element i is the stored character code of character i |
| ByteString.BinaryStringCodesKept | app/lib/pdf2img.ts:111-114 | for the binary string `atob` returns, every byte equals the character's code |
| ByteString.CharCodeBytesInvertsLatin1 | app/lib/pdf2img.ts:111-114 | copying the Latin-1 string of any bytes gives those bytes back: no byte is lost |
| ByteString.Latin1InvertsCharCodeBytes | app/lib/pdf2img.ts:111-114 | Latin-1 decoding of the copy of a binary string gives that string back: no character of `atob`'s output is lost |
| ByteString.UpToComma | app/lib/pdf2img.ts:111 | the text before the first comma is a comma-free prefix ending at the comma |
| ByteString.AfterFirstComma | app/lib/pdf2img.ts:111 | the rest after the first comma is absent exactly when there is no comma, and is the suffix after a comma-free prefix and one comma |
| ByteString.SecondField | app/lib/pdf2img.ts:111 | `split(",")[1]` is undefined exactly when there is no comma, and otherwise is the text from just after the first comma up to the next comma or the end |
| ByteString.SecondFieldOfDataUrl | app/lib/pdf2img.ts:109-111 | for a data URL "header,payload" with no other comma, the split yields exactly the payload |
| EncodeChain.Base64Payload | app/lib/pdf2img.ts:111 | without a comma `atob` receives the string "undefined" (`String(undefined)`); otherwise it receives the comma-free second field of the split |
| EncodeChain.BlobTier | app/lib/pdf2img.ts:106 | tier 1 throws exactly when `toBlob` throws |
| EncodeChain.DataUrlTier | app/lib/pdf2img.ts:108-118 | tier 2 throws exactly when `toDataURL` or `atob` throws; otherwise it delivers a non-null "image/png" blob of the decoded bytes |
| EncodeChain.RunChain | app/lib/pdf2img.ts:105-119 | a blob that comes out of the chain is one that some strategy delivered |
| EncodeChain.EncodeSpec | app/lib/pdf2img.ts:105-119 | when `toBlob` calls back, its blob or null is the outcome; after `toBlob` throws, any blob is a "image/png" blob |
| EncodeChain.RunChainFirstDelivered | app/lib/pdf2img.ts:105-119 | the chain's outcome is the blob (or null) of the first strategy that does not throw |
| EncodeChain.RunChainAllThrew | app/lib/pdf2img.ts:116-118 | when every strategy throws, the outcome is `done(null)` |
| EncodeChain.ToBlobDecides | app/lib/pdf2img.ts:105-107 | tier 2 does not run unless `toBlob` throws: the callback's blob or null is the outcome |
| EncodeChain.DataUrlFallback | app/lib/pdf2img.ts:107-118 | after `toBlob` throws, the outcome is the PNG blob of the decoded bytes, or null when `toDataURL` or `atob` throws |
| EncodeChain.EncodeFailsIff | app/lib/pdf2img.ts:89-119 | no blob reaches `done` exactly when `toBlob` calls back with null, or when it throws and the data-URL path throws too |
| EncodeChain.EncodeCanvas | app/lib/pdf2img.ts:105-119 | the imperative encoder, byte loop included, produces the chain's outcome |
| Conversion.ObjectUrl | app/lib/pdf2img.ts:95 | an object URL is a non-empty `blob:` URL |
| Conversion.Failure | app/lib/pdf2img.ts:72-76 | an error return has the failure shape and carries its message |
| Conversion.ConvertFailure | app/lib/pdf2img.ts:121-126 | the catch-all error has the failure shape, is "Failed to convert PDF: " followed by the thrown value's text |
| Conversion.Done | app/lib/pdf2img.ts:89-103 | a blob gives the success shape with a PNG file named after the PDF holding the blob's bytes; null gives exactly the "Failed to create image blob" failure |
| Conversion.ConversionSpec | app/lib/pdf2img.ts:44-127 | every outcome has the success or the failure shape; an engine error is always a failure; a success's file is named after the PDF |
| Conversion.ConvertPdfToImage | app/lib/pdf2img.ts:44-127 | the imperative conversion equals the conversion on its oracles |
| Conversion.ResultShapes | app/lib/pdf2img.ts:44-127 | every outcome has exactly one of the two shapes, and its error is "Canvas 2D context unavailable", "Failed to create image blob" or starts with "Failed to convert PDF: " |
| Conversion.SuccessCarriesEncodedPage | app/lib/pdf2img.ts:48-95 | a success means every step passed in order, the page was rendered at a scale in (0, 4], and the file is the PNG of the encoded blob named after the PDF |
| Conversion.OutsideBrowser | app/lib/pdf2img.ts:121-126 | the engine's browser-only error becomes a failure result "Failed to convert PDF: Error: PDF conversion is only available in the browser" |
| Conversion.NoContextNoRender | app/lib/pdf2img.ts:71-77 | without a 2D context, the result is the context error |
| Conversion.RenderFailureSkipsEncoding | app/lib/pdf2img.ts:79-126 | a failed render gives a failure whatever the canvas would encode to |
| Conversion.EncodeFallbackOutcomes | app/lib/pdf2img.ts:105-119 | after `toBlob` throws, both tiers failing gives exactly `{imageUrl: "", file: null, error: "Failed to create image blob"}`, and a working data-URL path gives a success with the decoded bytes |

## Left out

- Real asynchrony: the loader is a sequential state machine driven by explicit `Call`, `Resolve` and `Reject` events. The two imports running in parallel, promise scheduling, and callers interleaving are not modelled.
- The browser and pdf.js: `import()`, `new Worker`, `getDocument`, `getPage`, `getViewport`, `render`, `getContext`, `toBlob`, `toDataURL`, `atob`, `Blob`, `File` and `URL.createObjectURL` are oracles. `getDocument` and `getPage(1)` are merged into one oracle. `getViewport({ scale })` is the base size times the scale. `atob` is an oracle, not a base64 decoder.
- The `.then` callback throwing (for instance because `GlobalWorkerOptions` is missing) is not modelled: `Resolve` always fulfils the load.
- A `toBlob` that never calls back leaves the source's promise unresolved forever. The model has no such outcome.
- `createObjectURL` and `new File` are total here, on both paths. In the `toBlob` callback, a throw from either would leave the promise unresolved. In tier 2, where `done` runs inside the inner `try`, a throw would be caught at line 116 and end in `done(null)`. Neither outcome is modelled.
- Best-effort cleanup (lines 80-86) has no effect on the result. The smoothing settings (lines 66-69) only affect the rendered pixels, which the `canvas` oracle stands for.
- Canvas width and height truncation on assignment (lines 63-64) is DOM behaviour. Only the viewport handed to `render` is modelled.
- JavaScript numbers are exact reals plus Infinity and NaN. Rounding, and the sign of zero (-0 is taken as +0), are not modelled.
- Character codes are Unicode scalar values, not UTF-16 code units. The two agree on the binary strings `atob` returns.
- `Awaiting(p)` identifies a call's promise with the stored promise `p` that it adopts. In JavaScript each call of the async `loadPdfJs` returns its own wrapper promise, so two calls' promises are different objects that settle with the same value; the model does not distinguish the wrapper from `p`.
- Rejections and thrown values are carried as their already-computed `${err}` text, except for the browser-only Error, whose text is built by `ErrorText`.
- The UI routes (`wipe`, `signup`, `login`, `home`) are not part of this model.
