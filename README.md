# QrPage — a Dafny model of the AppQR scan-and-export page

AppQR's one screen, `QrPage` (`src/app/paginas/qr/qr.page.ts`), scans a QR or
bar code with the camera or from a picked image, keeps the decoded text in the
field `scanResult`, and offers four actions on it: download or share the
rendered code as an image, copy the text to the clipboard, open the text as a
link after a confirmation, and classify whether the text looks like a link.

The model has six modules:

- `Wrappers` — the `Option` datatype. `None` on a JavaScript value is `undefined`.
- `Url` — the scheme normalisation done by the "Sí" handler of the
  open-link confirmation, with its idempotence, round trip and exact-prefix
  facts.
- `Tld` — the classifier `isUrl`, that is, the regular expression
  `/\.(com|net|io|me|crypto|ai)\b/i`.
  - `TldAt` and `ContainsTld` are a reference definition of a match.
  - `SearchFrom` and `MatchAlternatives` are the search the expression
    performs: start positions from left to right, alternatives in order.
  - Each is proved equal to the reference.
  - The expression has no `u` flag, so case folding and `\b` are the ASCII ones.
- `Effects` — the effects the page asks of its collaborators, and a replay
  that tells whether the cache file exists after a sequence of effects.
- `Export` — `generarImgAndroid` and `capturarImg` as effect sequences. Their
  ordering, presence and cleanup facts are stated in the contracts.
- `Qr` — the class `QrPage`.
  - It holds the field `scanResult` and a ghost trace `effects`.
  - Its methods take each collaborator's answer as a parameter: the modal's
    dismissal data, the picked files, the decoder, the write, share and delete
    outcomes, the alert button and the platform.

Where the code differs from the intended behaviour, the model follows the code:

- Cleanup is not unconditional. The delete of the cache file is chained after
  the share, inside the write's `.then` (lines 101-110), so a failed share
  skips it and leaves `mi_codigo_qr.png` in the cache. Only the dismissal of
  the loading indicator is in the `finally` (lines 111-113).
  `Export.NativeExportCacheFile` states exactly when the file remains.
- `capturarImg` calls `generarImg` before it branches (line 76). Off-platform
  the image is downloaded twice. On a native platform it is downloaded once
  and then shared.
- `readBarcodeFromImage` reads `barcodes[0].displayValue` without a check
  (line 69). An empty decoder result throws a `TypeError`. The model makes this
  the explicit outcome `NoBarcode` and leaves `scanResult` unchanged.
- `!path` (line 62) is also true for an empty path string, which returns early.
- `startScan` with dismissal data but no barcode stores `undefined`
  (line 54). Because of this the field is an `Option<string>`.
  - `isUrl` then tests the string `"undefined"`, which is never a link.
  - The "Sí" handler throws on `startsWith` and opens nothing (outcome
    `UndefinedText`).

## Model

| member | source | states |
|---|---|---|
| `Url.Normalize` | src/app/paginas/qr/qr.page.ts:144-149 | the opened URL always starts with `https://`, and is either the scanned text itself or the text with the prefix in front |
| `Url.NormalizeUnchangedIff` | src/app/paginas/qr/qr.page.ts:147-149 | the text is opened unchanged if and only if it already starts with `https://` (case-sensitive `startsWith`) |
| `Url.NormalizeIdempotent` | src/app/paginas/qr/qr.page.ts:144-149 | the prefix is added at most once: normalising twice equals normalising once |
| `Url.NormalizeKeepsText` | src/app/paginas/qr/qr.page.ts:144-149 | the scanned text is the unmodified tail of the URL; the URL is longer by exactly the 8 prefix characters when the prefix was missing, and by nothing otherwise |
| `Url.NormalizeRoundTrip` | src/app/paginas/qr/qr.page.ts:147-148 | for text lacking the prefix, dropping the first 8 characters of the URL gives the text back |
| `Url.NormalizeSameUrl` | src/app/paginas/qr/qr.page.ts:144-149 | two texts open the same URL iff they are equal or one is the other (which lacks the prefix) with the prefix in front |
| `Url.NormalizeBareDomain` | src/app/paginas/qr/qr.page.ts:147-148 | `example.com` opens `https://example.com` |
| `Url.NormalizeSecureLink` | src/app/paginas/qr/qr.page.ts:144-147 | `https://example.com` is opened unchanged |
| `Url.NormalizeOtherSchemes` | src/app/paginas/qr/qr.page.ts:147-148 | `HTTPS://x` and `http://x` are prefixed again: the scheme test is exact and case-sensitive |
| `Tld.MatchAlternatives` | src/app/paginas/qr/qr.page.ts:162 | trying the alternatives in order succeeds iff one of them matches case-insensitively at the position and is followed by a word boundary |
| `Tld.SearchFrom` | src/app/paginas/qr/qr.page.ts:162-163 | the search returns the first start position of a match, and returns none exactly when no position from the start on matches |
| `Tld.IsUrl` | src/app/paginas/qr/qr.page.ts:161-164 | `regex.test(s)` is true iff some position holds `.`, then `com`, `net`, `io`, `me`, `crypto` or `ai` in any ASCII case, then the end of the text or a character outside `[A-Za-z0-9_]` |
| `Tld.NoDotIsNotUrl` | src/app/paginas/qr/qr.page.ts:162 | a text without a dot is never classified as a link |
| `Tld.SingleDotDecides` | src/app/paginas/qr/qr.page.ts:162 | when a text has a single dot, the classification is decided by the alternatives right after it |
| `Tld.TldAtShift` | src/app/paginas/qr/qr.page.ts:162 | a match at position i of s is exactly a match at position |p| + i of p + s (matches starting inside p are not covered) |
| `Tld.DotFreePrefixKeepsIsUrl` | src/app/paginas/qr/qr.page.ts:162-163 | prepending a dot-free text never changes the classification |
| `Tld.NormalizeKeepsIsUrl` | src/app/paginas/qr/qr.page.ts:161-164 | the URL opened for a text is classified as a link exactly when the text is |
| `Tld.IsUrlAcceptsDotCom` | src/app/paginas/qr/qr.page.ts:162 | `example.com` is a link |
| `Tld.IsUrlAcceptsUpperCase` | src/app/paginas/qr/qr.page.ts:162 | `EXAMPLE.AI` is a link (the `i` flag) |
| `Tld.IsUrlAcceptsPath` | src/app/paginas/qr/qr.page.ts:162 | `example.io/path` is a link (`/` is a word boundary) |
| `Tld.IsUrlRejectsPlainText` | src/app/paginas/qr/qr.page.ts:162 | `hello world` is not a link |
| `Tld.IsUrlRejectsLongerWord` | src/app/paginas/qr/qr.page.ts:162 | `x.comx` is not a link (no boundary after `com`) |
| `Tld.IsUrlRejectsMedia` | src/app/paginas/qr/qr.page.ts:162 | `x.media` is not a link (`me` runs on into `dia`) |
| `Export.NativeExportEffects` | src/app/paginas/qr/qr.page.ts:89-113 | native export: the indicator is shown first and dismissed exactly once, last; the effects are spinner, write, share, delete, dismiss, each at most once and in this order; the write and delete use `mi_codigo_qr.png` in the cache directory; the share happens iff the write succeeded, with the returned URI; the delete happens iff the write and the share both succeeded |
| `Export.NativeExportCacheFile` | src/app/paginas/qr/qr.page.ts:96-110 | after a native export the cache file exists iff the write succeeded and the share or the delete failed; after a failed write the cache is as it was |
| `Export.CaptureEffects` | src/app/paginas/qr/qr.page.ts:72-87 | the image is always downloaded first; off-platform it is then downloaded a second time and nothing else happens (two downloads); on a native platform the native export follows (one download) |
| `Export.CaptureCacheFile` | src/app/paginas/qr/qr.page.ts:75-79 | off-platform an export leaves the cache as it was; on a native platform the cache file ends as the native export leaves it |
| `Qr.QrPage.constructor` | src/app/paginas/qr/qr.page.ts:21 | the scan result starts as the empty string and nothing has been done yet |
| `Qr.QrPage.StartScan` | src/app/paginas/qr/qr.page.ts:52-55 | a dismissal without data leaves the scan result unchanged; with data the scan result becomes the barcode's display value, or `undefined` when the data has no barcode |
| `Qr.QrPage.ReadBarcodeFromImage` | src/app/paginas/qr/qr.page.ts:58-70 | no picked file, no path or an empty path: early return, unchanged; an empty decoder result: explicit error, unchanged; otherwise the scan result becomes the first decoded barcode's display value for the picked path |
| `Qr.QrPage.GenerarImg` | src/app/paginas/qr/qr.page.ts:82-87 | one download of the image's data URL under `mi_codigo_qr.png` |
| `Qr.QrPage.GenerarImgAndroid` | src/app/paginas/qr/qr.page.ts:89-114 | the effects performed are exactly `NativeExportEffects`, and the returned promise resolves iff the write, the share and the delete all succeeded |
| `Qr.QrPage.CapturarImg` | src/app/paginas/qr/qr.page.ts:72-80 | the effects performed are exactly `CaptureEffects` for the platform |
| `Qr.QrPage.WriteToClipboard` | src/app/paginas/qr/qr.page.ts:116-119 | the clipboard receives the scan result verbatim (also the empty string), and the scan result is unchanged |
| `Qr.QrPage.OpenCapacitorSite` | src/app/paginas/qr/qr.page.ts:132-159 | "No" opens nothing; "Sí" opens the normalised scan result, and only "Sí" opens anything; an undefined scan result throws before opening; the scan result is never changed |
| `Qr.QrPage.IsUrl` | src/app/paginas/qr/qr.page.ts:161-164 | reads but does not change the scan result; true iff the scan result (as a string) holds a match of the expression (`Tld.ContainsTld`: a dot, a listed suffix in any ASCII case, then a word boundary), and never true for `undefined` |
| `Qr.ScanThenOpen` | src/app/paginas/qr/qr.page.ts:144-152 | end to end through the page: after a camera scan of `example.com` (lines 52-55), "Sí" opens `https://example.com`, the only effect performed, and the scan result stays `example.com` |

## Left out

- `ngOnInit` (lines 31-37): lines 33-34 mention `.then` without calling it, and line 35 is a plugin call, so the method has no behaviour to state.
- The fields `segment` and `qrtext` (lines 18-19) are presentation state that no logic in the file uses.
- Modal creation and presentation in `startScan` (lines 40-50) are not modelled: the accepted formats and the camera facing are UI. The model starts at the dismissal.
- DOM lookup, `html2canvas` rendering and `canvas.toDataURL()` are browser rendering. The rendered image is an opaque data URL given as a parameter. A failed rendering, where the `.then` never runs, is not modelled.
- The plugins (`BarcodeScanner`, `FilePicker`, `Filesystem`, `Share`, `Clipboard`, `Browser`) are foreign calls. Each is an effect whose outcome is a parameter.
  - A failed write is assumed to leave the cache as it was.
  - Clipboard and browser failures are not modelled. These effects are recorded as attempted, and nothing in this file reacts to their failure.
- The confirmation toast, the alert wording, the spinner style and `console.log` are presentation.
  - Dismissing the alert by its backdrop runs no handler, like "No". It is not a separate choice.
- Async scheduling is not modelled. The await points are sequential steps, and `generarImgAndroid` runs to completion inside `capturarImg`, which does not await it. Nothing else runs in between.
- Character width: JavaScript strings are UTF-16 code units, while Dafny's `char` is a Unicode scalar value. A character outside the basic plane is neither a dot, a suffix letter nor a word character in either reading, so the classification is the same.
