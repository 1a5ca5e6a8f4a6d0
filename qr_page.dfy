/**
 * The QR page itself: the `scanResult` field, the two ways of filling it
 * (camera modal and picked image), the actions that read it (clipboard,
 * open as link, link classifier) and the export actions. The collaborators'
 * answers (modal dismissal data, picked files, decoder, write / share /
 * delete outcomes, the alert button pressed, the platform, the rendered
 * image) are parameters; what the page does to them is recorded in the
 * ghost trace `effects`.
 */
module Qr {
  import opened Wrappers
  import opened Effects
  import Export
  import Url
  import Tld

  /** A decoded barcode; only its display value is used. */
  datatype Barcode = Barcode(displayValue: string)

  /** The data the scanning modal is dismissed with: `{ barcode }`, where the
      barcode may be missing. */
  datatype ScanData = ScanData(barcode: Option<Barcode>)

  /** An entry of the file picker's `files`; its `path` is optional. */
  datatype PickedFile = PickedFile(path: Option<string>)

  /** How `readBarcodeFromImage` ends: early return without an image,
      the `TypeError` of reading `barcodes[0].displayValue` on an empty
      result, or the scan result set to the first barcode's value. */
  datatype ReadOutcome = NoImage | NoBarcode | Decoded(value: string)

  /** The button of the open-link confirmation: "No" (role `cancel`) or "Sí". */
  datatype AlertChoice = No | Yes

  /** How the open-link confirmation ends: nothing opened, a URL opened, or
      the `TypeError` of calling `startsWith` on an undefined scan result. */
  datatype OpenOutcome = NotOpened | Opened(url: string) | UndefinedText

  /** `files[0]?.path` */
  function FirstPath(files: seq<PickedFile>): Option<string> {
    if |files| == 0 then None else files[0].path
  }

  /** JavaScript truthiness of an optional string: defined and not empty. */
  predicate Truthy(v: Option<string>) {
    v.Some? && v.value != ""
  }

  /** The string conversion `RegExp.prototype.test` applies to its argument. */
  function JsToString(v: Option<string>): string {
    match v
    case Some(s) => s
    case None => "undefined"
  }

  class QrPage {
    /** The most recent decoded text; `None` is the JavaScript `undefined`
        that a dismissal without a barcode stores. */
    var scanResult: Option<string>
    /** Everything the page has asked of its collaborators, in order. */
    ghost var effects: seq<Effect>

    constructor ()
      ensures scanResult == Some("") && effects == []
    {
      scanResult := Some("");
      effects := [];
    }

    /** `startScan`, from the moment the modal is dismissed with `data`. */
    method StartScan(data: Option<ScanData>)
      modifies this`scanResult
      ensures data.None? ==> scanResult == old(scanResult)
      ensures data.Some? && data.value.barcode.Some? ==> scanResult == Some(data.value.barcode.value.displayValue)
      ensures data.Some? && data.value.barcode.None? ==> scanResult == None
    {
      if data.Some? {
        scanResult := match data.value.barcode
          case Some(barcode) => Some(barcode.displayValue)
          case None => None;
      }
    }

    /** `readBarcodeFromImage`, given what the picker returns and what the
        decoder returns for a path. */
    method ReadBarcodeFromImage(files: seq<PickedFile>, decode: string -> seq<Barcode>) returns (outcome: ReadOutcome)
      modifies this`scanResult
      ensures outcome == NoImage <==> !Truthy(FirstPath(files))
      ensures outcome == NoBarcode <==> Truthy(FirstPath(files)) && |decode(FirstPath(files).value)| == 0
      ensures outcome.Decoded? ==>
        Truthy(FirstPath(files)) && |decode(FirstPath(files).value)| > 0 &&
        outcome.value == decode(FirstPath(files).value)[0].displayValue &&
        scanResult == Some(outcome.value)
      ensures !outcome.Decoded? ==> scanResult == old(scanResult)
    {
      var path := FirstPath(files);
      if !Truthy(path) {
        return NoImage;
      }
      var barcodes := decode(path.value);
      if |barcodes| == 0 {
        return NoBarcode;
      }
      scanResult := Some(barcodes[0].displayValue);
      outcome := Decoded(barcodes[0].displayValue);
    }

    /** `generarImg`: download the image under the fixed file name. */
    method GenerarImg(dataUrl: string)
      modifies this`effects
      ensures effects == old(effects) + [Download(dataUrl, Export.ImageFileName)]
    {
      effects := effects + [Download(dataUrl, Export.ImageFileName)];
    }

    /** `generarImgAndroid`: under a loading indicator, write the image to the
        cache, share the written file, then delete it; the indicator is
        dismissed in the `finally`. `resolved` tells whether the returned
        promise resolves. */
    method GenerarImgAndroid(dataUrl: string, write: WriteResult, shareOk: bool, deleteOk: bool) returns (resolved: bool)
      modifies this`effects
      ensures effects == old(effects) + Export.NativeExportEffects(dataUrl, write, shareOk, deleteOk)
      ensures resolved == Export.NativeExportResolves(write, shareOk, deleteOk)
    {
      var path := Export.ImageFileName;
      effects := effects + [ShowSpinner];
      effects := effects + [Write(path, dataUrl, Cache, write)];
      resolved := false;
      if write.Written? {
        effects := effects + [Share(write.uri, shareOk)];
        if shareOk {
          effects := effects + [Delete(path, Cache, deleteOk)];
          resolved := deleteOk;
        }
      }
      effects := effects + [Dismiss];
    }

    /** `capturarImg`, from the moment the element has been rendered to an
        image whose data URL is `dataUrl`; `native` is whether the platform
        is Capacitor. */
    method CapturarImg(dataUrl: string, native: bool, write: WriteResult, shareOk: bool, deleteOk: bool)
      modifies this`effects
      ensures effects == old(effects) + Export.CaptureEffects(dataUrl, native, write, shareOk, deleteOk)
    {
      GenerarImg(dataUrl);
      if native {
        var _ := GenerarImgAndroid(dataUrl, write, shareOk, deleteOk);
      } else {
        GenerarImg(dataUrl);
      }
    }

    /** `writeToClipboard`: the scan result, as it is, goes to the clipboard. */
    method WriteToClipboard()
      modifies this`effects
      ensures effects == old(effects) + [ClipboardWrite(scanResult)]
      ensures scanResult == old(scanResult)
    {
      effects := effects + [ClipboardWrite(scanResult)];
    }

    /** `openCapacitorSite`, from the moment a button of the confirmation is pressed. */
    method OpenCapacitorSite(choice: AlertChoice) returns (outcome: OpenOutcome)
      modifies this`effects
      ensures scanResult == old(scanResult)
      ensures choice == No ==> outcome == NotOpened && effects == old(effects)
      ensures choice == Yes && scanResult.None? ==> outcome == UndefinedText && effects == old(effects)
      ensures choice == Yes && scanResult.Some? ==>
        outcome == Opened(Url.Normalize(scanResult.value)) &&
        effects == old(effects) + [BrowserOpen(outcome.url)]
    {
      outcome := NotOpened;
      if choice == Yes {
        match scanResult
        case None =>
          outcome := UndefinedText;
        case Some(text) =>
          var url := Url.Normalize(text);
          effects := effects + [BrowserOpen(url)];
          outcome := Opened(url);
      }
    }

    /** `isUrl`: the link classifier applied to the scan result. */
    function IsUrl(): (b: bool)
      reads this
      ensures b <==> Tld.ContainsTld(JsToString(scanResult))
      ensures scanResult.None? ==> !b
    {
      assert scanResult.None? ==> !Tld.IsUrl(JsToString(scanResult)) by {
        if scanResult.None? {
          Tld.NoDotIsNotUrl("undefined");
        }
      }
      Tld.IsUrl(JsToString(scanResult))
    }
  }

  /** A scan of `example.com` followed by "Sí" opens the secure URL. */
  method ScanThenOpen() returns (outcome: OpenOutcome, ghost trace: seq<Effect>, text: Option<string>)
    ensures outcome == Opened("https://example.com")
    ensures trace == [BrowserOpen("https://example.com")]
    ensures text == Some("example.com")
  {
    var page := new QrPage();
    page.StartScan(Some(ScanData(Some(Barcode("example.com")))));
    outcome := page.OpenCapacitorSite(Yes);
    Url.NormalizeBareDomain();
    trace := page.effects;
    text := page.scanResult;
  }
}
