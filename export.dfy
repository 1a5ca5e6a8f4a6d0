/**
 * The export pipeline: `generarImg` (browser download), `generarImgAndroid`
 * (native write / share / delete under a loading indicator) and
 * `capturarImg`, which renders the QR element and runs them. Each is given
 * here by the sequence of effects it performs, with the outcome of every
 * collaborator call as a parameter.
 */
module Export {
  import opened Effects

  /** Name of the downloaded image and of the cache file used for sharing. */
  const ImageFileName: string := "mi_codigo_qr.png"

  /** Position of an effect in the native export protocol. */
  function Stage(e: Effect): nat {
    match e
    case ShowSpinner => 0
    case Write(_, _, _, _) => 1
    case Share(_, _) => 2
    case Delete(_, _, _) => 3
    case Dismiss => 4
    case _ => 5
  }

  /** `generarImgAndroid` on an image whose data URL is `dataUrl`, when the
      cache write resolves with `write`, the share call succeeds iff
      `shareOk` and the delete succeeds iff `deleteOk`. The delete is chained
      after the share, inside the write's continuation; only the dismissal
      of the indicator is in the `finally`. */
  function NativeExportEffects(dataUrl: string, write: WriteResult, shareOk: bool, deleteOk: bool): (r: seq<Effect>)
    // the indicator is presented first and the write is attempted next, to the fixed cache path
    ensures |r| >= 3 && r[0] == ShowSpinner && r[1] == Write(ImageFileName, dataUrl, Cache, write)
    // the indicator is dismissed exactly once, as the very last effect
    ensures forall i :: 0 <= i < |r| ==> (r[i] == Dismiss <==> i == |r| - 1)
    // spinner, write, share, delete, dismiss: each at most once, in this order, and nothing else
    ensures forall i, j :: 0 <= i < j < |r| ==> Stage(r[i]) < Stage(r[j])
    ensures forall i :: 0 <= i < |r| ==> Stage(r[i]) < 5
    // the share happens iff the write succeeded, with the URI the write returned
    ensures (exists i :: 0 <= i < |r| && r[i].Share?) <==> write.Written?
    ensures forall i :: 0 <= i < |r| && r[i].Share? ==> write.Written? && r[i] == Share(write.uri, shareOk)
    // the delete happens iff the write and the share both succeeded, on the fixed cache path
    ensures (exists i :: 0 <= i < |r| && r[i].Delete?) <==> write.Written? && shareOk
    ensures forall i :: 0 <= i < |r| && r[i].Delete? ==> r[i] == Delete(ImageFileName, Cache, deleteOk)
  {
    var spinner, written := ShowSpinner, Write(ImageFileName, dataUrl, Cache, write);
    match write
    case WriteFailed =>
      [spinner, written, Dismiss]
    case Written(uri) =>
      if shareOk then
        var r := [spinner, written, Share(uri, shareOk), Delete(ImageFileName, Cache, deleteOk), Dismiss];
        assert r[2].Share? && r[3].Delete?;
        r
      else
        var r := [spinner, written, Share(uri, shareOk), Dismiss];
        assert r[2].Share?;
        r
  }

  /** Whether the promise of `generarImgAndroid` resolves: every chained call succeeded. */
  predicate NativeExportResolves(write: WriteResult, shareOk: bool, deleteOk: bool) {
    write.Written? && shareOk && deleteOk
  }

  /** The cache file is gone after a native export only when the write, the
      share and the delete all succeeded; a failed share skips the delete and
      leaves the written file behind, and a failed write leaves the cache as
      it was. */
  lemma NativeExportCacheFile(dataUrl: string, write: WriteResult, shareOk: bool, deleteOk: bool, before: bool)
    ensures FileExistsAfter(NativeExportEffects(dataUrl, write, shareOk, deleteOk), ImageFileName, before)
         == if write.Written? then !(shareOk && deleteOk) else before
  {
    var r := NativeExportEffects(dataUrl, write, shareOk, deleteOk);
    var path := ImageFileName;
    var afterWrite := if write.Written? then true else before;
    assert FileExistsAfter(r, path, before) == FileExistsAfter(r[2..], path, afterWrite) by {
      assert r[1..][1..] == r[2..];
    }
    if write.Written? && shareOk {
      var tail := [Delete(path, Cache, deleteOk), Dismiss];
      assert r[2..] == [Share(write.uri, true)] + tail;
      assert FileExistsAfter(r[2..], path, true) == FileExistsAfter(tail, path, true) by {
        assert r[2..][1..] == tail;
      }
      assert FileExistsAfter(tail, path, true) == FileExistsAfter([Dismiss], path, !deleteOk) by {
        assert tail[1..] == [Dismiss];
      }
      assert [Dismiss][1..] == [];
    } else {
      forall i | 0 <= i < |r[2..]| ensures !r[2..][i].Write? && !r[2..][i].Delete? {
        assert r[2..][i] == r[i + 2];
      }
      FileUntouched(r[2..], path, afterWrite);
    }
  }

  /** `capturarImg`: the rendered image is downloaded first in every case
      (the unconditional `generarImg` call), then downloaded a second time
      off-platform or exported natively on a Capacitor platform. */
  function CaptureEffects(dataUrl: string, native: bool, write: WriteResult, shareOk: bool, deleteOk: bool): (r: seq<Effect>)
    ensures |r| >= 2 && r[0] == Download(dataUrl, ImageFileName)
    ensures !native ==> |r| == 2 && r[1] == Download(dataUrl, ImageFileName)
    ensures native ==> r[1..] == NativeExportEffects(dataUrl, write, shareOk, deleteOk)
    ensures CountDownloads(r) == if native then 1 else 2
  {
    var download := [Download(dataUrl, ImageFileName)];
    var rest := if native then NativeExportEffects(dataUrl, write, shareOk, deleteOk) else download;
    CountDownloadsAppend(download, rest);
    assert CountDownloads(download) == 1 by {
      assert download[1..] == [];
    }
    assert (download + rest)[1..] == rest;
    download + rest
  }

  /** Off-platform an export creates no cache file; on a native platform the
      cache file is left exactly as the native export leaves it. */
  lemma CaptureCacheFile(dataUrl: string, native: bool, write: WriteResult, shareOk: bool, deleteOk: bool, before: bool)
    ensures FileExistsAfter(CaptureEffects(dataUrl, native, write, shareOk, deleteOk), ImageFileName, before)
         == if native && write.Written? then !(shareOk && deleteOk) else before
  {
    var r := CaptureEffects(dataUrl, native, write, shareOk, deleteOk);
    FileExistsAfterAppend(r[..1], r[1..], ImageFileName, before);
    assert r[..1] + r[1..] == r;
    assert FileExistsAfter(r[..1], ImageFileName, before) == before by {
      assert r[..1][1..] == [];
    }
    if native {
      NativeExportCacheFile(dataUrl, write, shareOk, deleteOk, before);
    } else {
      assert r[1..][1..] == [];
    }
  }
}
