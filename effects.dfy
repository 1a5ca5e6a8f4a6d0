/**
 * The observable effects of the QR page on its collaborators (browser
 * download, spinner, cache filesystem, share sheet, clipboard, browser), and
 * what a sequence of them does to the cache directory.
 */
module Effects {
  import opened Wrappers

  /** The only filesystem directory the page uses. */
  datatype Directory = Cache

  /** What `Filesystem.writeFile` resolves with (a locatable URI) or that it failed. */
  datatype WriteResult = Written(uri: string) | WriteFailed

  datatype Effect =
    | Download(href: string, fileName: string)  // a link with `download` set is clicked
    | ShowSpinner                               // the loading indicator is presented
    | Write(path: string, data: string, directory: Directory, result: WriteResult)
    | Share(url: string, ok: bool)              // the share sheet is invoked with `url`
    | Delete(path: string, directory: Directory, ok: bool)
    | Dismiss                                   // the loading indicator is dismissed
    | ClipboardWrite(text: Option<string>)      // `None` is the JavaScript `undefined`
    | BrowserOpen(url: string)

  /** Whether the cache file `path` exists after effect `e`, given whether it
      existed before: a successful write creates it, a successful delete
      removes it, anything else leaves it as it was. */
  function FileExistsAfterEffect(e: Effect, path: string, before: bool): bool {
    match e
    case Write(p, _, Cache, Written(_)) => if p == path then true else before
    case Delete(p, Cache, true) => if p == path then false else before
    case _ => before
  }

  /** Whether the cache file `path` exists after the effects `t`. */
  function FileExistsAfter(t: seq<Effect>, path: string, before: bool): bool
    decreases |t|
  {
    if t == [] then before else FileExistsAfter(t[1..], path, FileExistsAfterEffect(t[0], path, before))
  }

  /** Replaying two traces one after the other is replaying their concatenation. */
  lemma {:induction false} FileExistsAfterAppend(a: seq<Effect>, b: seq<Effect>, path: string, before: bool)
    ensures FileExistsAfter(a + b, path, before) == FileExistsAfter(b, path, FileExistsAfter(a, path, before))
    decreases |a|
  {
    if a != [] {
      assert (a + b)[1..] == a[1..] + b;
      FileExistsAfterAppend(a[1..], b, path, FileExistsAfterEffect(a[0], path, before));
    } else {
      assert a + b == b;
    }
  }

  /** Effects that touch neither the cache file nor its directory leave its
      existence as it was. */
  lemma {:induction false} FileUntouched(t: seq<Effect>, path: string, before: bool)
    requires forall i :: 0 <= i < |t| ==> !t[i].Write? && !t[i].Delete?
    ensures FileExistsAfter(t, path, before) == before
    decreases |t|
  {
    if t != [] {
      FileUntouched(t[1..], path, before);
    }
  }

  /** The number of downloads in `t`. */
  function CountDownloads(t: seq<Effect>): (n: nat)
    ensures n <= |t|
    ensures n == 0 <==> forall i :: 0 <= i < |t| ==> !t[i].Download?
    decreases |t|
  {
    if t == [] then 0
    else
      var rest := CountDownloads(t[1..]);
      assert forall i :: 1 <= i < |t| ==> t[i] == t[1..][i - 1];
      (if t[0].Download? then 1 else 0) + rest
  }

  /** Downloads of a concatenation are those of each part. */
  lemma {:induction false} CountDownloadsAppend(a: seq<Effect>, b: seq<Effect>)
    ensures CountDownloads(a + b) == CountDownloads(a) + CountDownloads(b)
    decreases |a|
  {
    if a != [] {
      assert (a + b)[1..] == a[1..] + b;
      CountDownloadsAppend(a[1..], b);
    } else {
      assert a + b == b;
    }
  }
}
