/**
 * The Erome album downloader (downloader/erome.py): file-name cleaning, the
 * ASCII-only request headers, the streamed download of one file with its
 * counters and progress reports, and the media list of an album page.
 *
 * Network answers and HTML queries are inputs: a status code, the
 * `content-length` header, the chunks of the body, the `h1` title and what the
 * `<source>`/`<img data-src>` lookups of each element find.
 * A cancellation from the shell's thread is the input `cancelAt`: the shell calls
 * `request_cancel` just before the cancel check of chunk `cancelAt`.
 */
module Erome {
  import opened Wrappers
  import opened Text
  import opened Paths
  import opened Disk
  import opened Numerals

  /** `clean_filename`: cut at the first `?`, then the forbidden characters become `_`. */
  function CleanFilename(name: string): (r: string)
    ensures forall i :: 0 <= i < |r| ==> !IsForbidden(r[i])
    ensures |r| <= |name| && (|r| < |name| ==> name[|r|] == '?')
    ensures forall i :: 0 <= i < |r| ==> name[i] != '?'
    ensures forall i :: 0 <= i < |r| ==> r[i] == (if IsForbidden(name[i]) then '_' else name[i])
  {
    Sanitize(TakeUntil(name, '?'))
  }

  /** Cleaning a cleaned name changes nothing. */
  lemma CleanFilenameIdempotent(name: string)
    ensures CleanFilename(CleanFilename(name)) == CleanFilename(name)
  {
    var once := CleanFilename(name);
    assert '?' !in once by {
      forall i | 0 <= i < |once| ensures once[i] != '?' {
        assert !IsForbidden(once[i]);
      }
    }
    assert TakeUntil(once, '?') == once;
    SanitizeClean(once);
  }

  predicate IsAscii(c: char) {
    c as int < 128
  }

  /** `s.encode('ascii', 'ignore').decode('ascii')`: the non-ASCII characters dropped. */
  function AsciiOnly(s: string): (r: string)
    ensures |r| <= |s|
    ensures forall i :: 0 <= i < |r| ==> IsAscii(r[i])
  {
    if s == [] then [] else (if IsAscii(s[0]) then [s[0]] else []) + AsciiOnly(s[1..])
  }

  /** The filter works character by character, keeping the order of what it keeps. */
  lemma {:induction false} AsciiOnlyAppend(a: string, b: string)
    ensures AsciiOnly(a + b) == AsciiOnly(a) + AsciiOnly(b)
    decreases |a|
  {
    if a != [] {
      assert (a + b)[1..] == a[1..] + b;
      AsciiOnlyAppend(a[1..], b);
    } else {
      assert a + b == b;
    }
  }

  /** An ASCII value is kept whole. */
  lemma {:induction false} AsciiOnlyKeepsAscii(s: string)
    requires forall i :: 0 <= i < |s| ==> IsAscii(s[i])
    ensures AsciiOnly(s) == s
    decreases |s|
  {
    if s != [] {
      AsciiOnlyKeepsAscii(s[1..]);
    }
  }

  /** A single character is kept exactly when it is ASCII. */
  lemma AsciiOnlyChar(c: char)
    ensures AsciiOnly([c]) == (if IsAscii(c) then [c] else [])
  {
    assert [c][1..] == [];
  }

  /** The default headers, used when the caller passes None or an empty dict. */
  const DefaultHeaders: map<string, string> := map[
    "User-Agent" := "Mozilla/5.0 (Windows NT 10.0; Win64; x64) AppleWebKit/537.36",
    "Accept" := "text/html,application/xhtml+xml,application/xml;q=0.9,image/webp,*/*;q=0.8"
  ]

  /** `self.headers` as `__init__` stores it: the given headers, or the defaults, each value filtered to ASCII. */
  function StoredHeaders(given: map<string, string>): map<string, string> {
    AsciiValues(if |given| == 0 then DefaultHeaders else given)
  }

  /** The stored headers keep the keys of their source, and every value is the ASCII-filtered original. */
  lemma StoredHeadersShape(given: map<string, string>)
    ensures var r := StoredHeaders(given);
      && r.Keys == (if |given| == 0 then DefaultHeaders.Keys else given.Keys)
      && (forall k :: k in r ==> forall i :: 0 <= i < |r[k]| ==> IsAscii(r[k][i]))
      && (forall k :: k in r ==> r[k] == AsciiOnly(if |given| == 0 then DefaultHeaders[k] else given[k]))
  {
  }

  /** Every value of `source` filtered to ASCII, under the same keys. */
  function AsciiValues(source: map<string, string>): map<string, string> {
    map k | k in source :: AsciiOnly(source[k])
  }

  datatype ResourceType = Video | Image

  /** The messages `log` records, before translation and formatting. */
  datatype Event =
    | DownloadCancelled
    | StartDownloading(kind: ResourceType, path: string)
    | DownloadSuccessful(kind: ResourceType, path: string)
    | DownloadError(kind: ResourceType, status: int)
    | ProcessingAlbum(url: string)
    | PageError(url: string, status: int)
    | AlbumComplete(folder: Option<string>)
    | LogsExported

  /** One entry of `media_urls`: (url, file path, resource type). */
  datatype MediaTask = MediaTask(url: string, path: string, kind: ResourceType)

  /** The (downloaded_size, total_size) pairs reported after each of the first `k` chunks. */
  function Reports(chunks: seq<seq<byte>>, k: nat, total: int): (r: seq<(nat, int)>)
    requires k <= |chunks|
    ensures |r| == k
  {
    if k == 0 then [] else Reports(chunks, k - 1, total) + [(|Concat(chunks[..k])|, total)]
  }

  lemma {:induction false} ReportsAt(chunks: seq<seq<byte>>, k: nat, total: int, j: nat)
    requires j < k <= |chunks|
    ensures Reports(chunks, k, total)[j] == (|Concat(chunks[..j + 1])|, total)
    decreases k
  {
    if j < k - 1 {
      ReportsAt(chunks, k - 1, total, j);
    }
  }

  /** Reported progress never goes down. */
  lemma ReportsNonDecreasing(chunks: seq<seq<byte>>, k: nat, total: int, i: nat, j: nat)
    requires i <= j < k <= |chunks|
    ensures Reports(chunks, k, total)[i].0 <= Reports(chunks, k, total)[j].0
  {
    ReportsAt(chunks, k, total, i);
    ReportsAt(chunks, k, total, j);
    ConcatPrefixGrows(chunks, i + 1, j + 1);
  }

  lemma {:induction false} ConcatPrefixGrows(chunks: seq<seq<byte>>, a: nat, b: nat)
    requires a <= b <= |chunks|
    ensures |Concat(chunks[..a])| <= |Concat(chunks[..b])|
    decreases b - a
  {
    if a < b {
      ConcatStep(chunks, b - 1);
      ConcatPrefixGrows(chunks, a, b - 1);
    }
  }

  /** Total of the chunk lengths. */
  function SumLengths(chunks: seq<seq<byte>>): nat {
    if chunks == [] then 0 else SumLengths(chunks[..|chunks| - 1]) + |chunks[|chunks| - 1]|
  }

  /** After a full stream the last report is the sum of the chunk lengths. */
  lemma {:induction false} LastReportIsSum(chunks: seq<seq<byte>>, total: int)
    requires |chunks| > 0
    ensures Reports(chunks, |chunks|, total)[|chunks| - 1].0 == SumLengths(chunks)
  {
    ReportsAt(chunks, |chunks|, total, |chunks| - 1);
    assert chunks[..|chunks|] == chunks;
    ConcatLength(chunks);
  }

  lemma {:induction false} ConcatLength(chunks: seq<seq<byte>>)
    ensures |Concat(chunks)| == SumLengths(chunks)
    decreases |chunks|
  {
    if chunks != [] {
      ConcatLength(chunks[..|chunks| - 1]);
    }
  }

  /**
   * The inner tag of one `<video>` or `div.img` element: none, a tag without the
   * source attribute, or the attribute's value. For images the lookup
   * `find('img', attrs={'data-src': True})` skips an `<img>` without `data-src`,
   * so `NoSrc` is found as nothing; for videos `source['src']` raises `KeyError`.
   */
  datatype Found = NotFound | NoSrc | Src(src: string)

  /** The video loop meets a `<source>` without `src`, where `source['src']` raises `KeyError`. */
  predicate MissingSrc(kind: ResourceType, sources: seq<Found>) {
    kind == Video && exists i :: 0 <= i < |sources| && sources[i].NoSrc?
  }

  /** One more element raises exactly when it is a video `<source>` without `src`. */
  lemma MissingSrcNext(kind: ResourceType, sources: seq<Found>, i: nat)
    requires i < |sources|
    ensures MissingSrc(kind, sources[..i + 1]) <==> MissingSrc(kind, sources[..i]) || (kind == Video && sources[i].NoSrc?)
  {
    var a := sources[..i];
    var b := sources[..i + 1];
    assert forall j :: 0 <= j < i ==> b[j] == a[j];
    assert b[i] == sources[i];
  }

  /**
   * The tasks that one loop over `<video><source src>` or `div.img <img data-src>`
   * elements appends: the absolute source URL, the cleaned basename under `folder`,
   * and the kind. An element without a source adds nothing.
   */
  function MediaTasks(kind: ResourceType, pageUrl: string, folder: string,
                      sources: seq<Found>, urljoin: (string, string) -> string): seq<MediaTask>
  {
    if sources == [] then []
    else
      MediaTasks(kind, pageUrl, folder, sources[..|sources| - 1], urljoin) +
      TaskOf(kind, pageUrl, folder, sources[|sources| - 1], urljoin)
  }

  /** What one element adds: the task for its source, or nothing. */
  function TaskOf(kind: ResourceType, pageUrl: string, folder: string, f: Found,
                  urljoin: (string, string) -> string): seq<MediaTask>
  {
    match f
    case Src(src) =>
      var abs := urljoin(pageUrl, src);
      [MediaTask(abs, Join(folder, CleanFilename(Basename(abs))), kind)]
    case _ => []
  }

  /** Number of elements whose source was found. */
  function CountPresent(sources: seq<Found>): nat {
    if sources == [] then 0
    else CountPresent(sources[..|sources| - 1]) + (if sources[|sources| - 1].Src? then 1 else 0)
  }

  /** One task per element that has a source, each of the loop's kind and under `folder`. */
  lemma {:induction false} MediaTasksShape(kind: ResourceType, pageUrl: string, folder: string,
                                           sources: seq<Found>, urljoin: (string, string) -> string)
    ensures |MediaTasks(kind, pageUrl, folder, sources, urljoin)| == CountPresent(sources)
    ensures forall t :: t in MediaTasks(kind, pageUrl, folder, sources, urljoin) ==>
              t.kind == kind && StartsWith(t.path, folder)
    decreases |sources|
  {
    if sources != [] {
      MediaTasksShape(kind, pageUrl, folder, sources[..|sources| - 1], urljoin);
      match sources[|sources| - 1]
      case Src(src) =>
        var abs := urljoin(pageUrl, src);
        var name := CleanFilename(Basename(abs));
        JoinStartsWith(folder, name);
      case _ =>
    }
  }

  lemma JoinStartsWith(dir: string, name: string)
    requires forall i :: 0 <= i < |name| ==> name[i] != '/'
    ensures StartsWith(Join(dir, name), dir)
  {
    if name != [] {
      assert name[0] != '/';
    }
    assert Join(dir, name)[..|dir|] == dir;
  }

  /** `media_urls` of `process_album_page`: the video tasks, then the image tasks, each gated by its flag. */
  function AlbumMedia(downloadVideos: bool, downloadImages: bool, pageUrl: string, folder: string,
                      videoSources: seq<Found>, imageSources: seq<Found>,
                      urljoin: (string, string) -> string): seq<MediaTask>
  {
    (if downloadVideos then MediaTasks(Video, pageUrl, folder, videoSources, urljoin) else []) +
    (if downloadImages then MediaTasks(Image, pageUrl, folder, imageSources, urljoin) else [])
  }

  /** Every video comes before every image; a kind whose flag is off does not appear. */
  lemma AlbumMediaOrder(downloadVideos: bool, downloadImages: bool, pageUrl: string, folder: string,
                        videoSources: seq<Found>, imageSources: seq<Found>,
                        urljoin: (string, string) -> string)
    ensures var m := AlbumMedia(downloadVideos, downloadImages, pageUrl, folder, videoSources, imageSources, urljoin);
      && (forall i, j :: 0 <= i < j < |m| && m[i].kind == Image ==> m[j].kind == Image)
      && (!downloadVideos ==> forall t :: t in m ==> t.kind == Image)
      && (!downloadImages ==> forall t :: t in m ==> t.kind == Video)
      && |m| == (if downloadVideos then CountPresent(videoSources) else 0)
              + (if downloadImages then CountPresent(imageSources) else 0)
  {
    MediaTasksShape(Video, pageUrl, folder, videoSources, urljoin);
    MediaTasksShape(Image, pageUrl, folder, imageSources, urljoin);
    VideosThenImages(downloadVideos, downloadImages,
                     MediaTasks(Video, pageUrl, folder, videoSources, urljoin),
                     MediaTasks(Image, pageUrl, folder, imageSources, urljoin));
  }

  /** Gated video tasks followed by gated image tasks: the videos form a prefix. */
  lemma VideosThenImages(downloadVideos: bool, downloadImages: bool, vs: seq<MediaTask>, imgs: seq<MediaTask>)
    requires forall t :: t in vs ==> t.kind == Video
    requires forall t :: t in imgs ==> t.kind == Image
    ensures var m := (if downloadVideos then vs else []) + (if downloadImages then imgs else []);
      && (forall i, j :: 0 <= i < j < |m| && m[i].kind == Image ==> m[j].kind == Image)
      && (!downloadVideos ==> forall t :: t in m ==> t.kind == Image)
      && (!downloadImages ==> forall t :: t in m ==> t.kind == Video)
      && |m| == (if downloadVideos then |vs| else 0) + (if downloadImages then |imgs| else 0)
  {
    var v := if downloadVideos then vs else [];
    var im := if downloadImages then imgs else [];
    var m := v + im;
    forall i | 0 <= i < |m| ensures (m[i].kind == Image) <==> i >= |v| {
      if i < |v| { assert m[i] == v[i]; assert v[i] in vs; }
      else { assert m[i] == im[i - |v|]; assert im[i - |v|] in imgs; }
    }
  }

  /** `total_size`: `int()` of the `content-length` header, 0 without one; None for the `ValueError`. */
  function TotalSize(contentLength: Option<string>): Option<int>
  {
    match contentLength
    case None => Some(0)
    case Some(v) => ParseInt(v)
  }

  /** A header written as `str(n)` gives the total size `n`. */
  lemma TotalSizeOfLength(n: nat)
    ensures TotalSize(Some(NatToString(n))) == Some(n)
  {
    ParseIntRoundTrip(n);
  }

  /** The folder an album's files go to: `base_folder/<cleaned h1 title>`, or the base itself for a direct download. */
  function AlbumFolder(baseFolder: string, title: Option<string>, directDownload: bool, unknownAlbum: string): string {
    if directDownload then baseFolder else Join(baseFolder, CleanFilename(title.GetOr(unknownAlbum)))
  }

  /**
   * One of the two loops of `process_album_page`: for each element with a source,
   * the absolute URL, the cleaned basename under `folder`, and the kind. The
   * video loop stops with `raised` at a `<source>` without `src`.
   */
  method CollectTasks(kind: ResourceType, pageUrl: string, folder: string,
                      sources: seq<Found>, urljoin: (string, string) -> string)
    returns (tasks: seq<MediaTask>, raised: bool)
    ensures raised == MissingSrc(kind, sources)
    ensures !raised ==> tasks == MediaTasks(kind, pageUrl, folder, sources, urljoin)
  {
    tasks := [];
    var i := 0;
    while i < |sources|
      invariant 0 <= i <= |sources|
      invariant tasks == MediaTasks(kind, pageUrl, folder, sources[..i], urljoin)
      invariant !MissingSrc(kind, sources[..i])
    {
      assert sources[..i + 1][..i] == sources[..i];
      assert MediaTasks(kind, pageUrl, folder, sources[..i + 1], urljoin)
          == tasks + TaskOf(kind, pageUrl, folder, sources[i], urljoin);
      MissingSrcNext(kind, sources, i);
      match sources[i] {
        case Src(src) =>
          var absSrc := urljoin(pageUrl, src);
          tasks := tasks + [MediaTask(absSrc, Join(folder, CleanFilename(Basename(absSrc))), kind)];
        case NoSrc =>
          if kind == Video {
            assert MissingSrc(kind, sources) by {
              assert sources[i].NoSrc?;
            }
            return tasks, true;
          }
        case NotFound =>
      }
      i := i + 1;
    }
    assert sources[..i] == sources;
    return tasks, false;
  }

  class EromeDownloader {
    const headers: map<string, string>
    /** `log_messages`, in the order `log` appended them. */
    var logMessages: seq<Event>
    const downloadImages: bool
    const downloadVideos: bool
    var cancelRequested: bool
    var totalFiles: nat
    var completedFiles: nat
    const isProfileDownload: bool
    const directDownload: bool
    /** The translation function; only its value for "Unknown Album" reaches the model. */
    const tr: string -> string
    /** How many times `enable_widgets_callback` has been called. */
    var widgetsEnabled: nat
    /** The (downloaded, total) pairs passed to `update_progress_callback`. */
    var progress: seq<(nat, int)>
    /** The (completed, total) pairs passed to `update_global_progress_callback`. */
    var globalProgress: seq<(nat, nat)>
    /** The download tasks handed to the executor, in submission order. */
    var submitted: seq<MediaTask>

    /** `__init__`: headers filtered to ASCII, counters at zero, no cancellation. */
    constructor (headers: map<string, string>, downloadImages: bool, downloadVideos: bool,
                 isProfileDownload: bool, directDownload: bool, tr: string -> string)
      ensures this.headers == StoredHeaders(headers)
      ensures this.downloadImages == downloadImages && this.downloadVideos == downloadVideos
      ensures this.isProfileDownload == isProfileDownload && this.directDownload == directDownload
      ensures this.tr == tr
      ensures !cancelRequested && totalFiles == 0 && completedFiles == 0
      ensures logMessages == [] && widgetsEnabled == 0 && progress == [] && globalProgress == [] && submitted == []
    {
      this.headers := StoredHeaders(headers);
      this.logMessages := [];
      this.downloadImages := downloadImages;
      this.downloadVideos := downloadVideos;
      this.cancelRequested := false;
      this.totalFiles := 0;
      this.completedFiles := 0;
      this.isProfileDownload := isProfileDownload;
      this.directDownload := directDownload;
      this.tr := tr;
      this.widgetsEnabled := 0;
      this.progress := [];
      this.globalProgress := [];
      this.submitted := [];
    }

    /** `log`: the message is appended to `log_messages`. */
    method Log(e: Event)
      modifies this`logMessages
      ensures logMessages == old(logMessages) + [e]
    {
      logMessages := logMessages + [e];
    }

    /** `request_cancel`: raise the flag, log it, re-enable the widgets of a profile download. */
    method RequestCancel()
      modifies this`cancelRequested, this`logMessages, this`widgetsEnabled
      ensures cancelRequested
      ensures logMessages == old(logMessages) + [DownloadCancelled]
      ensures widgetsEnabled == old(widgetsEnabled) + (if isProfileDownload then 1 else 0)
    {
      cancelRequested := true;
      Log(DownloadCancelled);
      if isProfileDownload {
        widgetsEnabled := widgetsEnabled + 1;
      }
    }

    /**
     * The `with open(file_path, 'wb')` block of `download_file`: every chunk is
     * written and reported until a cancel check sees the flag, which returns at
     * once. Reports `complete` when the stream ran to its end.
     */
    method StreamToFile(filePath: string, total: int, chunks: seq<seq<byte>>,
                        cancelAt: Option<nat>, disk: FileSystem) returns (complete: bool)
      requires !cancelRequested
      modifies this`cancelRequested, this`logMessages, this`widgetsEnabled, this`progress, disk
      ensures complete <==> StopIndex(cancelAt, |chunks|) == |chunks|
      ensures disk.files == old(disk.files)[filePath := Concat(chunks[..StopIndex(cancelAt, |chunks|)])]
      ensures progress == old(progress) + Reports(chunks, StopIndex(cancelAt, |chunks|), total)
      ensures cancelRequested == !complete
      ensures logMessages == old(logMessages) + (if complete then [] else [DownloadCancelled])
      ensures widgetsEnabled == old(widgetsEnabled) + (if !complete && isProfileDownload then 1 else 0)
    {
      disk.Create(filePath);
      var downloadedSize := 0;
      var i := 0;
      while i < |chunks|
        invariant 0 <= i <= StopIndex(cancelAt, |chunks|)
        invariant !cancelRequested
        invariant logMessages == old(logMessages) && widgetsEnabled == old(widgetsEnabled)
        invariant disk.files == old(disk.files)[filePath := Concat(chunks[..i])]
        invariant downloadedSize == |Concat(chunks[..i])|
        invariant progress == old(progress) + Reports(chunks, i, total)
      {
        if cancelAt == Some(i) {
          RequestCancel();
        }
        if cancelRequested {
          return false;
        }
        disk.Append(filePath, chunks[i]);
        ConcatStep(chunks, i);
        downloadedSize := downloadedSize + |chunks[i]|;
        progress := progress + [(downloadedSize, total)];
        i := i + 1;
      }
      return true;
    }

    /**
     * `download_file`. With the flag already set nothing happens. Otherwise a
     * non-200 status logs an error. For a 200 status, a `content-length` that
     * `int()` rejects raises `ValueError` (`raised`), and `open` raises too when
     * the path's last component names a directory (`EndsInDirectory`, which is
     * `NamesDirectory(Basename(filePath))` by `EndsInDirectoryBasename`). Else
     * the chunks are streamed to the file, reporting progress after each one,
     * and only a stream that runs to its end counts as a completed file. A
     * cancellation seen mid-stream returns at once and leaves the partial file.
     */
    method DownloadFile(url: string, filePath: string, kind: ResourceType,
                        status: int, contentLength: Option<string>, chunks: seq<seq<byte>>,
                        cancelAt: Option<nat>, disk: FileSystem) returns (raised: bool)
      modifies this`cancelRequested, this`logMessages, this`widgetsEnabled, this`progress,
               this`completedFiles, this`globalProgress, disk
      ensures raised <==> !old(cancelRequested) && status == 200 &&
                          (TotalSize(contentLength).None? || EndsInDirectory(filePath))
      ensures old(cancelRequested) ==>
        && cancelRequested && logMessages == old(logMessages) && widgetsEnabled == old(widgetsEnabled)
        && progress == old(progress) && completedFiles == old(completedFiles)
        && globalProgress == old(globalProgress) && disk.files == old(disk.files)
      ensures !old(cancelRequested) && status != 200 ==>
        && !cancelRequested
        && logMessages == old(logMessages) + [StartDownloading(kind, filePath), DownloadError(kind, status)]
        && widgetsEnabled == old(widgetsEnabled) && progress == old(progress)
        && completedFiles == old(completedFiles) && globalProgress == old(globalProgress)
        && disk.files == old(disk.files)
      ensures raised ==>
        && !cancelRequested
        && logMessages == old(logMessages) + [StartDownloading(kind, filePath)]
        && widgetsEnabled == old(widgetsEnabled) && progress == old(progress)
        && completedFiles == old(completedFiles) && globalProgress == old(globalProgress)
        && disk.files == old(disk.files)
      ensures !old(cancelRequested) && status == 200 && !raised ==>
        var k := StopIndex(cancelAt, |chunks|);
        && disk.files == old(disk.files)[filePath := Concat(chunks[..k])]
        && progress == old(progress) + Reports(chunks, k, TotalSize(contentLength).value)
        && (k < |chunks| ==>
              && cancelRequested
              && logMessages == old(logMessages) + [StartDownloading(kind, filePath), DownloadCancelled]
              && widgetsEnabled == old(widgetsEnabled) + (if isProfileDownload then 1 else 0)
              && completedFiles == old(completedFiles) && globalProgress == old(globalProgress))
        && (k == |chunks| ==>
              && !cancelRequested
              && logMessages == old(logMessages) + [StartDownloading(kind, filePath), DownloadSuccessful(kind, filePath)]
              && widgetsEnabled == old(widgetsEnabled)
              && completedFiles == old(completedFiles) + 1
              && globalProgress == old(globalProgress) + [(old(completedFiles) + 1, totalFiles)])
    {
      if cancelRequested {
        return false;
      }
      Log(StartDownloading(kind, filePath));
      if status != 200 {
        Log(DownloadError(kind, status));
        return false;
      }
      var totalSize := TotalSize(contentLength);
      if totalSize.None? {
        return true;
      }
      if EndsInDirectory(filePath) {
        return true;
      }
      ReceiveFile(filePath, kind, totalSize.value, chunks, cancelAt, disk);
      return false;
    }

    /**
     * The 200 path of `download_file` once `total_size` is known: the stream,
     * then the completed-file count, the global report and the success line,
     * all three kept back by a cancellation.
     */
    method ReceiveFile(filePath: string, kind: ResourceType, total: int, chunks: seq<seq<byte>>,
                       cancelAt: Option<nat>, disk: FileSystem)
      requires !cancelRequested
      modifies this`cancelRequested, this`logMessages, this`widgetsEnabled, this`progress,
               this`completedFiles, this`globalProgress, disk
      ensures var k := StopIndex(cancelAt, |chunks|);
        && disk.files == old(disk.files)[filePath := Concat(chunks[..k])]
        && progress == old(progress) + Reports(chunks, k, total)
        && (k < |chunks| ==>
              && cancelRequested
              && logMessages == old(logMessages) + [DownloadCancelled]
              && widgetsEnabled == old(widgetsEnabled) + (if isProfileDownload then 1 else 0)
              && completedFiles == old(completedFiles) && globalProgress == old(globalProgress))
        && (k == |chunks| ==>
              && !cancelRequested
              && logMessages == old(logMessages) + [DownloadSuccessful(kind, filePath)]
              && widgetsEnabled == old(widgetsEnabled)
              && completedFiles == old(completedFiles) + 1
              && globalProgress == old(globalProgress) + [(old(completedFiles) + 1, totalFiles)])
    {
      var complete := StreamToFile(filePath, total, chunks, cancelAt, disk);
      if !complete {
        return;
      }
      completedFiles := completedFiles + 1;
      globalProgress := globalProgress + [(completedFiles, totalFiles)];
      Log(DownloadSuccessful(kind, filePath));
    }

    /** The `finally` block of `process_album_page`. */
    method FinishAlbum()
      modifies this`logMessages, this`widgetsEnabled
      ensures widgetsEnabled == old(widgetsEnabled) + (if isProfileDownload then 0 else 1)
      ensures logMessages == old(logMessages) + [LogsExported]
    {
      if !isProfileDownload {
        widgetsEnabled := widgetsEnabled + 1;
      }
      Log(LogsExported);
    }

    /** The album body raises `KeyError`: videos are wanted and one `<source>` has no `src`. */
    predicate AlbumRaises(videoSources: seq<Found>) {
      downloadVideos && MissingSrc(Video, videoSources)
    }

    /**
     * Builds `media_urls`, adds its length to `total_files` and submits its tasks
     * in order. A `KeyError` in the video loop (`raised`) leaves before anything
     * is added or submitted.
     */
    method SubmitMedia(pageUrl: string, folder: string,
                       videoSources: seq<Found>, imageSources: seq<Found>,
                       urljoin: (string, string) -> string) returns (raised: bool)
      modifies this`totalFiles, this`submitted
      ensures raised == AlbumRaises(videoSources)
      ensures raised ==> submitted == old(submitted) && totalFiles == old(totalFiles)
      ensures !raised ==>
        submitted == old(submitted) +
          AlbumMedia(downloadVideos, downloadImages, pageUrl, folder, videoSources, imageSources, urljoin)
      ensures !raised ==>
        totalFiles == old(totalFiles) +
          |AlbumMedia(downloadVideos, downloadImages, pageUrl, folder, videoSources, imageSources, urljoin)|
    {
      var videos: seq<MediaTask> := [];
      raised := false;
      if downloadVideos {
        videos, raised := CollectTasks(Video, pageUrl, folder, videoSources, urljoin);
        if raised {
          return;
        }
      }
      var images: seq<MediaTask> := [];
      if downloadImages {
        var imageRaised;
        images, imageRaised := CollectTasks(Image, pageUrl, folder, imageSources, urljoin);
      }
      var media := videos + images;
      totalFiles := totalFiles + |media|;
      submitted := submitted + media;
    }

    /**
     * The 200 path of `process_album_page`: the media submitted, then the
     * completion logged, unless the video loop raised.
     */
    method SubmitAlbum(baseFolder: string, title: Option<string>, pageUrl: string,
                       videoSources: seq<Found>, imageSources: seq<Found>,
                       urljoin: (string, string) -> string) returns (raised: bool)
      modifies this`logMessages, this`totalFiles, this`submitted
      ensures raised == AlbumRaises(videoSources)
      ensures raised ==>
        submitted == old(submitted) && totalFiles == old(totalFiles) && logMessages == old(logMessages)
      ensures !raised ==>
        var media := AlbumMedia(downloadVideos, downloadImages, pageUrl,
                                AlbumFolder(baseFolder, title, directDownload, tr("Unknown Album")),
                                videoSources, imageSources, urljoin);
        submitted == old(submitted) + media && totalFiles == old(totalFiles) + |media|
      ensures !raised ==>
        logMessages == old(logMessages) + [AlbumComplete(if directDownload then None else Some(CleanFilename(title.GetOr(tr("Unknown Album")))))]
    {
      var folderName := CleanFilename(title.GetOr(tr("Unknown Album")));
      raised := SubmitMedia(pageUrl, AlbumFolder(baseFolder, title, directDownload, tr("Unknown Album")),
                            videoSources, imageSources, urljoin);
      if !raised {
        Log(AlbumComplete(if directDownload then None else Some(folderName)));
      }
    }

    /**
     * The `try` body of `process_album_page` once the cancel check has passed:
     * a 200 page has its media submitted and the completion logged, any other
     * status logs an error. Both paths call `enable_widgets` for a single album,
     * except when the video loop raised `KeyError` (`raised`).
     */
    method AlbumBody(pageUrl: string, baseFolder: string, status: int, title: Option<string>,
                     videoSources: seq<Found>, imageSources: seq<Found>,
                     urljoin: (string, string) -> string) returns (raised: bool)
      modifies this`logMessages, this`widgetsEnabled, this`totalFiles, this`submitted
      ensures raised == (status == 200 && AlbumRaises(videoSources))
      ensures widgetsEnabled == old(widgetsEnabled) + (if isProfileDownload || raised then 0 else 1)
      ensures status == 200 && !raised ==>
        var media := AlbumMedia(downloadVideos, downloadImages, pageUrl,
                                AlbumFolder(baseFolder, title, directDownload, tr("Unknown Album")),
                                videoSources, imageSources, urljoin);
        submitted == old(submitted) + media && totalFiles == old(totalFiles) + |media|
      ensures status == 200 && !raised ==>
        logMessages == old(logMessages) + [ProcessingAlbum(pageUrl),
          AlbumComplete(if directDownload then None else Some(CleanFilename(title.GetOr(tr("Unknown Album")))))]
      ensures raised ==>
        && logMessages == old(logMessages) + [ProcessingAlbum(pageUrl)]
        && totalFiles == old(totalFiles) && submitted == old(submitted)
      ensures status != 200 ==>
        && logMessages == old(logMessages) + [ProcessingAlbum(pageUrl), PageError(pageUrl, status)]
        && totalFiles == old(totalFiles) && submitted == old(submitted)
    {
      Log(ProcessingAlbum(pageUrl));
      raised := false;
      if status == 200 {
        raised := SubmitAlbum(baseFolder, title, pageUrl, videoSources, imageSources, urljoin);
        if raised {
          return;
        }
      } else {
        Log(PageError(pageUrl, status));
      }
      if !isProfileDownload {
        widgetsEnabled := widgetsEnabled + 1;
      }
    }

    /**
     * `process_album_page` up to the hand-over to the executor: the media list
     * is built (videos gated by `self.download_videos`, then images gated by
     * `self.download_images`; the method's own two flags are not consulted),
     * `total_files` grows by its length and its tasks are submitted in order.
     * The `finally` block runs on every path, the early cancel return and the
     * `KeyError` of a `<source>` without `src` (`raised`) included.
     */
    method ProcessAlbumPage(pageUrl: string, baseFolder: string, status: int, title: Option<string>,
                            videoSources: seq<Found>, imageSources: seq<Found>,
                            urljoin: (string, string) -> string) returns (raised: bool)
      modifies this`logMessages, this`widgetsEnabled, this`totalFiles, this`submitted
      ensures raised == (!old(cancelRequested) && status == 200 && AlbumRaises(videoSources))
      ensures old(cancelRequested) ==>
        && logMessages == old(logMessages) + [LogsExported]
        && totalFiles == old(totalFiles) && submitted == old(submitted)
        && widgetsEnabled == old(widgetsEnabled) + (if isProfileDownload then 0 else 1)
      ensures raised ==>
        && logMessages == old(logMessages) + [ProcessingAlbum(pageUrl), LogsExported]
        && totalFiles == old(totalFiles) && submitted == old(submitted)
        && widgetsEnabled == old(widgetsEnabled) + (if isProfileDownload then 0 else 1)
      ensures !old(cancelRequested) && status == 200 && !raised ==>
        var media := AlbumMedia(downloadVideos, downloadImages, pageUrl,
                                AlbumFolder(baseFolder, title, directDownload, tr("Unknown Album")),
                                videoSources, imageSources, urljoin);
        && submitted == old(submitted) + media
        && totalFiles == old(totalFiles) + |media|
        && logMessages == old(logMessages) + [ProcessingAlbum(pageUrl),
             AlbumComplete(if directDownload then None else Some(CleanFilename(title.GetOr(tr("Unknown Album"))))),
             LogsExported]
        && widgetsEnabled == old(widgetsEnabled) + (if isProfileDownload then 0 else 2)
      ensures !old(cancelRequested) && status != 200 ==>
        && logMessages == old(logMessages) + [ProcessingAlbum(pageUrl), PageError(pageUrl, status), LogsExported]
        && totalFiles == old(totalFiles) && submitted == old(submitted)
        && widgetsEnabled == old(widgetsEnabled) + (if isProfileDownload then 0 else 2)
    {
      raised := false;
      if !cancelRequested {
        raised := AlbumBody(pageUrl, baseFolder, status, title, videoSources, imageSources, urljoin);
      }
      FinishAlbum();
    }
  }
}
