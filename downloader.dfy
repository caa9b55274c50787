/**
 * The coomer/kemono downloader (downloader/downloader.py): post links from a
 * profile listing, the user id of a URL, the URL, folder and file name of each
 * media element, the streamed write that a cancellation undoes, and the order in
 * which `download_media` hands media elements to its two executors.
 *
 * Page contents are inputs: the `itemprop="name"` text and the article
 * attributes of a listing, the `href`/`download` attributes of each media link,
 * a status code and the chunks of a body. `urljoin` is a function parameter.
 */
module GeneralDownloader {
  import opened Wrappers
  import opened Text
  import opened Paths
  import opened Disk

  /** The `media_type` argument: "image" or "video". */
  datatype MediaKind = ImageMedia | VideoMedia

  /** The messages passed to `log_callback`, before formatting. */
  datatype Event =
    | DownloadCancelled
    | CollectError
    | StartingDownload(kind: MediaKind, number: nat, pageUrl: string)
    | DownloadSuccess(kind: MediaKind, number: nat, pageUrl: string)
    | DownloadFailed

  /**
   * A media link: its `href` (None when absent: `element.get('href')` is then
   * None and `.startswith` raises `AttributeError`) and its `download`
   * attribute ("" when absent).
   */
  datatype Element = Element(href: Option<string>, download: string)

  /** The `data-id`, `data-service` and `data-user` attributes of a post card ("" when absent). */
  datatype Article = Article(id: string, service: string, user: string)

  /** What `download_media` selects on one post page. */
  datatype PageContent = PageContent(images: seq<Element>, videos: seq<Element>)

  /** The arguments of one submitted `process_media_element` call. */
  datatype Task = Task(element: Element, pageIdx: nat, mediaIdx: nat, pageUrl: string,
                       kind: MediaKind, userId: string)

  const DefaultHeaders: map<string, string> := map[
    "User-Agent" := "Mozilla/5.0 (Windows NT 10.0; Win64; x64) AppleWebKit/537.36 (KHTML, like Gecko) Chrome/88.0.4324.150 Safari/537.36",
    "Accept" := "text/html,application/xhtml+xml,application/xml;q=0.9,image/webp,*/*;q=0.8"
  ]

  /** `base_url`: the coomer root when the URL mentions coomer.su, the kemono root otherwise. */
  function SiteRoot(url: string): (r: string)
    ensures r == "https://coomer.su/" || r == "https://kemono.su/"
    ensures r == "https://coomer.su/" <==> Contains(url, "coomer.su")
  {
    if Contains(url, "coomer.su") then "https://coomer.su/" else "https://kemono.su/"
  }

  /**
   * The `media_url` that `process_media_element` requests: a protocol-relative
   * link gets `https:`, a link starting with `http` is kept, anything else is
   * resolved against the site root of the page.
   */
  function NormalizeMediaUrl(href: string, pageUrl: string, urljoin: (string, string) -> string): (r: string)
    ensures StartsWith(href, "//") ==> r == "https:" + href
    ensures !StartsWith(href, "//") && StartsWith(href, "http") ==> r == href
    ensures !StartsWith(href, "//") && !StartsWith(href, "http") ==> r == urljoin(SiteRoot(pageUrl), href)
  {
    if StartsWith(href, "//") then "https:" + href
    else if !StartsWith(href, "http") then urljoin(SiteRoot(pageUrl), href)
    else href
  }

  /** A link that was protocol-relative or already absolute is normalised once and for all. */
  lemma NormalizeMediaUrlFixed(href: string, pageUrl: string, urljoin: (string, string) -> string)
    requires StartsWith(href, "//") || StartsWith(href, "http")
    ensures var once := NormalizeMediaUrl(href, pageUrl, urljoin);
      StartsWith(once, "http") && NormalizeMediaUrl(once, pageUrl, urljoin) == once
  {
    var once := NormalizeMediaUrl(href, pageUrl, urljoin);
    if StartsWith(href, "//") {
      assert once[..6] == "https:";
      assert once[..4] == once[..6][..4];
      assert once[..2][0] == 'h' != "//"[0];
    }
  }

  /** The file name: the `download` attribute if non-empty, else the URL basename cut at `?`; then sanitised. */
  function MediaFileName(mediaUrl: string, download: string): (r: string)
    ensures forall i :: 0 <= i < |r| ==> !IsForbidden(r[i])
    ensures download != [] ==> r == Sanitize(download)
    ensures download == [] ==> r == Sanitize(TakeUntil(Basename(mediaUrl), '?'))
  {
    Sanitize(if download != [] then download else TakeUntil(Basename(mediaUrl), '?'))
  }

  /** The name taken from the URL is the last path component before any query, with forbidden characters replaced. */
  lemma UrlFileNameIsLastComponent(mediaUrl: string)
    ensures var r := MediaFileName(mediaUrl, []);
      && |r| <= |Basename(mediaUrl)|
      && (forall i :: 0 <= i < |r| ==> Basename(mediaUrl)[i] != '?')
      && (|r| < |Basename(mediaUrl)| ==> Basename(mediaUrl)[|r|] == '?')
  {
  }

  /** `folder_suffix`: `Post_<page_idx + 1>` for a page URL containing `/post/`, else empty. */
  function FolderSuffix(pageUrl: string, pageIdx: nat): (r: string)
    ensures Contains(pageUrl, "/post/") ==>
      StartsWith(r, "Post_") && IsDigits(r[5..]) && DecimalValue(r[5..]) == pageIdx + 1
    ensures !Contains(pageUrl, "/post/") ==> r == []
  {
    if Contains(pageUrl, "/post/") then
      var digits := NatToString(pageIdx + 1);
      NatToStringRoundTrip(pageIdx + 1);
      assert ("Post_" + digits)[5..] == digits;
      "Post_" + digits
    else []
  }

  /** `user_folder = os.path.join(download_folder, user_id, folder_suffix)`. */
  function UserFolder(downloadFolder: string, userId: string, pageUrl: string, pageIdx: nat): string {
    Join(Join(downloadFolder, userId), FolderSuffix(pageUrl, pageIdx))
  }

  /**
   * For a download folder without a trailing `/` and a user id without `/`, the
   * folder is `download_folder/user_id/` followed by the post suffix. The empty
   * id that `generate_image_links` returns for a URL without `/user/` puts the
   * suffix straight under the download folder.
   */
  lemma UserFolderLayout(downloadFolder: string, userId: string, pageUrl: string, pageIdx: nat)
    requires downloadFolder != [] && downloadFolder[|downloadFolder| - 1] != '/'
    requires '/' !in userId
    ensures userId != [] ==>
      UserFolder(downloadFolder, userId, pageUrl, pageIdx) == downloadFolder + "/" + userId + "/" + FolderSuffix(pageUrl, pageIdx)
    ensures userId == [] ==>
      UserFolder(downloadFolder, userId, pageUrl, pageIdx) == downloadFolder + "/" + FolderSuffix(pageUrl, pageIdx)
  {
    var suffix := FolderSuffix(pageUrl, pageIdx);
    if suffix != [] {
      assert suffix[0] == 'P';
    }
    if userId != [] {
      assert userId[0] in userId;
      var inner := downloadFolder + "/" + userId;
      assert Join(downloadFolder, userId) == inner;
      assert inner[|inner| - 1] == userId[|userId| - 1];
    } else {
      var inner := downloadFolder + "/";
      assert Join(downloadFolder, userId) == inner;
      assert inner[|inner| - 1] == '/';
    }
  }

  /**
   * `os.path.join(user_folder, filename)` puts the file name right behind the
   * folder. The path names a directory exactly when the name is `""`, `.` or
   * `..`; any other name is a file directly inside the folder.
   */
  lemma FilePathInFolder(folder: string, mediaUrl: string, download: string)
    ensures var path := Join(folder, MediaFileName(mediaUrl, download));
      && StartsWith(path, folder) && Basename(path) == MediaFileName(mediaUrl, download)
      && (EndsInDirectory(path) <==> NamesDirectory(MediaFileName(mediaUrl, download)))
  {
    var name := MediaFileName(mediaUrl, download);
    assert '/' !in name by {
      forall i | 0 <= i < |name| ensures name[i] != '/' {
        assert !IsForbidden(name[i]);
      }
    }
    JoinPlacesInside(folder, name);
  }

  /**
   * `start_url.split('/user/')[1].split('/')[0]`: the text between the first
   * `/user/` and the next `/`, or None where Python raises IndexError.
   */
  function UserIdOf(url: string): (r: Option<string>)
    ensures r.None? <==> !Contains(url, "/user/")
    ensures r.Some? ==> r.value == TakeUntil(url[IndexOf(url, "/user/").value + 6..], '/')
  {
    match SplitSecond(url, "/user/")
    case None => None
    case Some(piece) =>
      var i := IndexOf(url, "/user/").value;
      var rest := url[i + 6..];
      UserSegment(rest, piece);
      Some(TakeUntil(piece, '/'))
  }

  /** The piece before a second `/user/` has the same first segment as the whole rest. */
  lemma UserSegment(rest: string, piece: string)
    requires piece == rest || (StartsWith(rest, piece) && OccursAt(rest, "/user/", |piece|))
    ensures TakeUntil(piece, '/') == TakeUntil(rest, '/')
  {
    if piece != rest {
      assert rest[|piece|..|piece| + 6] == "/user/";
      assert piece == rest[..|piece|];
      TakeUntilCut(rest, '/', |piece|);
    }
  }

  predicate Complete(a: Article) {
    a.id != [] && a.service != [] && a.user != []
  }

  /** The link built from one post card. */
  function PostLink(root: string, a: Article): string {
    root + a.service + "/user/" + a.user + "/post/" + a.id
  }

  /** The profile links: one per complete post card, in document order. */
  function ProfileLinks(root: string, articles: seq<Article>): seq<string> {
    if articles == [] then []
    else
      var last := articles[|articles| - 1];
      ProfileLinks(root, articles[..|articles| - 1]) + (if Complete(last) then [PostLink(root, last)] else [])
  }

  function CountComplete(articles: seq<Article>): nat {
    if articles == [] then 0
    else CountComplete(articles[..|articles| - 1]) + (if Complete(articles[|articles| - 1]) then 1 else 0)
  }

  /** Links of a listing split in two are the links of the first part, then those of the second. */
  lemma {:induction false} ProfileLinksAppend(root: string, xs: seq<Article>, ys: seq<Article>)
    ensures ProfileLinks(root, xs + ys) == ProfileLinks(root, xs) + ProfileLinks(root, ys)
    decreases |ys|
  {
    if ys == [] {
      assert xs + ys == xs;
    } else {
      assert (xs + ys)[..|xs + ys| - 1] == xs + ys[..|ys| - 1];
      ProfileLinksAppend(root, xs, ys[..|ys| - 1]);
    }
  }

  /** Exactly one link per complete card, and every link comes from a complete card. */
  lemma {:induction false} ProfileLinksFromCards(root: string, articles: seq<Article>)
    ensures |ProfileLinks(root, articles)| == CountComplete(articles)
    ensures forall l :: l in ProfileLinks(root, articles) ==>
              exists a :: a in articles && Complete(a) && l == PostLink(root, a)
    decreases |articles|
  {
    if articles != [] {
      var init := articles[..|articles| - 1];
      ProfileLinksFromCards(root, init);
      forall l | l in ProfileLinks(root, articles)
        ensures exists a :: a in articles && Complete(a) && l == PostLink(root, a)
      {
        if l in ProfileLinks(root, init) {
          var a :| a in init && Complete(a) && l == PostLink(root, a);
          assert a in articles;
        } else {
          assert articles[|articles| - 1] in articles;
        }
      }
    }
  }

  /** The media elements of one kind on a page, numbered from 0 in document order. */
  function Enumerate(elements: seq<Element>, pageIdx: nat, pageUrl: string, kind: MediaKind, userId: string): seq<Task> {
    seq(|elements|, j requires 0 <= j < |elements| => Task(elements[j], pageIdx, j, pageUrl, kind, userId))
  }

  /** The tasks one page contributes: its images, then its videos, each when asked for. */
  function PageTasks(pageIdx: nat, pageUrl: string, content: PageContent, userId: string,
                     downloadImages: bool, downloadVideos: bool): seq<Task>
  {
    (if downloadImages then Enumerate(content.images, pageIdx, pageUrl, ImageMedia, userId) else []) +
    (if downloadVideos then Enumerate(content.videos, pageIdx, pageUrl, VideoMedia, userId) else [])
  }

  /** The tasks of the first `n` pages of `urls`, page after page, the page index being the position in `urls`. */
  function Plan(urls: seq<string>, n: nat, fetch: string -> PageContent, userId: string,
                downloadImages: bool, downloadVideos: bool): seq<Task>
    requires n <= |urls|
  {
    if n == 0 then []
    else
      Plan(urls, n - 1, fetch, userId, downloadImages, downloadVideos) +
      PageTasks(n - 1, urls[n - 1], fetch(urls[n - 1]), userId, downloadImages, downloadVideos)
  }

  lemma PlanNext(urls: seq<string>, i: nat, fetch: string -> PageContent, userId: string,
                 downloadImages: bool, downloadVideos: bool)
    requires i < |urls|
    ensures Plan(urls, i + 1, fetch, userId, downloadImages, downloadVideos)
            == Plan(urls, i, fetch, userId, downloadImages, downloadVideos)
               + PageTasks(i, urls[i], fetch(urls[i]), userId, downloadImages, downloadVideos)
  {
  }

  /** Every task of a page names that page; the image tasks form a prefix. */
  lemma PageTasksShape(pageIdx: nat, pageUrl: string, content: PageContent, userId: string,
                       downloadImages: bool, downloadVideos: bool)
    ensures var page := PageTasks(pageIdx, pageUrl, content, userId, downloadImages, downloadVideos);
      var images := if downloadImages then |content.images| else 0;
      && |page| == images + (if downloadVideos then |content.videos| else 0)
      && forall k :: 0 <= k < |page| ==>
           page[k].pageIdx == pageIdx && page[k].pageUrl == pageUrl && (page[k].kind == ImageMedia <==> k < images)
  {
    var ims := if downloadImages then Enumerate(content.images, pageIdx, pageUrl, ImageMedia, userId) else [];
    var vids := if downloadVideos then Enumerate(content.videos, pageIdx, pageUrl, VideoMedia, userId) else [];
    assert PageTasks(pageIdx, pageUrl, content, userId, downloadImages, downloadVideos) == ims + vids;
  }

  /** Every task of `p` names one of the first `n` pages of `urls`, by position and URL. */
  predicate FromPages(p: seq<Task>, urls: seq<string>, n: nat) {
    forall k :: 0 <= k < |p| ==> p[k].pageIdx < n <= |urls| && p[k].pageUrl == urls[p[k].pageIdx]
  }

  /** Every task of the plan names one of its pages, by position and URL. */
  lemma {:induction false} PlanPages(urls: seq<string>, n: nat, fetch: string -> PageContent, userId: string,
                                     downloadImages: bool, downloadVideos: bool)
    requires n <= |urls|
    ensures FromPages(Plan(urls, n, fetch, userId, downloadImages, downloadVideos), urls, n)
  {
    if n > 0 {
      PlanPages(urls, n - 1, fetch, userId, downloadImages, downloadVideos);
      PlanNext(urls, n - 1, fetch, userId, downloadImages, downloadVideos);
      PageTasksShape(n - 1, urls[n - 1], fetch(urls[n - 1]), userId, downloadImages, downloadVideos);
      var before := Plan(urls, n - 1, fetch, userId, downloadImages, downloadVideos);
      var page := PageTasks(n - 1, urls[n - 1], fetch(urls[n - 1]), userId, downloadImages, downloadVideos);
      var p := before + page;
      forall k | 0 <= k < |p| ensures p[k].pageIdx < n && p[k].pageUrl == urls[p[k].pageIdx] {
        if k < |before| {
          assert p[k] == before[k];
        } else {
          assert p[k] == page[k - |before|];
        }
      }
    }
  }

  /** Task `a` may come before task `b`: an earlier page, or the same page with images before videos. */
  predicate Precedes(a: Task, b: Task) {
    a.pageIdx < b.pageIdx || (a.pageIdx == b.pageIdx && (a.kind == b.kind || a.kind == ImageMedia))
  }

  predicate InOrder(p: seq<Task>) {
    forall i, j :: 0 <= i < j < |p| ==> Precedes(p[i], p[j])
  }

  /** Every task of `xs` belongs to an earlier page than every task of `ys`. */
  predicate PagesBefore(xs: seq<Task>, ys: seq<Task>) {
    forall i, j :: 0 <= i < |xs| && 0 <= j < |ys| ==> xs[i].pageIdx < ys[j].pageIdx
  }

  lemma InOrderAppend(xs: seq<Task>, ys: seq<Task>)
    requires InOrder(xs) && InOrder(ys)
    requires PagesBefore(xs, ys)
    ensures InOrder(xs + ys)
  {
    var p := xs + ys;
    forall i, j | 0 <= i < j < |p| ensures Precedes(p[i], p[j]) {
      if j < |xs| {
        assert p[i] == xs[i] && p[j] == xs[j];
      } else if i < |xs| {
        assert p[i] == xs[i] && p[j] == ys[j - |xs|];
      } else {
        assert p[i] == ys[i - |xs|] && p[j] == ys[j - |xs|];
      }
    }
  }

  lemma PageInOrder(pageIdx: nat, pageUrl: string, content: PageContent, userId: string,
                    downloadImages: bool, downloadVideos: bool)
    ensures InOrder(PageTasks(pageIdx, pageUrl, content, userId, downloadImages, downloadVideos))
  {
    PageTasksShape(pageIdx, pageUrl, content, userId, downloadImages, downloadVideos);
  }

  /**
   * The plan visits pages in order, and on each page every image task comes
   * before every video task.
   */
  lemma {:induction false} PlanOrder(urls: seq<string>, n: nat, fetch: string -> PageContent, userId: string,
                                     downloadImages: bool, downloadVideos: bool)
    requires n <= |urls|
    ensures InOrder(Plan(urls, n, fetch, userId, downloadImages, downloadVideos))
  {
    if n > 0 {
      var before := Plan(urls, n - 1, fetch, userId, downloadImages, downloadVideos);
      var page := PageTasks(n - 1, urls[n - 1], fetch(urls[n - 1]), userId, downloadImages, downloadVideos);
      PlanOrder(urls, n - 1, fetch, userId, downloadImages, downloadVideos);
      PageInOrder(n - 1, urls[n - 1], fetch(urls[n - 1]), userId, downloadImages, downloadVideos);
      PlanBeforePage(urls, n, fetch, userId, downloadImages, downloadVideos);
      InOrderAppend(before, page);
      PlanNext(urls, n - 1, fetch, userId, downloadImages, downloadVideos);
    }
  }

  /** The tasks of the first `n - 1` pages all belong to earlier pages than those of page `n - 1`. */
  lemma PlanBeforePage(urls: seq<string>, n: nat, fetch: string -> PageContent, userId: string,
                       downloadImages: bool, downloadVideos: bool)
    requires 0 < n <= |urls|
    ensures PagesBefore(Plan(urls, n - 1, fetch, userId, downloadImages, downloadVideos),
                        PageTasks(n - 1, urls[n - 1], fetch(urls[n - 1]), userId, downloadImages, downloadVideos))
  {
    var before := Plan(urls, n - 1, fetch, userId, downloadImages, downloadVideos);
    var page := PageTasks(n - 1, urls[n - 1], fetch(urls[n - 1]), userId, downloadImages, downloadVideos);
    PlanPages(urls, n - 1, fetch, userId, downloadImages, downloadVideos);
    PageTasksShape(n - 1, urls[n - 1], fetch(urls[n - 1]), userId, downloadImages, downloadVideos);
    forall i, j | 0 <= i < |before| && 0 <= j < |page| ensures before[i].pageIdx < page[j].pageIdx {
      assert before[i].pageIdx < n - 1;
      assert page[j].pageIdx == n - 1;
    }
  }

  /** HTTP statuses for which `raise_for_status` raises. */
  predicate IsHttpError(status: int) {
    400 <= status < 600
  }

  class Downloader {
    const downloadFolder: string
    const headers: map<string, string>
    const downloadImages: bool
    const downloadVideos: bool
    var cancelRequested: bool
    /** The messages passed to `log_callback`, in order. */
    var logged: seq<Event>
    /** How many times `enable_widgets_callback` has been called. */
    var widgetsEnabled: nat

    /** `__init__`: the given headers, or the defaults when none (or an empty dict) are given. */
    constructor (downloadFolder: string, downloadImages: bool, downloadVideos: bool, headers: map<string, string>)
      ensures this.downloadFolder == downloadFolder
      ensures this.headers == (if |headers| == 0 then DefaultHeaders else headers)
      ensures this.downloadImages == downloadImages && this.downloadVideos == downloadVideos
      ensures !cancelRequested && logged == [] && widgetsEnabled == 0
    {
      this.downloadFolder := downloadFolder;
      this.headers := if |headers| == 0 then DefaultHeaders else headers;
      this.downloadImages := downloadImages;
      this.downloadVideos := downloadVideos;
      this.cancelRequested := false;
      this.logged := [];
      this.widgetsEnabled := 0;
    }

    method Log(e: Event)
      modifies this`logged
      ensures logged == old(logged) + [e]
    {
      logged := logged + [e];
    }

    /** `request_cancel`: the event is set, the cancellation logged and the widgets re-enabled. */
    method RequestCancel()
      modifies this`cancelRequested, this`logged, this`widgetsEnabled
      ensures cancelRequested
      ensures logged == old(logged) + [DownloadCancelled]
      ensures widgetsEnabled == old(widgetsEnabled) + 1
    {
      cancelRequested := true;
      Log(DownloadCancelled);
      widgetsEnabled := widgetsEnabled + 1;
    }

    /**
     * `generate_image_links`. A post URL yields itself and the folder
     * `Post_<text after the last /post/>`; a profile yields one link per
     * complete post card and the stripped profile name. The user id is taken
     * from the URL; without `/user/` the IndexError is logged and it stays "".
     */
    method GenerateImageLinks(startUrl: string, nameText: Option<string>, articles: seq<Article>)
      returns (imageUrls: seq<string>, folderName: string, userId: string)
      modifies this`logged
      ensures Contains(startUrl, "/post/") ==>
        imageUrls == [startUrl] && folderName == "Post_" + SplitLast(startUrl, "/post/")
      ensures !Contains(startUrl, "/post/") ==>
        && imageUrls == ProfileLinks(SiteRoot(startUrl), articles)
        && folderName == (if nameText.Some? then Strip(nameText.value) else [])
      ensures userId == UserIdOf(startUrl).GetOr([])
      ensures logged == old(logged) + (if UserIdOf(startUrl).None? then [CollectError] else [])
    {
      imageUrls := [];
      folderName := [];
      userId := [];
      var baseUrl := SiteRoot(startUrl);
      if Contains(startUrl, "/post/") {
        var postId := SplitLast(startUrl, "/post/");
        folderName := "Post_" + postId;
        imageUrls := imageUrls + [startUrl];
      } else {
        if nameText.Some? {
          folderName := Strip(nameText.value);
        }
        var i := 0;
        while i < |articles|
          invariant 0 <= i <= |articles|
          invariant imageUrls == ProfileLinks(baseUrl, articles[..i])
        {
          assert articles[..i + 1][..i] == articles[..i];
          var post := articles[i];
          if post.id != [] && post.service != [] && post.user != [] {
            imageUrls := imageUrls + [baseUrl + post.service + "/user/" + post.user + "/post/" + post.id];
          }
          i := i + 1;
        }
        assert articles[..i] == articles;
      }
      match UserIdOf(startUrl) {
        case Some(id) => userId := id;
        case None => Log(CollectError);
      }
    }

    /** The path `process_media_element` writes for one element. */
    function TargetPath(href: string, download: string, pageIdx: nat, pageUrl: string, userId: string,
                        urljoin: (string, string) -> string): string
    {
      Join(UserFolder(downloadFolder, userId, pageUrl, pageIdx),
           MediaFileName(NormalizeMediaUrl(href, pageUrl, urljoin), download))
    }

    /**
     * `process_media_element`. Nothing happens once cancelled. A link without
     * `href` raises `AttributeError` (`raised`) before anything is logged. A
     * status that `raise_for_status` rejects, or a file name that names a
     * directory (`""`, `.` or `..`, which `open` refuses), logs an error. Otherwise the chunks
     * are written in order; a cancellation seen in the loop removes the file,
     * and a cancellation seen by either check keeps the success message back.
     * The cancel checks are numbered: one per chunk, then the one after the loop.
     */
    method ProcessMediaElement(element: Element, pageIdx: nat, mediaIdx: nat, pageUrl: string,
                               kind: MediaKind, userId: string, status: int, chunks: seq<seq<byte>>,
                               cancelAt: Option<nat>, disk: FileSystem, urljoin: (string, string) -> string)
      returns (raised: bool)
      modifies this`cancelRequested, this`logged, this`widgetsEnabled, disk
      ensures raised <==> !old(cancelRequested) && element.href.None?
      ensures old(cancelRequested) || raised ==>
        cancelRequested == old(cancelRequested) && logged == old(logged)
        && widgetsEnabled == old(widgetsEnabled) && disk.files == old(disk.files)
      ensures !old(cancelRequested) && element.href.Some? ==>
        |logged| == |old(logged)| + 2 && logged[..|old(logged)| + 1] == old(logged) + [StartingDownload(kind, mediaIdx + 1, pageUrl)]
      ensures !old(cancelRequested) && element.href.Some? &&
              (IsHttpError(status) || NamesDirectory(MediaFileName(NormalizeMediaUrl(element.href.value, pageUrl, urljoin), element.download))) ==>
        && !cancelRequested && logged[|logged| - 1] == DownloadFailed
        && widgetsEnabled == old(widgetsEnabled) && disk.files == old(disk.files)
      ensures !old(cancelRequested) && element.href.Some? && !IsHttpError(status) &&
              !NamesDirectory(MediaFileName(NormalizeMediaUrl(element.href.value, pageUrl, urljoin), element.download)) ==>
        var path := TargetPath(element.href.value, element.download, pageIdx, pageUrl, userId, urljoin);
        var cancelled := cancelAt.Some? && cancelAt.value <= |chunks|;
        && cancelRequested == cancelled
        && logged[|logged| - 1] == (if cancelled then DownloadCancelled else DownloadSuccess(kind, mediaIdx + 1, pageUrl))
        && widgetsEnabled == old(widgetsEnabled) + (if cancelled then 1 else 0)
        && disk.files == (if cancelled && cancelAt.value < |chunks| then old(disk.files) - {path}
                          else old(disk.files)[path := Concat(chunks)])
    {
      if cancelRequested {
        return false;
      }
      if element.href.None? {
        return true;
      }
      var mediaUrl := NormalizeMediaUrl(element.href.value, pageUrl, urljoin);
      Log(StartingDownload(kind, mediaIdx + 1, pageUrl));
      if IsHttpError(status) {
        Log(DownloadFailed);
        return false;
      }
      var userFolder := UserFolder(downloadFolder, userId, pageUrl, pageIdx);
      var filename := MediaFileName(mediaUrl, element.download);
      var filepath := Join(userFolder, filename);
      if NamesDirectory(filename) {
        Log(DownloadFailed);
        return false;
      }
      WriteChunks(filepath, chunks, cancelAt, disk);
      if cancelAt == Some(|chunks|) {
        RequestCancel();
      }
      if !cancelRequested {
        Log(DownloadSuccess(kind, mediaIdx + 1, pageUrl));
      }
      return false;
    }

    /**
     * The `with open(filepath, 'wb')` block: chunks are written in order until a
     * cancel check sees the flag, which closes and removes the file.
     */
    method WriteChunks(filepath: string, chunks: seq<seq<byte>>, cancelAt: Option<nat>, disk: FileSystem)
      requires !cancelRequested
      modifies this`cancelRequested, this`logged, this`widgetsEnabled, disk
      ensures var stopped := StopIndex(cancelAt, |chunks|) < |chunks|;
        && cancelRequested == stopped
        && logged == old(logged) + (if stopped then [DownloadCancelled] else [])
        && widgetsEnabled == old(widgetsEnabled) + (if stopped then 1 else 0)
        && disk.files == (if stopped then old(disk.files) - {filepath} else old(disk.files)[filepath := Concat(chunks)])
    {
      disk.Create(filepath);
      var i := 0;
      while i < |chunks|
        invariant 0 <= i <= StopIndex(cancelAt, |chunks|)
        invariant !cancelRequested && logged == old(logged) && widgetsEnabled == old(widgetsEnabled)
        invariant disk.files == old(disk.files)[filepath := Concat(chunks[..i])]
      {
        if cancelAt == Some(i) {
          RequestCancel();
        }
        if cancelRequested {
          disk.Remove(filepath);
          assert old(disk.files)[filepath := Concat(chunks[..i])] - {filepath} == old(disk.files) - {filepath};
          return;
        }
        disk.Append(filepath, chunks[i]);
        ConcatStep(chunks, i);
        i := i + 1;
      }
      assert chunks[..i] == chunks;
    }

    /**
     * A submitted task raises when its own cancel check found the flag clear
     * (`ranClear`, decided by the executors' timing) and its link has no `href`.
     */
    predicate Raises(futures: seq<Task>, k: nat, ranClear: nat -> bool)
      requires k < |futures|
    {
      ranClear(k) && futures[k].element.href.None?
    }

    /** Whether some future's `result()` re-raises its task's exception. */
    predicate AnyRaises(futures: seq<Task>, ranClear: nat -> bool)
    {
      exists k: nat :: k < |futures| && Raises(futures, k, ranClear)
    }

    /**
     * `download_media` without the executors' work: pages are visited in order
     * and each page's image tasks, then its video tasks, are appended to
     * `futures`; the loop stops before the first page whose cancel check sees
     * the flag. The `finally` block then awaits every future: the first one
     * that raised propagates its exception out of the block (`raised`), so the
     * widgets are re-enabled only when none did.
     */
    method DownloadMedia(imageUrls: seq<string>, userId: string, downloadImages: bool, downloadVideos: bool,
                         fetch: string -> PageContent, cancelAt: Option<nat>, ranClear: nat -> bool)
      returns (futures: seq<Task>, raised: bool)
      modifies this`cancelRequested, this`logged, this`widgetsEnabled
      ensures var k := if old(cancelRequested) then 0 else StopIndex(cancelAt, |imageUrls|);
        var arrived := !old(cancelRequested) && k < |imageUrls|;
        && futures == Plan(imageUrls, k, fetch, userId, downloadImages, downloadVideos)
        && raised == AnyRaises(futures, ranClear)
        && cancelRequested == (old(cancelRequested) || arrived)
        && logged == old(logged) + (if arrived then [DownloadCancelled] else [])
        && widgetsEnabled == old(widgetsEnabled) + (if arrived then 1 else 0) + (if raised then 0 else 1)
    {
      futures := [];
      var stop := if cancelRequested then 0 else StopIndex(cancelAt, |imageUrls|);
      var i := 0;
      while i < |imageUrls|
        invariant 0 <= i <= stop
        invariant cancelRequested == old(cancelRequested)
        invariant logged == old(logged) && widgetsEnabled == old(widgetsEnabled)
        invariant futures == Plan(imageUrls, i, fetch, userId, downloadImages, downloadVideos)
      {
        if cancelAt == Some(i) && !cancelRequested {
          RequestCancel();
        }
        if cancelRequested {
          break;
        }
        var pageUrl := imageUrls[i];
        var page := fetch(pageUrl);
        var tasks := PageTasksOf(i, pageUrl, page, userId, downloadImages, downloadVideos);
        PlanNext(imageUrls, i, fetch, userId, downloadImages, downloadVideos);
        futures := futures + tasks;
        i := i + 1;
      }
      raised := AwaitFutures(futures, ranClear);
    }

    /**
     * The `finally` block: `future.result()` for each future in turn; the first
     * that raised ends the block before `enable_widgets_callback` is reached.
     * The executors' `shutdown` is not modelled.
     */
    method AwaitFutures(futures: seq<Task>, ranClear: nat -> bool) returns (raised: bool)
      modifies this`widgetsEnabled
      ensures raised == AnyRaises(futures, ranClear)
      ensures widgetsEnabled == old(widgetsEnabled) + (if raised then 0 else 1)
    {
      var i := 0;
      while i < |futures|
        invariant 0 <= i <= |futures|
        invariant forall j: nat :: j < i ==> !Raises(futures, j, ranClear)
      {
        if ranClear(i) && futures[i].element.href.None? {
          assert Raises(futures, i, ranClear);
          return true;
        }
        i := i + 1;
      }
      widgetsEnabled := widgetsEnabled + 1;
      return false;
    }

    /** The two enumerating loops of one page. */
    method PageTasksOf(pageIdx: nat, pageUrl: string, page: PageContent, userId: string,
                       downloadImages: bool, downloadVideos: bool) returns (tasks: seq<Task>)
      ensures tasks == PageTasks(pageIdx, pageUrl, page, userId, downloadImages, downloadVideos)
    {
      tasks := [];
      if downloadImages {
        var idx := 0;
        while idx < |page.images|
          invariant 0 <= idx <= |page.images|
          invariant tasks == Enumerate(page.images[..idx], pageIdx, pageUrl, ImageMedia, userId)
        {
          tasks := tasks + [Task(page.images[idx], pageIdx, idx, pageUrl, ImageMedia, userId)];
          idx := idx + 1;
        }
        assert page.images[..idx] == page.images;
      }
      ghost var images := tasks;
      if downloadVideos {
        var idx := 0;
        while idx < |page.videos|
          invariant 0 <= idx <= |page.videos|
          invariant tasks == images + Enumerate(page.videos[..idx], pageIdx, pageUrl, VideoMedia, userId)
        {
          tasks := tasks + [Task(page.videos[idx], pageIdx, idx, pageUrl, VideoMedia, userId)];
          idx := idx + 1;
        }
        assert page.videos[..idx] == page.videos;
      }
    }
  }
}
