# CoomerDL core in Dafny

This project models the sequential logic of CoomerDL, a desktop downloader for
coomer/kemono, erome, bunkr, simpcity and jpg5 galleries, and proves properties
about that model. Four source files are modelled:

- `downloader/erome.py` (module `Erome`, class `Erome.EromeDownloader`):
  - `clean_filename` and the ASCII filter applied to the request headers;
  - the `log`/`request_cancel` state;
  - the chunk loop of `download_file`, with its progress reports and its
    `completed_files` counter;
  - the media list that `process_album_page` builds and submits.
- `downloader/downloader.py` (module `GeneralDownloader`, class
  `GeneralDownloader.Downloader`):
  - the link list of `generate_image_links` and its user id;
  - URL normalisation, file name and folder of `process_media_element`;
  - the write loop, which a cancellation undoes by removing the file;
  - the order in which `download_media` enumerates page tasks.
- `app/ui.py` (module `Shell`, class `Shell.App`):
  - `extract_ck_parameters` (the regex search written out as a greedy scan) and
    `extract_ck_query`;
  - `load_translations` and `tr`;
  - the error/warning classification of `add_log_message_safe` and the
    trimming done by `limit_log_lines`;
  - the site dispatch of `start_download`, and the downloader left active by
    each outcome;
  - `cancel_download`, `on_app_close`, and the summary counts (or exception
    text) of `export_logs`.
- `app/settings_window.py` (module `Settings`, class `Settings.SettingsWindow`):
  - the default settings record;
  - the naming-mode display and its reverse mapping;
  - the language table and its lookups in both directions;
  - theme selection;
  - the all-or-nothing `apply_download_settings`.

Supporting modules:

- `Wrappers`: `Option` and `Result`.
- `Text`: Python `str` operations with Python's semantics. This includes
  `split(sep)[-1]` with non-overlapping left-to-right matching, and `split(sep)[1]`.
- `Numerals`: `str.isdigit`, `str.isdecimal` and `int()` on text.
- `Paths`: `re.sub` of the forbidden characters, POSIX `basename`/`join`.
- `Disk`: a map from path to bytes, with create/append/remove.
- `Urls`: the part of `urllib.parse.urlparse` that the dispatch reads.

Network answers and HTML queries are inputs to the model: a status code, the
chunks of a body, the attribute lists of the selected elements. A cancellation
from the shell's thread is the input `cancelAt`: the number of the cancel check
just before which `request_cancel` runs. `urljoin`, `parse_qs`, the bunkr regex
and `str.format` are function parameters. The downloaders' log messages are
datatype events. The shell's log lines are the translated strings.

## Model

| member | source | states |
|---|---|---|
| Erome.CleanFilename | downloader/erome.py:53-55 | The result has no `< > : " / \ \| ? *`. It is exactly as long as the prefix before the first `?`, and each forbidden character of that prefix is replaced by `_` in its position while every other character is kept. |
| Erome.CleanFilenameIdempotent | downloader/erome.py:55 | Cleaning a cleaned name returns it unchanged. |
| Erome.AsciiOnly | downloader/erome.py:17 | `encode('ascii','ignore')` keeps only ASCII characters and never lengthens the text. |
| Erome.AsciiOnlyAppend | downloader/erome.py:17 | The filter works character by character: filtering a concatenation concatenates the filtered parts, so the kept characters stay in order. |
| Erome.AsciiOnlyKeepsAscii | downloader/erome.py:17 | An all-ASCII value passes unchanged. |
| Erome.AsciiOnlyChar | downloader/erome.py:17 | A single character survives exactly when it is ASCII. |
| Erome.StoredHeadersShape | downloader/erome.py:17-20 | The stored headers have the keys of the given dict, or of the defaults when none or an empty dict is given. Each value is the ASCII-filtered original, so every stored value is ASCII. |
| Erome.StoredHeaders | downloader/erome.py:17-20 | `self.headers`: `headers or` the defaults, every value passed through the ASCII filter. Its properties are those of `Erome.StoredHeadersShape`. |
| Erome.Reports | downloader/erome.py:92-94 | One progress report per chunk written. |
| Erome.ReportsAt | downloader/erome.py:85-94 | Report `j` is (bytes in the first `j+1` chunks, content length). |
| Erome.ReportsNonDecreasing | downloader/erome.py:92-94 | Reported progress never decreases. |
| Erome.LastReportIsSum | downloader/erome.py:85-94 | After a full stream, the last reported size is the sum of the chunk lengths. |
| Erome.MediaTasksShape | downloader/erome.py:120-138 | One task per element whose source URL was found; an element without a `<source>`/`<img data-src>` adds nothing. Every task has the loop's kind, and its path begins with the album folder. |
| Erome.MediaTasks | downloader/erome.py:121-138 | The tasks one loop appends, element by element: `urljoin(page_url, src)`, the cleaned basename joined to the folder, and the kind. Its count and shape are stated by `Erome.MediaTasksShape`. |
| Erome.MissingSrcNext | downloader/erome.py:122-125 | One more element makes the video loop raise exactly when it is a `<source>` without `src`. |
| Erome.AlbumMediaOrder | downloader/erome.py:118-140 | All video tasks come before all image tasks. Videos appear only if `download_videos` is set, and images only if `download_images` is set. The list length is the sum of the present elements of each enabled kind. |
| Erome.AlbumMedia | downloader/erome.py:118-138 | `media_urls`: the video loop's tasks when `download_videos` is set, then the image loop's when `download_images` is set. Its order and length are stated by `Erome.AlbumMediaOrder`. |
| Erome.AlbumFolder | downloader/erome.py:112-116 | The folder is the cleaned `h1` text (or the translated "Unknown Album") joined to the base folder, or the base folder itself for a direct download. |
| Erome.TotalSizeOfLength | downloader/erome.py:84 | A `content-length` header written as `str(n)` gives the total size `n`. |
| Erome.CollectTasks | downloader/erome.py:121-138 | The video loop raises exactly when one `<source>` has no `src` (the `KeyError` of `source['src']`); the image loop never raises. When nothing raises, the loop yields exactly the specified task list. |
| Erome.EromeDownloader.constructor | downloader/erome.py:14-35 | Headers are ASCII-filtered. Counters start at zero, no cancellation is requested, and the log is empty. |
| Erome.EromeDownloader.Log | downloader/erome.py:43-46 | The message is appended to `log_messages`. |
| Erome.EromeDownloader.RequestCancel | downloader/erome.py:37-41 | The flag is raised and the cancellation logged. The widgets are re-enabled only for a profile download. |
| Erome.EromeDownloader.StreamToFile | downloader/erome.py:87-94 | The file holds the chunks received before the first cancel check that sees the flag, in order. The reports are those of the written chunks. Completion holds exactly when no check saw the flag. |
| Erome.EromeDownloader.DownloadFile | downloader/erome.py:73-102 | With the flag already set, nothing changes. A non-200 status logs an error and leaves the counters and the disk unchanged. A 200 status raises after the start line and changes nothing else exactly when `int()` rejects the `content-length` (`ValueError`) or the path's last component is empty, `.` or `..`, which `open` refuses (`Paths.EndsInDirectory`). A status-200 stream cut by a cancellation leaves the partial file and does not count it. A full stream adds exactly one completed file and one global report, then logs success. |
| Erome.EromeDownloader.ReceiveFile | downloader/erome.py:87-100 | Once the total size is known: the file holds the chunks before the first check that sees the flag, with one report per chunk. A cut stream logs the cancellation; a full one adds one completed file, one global report and the success line. |
| Erome.EromeDownloader.FinishAlbum | downloader/erome.py:155-158 | The `finally` block re-enables the widgets for a single album and exports the logs. |
| Erome.EromeDownloader.SubmitMedia | downloader/erome.py:118-141 | The album media list is submitted in its order, and `total_files` grows by its length. A `<source>` without `src` (with videos wanted) raises before anything is added or submitted. |
| Erome.EromeDownloader.SubmitAlbum | downloader/erome.py:112-148 | The folder is the cleaned `h1` title (or "Unknown Album") under the base folder, or the base folder itself for a direct download. The media list is submitted and the completion logged. When the video loop raises, nothing is submitted or logged. |
| Erome.EromeDownloader.AlbumBody | downloader/erome.py:108-154 | A 200 page submits its media and logs completion. Any other status logs the page error and submits nothing. Both paths re-enable the widgets for a single album. A raise in the video loop leaves after the "Processing" line, with nothing submitted and the widgets untouched. |
| Erome.EromeDownloader.ProcessAlbumPage | downloader/erome.py:104-158 | A cancelled downloader only runs the `finally` block. Otherwise the 200 path and the error path are as above, both followed by the `finally` block, so a single album re-enables the widgets twice. When the video loop raises, only the `finally` block follows: one re-enabling and the export. |
| Disk.ConcatStep | downloader/downloader.py:96-101 | Writing one more chunk appends it to the bytes written so far. |
| Disk.StopIndex | downloader/erome.py:88-90 | The first cancel check that sees the flag, or the number of checks when none does. |
| Disk.FileSystem.Create | downloader/downloader.py:95 | `open(path, 'wb')` makes the file empty. |
| Disk.FileSystem.Append | downloader/downloader.py:101 | `write` appends the data to the file. |
| Disk.FileSystem.Remove | downloader/downloader.py:99 | `os.remove` deletes the file and nothing else. |
| Paths.Sanitize | downloader/downloader.py:92 | Same length. Each forbidden character becomes `_`, every other character is kept. |
| Paths.SanitizeClean | downloader/erome.py:55 | A name without forbidden characters is left as it is. |
| Paths.Basename | downloader/downloader.py:91 | `os.path.basename` returns a suffix of the path that contains no `/`. |
| Paths.JoinPlacesInside | downloader/downloader.py:93 | Joining any name without `/` puts it right behind the folder, as the result's basename. The result names a directory exactly when the name is `""`, `.` or `..`; any other name is a file directly inside the folder. |
| Paths.EndsInDirectoryBasename | downloader/erome.py:87 | A path ends in `/`, `/.` or `/..`, or is empty, `.` or `..`, exactly when its basename is `""`, `.` or `..`. `Erome.EromeDownloader.DownloadFile` states `open`'s refusal with this test on the last three characters. |
| Paths.NamesDirectory | downloader/erome.py:87 | The last components `""`, `.` and `..`, on which `open(path, 'wb')` raises. Stated by `Paths.EndsInDirectoryBasename` and `Paths.JoinPlacesInside`. |
| Paths.Join | downloader/downloader.py:88-93 | POSIX `os.path.join` of two parts: an absolute part replaces the first, otherwise one `/` separates them. Stated by `Paths.JoinPlacesInside`. |
| Paths.BasenameIsLastComponent | downloader/downloader.py:91 | The basename is the text after the last `/`. |
| GeneralDownloader.SiteRoot | downloader/downloader.py:45 | The root is coomer's exactly when the URL mentions `coomer.su`, and kemono's otherwise. |
| GeneralDownloader.NormalizeMediaUrl | downloader/downloader.py:76-80 | `//x` becomes `https://x`. A link starting with `http` is kept. Any other link is resolved against the page's site root. |
| GeneralDownloader.NormalizeMediaUrlFixed | downloader/downloader.py:76-80 | A protocol-relative or absolute link normalises to an `http` URL, and normalising that URL again changes nothing. |
| GeneralDownloader.MediaFileName | downloader/downloader.py:91-92 | The name is the `download` attribute when it is non-empty, else the URL basename cut at the first `?`, then sanitised. |
| GeneralDownloader.UrlFileNameIsLastComponent | downloader/downloader.py:91 | A name taken from the URL is the prefix of the last path component before any `?`. |
| GeneralDownloader.FolderSuffix | downloader/downloader.py:87 | For a `/post/` page the suffix is `Post_` followed by the decimal digits of `page_idx + 1`. For any other page it is empty. |
| GeneralDownloader.UserFolderLayout | downloader/downloader.py:87-88 | The folder is `download_folder/user_id/` followed by the suffix. With the empty id of a URL without `/user/`, it is `download_folder/` followed by the suffix. |
| GeneralDownloader.UserFolder | downloader/downloader.py:87-88 | `os.path.join(download_folder, user_id, folder_suffix)`. Its layout is stated by `GeneralDownloader.UserFolderLayout`. |
| GeneralDownloader.FilePathInFolder | downloader/downloader.py:91-93 | The path begins with the folder, and its basename is the chosen file name. It names a directory exactly when that name is `""`, `.` or `..`; otherwise it is a file directly inside the folder. |
| GeneralDownloader.UserIdOf | downloader/downloader.py:63-67 | Without `/user/` the value is None (the IndexError). Otherwise it is the text between the first `/user/` and the next `/`. |
| GeneralDownloader.ProfileLinksAppend | downloader/downloader.py:55-62 | The links of a listing are built card by card, in document order. |
| GeneralDownloader.ProfileLinksFromCards | downloader/downloader.py:55-62 | There is exactly one link per card with all three attributes, and every link is `base + service + "/user/" + user + "/post/" + id` of such a card. |
| GeneralDownloader.ProfileLinks | downloader/downloader.py:55-62 | The links of the profile cards that carry all three attributes, in document order. Stated by `GeneralDownloader.ProfileLinksAppend` and `GeneralDownloader.ProfileLinksFromCards`. |
| GeneralDownloader.PlanNext | downloader/downloader.py:112-127 | Visiting one more page appends that page's tasks. |
| GeneralDownloader.PageTasksShape | downloader/downloader.py:119-127 | Every task of a page names that page. The image tasks are exactly the enabled images, and they form a prefix. |
| GeneralDownloader.PageTasks | downloader/downloader.py:119-127 | A page's image tasks (when asked for), then its video tasks, each numbered from 0. Stated by `GeneralDownloader.PageTasksShape` and `GeneralDownloader.PageInOrder`. |
| GeneralDownloader.PlanPages | downloader/downloader.py:112-127 | Every planned task names one of the visited pages, by its position and its URL. |
| GeneralDownloader.PageInOrder | downloader/downloader.py:119-127 | Within a page, images come before videos. |
| GeneralDownloader.PlanBeforePage | downloader/downloader.py:112-117 | The earlier pages' tasks all precede the tasks of the next page. |
| GeneralDownloader.PlanOrder | downloader/downloader.py:112-127 | Pages are visited in order, and within each page the image tasks precede the video tasks. |
| GeneralDownloader.Plan | downloader/downloader.py:112-127 | The tasks of the first `n` pages, page after page. Stated by `GeneralDownloader.PlanNext`, `GeneralDownloader.PlanPages` and `GeneralDownloader.PlanOrder`. |
| GeneralDownloader.Downloader.constructor | downloader/downloader.py:10-26 | The given headers are stored, or the defaults when none (or an empty dict) are given. No cancellation, an empty log. |
| GeneralDownloader.Downloader.Log | downloader/downloader.py:28-30 | The message is passed on, in order. |
| GeneralDownloader.Downloader.RequestCancel | downloader/downloader.py:32-36 | The event is set, the cancellation logged and the widgets re-enabled. |
| GeneralDownloader.Downloader.GenerateImageLinks | downloader/downloader.py:38-67 | A post URL yields itself and `Post_` plus the text after the last `/post/`. A profile yields its card links and the stripped name. The user id comes from the URL, or stays empty with an error logged. |
| GeneralDownloader.Downloader.ProcessMediaElement | downloader/downloader.py:69-107 | A cancelled downloader does nothing. A link without `href` raises `AttributeError` before anything is logged or written. An HTTP error status, or a file name that names a directory (`""`, `.` or `..`, which `open` refuses), logs an error and writes nothing. Otherwise the chunks are written in order. A cancellation seen in the loop removes the file, and either check withholds the success message. |
| GeneralDownloader.Downloader.TargetPath | downloader/downloader.py:86-93 | The file path: the sanitised name under the user folder. `GeneralDownloader.FilePathInFolder` states that it begins with that folder, has the chosen name as its basename, and names a directory exactly when that name is `""`, `.` or `..`. |
| GeneralDownloader.Downloader.WriteChunks | downloader/downloader.py:95-101 | The file ends holding all chunks in order, or is removed when a check sees the flag. |
| GeneralDownloader.Downloader.DownloadMedia | downloader/downloader.py:109-139 | The tasks are those of the pages before the first whose cancel check sees the flag, in page order. The `finally` block re-enables the widgets exactly when no task raised. |
| GeneralDownloader.Downloader.AwaitFutures | downloader/downloader.py:131-139 | `future.result()` raises exactly when some task raised; the widgets are re-enabled only when none did. |
| GeneralDownloader.Downloader.PageTasksOf | downloader/downloader.py:119-127 | The two enumerating loops yield the page's image tasks numbered from 0, then its video tasks numbered from 0. |
| Numerals.ParseMagnitude | app/settings_window.py:360 | `int()` accepts an unsigned literal exactly when it is decimal digits with single underscores between them. |
| Numerals.ParseInt | downloader/erome.py:84 | `int()` on text: surrounding whitespace stripped, one optional sign, then digit groups; `None` for the `ValueError`. Stated by `Numerals.ParseMagnitude`, `Numerals.ParseIntRoundTrip`, `Numerals.ParseIntToString` and `Numerals.DigitStringParses`. |
| Numerals.IsDecimalString | app/ui.py:55 | `isdecimal()`: non-empty, every character a decimal digit. Every decimal string also passes `isdigit()`. |
| Numerals.IsDigitString | app/ui.py:55 | `isdigit()`: non-empty, every character a digit (decimal, superscript or subscript). `Numerals.DigitStringParses` states when `int()` accepts such a string. |
| Numerals.DecimalBlock | app/ui.py:55 | The decimal-digit block of a character starts at most 9 code points below it. |
| Numerals.ParseIntRoundTrip | app/settings_window.py:173 | `int(str(n)) == n` for naturals. |
| Numerals.ParseIntToString | app/settings_window.py:173-205 | `int(str(i)) == i` for every integer, negative ones included. |
| Numerals.DigitStringParses | app/ui.py:55 | For a string that `isdigit()` accepts, `int()` succeeds exactly when it is decimal, with the decimal value. |
| Urls.Urlparse | app/ui.py:719 | `urlparse` fails exactly when the brackets of the netloc do not balance, or the netloc holds a character whose NFKC form is one of `/?#@:`. The netloc and query are those of `urlsplit`, and the path holds no `?` or `#`. |
| Urls.RtspsSplitsParams | app/ui.py:719 | For an `rtsps` URL whose path holds a `;`, `urlparse` splits the params off the path, as it does for `https`. |
| Urls.Urlsplit | app/ui.py:719 | The netloc holds no `/`, `?` or `#`, the path no `?` or `#`, the query no `#`. The split fails exactly on unbalanced brackets or an NFKC-reserved character in the netloc. |
| Urls.FullwidthSolidusRaises | app/ui.py:719 | `https://coomer.su／…` (a fullwidth solidus after the host) makes `urlparse` raise. |
| Urls.ParseHttps | app/ui.py:719 | `https://host/path?query` parses into exactly that host, path and query. |
| Shell.SegmentEnd | app/ui.py:38 | Greedy `[^/?]+`: the run of segment characters from the start position is maximal. |
| Shell.FirstSegment | app/ui.py:38 | `re.search` takes the leftmost `/` followed by a segment character. |
| Shell.GroupAfter | app/ui.py:38 | An optional group matches exactly when its marker and a segment character follow. It then captures the greedy segment. |
| Shell.ExtractCkParameters | app/ui.py:34-43 | A post implies a user, and a user implies a service. Every part found is a non-empty segment without `/` or `?`. All parts are None exactly when no `/` followed by a segment character exists. |
| Shell.CkParametersOccur | app/ui.py:38-41 | The parts found are spelled in the path in the pattern's order. |
| Shell.CkPostPath | app/ui.py:38-41 | `/service/user/u/post/p` yields all three parts. |
| Shell.CkUserPath | app/ui.py:38-41 | `/service/user/u` yields the service and the user, and no post. |
| Shell.FirstValue | app/ui.py:52-53 | The first value of a key, present exactly when the key has at least one value. |
| Shell.ExtractCkQueryAsWritten | app/ui.py:45-55 | As written: the query is the first `q`. The offset is `int(o)` after the `isdigit` test, and that `int` can raise. |
| Shell.ExtractCkQuerySuperscriptRaises | app/ui.py:55 | `o = "²"` passes `isdigit` and makes `int` raise. |
| Shell.ExtractCkQuery | app/ui.py:45-55 | The query is the first `q`. The offset is never negative: it is the decimal value of a decimal offset (ASCII or any other decimal digits), and 0 when the offset is missing or not decimal. |
| Shell.ExtractCkQueryAgrees | app/ui.py:45-55 | Wherever the code as written returns, it returns what the corrected function returns. |
| Shell.ExtractCkQueryOffsetRoundTrip | app/ui.py:53-55 | An offset written as `str(n)` is read back as `n`. |
| Shell.Translations | app/ui.py:172-176 | Every key of the file is kept, mapped to its `lang` entry or to itself. |
| Shell.Translate | app/ui.py:178-182 | `tr` returns the stored translation, or the text itself. |
| Shell.TranslateAfterLoad | app/ui.py:172-179 | After loading a language, `tr(text)` is the text's entry in that language, else the text. |
| Text.Lower | app/ui.py:852 | `lower()` keeps the length; `Text.LowerChar` maps `A`-`Z` to `a`-`z` and keeps every other character. |
| Shell.MentionsLowerContains | app/ui.py:852-854 | The character scan agrees with `p in m.lower()`. |
| Shell.ClassifiesByLowerCase | app/ui.py:852-855 | A message is an error exactly when its lower-case form contains `error`, and a warning exactly when it contains `warning`. |
| Shell.SplitLines | app/ui.py:866 | `split("\n")` yields one more piece than there are newlines, none containing a newline. |
| Shell.DeleteLeadingLinesSuffix | app/ui.py:869 | Deleting the first `n` lines leaves a suffix of the text whose lines are the remaining lines, in order. |
| Shell.TrimLog | app/ui.py:865-870 | At most `MAX_LOG_LINES` lines: nothing is deleted. |
| Shell.TrimLogKeepsLastLines | app/ui.py:865-870 | Trimming keeps an in-order suffix of the lines, and at most `MAX_LOG_LINES + 1` of them. |
| Shell.TrimLogSuffix | app/ui.py:865-870 | Text appended with at most `MAX_LOG_LINES` newlines survives the trimming. |
| Shell.TrimLogKeepsNewest | app/ui.py:859-860 | A message with fewer than `MAX_LOG_LINES` newlines is never trimmed away by its own insertion. |
| Shell.DeleteLeadingLines | app/ui.py:869 | The text after its first `n` lines. Stated by `Shell.DeleteLeadingLinesSuffix`. |
| Shell.ErrorsIn | app/ui.py:852-853 | The error list holds exactly the messages classified as errors. |
| Shell.WarningsIn | app/ui.py:854-855 | The warning list holds exactly the messages classified as warnings. |
| Shell.LogAllClassifies | app/ui.py:851-855 | Logging a sequence appends exactly the error messages to `errors`, and exactly the warning messages to `warnings`, in order. A message can go into both. |
| Shell.LogStep | app/ui.py:851-863 | One `add_log_message_safe`: the message joins `errors` and/or `warnings` by its lower-cased text, and the window gets the line and is trimmed. Stated by `Shell.LogAllClassifies` and `Shell.TrimLogKeepsNewest`. |
| Shell.JoinLinesSplit | app/ui.py:895-896 | The `"\n".join` of newline-free names splits back into the names. |
| Shell.RouteOrder | app/ui.py:721-792 | Each site takes the URL exactly when every earlier test fails and its own succeeds. The order is: erome by substring, bunkr by pattern, coomer/kemono by exact host, simpcity, jpg5. |
| Shell.Route | app/ui.py:707-792 | No folder stops first, then a `urlparse` error, then the site tests. Stated by `Shell.RouteOrder`. |
| Shell.RouteUrl | app/ui.py:721-792 | The site tests in their order. Stated by `Shell.RouteOrder`, `Shell.RouteKinds`, `Shell.RouteCkPost` and `Shell.RouteCkProfile`. |
| Shell.CkDecide | app/ui.py:750-772 | A coomer/kemono URL launches a coomer/kemono job, is refused for a missing service or a missing user, or ends with the exception of `extract_ck_query`. `Shell.RouteCkQueryRaises` states that the exception ends it exactly when the URL names a service and a user but no post, and `extract_ck_query` as written raises on its query. |
| Shell.RouteKinds | app/ui.py:721-742 | An erome job is an album exactly when the URL has `/a/`. A bunkr job is a post exactly when the URL has `/v/` or `/i/`. |
| Shell.RouteCkPost | app/ui.py:744-768 | A single-post job names the parsed coomer/kemono host and three segments spelled `/service/user/u/post/p` in the path. |
| Shell.RouteCkProfile | app/ui.py:744-772 | A profile job has a service and a user, no post, the download-all choice and the first `q`. It is launched only where `extract_ck_query` as written returns, and its offset is then that of the corrected `Shell.ExtractCkQuery`, so it is never negative. |
| Shell.RouteCkQueryRaises | app/ui.py:750-772 | For a coomer/kemono URL, `start_download` ends with the exception of `extract_ck_query` exactly when the path names a service and a user but no post and that function raises on the query. The outcome then names the host and the logged service. |
| Shell.CkDecideSuperscriptRaises | app/ui.py:770 | A profile URL whose offset is `²` ends the dispatch with the exception rather than a launch. |
| Shell.RouteCkRejects | app/ui.py:750-762 | The URL is refused for a missing service exactly when the path has no segment, and for a missing user exactly when it has a service but no user. |
| Shell.CkDecideActive | app/ui.py:744-747 | Every coomer/kemono decision leaves a fresh general downloader active. This includes the refusals and the exception of `extract_ck_query`. |
| Shell.UnsupportedActive | app/ui.py:788-792 | An unsupported URL leaves the active downloader as it was. |
| Shell.OtherActive | app/ui.py:733-786 | A bunkr, simpcity or jpg5 launch installs that site's downloader. |
| Shell.ActiveAfter | app/ui.py:721-792 | `active_downloader` after each outcome. Stated by `Shell.CkDecideActive`, `Shell.UnsupportedActive` and `Shell.OtherActive`. |
| Shell.CloseWhileActive | app/ui.py:133-141 | An erome download blocks closing. A coomer/kemono one never does, because its `Event` is always true. |
| Shell.MayClose | app/ui.py:133-141 | Closing is allowed unless a downloader is active with a false cancel flag. Stated by `Shell.CloseWhileActive` and `Shell.RejectedCkLeavesDownloader`. |
| Shell.CancelMessages | app/ui.py:837-844 | The lines `cancel_download` produces: "nothing to cancel" without a downloader, the erome or general downloader's cancel line, or another downloader's own `request_cancel` lines. Used by `Shell.App.CancelDownload`. |
| Shell.RejectedCkLeavesDownloader | app/ui.py:744-762 | A refused coomer/kemono URL still leaves the general downloader active, and closing is allowed. |
| Shell.ExportSummary | app/ui.py:873-907 | A success needs a start time and carries the log counts. Without a downloader, the counts are 0 and the lists empty. With one, the image and video totals equal `completed_files` exactly when their box is checked, else 0. |
| Shell.ExportWithoutDownloader | app/ui.py:883-893 | With a start time and no downloader, the export succeeds with zero counts. |
| Shell.ExportWithModelledDownloader | app/ui.py:878-882 | While either modelled downloader is active the export fails on a missing attribute: `skipped_files` for erome, `total_files` for the general one. |
| Shell.ExportListsReadBack | app/ui.py:895-896 | The skipped list written one name per line reads back by splitting. |
| Shell.App.constructor | app/ui.py:59-112 | Translations loaded, empty logs, no active downloader, the buttons in their idle state. |
| Shell.App.UpdateMaxDownloads | app/ui.py:995-996 | `max_downloads` takes the new value. |
| Shell.App.LoadTranslations | app/ui.py:172-176 | The table is that of the language. |
| Shell.App.LimitLogLines | app/ui.py:865-870 | The window text becomes its trimmed form. |
| Shell.App.AddLogMessage | app/ui.py:851-863 | The state advances by one classified and trimmed log step. |
| Shell.App.AddLogMessages | app/ui.py:851-863 | Logging lines one after another advances the log state by each line's step, in order. |
| Shell.App.EnableWidgets | app/ui.py:968-971 | Download enabled, cancel disabled, download-all enabled. |
| Shell.App.StartDownload | app/ui.py:707-794 | The decision is the routing of the stripped URL, and the active downloader follows it. Without a folder nothing changes. Otherwise the start time is set, `errors` is reset, and the outcome's lines are logged. The buttons are restored exactly when the URL is refused; when `extract_ck_query` raises they stay disabled after two lines. |
| Shell.App.StartParsed | app/ui.py:713-719 | As above, once a folder is set. |
| Shell.App.StartRouted | app/ui.py:721-792 | The site tests in their order, with each branch's log lines, active downloader and buttons. |
| Shell.App.StartErome | app/ui.py:721-731 | An album or profile job for `/a/` or not, two lines logged, a fresh erome downloader active. |
| Shell.App.StartBunkr | app/ui.py:733-742 | A post or profile job for `/v/`/`/i/` or not, two lines logged. |
| Shell.App.StartOther | app/ui.py:774-792 | Simpcity, then jpg5, else the URL is refused with the buttons restored. |
| Shell.App.StartImages | app/ui.py:774-786 | One line logged, then that site's downloader is active. |
| Shell.App.RejectUnsupported | app/ui.py:788-792 | "URL no válida" is logged, the buttons are restored, and the downloader is kept. |
| Shell.App.StartCk | app/ui.py:744-772 | The coomer/kemono decision on the extracted parameters, a general downloader active, and the lines of that outcome. When `extract_ck_query` raises, only the first two lines are logged and the buttons stay disabled. |
| Shell.App.RejectCk | app/ui.py:751-762 | The missing part's line, then "URL no válida", and the buttons are restored. |
| Shell.App.LaunchCk | app/ui.py:764-772 | The service line, then the post or profile line. A profile carries the query and offset that `extract_ck_query` as written returns. When that function raises, the service line is the last one logged and no job is launched. |
| Shell.App.LaunchCkProfile | app/ui.py:768-772 | The profile branch: the outcome is the exception exactly when `extract_ck_query` as written raises on the parsed query. Otherwise one more line is logged and the profile job is launched with the returned query and offset. |
| Shell.App.CancelDownload | app/ui.py:837-844 | The downloader's cancel lines (those of its `request_cancel`, or "nothing to cancel") are logged, no downloader stays active, and the widgets are enabled. |
| Shell.App.OnAppClose | app/ui.py:133-141 | The window closes exactly when no downloader is active or its cancel flag is truthy. |
| Shell.App.ExportLogs | app/ui.py:873-914 | The summary or exception text is computed, and the success or failure line logged. |
| Shell.App.FinishDownload | app/ui.py:698-704 | The downloader is reset first, so the export always reports zero counts and empty lists. |
| Settings.LoadSettings | app/settings_window.py:34-42 | A missing or undecodable file yields exactly the four defaults. A decoded file is used as it is. |
| Settings.NamingDisplay | app/settings_window.py:240-254 | An int in range selects its option, and any other int option 0. A `bool` counts as an int. A listed string is kept, and anything else selects option 0. |
| Settings.NamingIndex | app/settings_window.py:367-372 | Every option maps to an index in range. |
| Settings.NamingIndexInverts | app/settings_window.py:226-230 | Each option maps to its own position (`mapping(options[i]) == i`), and unknown strings map to 0. |
| Settings.NamingDisplayStable | app/settings_window.py:242-254 | Applying the shown option and reopening the tab shows the same option. |
| Settings.NameFrom | app/settings_window.py:443-446 | With no matching code the name is "English". |
| Settings.CodeFrom | app/settings_window.py:406-407 | A name has a code exactly when it is listed. |
| Settings.NameFromCode | app/settings_window.py:442-446 | With distinct codes, every listed code names its own entry. |
| Settings.CodeFromName | app/settings_window.py:406-407 | With distinct names, every listed name finds its own code. |
| Settings.NameFromIsListed | app/settings_window.py:442-446 | The name returned is "English" or a listed name. |
| Settings.LanguagesDistinct | app/settings_window.py:22-29 | The table's codes and names are distinct. |
| Settings.LanguageRoundTrips | app/settings_window.py:22-29 | Name to code to name, and code to name to code, for every entry. Any name shown is one the apply handler accepts. |
| Settings.UnknownCodeIsEnglish | app/settings_window.py:446 | An unlisted code, or a non-string, is shown as English. |
| Settings.LanguageName | app/settings_window.py:442-446 | `get_language_name` on the shipped table. Stated by `Settings.LanguageRoundTrips` and `Settings.UnknownCodeIsEnglish`. |
| Settings.LanguageCode | app/settings_window.py:406-407 | `self.languages.get(name)`. Stated by `Settings.LanguageRoundTrips`. |
| Settings.ThemeModeIgnoresCase | app/settings_window.py:451-457 | The mode depends only on the lower-cased name: light exactly for `light`, dark exactly for `dark`. |
| Settings.ThemeEntries | app/settings_window.py:116 | Each combobox entry selects the mode it names. |
| Settings.ThemeMode | app/settings_window.py:451-457 | The mode for a theme name. Stated by `Settings.ThemeModeIgnoresCase` and `Settings.ThemeEntries`. |
| Settings.ParseDownloadFields | app/settings_window.py:358-372 | The record exists exactly when both `int()`s and the `float()` succeed. It then holds the parsed values and an in-range naming index that matches a listed option. |
| Settings.StoreDownloadFields | app/settings_window.py:375-379 | The five keys hold the parsed values, and every other key is unchanged. |
| Settings.ReapplyDownloadSettings | app/settings_window.py:173-216 | Reopening the tab and applying what it shows parses back to the same record. |
| Settings.StoreDownloadFieldsIdempotent | app/settings_window.py:375-379 | Applying the same record twice stores it once. |
| Settings.DefaultsAsShown | app/settings_window.py:36 | A fresh install shows English, the first naming option, the System theme and 3 downloads. |
| Settings.SettingsWindow.constructor | app/settings_window.py:14-31 | The settings are those loaded from the file. |
| Settings.SettingsWindow.GetLanguageName | app/settings_window.py:442-446 | The loop with early return yields the first listed name with that code, else "English". |
| Settings.SettingsWindow.ApplyLanguageSettings | app/settings_window.py:405-415 | A listed name stores its code and reloads the translations. An unlisted name changes nothing. |
| Settings.SettingsWindow.ApplyTheme | app/settings_window.py:451-458 | The mode follows the lower-cased name, and the raw name is stored. |
| Settings.SettingsWindow.StoreFields | app/settings_window.py:373-389 | The settings and the application's four fields take the parsed values. |
| Settings.SettingsWindow.ApplyDownloadSettings | app/settings_window.py:357-401 | Every field is parsed before anything is written. A `ValueError` changes nothing, and success stores every parsed value. |

## Left out

- Concurrency: the thread pools, `as_completed` and `threading.Thread` are not modelled. A submitted task is an entry of an ordered sequence: the method that submits it does not run it, and each task's own work is modelled by a separate method (`download_file`, `process_media_element`) called on its own inputs. The other thread's cancellation is the input `cancelAt`.
- Erome.EromeDownloader.ProcessAlbumPage, Erome.EromeDownloader.AlbumBody and Erome.EromeDownloader.SubmitAlbum: the `as_completed` loop waits for every submitted `download_file` before "Album download complete" is logged. Their contracts leave that awaited work out: the tasks' own log lines, the `completed_files` and progress updates, the files written, and an exception that `future.result()` re-raises.
- GeneralDownloader.Downloader.DownloadMedia: the submitted tasks' log lines and files are not in its contract. Whether a task raised depends on whether its own cancel check found the flag clear, which the executors' timing decides; that is the input `ranClear`. The executors' `shutdown` is not modelled.
- The "Cancelling remaining downloads." loop over finished futures in `process_album_page` is not modelled: it depends on the executor's timing.
- Widget updates queued with `after(0, …)` or in `update_queue` are applied at once.
- Network and HTML: responses and BeautifulSoup queries are inputs. A request that raises is not modelled: `requests.get` at downloader/erome.py:82 and 109, and, in downloader/downloader.py, `session.get` at lines 43, 85 and 116 and `iter_content` at line 96.
- `urljoin` is an opaque function parameter, `parse_qs` output is a given map, and the bunkr regex is the predicate `isBunkr`.
- Urls.Urlsplit: the `urllib.parse` of Python 3.12 is followed, including its `uses_params` scheme list. IPv6 bracket validation is reduced to the balance check. The NFKC check of `_checknetloc` uses an abridged table of the characters whose NFKC form is one of `/?#@:` (`Urls.IsNfkcReserved`). Port validation, and the cache of `urlsplit`, are not modelled.
- `str.format` in `tr` is the parameter `fmt`, and the log text it produces is not interpreted.
- File and configuration I/O: `save_settings`, `save_language_preference`, writing the exported log, `os.makedirs`, `create_folder` and its dialogs are left out. Folder creation always succeeds.
- `process_profile_page` and `shutdown_executor` of the erome downloader are not part of this model.
- The file-writing part of `export_logs`: log file name, timestamp and duration text are left out. The duration only decides between success and the `TypeError` on a missing start time.
- Text.Lower: ASCII letters only. Python's `str.lower` also maps non-ASCII letters, such as the Kelvin sign U+212A to `k`, and that is not modelled.
- Numerals.DecimalBlock: the Unicode digit tables are abridged to ASCII, Arabic-Indic, Extended Arabic-Indic, Devanagari and fullwidth digits. For `isdigit`, only the superscripts and subscripts are added.
- Settings.ParseDownloadFields: `float()` of the retry interval is an input `Option<real>`. Infinities, NaN and binary rounding are not modelled, and `float(str(x)) == x` is taken for granted in `Settings.ReapplyDownloadSettings`.
- Message boxes, `update_ui_texts`, the database tab (`export_db`, `clear_db`), the treeview, `center_window`, icons, menus, clipboard and the GitHub request are left out.
- `max_workers` on the live downloaders is not modelled. `Shell.App.UpdateMaxDownloads` models only `max_downloads`, since the executors are not modelled.
- Shell.App.StartCk, Shell.ActiveAfter and Shell.CkDecideActive: `setup_general_downloader` (app/ui.py:636-652) passes keyword arguments that the `Downloader` constructor of `downloader/downloader.py` (line 10) does not accept, so with that file the call at app/ui.py:746 raises `TypeError` right after "Iniciando descarga..." is logged. The shell is modelled assuming that call succeeds: a fresh general downloader becomes active and the parameter extraction goes on. The `start_ck_*_download` bodies, whose `download_media` call does not match either, are not modelled.
- The bunkr, simpcity and jpg5 downloader classes are not part of this model. Their instances arrive through the parameter `other`, and the lines their `request_cancel` logs are the record's `cancelLog`.
- A settings file whose JSON is not an object is not modelled: `ConfigFile` decodes only to a map.
- `Shell.App.StartCk` extracts the path parameters before logging its first line. The extraction is pure, so the order cannot be observed.
- The initial appearance of the settings window is a constructor parameter.

## Findings

| source | as written | input that shows it | evidently intended | confidence | as-written member | corrected member |
|---|---|---|---|---|---|---|
| app/ui.py:55 | `int(o) if str.isdigit(o) else 0`: `isdigit` accepts superscript and other non-decimal digits, which `int` rejects with `ValueError`. Once `setup_general_downloader` succeeds (see Left out), the exception escapes `start_download` after the download button was disabled. The model's dispatch keeps that behaviour (`Shell.CkDecide` yields `QueryRaised`). Every launched profile's offset is the corrected function's value (`Shell.RouteCkProfile`). | `https://coomer.su/onlyfans/user/x?o=%C2%B2` (the offset `²`) | an offset that is not a decimal number counts as 0 | not executed | Shell.ExtractCkQueryAsWritten (shown by Shell.ExtractCkQuerySuperscriptRaises and Shell.CkDecideSuperscriptRaises) | Shell.ExtractCkQuery (with Shell.ExtractCkQueryAgrees) |
