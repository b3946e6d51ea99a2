# Ad Library finder: the planning logic of the server

The server proxies keyword searches to the Facebook Ad Library and downloads
the creatives of selected ads into a batch directory. Around the HTTP calls
and file writes sits a small amount of decision logic. This project models
that logic as pure functions over immutable values and proves what it does:

- **Search gate** (`search.dfy`, module `SearchGate`). A search with a missing
  or empty query is refused first. Otherwise the server picks the user token
  when one is set, else the default token. A missing or empty token, or the
  configuration placeholder, is refused with `needToken`. Everything else goes
  upstream as a `KEYWORD_UNORDERED` search. The user token is replaced only
  when verification accepts the new token. Verification is an oracle
  `verify(token)`.
- **Batch directory name** (`batch_dir.dfy`, module `BatchDir`). The name is
  `batch-` followed by the request's ISO timestamp with every `:` and `.` turned
  into `-`. For ISO timestamps the rewrite can be undone, so different request
  times give different directories.
- **Metadata manifest** (`manifest.dfy`, module `Manifest`). There is one summary
  per ad, in request order. The three text-array fields become their first
  element, or absent when the array is missing or empty. The other fields are
  copied unchanged.
- **Download plan** (`planner.dfy`, module `Planner`; names in `file_names.dfy`).
  `PlanTasks` lists the assets to fetch:
  - images only for `all` or `images`, videos only for `all` or `videos`;
  - entries with a missing or empty URL are skipped;
  - file names are `<id>_image_<i>.jpg` and `<id>_video_<i>.mp4`, where `<i>`
    is the position in the ad's original array.

  `EnumerateTasks` is the handler's nested loop, proved to build the same
  list. Further lemmas prove:
  - exactly which tasks are in the plan;
  - how many tasks there are;
  - their order: by ad, images before videos, then by position;
  - that file names can be read back, so they never collide when the ad ids
    differ.
- **Download handler** (`download.dfy`, module `Download`). An `ads` field that
  is missing, not an array or empty is refused with 400. In that case no
  directory or metadata is produced. Otherwise the handler creates the batch
  directory, writes the metadata and fetches the plan. Creating a directory
  whose name is already taken fails with 500 and creates nothing; a failed
  metadata write fails with 500 and leaves the directory with at most a partial
  metadata file. The reply is
  `Downloaded N files` exactly when the directory and metadata were written
  and every fetch succeeds, and N is the number of planned tasks. A single
  failed fetch gives 500, and the directory and metadata are left behind.
  The names already present in the downloads folder are the set `existing`,
  the metadata write is the flag `metadataWritable`, and each fetch is the
  oracle `fetched(url, fileName)`: true when that download's promise resolves,
  false when it rejects.

Shared pieces:
- `JsValues` (`js_values.dfy`) holds optional fields, JavaScript string
  truthiness and the decimal text of an index in a template literal.
- `Ads` (`ads.dfy`) holds the ad record, its images and videos, and the
  per-kind URL lists.

The model follows the code in three places where a reader might expect otherwise:
- The download endpoint answers an empty or missing `ads` with status 400, and
  the body has only an `error` field.
- `downloadType` is not restricted to `all`, `images` or `videos`. Any other
  value, such as the page's own `text` option, fetches nothing and succeeds
  with `Downloaded 0 files`.
- An empty environment token falls back to the configured one, because the
  code uses `||`.

Batch directories are unique only across different timestamps. The name has
millisecond resolution, and two requests in the same millisecond get the same
name: the second one's directory creation throws and it answers 500 without
writing anything (`Download.SameTimestampCollides`).

## Model

| member | source | states |
|---|---|---|
| JsValues.NatToString | index.js:234 | The text `${i}` gives a position: a non-empty run of decimal digits with no leading zero. |
| Ads.IdText | index.js:234 | `${ad.id}` is the id itself, or the text `undefined` when the ad has no id. |
| JsValues.NatToStringRoundTrip | index.js:228-234 | The decimal text a template literal gives an array index reads back as that index. |
| JsValues.CanonicalRoundTrip | index.js:228-234 | Every decimal numeral without a leading zero is the text of its own value, so position texts are exactly the canonical numerals. |
| JsValues.NatToStringInjective | index.js:228-234 | Different positions are rendered as different texts. |
| FileNames.FileName | index.js:234 | The name starts with the id text, then `_image_` or `_video_`, and ends in `.jpg` or `.mp4`; the digits in between are a canonical numeral that reads back as the position. |
| FileNames.ParseBuiltName | index.js:228-251 | Reading back `<id>_image_<i>.jpg` or `<id>_video_<i>.mp4` yields the id text, the kind and the position it was built from. |
| FileNames.ParsedNameIsBuilt | index.js:228-251 | Every name the reader accepts is exactly the name built from what it returns. |
| FileNames.FileNameInjective | index.js:228-251 | Two assets share a file name if and only if their id text, kind and position all agree. |
| BatchDir.Sanitize | index.js:196 | Same length as the timestamp; no `:` or `.` remains; separators become `-` and every other character is kept in place. |
| BatchDir.BatchDirName | index.js:196-197 | `batch-` followed by the rewritten timestamp: the length is the timestamp's plus 6, and no `:` or `.` follows the prefix. |
| BatchDir.BatchDirNameRoundTrip | index.js:196-197 | For an ISO timestamp, the timestamp can be recovered from the directory name. |
| BatchDir.BatchDirNameInjective | index.js:196-197 | Requests at different ISO timestamps get different batch directories. |
| Manifest.First | index.js:206-208 | `xs?.[0]` is absent exactly when the array is missing or empty, and otherwise is its first element. |
| Manifest.Summarize | index.js:203-213 | Body, link title and link description are the first array elements or absent; id, page name, link URL, snapshot URL and delivery times are copied unchanged. |
| Manifest.Summaries | index.js:203-213 | Exactly one summary per ad, in input order. |
| Manifest.MakeMetadata | index.js:201-214 | The metadata carries the download date and exactly one summary per ad: the summary at each position is the summary of the ad at that position. |
| Planner.Wants | index.js:226 | `all` wants both kinds, `images` only images, `videos` only videos, and any other value (or none) wants nothing; the comparison is exact. |
| Planner.PlanTasks | index.js:224-258 | The reference plan: every task belongs to one of the posted ads, and no ads give no tasks. What is in it, how many and in which order are the lemmas below. |
| Planner.AppendKindTasks | index.js:226-240 | The inner loop over one ad's images (or videos, the copy at lines 243-257) appends exactly that ad's tasks of that kind, or nothing when the kind is not wanted. |
| Planner.EnumerateTasks | index.js:224-258 | The nested loop over ads builds exactly the reference plan. |
| Planner.PlanMembers | index.js:224-258 | A task is planned if and only if its kind is wanted and its entry exists with a non-empty URL. Its URL is that entry's and its file name is built from the ad's id text, the kind and the entry's original position, so skipped entries leave gaps. |
| Planner.KindFilter | index.js:226-243 | Every planned task has a wanted kind. `videos` plans no image, `images` plans no video, and any other value plans nothing. |
| Planner.PlanCount | index.js:224-258 | The number of tasks is the number of present URLs of each wanted kind, summed over all ads. |
| Planner.AllCount | index.js:224-258 | With `all`, the number of tasks is the images with a URL plus the videos with a URL, over all ads. |
| Planner.PlanOrdered | index.js:224-258 | Tasks are ordered by ad. Within an ad all images come before all videos, each in increasing position, so no task repeats. |
| Planner.PlanFileNamesDistinct | index.js:228-251 | When the ads' id texts differ, no two planned tasks write to the same file. |
| Download.CountMessage | index.js:267 | The message is `Downloaded `, a canonical numeral that reads back as the count, and ` files`. |
| Download.HandleDownload | index.js:181-277 | A missing, non-array or empty `ads` gives 400 and nothing on disk. Otherwise the batch directory is created exactly when its name is not taken, and the metadata, holding the date and the summary of every ad in order, is written exactly when the directory was created and the write succeeds; only then is the plan fetched. The reply is `Downloaded N files` with N the number of tasks exactly when all of that succeeds and every fetch completes, and 500 otherwise. |
| Download.DownloadedCount | index.js:265-269 | The reported N is the number of requested assets. With `all` it is the images plus the videos with a URL. |
| Download.OtherTypeDownloadsNothing | index.js:224-269 | A download type other than `all`, `images` or `videos` fetches nothing and succeeds with `Downloaded 0 files`. |
| Download.FailedFetchFailsBatch | index.js:261-276 | One failed fetch fails the request, while the directory and metadata already written stay. |
| Download.SameTimestampCollides | index.js:196-198 | Once a request has created its batch directory, a later request with the same timestamp fails with 500 and creates neither directory nor metadata. |
| SearchGate.Startup | index.js:28-31 | The user token starts empty. The default token is the environment's when that is non-empty, else the configured one. |
| SearchGate.StartupSearch | index.js:28-31 | Right after start-up a search with a query goes out with the environment token when it is usable, with the configured token when the environment gives none, and needs a token when the chosen one is unusable, even if the other would work. |
| SearchGate.SelectToken | index.js:141 | The user token when it is non-empty, else the default token; the result is a non-empty string exactly when one of the two is. |
| SearchGate.Usable | index.js:143 | A missing token, the empty token and the placeholder are refused; every other token is used. |
| SearchGate.Search | index.js:136-153 | An empty or missing query is refused before any token check. A missing, empty or placeholder token gives `needToken`. Otherwise the search is forwarded with the selected token, the query and `KEYWORD_UNORDERED`. |
| SearchGate.SearchTypeIgnored | index.js:151-153 | The requested search type never changes the outcome. |
| SearchGate.UserTokenTakesPrecedence | index.js:140-149 | A non-empty user token is used instead of the default. If it is the placeholder, searches need a token even when the default would work. |
| SearchGate.SetToken | index.js:49-66 | A missing or empty token is refused as missing without consulting verification; a token verification rejects is refused as invalid. In both cases the state is unchanged. When verification accepts, the user token becomes the new token and the reply is 200. The default token never changes. |
| SearchGate.SavedTokenIsUsed | index.js:58-63 | After a token is saved, every search with a query is forwarded with that token, unless it is the placeholder. |
| SearchGate.UnsavedTokenChangesNothing | index.js:53-66 | A missing or rejected token leaves every later search exactly as before. |

## Left out

- The Graph API calls are not modelled. Token verification (index.js:34-46) is the oracle `verify`, and the search call (index.js:156-177) ends the model at `Forward`. The upstream reply and its 500 error envelope are not modelled.
- `downloadFile` (index.js:280-294) and the concurrency of `Promise.all` (index.js:261) are the oracle `fetched`. Completion order and downloads that keep running after a failure are not modelled.
- Filesystem effects are modelled only as far as the reply depends on them: the batch directory's name clash (index.js:198) and whether the metadata write succeeds (index.js:216-219). Start-up directory creation (index.js:12-22) is not modelled.
- Download.HandleDownload: the creation of the downloads folder itself (index.js:190-193) and directory-creation errors other than a taken name (permissions, a full disk) are not modelled; the folder is assumed to exist and be writable.
- `new Date().toISOString()` is taken as the two string parameters `dirStamp` and `downloadDate`.
- Download.HandleDownload: the batch directory is the bare name, without the `path.join` with the downloads folder. File names are likewise not joined or normalised, so an id containing `/` or `..` is not modelled.
- `JSON.stringify` of the metadata (absent fields disappear) and the `encodeURIComponent` URL assembly (index.js:156) are not modelled.
- Values of unexpected JSON types are not modelled. Examples are a numeric `id`, a `null` array entry, or a string where an array is expected. Fields are either absent or of the type the Graph API returns.
- SearchGate.Search: query-string parameters (index.js:132) are taken to be absent or a single string. A repeated key such as `?query=&query=` arrives as an array, which is truthy and passes the check at index.js:136 even though every element is empty; that input is not modelled.
- JsValues.NatToString: gives the plain decimal text JavaScript prints only below 10^21, which covers every array position and length (below 2^32); larger numbers, which JavaScript prints in exponent form, never occur in the handler.
- Download.HandleDownload: a download that never settles is not modelled. `downloadFile` (index.js:280-294) has no timeout and does not listen for errors on the file stream, so a stalled download or a file that cannot be opened leaves its promise pending; unless another download rejects, `Promise.all` (index.js:261) never settles and the request gets no reply. The model answers every request.
- The console capture and the logs endpoint (index.js:91-112) are not modelled. They are global I/O capture.
- The HTML, CSS and client script (index.js:297-1028), Express routing, `multer`, the port and `app.listen` are not modelled. They are presentation and framework plumbing.
- The 500 replies for exceptions thrown inside the handlers (index.js:67-70, 165-177) are not modelled. A thrown fetch is the `fetched` oracle returning false.
- SearchGate.SetToken: the reply texts are constructors, not the Portuguese message strings.
