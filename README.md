# torrent-player web UI and download proxy, modelled in Dafny

This project models two parts of the torrent-player repository.

- **The browser script of the web UI** (`webui/public/script.js`):
  - the display helpers: the ETA text, HTML escaping, the status label and its CSS class, and the file-priority label;
  - the search side: size parsing, the "probably video" filter, flattening of the multi-tracker search answer, and the descending size sort;
  - the downloads panel: the single expanded torrent and its two-second file refresh, the file-list cache, the guard that keeps one downloads request in flight, and the handlers that pause, resume, delete, add and set file priorities.
- **The download proxy** (`dl-proxy/server.js`): the request handler that lets only the tracker's `dl.php` endpoint through, checks the upstream status, fills in default headers and streams the body back.

Layout:

- `common.dfy`: `Option`.
- `text.dfy`: the JavaScript string operations the script relies on. These are `String(n)`, `toLowerCase`/`toUpperCase`, `includes`, `trim` with its white-space class, and single-character `replace`.
- `json.dfy`: JSON values as the script sees them, with truthiness, property reads, `Object.entries` and object spread.
- `format.dfy`: `formatETA`, `esc`, `formatStatus`, `getStatusClass` and the priority label.
- `search.dfy`: `parseSizeToBytes`, `isProbablyVideo`, `flattenTorApiResponse` (a nested-loop method) and the size sort (an in-place insertion sort on an array).
- `downloads.dfy`: the panel's globals.
  - `ViewState` holds them as a value, with one pure `After…` function per handler, an event type, and runs of events.
  - The class `DownloadsView` holds the same globals as fields; each handler method is proved to produce the state its `After…` function gives.
  - The Select All and Apply loops are methods too.
- `dlproxy.dfy`: the proxy.
  - `ServerResponse` is a class for Node's response object.
  - `Handle`/`TryHandle`/`CopyBody` are the handler as it runs.
  - `Respond` is the pure answer, and the properties are proved about it.

Network calls of the script become requests appended to an outbox. A call a handler awaits is followed inline, with its reply given as a parameter. A call that is not awaited (`loadDownloads()`, `loadFilesForHash(h, false)`) only starts; its reply is a later event (`DownloadsArrived`, `FilesArrived`). Timers are events too. The proxy's URL parsing and its `fetch` are inputs: the parsed hostname and pathname, and an upstream response whose body is a finite list of chunks that may end in a read error. A JavaScript exception is an error message returned as a value.

dl-proxy/server.js:47 answers a missing body with `bad(res, 502, "No body")`. But the 200 head of lines 41-44 is already written by then, so that answer cannot be given. The model follows the code and records the difference under Findings.

One behaviour of the platform is assumed rather than read from the repository: Node's `writeHead` throws `ERR_HTTP_HEADERS_SENT` once a head has been written.

## Model

| member | source | states |
|---|---|---|
| Format.EtaDisplayBrackets | webui/public/script.js:45-52 | for every finite non-negative ETA, reading the displayed text back gives an interval of one display unit (1 s, 1 min or 1 h by range) that contains the true ETA |
| Format.EtaSpecialValues | webui/public/script.js:46-47 | 8640000 is shown as "∞" and reads as no estimate; a negative ETA is shown as "0s" |
| Format.EtaExample | webui/public/script.js:51 | example: 90061 seconds is shown as "1d 1h" |
| Format.EscRoundTrip | webui/public/script.js:68-72 | decoding the five entities of the output gives back the input string |
| Format.EscIsHtmlSafe | webui/public/script.js:68-72 | the output holds no `<`, `>`, `"` or `'`, and every `&` starts one of the five entities |
| Format.EscIdentity | webui/public/script.js:68-72 | a string without the five special characters is returned unchanged |
| Format.EscValue | webui/public/script.js:69 | `null`/`undefined` escapes to the empty string |
| Format.SplitJoin | webui/public/script.js:65 | joining the split parts with the separator gives back the string |
| Format.FormatStatusIsCaseWords | webui/public/script.js:63-66 | the split/capitalise/join pipeline equals a one-pass map: `_` becomes a space, a word's first letter is upper-cased and the rest lower-cased |
| Format.FormatStatusChars | webui/public/script.js:63-66 | the label has the state's length, and each character is the state's character case-mapped by its position in its word |
| Format.GetStatusClass | webui/public/script.js:54-61 | each class is returned if and only if its keyword occurs in the lower-cased state and no keyword earlier in the order does; "status-waiting" exactly when none occurs |
| Format.StatusClassIgnoresCase | webui/public/script.js:55 | the class of a state equals the class of its lower-cased form |
| Format.PriorityLabel | webui/public/script.js:236 | "Normal" if and only if the priority is defined and positive, "Unknown" if and only if undefined, "Skip" if and only if defined and at most 0 |
| Downloads.Checkboxes | webui/public/script.js:227-231 | one box per file, carrying the file's index and ticked exactly when the file shows "Normal" |
| Text.NatToStringValue | webui/public/script.js:48-51 | the decimal rendering of a number reads back as that number |
| Search.ParseSizeToBytes | webui/public/script.js:444-453 | the result is never negative, and a falsy input gives 0 |
| Search.NoUnitIsZero | webui/public/script.js:446-448 | a truthy size text with no letter B in either case has no match after normalising, and gives 0 |
| Search.SizeFalsy | webui/public/script.js:445 | example: `undefined`, `null` and "" give 0 |
| Search.UnitTable | webui/public/script.js:451 | constants: the unit multipliers are 1, 1024, 1024², 1024³, 1024⁴ and 1024⁵ |
| Search.SizeRoundTrip | webui/public/script.js:444-453 | "n UNIT" with any unit B..PB, upper or lower case, parses to exactly n × 1024^k |
| Search.SizeStringMatch | webui/public/script.js:446-447 | normalisation keeps such a text, and the pattern matches its digits and unit |
| Search.ParseOfMatch | webui/public/script.js:446-452 | unfolding, used by SizeRoundTrip: for a truthy input whose normalised text matches, the result is the rounded mantissa times the unit multiplier |
| Search.NormalizeKeeps | webui/public/script.js:446 | a text without no-break spaces, commas and outer white space is left unchanged by normalisation |
| Search.FindSizeOfParts | webui/public/script.js:447 | "digits space unit" matches with those digits and that unit |
| Search.IsProbablyVideo | webui/public/script.js:455-464 | an item passes if and only if no non-video marker occurs in its lower-cased "category name" text |
| Search.ItemTextIsLowered | webui/public/script.js:456-458 | the searched text is the lower-cased category, a space, and the lower-cased name |
| Search.CapitalEntriesNeverMatch | webui/public/script.js:459 | the markers "RePack", "Portable" and "DLCs" never occur in the searched text, whatever the item |
| Search.DlcsPassesAsWritten | webui/public/script.js:459-463 | an item named "DLCs" passes the filter as written, and the case-folded filter rejects it |
| Search.IsProbablyVideoFolded | webui/public/script.js:459-460 | the corrected filter: an item passes if and only if no entry of the source's marker list, lower-cased, occurs in its text; and every item it passes is also passed by the filter as written |
| Search.FoldedRejectsMore | webui/public/script.js:459-460 | an item the filter as written rejects is rejected by the corrected filter too |
| Search.FoldedListIsLowerCase | webui/public/script.js:459 | the corrected marker list is the original list lower-cased, entry by entry |
| Search.FoldedEntriesReject | webui/public/script.js:459-460 | with the corrected list, a name containing any marker in any letter case is rejected |
| Search.SelectData | webui/public/script.js:491-493 | the chosen data object is truthy |
| Search.FlattenTorApiResponse | webui/public/script.js:490-502 | the nested loops return exactly the flattened list |
| Search.FlattenWithoutData | webui/public/script.js:494 | unfolding, a case of FlattenShape: without a usable data object the result is empty |
| Search.FlattenShape | webui/public/script.js:495-501 | one output item per element of an array-valued provider entry, in entry then element order, each tagged with its provider |
| Search.PairsCount | webui/public/script.js:496-500 | the output length is the sum of the provider arrays' lengths |
| Search.PairsAppend | webui/public/script.js:496-500 | the items of earlier entries come before those of later entries |
| Search.NonArraysSkipped | webui/public/script.js:497 | entries whose value is not an array contribute nothing |
| Search.PairsProvenance | webui/public/script.js:496-499 | every output item comes from an array-valued entry under the key it is tagged with |
| Search.ProviderProperty | webui/public/script.js:498 | an output item's `provider` is its entry key, unless the item has its own `provider` property, which wins |
| Search.SizeOf | webui/public/script.js:579 | the stored byte count of an item is never negative |
| Search.SortResults | webui/public/script.js:579-580 | the rows come out as the stable descending sort of the items paired with their parsed sizes |
| Search.SortBySize | webui/public/script.js:580 | the in-place sort leaves the array holding the stable descending sort of its old contents |
| Search.InsertLast | webui/public/script.js:580 | one insertion pass places the next row after every row at least as large and leaves the rest of the array alone |
| Search.SortedDescIsSortedPermutation | webui/public/script.js:580 | the sort result is in non-increasing byte order and is a permutation of its input |
| Search.SortedDescIsStable | webui/public/script.js:580 | rows of equal size keep their input order |
| Search.InsertPermutes | webui/public/script.js:580 | inserting adds exactly the inserted row |
| Search.InsertSorted | webui/public/script.js:580 | inserting into a sorted sequence keeps it sorted |
| Search.InsertStable | webui/public/script.js:580 | inserting places the new row after every earlier row of the same size |
| Downloads.LoadDownloadsGuard | webui/public/script.js:114-117 | while a refresh is in flight the call changes nothing; otherwise it marks one in flight and sends exactly one downloads request |
| Downloads.DownloadsReplyEndsRefresh | webui/public/script.js:130-135 | every kind of reply clears the in-flight flag; the table shows "no downloads" exactly for an empty list |
| Downloads.FilesLoads | webui/public/script.js:191-200 | every files load started while rendering is for the expanded torrent, and only while its files are not cached |
| Downloads.FilesLoadsWhen | webui/public/script.js:191-200 | a files load starts exactly when the expanded torrent is in the list and its files are not cached |
| Downloads.ToggleExpandSingle | webui/public/script.js:273-284 | toggling collapses the torrent if it was expanded and otherwise expands it alone; the file refresh runs exactly for a newly expanded non-empty hash |
| Downloads.DeleteKeepsOtherExpansion | webui/public/script.js:323-339 | a confirmed and delivered delete collapses the deleted torrent only; every other expansion stays |
| Downloads.StepKeepsValid | webui/public/script.js:75-95 | every event keeps the file refresh running only for the expanded torrent, never for an empty hash |
| Downloads.RunKeepsValid | webui/public/script.js:75-95 | the same holds after any sequence of events |
| Downloads.ReachableValid | webui/public/script.js:601-605 | it holds in every state reachable from the loaded page |
| Downloads.StepFollows | webui/public/script.js:114-117 | apart from a downloads reply, every event only appends requests; while a refresh is in flight it stays in flight and no second downloads request goes out |
| Downloads.ApplyFollows | webui/public/script.js:354-393 | the same for the Apply handler, through all its awaited steps |
| Downloads.AddedCheckFollows | webui/public/script.js:408-428 | the same for the check that runs after a torrent is added |
| Downloads.DownloadsReplyAppends | webui/public/script.js:191-200 | a downloads reply only appends the files loads of the rows it renders |
| Downloads.ApplyPriorities | webui/public/script.js:367-381 | Apply sends a priority-1 update exactly when some box is ticked, and a priority-0 update exactly when some box is not |
| Downloads.ApplyDelivered | webui/public/script.js:367-388 | with both updates delivered, no refresh in flight and no reply landing during Apply's awaits: the updates, then the files reload, one downloads request, then the resume |
| Downloads.ResumeAfterLandedReply | webui/public/script.js:109-132 | if the downloads reply started by the files reload lands before `resumeTorrent` reloads, the guard is clear again and a second downloads request follows the resume |
| Downloads.PickNonEmpty | webui/public/script.js:360-367 | an id list is non-empty exactly when some box is in that state |
| Downloads.PickPartition | webui/public/script.js:360-367 | the ticked and unticked lists together hold every box id exactly once |
| Downloads.PickAppend | webui/public/script.js:360-367 | ids keep box order |
| Downloads.PickMembership | webui/public/script.js:360-367 | with distinct ids, an id is in the list for its box's state and not in the other |
| Downloads.SplitSelection | webui/public/script.js:360-367 | the loop returns the ticked and unticked id lists |
| Downloads.SelectAll | webui/public/script.js:346-351 | every box ends unticked if all were ticked, and ticked otherwise; nothing else about a box changes |
| Downloads.DownloadsView.constructor | webui/public/script.js:3-9 | the declared globals followed by the page's first `loadDownloads()` |
| Downloads.DownloadsView.LoadDownloads | webui/public/script.js:114-117 | the new state is `AfterLoadDownloads` of the old one; it reports whether a request started |
| Downloads.DownloadsView.DownloadsReplied | webui/public/script.js:119-209 | the render loop leaves the state `AfterDownloadsReply` gives |
| Downloads.DownloadsView.StartFilesAutoRefresh | webui/public/script.js:75-88 | the new state is `AfterStartRefresh` of the old one |
| Downloads.DownloadsView.StopFilesAutoRefresh | webui/public/script.js:90-95 | the file refresh stops and nothing else changes |
| Downloads.DownloadsView.LoadFilesForHash | webui/public/script.js:97-99 | one files request is appended and nothing else changes |
| Downloads.DownloadsView.FilesRefreshTick | webui/public/script.js:80-87 | the new state is `AfterFilesTick` of the old one |
| Downloads.DownloadsView.FilesReplied | webui/public/script.js:100-110 | a listed reply is cached, and a forced load also reloads the downloads |
| Downloads.DownloadsView.ToggleExpand | webui/public/script.js:273-284 | the new state is `AfterToggleExpand` of the old one |
| Downloads.DownloadsView.PauseTorrent | webui/public/script.js:287-303 | the new state is `AfterPause` of the old one |
| Downloads.DownloadsView.ResumeTorrent | webui/public/script.js:305-321 | the new state is `AfterResume` of the old one |
| Downloads.DownloadsView.DeleteTorrent | webui/public/script.js:323-339 | the new state is `AfterDelete` of the old one |
| Downloads.DownloadsView.ApplyFilePriorities | webui/public/script.js:354-393 | the new state is `AfterApply` of the old one |
| Downloads.DownloadsView.AddToQb | webui/public/script.js:397-434 | the new state is `AfterAdd` of the old one |
| Downloads.DownloadsView.AddedTorrentCheck | webui/public/script.js:408-428 | the new state is `AfterAddedCheck` of the old one |
| Downloads.DownloadsView.AutoRefreshTick | webui/public/script.js:603-605 | the new state is `AfterAutoRefreshTick` of the old one |
| Downloads.DownloadsView.ToggleAutoRefresh | webui/public/script.js:594-598 | the new state is `AfterAutoRefreshToggle` of the old one |
| DlProxy.RouteFirst | dl-proxy/server.js:13-14 | any path other than "/torrent" gets the 404 "Not found" JSON reply, whatever the rest of the request |
| DlProxy.MissingUrl | dl-proxy/server.js:16-17 | a missing or empty `url` gets 400 "Missing url" |
| DlProxy.AllowListExact | dl-proxy/server.js:20-23 | a parsed target gets 400 "Only rutracker dl.php supported" if and only if its host is not "rutracker.org" or its path is not "/forum/dl.php" |
| DlProxy.AllowListNearMisses | dl-proxy/server.js:21-23 | the right host with another path, and another host with the right path, are both refused |
| DlProxy.OffListIgnoresUpstream | dl-proxy/server.js:20-25 | for a target off the allow-list, the answer does not depend on the upstream at all |
| DlProxy.UnparsableRequestIs500 | dl-proxy/server.js:12-13 | a request whose own URL does not parse gets 500 carrying the parser's message, whatever the target and upstream (the throw is caught at lines 56-57) |
| DlProxy.ThrownIs500 | dl-proxy/server.js:20-25 | a target that does not parse, or a fetch that rejects, gets 500 carrying the error message |
| DlProxy.AcceptedRange | dl-proxy/server.js:34 | the status check passes exactly the statuses 200 through 399 |
| DlProxy.AcceptedClasses | dl-proxy/server.js:34 | the passing statuses are exactly the successful and redirection classes of RFC 9110 |
| DlProxy.UpstreamStatusRefused | dl-proxy/server.js:34-36 | any other status gets 502 "Upstream status N" |
| DlProxy.HeaderDefaults | dl-proxy/server.js:39-44 | content-type and content-disposition are forwarded unchanged when present, and otherwise default to "application/x-bittorrent" and `attachment; filename="download.torrent"` |
| DlProxy.Streamed | dl-proxy/server.js:41-55 | an accepted upstream whose body reads to the end gets head 200 with those headers, every chunk's bytes in order, and exactly one `end` |
| DlProxy.CopyBody | dl-proxy/server.js:48-54 | the loop appends the concatenation of the chunks to the response and reports the read error, if any |
| DlProxy.ConcatAppend | dl-proxy/server.js:50-54 | the bytes of consecutive chunk runs are concatenated in order |
| DlProxy.ConcatLength | dl-proxy/server.js:53 | no byte is lost or added: the output length is the sum of the chunk lengths |
| DlProxy.BadResponse | dl-proxy/server.js:6-9 | writes the JSON error head and body, or fails without change once a head exists |
| DlProxy.ErrorBodyCarries | dl-proxy/server.js:8 | a client reading the `error` field of an error body gets the message back |
| DlProxy.QuoteRoundTrip | dl-proxy/server.js:8 | the escaped characters of a JSON string literal read back as the original string |
| DlProxy.ServerResponse.WriteHead | dl-proxy/server.js:7 | the first head is recorded; a second call throws and changes nothing |
| DlProxy.ServerResponse.Write | dl-proxy/server.js:53 | appends the chunk's bytes |
| DlProxy.ServerResponse.End | dl-proxy/server.js:55 | records what `end` was given and counts the call |
| DlProxy.TryHandle | dl-proxy/server.js:12-55 | the `try` block leaves the response and throws what `Attempt` says |
| DlProxy.Handle | dl-proxy/server.js:11-58 | the whole handler leaves the response and lets escape what `Respond` says |
| DlProxy.NoBodyAsWritten | dl-proxy/server.js:41-47 | as written, an accepted upstream with a null body (status 204) leaves a 200 head, no bytes and no `end`, and an error escapes the handler |
| DlProxy.StreamFailureAsWritten | dl-proxy/server.js:50-58 | as written, a read that fails mid-stream leaves a 200 head and the bytes so far, with no `end`, and an error escapes |
| DlProxy.NoBodyChecked | dl-proxy/server.js:47 | unfolding of the corrected handler, whose whole-domain property is CheckedAlwaysAnswers: with the body checked first, a null body gets the 502 "No body" JSON reply, and every other answer is unchanged |
| DlProxy.CheckedAlwaysAnswers | dl-proxy/server.js:11-58 | with that correction, unless a read fails mid-stream, nothing escapes and `end` is called exactly once |

## Left out

- Format.FormatEta: the ETA is taken to be a whole number of seconds, as qBittorrent reports it. A fractional JavaScript number would be printed as it is by `eta + 's'`; that is not modelled.
- `formatBytes`, `formatSpeed`, the progress percentages and the size cells (webui/public/script.js:31-43, 146-148, 224-226). They are floating-point formatting with `Math.log`, `Math.pow` and `toFixed`.
- Search.ParseSizeToBytes:
  - The mantissa is read as an exact decimal, so float rounding of huge or long mantissas is not modelled.
  - A `Size` that is not a string is read as "". `String(v)` of an array such as `["5 MB"]` would parse.
- Search.IsProbablyVideo: `Category` and `Name` values that are not strings are read as "".
- `toLowerCase`/`toUpperCase` cover ASCII and the basic Cyrillic block (U+0400..U+045F) only. Other scripts are left unmapped.
- The HTML built by `renderDownloads`, `renderFilesTable` and `renderTable`. The DOM, the button labels and the "last update" time are also left out. A table is modelled as its kind and its hashes, and a file panel as its checkboxes.
- `alert`, `confirm` and `console` output. A confirm's answer is a parameter of the delete event.
- Downloads.SplitSelection: the file ids are taken as integers. The `NaN` that `parseInt` gives for a malformed `data-file-id` is not modelled.
- Downloads.AfterAdd: a non-JSON reply to the add request is treated like a refused one. In both cases nothing follows the request.
- Downloads.ApplyDelivered: the single downloads request assumes that no downloads reply lands while Apply awaits `resumeTorrent`. The model follows Apply's awaits with nothing in between. ResumeAfterLandedReply shows the second request that an early reply allows.
- Timer scheduling and the interleaving of replies. Every reply is an event that the caller orders. The `force` flag of a files reply is carried by its event rather than matched to the call that sent it.
- `prettyJson`, `onMagnetClick`, `renderTable` and the search click handler apart from its sort step. The files `webui/server.js`, `app/server.js`, `normal-app.js` and `vpn-app.js` are not part of this model.
- DlProxy: the WHATWG URL parsing of the request and of the target is left out. Their results are inputs: a parse failure with its message, or the parsed parts.
- DlProxy: the `fetch` options (`redirect: "manual"`, the user-agent and accept headers) are left out, as is the network. The upstream response is an input.
- DlProxy: `String(e?.message || e)` is taken to be the error's message. Response back-pressure and `listen` are left out.
- The error text of Node's second `writeHead` is Node's `ERR_HTTP_HEADERS_SENT` message. What the Node process does with the escaped rejection is not modelled.

## Findings

| source | as written | input that shows it | evidently intended | confidence | as-written member | corrected member |
|---|---|---|---|---|---|---|
| webui/public/script.js:459 | the non-video markers "RePack", "Portable" and "DLCs" contain capitals but are searched for in lower-cased text, so they never match | an item named "DLCs" is kept as probably video | markers compared case-insensitively, so the item is filtered out | high, not executed | Search.DlcsPassesAsWritten | Search.IsProbablyVideoFolded |
| dl-proxy/server.js:41-47 | `writeHead(200, …)` runs before the null-body check. `bad(res, 502, "No body")` then throws on its second `writeHead`, and so does the `catch`'s `bad(res, 500, …)`. The error escapes the handler, and the client is left with a 200 head and a response that never ends | an accepted upstream with a null body, such as status 204 | a 502 "No body" JSON reply | medium (depends on Node's `writeHead` check), not executed | DlProxy.NoBodyAsWritten | DlProxy.NoBodyChecked |
