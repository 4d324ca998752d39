# Markdown to docx: a verified model of the converter core

The repository converts Markdown into Word `.docx` files. The CLI runs
markdown-it over the text. It pulls the image references out of the
token stream, drops the `inline` tokens that hold them, and makes one pass
over the remaining flat token array with a cursor. That pass rebuilds
headings, paragraphs, nested lists (task items included), code fences and
tables on a `DocxGenerator`. The generator appends document blocks to its
`children` list and cuts inline text into bold, italic and code runs. It
also fetches images (URL, data URI or local file) through an
`ImageProcessor`, whose results are memoized in an on-disk `CacheManager`.
The web worker has a second, simpler token pass of its own.

This project models that core in Dafny:

| file | models |
|---|---|
| `wrappers.dfy` | `Option` and `Result` (a thrown error is `Err(message)`) |
| `text.dfy` | prefixes, JavaScript's `\s` class, decimal digits and number printing |
| `tokens.dfy` | the token stream markdown-it hands over, `trimStart`, `parseInt` on decimal text, heading levels from tags |
| `inline_styles.dfy` | `parseInlineStyles`: the character loop and the functional scan it is proved against |
| `blocks.dfy` | the document blocks the CLI generator appends, as values |
| `toc.dfy` | `TocGenerator`: options, `getHeadings`, `generate` |
| `cache_index.dfy` | the cache's `Map` index as a sequence of items with distinct keys; the stable sort by timestamp |
| `cache.dfy` | `CacheManager` as a class over the index, the blob directory and the last `index.json`, each method proved against a function on the abstract store |
| `cache_props.dfy` | what the cache guarantees: removal, expiry, eviction order, the size bound, `set` then `get` |
| `images.dfy` | `ImageProcessor`: the retry loop, data-URI parsing, the transcoding plan, memoization |
| `markdown_parser.dfy` | `MarkdownParser`: the image regular expression and its `exec` loop, and the token filter |
| `docx_generator.dfy` | the CLI `DocxGenerator` class: every `add*` method, the image queue, display sizing |
| `cli_compiler.dfy` | the CLI `processTokens` loop and `convertMarkdownToDocx` without its I/O |
| `worker_docx.dfy` | the worker's `DocxGenerator`, with its own `processTokens` loop |

Each imperative loop of the source is a Dafny `method` with a `while`
loop. Its `ensures` ties the result, or the new state of the object, to a
specification function. The properties the code promises are then proved
about those functions as lemmas. External services are oracles or
parameters:
- the HTTP client, the image library, the file system, the base64 decoder and MD5 are fields of `Images.Platform`;
- the blob store's failures are `Cache.BlobFaults` (the blobs whose read, write or unlink fails, each on its own) and the flag `indexBroken` of `Cache.Config`;
- the clock is a `now` parameter in milliseconds.

## Model

| member | source | states |
|---|---|---|
| `Tokens.TrimStartShape` | packages/cli/src/index.js:82 | trimming keeps a suffix of the text that no longer opens with whitespace |
| `Tokens.ParseIntNaN` | packages/cli/src/index.js:56 | `parseInt` gives NaN exactly when no digit follows the leading whitespace and the sign |
| `Tokens.ParseIntOfDecimal` | packages/cli/src/index.js:56 | the decimal text of a number, followed by a non-digit, reads back as that number |
| `Tokens.HeadingLevelOfTag` | packages/cli/src/index.js:56 | the tag `h<n>` names level `n` |
| `Text.RemoveSpaces` | packages/cli/src/utils/imageProcessor.js:134 | the result holds no whitespace, is no longer than the input, and is the input itself when that had none; `Text.RemoveSpacesChar` and `Text.RemoveSpacesAppend` pin down which characters are kept |
| `Text.RemoveSpacesChar` | packages/cli/src/utils/imageProcessor.js:134 | one character is dropped exactly when it is whitespace, and kept otherwise |
| `Text.RemoveSpacesAppend` | packages/cli/src/utils/imageProcessor.js:134 | removal works piece by piece: the result for `a + b` is the result for `a` followed by the result for `b`, so the non-whitespace characters are kept in order |
| `Text.RemoveSpacesIdempotent` | packages/cli/src/utils/imageProcessor.js:134 | stripping whitespace twice is stripping it once |
| `Text.NatToStringValue` | packages/cli/src/utils/docxGenerator.js:152 | the decimal text of `n` reads back as `n` |
| `InlineStyles.StripMarkers` | packages/cli/src/utils/docxGenerator.js:218-232 | the text without its marker characters holds no marker |
| `InlineStyles.ParseInlineStyles` | packages/cli/src/utils/docxGenerator.js:197-236 | the character loop returns the runs of the functional scan `InlineRuns` |
| `InlineStyles.ScanRuns` | packages/cli/src/utils/docxGenerator.js:204-216 | no run is empty, and a run takes the code style exactly when it is inside a code span |
| `InlineStyles.ScanSpellsText` | packages/cli/src/utils/docxGenerator.js:197-236 | the runs spell the pending text and then the rest of the input without its markers: nothing is lost or reordered |
| `InlineStyles.InlineRunsShape` | packages/cli/src/utils/docxGenerator.js:197-236 | the runs of a span concatenate to the span without `` ` ``, `*` and `_`, and none is empty |
| `InlineStyles.ScanAtMarker` | packages/cli/src/utils/docxGenerator.js:220-231 | at a marker the scan first flushes the pending text, then resumes after the marker in the toggled state |
| `InlineStyles.MarkerStep` | packages/cli/src/utils/docxGenerator.js:220-231 | a marker step always moves forward and stays within the text |
| `InlineStyles.ScanAcrossPlain` | packages/cli/src/utils/docxGenerator.js:229-231 | characters other than markers only accumulate; nothing is emitted across them |
| `InlineStyles.ScanWithoutMarkers` | packages/cli/src/utils/docxGenerator.js:218-234 | over a span without markers the state never changes: one run, or none for empty text |
| `InlineStyles.EmphasisExample` | packages/cli/src/utils/docxGenerator.js:218-234 | `**a** b *c* d `` `e` `` yields bold, plain, italic, plain and code runs, in that order |
| `InlineStyles.UnterminatedBold` | packages/cli/src/utils/docxGenerator.js:222-224 | an unclosed `**` keeps bold for the rest of the text, which is still flushed at the end |
| `Toc.Configure` | packages/cli/src/utils/tocGenerator.js:4-10 | title `目录` and maximum level 3 when absent; a present option always wins |
| `Toc.GetHeadings` | packages/cli/src/utils/tocGenerator.js:63-83 | the loop returns the entries of `HeadingsFrom`, every level within `maxLevel` |
| `Toc.HeadingsMember` | packages/cli/src/utils/tocGenerator.js:63-83 | an entry is listed iff some `heading_open` passes the level test, is followed by an `inline` token, and gives that entry |
| `Toc.HeadingsLevels` | packages/cli/src/utils/tocGenerator.js:70 | no entry is deeper than `maxLevel` |
| `Toc.HeadingWithoutTextSkipped` | packages/cli/src/utils/tocGenerator.js:71-72 | a `heading_open` with no `inline` token after it contributes nothing |
| `Toc.HeadingsCount` | packages/cli/src/utils/tocGenerator.js:63-83 | there are never more entries than tokens |
| `Toc.Generate` | packages/cli/src/utils/tocGenerator.js:17-56 | exactly three elements: the title, the contents field over styles `1-<maxLevel>`, and a spacer |
| `Toc.IntText` | packages/cli/src/utils/tocGenerator.js:38 | the printed number is the decimal text of its magnitude, behind `-` when negative |
| `CacheIndex.Lookup` | packages/cli/src/utils/cacheManager.js:75 | `Map.get` finds an entry iff the key is indexed, and the entry found is indexed under that key |
| `CacheIndex.LookupMember` | packages/cli/src/utils/cacheManager.js:75 | with distinct keys, an item's key looks up that item's own entry |
| `CacheIndex.Put` | packages/cli/src/utils/cacheManager.js:105-109 | `Map.set` holds the new item and only items that were there before, adds the key to the key set, and keeps keys distinct |
| `CacheIndex.Without` | packages/cli/src/utils/cacheManager.js:126 | `Map.delete` over a set of keys leaves exactly the other keys, distinct, and never grows the index |
| `CacheIndex.WithoutMember` | packages/cli/src/utils/cacheManager.js:126 | an item survives iff its key was not removed |
| `CacheIndex.TotalWithoutMember` | packages/cli/src/utils/cacheManager.js:171 | removing a present item lowers the total by exactly its size |
| `CacheIndex.TotalPut` | packages/cli/src/utils/cacheManager.js:105-109 | after `Map.set` the total loses the key's old size, if any, and gains the new one |
| `CacheIndex.SortByTime` | packages/cli/src/utils/cacheManager.js:167 | the sort is a permutation of the index |
| `CacheIndex.SortByTimeStable` | packages/cli/src/utils/cacheManager.js:167 | the sort is stable: for every timestamp, the items carrying it come out in their index order |
| `CacheIndex.SortedTiesInIndexOrder` | packages/cli/src/utils/cacheManager.js:167 | of two sorted items with one timestamp, the one sorted first came first in the index |
| `CacheIndex.SortByTimeSorted` | packages/cli/src/utils/cacheManager.js:167 | the eviction order is ascending by timestamp |
| `CacheIndex.InsertKeepsSorted` | packages/cli/src/utils/cacheManager.js:167 | inserting an item into a sorted list keeps it sorted |
| `CacheIndex.SortByTimeKeys` | packages/cli/src/utils/cacheManager.js:167 | sorting keeps the key set, and keys stay distinct |
| `CacheIndex.SortByTimeMembers` | packages/cli/src/utils/cacheManager.js:167 | sorting neither adds nor drops an item |
| `Cache.ExpiredKeys` | packages/cli/src/utils/cacheManager.js:140-144 | no more keys than entries; `CacheProps.WithoutExpiredKeys` proves that dropping them leaves exactly the unexpired entries |
| `Cache.ExpiredKeysInIndex` | packages/cli/src/utils/cacheManager.js:140-144 | only indexed keys are ever listed as expired; `CacheProps.CleanupKeepsFresh` proves that cleanup keeps exactly the entries with `now - timestamp <= maxAge` |
| `Cache.KeepFresh` | packages/cli/src/utils/cacheManager.js:136-149 | the entries `cleanup` is meant to keep are exactly the unexpired ones |
| `Cache.EvictCountLeast` | packages/cli/src/utils/cacheManager.js:169-173 | the eviction loop takes the shortest oldest-first prefix whose removal brings the total within `maxSize`, or every item when no prefix does |
| `Cache.CacheManager.constructor` | packages/cli/src/utils/cacheManager.js:6-14 | 24 hours and 100 MB unless the options give a limit (a present key wins); the in-memory index starts empty |
| `Cache.CacheManager.SaveCacheIndex` | packages/cli/src/utils/cacheManager.js:52-56 | the snapshot becomes the index unless the write fails |
| `Cache.CacheManager.LoadCacheIndex` | packages/cli/src/utils/cacheManager.js:36-47 | the index becomes the snapshot, or empty when it cannot be read |
| `Cache.CacheManager.Init` | packages/cli/src/utils/cacheManager.js:19-31 | load the index, then clean up |
| `Cache.CacheManager.Remove` | packages/cli/src/utils/cacheManager.js:122-131 | the new store is `RemoveSpec` of the old one: the entry goes only after a successful unlink |
| `Cache.CacheManager.Get` | packages/cli/src/utils/cacheManager.js:74-92 | the bytes served and the new store are `GetSpec` of the old store: a miss for an absent key; an expired entry or an unreadable blob is a miss followed by `remove`; a fresh readable blob is served with no change |
| `Cache.CacheManager.Set` | packages/cli/src/utils/cacheManager.js:100-116 | the new store is `SetSpec` of the old one: write, index, save, evict, with every error swallowed |
| `Cache.CacheManager.Cleanup` | packages/cli/src/utils/cacheManager.js:136-149 | the new store is `CleanupSpec` of the old one |
| `Cache.CacheManager.CollectExpired` | packages/cli/src/utils/cacheManager.js:140-144 | the first loop collects the expired keys in index order |
| `Cache.CacheManager.RemoveEach` | packages/cli/src/utils/cacheManager.js:146-148 | the second loop is `remove` on each key in turn |
| `Cache.CacheManager.EnforceMaxSize` | packages/cli/src/utils/cacheManager.js:154-175 | the new store is `EnforceSpec` of the old one |
| `Cache.CacheManager.EvictOldest` | packages/cli/src/utils/cacheManager.js:169-173 | the `while` loop is `EvictLoop` over the sorted list |
| `Cache.CacheManager.GetStats` | packages/cli/src/utils/cacheManager.js:181-197 | `totalSize` is the sum of the entry sizes, `itemCount` the number of entries, with the two limits |
| `CacheProps.RemoveOnlyAfterUnlink` | packages/cli/src/utils/cacheManager.js:122-131 | a successful unlink drops exactly that entry and its blob; a failed one leaves the store as it was |
| `CacheProps.RemoveKeepsHealthy` | packages/cli/src/utils/cacheManager.js:122-131 | in a healthy store the entry goes, the store stays healthy, and the other blobs are untouched |
| `CacheProps.GetAbsent` | packages/cli/src/utils/cacheManager.js:75-76 | an absent key is a miss that changes nothing |
| `CacheProps.GetExpired` | packages/cli/src/utils/cacheManager.js:79-82 | an entry older than `maxAge` (strictly) is never served, and in a healthy store it is removed |
| `CacheProps.GetFresh` | packages/cli/src/utils/cacheManager.js:84-87 | a fresh entry with a readable blob is served unchanged, and nothing changes |
| `CacheProps.GetUnreadable` | packages/cli/src/utils/cacheManager.js:88-91 | a fresh entry whose blob cannot be read is a miss; when the unlink succeeds the entry and its blob are gone, and when it fails (always for a missing blob) nothing changes and the entry stays |
| `CacheProps.EvictLoopRemovesPrefix` | packages/cli/src/utils/cacheManager.js:169-173 | the loop removes the keys of the first `EvictCount` sorted items and nothing else, keeps the store healthy, and leaves the other blobs as they were |
| `CacheProps.EvictReachesBound` | packages/cli/src/utils/cacheManager.js:169-173 | the evicted prefix leaves a total within `maxSize`, and its last item was still needed to get there |
| `CacheProps.EnforceEvictsOldestFirst` | packages/cli/src/utils/cacheManager.js:154-175 | a no-op within the bound; otherwise the oldest entries go, and of an evicted and a kept entry with one timestamp the evicted one came first in the index; the total ends within the bound, the other entries are unchanged, and the last eviction was needed |
| `CacheProps.EnforceTies` | packages/cli/src/utils/cacheManager.js:167-173 | of an evicted and a kept entry with one timestamp, the evicted one came first in the index |
| `CacheProps.EvictedTiesInIndexOrder` | packages/cli/src/utils/cacheManager.js:167-173 | an item taken from the front of the stable sort came before any item left behind with its timestamp |
| `CacheProps.EvictedAreOldest` | packages/cli/src/utils/cacheManager.js:167-173 | no evicted entry is newer than any entry kept |
| `CacheProps.SetKeepsBound` | packages/cli/src/utils/cacheManager.js:100-116 | after `set` the store is healthy and the total is within `maxSize`, even for a blob larger than `maxSize`, given a written blob that can be read and unlinked |
| `CacheProps.SetsKeepBound` | packages/cli/src/utils/cacheManager.js:100-116 | the bound is an invariant of any sequence of `set` calls whose written blobs can be read and unlinked |
| `CacheProps.NewestSurvives` | packages/cli/src/utils/cacheManager.js:167-173 | an entry strictly newer than all others and no larger than the bound is never evicted |
| `CacheProps.SetThenGet` | packages/cli/src/utils/cacheManager.js:74-116 | a blob that fits, set into a healthy cache with a writable index under a key whose blob can be read and unlinked, at a time after every stored entry, is served by any `get` within `maxAge` |
| `CacheProps.RemoveAllHealthy` | packages/cli/src/utils/cacheManager.js:146-148 | `remove` over a list of keys drops exactly those keys |
| `CacheProps.WithoutExpiredKeys` | packages/cli/src/utils/cacheManager.js:136-149 | dropping the collected keys leaves exactly the unexpired entries |
| `CacheProps.CleanupKeepsFresh` | packages/cli/src/utils/cacheManager.js:136-149 | `cleanup` keeps exactly the entries with `now - timestamp <= maxAge` |
| `Images.DownloadSucceedsIff` | packages/cli/src/utils/imageProcessor.js:86-100 | the loop returns data iff some attempt answers 200 after every earlier one moved on, and it returns that attempt's data |
| `Images.DownloadFailsIff` | packages/cli/src/utils/imageProcessor.js:101-105 | the loop throws iff the last attempt throws after every earlier one moved on; the message names the attempt count and the last error |
| `Images.DownloadAttempts` | packages/cli/src/utils/imageProcessor.js:87 | at most `retries` GETs, and at most one wait after each |
| `Images.DownloadBackoff` | packages/cli/src/utils/imageProcessor.js:101-108 | the waits are, in increasing order, exactly one `1000 * (k + 1)` ms for each attempt `k` issued that threw and was not the last, and no others |
| `Images.FormatRun` | packages/cli/src/utils/imageProcessor.js:135 | the longest prefix of `[a-zA-Z+]` characters |
| `Images.ParseDataUri` | packages/cli/src/utils/imageProcessor.js:135 | a match is a well-formed data URI whose text is the input |
| `Images.ParseDataUriComplete` | packages/cli/src/utils/imageProcessor.js:135 | every well-formed data URI is recognised with its own format and payload |
| `Images.EncoderFor` | packages/cli/src/utils/imageProcessor.js:183-197 | png to PNG, webp to WebP, anything else to JPEG |
| `Images.TranscodePlan` | packages/cli/src/utils/imageProcessor.js:175-197 | resize iff wider than `maxWidth`, to exactly that width, with the encoder for the format |
| `Images.ProcessBufferOutcome` | packages/cli/src/utils/imageProcessor.js:169-209 | a result is what the encoder made for the probed plan, with its own metadata; every failure carries the prefix |
| `Images.HitIgnoresData` | packages/cli/src/utils/imageProcessor.js:40-49 | on a cache hit the bytes handed in play no part; the cached bytes are served |
| `Images.LookupKeepsOlderItems` | packages/cli/src/utils/cacheManager.js:74-92 | a lookup keeps the store healthy and only ever drops entries |
| `Images.SecondCallReturnsFirstResult` | packages/cli/src/utils/imageProcessor.js:40-62 | memoization: after a miss that processed the image, a second call within `maxAge` returns the same result whatever bytes it gets |
| `Images.UrlDownloadFailureBypassesCache` | packages/cli/src/utils/imageProcessor.js:117-124 | the download comes first: when it fails, even a cached image is not served and the cache is untouched |
| `Images.Base64IgnoresWhitespace` | packages/cli/src/utils/imageProcessor.js:134-144 | inputs that differ only in whitespace give the same image and the same cache entry |
| `Images.Base64Accepts` | packages/cli/src/utils/imageProcessor.js:131-147 | a well-formed data URI is decoded and keyed by its stripped text; anything else fails with `Invalid Base64 image format` |
| `Images.OrElse` | packages/cli/src/utils/imageProcessor.js:19-20 | `x \|\| d` on a number: 0 and absent fall back to `d` |
| `Images.ImageProcessor.constructor` | packages/cli/src/utils/imageProcessor.js:8-21 | 1500 wide and quality 80 unless present; the cache gets 7 days and 500 MB unless given non-zero |
| `Images.ImageProcessor.DownloadImage` | packages/cli/src/utils/imageProcessor.js:86-110 | the `for` loop is `DownloadFrom` from attempt 0 |
| `Images.ImageProcessor.ProcessBuffer` | packages/cli/src/utils/imageProcessor.js:169-209 | the result is `ProcessBufferSpec` |
| `Images.ImageProcessor.GetOrProcessImage` | packages/cli/src/utils/imageProcessor.js:40-62 | the result and the new cache are `GetOrProcessSpec` of the old cache |
| `Images.ImageProcessor.ProcessUrlImage` | packages/cli/src/utils/imageProcessor.js:117-124 | the result and the new cache are `ProcessUrlSpec` |
| `Images.ImageProcessor.ProcessBase64Image` | packages/cli/src/utils/imageProcessor.js:131-148 | the result and the new cache are `ProcessBase64Spec` |
| `Images.ImageProcessor.ProcessLocalImage` | packages/cli/src/utils/imageProcessor.js:155-162 | the result and the new cache are `ProcessLocalSpec` |
| `MarkdownParser.FindChar` | packages/cli/src/utils/markdownParser.js:29 | the first position holding the character, or the end when there is none |
| `MarkdownParser.SrcEnd` | packages/cli/src/utils/markdownParser.js:29 | the end of the longest run of `[^)\s]` characters |
| `MarkdownParser.SpaceEnd` | packages/cli/src/utils/markdownParser.js:29 | the end of the longest whitespace run |
| `MarkdownParser.MatchAt` | packages/cli/src/utils/markdownParser.js:29 | a match starts with `![` and ends within the text, at least six characters on; `MarkdownParser.MatchAtSpells` (soundness) and `MarkdownParser.MatchTitled`/`MarkdownParser.MatchUntitled` (completeness) give the two directions of the regular expression |
| `MarkdownParser.MatchAtSpells` | packages/cli/src/utils/markdownParser.js:29 | a match's fields are the text it spans: that text is `![alt](src)` with the empty title, or `![alt](src` followed by a non-empty run of whitespace, `"title"` and `)` |
| `MarkdownParser.MatchAtShape` | packages/cli/src/utils/markdownParser.js:29 | every match has a non-empty source without whitespace or `)`, an alt without `]`, a title without `"` |
| `MarkdownParser.MatchTitled` | packages/cli/src/utils/markdownParser.js:29 | `![alt](src "title")` is recognised whatever whitespace separates source and title |
| `MarkdownParser.MatchUntitled` | packages/cli/src/utils/markdownParser.js:29-32 | `![alt](src)` is recognised with the empty title |
| `MarkdownParser.RefOf` | packages/cli/src/utils/markdownParser.js:33-39 | `isUrl` iff the source starts with `http://` or `https://`, `isBase64` iff with `data:image/` |
| `MarkdownParser.ScanContent` | packages/cli/src/utils/markdownParser.js:31-40 | the `exec` loop reports one reference per match, left to right |
| `MarkdownParser.ParseImages` | packages/cli/src/utils/markdownParser.js:22-45 | every reference of every `inline` token, tokens in order |
| `MarkdownParser.FilterTokens` | packages/cli/src/utils/markdownParser.js:57-62 | the filter never adds tokens |
| `MarkdownParser.Parse` | packages/cli/src/utils/markdownParser.js:52-65 | the kept tokens and the references of `parse` |
| `MarkdownParser.FilterMember` | packages/cli/src/utils/markdownParser.js:57-62 | a token is kept iff it is not `inline` or does not contain `![` |
| `MarkdownParser.FilterAppend` | packages/cli/src/utils/markdownParser.js:57-62 | filtering keeps the original order |
| `MarkdownParser.OpenerWithoutImage` | packages/cli/src/utils/markdownParser.js:59 | `![` alone yields no image and still drops its token |
| `MarkdownParser.MatchesShape` | packages/cli/src/utils/markdownParser.js:29-40 | every match found is well shaped, and a text with a match contains `![` |
| `MarkdownParser.ImagesShape` | packages/cli/src/utils/markdownParser.js:22-45 | every reference has a non-empty source without whitespace or `)`, an alt without `]`, and is never both a URL and a data URI |
| `MarkdownParser.ImageTokensDropped` | packages/cli/src/utils/markdownParser.js:22-65 | every `inline` token that yields a reference is dropped by `parse` |
| `DocxGenerator.TextOrElse` | packages/cli/src/utils/docxGenerator.js:52 | `text \|\| d`: the empty string and absent fall back to `d` |
| `DocxGenerator.ClampLevel` | packages/cli/src/utils/docxGenerator.js:134 | the level is clamped into 1 to 6, unchanged inside it |
| `DocxGenerator.HeadingBlock` | packages/cli/src/utils/docxGenerator.js:133-148 | a heading of the clamped level spelling the text without markers; a NaN level names no level |
| `DocxGenerator.ParagraphBlock` | packages/cli/src/utils/docxGenerator.js:110-131 | a quote iff the text starts with `> `, which is then stripped; quote runs are grey and others take the body style |
| `DocxGenerator.ListMarkerNumbers` | packages/cli/src/utils/docxGenerator.js:152 | the ordered marker of item `index` is `index + 1` followed by `. ` |
| `DocxGenerator.ListBlocks` | packages/cli/src/utils/docxGenerator.js:150-166 | exactly one paragraph per item |
| `DocxGenerator.ListBlocksItems` | packages/cli/src/utils/docxGenerator.js:150-166 | the `k`-th paragraph is the `k`-th item behind its marker, indented `720 + 360 * level` |
| `DocxGenerator.CellWidth` | packages/cli/src/utils/docxGenerator.js:256 | `floor(100 / n)`: the widest whole percentage `n` cells can share |
| `DocxGenerator.TableBlocks` | packages/cli/src/utils/docxGenerator.js:238-286 | nothing iff there are no rows; otherwise one table with one row of cells per data row |
| `DocxGenerator.HeaderRowNotForcedBold` | packages/cli/src/utils/docxGenerator.js:244 | a header cell is built like a body cell with the same text |
| `DocxGenerator.DisplaySize` | packages/cli/src/utils/docxGenerator.js:305-314 | native size up to 600 wide; beyond that 600 wide with the height rounded to the nearest `height * 600 / width` |
| `DocxGenerator.ImageBlocks` | packages/cli/src/utils/docxGenerator.js:316-359 | the image paragraph, then a caption iff the title is not empty |
| `DocxGenerator.QueuedImageShape` | packages/cli/src/utils/docxGenerator.js:75-99 | a failed image yields exactly its placeholder; a loaded one its image and caption blocks |
| `DocxGenerator.QueueBlocksCount` | packages/cli/src/utils/docxGenerator.js:74-101 | one or two blocks per queued image |
| `DocxGenerator.UnreadableLocalImage` | packages/cli/src/utils/docxGenerator.js:75-99 | an unreadable local file becomes `[Failed to load image: alt \|\| src]` and leaves the cache as it was |
| `DocxGenerator.DocxGenerator.constructor` | packages/cli/src/utils/docxGenerator.js:40-57 | the processor gets `x \|\| d` for each image option (800, 85, 7 days, 500 MB); the table of contents gets `title \|\| '目录'` and `maxLevel \|\| 3` |
| `DocxGenerator.DocxGenerator.AddImageToQueue` | packages/cli/src/utils/docxGenerator.js:66-68 | the image joins the end of the queue; the document is unchanged |
| `DocxGenerator.DocxGenerator.AddParagraph` | packages/cli/src/utils/docxGenerator.js:110-131 | appends `ParagraphBlock` and nothing else |
| `DocxGenerator.DocxGenerator.AddHeading` | packages/cli/src/utils/docxGenerator.js:133-148 | appends `HeadingBlock` and nothing else |
| `DocxGenerator.DocxGenerator.AddList` | packages/cli/src/utils/docxGenerator.js:150-166 | appends `ListBlocks` and nothing else |
| `DocxGenerator.DocxGenerator.AddTaskListItem` | packages/cli/src/index.js:86 | appends one abstract task item |
| `DocxGenerator.DocxGenerator.AddCodeBlock` | packages/cli/src/utils/docxGenerator.js:168-195 | appends one code block holding the code; the language is unused |
| `DocxGenerator.DocxGenerator.AddTable` | packages/cli/src/utils/docxGenerator.js:238-286 | appends `TableBlocks` and nothing else |
| `DocxGenerator.DocxGenerator.AddImage` | packages/cli/src/utils/docxGenerator.js:288-365 | dispatches on the source prefix; on success appends the image and caption blocks, on failure nothing |
| `DocxGenerator.DocxGenerator.AddQueuedImage` | packages/cli/src/utils/docxGenerator.js:75-100 | appends the image's blocks, or its placeholder when it fails |
| `DocxGenerator.DocxGenerator.ProcessImageQueue` | packages/cli/src/utils/docxGenerator.js:70-108 | every queued image is added or replaced by its placeholder, in queue order; the queue is emptied; all count as succeeded, none as failed |
| `DocxGenerator.DocxGenerator.AddTableOfContents` | packages/cli/src/utils/docxGenerator.js:392-395 | appends the three table-of-contents blocks |
| `CliCompiler.TaskMatch` | packages/cli/src/index.js:82-85 | a match is checked iff the box is not a space |
| `CliCompiler.TaskMatchShape` | packages/cli/src/index.js:82 | a match iff the content opens with `[ ]`, `[x]` or `[X]` and the rest, left-trimmed, is one line; the text never opens with whitespace |
| `CliCompiler.TaskTextIsSuffix` | packages/cli/src/index.js:82-85 | the text of a task item is a suffix of the content, at least three characters shorter |
| `CliCompiler.TaskMatchOfLine` | packages/cli/src/index.js:82-85 | `[c] text` reads back as its box and its text |
| `CliCompiler.PlainTextIsNoTask` | packages/cli/src/index.js:82 | text that does not open with `[` is never a task item |
| `CliCompiler.MaxLevel` | packages/cli/src/index.js:102-113 | no buffered item is deeper than the maximum level |
| `CliCompiler.TextsAt` | packages/cli/src/index.js:102-112 | a level's texts are never more than the items, and exist only up to the maximum level |
| `CliCompiler.FlushLevels` | packages/cli/src/index.js:101-113 | one list per level in ascending order, each with that level's texts in buffer order, stopping at the first empty level |
| `CliCompiler.FlushedWhenLevelsFilled` | packages/cli/src/index.js:101-113 | when every level up to `l` holds an item, the flush emits `l`'s list at position `l` |
| `CliCompiler.LevelsFilledWhenFlushed` | packages/cli/src/index.js:101-113 | a level's list is emitted only if every level up to it holds an item |
| `CliCompiler.ItemFlushedIff` | packages/cli/src/index.js:101-113 | an item is flushed iff every level from 0 up to its own holds an item: deeper items behind a gap are dropped |
| `CliCompiler.ScanRow` | packages/cli/src/index.js:127-137 | a finished scan stops on a `tr_close` at or after its start; the row it returns extends the row it was given, and every added cell is the text of an inline token right after a `th`/`td` opener within the scanned range |
| `CliCompiler.ListItemTaskStep` | packages/cli/src/index.js:83-87 | a task item is added at depth `listLevel - 1` and the cursor skips two more tokens |
| `CliCompiler.ListItemBufferStep` | packages/cli/src/index.js:88-93 | a plain item joins the buffer at depth `listLevel - 1` |
| `CliCompiler.TableRowStep` | packages/cli/src/index.js:127-140 | a row turn moves the cursor forward and not past the end, and appends exactly one row to the table, leaving the earlier rows as they were; each of its cells is the text of an inline token after a cell opener inside the row |
| `CliCompiler.Step` | packages/cli/src/index.js:50-148 | every turn that does not throw moves the cursor forward, not past the end |
| `CliCompiler.RenderHasNoImages` | packages/cli/src/index.js:41-152 | the token pass appends no image, caption or placeholder |
| `CliCompiler.StepShape` | packages/cli/src/index.js:54-148 | each call of one turn has the shape `EmittedShape` states |
| `CliCompiler.RunShape` | packages/cli/src/index.js:41-152 | every call of the pass has that shape |
| `CliCompiler.CompileShape` | packages/cli/src/index.js:41-152 | no empty paragraph, list or table is ever requested, and list depths start at 0 |
| `CliCompiler.PlainItemAlsoParagraph` | packages/cli/src/index.js:62-95 | a plain item is buffered and the cursor stays on its `paragraph_open`, so its text is also emitted as a paragraph |
| `CliCompiler.TaskItemSkipsParagraph` | packages/cli/src/index.js:78-88 | a task item is emitted at once, nothing is buffered, and its paragraph is skipped |
| `CliCompiler.HeadingAtEndThrows` | packages/cli/src/index.js:55-58 | a heading that is the last token, after only `inline` tokens, reads its text past the end: the pass throws having appended nothing |
| `CliCompiler.ProcessTokens` | packages/cli/src/index.js:41-152 | the loop appends exactly the blocks of the calls `Compile` lists, throws exactly when `Compile` reads past the end of the tokens, and leaves the image queue alone |
| `CliCompiler.ProcessToken` | packages/cli/src/index.js:50-148 | one turn makes the calls of `Step` and moves to its next state |
| `CliCompiler.OnHeadingOpen` | packages/cli/src/index.js:55-60 | the `heading_open` case is `HeadingStep` |
| `CliCompiler.OnParagraphOpen` | packages/cli/src/index.js:62-68 | the `paragraph_open` case is `ParagraphStep` |
| `CliCompiler.OnListItemOpen` | packages/cli/src/index.js:78-95 | the `list_item_open` case is `ListItemStep` |
| `CliCompiler.OnListClose` | packages/cli/src/index.js:97-117 | the list-close case is `ListCloseStep` |
| `CliCompiler.OnTableRow` | packages/cli/src/index.js:127-140 | the `tr_open` case is `TableRowStep` |
| `CliCompiler.OnTableClose` | packages/cli/src/index.js:142-147 | the `table_close` case is `TableCloseStep` |
| `CliCompiler.CloseList` | packages/cli/src/index.js:99-116 | the flush runs only back at depth 0 with items pending |
| `CliCompiler.AddLevelLists` | packages/cli/src/index.js:101-113 | the `while` loop appends the lists of `FlushFrom` from level 0 |
| `CliCompiler.ScanTableRow` | packages/cli/src/index.js:127-137 | the `while` scan returns `ScanRow`'s row and stop, and fails exactly where `ScanRow` does |
| `CliCompiler.ProcessImages` | packages/cli/src/index.js:188-192 | every image is queued and processed; the queue ends empty |
| `CliCompiler.QueueAllImageParts` | packages/cli/src/utils/docxGenerator.js:70-108 | the image queue yields only image, caption and placeholder blocks |
| `CliCompiler.ImagesPrecedeText` | packages/cli/src/index.js:188-195 | image blocks come exactly before the text blocks |
| `CliCompiler.ConvertParsed` | packages/cli/src/index.js:182-195 | the table of contents when enabled, then the image blocks, then the token pass |
| `CliCompiler.Convert` | packages/cli/src/index.js:160-213 | the same over the parser's split of the tokens: references from all tokens, the pass over the kept ones |
| `WorkerDocx.HeadingStyle` | packages/worker/src/converter/docx.ts:24-34 | levels 1 to 6 name their own style; anything else, NaN included, is heading 1 |
| `WorkerDocx.HeadingSize` | packages/worker/src/converter/docx.ts:46 | `28 + (6 - level) * 2`: an even size from 28 to 38 for levels 1 to 6, NaN for a NaN level |
| `WorkerDocx.HeadingSizeShrinks` | packages/worker/src/converter/docx.ts:46 | each level deeper is two half-points smaller |
| `WorkerDocx.ListLines` | packages/worker/src/converter/docx.ts:105-125 | one paragraph per item: marker, a space, the item |
| `WorkerDocx.MarkersMatchCli` | packages/worker/src/converter/docx.ts:110 | the worker writes the same markers as the CLI generator |
| `WorkerDocx.TableElements` | packages/worker/src/converter/docx.ts:131-160 | nothing iff there are no rows, otherwise one table of the rows |
| `WorkerDocx.ScanRow` | packages/worker/src/converter/docx.ts:228-237 | the scan stops on a `tr_close` or at the end; the row it returns extends the row it was given, and every added cell is the text of an inline token right after a `th`/`td` opener within the scanned range |
| `WorkerDocx.TableRowStep` | packages/worker/src/converter/docx.ts:227-240 | a row turn moves the cursor forward and appends exactly one row to the table, leaving the earlier rows as they were; each of its cells is the text of an inline token after a cell opener inside the row |
| `WorkerDocx.Step` | packages/worker/src/converter/docx.ts:173-249 | every turn that does not throw moves the cursor forward |
| `WorkerDocx.RunEmitted` | packages/worker/src/converter/docx.ts:166-253 | no empty paragraph or table ever reaches the document, and every heading names a style from 1 to 6 |
| `WorkerDocx.NestedOpenDropsPending` | packages/worker/src/converter/docx.ts:195-199 | a list open discards the pending items and takes its orderedness from the token |
| `WorkerDocx.ItemAlsoParagraph` | packages/worker/src/converter/docx.ts:186-207 | an item is buffered and its text is also emitted as a paragraph on the next turn |
| `WorkerDocx.ScanRowThrows` | packages/worker/src/converter/docx.ts:230-231 | the scan throws only where a cell opener is the last token |
| `WorkerDocx.WorkerGenerator.AddHeading` | packages/worker/src/converter/docx.ts:41-56 | appends one heading with the style of `getHeadingLevel` and the size from the level |
| `WorkerDocx.WorkerGenerator.AddParagraph` | packages/worker/src/converter/docx.ts:62-76 | appends one paragraph |
| `WorkerDocx.WorkerGenerator.AddCodeBlock` | packages/worker/src/converter/docx.ts:83-98 | appends one code paragraph; the language is unused |
| `WorkerDocx.WorkerGenerator.AddList` | packages/worker/src/converter/docx.ts:105-125 | appends `ListLines` |
| `WorkerDocx.WorkerGenerator.AddTable` | packages/worker/src/converter/docx.ts:131-160 | appends `TableElements` |
| `WorkerDocx.WorkerGenerator.ProcessTokens` | packages/worker/src/converter/docx.ts:166-253 | the loop appends exactly the elements `Compile` lists and throws exactly when it says |
| `WorkerDocx.WorkerGenerator.ProcessToken` | packages/worker/src/converter/docx.ts:173-249 | one turn appends what `Step` says and moves to its next state |
| `WorkerDocx.WorkerGenerator.OnHeadingOpen` | packages/worker/src/converter/docx.ts:178-184 | the `heading_open` case is `HeadingStep` |
| `WorkerDocx.WorkerGenerator.OnParagraphOpen` | packages/worker/src/converter/docx.ts:186-193 | the `paragraph_open` case is `ParagraphStep` |
| `WorkerDocx.WorkerGenerator.OnListClose` | packages/worker/src/converter/docx.ts:209-216 | the list-close case is `ListCloseStep` |
| `WorkerDocx.WorkerGenerator.OnTableClose` | packages/worker/src/converter/docx.ts:242-248 | the `table_close` case is `TableCloseStep` |
| `WorkerDocx.WorkerGenerator.Generate` | packages/worker/src/converter/docx.ts:258-264 | the document is never empty: an empty one gets the `文档内容为空` paragraph, any other stays as it is |
| `WorkerDocx.ScanTableRow` | packages/worker/src/converter/docx.ts:227-237 | the `while` scan returns `ScanRow`'s row and stop, and throws exactly where `ScanRow` does |

## Left out

- The markdown-it tokenizer: every operation starts from its token sequence.
- The docx library objects and `Packer`: blocks are values, and only the parts the generator chooses are kept. `getDocument`'s page setup and document properties are not part of this model.
- The HTTP client, the image library, the file system, MD5 and the base64 decoder: they are oracles in `Images.Platform` and `Cache.Config`. Only the data-URI shape check is modelled, not the decoding.
- `Promise.allSettled` in `processImageQueue`: images are processed one after the other in queue order, with one `now`. Under the source's concurrency, the order of the blocks of different images is completion order.
- `Date.now()` is the parameter `now`. The back-off `setTimeout` delays are recorded as values, not waited.
- `saveTempImage`, the temporary file `addImage` writes, and its `cleanup`: the model assumes the temporary write succeeds. The random temporary file name is not modelled.
- `ensureTempDir`, the cache directory creation in `init`, and the `initialized` flag of the generator's `init`: `CliCompiler.Convert` starts from a generator whose cache is already loaded. `Cache.CacheManager.Init` models the cache's part of `init`.
- The `cache` option of `ImageProcessor` is a boolean that no method reads; its `tempDir` option and the `cacheDir` field of `getStats` name directories. None of them is modelled.
- Console output, `log`/`logError` and the progress bar of `processTokens`.
- The file reading and writing, the error wrapping and the timing of `convertMarkdownToDocx`.
- `JSON.parse`/`JSON.stringify` of `index.json`: the snapshot is stored as the index itself. A corrupt snapshot is a failed read.
- `Tokens.ParseInt`: reads decimal text only. A `0x` prefix, which `parseInt` reads as hexadecimal, cannot occur in the `h1`–`h6` tags markdown-it produces.
- `DocxGenerator.DocxGenerator.AddTaskListItem`: the CLI generator defines no such method, so in the source the first task item throws a `TypeError` (`addTaskListItem` is not a function), which aborts `processTokens` and the whole conversion. The model deliberately appends an abstract `TaskItem(text, checked, depth)` instead and goes on.
- `CacheProps.SetKeepsBound`: assumes a healthy store, where every indexed blob can be read and unlinked, an index file that can be written, and a written blob that can be read and unlinked (`CacheProps.WriteKeepsAccess`); `CacheProps.SetsKeepBound` assumes the same of every call. In the source a failed unlink keeps the entry, and a failed index write skips the eviction; in either case the bound need not hold.
- `Images.SecondCallReturnsFirstResult`: assumes a healthy cache with a writable index, a key whose blob can be read and unlinked, a processed image that fits in `maxSize`, and a clock past every stored entry. Without these, `set` may fail silently or evict the new entry, and the second call processes the image again.
- `CliCompiler.ProcessTokens`: the `TypeError` thrown on reading past the end of the token array is the boolean `crashed`. The blocks appended before it stay. The model does not throw at a task item, where the source throws because `addTaskListItem` is undefined; it appends a `TaskItem` and goes on.
- `WorkerDocx.WorkerGenerator.ProcessTokens`: the `TypeError` thrown on reading past the end of the token array is the boolean `crashed`. The blocks appended before it stay.
- `CacheProps.SetThenGet`: assumes a healthy store, a writable index, a key whose blob can be read and unlinked, and a clock strictly past every stored entry, so that the new entry is the newest and survives eviction. Without them `set` may fail silently or evict the new entry.
- `DocxGenerator.DisplaySize`: the height of an image wider than 600 is the exact quotient `height * 600 / width` rounded half up. The source rounds the floating-point product `height * (600 / width)`, which can fall just below a half; the model's height is then one more than the source's. For width 848 and height 159 the exact quotient is 112.5 and the model gives 113, while the double product is 112.49999999999999 and the source gives 112.
- `DocxGenerator.ImageBlocks`: the image block's height is `DocxGenerator.DisplaySize`'s and shares its rounding difference.
- `DocxGenerator.DocxGenerator.AddImage`: the appended image block's height is `DocxGenerator.DisplaySize`'s and shares its rounding difference.
- `DocxGenerator.DocxGenerator.AddQueuedImage`: the appended image block's height is `DocxGenerator.DisplaySize`'s and shares its rounding difference.
- `DocxGenerator.DocxGenerator.ProcessImageQueue`: the image blocks' heights are `DocxGenerator.DisplaySize`'s and share its rounding difference; the images are taken in queue order, not in completion order.
- `CliCompiler.Convert`: the image blocks' heights are `DocxGenerator.DisplaySize`'s and share its rounding difference; a task item does not throw, as described for `CliCompiler.ProcessTokens`.
- `generateKey`: only string data is modelled, as the MD5 oracle applied to the string (`Images.CacheKeyOf`). The `JSON.stringify` of other data is not modelled; every caller passes a string.
- The `styles.imageCaption` and `styles.toc` run styling, and the spacing and alignment of paragraphs, are not part of this model.
- packages/cli/src/utils/htmlPreview.js, the worker's HTTP routing, its R2 storage and markdown-it wrapper, the test clients, and the static default style table are not part of this model.

## Behaviour a reader may not expect

The model follows the code in each case except the last, which is listed under "Left out".

- Quotes are not italic, and a table's header row is not bold. `addParagraph` passes `italic: isQuoteBlock` (packages/cli/src/utils/docxGenerator.js:114-118) and `addTable` passes `bold: true` for the first row (packages/cli/src/utils/docxGenerator.js:244), but the run builder of `parseInlineStyles` takes `bold` and `italic` from its own emphasis flags and only the font, size and colour from the base style (packages/cli/src/utils/docxGenerator.js:204-213). Proved as `DocxGenerator.ParagraphBlock` and `DocxGenerator.HeaderRowNotForcedBold`.
- `remove` unlinks the blob before it deletes the index entry, and swallows any error (packages/cli/src/utils/cacheManager.js:122-131). When the blob is missing the unlink fails and the entry stays, so every later `get` of that key, which calls `remove` after a failed read (packages/cli/src/utils/cacheManager.js:84-91), misses again and leaves the entry in place. Proved as `CacheProps.GetUnreadable`.
- `set` on a key that is already cached refreshes its timestamp with `Map.set` (packages/cli/src/utils/cacheManager.js:105-109), which keeps the key in its old position in the index's order. See `CacheIndex.Put`.
- `processUrlImage`, `processBase64Image` and `processLocalImage` return the promise of `getOrProcessImage` without `await` (packages/cli/src/utils/imageProcessor.js:120, 144, 158), so a rejection of the cache lookup or of transcoding escapes their `catch`. Only the download, decoding and read errors carry those methods' prefixes.
- Options spread after their defaults (packages/cli/src/utils/cacheManager.js:7-12, packages/cli/src/utils/imageProcessor.js:9-15, packages/cli/src/utils/tocGenerator.js:5-9). A present option wins even when it is 0 or empty; only an absent key takes the default (`Toc.Configure`, `Cache.CacheManager.constructor`, `Images.ImageProcessor.constructor`).
- The CLI's `processTokens` calls `generator.addTaskListItem` (packages/cli/src/index.js:86), which the CLI generator does not define, so the first task item throws and aborts the conversion. The model appends an abstract task item there instead and goes on; this one case is listed under "Left out".
