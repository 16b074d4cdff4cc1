# GabeSearch retrieval core in Dafny

GabeSearch is a retrieval server. It turns a prompt into search queries and sends each query
to a SearxNG instance. It then fetches the pages behind the links it gets back and cleans
them to text, building a budgeted evidence text with numbered sources. Each fetched page is
also written to a Qdrant vector cache, and the cache is searched to add earlier pages that
are close to the claim being checked.

This project models that core and proves properties of it. There is one module per source
file, plus two support modules:

- `wrappers.dfy` (module `Wrappers`): an `Option` type.
- `pystr.dfy` (module `PyStr`): the Python string operations the core relies on. These are
  `strip`, `split`, `split('\n')`, `find`, `lower`, `join`, slicing with Python's
  index-clamping rules, and decimal rendering. Each comes with the facts the other modules
  need, such as "strip removes only whitespace" and "join undoes split".
- `vector_cache.dfy` (module `VectorCache`), for `orchestrator/vector_cache.py`:
  - `chunk_text` is a loop method proved equal to a window specification.
  - Point ids have a round-trip parser.
  - The store is modelled by the class `WebCache`. Its `points` field is a map from id to
    point. `CachePage` updates the map with `Upsert`, with the freshness test in front,
    and `VectorSearch` maps store hits to records.
- `search.dfy` (module `Search`), for `orchestrator/search.py`:
  - the fallback query generator;
  - the three-way prompt parser: a JSON object, a `QUERIES:`/`CLAIM:` block, or the fallback;
  - the mapping from a SearxNG reply to link records.
- `server.dfy` (module `Server`), for `orchestrator/server.py`:
  - URL normalisation and the `<meta>` scan;
  - the text choice and truncation of a page fetch;
  - flattening of the per-query links;
  - the source/budget loop with its cache writes;
  - the merge with cache hits and the stable descending sort by score;
  - the response record of `bulk_retrieve`.

Where the source loops or changes state, the model is a method with a loop or a `modifies`
clause. Each such method is proved equal to a specification function. The properties are
then proved about those functions:
- `ChunkText`, `BuildPoints`, `WebCache.CachePage` and `WebCache.VectorSearch`;
- `ParseQueryLines`, `ParseQueriesFromPrompt` and `SearxTopLinks`;
- `ExtractPageMetadata`, `FlattenLinks`, `CollectSources` and `BulkRetrieve`.

The network, the clock, the embedding model and the nearest-neighbour search are parameters:
- `answer` gives the SearxNG reply for each query.
- `fetch` gives the HTTP response for each URL.
- `embed` gives the dense vector for a text, or `None` when encoding fails.
- `nearest` gives the store's answer for a vector.
- `netloc` gives the network location of a URL (`urlparse(u).netloc`), or `None` when
  `urlparse` raises on it, as it does for an unbalanced bracket such as `http://[::1/x`.
- `parsed` is the result of `json.loads(prompt)`: the JSON value, or `None` when decoding
  raises `JSONDecodeError`. It is taken as given and not derived from `prompt`.
- `now` is the clock's reading.

Live sources follow the order in which the links were submitted, because `asyncio.gather`
returns its results in that order.

## Model

| member | source | states |
|---|---|---|
| PyStr.StripIsInfix | orchestrator/vector_cache.py:51 | `strip()` returns a contiguous piece of its argument with no whitespace at either end, and everything removed before and after it is whitespace |
| PyStr.StripIdempotent | orchestrator/search.py:55 | stripping an already stripped string changes nothing |
| PyStr.WordCountWords | orchestrator/server.py:145 | the word count stored in a source equals the number of words `split()` yields |
| PyStr.JoinSplitOn | orchestrator/search.py:52 | joining the pieces of `split('\n')` with a newline gives the original section back |
| PyStr.SplitOnJoin | orchestrator/search.py:52 | splitting a newline-joined list of newline-free lines gives the lines back |
| PyStr.WordsOfJoin | orchestrator/search.py:28-29 | `" ".join(words).split()` gives back `words` when every word is non-empty and has no whitespace |
| PyStr.LowerJoin | orchestrator/search.py:28 | lower-casing a joined string equals joining the lower-cased words |
| PyStr.DecimalRoundTrip | orchestrator/vector_cache.py:86 | the decimal rendering of an index or offset in a point id reads back as the same number |
| VectorCache.ChunkText | orchestrator/vector_cache.py:45-55 | the `while` loop returns exactly the chunk list `Chunks(txt, size, overlap)`, with the empty text giving no chunks |
| VectorCache.ChunkLoop | orchestrator/vector_cache.py:49-54 | the loop with windows starting at 0, `size - overlap` apart, keeps a stripped window when it has at least 200 characters, and yields the recursive window list |
| VectorCache.ChunkMembers | orchestrator/vector_cache.py:49-54 | a triple is a chunk exactly when its start is a multiple of `size - overlap` below the text length, its end is `min(L, start + size)`, and its segment is the stripped window with at least 200 characters |
| VectorCache.ChunkBounds | orchestrator/vector_cache.py:49-53 | every chunk satisfies `0 <= a < b <= len(txt)`, its segment is `txt[a:b].strip()`, and that segment has between 200 and `b - a` characters |
| VectorCache.ChunkStartsIncrease | orchestrator/vector_cache.py:49-54 | chunk starts strictly increase along the list |
| VectorCache.NoProgressWithoutStep | orchestrator/vector_cache.py:49-54 | as written, with `overlap >= size` the loop variable never grows, so the loop test on a non-empty text holds after any number of rounds |
| VectorCache.StepReachesEnd | orchestrator/vector_cache.py:49-54 | with `size - overlap > 0`, after n rounds the start is at least n, so the loop ends within `len(txt)` rounds |
| VectorCache.ShortTextHasNoChunks | orchestrator/vector_cache.py:52-53 | a text shorter than 200 characters yields no chunk |
| VectorCache.ShortTextExample | tests/test_server.py:36-37 | `chunk_text('short text') == []` |
| VectorCache.OverlapExample | tests/test_server.py:40-47 | 2500 `x` with size 1000 and overlap 100 give the chunks (0,1000), (900,1900) and (1800,2500), with 1000, 1000 and 700 characters |
| VectorCache.PointIdRoundTrip | orchestrator/vector_cache.py:86 | the id `url|idx|a|b` parses back into its four parts, even when the url contains `|` |
| VectorCache.PointIdInjective | orchestrator/vector_cache.py:86 | two points share an id only if url, chunk index, start and end all agree |
| VectorCache.PagePointsShape | orchestrator/vector_cache.py:82-99 | when every chunk encodes, point k carries chunk k's segment, offsets and index, the page's url, title, site and fetch time, and the id built from them |
| VectorCache.PagePointsFail | orchestrator/vector_cache.py:82-83 | no points are produced exactly when some chunk fails to encode |
| VectorCache.PagePointsDistinct | orchestrator/vector_cache.py:82-86 | the points of one page have pairwise distinct ids |
| VectorCache.SameTextSameIds | orchestrator/vector_cache.py:82-86 | caching the same url and text again, with any metadata, writes the same ids in the same order, so it overwrites rather than adds |
| VectorCache.BuildPoints | orchestrator/vector_cache.py:81-99 | the `for` loop over the chunks builds the page's points, or reports a failed encoding |
| VectorCache.BuildPointsValid | orchestrator/vector_cache.py:86-97 | every built point's id is the one its payload determines |
| VectorCache.UpsertIsUnion | orchestrator/vector_cache.py:100-101 | upserting a batch equals overriding the store with the batch's own map |
| VectorCache.UpsertFrame | orchestrator/vector_cache.py:100-101 | after an upsert the ids are the old ids plus the batch ids, and points whose ids are not in the batch are unchanged |
| VectorCache.UpsertIdempotent | orchestrator/vector_cache.py:100-101 | upserting the same batch twice has the effect of upserting it once |
| VectorCache.UpsertStoresAll | orchestrator/vector_cache.py:100-101 | after an upsert of distinct-id points, each point is stored under its id |
| VectorCache.UpsertKeepsValid | orchestrator/vector_cache.py:100-101 | a store whose ids agree with their payloads keeps that property after upserting such points |
| VectorCache.FreshInSeconds | orchestrator/vector_cache.py:68-73 | a url is fresh exactly when its first payload has a fetch time and fewer than `ttl * 86400` seconds have passed since it; with no payload or no time it is not fresh |
| VectorCache.JustFetchedIsFresh | orchestrator/vector_cache.py:72 | a page fetched at the current time is fresh for any positive TTL |
| VectorCache.FreshEarlier | orchestrator/vector_cache.py:72 | freshness at a later time implies freshness at an earlier time |
| VectorCache.HitsShape | orchestrator/vector_cache.py:110-123 | one record per store hit, in order, with id `V1`, `V2`, ...; the url and score of the hit; a snippet of the first 280 characters of the stored text; its full length; and status `from_vector_cache` |
| VectorCache.HitIdsDistinct | orchestrator/vector_cache.py:114 | hit ids are pairwise distinct |
| VectorCache.HitsOnError | orchestrator/vector_cache.py:124-126 | a failed search yields no hits |
| VectorCache.WebCache.constructor | orchestrator/vector_cache.py:20-28 | a fresh collection is empty and valid |
| VectorCache.WebCache.FirstFor | orchestrator/vector_cache.py:60-69 | the scroll with limit 1 returns no payload exactly when no point has that url, and otherwise the payload of some point with that url |
| VectorCache.WebCache.IsFresh | orchestrator/vector_cache.py:58-73 | the answer is the freshness test on the payload the scroll returned |
| VectorCache.WebCache.CachePage | orchestrator/vector_cache.py:76-101 | a fresh url leaves the store unchanged. Otherwise, if some chunk fails to encode, the store is unchanged. Otherwise the page's points are upserted and counted. The store stays valid |
| VectorCache.WebCache.VectorSearch | orchestrator/vector_cache.py:104-126 | the result is the hit records of the store's nearest-neighbour answer for the encoded query, and empty when encoding or search fails |
| Search.SimpleQueries | orchestrator/search.py:32 | `max(1, n)` copies of the base query |
| Search.LongWordsShape | orchestrator/search.py:28 | kept words come from the list and are longer than 3 characters |
| Search.QueryWordsShape | orchestrator/search.py:28 | at most 10 query words, each longer than 3 characters, non-empty, without whitespace and without upper case |
| Search.BaseQueryWords | orchestrator/search.py:28-31 | the base query's words are exactly the kept words, and when none are kept the base query is the first 200 characters of the claim |
| Search.BaseQueryBounds | orchestrator/search.py:28-29 | a non-empty base query has at most 10 lower-case words of more than 3 characters |
| Search.MarkerAtStart | orchestrator/search.py:12-14 | with the marker at the start, the claim is taken from the stripped rest of the prompt |
| Search.SectionQuoted | orchestrator/search.py:16-20 | a section opening with a non-empty quoted text gives that text as the claim |
| Search.QuotedClaim | orchestrator/search.py:12-20 | `CLAIM TO EVALUATE:` followed by whitespace and a non-empty quoted text gives that text as the claim |
| Search.MoonExample | tests/test_server.py:30-33 | the Moon prompt with n = 3 gives `['moon made cheese delicious'] * 3` |
| Search.DropMarker | orchestrator/search.py:55 | the result is the suffix left after removing exactly the leading run of digits, dashes, dots and whitespace: every removed character is one of them and the result does not start with one |
| Search.ListLine | orchestrator/search.py:53-57 | a line made of a marker that starts with a digit or `-`, followed by a text with no leading marker character and no trailing whitespace, contributes exactly that text |
| Search.QueryOfLineShape | orchestrator/search.py:53-57 | a query taken from a line is non-empty, has no whitespace at either end, contains no newline and does not start with a list marker |
| Search.QueryLinesShape | orchestrator/search.py:51-57 | every query extracted from the lines has that shape |
| Search.ParseQueryLines | orchestrator/search.py:51-57 | the line loop collects exactly the queries of the list-marked lines, in order |
| Search.FallbackQueries | orchestrator/search.py:61 | without both tags the result is the fallback queries and the prompt itself as the claim, with at least one query |
| Search.StructuredShape | orchestrator/search.py:44-59 | with both tags there are at most `N_QUERIES` queries, each of that shape, and the claim is the stripped text after the first `CLAIM:` |
| Search.StructuredBlock | orchestrator/search.py:44-59 | a `QUERIES:` block of lines, whose text has no `CLAIM:`, followed by `CLAIM:` and a claim parses to the queries of those lines, capped, and that claim |
| Search.BlockFindClaim | orchestrator/search.py:46 | when the body has no `CLAIM:`, `find` locates the block's own `CLAIM:` tag |
| Search.StructuredExample | tests/test_server.py:16-27 | the structured test prompt gives `['first query', 'second query']` and `'This is the claim'` |
| Search.NumberPromptRaises | orchestrator/search.py:38-39 | as written, the prompt `42` raises, because `"queries" in 42` is a type error |
| Search.AsWrittenAgrees | orchestrator/search.py:37-42 | the code as written raises exactly for a non-object JSON value on which `in` fails or finds `"queries"`; otherwise it returns what the corrected parser returns |
| Search.NonObjectIsText | orchestrator/search.py:37-61 | unless the prompt is a JSON object with `queries`, the text parsing decides |
| Search.JsonObjectQueries | orchestrator/search.py:39-40 | a JSON object gives its first `N_QUERIES` queries, and its claim, or the prompt when it has none |
| Search.JsonExample | tests/test_server.py:8-13 | the JSON test with a cap of 2 gives `['q1', 'q2']` and `'some claim'` |
| Search.ParseQueriesFromPrompt | orchestrator/search.py:35-61 | the method computes the corrected parser's queries and claim |
| Search.ParseText | orchestrator/search.py:44-61 | the text branch computes the structured or fallback result |
| Search.LinksOfShape | orchestrator/search.py:95-106 | a successful mapping has one link per result, each the mapping of that result |
| Search.LinksOfFail | orchestrator/search.py:95-107 | one result whose field cannot be stripped makes the whole answer fail |
| Search.TopLinksShape | orchestrator/search.py:95-107 | at most k links. Each link carries the query, and its title, url and snippet are stripped. Any links there are come from a non-HTML reply and are the mappings of its first k results |
| Search.TopLinksAll | orchestrator/search.py:95-107 | a non-HTML reply whose first k results all map gives exactly k links (or all of them when fewer), each the mapping of its result, in reply order |
| Search.HtmlOrErrorGivesNothing | orchestrator/search.py:84-117 | an HTML reply, with bot detection, gives no links, and so does a failed request |
| Search.UnparsableUrlGivesNothing | orchestrator/search.py:103-117 | a url among the first k results that `urlparse` rejects makes the whole query give no links |
| Search.SearxTopLinks | orchestrator/search.py:64-117 | the mapping loop computes the link list of the reply |
| Server.RStripChar | orchestrator/server.py:122 | `rstrip('/')` gives a prefix that does not end in `/`, and everything it removed is `/` |
| Server.NormalizeUrlShape | orchestrator/server.py:122 | the normalised url is a prefix of the url, has no `#`, does not end in `/`, and normalising it again changes nothing |
| Server.NormalizeUrlIgnoresFragment | orchestrator/server.py:122 | a fragment and a trailing slash do not change the normalised url |
| Server.LastContentStep | orchestrator/server.py:23-34 | one more tag overwrites a field exactly when it classifies as that field |
| Server.LastContentWins | orchestrator/server.py:23-34 | the value of a field is the content of the last tag that classifies as that field |
| Server.LastContentAbsent | orchestrator/server.py:19-34 | a field no tag classifies as stays empty |
| Server.LastContentFrom | orchestrator/server.py:23-34 | a non-empty field value is the content of some tag of that field |
| Server.AuthorTakesPrecedence | orchestrator/server.py:28-33 | a tag named `author` in any case counts as the author, whatever its property |
| Server.ExtractPageMetadata | orchestrator/server.py:14-45 | the tag loop computes the page title and the three fields, and unparsable markup gives the empty record |
| Server.FetchPageShape | orchestrator/server.py:58-91 | there is no metadata, and the text is empty, exactly when the request fails or the status is outside 2xx. On a 2xx response the text is the extractor's output when it has more than 200 characters and the generic text otherwise, cut to `PER_PAGE_CHARS`, and `content_length` is the untruncated length. The status and fetch time are those of the response |
| Server.FlattenShape | orchestrator/server.py:101-106 | the flat links are the per-query links concatenated in query order, `zip` stopping at the shorter list, each link tagged with the query it came from, so every tag is one of the queries |
| Server.FlattenTagsQuery | orchestrator/server.py:101-106 | when each search tags its links with its query, every flat link's source query equals its own query |
| Server.FlattenLinks | orchestrator/server.py:101-106 | the nested loop computes the flat list |
| Server.SearchQueries | orchestrator/server.py:98-99 | the search loop returns one link list per query, in query order, the i-th being the top links of the i-th query's reply (whose content `TopLinksShape` and `TopLinksAll` state) |
| Server.Advance | orchestrator/server.py:148-156 | a loop step adds one source with the next id and one block, and adds the block's length to the count used |
| Server.BudgetWithin | orchestrator/server.py:152-156 | the merged text never exceeds `TOTAL_CHARS` |
| Server.BudgetFull | orchestrator/server.py:152-153 | every block but the last is its full `[SOURCE n]` block |
| Server.BudgetLast | orchestrator/server.py:152-153 | the last block is its full block cut to the characters left |
| Server.BudgetBelow | orchestrator/server.py:158-159 | the loop only continues while the count used is below the budget |
| Server.BudgetStops | orchestrator/server.py:158-159 | if some successful pages are not used, the budget was reached |
| Server.AssembleCounts | orchestrator/server.py:119-159 | one block per source. Sources are the leading successful pages numbered from 1. `used_chars` is the length of the merged text and at most the budget |
| Server.AssembleBlocks | orchestrator/server.py:150-156 | each block is the full block of its source, except the last, which is cut to what was left |
| Server.AssembleStops | orchestrator/server.py:152-159 | pages are left out only once the budget is used up, and every block after the first was appended below the budget |
| Server.RunIsAssemble | orchestrator/server.py:119-159 | running the loop step over the pages gives the budget specification |
| Server.CacheStepOf | orchestrator/server.py:120-131 | the cache contract amounts to one step: unchanged when fresh or when encoding fails, otherwise an upsert |
| Server.CacheFetched | orchestrator/server.py:120-131 | a kept page is written to the cache under its normalised url, with the link's title or the page title, the url's site and the fetch time. When `urlparse` raises on the url, nothing is written |
| Server.CollectSources | orchestrator/server.py:119-159 | the loop gives the budget specification's sources, blocks and count. The cache sees one write per used page, in order, and nothing else |
| Server.FetchAndCollect | orchestrator/server.py:110-159 | with links, every flat link is paired with its own fetch result, in link order, and the pairs are collected by the budget loop; with no links, nothing is fetched or written |
| Server.NoLinksNoSources | orchestrator/server.py:110-114 | no pages give no sources, no text and a count of 0 |
| Server.UnseenMembers | orchestrator/server.py:165 | a hit is kept exactly when its key is not among the live sources' keys |
| Server.MergeByShape | orchestrator/server.py:164-165 | the merge starts with all live sources in order, followed only by hits. A hit is in it exactly when no live source has its key |
| Server.MergeDropsLivePages | orchestrator/server.py:164-165 | in the corrected merge, no kept hit has the same normalised url as a live source |
| Server.MergeSingle | orchestrator/server.py:164-165 | one source and one hit merge to the source alone when their keys agree, and to both otherwise |
| Server.TrailingSlashDuplicate | orchestrator/server.py:164-165 | as written, a live `u/` and its own cache hit `u` both stay; the corrected merge keeps only the live source |
| Server.ExampleDuplicate | orchestrator/server.py:164-165 | for `https://example.com/a/` the merge as written has 2 entries, the corrected one 1 |
| Server.InsertCount | orchestrator/server.py:166 | inserting keeps the same elements |
| Server.InsertDescending | orchestrator/server.py:166 | inserting into a descending list keeps it descending |
| Server.InsertStable | orchestrator/server.py:166 | inserting keeps the relative order of equal-score entries |
| Server.SortByScoreSpec | orchestrator/server.py:166 | the sort by score, descending, is in descending score, is a permutation, and is stable (the entries of each score keep their order) |
| Server.SortDescendingUnchanged | orchestrator/server.py:166 | sorting an already descending list changes nothing, so live sources of score 0 keep their order |
| Server.SortIdempotent | orchestrator/server.py:166 | sorting twice is sorting once |
| Server.SortedPrefix | orchestrator/server.py:171 | a prefix of a descending list is descending and drawn from it |
| Server.RespondShape | orchestrator/server.py:163-184 | for either dedup key (the raw urls, as written, or the normalised ones): `sources` has as many entries as live sources, in descending score, drawn from the merge. `source_count` is the live sources plus the kept hits. `character_count` is the length of `merged_text`. `total_results_found` is the number of links, and `num_queries` the number of queries |
| Server.TrailingSlashCount | orchestrator/server.py:164-172 | a live page `u/` with the hit `u` cached from it gives `source_count` 2 as written and 1 when corrected |
| Server.NoHitsKeepsSources | orchestrator/server.py:163-171 | for either key, with every hit deduplicated away, `sources` is the live sources exactly, in order |
| Server.BulkRetrieve | orchestrator/server.py:94-184 | the response is parse, then search, then flatten, then fetch, then the budget loop, then the cache search of the claim or the joined queries with `2 * TOP_K`, then merge and sort, with the corrected query parsing and merge. The cache receives exactly the writes of the used pages |

## Left out

- HTTP, SearxNG, Qdrant and the embedding model are parameters. The model does not cover
  headers, timeouts, redirects or request parameters. The `content-type` and
  `last-modified` header values are inputs of `PageResponse`, and the model passes them on
  unchanged to the fetch metadata and the source record.
- Concurrency: the two `asyncio.gather` calls are sequential maps. Their results come back
  in submission order.
- Clock: each page's fetch time is a field of its response (`PageResponse.fetchedAt`). The
  single parameter `now` stands for two different readings: the one `is_fresh` takes for
  each page, and the retrieval timestamp. ISO timestamps are integer seconds.
- `VectorCache.Fresh` does not model `fromisoformat` and time zones. Day counting is floor
  division of the seconds, like `timedelta.days`.
- Scores and vectors: float scores are integers, and a missing score is 0. Vectors are opaque.
- Unicode: `lower` only maps ASCII letters, and digits are only `0`-`9`. Whitespace is a
  fixed set of code points.
- DropMarker: removes only ASCII digits. The class `\d` in `re.sub` also matches every other
  Unicode decimal digit, so a line `- ٣ query` gives `query` in the source but `٣ query` here.
- QueryOfLine: tests the first character with an ASCII digit test. `str.isdigit` is also
  true for other digits, so a line `٣ query` is kept by the source and skipped here, and a
  line `²abc` is kept by the source as `²abc`.
- ParseQueryLines: inherits both digit gaps, because it computes `QueryLines`, which is
  built from `QueryOfLine`.
- `VectorCache.WebCache.FirstFor`: which point Qdrant's scroll returns first is left open. It
  is some point with that url.
- Stale chunks: like the source, the model deletes nothing. A shorter re-fetch leaves old
  chunks with higher indices in place.
- Exceptions: an encoding failure inside `cache_page` is the `EncodeFailed` outcome, which
  leaves the store unchanged. The `try` in `bulk_retrieve` swallows it, and the model does
  the same.
- Store errors: a `scroll` or `upsert` that raises inside `cache_page` is not modelled.
  `bulk_retrieve` swallows such an error too. The model's `CachePage` always reaches the
  store.
- `Search.ParseQueries`: JSON values of the wrong type inside the object, such as a
  non-list `queries` or a non-string claim, are not modelled. The object's `queries` and
  `claim` are already typed.
- `Search.TopLinks`: `engine` and `publishedDate` fall back to their defaults. A field that
  is not a string makes the whole answer fail and gives no links, and so does a url that
  `urlparse` rejects (`netloc` gives `None`). A reply that is neither
  HTML nor JSON must be given as `SearchFailed`, because `r.json()` raises a client error on
  it. A reply given as `SearchAnswered` with such a content type would still have its
  results mapped.
- BeautifulSoup and trafilatura are represented by their outputs:
  - the list of `<meta>` tags;
  - the title text;
  - the extracted text, or `None`;
  - the generic text.
- `Server.BulkRetrieve`: the list sort is specified by its result, a stable descending sort
  (`SortByScore`). Timsort itself is not modelled.
- Configuration: `TOP_K`, `PER_PAGE_CHARS`, `TOTAL_CHARS` and `N_QUERIES` are a `Config`
  parameter. The model does not read the environment or `config.py`.
- The MCP server wrapper and the GUI are not part of this model, and neither are file
  ingestion and argument normalisation.
- Logging to stderr is not modelled.
- Server.BulkRetrieve: it composes the corrected halves of the first two findings below,
  `Search.ParseQueries` and `Server.Merge`. As written, a prompt for which
  `Search.ParseAsWritten` raises ends `bulk_retrieve` with that exception. As written, the
  merge also keeps a live page's own cache hits. `Server.RespondAsWritten` and
  `Server.TrailingSlashCount` describe that response, and `Server.RespondShape` holds for
  both merges.

## Findings

| source | as written | input that shows it | evidently intended | confidence | as-written member | corrected member |
|---|---|---|---|---|---|---|
| orchestrator/server.py:164-165 | `seen` holds the raw urls of the live sources, but cache hits carry the normalised url (server.py:122), so a live page and the chunk just cached from it are not matched | a live source `https://example.com/a/` and the cache hit `https://example.com/a` written for it | compare normalised urls on both sides, so a live page's own cached chunks are dropped | not executed | Server.TrailingSlashDuplicate | Server.MergeDropsLivePages |
| orchestrator/search.py:37-42 | `json.loads` succeeds on a non-object, and `"queries" in data` then raises `TypeError`, which only `JSONDecodeError` is caught for | the prompt `42` | a prompt that is valid JSON but not an object falls through to text parsing | not executed | Search.NumberPromptRaises | Search.NonObjectIsText |
| orchestrator/vector_cache.py:49-54 | `i += size - overlap` never advances when `overlap >= size`, so `chunk_text` loops forever on any non-empty text | `chunk_text("x", size=100, overlap=100)` | `overlap` is required to be below `size`, so the loop ends within `len(txt)` rounds | not executed | VectorCache.NoProgressWithoutStep | VectorCache.StepReachesEnd |
