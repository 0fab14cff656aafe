# TikTok crawler core, modelled in Dafny

This project models the label-resolution and pagination logic of a small TikTok crawler, with the network taken away. Three entity classes take a caller's label and resolve it into the ids the service wants:

- a **hashtag** (challenge) resolves its name to a challenge id;
- a **place** resolves a challenge id to a POI id found in a probe page;
- a **video search** resolves a keyword to an odin id and a search id.

Each class then builds the query parameters of its listing endpoint and walks the pages of results. Pure helpers pull ids out of JSON-like payloads and URLs.

## Layout

| file | module | contents |
|---|---|---|
| outcomes.dfy | `Outcomes` | the exceptions the code raises, `Option`, `Result` |
| text.dfy | `Text` | Python's `in`, `str.find`, `str.split`, `str.join` and `str(int)` on `seq<char>` |
| json.dfy | `JsonValues` | Python values as decoded JSON: `Json` with dicts as ordered entry lists; `bool()`, `.get`, `[]`, `in`, iteration, `len`, key assignment, nested paths, `str()` |
| transport.dfy | `Transport` | `make_request` as an oracle: class `Api` answers from a fixed conversation and logs every request |
| hashtag.dfy | `HashtagApi` | class `Hashtag` and the functions it is proved against |
| place.dfy | `PlaceApi` | class `Place` (a `Hashtag` plus the POI listing) and the traversal lemmas |
| search_video.dfy | `SearchVideoApi` | class `SearchVideo` |
| helpers.dfy | `Helpers` | URL id extraction, the random choice, the cookie conversion, the web-search structure, the odin-id and log-id lookups |

## How the model works

**Objects and their fields.** An object whose fields the source mutates (`id`, `name`, `as_dict`, `odin_id`, `search_id`) is a Dafny class. Each of its methods has an `ensures` that ties the new fields, the result, the requests issued (`api.log`) and the conversation left (`api.pending`) to a pure function of the old state, for example `HashtagApi.InfoCall`, `PlaceApi.PlaceVideosCall` or `SearchVideoApi.InfoCall`. The source's promises are lemmas about those functions.

**Generators.** An async generator becomes a method that returns:

- the items it yields, in order;
- the exception that ends it, if any;
- the requests it issued, which are recorded in the log.

Items yielded before an exception are kept, because the source is not transactional. The `video(data=...)` factory is the identity on raw items.

**Missing attributes.** A Python attribute that may never have been assigned is an `Attr` value (`Unset | Set(v)`). `getattr(obj, name, None)` is `OrNone()`.

**Duplicate keys.** A dict lookup reads the last entry with the key, which is what `json.loads` keeps.

**Decoded answers.** The place loop is specified over the answers as it reads them: `PlaceApi.ReadPages` decodes each answer into a page (its items, `hasMore` and `cursor`) or the exception reading it raises. The traversal lemmas are stated over those decoded pages.

**An exhausted conversation.** When the conversation runs out, every further request is answered with `None`. This bounds the place loop without adding a cursor guard, which the source does not have.

## Model

| member | source | states |
|---|---|---|
| HashtagApi.Hashtag.constructor | TikTokApi/api/hashtag.py:42-45 | only the labels that are not None are assigned; nothing else is set |
| HashtagApi.Hashtag.Create | TikTokApi/api/hashtag.py:32-49 | the labels are assigned, then a given payload is stored in `as_dict` and extracted; the exception extraction raises is reported |
| HashtagApi.Hashtag.ExtractFromData | TikTokApi/api/hashtag.py:136-158 | the fields after extraction, the exception raised and whether the error is logged, equal to the reference `Extraction` of the old fields and payload |
| HashtagApi.Hashtag.Info | TikTokApi/api/hashtag.py:51-83 | the new fields, the result, the single detail request and the conversation left, as `InfoCall` of the old state |
| HashtagApi.Hashtag.ResolveId | TikTokApi/api/hashtag.py:104-105 | `info()` runs exactly when `id` is None or unset; otherwise nothing changes and nothing is requested |
| HashtagApi.Hashtag.Videos | TikTokApi/api/hashtag.py:85-128 | the yielded items, the exception, the requests and the new fields, as `VideosCall` of the old state |
| HashtagApi.Hashtag.ListPage | TikTokApi/api/hashtag.py:107-128 | with `id` known: one item_list request, a None answer raising InvalidResponse, then every element of `itemList` yielded in order, as `PageListing` |
| HashtagApi.Hashtag.ToString | TikTokApi/api/hashtag.py:163-164 | the text is `Describe` of the fields; `DescribeUnsetAsNone` proves that it shows `id` and `name` as `getattr(..., None)` would |
| HashtagApi.PageCursorStride | TikTokApi/api/hashtag.py:107 | page 1 gives cursor 0 and page 3 gives 60; each further page adds 30 |
| HashtagApi.VideosWithIdIssuesOneRequest | TikTokApi/api/hashtag.py:104-121 | with `id` set, there is exactly one request: item_list with `challengeID=id`, the caller's `count` and cursor `(page-1)*30`; the fields are unchanged |
| HashtagApi.VideosWithoutIdAsksInfoFirst | TikTokApi/api/hashtag.py:104-105 | without an `id`, the first request is the challenge detail lookup by name |
| HashtagApi.VideosYieldsThePage | TikTokApi/api/hashtag.py:104-128 | every element of the listing answer's `itemList` is yielded in order and a missing `itemList` yields nothing, both when `id` was known (the first answer) and when it was resolved first (the answer after the detail lookup) |
| HashtagApi.VideosIgnoresCount | TikTokApi/api/hashtag.py:126-128 | `count` is not enforced locally: a two-item page is yielded whole for `count=1` |
| HashtagApi.NoneAnswerRaises | TikTokApi/api/hashtag.py:77-124 | for any conversation: a None answer to the detail lookup raises InvalidResponse in `info`; a None first answer in `videos` (detail lookup or listing) raises it after one request with nothing yielded; a None answer to the listing after a successful resolution raises it after the resolution's requests and the one listing request |
| HashtagApi.InfoWithoutNameRaises | TikTokApi/api/hashtag.py:61-64 | without a truthy name, `info` issues no request and changes nothing; it raises TypeError for a falsy name and AttributeError for a name never assigned |
| HashtagApi.InfoStoresAnswer | TikTokApi/api/hashtag.py:71-83 | `info` always sends one detail request, stores the answer in `as_dict` and, on success, returns it unchanged |
| HashtagApi.ExtractTitle | TikTokApi/api/hashtag.py:140-142 | a top-level `title` sets `id := data["id"]` and `name := data["title"]`, and nothing else |
| HashtagApi.ExtractChallengeWins | TikTokApi/api/hashtag.py:144-147 | a `challengeInfo.challenge` entry overrides both labels, whatever the top level held |
| HashtagApi.ExtractNeitherKeepsLabels | TikTokApi/api/hashtag.py:140-158 | without `title` or `challengeInfo`, the fields are unchanged and the error is logged iff a label is missing |
| HashtagApi.ExtractLogsIffIncomplete | TikTokApi/api/hashtag.py:153-158 | a completed extraction logs iff `id` or `name` is still None; a failed one logs nothing |
| HashtagApi.ExtractPartialUpdate | TikTokApi/api/hashtag.py:146-147 | a challenge entry without `title` raises KeyError after `id` was already overwritten |
| HashtagApi.DescribeUnsetAsNone | TikTokApi/api/hashtag.py:164 | an `id` never assigned prints as an `id` equal to None, and likewise for `name` |
| PlaceApi.Place.constructor | TikTokApi/api/hashtag.py:42-45 | a Place starts with the same fields as a Hashtag built from the same labels |
| PlaceApi.Place.Info | TikTokApi/api/place.py:22-27 | exactly the Hashtag `info` |
| PlaceApi.Place.Videos | TikTokApi/api/place.py:29-99 | the yielded items, the exception, the requests and the new fields, as `PlaceVideosCall` of the old state |
| PlaceApi.Place.FromChallenge | TikTokApi/api/place.py:47-99 | from a known challenge id: the probe, the POI scan and the listing, as `PoiListing` |
| PlaceApi.Place.ToString | TikTokApi/api/place.py:104-105 | the text is `Describe` of the fields; `DescribeUnsetAsNone` proves that it shows `id` and `name` as `getattr(..., None)` would |
| PlaceApi.FindPoiId | TikTokApi/api/place.py:63-69 | the `for ... break` scan returns the reference `FirstPoiId` of the probed videos |
| PlaceApi.PoiIdOf | TikTokApi/api/place.py:66-68 | a video exposes a truthy POI id exactly when `poi.id` is present and truthy, and then it is that value; otherwise None; AttributeError exactly when the video is not a dict or its `poi` is truthy but not a dict |
| PlaceApi.YieldPage | TikTokApi/api/place.py:94-96 | one page appends all its items in order and adds their number to `found` |
| PlaceApi.NextPage | TikTokApi/api/place.py:84-92 | one listing request: the next answer is consumed, the request is logged, and the page returned is the next decoded answer |
| PlaceApi.Turn | TikTokApi/api/place.py:78-99 | one pass of the loop body: one request from the current cursor, logged and answered; the loop stops (returning or raising) or goes on from the answer's cursor exactly as one step of `Run` says |
| PlaceApi.ListPoi | TikTokApi/api/place.py:76-99 | the `while found < count` loop yields, raises, requests and consumes exactly what the accumulator form `Run` says of the decoded answers |
| PlaceApi.ReadPagesStep | TikTokApi/api/place.py:84-92 | decoding the conversation and then taking the first answer is decoding the first answer; dropping it leaves the decoding of the rest |
| PlaceApi.RunExtendsTraverse | TikTokApi/api/place.py:76-99 | over the same decoded answers, the loop's accumulator form equals the recursive reference `Traverse`, appended to what was already yielded and issued |
| PlaceApi.FirstPoiIdIsFirst | TikTokApi/api/place.py:63-72 | the POI id found is the first truthy `poi.id` in list order, and every earlier video exposes none; None is found iff no video exposes one; an error comes from the first video that raises |
| PlaceApi.TraverseFollowsCursors | TikTokApi/api/place.py:77-99 | there is no request iff `found >= count`; request `i` uses `poiId`, `count=30` and the caller's cursor for `i = 0`, then the previous answer's `cursor` |
| PlaceApi.TraverseChecksCount | TikTokApi/api/place.py:77 | each listing request is sent while fewer than `count` items were yielded |
| PlaceApi.TraverseFollowsHasMore | TikTokApi/api/place.py:97-98 | a further page is requested only after an answer whose `hasMore` is true |
| PlaceApi.TraverseYieldsPages | TikTokApi/api/place.py:94-98 | without an exception, the items yielded are the pages of all the answers read, whole and in order |
| PlaceApi.TraverseRaisesAtLastAnswer | TikTokApi/api/place.py:91-96 | an exception comes from the last answer read, after the pages of all the earlier answers were yielded |
| PlaceApi.TraverseStopsCleanly | TikTokApi/api/place.py:77-98 | a traversal without exception that sent a request ends on an answer whose `hasMore` is false, or once `count` items were found |
| PlaceApi.StuckTraversal | TikTokApi/api/place.py:77-99 | decoded pages with no items, `hasMore` and the same cursor: the same request is sent once per page and once more, and the exhausted conversation raises InvalidResponse |
| PlaceApi.RepeatedCursorNeverStops | TikTokApi/api/place.py:77-99 | there is no repeated-cursor guard: empty pages with `hasMore` and the same cursor use up the whole conversation |
| PlaceApi.TwoPageListing | TikTokApi/api/place.py:77-99 | two chained pages: the second request carries the first answer's cursor, and all three items are yielded |
| PlaceApi.ProbeIsFixed | TikTokApi/api/place.py:47-51 | the probe asks for `challengeID=id`, `count=5`, `cursor=30`, whatever the caller passed |
| PlaceApi.EmptyProbeRaises | TikTokApi/api/place.py:60-61 | a None probe answer, or one with a missing or empty `itemList`, raises InvalidResponse; only the probe is sent and nothing is yielded |
| PlaceApi.NoPoiRaises | TikTokApi/api/place.py:71-72 | with no video exposing a POI id, the exception is raised, nothing is yielded and `id` is kept |
| PlaceApi.IdBecomesPoiId | TikTokApi/api/place.py:44-74 | after a listing, `id` is the truthy POI id, the other fields are unchanged, and the first listing uses it; a later call skips `info` and probes with that POI id |
| PlaceApi.ListingOverwritesId | TikTokApi/api/place.py:63-74 | whatever `count` is, a probe exposing a POI id sets `id` to the first one and leaves the other fields as resolution left them; a later `videos` skips `info` |
| PlaceApi.KnownIdProbesFirst | TikTokApi/api/place.py:44-53 | with `id` known, the first request is the probe, without an `info` lookup |
| SearchVideoApi.SearchVideo.constructor | TikTokApi/api/searchVideo.py:25-28 | the fields are the reference `Construction` of keyword and data |
| SearchVideoApi.SearchVideo.Create | TikTokApi/api/searchVideo.py:22-28 | an object is built iff the keyword is non-empty; otherwise the TypeError is reported |
| SearchVideoApi.SearchVideo.Info | TikTokApi/api/searchVideo.py:39-71 | the new ids, the result, the requests, the conversation left and the search-page fetches, as `InfoCall` of the old state |
| SearchVideoApi.SearchVideo.Videos | TikTokApi/api/searchVideo.py:73-109 | the yielded items, the exception, the one request and the conversation left, as `VideosCall` |
| SearchVideoApi.SearchVideo.ToRepr | TikTokApi/api/searchVideo.py:111-113 | `repr(obj)` of the current fields |
| SearchVideoApi.ConstructionFields | TikTokApi/api/searchVideo.py:23-28 | the constructor raises TypeError iff the keyword is empty; otherwise both ids are None and `as_dict` is `data or {}` |
| SearchVideoApi.InfoFetchesOnlyWhatIsMissing | TikTokApi/api/searchVideo.py:40-61 | the odin id is fetched iff it is falsy and kept otherwise; the search endpoint is asked at most once, only when `search_id` is falsy, at offset 0, with the odin id held |
| SearchVideoApi.InfoReturnsThePair | TikTokApi/api/searchVideo.py:68-71 | a successful `info` returns a dict with exactly the keys `odin_id` and `search_id`, both truthy |
| SearchVideoApi.SecondInfoIsCached | TikTokApi/api/searchVideo.py:40-61 | after a successful `info`, another one fetches nothing, sends nothing and returns the same pair |
| SearchVideoApi.InfoKeepsOdinIdOnFailure | TikTokApi/api/searchVideo.py:40-61 | a fetched odin id stays when the search-id lookup then fails |
| SearchVideoApi.VideosCall | TikTokApi/api/searchVideo.py:77-98 | `videos` sends exactly one request, the item search built from the fields and the caller's offset, whatever the answer |
| SearchVideoApi.VideosRequestPassesThrough | TikTokApi/api/searchVideo.py:77-98 | one request with exactly five parameters: the caller's offset, the cached ids, and a search structure that holds the keyword at its path |
| SearchVideoApi.VideosYieldsItemList | TikTokApi/api/searchVideo.py:100-109 | a None answer raises InvalidResponse with nothing yielded; otherwise the elements of `item_list` are yielded in order, and none when the key is absent |
| SearchVideoApi.VideosUsesInfoIds | TikTokApi/api/searchVideo.py:68-84 | after `info`, `videos` sends the very ids `info` returned |
| SearchVideoApi.ReprCountsItems | TikTokApi/api/searchVideo.py:112-113 | `items` is the length of `as_dict["item_list"]`; it is 0 when that key is absent or `as_dict` is empty |
| SearchVideoApi.ReprTextShowsCount | TikTokApi/api/searchVideo.py:113 | the digits after `items=` read back as the count |
| Helpers.VideoIdFromUrl | TikTokApi/helpers.py:16-22 | TypeError iff the URL lacks `@` or `/video/`; an id found never contains `?` |
| Helpers.VideoIdShape | TikTokApi/helpers.py:16-22 | TypeError iff the URL lacks `@` or `/video/`; otherwise the id is the start of what follows the first `/video/`, ending at the first `/video/` or `?` that follows (or at the end), and it contains neither |
| Helpers.CutShape | TikTokApi/helpers.py:17 | the double split is a prefix that ends at the end of the text or at a `/video/` or `?`, with no `?` and no `/video/` starting inside it, so the cut is at the first of them |
| Helpers.RandomChoice | TikTokApi/helpers.py:25-29 | None iff the list is None or empty; otherwise a member of the list |
| Helpers.ToPlaywrightCookie | TikTokApi/helpers.py:31-41 | the keys are `name`, `value`, `domain`, `path`, `secure`, each copied, then `expires` iff the cookie's `expires` is truthy |
| Helpers.WebSearchParams | TikTokApi/helpers.py:55-67 | the structure built holds the keyword at `tiktok.client_params_x.search_engine.keyword` |
| Helpers.WebSearchHoldsKeyword | TikTokApi/helpers.py:67 | the nested assignment never raises, and the structure sent is exactly what it produces |
| Helpers.WebSearchOnlyKeywordVaries | TikTokApi/helpers.py:55-67 | the structures for two keywords differ only at the keyword path |
| Helpers.WebSearchStructure | TikTokApi/helpers.py:55-67 | the whole structure: the two engine flags set to 1, the keyword, and an empty `search_server` |
| Helpers.WebSearchBaseShape | TikTokApi/helpers.py:55-67 | every level on the keyword path exists and is a dict, so the assignment succeeds for every keyword |
| Helpers.SearchSite.Fetch | TikTokApi/helpers.py:74-79 | the search page is served and the keyword asked for is recorded |
| Helpers.OdinIdLookup | TikTokApi/helpers.py:89-93 | only a truthy odin id is returned |
| Helpers.OdinIdFollowsPath | TikTokApi/helpers.py:89-96 | success iff `__DEFAULT_SCOPE__`, `webapp.app-context`, `odinId` all exist and the value is truthy, and then that value is returned; a missing level or a falsy value ends in "not found", and AttributeError is raised exactly when a level present on the path is not a dict |
| Helpers.FetchOdinId | TikTokApi/helpers.py:77-96 | a status other than 200 raises; for a decoded script the result is the odin-id lookup; success gives a truthy id |
| Helpers.FetchOdinIdFrom | TikTokApi/helpers.py:73-96 | one fetch for the keyword, then `FetchOdinId` of the page served |
| Helpers.FetchLogid | TikTokApi/helpers.py:101-104 | only a truthy log id is returned |
| Helpers.LogidFollowsPath | TikTokApi/helpers.py:101-104 | success iff `extra.logid` exists and is truthy, and then it is returned; a None answer raises AttributeError; AttributeError is raised exactly when the answer or a present `extra` is not a dict, and a missing or falsy level otherwise ends in "not found" |
| Transport.Api.MakeRequest | TikTokApi/api/hashtag.py:71-76 | the next answer of the conversation is returned, the conversation advances by one, and the request is logged |
| Text.Split | TikTokApi/helpers.py:17 | `str.split` gives at least one part; the parts joined by the separator give back the text; no part contains the separator; there are two or more parts iff the separator occurs |
| Text.SplitTail | TikTokApi/helpers.py:17 | `split(...)[1]` is the first part of what follows the first separator |
| Text.DecimalRoundTrip | TikTokApi/api/searchVideo.py:113 | `str(n)` is a non-empty run of decimal digits that reads back as `n` |
| JsonValues.LookupFindsLast | TikTokApi/helpers.py:89-91 | a key is found iff some entry carries it, and the value found is the last such entry's |
| JsonValues.Get | TikTokApi/api/hashtag.py:126 | `.get` raises AttributeError iff the value is not a dict; it returns the stored value or the default |
| JsonValues.Subscript | TikTokApi/api/hashtag.py:141 | `d[key]` succeeds iff the key is present; otherwise KeyError on a dict and TypeError on anything else |
| JsonValues.IterGet | TikTokApi/api/searchVideo.py:106 | iterating `j.get(key, [])` needs a dict, and a missing key iterates nothing |
| JsonValues.SetKey | TikTokApi/helpers.py:67 | after `d[key] = v`, `key` reads `v` and every other key reads as before |
| JsonValues.LookupAfterSetPath | TikTokApi/helpers.py:67 | after a nested assignment, reading the same path gives the assigned value |
| JsonValues.SetPathTwice | TikTokApi/helpers.py:67 | assigning the same nested path twice is assigning it once with the last value |

## Left out

- The network and the `TikTokApi` parent:
  - `make_request`, the session pool and request headers are not part of this model; `make_request` is the oracle `Transport.Api`, and the `headers` and `session_index` keyword arguments are not modelled.
  - The `requests.head` redirect in `extract_video_id_from_url` is left out; the URL given is taken to be the resolved one.
  - The aiohttp fetch in `fetch_odin_id` becomes the `SearchSite` parameter. It serves a `SearchPage` holding the HTTP status and what the rehydration script holds: no script, text `json.loads` rejects, or the decoded value.
- The text steps that the model stands in for:
  - the HTML regular expression and `json.loads` (through `Rehydration`);
  - the exact bytes of `json.dumps` and `urllib.parse.quote` in `generate_web_search_code`. The model keeps the nested structure before serialisation, so `web_search_code` in a request is that structure, not the encoded string.
  - the URL-encoded `full_url` that `SearchVideo.videos` prints.
- Side effects:
  - `print` and logging output: an extraction's `logger.error` call is the `logged` flag;
  - async scheduling and generator suspension: a generator is consumed to the end.
- `random.choice` is a nondeterministic choice (`:|`) of a list member; no distribution is modelled.
- `load_json` (file I/O) and server/api.py (the HTTP front end and browser sessions) are not part of this model.
- Python values: floats, string escaping in `repr`, and exception messages are not modelled. Exceptions are told apart by kind only (`Outcomes.Error`); the generic `Exception`s of the source get one kind each.
- `generate_web_search_code` mutates a nested dict in place; the model computes the same result as a value (`JsonValues.SetPath`).
- `Hashtag.info` when `name` was never assigned: the code reads `self.name`, which raises AttributeError before the TypeError check is reached, and the model follows the code. It raises TypeError only for a name that was assigned a falsy value.
- Default arguments: `count=30`, `page=1` (hashtag), `cursor=0` (place) and `offset=0` (search) are ordinary parameters of the model; a call that omits them is the call with those values.
- JsonValues.Iterate, JsonValues.Len, JsonValues.Repr: on a dict that repeats a key they count and show every entry, while a lookup reads only the last; payloads decoded by `json.loads` never repeat a key, and the model does not state that restriction.
- Inheritance: Python's `Place` inherits from `Hashtag`; the model's `Place` holds a `Hashtag` (`tag`) and reuses its methods.
- `Hashtag.videos` reads `resp.get("cursor")` only to print it, so that read is not modelled.
