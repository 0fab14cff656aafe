/**
 * A TikTok place: resolved like a hashtag to a challenge id, then to a POI id found in one probe
 * page of the challenge listing, and finally listed through the POI item-list endpoint, page after
 * page, following the cursor the service returns.
 */
module PlaceApi {
  import opened Outcomes
  import opened JsonValues
  import opened Transport
  import opened HashtagApi

  function ProbeRequest(challengeId: Json): Request {
    Request(ChallengeItemListUrl, map["challengeID" := challengeId, "count" := Int(5), "cursor" := Int(30)])
  }

  function ListingRequest(poiId: Json, cursor: Json): Request {
    Request(PoiItemListUrl, map["poiId" := poiId, "count" := Int(30), "cursor" := cursor])
  }

  /** The probe check: None, or a missing or empty `itemList`, raises InvalidResponse. */
  function ProbedVideos(resp: Json): Result<seq<Json>> {
    if resp == Null then Err(InvalidResponse)
    else
      var list :- Get(resp, "itemList", Null);
      if !Truthy(list) then Err(InvalidResponse) else Iterate(list)
  }

  /** The POI id one video exposes: `poi.id` when `poi` and its `id` are both truthy, otherwise None. */
  function PoiIdOf(video: Json): (r: Result<Json>)
    ensures r.Ok? ==> r.value == Null || Truthy(r.value)
    ensures r.Err? <==>
      || !video.Obj?
      || (HasKey(video, "poi") && Truthy(Lookup(video.fields, "poi").value) && !Lookup(video.fields, "poi").value.Obj?)
    ensures r.Err? ==> r.error == AttributeError
    ensures r.Ok? && Truthy(r.value) <==>
      LookupPath(video, ["poi", "id"]).Some? && Truthy(LookupPath(video, ["poi", "id"]).value)
    ensures r.Ok? && Truthy(r.value) ==> r.value == LookupPath(video, ["poi", "id"]).value
  {
    var poi :- Get(video, "poi", EmptyDict);
    if !Truthy(poi) then Ok(Null)
    else
      var id :- Get(poi, "id", Null);
      Ok(if Truthy(id) then id else Null)
  }

  /** The first POI id in list order; None when no video exposes one. */
  function FirstPoiId(videos: seq<Json>): Result<Json>
    decreases |videos|
  {
    if videos == [] then Ok(Null)
    else
      var id :- PoiIdOf(videos[0]);
      if Truthy(id) then Ok(id) else FirstPoiId(videos[1..])
  }

  /** What one listing answer carries, as the loop reads it. */
  datatype Page = Page(items: seq<Json>, hasMore: bool, next: Json)

  function ReadPage(resp: Json): Result<Page> {
    if resp == Null then Err(InvalidResponse)
    else
      var items :- IterGet(resp, "itemList");
      var hasMore := Get(resp, "hasMore", Bool(false)).value;
      var next := Get(resp, "cursor", Null).value;
      Ok(Page(items, Truthy(hasMore), next))
  }

  /** The raw items a traversal yielded, the requests it issued, and the exception ending it. */
  datatype Traversal = Traversal(yielded: seq<Json>, requests: seq<Request>, error: Option<Error>)

  /** The answers of a conversation as the loop reads them, one decoded page (or exception) each. */
  function ReadPages(responses: seq<Json>): (pages: seq<Result<Page>>)
    ensures |pages| == |responses|
  {
    if responses == [] then [] else [ReadPage(responses[0])] + ReadPages(responses[1..])
  }

  /** The `k`-th decoded answer; an exhausted conversation answers None, which raises InvalidResponse. */
  function PageAt(pages: seq<Result<Page>>, k: nat): (r: Result<Page>)
    ensures r.Ok? ==> k < |pages|
  {
    if k < |pages| then pages[k] else Err(InvalidResponse)
  }

  /** The decoded answers after the first one. */
  function Rest(pages: seq<Result<Page>>): (r: seq<Result<Page>>)
    ensures pages != [] ==> |r| == |pages| - 1
  {
    if pages == [] then [] else pages[1..]
  }

  /**
   * The `while found < count` loop from `cursor`, `found` items already yielded, over the decoded
   * answers `pages`. There is no guard against a repeated cursor: only `found` and `hasMore` stop it.
   */
  function Traverse(poiId: Json, count: int, cursor: Json, found: int, pages: seq<Result<Page>>): Traversal
    decreases |pages|
  {
    if found >= count then Traversal([], [], None)
    else
      var req := ListingRequest(poiId, cursor);
      match PageAt(pages, 0)
      case Err(e) => Traversal([], [req], Some(e))
      case Ok(page) =>
        if !page.hasMore then Traversal(page.items, [req], None)
        else
          var rest := Traverse(poiId, count, page.next, found + |page.items|, Rest(pages));
          Traversal(page.items + rest.yielded, [req] + rest.requests, rest.error)
  }

  /** From a known challenge id: the probe, the POI scan and the listing, answered by `responses`. */
  function PoiListing(st: TagState, count: int, cursor: Json, responses: seq<Json>): Listing
    requires st.id.Set?
  {
    var reqs := [ProbeRequest(st.id.value)];
    match ProbedVideos(At(responses, 0))
    case Err(e) => Listing(st, [], reqs, Some(e))
    case Ok(videos) =>
      match FirstPoiId(videos)
      case Err(e) => Listing(st, [], reqs, Some(e))
      case Ok(poiId) =>
        if !Truthy(poiId) then Listing(st, [], reqs, Some(PoiIdNotFound))
        else
          var t := Run(poiId, count, cursor, 0, ReadPages(Drop(responses, 1)), [], []);
          Listing(st.(id := Set(poiId)), t.yielded, reqs + t.requests, t.error)
  }

  /** The rest of a place's `videos` once resolution `pre` has run on the conversation `responses`. */
  function PlaceAfterResolve(pre: Called, count: int, cursor: Json, responses: seq<Json>): Listing {
    if pre.result.Err? then Listing(pre.state, [], pre.requests, Some(pre.result.error))
    else if pre.state.id.Unset? then Listing(pre.state, [], pre.requests, Some(AttributeError))
    else
      var l := PoiListing(pre.state, count, cursor, Drop(responses, |pre.requests|));
      Listing(l.state, l.yielded, pre.requests + l.requests, l.error)
  }

  /** `videos(count, cursor, ms_token=msToken)` consumed to the end. */
  function PlaceVideosCall(st: TagState, count: int, cursor: Json, msToken: Json, responses: seq<Json>): Listing {
    PlaceAfterResolve(Resolve(st, msToken, responses), count, cursor, responses)
  }

  /** Once resolution has set the id, a place's `videos` is resolution followed by the POI listing. */
  lemma PlaceVideosCallSplits(st: TagState, count: int, cursor: Json, msToken: Json, responses: seq<Json>, pre: Called, l: Listing)
    requires pre == Resolve(st, msToken, responses) && pre.result.Ok? && pre.state.id.Set?
    requires l == PoiListing(pre.state, count, cursor, Drop(responses, |pre.requests|))
    ensures PlaceVideosCall(st, count, cursor, msToken, responses) == Listing(l.state, l.yielded, pre.requests + l.requests, l.error)
  {
  }

  /** A failed resolution, or one that leaves `id` unset, ends a place's `videos` with nothing yielded. */
  lemma PlaceVideosCallStops(st: TagState, count: int, cursor: Json, msToken: Json, responses: seq<Json>, pre: Called)
    requires pre == Resolve(st, msToken, responses)
    ensures pre.result.Err? ==>
      PlaceVideosCall(st, count, cursor, msToken, responses) == Listing(pre.state, [], pre.requests, Some(pre.result.error))
    ensures pre.result.Ok? && pre.state.id.Unset? ==>
      PlaceVideosCall(st, count, cursor, msToken, responses) == Listing(pre.state, [], pre.requests, Some(AttributeError))
  {
  }

  /** The scan of the probed videos, `for ... break` as the source writes it. */
  method FindPoiId(videos: seq<Json>) returns (r: Result<Json>)
    ensures r == FirstPoiId(videos)
  {
    var poiId := Null;
    for k := 0 to |videos|
      invariant poiId == Null
      invariant FirstPoiId(videos) == FirstPoiId(videos[k..])
    {
      assert videos[k..][1..] == videos[k + 1..];
      var poi := Get(videos[k], "poi", EmptyDict);
      if poi.Err? {
        return Err(poi.error);
      }
      if Truthy(poi.value) {
        var id := Get(poi.value, "id", Null);
        if id.Err? {
          return Err(id.error);
        }
        if Truthy(id.value) {
          poiId := id.value;
          break;
        }
      }
    }
    return Ok(poiId);
  }

  /** One page's `for video in ...: yield video; found += 1`. */
  method YieldPage(yielded: seq<Json>, found: int, items: seq<Json>) returns (yielded': seq<Json>, found': int)
    ensures yielded' == yielded + items && found' == found + |items|
  {
    yielded', found' := yielded, found;
    for k := 0 to |items|
      invariant yielded' == yielded + items[..k] && found' == found + k
    {
      yielded' := yielded' + [items[k]];
      found' := found' + 1;
    }
    assert items[..|items|] == items;
  }

  /**
   * The loop's running form of `Traverse`: the items yielded and the requests issued so far are
   * carried along, as the loop's variables carry them.
   */
  function Run(poiId: Json, count: int, cursor: Json, found: int, pages: seq<Result<Page>>, yielded: seq<Json>, issued: seq<Request>): Traversal
    decreases |pages|
  {
    if found >= count then Traversal(yielded, issued, None)
    else
      var req := ListingRequest(poiId, cursor);
      match PageAt(pages, 0)
      case Err(e) => Traversal(yielded, issued + [req], Some(e))
      case Ok(page) =>
        if !page.hasMore then Traversal(yielded + page.items, issued + [req], None)
        else Run(poiId, count, page.next, found + |page.items|, Rest(pages), yielded + page.items, issued + [req])
  }

  /** Reading the first answer and dropping it commutes with decoding the conversation. */
  lemma ReadPagesStep(responses: seq<Json>)
    ensures PageAt(ReadPages(responses), 0) == ReadPage(At(responses, 0))
    ensures ReadPages(Drop(responses, 1)) == Rest(ReadPages(responses))
  {
    if responses != [] {
      assert ReadPages(responses) == [ReadPage(responses[0])] + ReadPages(responses[1..]);
    }
  }

  /** The running form is the reference traversal, after what was yielded and issued so far. */
  lemma {:induction false} RunExtendsTraverse(poiId: Json, count: int, cursor: Json, found: int, pages: seq<Result<Page>>, yielded: seq<Json>, issued: seq<Request>)
    ensures var t := Traverse(poiId, count, cursor, found, pages);
      Run(poiId, count, cursor, found, pages, yielded, issued) == Traversal(yielded + t.yielded, issued + t.requests, t.error)
    decreases |pages|
  {
    if found < count {
      var req := ListingRequest(poiId, cursor);
      match PageAt(pages, 0)
      case Err(e) =>
      case Ok(page) =>
        if page.hasMore {
          var rest := Traverse(poiId, count, page.next, found + |page.items|, Rest(pages));
          RunExtendsTraverse(poiId, count, page.next, found + |page.items|, Rest(pages), yielded + page.items, issued + [req]);
          AppendAssoc(yielded, page.items, rest.yielded);
          AppendAssoc(issued, [req], rest.requests);
        }
    } else {
      assert yielded + [] == yielded && issued + [] == issued;
    }
  }

  /** One turn of the loop, decided by the decoded answer `page` to its request. */
  lemma RunTurn(poiId: Json, count: int, cursor: Json, found: int, pages: seq<Result<Page>>, yielded: seq<Json>, issued: seq<Request>, page: Result<Page>)
    requires found < count && page == PageAt(pages, 0)
    ensures page.Err? ==>
      Run(poiId, count, cursor, found, pages, yielded, issued) == Traversal(yielded, issued + [ListingRequest(poiId, cursor)], Some(page.error))
    ensures page.Ok? && !page.value.hasMore ==>
      Run(poiId, count, cursor, found, pages, yielded, issued) == Traversal(yielded + page.value.items, issued + [ListingRequest(poiId, cursor)], None)
    ensures page.Ok? && page.value.hasMore ==>
      Run(poiId, count, cursor, found, pages, yielded, issued)
        == Run(poiId, count, page.value.next, found + |page.value.items|, Rest(pages), yielded + page.value.items, issued + [ListingRequest(poiId, cursor)])
  {
  }

  /** One listing request and its answer, decoded as the loop reads it. */
  method NextPage(api: Api, req: Request, ghost pages: seq<Result<Page>>, ghost start: seq<Json>, ghost logStart: seq<Request>, ghost issued: seq<Request>)
      returns (page: Result<Page>)
    requires pages == ReadPages(api.pending)
    requires api.pending == Drop(start, |issued|) && api.log == logStart + issued
    modifies api
    ensures page == PageAt(pages, 0)
    ensures ReadPages(api.pending) == Rest(pages)
    ensures api.log == logStart + (issued + [req])
    ensures api.pending == Drop(start, |issued + [req]|)
  {
    ReadPagesStep(api.pending);
    var resp := api.MakeRequest(req);
    page := ReadPage(resp);
    DropDrop(start, |issued|, 1);
    AppendAssoc(logStart, issued, [req]);
  }

  /**
   * One turn of the loop: the request from `next`, its answer, and the items it yields; `stop`
   * says whether the loop ends here, returning or raising `err`.
   */
  method Turn(api: Api, poiId: Json, count: int, next: Json, found: int, yielded: seq<Json>,
              ghost pages: seq<Result<Page>>, ghost start: seq<Json>, ghost logStart: seq<Request>, ghost issued: seq<Request>)
      returns (stop: bool, err: Option<Error>, yielded': seq<Json>, found': int, next': Json)
    requires found < count
    requires pages == ReadPages(api.pending)
    requires api.pending == Drop(start, |issued|) && api.log == logStart + issued
    modifies api
    ensures var req := ListingRequest(poiId, next);
      && ReadPages(api.pending) == Rest(pages)
      && api.log == logStart + (issued + [req])
      && api.pending == Drop(start, |issued + [req]|)
      && (stop ==> Run(poiId, count, next, found, pages, yielded, issued) == Traversal(yielded', issued + [req], err))
      && (!stop ==> Run(poiId, count, next, found, pages, yielded, issued)
                      == Run(poiId, count, next', found', Rest(pages), yielded', issued + [req]))
      && (!stop ==> |pages| > 0)
  {
    var req := ListingRequest(poiId, next);
    var page := NextPage(api, req, pages, start, logStart, issued);
    RunTurn(poiId, count, next, found, pages, yielded, issued, page);
    if page.Err? {
      return true, Some(page.error), yielded, found, next;
    }
    yielded', found' := YieldPage(yielded, found, page.value.items);
    if !page.value.hasMore {
      return true, None, yielded', found', next;
    }
    return false, None, yielded', found', page.value.next;
  }

  /** The `while found < count` loop over the POI listing, from the caller's cursor. */
  method ListPoi(api: Api, poiId: Json, count: int, cursor: Json) returns (yielded: seq<Json>, err: Option<Error>)
    modifies api
    ensures var t := Run(poiId, count, cursor, 0, ReadPages(old(api.pending)), [], []);
      && yielded == t.yielded && err == t.error
      && api.log == old(api.log) + t.requests
      && api.pending == Drop(old(api.pending), |t.requests|)
  {
    ghost var start := api.pending;
    ghost var logStart := api.log;
    ghost var issued: seq<Request> := [];
    ghost var pages := ReadPages(start);
    ghost var whole := Run(poiId, count, cursor, 0, pages, [], []);
    yielded := [];
    var next := cursor;
    var found := 0;
    while found < count
      invariant api.log == logStart + issued
      invariant api.pending == Drop(start, |issued|)
      invariant pages == ReadPages(api.pending)
      invariant whole == Run(poiId, count, next, found, pages, yielded, issued)
      decreases |pages|
    {
      var stop;
      ghost var req := ListingRequest(poiId, next);
      stop, err, yielded, found, next := Turn(api, poiId, count, next, found, yielded, pages, start, logStart, issued);
      issued := issued + [req];
      pages := Rest(pages);
      if stop {
        return;
      }
    }
    return yielded, None;
  }

  /** A Place: a Hashtag whose `videos` lists the place's POI instead of the challenge. */
  class Place {
    /** The fields a Place inherits from Hashtag. */
    const tag: Hashtag

    constructor (name: Json, id: Json)
      ensures fresh(tag) && tag.State() == Fresh(name, id)
    {
      tag := new Hashtag(name, id);
    }

    /** `info()`: exactly the Hashtag lookup. */
    method Info(api: Api, msToken: Json) returns (r: Result<Json>)
      modifies tag, api
      ensures var c := InfoCall(old(tag.State()), msToken, old(api.pending));
        && tag.State() == c.state && r == c.result
        && api.log == old(api.log) + c.requests
        && api.pending == Drop(old(api.pending), |c.requests|)
    {
      r := tag.Info(api, msToken);
    }

    /** `videos(count, cursor)`: probe, take the first POI id, then follow the service's cursor. */
    method Videos(api: Api, count: int, cursor: Json, msToken: Json) returns (yielded: seq<Json>, err: Option<Error>)
      modifies tag, api
      ensures var v := PlaceVideosCall(old(tag.State()), count, cursor, msToken, old(api.pending));
        && tag.State() == v.state && yielded == v.yielded && err == v.error
        && api.log == old(api.log) + v.requests
        && api.pending == Drop(old(api.pending), |v.requests|)
    {
      var r, pre := tag.ResolveId(api, msToken);
      PlaceVideosCallStops(old(tag.State()), count, cursor, msToken, old(api.pending), pre);
      if r.Err? {
        yielded, err := [], Some(r.error);
      } else if tag.id.Unset? {
        yielded, err := [], Some(AttributeError);
      } else {
        ghost var l;
        yielded, err, l := FromChallenge(api, count, cursor);
        PlaceVideosCallSplits(old(tag.State()), count, cursor, msToken, old(api.pending), pre, l);
        DropDrop(old(api.pending), |pre.requests|, |l.requests|);
        AppendAssoc(old(api.log), pre.requests, l.requests);
      }
    }

    /** The part of `videos` after the challenge id is known. */
    method FromChallenge(api: Api, count: int, cursor: Json) returns (yielded: seq<Json>, err: Option<Error>, ghost l: Listing)
      requires tag.id.Set?
      modifies tag, api
      ensures l == PoiListing(old(tag.State()), count, cursor, old(api.pending))
      ensures tag.State() == l.state && yielded == l.yielded && err == l.error
      ensures api.log == old(api.log) + l.requests
      ensures api.pending == Drop(old(api.pending), |l.requests|)
    {
      ghost var st := tag.State();
      l := PoiListing(st, count, cursor, api.pending);
      var probe := ProbeRequest(tag.id.value);
      var challengeResp := api.MakeRequest(probe);
      var videos := ProbedVideos(challengeResp);
      if videos.Err? {
        assert l == Listing(st, [], [probe], Some(videos.error));
        return [], Some(videos.error), l;
      }
      var poiId := FindPoiId(videos.value);
      if poiId.Err? {
        assert l == Listing(st, [], [probe], Some(poiId.error));
        return [], Some(poiId.error), l;
      }
      if !Truthy(poiId.value) {
        assert l == Listing(st, [], [probe], Some(PoiIdNotFound));
        return [], Some(PoiIdNotFound), l;
      }
      tag.id := Set(poiId.value);
      ghost var probed := api.pending;
      yielded, err := ListPoi(api, poiId.value, count, cursor);
      ghost var t := Run(poiId.value, count, cursor, 0, ReadPages(probed), [], []);
      assert l == Listing(st.(id := Set(poiId.value)), t.yielded, [probe] + t.requests, t.error);
      DropDrop(old(api.pending), 1, |t.requests|);
      AppendAssoc(old(api.log), [probe], t.requests);
    }

    function ToString(): (s: string)
      reads tag
      ensures s == Describe("place", tag.State())
    {
      Describe("place", tag.State())
    }
  }

  // ---------------------------------------------------------------------------------------------
  // The POI scan

  /** The scan's answer is the id of the first video exposing one, every earlier video exposing none. */
  lemma {:induction false} FirstPoiIdIsFirst(videos: seq<Json>)
    ensures FirstPoiId(videos).Ok? && Truthy(FirstPoiId(videos).value) ==>
      exists i :: (0 <= i < |videos| && PoiIdOf(videos[i]) == FirstPoiId(videos)
        && forall j :: 0 <= j < i ==> PoiIdOf(videos[j]) == Ok(Null))
    ensures FirstPoiId(videos) == Ok(Null) <==> forall j :: 0 <= j < |videos| ==> PoiIdOf(videos[j]) == Ok(Null)
    ensures FirstPoiId(videos).Err? ==>
      exists i :: (0 <= i < |videos| && PoiIdOf(videos[i]) == FirstPoiId(videos)
        && forall j :: 0 <= j < i ==> PoiIdOf(videos[j]) == Ok(Null))
    decreases |videos|
  {
    if videos != [] {
      var tail := videos[1..];
      FirstPoiIdIsFirst(tail);
      assert forall j :: 1 <= j < |videos| ==> videos[j] == tail[j - 1];
      match PoiIdOf(videos[0])
      case Err(_) =>
      case Ok(id) =>
        if !Truthy(id) {
          assert id == Null;
          if FirstPoiId(tail).Ok? && Truthy(FirstPoiId(tail).value) {
            var i :| 0 <= i < |tail| && PoiIdOf(tail[i]) == FirstPoiId(tail)
              && forall j :: 0 <= j < i ==> PoiIdOf(tail[j]) == Ok(Null);
            assert PoiIdOf(videos[i + 1]) == FirstPoiId(videos);
          }
          if FirstPoiId(tail).Err? {
            var i :| 0 <= i < |tail| && PoiIdOf(tail[i]) == FirstPoiId(tail)
              && forall j :: 0 <= j < i ==> PoiIdOf(tail[j]) == Ok(Null);
            assert PoiIdOf(videos[i + 1]) == FirstPoiId(videos);
          }
        }
    }
  }

  // ---------------------------------------------------------------------------------------------
  // The shape of a traversal

  /** The items of the first `n` decoded answers, in order; an answer that raised contributes none. */
  function PagesFrom(pages: seq<Result<Page>>, n: nat): seq<Json>
    decreases n
  {
    if n == 0 then []
    else
      var items := match PageAt(pages, 0) case Ok(page) => page.items case Err(_) => [];
      items + PagesFrom(Rest(pages), n - 1)
  }

  /** The cursor sent with the `n`-th listing request: the caller's first, then each answer's `cursor`. */
  function CursorAt(cursor: Json, pages: seq<Result<Page>>, n: nat): Json
    decreases n
  {
    if n == 0 then cursor
    else
      var next := match PageAt(pages, 0) case Ok(page) => page.next case Err(_) => Null;
      CursorAt(next, Rest(pages), n - 1)
  }

  /**
   * The `i`-th listing request asks for the POI, 30 items, at the `i`-th cursor of the chain: the
   * caller's cursor first, then the `cursor` of each answer. No request is sent once `count` is reached.
   */
  lemma {:induction false} TraverseFollowsCursors(poiId: Json, count: int, cursor: Json, found: int, pages: seq<Result<Page>>)
    ensures var t := Traverse(poiId, count, cursor, found, pages);
      && (|t.requests| == 0 <==> found >= count)
      && forall i :: 0 <= i < |t.requests| ==> t.requests[i] == ListingRequest(poiId, CursorAt(cursor, pages, i))
    decreases |pages|
  {
    var t := Traverse(poiId, count, cursor, found, pages);
    if found < count && PageAt(pages, 0).Ok? && PageAt(pages, 0).value.hasMore {
      var page := PageAt(pages, 0).value;
      var r := Traverse(poiId, count, page.next, found + |page.items|, Rest(pages));
      TraverseFollowsCursors(poiId, count, page.next, found + |page.items|, Rest(pages));
      assert t.requests == [ListingRequest(poiId, cursor)] + r.requests;
      forall i | 1 <= i < |t.requests|
        ensures t.requests[i] == ListingRequest(poiId, CursorAt(cursor, pages, i))
      {
        assert t.requests[i] == r.requests[i - 1];
        CursorStep(cursor, pages, i);
      }
    }
  }

  /** The cursor chain after the first answer is the chain that answer's `cursor` starts. */
  lemma CursorStep(cursor: Json, pages: seq<Result<Page>>, i: nat)
    requires i >= 1 && PageAt(pages, 0).Ok?
    ensures CursorAt(cursor, pages, i) == CursorAt(PageAt(pages, 0).value.next, Rest(pages), i - 1)
  {
  }

  /** Each listing request is sent while fewer than `count` items were found, counting whole pages. */
  lemma {:induction false} TraverseChecksCount(poiId: Json, count: int, cursor: Json, found: int, pages: seq<Result<Page>>)
    ensures var t := Traverse(poiId, count, cursor, found, pages);
      forall i :: 0 <= i < |t.requests| ==> found + |PagesFrom(pages, i)| < count
    decreases |pages|
  {
    var t := Traverse(poiId, count, cursor, found, pages);
    if found < count && PageAt(pages, 0).Ok? && PageAt(pages, 0).value.hasMore {
      var page := PageAt(pages, 0).value;
      var r := Traverse(poiId, count, page.next, found + |page.items|, Rest(pages));
      TraverseChecksCount(poiId, count, page.next, found + |page.items|, Rest(pages));
      forall i | 0 <= i < |t.requests|
        ensures found + |PagesFrom(pages, i)| < count
      {
        if i >= 1 {
          assert PagesFrom(pages, i) == page.items + PagesFrom(Rest(pages), i - 1);
          assert i - 1 < |r.requests|;
        }
      }
    }
  }

  /** A further page is requested only after an answer that said `hasMore`. */
  lemma {:induction false} TraverseFollowsHasMore(poiId: Json, count: int, cursor: Json, found: int, pages: seq<Result<Page>>)
    ensures var t := Traverse(poiId, count, cursor, found, pages);
      forall i :: 0 <= i < |t.requests| - 1 ==> PageAt(pages, i).Ok? && PageAt(pages, i).value.hasMore
    decreases |pages|
  {
    var t := Traverse(poiId, count, cursor, found, pages);
    if found < count && PageAt(pages, 0).Ok? && PageAt(pages, 0).value.hasMore {
      var page := PageAt(pages, 0).value;
      var r := Traverse(poiId, count, page.next, found + |page.items|, Rest(pages));
      TraverseFollowsHasMore(poiId, count, page.next, found + |page.items|, Rest(pages));
      forall i | 1 <= i < |t.requests| - 1
        ensures PageAt(pages, i).Ok? && PageAt(pages, i).value.hasMore
      {
        assert PageAt(pages, i) == PageAt(Rest(pages), i - 1);
      }
    }
  }

  /** Without an exception, the items yielded are the pages of all the answers, whole and in order. */
  lemma {:induction false} TraverseYieldsPages(poiId: Json, count: int, cursor: Json, found: int, pages: seq<Result<Page>>)
    ensures var t := Traverse(poiId, count, cursor, found, pages);
      t.error.None? ==> t.yielded == PagesFrom(pages, |t.requests|)
    decreases |pages|
  {
    var t := Traverse(poiId, count, cursor, found, pages);
    if found < count && PageAt(pages, 0).Ok? {
      var page := PageAt(pages, 0).value;
      if page.hasMore {
        var r := Traverse(poiId, count, page.next, found + |page.items|, Rest(pages));
        TraverseYieldsPages(poiId, count, page.next, found + |page.items|, Rest(pages));
        assert PagesFrom(pages, |r.requests| + 1) == page.items + PagesFrom(Rest(pages), |r.requests|);
      } else {
        assert PagesFrom(pages, 1) == page.items + PagesFrom(Rest(pages), 0);
      }
    }
  }

  /**
   * An exception ends the traversal at the answer that raised it, after the pages of the earlier
   * answers were yielded: the traversal is not transactional.
   */
  lemma {:induction false} TraverseRaisesAtLastAnswer(poiId: Json, count: int, cursor: Json, found: int, pages: seq<Result<Page>>)
    ensures var t := Traverse(poiId, count, cursor, found, pages);
      var n := |t.requests|;
      t.error.Some? ==> n >= 1 && t.yielded == PagesFrom(pages, n - 1) && PageAt(pages, n - 1) == Err(t.error.value)
    decreases |pages|
  {
    var t := Traverse(poiId, count, cursor, found, pages);
    if found < count && PageAt(pages, 0).Ok? && PageAt(pages, 0).value.hasMore {
      var page := PageAt(pages, 0).value;
      var r := Traverse(poiId, count, page.next, found + |page.items|, Rest(pages));
      TraverseRaisesAtLastAnswer(poiId, count, page.next, found + |page.items|, Rest(pages));
      if r.error.Some? {
        assert PageAt(pages, |r.requests|) == PageAt(Rest(pages), |r.requests| - 1);
        assert PagesFrom(pages, |r.requests|) == page.items + PagesFrom(Rest(pages), |r.requests| - 1);
      }
    }
  }

  /** A traversal without exception ends on a page without `hasMore`, or once `count` items were found. */
  lemma {:induction false} TraverseStopsCleanly(poiId: Json, count: int, cursor: Json, found: int, pages: seq<Result<Page>>)
    ensures var t := Traverse(poiId, count, cursor, found, pages);
      var n := |t.requests|;
      t.error.None? && n >= 1 ==>
        PageAt(pages, n - 1).Ok? && (!PageAt(pages, n - 1).value.hasMore || found + |t.yielded| >= count)
    decreases |pages|
  {
    var t := Traverse(poiId, count, cursor, found, pages);
    if found < count && PageAt(pages, 0).Ok? && PageAt(pages, 0).value.hasMore {
      var page := PageAt(pages, 0).value;
      var r := Traverse(poiId, count, page.next, found + |page.items|, Rest(pages));
      TraverseStopsCleanly(poiId, count, page.next, found + |page.items|, Rest(pages));
      if r.requests != [] {
        assert PageAt(pages, |t.requests| - 1) == PageAt(Rest(pages), |r.requests| - 1);
      }
    }
  }

  /** Decoding a conversation of `m` equal answers gives `m` equal pages. */
  lemma {:induction false} ReadPagesConstant(resp: Json, m: nat)
    ensures ReadPages(seq(m, _ => resp)) == seq(m, _ => ReadPage(resp))
    decreases m
  {
    if m > 0 {
      assert seq(m, _ => resp)[1..] == seq(m - 1, _ => resp);
      ReadPagesConstant(resp, m - 1);
      assert seq(m, _ => ReadPage(resp)) == [ReadPage(resp)] + seq(m - 1, _ => ReadPage(resp));
    }
  }

  /** Answers that never advance: the loop goes on until the conversation is exhausted. */
  lemma {:induction false} StuckTraversal(poiId: Json, count: int, c: Json, m: nat)
    requires count >= 1
    ensures Traverse(poiId, count, c, 0, seq(m, _ => Ok(Page([], true, c))))
      == Traversal([], seq(m + 1, _ => ListingRequest(poiId, c)), Some(InvalidResponse))
    decreases m
  {
    var ps := seq(m, _ => Ok(Page([], true, c)));
    if m > 0 {
      StuckTraversal(poiId, count, c, m - 1);
      assert Rest(ps) == seq(m - 1, _ => Ok(Page([], true, c)));
      assert [ListingRequest(poiId, c)] + seq(m, _ => ListingRequest(poiId, c)) == seq(m + 1, _ => ListingRequest(poiId, c));
    }
  }

  /**
   * There is no guard against a repeated cursor: an answer with no items, `hasMore` and the same
   * cursor is asked again and again, until the conversation is used up.
   */
  lemma RepeatedCursorNeverStops(poiId: Json, count: int, c: Json, m: nat)
    requires count >= 1
    ensures var stuck := Obj([Field("itemList", EmptyList), Field("hasMore", Bool(true)), Field("cursor", c)]);
      var t := Traverse(poiId, count, c, 0, ReadPages(seq(m, _ => stuck)));
      t == Traversal([], seq(m + 1, _ => ListingRequest(poiId, c)), Some(InvalidResponse))
  {
    var stuck := Obj([Field("itemList", EmptyList), Field("hasMore", Bool(true)), Field("cursor", c)]);
    LookupLastEntry(stuck.fields, 0);
    LookupLastEntry(stuck.fields, 1);
    LookupLastEntry(stuck.fields, 2);
    assert ReadPage(stuck) == Ok(Page([], true, c));
    ReadPagesConstant(stuck, m);
    StuckTraversal(poiId, count, c, m);
  }

  /** Two pages followed the way the service chains them: the second request carries the first answer's cursor. */
  lemma TwoPageListing(poiId: Json, a: Json, b: Json, c: Json)
    ensures var first := Obj([Field("itemList", List([a, b])), Field("hasMore", Bool(true)), Field("cursor", Int(30))]);
      var second := Obj([Field("itemList", List([c])), Field("hasMore", Bool(false))]);
      Traverse(poiId, 3, Int(0), 0, ReadPages([first, second]))
        == Traversal([a, b, c], [ListingRequest(poiId, Int(0)), ListingRequest(poiId, Int(30))], None)
  {
    var first := Obj([Field("itemList", List([a, b])), Field("hasMore", Bool(true)), Field("cursor", Int(30))]);
    var second := Obj([Field("itemList", List([c])), Field("hasMore", Bool(false))]);
    LookupLastEntry(first.fields, 0);
    LookupLastEntry(first.fields, 1);
    LookupLastEntry(first.fields, 2);
    LookupLastEntry(second.fields, 0);
    LookupLastEntry(second.fields, 1);
    LookupMissing(second.fields, "cursor");
    assert ReadPage(first) == Ok(Page([a, b], true, Int(30)));
    assert ReadPage(second) == Ok(Page([c], false, Null));
    assert [first, second][1..] == [second];
    assert ReadPages([second]) == [Ok(Page([c], false, Null))];
    assert ReadPages([first, second]) == [Ok(Page([a, b], true, Int(30))), Ok(Page([c], false, Null))];
  }

  // ---------------------------------------------------------------------------------------------
  // The whole call

  /** The probe asks the challenge listing for 5 videos at cursor 30, whatever the caller asked for. */
  lemma ProbeIsFixed(st: TagState, count: int, cursor: Json, responses: seq<Json>)
    requires st.id.Set?
    ensures var l := PoiListing(st, count, cursor, responses);
      |l.requests| >= 1 && l.requests[0] == Request(ChallengeItemListUrl,
        map["challengeID" := st.id.value, "count" := Int(5), "cursor" := Int(30)])
  {
  }

  /** No probed videos (None, a missing or an empty `itemList`) raises before any listing request. */
  lemma EmptyProbeRaises(st: TagState, count: int, cursor: Json, responses: seq<Json>)
    requires st.id.Set?
    requires var p := At(responses, 0); p == Null || (p.Obj? && !Truthy(Get(p, "itemList", Null).value))
    ensures PoiListing(st, count, cursor, responses)
      == Listing(st, [], [ProbeRequest(st.id.value)], Some(InvalidResponse))
  {
  }

  /** Probed videos none of which exposes a POI raise PoiIdNotFound, yield nothing and keep `id`. */
  lemma NoPoiRaises(st: TagState, count: int, cursor: Json, responses: seq<Json>)
    requires st.id.Set?
    requires ProbedVideos(At(responses, 0)).Ok?
    requires forall v :: v in ProbedVideos(At(responses, 0)).value ==> PoiIdOf(v) == Ok(Null)
    ensures PoiListing(st, count, cursor, responses)
      == Listing(st, [], [ProbeRequest(st.id.value)], Some(PoiIdNotFound))
  {
    var videos := ProbedVideos(At(responses, 0)).value;
    FirstPoiIdIsFirst(videos);
    assert forall j :: 0 <= j < |videos| ==> PoiIdOf(videos[j]) == Ok(Null) by {
      forall j | 0 <= j < |videos| ensures PoiIdOf(videos[j]) == Ok(Null) {
        assert videos[j] in videos;
      }
    }
  }

  /**
   * Once the listing starts, `id` holds the POI id the listing is keyed by, so a second `videos` skips
   * `info` and probes the challenge listing with the POI id as `challengeID`.
   */
  lemma IdBecomesPoiId(st: TagState, count: int, cursor: Json, msToken: Json, responses: seq<Json>, msToken': Json, later: seq<Json>)
    ensures var v := PlaceVideosCall(st, count, cursor, msToken, responses);
      var pre := Resolve(st, msToken, responses);
      |v.requests| > |pre.requests| + 1 ==>
        && pre.result.Ok? && v.state.id.Set? && Truthy(v.state.id.value)
        && v.state == pre.state.(id := v.state.id)
        && v.requests[|pre.requests| + 1] == ListingRequest(v.state.id.value, cursor)
        && Resolve(v.state, msToken', later) == Called(v.state, [], Ok(Null))
        && PlaceVideosCall(v.state, count, cursor, msToken', later).requests[0] == ProbeRequest(v.state.id.value)
  {
    var v := PlaceVideosCall(st, count, cursor, msToken, responses);
    var pre := Resolve(st, msToken, responses);
    if |v.requests| > |pre.requests| + 1 {
      var l := PoiListing(pre.state, count, cursor, Drop(responses, |pre.requests|));
      var poiId := v.state.id.value;
      TraverseFollowsCursors(poiId, count, cursor, 0, ReadPages(Drop(Drop(responses, |pre.requests|), 1)));
      RunExtendsTraverse(poiId, count, cursor, 0, ReadPages(Drop(Drop(responses, |pre.requests|), 1)), [], []);
      assert Drop(later, 0) == later;
    }
  }

  /**
   * Whatever `count` is, a probe that exposes a POI id overwrites `id` with it, and leaves the other
   * fields as resolution left them; a later `videos` then skips `info`.
   */
  lemma ListingOverwritesId(st: TagState, count: int, cursor: Json, msToken: Json, responses: seq<Json>, msToken': Json, later: seq<Json>)
    ensures var v := PlaceVideosCall(st, count, cursor, msToken, responses);
      var pre := Resolve(st, msToken, responses);
      var probed := ProbedVideos(At(responses, |pre.requests|));
      pre.result.Ok? && pre.state.id.Set? && probed.Ok? && FirstPoiId(probed.value).Ok? && Truthy(FirstPoiId(probed.value).value) ==>
        && v.state == pre.state.(id := Set(FirstPoiId(probed.value).value))
        && Resolve(v.state, msToken', later) == Called(v.state, [], Ok(Null))
  {
    var pre := Resolve(st, msToken, responses);
    assert At(Drop(responses, |pre.requests|), 0) == At(responses, |pre.requests|);
  }

  /** A place whose `id` is known issues the probe first, with no `info` lookup. */
  lemma KnownIdProbesFirst(st: TagState, count: int, cursor: Json, msToken: Json, responses: seq<Json>)
    requires st.id.Set? && st.id.value != Null
    ensures var v := PlaceVideosCall(st, count, cursor, msToken, responses);
      v == PoiListing(st, count, cursor, responses)
  {
    assert Drop(responses, 0) == responses;
  }
}
