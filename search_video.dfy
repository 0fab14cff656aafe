/**
 * A TikTok video search: a keyword, resolved once into the two ids the search endpoint wants
 * (the odin id read from the search page, the search id read from a first search answer), then
 * one page of results at the caller's offset.
 */
module SearchVideoApi {
  import opened Outcomes
  import opened Text
  import opened JsonValues
  import opened Transport
  import opened Helpers

  /** The fields of a SearchVideo object. */
  datatype SearchState = SearchState(keyword: string, odinId: Json, searchId: Json, asDict: Json)

  /** `__init__`: an empty keyword raises TypeError; the ids start as None and `as_dict` is `data or {}`. */
  function Construction(keyword: string, data: Json): Result<SearchState> {
    if keyword == "" then Err(TypeError)
    else Ok(SearchState(keyword, Null, Null, if Truthy(data) then data else EmptyDict))
  }

  /** The pair `info` returns. */
  function IdPair(st: SearchState): Json {
    Obj([Field("odin_id", st.odinId), Field("search_id", st.searchId)])
  }

  /** The query of the `info` probe: always at offset 0. */
  function InfoRequest(keyword: string, odinId: Json, msToken: Json): Request {
    Request(SearchItemFullUrl, map[
      "keyword" := Str(keyword), "offset" := Int(0), "web_search_code" := WebSearchParams(Str(keyword)),
      "odinId" := odinId, "msToken" := msToken])
  }

  /** The query of `videos`: the caller's offset and the cached ids, without a token. */
  function VideosRequest(st: SearchState, offset: Json): Request {
    Request(SearchItemFullUrl, map[
      "keyword" := Str(st.keyword), "offset" := offset, "web_search_code" := WebSearchParams(Str(st.keyword)),
      "odinId" := st.odinId, "search_id" := st.searchId])
  }

  /** The fields after `info`, whether it fetched the search page, the requests it issued, and its outcome. */
  datatype SearchInfo = SearchInfo(state: SearchState, fetchedPage: bool, requests: seq<Request>, result: Result<Json>)

  /** `info(ms_token=msToken)`, the search page being `page` and the conversation `responses`. */
  function InfoCall(st: SearchState, msToken: Json, page: SearchPage, responses: seq<Json>): SearchInfo {
    var fetched := !Truthy(st.odinId);
    if fetched && FetchOdinId(page).Err? then SearchInfo(st, true, [], Err(FetchOdinId(page).error))
    else
      var st1 := if fetched then st.(odinId := FetchOdinId(page).value) else st;
      if Truthy(st1.searchId) then SearchInfo(st1, fetched, [], Ok(IdPair(st1)))
      else
        var req := InfoRequest(st1.keyword, st1.odinId, msToken);
        match FetchLogid(At(responses, 0))
        case Err(e) => SearchInfo(st1, fetched, [req], Err(e))
        case Ok(logid) =>
          var st2 := st1.(searchId := logid);
          SearchInfo(st2, fetched, [req], Ok(IdPair(st2)))
  }

  /** The raw items `videos` yielded, the requests it issued, and the exception ending it. */
  datatype SearchListing = SearchListing(yielded: seq<Json>, requests: seq<Request>, error: Option<Error>)

  /** `videos(offset)` consumed to the end. */
  function VideosCall(st: SearchState, offset: Json, responses: seq<Json>): (l: SearchListing)
    ensures l.requests == [VideosRequest(st, offset)]
  {
    var req := VideosRequest(st, offset);
    var resp := At(responses, 0);
    if resp == Null then SearchListing([], [req], Some(InvalidResponse))
    else match IterGet(resp, "item_list")
      case Err(e) => SearchListing([], [req], Some(e))
      case Ok(items) => SearchListing(items, [req], None)
  }

  /** How many items `as_dict` holds: `len(as_dict.get("item_list", []))`, or 0 for an empty `as_dict`. */
  function ItemCount(asDict: Json): Result<nat> {
    if !Truthy(asDict) then Ok(0)
    else
      var items :- Get(asDict, "item_list", EmptyList);
      Len(items)
  }

  function ReprText(keyword: string, count: nat): string {
    "SearchVideo(keyword='" + keyword + "', items=" + NatText(count) + ")"
  }

  /** `repr(obj)`. */
  function ReprOf(st: SearchState): Result<string> {
    var count :- ItemCount(st.asDict);
    Ok(ReprText(st.keyword, count))
  }

  // ---------------------------------------------------------------------------------------------
  // The object

  class SearchVideo {
    var keyword: string
    var odinId: Json
    var searchId: Json
    var asDict: Json

    function State(): SearchState
      reads this
    {
      SearchState(keyword, odinId, searchId, asDict)
    }

    constructor (keyword: string, data: Json)
      requires keyword != ""
      ensures Construction(keyword, data) == Ok(State())
    {
      this.keyword := keyword;
      odinId := Null;
      searchId := Null;
      asDict := if Truthy(data) then data else EmptyDict;
    }

    /** `SearchVideo(keyword, data=data)`: no object when `__init__` raises. */
    static method Create(keyword: string, data: Json) returns (s: SearchVideo?, err: Option<Error>)
      ensures s == null <==> Construction(keyword, data).Err?
      ensures s != null ==> fresh(s) && Construction(keyword, data) == Ok(s.State()) && err == None
      ensures s == null ==> err == Some(Construction(keyword, data).error)
    {
      if keyword == "" {
        return null, Some(TypeError);
      }
      s := new SearchVideo(keyword, data);
      err := None;
    }

    /** `info()`: each id is fetched only while it is falsy, and kept once it is. */
    method Info(api: Api, site: SearchSite, msToken: Json) returns (r: Result<Json>)
      modifies this, api, site
      ensures var c := InfoCall(old(State()), msToken, site.page, old(api.pending));
        && State() == c.state && r == c.result
        && api.log == old(api.log) + c.requests
        && api.pending == Drop(old(api.pending), |c.requests|)
        && site.visits == old(site.visits) + (if c.fetchedPage then [old(keyword)] else [])
    {
      if !Truthy(odinId) {
        var odin := FetchOdinIdFrom(site, keyword);
        if odin.Err? {
          return Err(odin.error);
        }
        odinId := odin.value;
      }
      var req := InfoRequest(keyword, odinId, msToken);
      if !Truthy(searchId) {
        var resp := api.MakeRequest(req);
        var logid := FetchLogid(resp);
        if logid.Err? {
          return Err(logid.error);
        }
        searchId := logid.value;
      }
      return Ok(IdPair(State()));
    }

    /** `videos(offset)`: one request, then every entry of `item_list` in order. */
    method Videos(api: Api, offset: Json) returns (yielded: seq<Json>, err: Option<Error>)
      modifies api
      ensures var v := VideosCall(State(), offset, old(api.pending));
        && yielded == v.yielded && err == v.error
        && api.log == old(api.log) + v.requests
        && api.pending == Drop(old(api.pending), |v.requests|)
    {
      var resp := api.MakeRequest(VideosRequest(State(), offset));
      if resp == Null {
        return [], Some(InvalidResponse);
      }
      var items := IterGet(resp, "item_list");
      if items.Err? {
        return [], Some(items.error);
      }
      yielded := [];
      for k := 0 to |items.value|
        invariant yielded == items.value[..k]
      {
        yielded := yielded + [items.value[k]];
      }
      assert items.value[..|items.value|] == items.value;
      err := None;
    }

    function ToRepr(): (r: Result<string>)
      reads this
      ensures r == ReprOf(State())
    {
      ReprOf(State())
    }
  }

  // ---------------------------------------------------------------------------------------------
  // Properties

  /** An empty keyword raises TypeError; otherwise the ids start as None and `as_dict` is `data or {}`. */
  lemma ConstructionFields(keyword: string, data: Json)
    ensures Construction(keyword, data).Err? <==> keyword == ""
    ensures Construction(keyword, data).Err? ==> Construction(keyword, data).error == TypeError
    ensures Construction(keyword, data).Ok? ==>
      var st := Construction(keyword, data).value;
      && st.keyword == keyword && st.odinId == Null && st.searchId == Null
      && (Truthy(data) ==> st.asDict == data) && (!Truthy(data) ==> st.asDict == EmptyDict)
  {
  }

  /**
   * `info` fetches the search page only while `odin_id` is falsy, and asks the search endpoint,
   * at offset 0 with the odin id it holds, only while `search_id` is falsy.
   */
  lemma InfoFetchesOnlyWhatIsMissing(st: SearchState, msToken: Json, page: SearchPage, responses: seq<Json>)
    ensures var c := InfoCall(st, msToken, page, responses);
      && (c.fetchedPage <==> !Truthy(st.odinId))
      && c.state.keyword == st.keyword && c.state.asDict == st.asDict
      && (Truthy(st.odinId) ==> c.state.odinId == st.odinId)
      && (Truthy(st.searchId) ==> c.state.searchId == st.searchId && c.requests == [])
      && (|c.requests| == 1 ==>
            (!Truthy(st.searchId) && c.requests[0] == InfoRequest(st.keyword, c.state.odinId, msToken)
             && c.requests[0].params["offset"] == Int(0)))
      && |c.requests| <= 1
  {
  }

  /** A successful `info` returns exactly the two ids, both truthy. */
  lemma InfoReturnsThePair(st: SearchState, msToken: Json, page: SearchPage, responses: seq<Json>)
    ensures var c := InfoCall(st, msToken, page, responses);
      c.result.Ok? ==>
        && c.result.value == IdPair(c.state)
        && Keys(c.result.value) == ["odin_id", "search_id"]
        && Truthy(c.state.odinId) && Truthy(c.state.searchId)
  {
    var c := InfoCall(st, msToken, page, responses);
    if c.result.Ok? && !Truthy(st.odinId) {
      assert FetchOdinId(page).Ok?;
    }
  }

  /** After a successful `info`, a second one fetches nothing, asks nothing and returns the same pair. */
  lemma SecondInfoIsCached(st: SearchState, msToken: Json, page: SearchPage, responses: seq<Json>,
                           msToken': Json, page': SearchPage, responses': seq<Json>)
    requires InfoCall(st, msToken, page, responses).result.Ok?
    ensures var c := InfoCall(st, msToken, page, responses);
      InfoCall(c.state, msToken', page', responses') == SearchInfo(c.state, false, [], c.result)
  {
    InfoReturnsThePair(st, msToken, page, responses);
  }

  /** The cache is kept piecewise: a fetched odin id stays even when the search id lookup then fails. */
  lemma InfoKeepsOdinIdOnFailure(st: SearchState, msToken: Json, page: SearchPage, responses: seq<Json>)
    requires !Truthy(st.odinId) && !Truthy(st.searchId) && FetchOdinId(page).Ok?
    requires FetchLogid(At(responses, 0)).Err?
    ensures var c := InfoCall(st, msToken, page, responses);
      && c.state == st.(odinId := FetchOdinId(page).value)
      && c.result == Err(FetchLogid(At(responses, 0)).error)
  {
  }

  /**
   * `videos` issues one request: the caller's offset unchanged, the cached ids, and a search
   * structure that depends on the keyword alone.
   */
  lemma VideosRequestPassesThrough(st: SearchState, offset: Json, responses: seq<Json>)
    ensures var v := VideosCall(st, offset, responses);
      && |v.requests| == 1
      && v.requests[0].url == SearchItemFullUrl
      && v.requests[0].params.Keys == {"keyword", "offset", "web_search_code", "odinId", "search_id"}
      && v.requests[0].params["offset"] == offset
      && v.requests[0].params["odinId"] == st.odinId && v.requests[0].params["search_id"] == st.searchId
      && LookupPath(v.requests[0].params["web_search_code"], KeywordPath) == Some(Str(st.keyword))
  {
  }

  /** A None answer raises InvalidResponse; otherwise the entries of `item_list` are yielded in order. */
  lemma VideosYieldsItemList(st: SearchState, offset: Json, responses: seq<Json>)
    ensures var v := VideosCall(st, offset, responses);
      var resp := At(responses, 0);
      && (resp == Null ==> v.error == Some(InvalidResponse) && v.yielded == [])
      && (resp.Obj? && HasKey(resp, "item_list") && Lookup(resp.fields, "item_list").value.List? ==>
            v.error == None && v.yielded == Lookup(resp.fields, "item_list").value.items)
      && (resp.Obj? && !HasKey(resp, "item_list") ==> v.error == None && v.yielded == [])
  {
  }

  /** After `info`, `videos` asks with the search id `info` returned. */
  lemma VideosUsesInfoIds(st: SearchState, msToken: Json, page: SearchPage, responses: seq<Json>, offset: Json, later: seq<Json>)
    requires InfoCall(st, msToken, page, responses).result.Ok?
    ensures var c := InfoCall(st, msToken, page, responses);
      var r := VideosCall(c.state, offset, later).requests[0];
      && Lookup(c.result.value.fields, "odin_id") == Some(r.params["odinId"])
      && Lookup(c.result.value.fields, "search_id") == Some(r.params["search_id"])
  {
    var c := InfoCall(st, msToken, page, responses);
    InfoReturnsThePair(st, msToken, page, responses);
    LookupLastEntry(IdPair(c.state).fields, 0);
    LookupLastEntry(IdPair(c.state).fields, 1);
  }

  /** `items` is the length of `as_dict["item_list"]`, 0 when it is absent or `as_dict` is empty. */
  lemma ReprCountsItems(st: SearchState)
    ensures !Truthy(st.asDict) ==> ReprOf(st) == Ok(ReprText(st.keyword, 0))
    ensures st.asDict.Obj? && st.asDict.fields != [] && !HasKey(st.asDict, "item_list") ==>
      ReprOf(st) == Ok(ReprText(st.keyword, 0))
    ensures st.asDict.Obj? && HasKey(st.asDict, "item_list") && Lookup(st.asDict.fields, "item_list").value.List? ==>
      ReprOf(st) == Ok(ReprText(st.keyword, |Lookup(st.asDict.fields, "item_list").value.items|))
    ensures Truthy(st.asDict) && !st.asDict.Obj? ==> ReprOf(st) == Err(AttributeError)
  {
  }

  /** The count shown is read back from the text: `items=` is followed by the decimal digits of the count. */
  lemma ReprTextShowsCount(keyword: string, count: nat)
    ensures var t := ReprText(keyword, count);
      var digits := t[|"SearchVideo(keyword='" + keyword + "', items="|..|t| - 1];
      DecimalValue(digits) == count && t[|t| - 1] == ')'
  {
    var prefix := "SearchVideo(keyword='" + keyword + "', items=";
    var t := ReprText(keyword, count);
    assert t == prefix + NatText(count) + ")";
    assert t[|prefix|..|t| - 1] == NatText(count);
    DecimalRoundTrip(count);
  }
}
