/**
 * The crawler's helpers, with their network steps taken away: the video id cut out of a resolved
 * URL, a random pick, the cookie conversion for the browser session, the web search structure,
 * and the two id lookups made in search payloads.
 */
module Helpers {
  import opened Outcomes
  import opened Text
  import opened JsonValues

  // ---------------------------------------------------------------------------------------------
  // extract_video_id_from_url

  /** The id in a resolved video URL: the text after the first "/video/" up to the next "/video/", cut at "?". */
  function VideoIdFromUrl(url: string): (r: Result<string>)
    ensures r.Err? <==> !(HasSubstring(url, "@") && HasSubstring(url, "/video/"))
    ensures r.Err? ==> r.error == TypeError
    ensures r.Ok? ==> !HasSubstring(r.value, "?")
  {
    if HasSubstring(url, "@") && HasSubstring(url, "/video/") then
      Ok(Split(Split(url, "/video/")[1], "?")[0])
    else Err(TypeError)
  }

  /** The text after the first "/video/" of a URL that has one. */
  function AfterFirstVideo(url: string): string
    requires IndexFrom(url, "/video/", 0).Some?
  {
    url[IndexFrom(url, "/video/", 0).value + 7..]
  }

  /**
   * A supported URL has the id right after its first "/video/"; the id holds neither "?" nor
   * "/video/", and it is followed by the end of the URL, by "?" or by "/video/".
   */
  lemma VideoIdShape(url: string)
    ensures VideoIdFromUrl(url).Err? <==> !(HasSubstring(url, "@") && HasSubstring(url, "/video/"))
    ensures VideoIdFromUrl(url).Ok? ==>
      && IndexFrom(url, "/video/", 0).Some?
      && var id := VideoIdFromUrl(url).value;
        var rest := AfterFirstVideo(url);
        && |id| <= |rest| && rest[..|id|] == id
        && !HasSubstring(id, "?") && !HasSubstring(id, "/video/")
        && (|id| == |rest| || rest[|id|] == '?' || OccursAt(rest, "/video/", |id|))
        && (forall j :: 0 <= j < |id| ==> rest[j] != '?' && !OccursAt(rest, "/video/", j))
  {
    if HasSubstring(url, "@") && HasSubstring(url, "/video/") {
      SplitTail(url, "/video/");
      CutShape(AfterFirstVideo(url));
    }
  }

  /**
   * What follows the first "/video/", cut at the next "/video/" and then at "?": the cut is at the
   * first "?" or the first "/video/", whichever comes first, or at the end.
   */
  lemma CutShape(rest: string)
    ensures var id := Split(Split(rest, "/video/")[0], "?")[0];
      && |id| <= |rest| && rest[..|id|] == id
      && !HasSubstring(id, "?") && !HasSubstring(id, "/video/")
      && (|id| == |rest| || rest[|id|] == '?' || OccursAt(rest, "/video/", |id|))
      && (forall j :: 0 <= j < |id| ==> rest[j] != '?' && !OccursAt(rest, "/video/", j))
  {
    var seg := Split(rest, "/video/")[0];
    SplitHeadShape(rest, "/video/");
    var id := Split(seg, "?")[0];
    SplitHeadShape(seg, "?");
    NoCharBefore(seg, '?', |id|);
    assert forall j :: 0 <= j < |id| ==> rest[j] == seg[j];
    PrefixKeepsAbsence(seg, |id|, "/video/");
    assert rest[..|id|] == seg[..|id|];
    if |id| < |seg| {
      assert OccursAt(seg, "?", |id|);
      assert seg[|id|..|id| + 1] == "?";
      assert rest[|id|] == seg[|id|];
    }
  }

  // ---------------------------------------------------------------------------------------------
  // random_choice

  /** None for None or an empty list; otherwise some member of the list. */
  method RandomChoice<T>(choices: Option<seq<T>>) returns (r: Option<T>)
    ensures (choices.None? || choices.value == []) <==> r.None?
    ensures r.Some? ==> choices.Some? && r.value in choices.value
  {
    if choices.None? || |choices.value| == 0 {
      return None;
    }
    var k :| 0 <= k < |choices.value|;
    return Some(choices.value[k]);
  }

  // ---------------------------------------------------------------------------------------------
  // requests_cookie_to_playwright_cookie

  /** The attributes of a `requests` cookie the conversion reads. */
  datatype RequestsCookie = RequestsCookie(name: Json, value: Json, domain: Json, path: Json, secure: Json, expires: Json)

  /** The keys of a dict, in order. */
  function Keys(j: Json): seq<string>
    requires j.Obj?
  {
    seq(|j.fields|, k requires 0 <= k < |j.fields| => j.fields[k].key)
  }

  /** The conversion: the five attributes copied, then `expires` added only when it is truthy. */
  method ToPlaywrightCookie(c: RequestsCookie) returns (d: Json)
    ensures d.Obj?
    ensures Keys(d) == ["name", "value", "domain", "path", "secure"] + (if Truthy(c.expires) then ["expires"] else [])
    ensures Lookup(d.fields, "name") == Some(c.name) && Lookup(d.fields, "value") == Some(c.value)
    ensures Lookup(d.fields, "domain") == Some(c.domain) && Lookup(d.fields, "path") == Some(c.path)
    ensures Lookup(d.fields, "secure") == Some(c.secure)
    ensures HasKey(d, "expires") <==> Truthy(c.expires)
    ensures Truthy(c.expires) ==> Lookup(d.fields, "expires") == Some(c.expires)
  {
    d := Obj([Field("name", c.name), Field("value", c.value), Field("domain", c.domain),
              Field("path", c.path), Field("secure", c.secure)]);
    CopiedLookups(c, []);
    CopiedKeys(c, []);
    assert d.fields == CopiedFields(c) + [];
    if Truthy(c.expires) {
      d := SetKey(d, "expires", c.expires);
      CopiedLookups(c, [Field("expires", c.expires)]);
      CopiedKeys(c, [Field("expires", c.expires)]);
      assert d.fields == CopiedFields(c) + [Field("expires", c.expires)];
    }
  }

  /** The copied entries, followed by `extra`, are found under their keys. */
  lemma CopiedLookups(c: RequestsCookie, extra: seq<Field>)
    requires extra == [] || extra == [Field("expires", c.expires)]
    ensures var fs := CopiedFields(c) + extra;
      && Lookup(fs, "name") == Some(c.name) && Lookup(fs, "value") == Some(c.value)
      && Lookup(fs, "domain") == Some(c.domain) && Lookup(fs, "path") == Some(c.path)
      && Lookup(fs, "secure") == Some(c.secure)
      && Lookup(fs, "expires") == (if extra == [] then None else Some(c.expires))
  {
    var fs := CopiedFields(c) + extra;
    LookupLastEntry(fs, 0);
    LookupLastEntry(fs, 1);
    LookupLastEntry(fs, 2);
    LookupLastEntry(fs, 3);
    LookupLastEntry(fs, 4);
    if extra == [] {
      LookupMissing(fs, "expires");
    } else {
      LookupLastEntry(fs, 5);
    }
  }

  /** The copied keys, followed by `expires` when it is added, in insertion order. */
  lemma CopiedKeys(c: RequestsCookie, extra: seq<Field>)
    requires extra == [] || extra == [Field("expires", c.expires)]
    ensures Keys(Obj(CopiedFields(c) + extra)) == ["name", "value", "domain", "path", "secure"] + (if extra == [] then [] else ["expires"])
  {
  }

  /** The five entries copied from the cookie, in the order the conversion writes them. */
  function CopiedFields(c: RequestsCookie): seq<Field> {
    [Field("name", c.name), Field("value", c.value), Field("domain", c.domain),
     Field("path", c.path), Field("secure", c.secure)]
  }

  // ---------------------------------------------------------------------------------------------
  // generate_web_search_code

  /** The two engine flags `generate_web_search_code` always sends. */
  const SearchEngineBase: Json := Obj([
    Field("ies_mt_user_live_video_card_use_libra", Int(1)),
    Field("mt_search_general_user_live_card", Int(1))])

  const ClientParamsBase: Json := Obj([Field("search_engine", SearchEngineBase)])

  const TiktokBase: Json := Obj([Field("client_params_x", ClientParamsBase), Field("search_server", EmptyDict)])

  /** The structure before `keyword` is assigned. */
  const WebSearchBase: Json := Obj([Field("tiktok", TiktokBase)])

  const KeywordPath: seq<string> := ["tiktok", "client_params_x", "search_engine", "keyword"]

  /** `search_params` with `search_params["tiktok"]["client_params_x"]["search_engine"]["keyword"] = keyword`. */
  function WebSearchParams(keyword: Json): (r: Json)
    ensures LookupPath(r, KeywordPath) == Some(keyword)
  {
    WebSearchBaseShape();
    LookupAfterSetPath(WebSearchBase, KeywordPath, keyword);
    match SetPath(WebSearchBase, KeywordPath, keyword)
    case Ok(j) => j
    case Err(_) => Null
  }

  /**
   * The nested assignment never raises: every level of the path exists and is a dict, so the
   * structure sent is exactly what the assignment produces.
   */
  lemma WebSearchHoldsKeyword(keyword: Json)
    ensures SetPath(WebSearchBase, KeywordPath, keyword).Ok?
    ensures WebSearchParams(keyword) == SetPath(WebSearchBase, KeywordPath, keyword).value
  {
    WebSearchBaseShape();
    LookupAfterSetPath(WebSearchBase, KeywordPath, keyword);
  }

  /** The structure differs between keywords only at the keyword: every other field is a constant. */
  lemma WebSearchOnlyKeywordVaries(k1: Json, k2: Json)
    ensures SetPath(WebSearchParams(k1), KeywordPath, k2).Ok?
      && WebSearchParams(k2) == SetPath(WebSearchParams(k1), KeywordPath, k2).value
  {
    WebSearchBaseShape();
    SetPathTwice(WebSearchBase, KeywordPath, k1, k2);
  }

  /** The engine level: the keyword goes after the two flags. */
  lemma EngineGetsKeyword(keyword: Json)
    ensures SetPath(SearchEngineBase, ["keyword"], keyword)
      == Ok(Obj(SearchEngineBase.fields + [Field("keyword", keyword)]))
  {
    LookupMissing(SearchEngineBase.fields, "keyword");
  }

  /** The `client_params_x` level: its one entry is rewritten. */
  lemma ClientParamsGetKeyword(keyword: Json)
    ensures SetPath(ClientParamsBase, ["search_engine", "keyword"], keyword)
      == Ok(Obj([Field("search_engine", Obj(SearchEngineBase.fields + [Field("keyword", keyword)]))]))
  {
    EngineGetsKeyword(keyword);
    SetPathThroughFirst("search_engine", SearchEngineBase, [], ["keyword"], keyword);
    assert ["search_engine"] + ["keyword"] == ["search_engine", "keyword"];
    assert [Field("search_engine", SearchEngineBase)] + [] == ClientParamsBase.fields;
    var engine' := Obj(SearchEngineBase.fields + [Field("keyword", keyword)]);
    assert [Field("search_engine", engine')] + [] == [Field("search_engine", engine')];
  }

  /** The `tiktok` level: `client_params_x` is rewritten and `search_server` kept. */
  lemma TiktokGetsKeyword(keyword: Json)
    ensures SetPath(TiktokBase, ["client_params_x", "search_engine", "keyword"], keyword)
      == Ok(Obj([Field("client_params_x", Obj([Field("search_engine", Obj(SearchEngineBase.fields + [Field("keyword", keyword)]))])),
                 Field("search_server", EmptyDict)]))
  {
    ClientParamsGetKeyword(keyword);
    SetPathThroughFirst("client_params_x", ClientParamsBase, [Field("search_server", EmptyDict)], ["search_engine", "keyword"], keyword);
    assert ["client_params_x"] + ["search_engine", "keyword"] == ["client_params_x", "search_engine", "keyword"];
    assert [Field("client_params_x", ClientParamsBase)] + [Field("search_server", EmptyDict)] == TiktokBase.fields;
    var params' := Obj([Field("search_engine", Obj(SearchEngineBase.fields + [Field("keyword", keyword)]))]);
    assert [Field("client_params_x", params')] + [Field("search_server", EmptyDict)]
      == [Field("client_params_x", params'), Field("search_server", EmptyDict)];
  }

  /** The whole structure: the two fixed engine flags, then the keyword, and an empty `search_server`. */
  lemma WebSearchStructure(keyword: Json)
    ensures WebSearchParams(keyword) == Obj([Field("tiktok", Obj([
      Field("client_params_x", Obj([
        Field("search_engine", Obj([
          Field("ies_mt_user_live_video_card_use_libra", Int(1)),
          Field("mt_search_general_user_live_card", Int(1)),
          Field("keyword", keyword)]))])),
      Field("search_server", EmptyDict)]))])
  {
    TiktokGetsKeyword(keyword);
    SetPathThroughFirst("tiktok", TiktokBase, [], ["client_params_x", "search_engine", "keyword"], keyword);
    assert KeywordPath == ["tiktok"] + ["client_params_x", "search_engine", "keyword"];
    assert [Field("tiktok", TiktokBase)] + [] == WebSearchBase.fields;
    assert SearchEngineBase.fields + [Field("keyword", keyword)] == [
      Field("ies_mt_user_live_video_card_use_libra", Int(1)),
      Field("mt_search_general_user_live_card", Int(1)),
      Field("keyword", keyword)];
  }

  /** Each level on the keyword path exists and is a dict. */
  lemma WebSearchBaseShape()
    ensures SetPath(WebSearchBase, KeywordPath, Null).Ok?
    ensures forall keyword :: SetPath(WebSearchBase, KeywordPath, keyword).Ok?
  {
    var tiktok := Lookup(WebSearchBase.fields, "tiktok");
    LookupLastEntry(WebSearchBase.fields, 0);
    var t := tiktok.value;
    LookupLastEntry(t.fields, 0);
    var cpx := Lookup(t.fields, "client_params_x").value;
    LookupLastEntry(cpx.fields, 0);
    assert KeywordPath[1..] == ["client_params_x", "search_engine", "keyword"];
    assert KeywordPath[1..][1..] == ["search_engine", "keyword"];
    assert KeywordPath[1..][1..][1..] == ["keyword"];
  }

  // ---------------------------------------------------------------------------------------------
  // fetch_odin_id and fetch_logid

  /** What the rehydration script of a fetched search page holds. */
  datatype Rehydration = NoScript | Malformed | Decoded(data: Json)

  /** A fetched search page: its HTTP status and its rehydration script. */
  datatype SearchPage = SearchPage(status: int, script: Rehydration)

  /** The search site `fetch_odin_id` reads: it serves `page` and records every keyword asked for. */
  class SearchSite {
    const page: SearchPage
    var visits: seq<string>

    constructor (page: SearchPage)
      ensures this.page == page && visits == []
    {
      this.page := page;
      visits := [];
    }

    method Fetch(keyword: string) returns (p: SearchPage)
      modifies this
      ensures p == page && visits == old(visits) + [keyword]
    {
      p := page;
      visits := visits + [keyword];
    }
  }

  const OdinPath: seq<string> := ["__DEFAULT_SCOPE__", "webapp.app-context", "odinId"]

  /** `data.get("__DEFAULT_SCOPE__", {}).get("webapp.app-context", {}).get("odinId")`, kept only when truthy. */
  function OdinIdLookup(data: Json): (r: Result<Json>)
    ensures r.Ok? ==> Truthy(r.value)
  {
    var scope :- Get(data, "__DEFAULT_SCOPE__", EmptyDict);
    var context :- Get(scope, "webapp.app-context", EmptyDict);
    var odinId :- Get(context, "odinId", Null);
    if Truthy(odinId) then Ok(odinId) else Err(OdinIdNotFound)
  }

  /**
   * The odin id is the truthy value at the path, and there is one exactly when the lookup succeeds;
   * a missing level or a falsy value raises "not found", a present level that is not a dict
   * AttributeError.
   */
  lemma OdinIdFollowsPath(data: Json)
    ensures OdinIdLookup(data).Ok? <==> (LookupPath(data, OdinPath).Some? && Truthy(LookupPath(data, OdinPath).value))
    ensures OdinIdLookup(data).Ok? ==> OdinIdLookup(data).value == LookupPath(data, OdinPath).value
    ensures OdinIdLookup(data).Err? ==> OdinIdLookup(data).error in {OdinIdNotFound, AttributeError}
    ensures OdinIdLookup(data) == Err(AttributeError) <==> !DictsAlong(data, OdinPath)
  {
    assert OdinPath[1..] == ["webapp.app-context", "odinId"];
    assert OdinPath[1..][1..] == ["odinId"];
    assert OdinPath[1..][1..][1..] == [];
    if data.Obj? && !HasKey(data, "__DEFAULT_SCOPE__") {
      assert Get(data, "__DEFAULT_SCOPE__", EmptyDict) == Ok(EmptyDict);
      LookupMissing(EmptyDict.fields, "webapp.app-context");
    } else if data.Obj? {
      var scope := Lookup(data.fields, "__DEFAULT_SCOPE__").value;
      if scope.Obj? && !HasKey(scope, "webapp.app-context") {
        assert Get(scope, "webapp.app-context", EmptyDict) == Ok(EmptyDict);
        LookupMissing(EmptyDict.fields, "odinId");
      }
    }
  }

  /** `fetch_odin_id` once the page is fetched: status, script, decoding, then the lookup. */
  function FetchOdinId(page: SearchPage): (r: Result<Json>)
    ensures r.Ok? ==> Truthy(r.value)
    ensures page.status != 200 ==> r == Err(SearchPageStatus)
    ensures page.status == 200 && page.script.Decoded? ==> r == OdinIdLookup(page.script.data)
  {
    if page.status != 200 then Err(SearchPageStatus)
    else match page.script
      case NoScript => Err(OdinIdNotFound)
      case Malformed => Err(SearchPageBadJson)
      case Decoded(data) => OdinIdLookup(data)
  }

  /** `fetch_odin_id(keyword)`: one fetch of the search page for `keyword`, then the lookup. */
  method FetchOdinIdFrom(site: SearchSite, keyword: string) returns (r: Result<Json>)
    modifies site
    ensures r == FetchOdinId(site.page)
    ensures site.visits == old(site.visits) + [keyword]
  {
    var page := site.Fetch(keyword);
    r := FetchOdinId(page);
  }

  /** `resp.get("extra", {}).get("logid")`, kept only when truthy. */
  function FetchLogid(resp: Json): (r: Result<Json>)
    ensures r.Ok? ==> Truthy(r.value)
  {
    var extra :- Get(resp, "extra", EmptyDict);
    var logid :- Get(extra, "logid", Null);
    if !Truthy(logid) then Err(SearchIdNotFound) else Ok(logid)
  }

  /**
   * The search id is the truthy `extra.logid`, and there is one exactly when it exists; a missing
   * `extra` or `logid` or a falsy one raises "not found", a None answer AttributeError.
   */
  lemma LogidFollowsPath(resp: Json)
    ensures FetchLogid(resp).Ok? <==> (LookupPath(resp, ["extra", "logid"]).Some? && Truthy(LookupPath(resp, ["extra", "logid"]).value))
    ensures FetchLogid(resp).Ok? ==> FetchLogid(resp).value == LookupPath(resp, ["extra", "logid"]).value
    ensures resp == Null ==> FetchLogid(resp) == Err(AttributeError)
    ensures FetchLogid(resp).Err? ==> FetchLogid(resp).error in {SearchIdNotFound, AttributeError}
    ensures FetchLogid(resp) == Err(AttributeError) <==> !DictsAlong(resp, ["extra", "logid"])
  {
    var path := ["extra", "logid"];
    assert path[1..] == ["logid"] && path[1..][1..] == [];
    if resp.Obj? && !HasKey(resp, "extra") {
      LookupMissing(EmptyDict.fields, "logid");
    }
  }
}
