/**
 * A TikTok hashtag (challenge): resolved from its name through the challenge detail endpoint,
 * then listed one page at a time through the challenge item-list endpoint, the page number
 * giving the cursor by a fixed stride.
 */
module HashtagApi {
  import opened Outcomes
  import opened JsonValues
  import opened Transport

  /** A Python attribute that may never have been assigned; `OrNone()` is `getattr(obj, name, None)`. */
  datatype Attr = Unset | Set(value: Json) {
    function OrNone(): Json { if Set? then value else Null }
  }

  /** The fields of a Hashtag object; a Place carries the same ones. */
  datatype TagState = TagState(id: Attr, name: Attr, asDict: Attr, splitName: Attr, stats: Attr)

  /** The fields `__init__` leaves when no payload is given: only the labels that are not None. */
  function Fresh(name: Json, id: Json): TagState {
    TagState(id := if id == Null then Unset else Set(id), name := if name == Null then Unset else Set(name),
             asDict := Unset, splitName := Unset, stats := Unset)
  }

  // ---------------------------------------------------------------------------------------------
  // Reading a payload into the fields (`__extract_from_data`)

  /** The fields after an extraction, the exception it raised, and whether it logged an error. */
  datatype Extracted = Extracted(state: TagState, error: Option<Error>, logged: bool)

  /** Either label is still None: the condition under which the extraction logs an error. */
  predicate Incomplete(st: TagState) {
    st.id.OrNone() == Null || st.name.OrNone() == Null
  }

  /** A top-level `title` key sets `id` and `name` from the top level. */
  function TitleStep(st: TagState, data: Json): Extracted
    requires data.Obj?
  {
    if !HasKey(data, "title") then Extracted(st, None, false)
    else match Subscript(data, "id")
      case Err(e) => Extracted(st, Some(e), false)
      case Ok(id) => Extracted(st.(id := Set(id), name := Set(Lookup(data.fields, "title").value)), None, false)
  }

  /** A `challengeInfo.challenge` entry sets `id`, then `name`, then `split_name`, one at a time. */
  function ChallengeFields(st: TagState, info: Json): Extracted {
    match Subscript(info, "challenge")
    case Err(e) => Extracted(st, Some(e), false)
    case Ok(challenge) =>
      match Subscript(challenge, "id")
      case Err(e) => Extracted(st, Some(e), false)
      case Ok(id) =>
        var st1 := st.(id := Set(id));
        match Subscript(challenge, "title")
        case Err(e) => Extracted(st1, Some(e), false)
        case Ok(title) =>
          var st2 := st1.(name := Set(title));
          Extracted(st2.(splitName := Set(Get(challenge, "splitTitle", Null).value)), None, false)
  }

  /** The `challengeInfo` block: the challenge entry first, then the stats. */
  function ChallengeStep(st: TagState, data: Json): Extracted
    requires data.Obj?
  {
    if !HasKey(data, "challengeInfo") then Extracted(st, None, false)
    else
      var info := Lookup(data.fields, "challengeInfo").value;
      match Contains(info, "challenge")
      case Err(e) => Extracted(st, Some(e), false)
      case Ok(hasChallenge) =>
        var c := if hasChallenge then ChallengeFields(st, info) else Extracted(st, None, false);
        if c.error.Some? then c
        else if !Contains(info, "stats").value then c
        else match Subscript(info, "stats")
          case Err(e) => Extracted(c.state, Some(e), false)
          case Ok(stats) => Extracted(c.state.(stats := Set(stats)), None, false)
  }

  /** `__extract_from_data` with `as_dict == data`; fields assigned before an exception stay assigned. */
  function Extraction(st: TagState, data: Json): Extracted {
    if !data.Obj? then Extracted(st, Some(AttributeError), false)
    else
      var t := TitleStep(st, data);
      if t.error.Some? then t
      else
        var c := ChallengeStep(t.state, data);
        if c.error.Some? then c
        else Extracted(c.state, None, Incomplete(c.state))
  }

  /** `Hashtag(name, id, data)`: the labels, then the payload read as by `__extract_from_data`. */
  function Construction(name: Json, id: Json, data: Json): Extracted {
    if data == Null then Extracted(Fresh(name, id), None, false)
    else Extraction(Fresh(name, id).(asDict := Set(data)), data)
  }

  // ---------------------------------------------------------------------------------------------
  // info() and videos() as functions of the fields and of the service's answers

  /** The fields after a call, the requests it issued, and what it returned or raised. */
  datatype Called = Called(state: TagState, requests: seq<Request>, result: Result<Json>)

  /** The fields after a traversal, the raw items it yielded, the requests it issued, and the exception ending it. */
  datatype Listing = Listing(state: TagState, yielded: seq<Json>, requests: seq<Request>, error: Option<Error>)

  function DetailRequest(name: Json, msToken: Json): Request {
    Request(ChallengeDetailUrl, map["challengeName" := name, "msToken" := msToken])
  }

  /** `info(ms_token=msToken)` answered by the conversation `responses`. */
  function InfoCall(st: TagState, msToken: Json, responses: seq<Json>): Called {
    if st.name.Unset? then Called(st, [], Err(AttributeError))
    else if !Truthy(st.name.value) then Called(st, [], Err(TypeError))
    else
      var req := DetailRequest(st.name.value, msToken);
      var resp := At(responses, 0);
      if resp == Null then Called(st, [req], Err(InvalidResponse))
      else
        var x := Extraction(st.(asDict := Set(resp)), resp);
        Called(x.state, [req], if x.error.Some? then Err(x.error.value) else Ok(resp))
  }

  /** Number of items per page of the challenge listing. */
  const PageSize := 30

  /** The cursor of a page: page 1 starts at 0, each further page 30 items later. */
  function PageCursor(page: int): int {
    (page - 1) * PageSize
  }

  function ItemListRequest(id: Json, count: int, page: int): Request {
    Request(ChallengeItemListUrl, map["challengeID" := id, "count" := Int(count), "cursor" := Int(PageCursor(page))])
  }

  /** Resolution before listing: `info()` runs only while `id` is None. */
  function Resolve(st: TagState, msToken: Json, responses: seq<Json>): Called {
    if st.id.OrNone() == Null then InfoCall(st, msToken, responses) else Called(st, [], Ok(Null))
  }

  /** The one item-list request of `videos` once `id` is known, and what it yields. */
  function PageListing(st: TagState, count: int, page: int, responses: seq<Json>): Listing
    requires st.id.Set?
  {
    var reqs := [ItemListRequest(st.id.value, count, page)];
    var resp := At(responses, 0);
    if resp == Null then Listing(st, [], reqs, Some(InvalidResponse))
    else match IterGet(resp, "itemList")
      case Err(e) => Listing(st, [], reqs, Some(e))
      case Ok(items) => Listing(st, items, reqs, None)
  }

  /** The rest of `videos` once resolution `pre` has run on the conversation `responses`. */
  function AfterResolve(pre: Called, count: int, page: int, responses: seq<Json>): Listing {
    if pre.result.Err? then Listing(pre.state, [], pre.requests, Some(pre.result.error))
    else if pre.state.id.Unset? then Listing(pre.state, [], pre.requests, Some(AttributeError))
    else
      var l := PageListing(pre.state, count, page, Drop(responses, |pre.requests|));
      Listing(l.state, l.yielded, pre.requests + l.requests, l.error)
  }

  /** `videos(count, page, ms_token=msToken)` consumed to the end. */
  function VideosCall(st: TagState, count: int, page: int, msToken: Json, responses: seq<Json>): Listing {
    AfterResolve(Resolve(st, msToken, responses), count, page, responses)
  }

  /** `str(obj)` of a Hashtag or a Place, `kind` being the class shown. */
  function Describe(kind: string, st: TagState): string {
    "TikTokApi." + kind + "(id='" + PyStr(st.id.OrNone()) + "', name='" + PyStr(st.name.OrNone()) + "')"
  }

  // ---------------------------------------------------------------------------------------------
  // The object

  class Hashtag {
    var id: Attr
    var name: Attr
    var asDict: Attr
    var splitName: Attr
    var stats: Attr

    function State(): TagState
      reads this
    {
      TagState(id, name, asDict, splitName, stats)
    }

    /** `Hashtag(name, id)` without a payload. */
    constructor (tagName: Json, tagId: Json)
      ensures State() == Fresh(tagName, tagId)
    {
      name := if tagName == Null then Unset else Set(tagName);
      id := if tagId == Null then Unset else Set(tagId);
      asDict, splitName, stats := Unset, Unset, Unset;
    }

    /** `Hashtag(name, id, data)`; when `err` is not None the constructor raised it. */
    static method Create(name: Json, id: Json, data: Json) returns (h: Hashtag, err: Option<Error>)
      ensures fresh(h)
      ensures h.State() == Construction(name, id, data).state
      ensures err == Construction(name, id, data).error
    {
      h := new Hashtag(name, id);
      err := None;
      if data != Null {
        h.asDict := Set(data);
        var logged;
        err, logged := h.ExtractFromData();
      }
    }

    /** `__extract_from_data`: reads `as_dict` into the fields; `logged` is the logger.error call. */
    method ExtractFromData() returns (err: Option<Error>, logged: bool)
      requires asDict.Set?
      modifies this
      ensures Extracted(State(), err, logged) == Extraction(old(State()), old(asDict.value))
    {
      var data := asDict.value;
      logged := false;
      if !data.Obj? {
        return Some(AttributeError), false;
      }
      if HasKey(data, "title") {
        var newId := Subscript(data, "id");
        if newId.Err? {
          return Some(newId.error), false;
        }
        id := Set(newId.value);
        name := Set(Lookup(data.fields, "title").value);
      }
      if HasKey(data, "challengeInfo") {
        var info := Lookup(data.fields, "challengeInfo").value;
        var hasChallenge := Contains(info, "challenge");
        if hasChallenge.Err? {
          return Some(hasChallenge.error), false;
        }
        if hasChallenge.value {
          var challenge := Subscript(info, "challenge");
          if challenge.Err? {
            return Some(challenge.error), false;
          }
          var challengeId := Subscript(challenge.value, "id");
          if challengeId.Err? {
            return Some(challengeId.error), false;
          }
          id := Set(challengeId.value);
          var title := Subscript(challenge.value, "title");
          if title.Err? {
            return Some(title.error), false;
          }
          name := Set(title.value);
          splitName := Set(Get(challenge.value, "splitTitle", Null).value);
        }
        var hasStats := Contains(info, "stats").value;
        if hasStats {
          var newStats := Subscript(info, "stats");
          if newStats.Err? {
            return Some(newStats.error), false;
          }
          stats := Set(newStats.value);
        }
      }
      err := None;
      logged := id.OrNone() == Null || name.OrNone() == Null;
    }

    /** `info()`: looks the name up and stores the answer in `as_dict`. */
    method Info(api: Api, msToken: Json) returns (r: Result<Json>)
      modifies this, api
      ensures var c := InfoCall(old(State()), msToken, old(api.pending));
        && State() == c.state && r == c.result
        && api.log == old(api.log) + c.requests
        && api.pending == Drop(old(api.pending), |c.requests|)
    {
      if name.Unset? {
        return Err(AttributeError);
      }
      if !Truthy(name.value) {
        return Err(TypeError);
      }
      var resp := api.MakeRequest(DetailRequest(name.value, msToken));
      if resp == Null {
        return Err(InvalidResponse);
      }
      asDict := Set(resp);
      var err, logged := ExtractFromData();
      if err.Some? {
        return Err(err.value);
      }
      return Ok(resp);
    }

    /** The id check at the head of `videos`: `info()` is called only while `id` is None or unset. */
    method ResolveId(api: Api, msToken: Json) returns (r: Result<Json>, ghost pre: Called)
      modifies this, api
      ensures pre == Resolve(old(State()), msToken, old(api.pending))
      ensures State() == pre.state && r == pre.result
      ensures api.log == old(api.log) + pre.requests
      ensures api.pending == Drop(old(api.pending), |pre.requests|)
    {
      pre := Resolve(State(), msToken, api.pending);
      if id.OrNone() == Null {
        r := Info(api, msToken);
      } else {
        r := Ok(Null);
      }
    }

    /** `videos(count, page)`: every item of the one page requested, in order. */
    method Videos(api: Api, count: int, page: int, msToken: Json) returns (yielded: seq<Json>, err: Option<Error>)
      modifies this, api
      ensures var v := VideosCall(old(State()), count, page, msToken, old(api.pending));
        && State() == v.state && yielded == v.yielded && err == v.error
        && api.log == old(api.log) + v.requests
        && api.pending == Drop(old(api.pending), |v.requests|)
    {
      var r, pre := ResolveId(api, msToken);
      if r.Err? {
        yielded, err := [], Some(r.error);
      } else if id.Unset? {
        yielded, err := [], Some(AttributeError);
      } else {
        ghost var l;
        yielded, err, l := ListPage(api, count, page);
        DropDrop(old(api.pending), |pre.requests|, |l.requests|);
        AppendAssoc(old(api.log), pre.requests, l.requests);
      }
    }

    /** The part of `videos` after `id` is known: one request, then the `for` loop over `itemList`. */
    method ListPage(api: Api, count: int, page: int) returns (yielded: seq<Json>, err: Option<Error>, ghost l: Listing)
      requires id.Set?
      modifies api
      ensures l == PageListing(State(), count, page, old(api.pending))
      ensures yielded == l.yielded && err == l.error
      ensures api.log == old(api.log) + l.requests
      ensures api.pending == Drop(old(api.pending), |l.requests|)
    {
      l := PageListing(State(), count, page, api.pending);
      yielded := [];
      var resp := api.MakeRequest(ItemListRequest(id.value, count, page));
      if resp == Null {
        return [], Some(InvalidResponse), l;
      }
      var items := IterGet(resp, "itemList");
      if items.Err? {
        return [], Some(items.error), l;
      }
      var found := 0;
      for k := 0 to |items.value|
        invariant yielded == items.value[..k] && found == k
      {
        yielded := yielded + [items.value[k]];
        found := found + 1;
      }
      assert items.value[..|items.value|] == items.value;
      err := None;
    }

    function ToString(): (s: string)
      reads this
      ensures s == Describe("hashtag", State())
    {
      Describe("hashtag", State())
    }
  }

  // ---------------------------------------------------------------------------------------------
  // Properties

  /** Page-indexed cursor: a fixed stride of 30 per page, page 1 at 0 and page 3 at 60. */
  lemma PageCursorStride(page: int)
    ensures PageCursor(1) == 0 && PageCursor(3) == 60
    ensures PageCursor(page + 1) == PageCursor(page) + 30
  {
  }

  /** With `id` already set, `videos` issues exactly one request, to item_list, keyed by that id; `count` is only forwarded. */
  lemma VideosWithIdIssuesOneRequest(st: TagState, count: int, page: int, msToken: Json, responses: seq<Json>)
    requires st.id.OrNone() != Null
    ensures var v := VideosCall(st, count, page, msToken, responses);
      && v.requests == [ItemListRequest(st.id.value, count, page)]
      && v.requests[0].params["cursor"] == Int((page - 1) * 30)
      && v.state == st
  {
  }

  /** Without an `id`, `videos` first asks the detail endpoint for the name. */
  lemma VideosWithoutIdAsksInfoFirst(st: TagState, count: int, page: int, msToken: Json, responses: seq<Json>)
    requires st.id.OrNone() == Null && st.name.Set? && Truthy(st.name.value)
    ensures var v := VideosCall(st, count, page, msToken, responses);
      |v.requests| >= 1 && v.requests[0] == DetailRequest(st.name.value, msToken)
  {
  }

  /**
   * The items yielded are exactly the listing answer's `itemList` in order, whatever `count` is; a
   * missing list yields nothing. The listing answer is the first one when `id` is already known,
   * and the one after the detail lookup when `id` had to be resolved.
   */
  lemma VideosYieldsThePage(st: TagState, count: int, page: int, msToken: Json, responses: seq<Json>)
    ensures st.id.OrNone() != Null && |responses| >= 1 && responses[0].Obj? ==>
      var v := VideosCall(st, count, page, msToken, responses);
      && (HasKey(responses[0], "itemList") && Lookup(responses[0].fields, "itemList").value.List? ==>
            v.error == None && v.yielded == Lookup(responses[0].fields, "itemList").value.items)
      && (!HasKey(responses[0], "itemList") ==> v.error == None && v.yielded == [])
    ensures var pre := Resolve(st, msToken, responses);
      var resp := At(responses, |pre.requests|);
      pre.result.Ok? && pre.state.id.Set? && resp.Obj? ==>
        var v := VideosCall(st, count, page, msToken, responses);
        && (HasKey(resp, "itemList") && Lookup(resp.fields, "itemList").value.List? ==>
              v.error == None && v.yielded == Lookup(resp.fields, "itemList").value.items)
        && (!HasKey(resp, "itemList") ==> v.error == None && v.yielded == [])
  {
    var pre := Resolve(st, msToken, responses);
    assert At(Drop(responses, |pre.requests|), 0) == At(responses, |pre.requests|);
  }

  /** `count` is not enforced: a page longer than `count` is yielded whole. */
  lemma VideosIgnoresCount(a: Json, b: Json)
    ensures var resp := Obj([Field("itemList", List([a, b]))]);
      VideosCall(Fresh(Str("funny"), Str("111")), 1, 1, Null, [resp]).yielded == [a, b]
  {
  }

  /**
   * A None answer raises InvalidResponse before anything is yielded: in `info`, in `videos` when
   * its first request (the detail lookup or the listing) is answered None, and in `videos` when the
   * listing that follows a successful resolution is answered None.
   */
  lemma NoneAnswerRaises(st: TagState, count: int, page: int, msToken: Json, responses: seq<Json>)
    ensures st.name.Set? && Truthy(st.name.value) && At(responses, 0) == Null ==>
      InfoCall(st, msToken, responses) == Called(st, [DetailRequest(st.name.value, msToken)], Err(InvalidResponse))
    ensures At(responses, 0) == Null && (st.id.OrNone() != Null || (st.name.Set? && Truthy(st.name.value))) ==>
      var v := VideosCall(st, count, page, msToken, responses);
      v.error == Some(InvalidResponse) && v.yielded == [] && |v.requests| == 1
    ensures var pre := Resolve(st, msToken, responses);
      pre.result.Ok? && pre.state.id.Set? && At(responses, |pre.requests|) == Null ==>
        VideosCall(st, count, page, msToken, responses)
          == Listing(pre.state, [], pre.requests + [ItemListRequest(pre.state.id.value, count, page)], Some(InvalidResponse))
  {
    var pre := Resolve(st, msToken, responses);
    assert At(Drop(responses, |pre.requests|), 0) == At(responses, |pre.requests|);
  }

  /** Without a name `info` raises (TypeError for a falsy name, AttributeError when never assigned) and issues nothing. */
  lemma InfoWithoutNameRaises(st: TagState, msToken: Json, responses: seq<Json>)
    requires !(st.name.Set? && Truthy(st.name.value))
    ensures var c := InfoCall(st, msToken, responses);
      && c.requests == [] && c.state == st
      && c.result == Err(if st.name.Unset? then AttributeError else TypeError)
  {
  }

  /** `info` always dispatches (it does not cache), stores the answer in `as_dict` and returns it unchanged. */
  lemma InfoStoresAnswer(st: TagState, msToken: Json, responses: seq<Json>)
    requires st.name.Set? && Truthy(st.name.value) && At(responses, 0) != Null
    ensures var c := InfoCall(st, msToken, responses);
      && c.requests == [DetailRequest(st.name.value, msToken)]
      && c.state.asDict == Set(At(responses, 0))
      && (c.result.Ok? ==> c.result.value == At(responses, 0))
  {
  }

  /** A top-level `title` sets `id := data["id"]` and `name := data["title"]`. */
  lemma ExtractTitle(st: TagState, data: Json)
    requires data.Obj? && HasKey(data, "title") && HasKey(data, "id") && !HasKey(data, "challengeInfo")
    ensures var x := Extraction(st, data);
      && x.error == None
      && x.state == st.(id := Set(Lookup(data.fields, "id").value), name := Set(Lookup(data.fields, "title").value))
  {
  }

  /** A `challengeInfo.challenge` entry overrides a top-level `title` because it is applied later. */
  lemma ExtractChallengeWins(st: TagState, data: Json)
    requires data.Obj? && HasKey(data, "challengeInfo")
    requires (HasKey(data, "title") ==> HasKey(data, "id"))
    requires var info := Lookup(data.fields, "challengeInfo").value;
      && HasKey(info, "challenge")
      && HasKey(Lookup(info.fields, "challenge").value, "id")
      && HasKey(Lookup(info.fields, "challenge").value, "title")
    ensures var x := Extraction(st, data);
      var challenge := Lookup(Lookup(data.fields, "challengeInfo").value.fields, "challenge").value;
      && x.state.id == Set(Lookup(challenge.fields, "id").value)
      && x.state.name == Set(Lookup(challenge.fields, "title").value)
  {
  }

  /** Without `title` and `challengeInfo` the labels are left as they were. */
  lemma ExtractNeitherKeepsLabels(st: TagState, data: Json)
    requires data.Obj? && !HasKey(data, "title") && !HasKey(data, "challengeInfo")
    ensures Extraction(st, data) == Extracted(st, None, Incomplete(st))
  {
  }

  /** A completed extraction logs an error exactly when `id` or `name` is still None. */
  lemma ExtractLogsIffIncomplete(st: TagState, data: Json)
    ensures var x := Extraction(st, data);
      x.error == None ==> (x.logged <==> x.state.id.OrNone() == Null || x.state.name.OrNone() == Null)
    ensures Extraction(st, data).error != None ==> !Extraction(st, data).logged
  {
  }

  /** Extraction is not transactional: a challenge without `title` raises KeyError after `id` was overwritten. */
  lemma ExtractPartialUpdate(st: TagState, cid: Json)
    ensures var data := Obj([Field("challengeInfo", Obj([Field("challenge", Obj([Field("id", cid)]))]))]);
      Extraction(st, data) == Extracted(st.(id := Set(cid)), Some(KeyError), false)
  {
    assert Lookup([Field("id", cid)], "title") == None;
  }

  /** A label never assigned and a label set to None print alike. */
  lemma DescribeUnsetAsNone(kind: string, st: TagState)
    ensures Describe(kind, st.(id := Unset)) == Describe(kind, st.(id := Set(Null)))
    ensures Describe(kind, st.(name := Unset)) == Describe(kind, st.(name := Set(Null)))
  {
  }
}
