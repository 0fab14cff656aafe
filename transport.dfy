/**
 * The parent's `make_request`, seen from the entities: a session that answers each request with
 * the next decoded payload of a fixed conversation and records every request it was asked to send.
 * A failed or undecodable answer is `Null` (Python's `None`); once the conversation is exhausted
 * every further request is answered with `Null` too.
 */
module Transport {
  import opened JsonValues

  const ChallengeDetailUrl := "https://www.tiktok.com/api/challenge/detail/"
  const ChallengeItemListUrl := "https://www.tiktok.com/api/challenge/item_list/"
  const PoiItemListUrl := "https://www.tiktok.com/api/poi/item_list/"
  const SearchItemFullUrl := "https://www.tiktok.com/api/search/item/full/"

  /** One call of `make_request`: the endpoint and its query parameters. */
  datatype Request = Request(url: string, params: map<string, Json>)

  /** The answer to the `k`-th request of a conversation. */
  function At(responses: seq<Json>, k: nat): Json {
    if k < |responses| then responses[k] else Null
  }

  /** The conversation left after `n` requests. */
  function Drop(responses: seq<Json>, n: nat): seq<Json> {
    if n <= |responses| then responses[n..] else []
  }

  lemma DropDrop(responses: seq<Json>, m: nat, n: nat)
    ensures Drop(Drop(responses, m), n) == Drop(responses, m + n)
  {
  }

  /** Logs grow by concatenation; regrouping the appended pieces does not change the log. */
  lemma AppendAssoc<T>(a: seq<T>, b: seq<T>, c: seq<T>)
    ensures a + b + c == a + (b + c)
  {
  }

  class Api {
    /** The answers still to be given, in order. */
    var pending: seq<Json>
    /** Every request issued so far, in order. */
    var log: seq<Request>

    constructor (conversation: seq<Json>)
      ensures pending == conversation && log == []
    {
      pending := conversation;
      log := [];
    }

    method MakeRequest(req: Request) returns (resp: Json)
      modifies this
      ensures resp == At(old(pending), 0)
      ensures pending == Drop(old(pending), 1)
      ensures log == old(log) + [req]
    {
      resp := At(pending, 0);
      pending := Drop(pending, 1);
      log := log + [req];
    }
  }
}
