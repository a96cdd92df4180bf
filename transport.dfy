/**
 * The transport as the resource clients see it.  Sending a request is
 * abstracted to appending a record to a log of issued requests; what the
 * service answers is not part of this module.
 */
module Transport {
  import opened Values
  import opened Filter

  /** One issued request: a GET with its optional query map, or a POST with its JSON body. */
  datatype Call = GetCall(url: string, params: Option<Params>) | PostCall(url: string, json: Body)

  /** The service address a client uses unless its caller gives another. */
  const DefaultBaseUrl: string := "https://ssapi.shipstation.com"

  /** A request URL is the base URL followed by the endpoint, with no separator added or removed. */
  function Url(baseUrl: string, endpoint: string): string
  {
    baseUrl + endpoint
  }

  /** The base URL and the endpoint can be read back off a request URL. */
  lemma UrlSplits(baseUrl: string, endpoint: string)
    ensures |Url(baseUrl, endpoint)| == |baseUrl| + |endpoint|
    ensures Url(baseUrl, endpoint)[..|baseUrl|] == baseUrl
    ensures Url(baseUrl, endpoint)[|baseUrl|..] == endpoint
  {
  }

  /** On one base URL, different endpoints give different request URLs. */
  lemma UrlInjective(baseUrl: string, e1: string, e2: string)
    ensures Url(baseUrl, e1) == Url(baseUrl, e2) ==> e1 == e2
  {
    if Url(baseUrl, e1) == Url(baseUrl, e2) {
      UrlSplits(baseUrl, e1);
      UrlSplits(baseUrl, e2);
    }
  }

  /** A base URL with a trailing slash is not normalised: the slash is doubled. */
  lemma UrlKeepsTrailingSlash()
    ensures Url(DefaultBaseUrl + "/", "/orders") == "https://ssapi.shipstation.com//orders"
  {
  }

  /** The request handler shared by the resource clients. */
  class Request {
    const baseUrl: string
    /** Every request issued through this handler, oldest first. */
    var log: seq<Call>

    constructor (baseUrl: string := DefaultBaseUrl)
      ensures this.baseUrl == baseUrl && log == []
    {
      this.baseUrl := baseUrl;
      log := [];
    }

    method Get(endpoint: string, params: Option<Params> := None)
      modifies this
      ensures log == old(log) + [GetCall(Url(baseUrl, endpoint), params)]
    {
      log := log + [GetCall(Url(baseUrl, endpoint), params)];
    }

    method Post(endpoint: string, json: Body)
      modifies this
      ensures log == old(log) + [PostCall(Url(baseUrl, endpoint), json)]
    {
      log := log + [PostCall(Url(baseUrl, endpoint), json)];
    }
  }
}
