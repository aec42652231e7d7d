/**
 * HTTP and URL values shared by the handlers: Go's url.Values, a parsed URL,
 * and the response record every handler returns.
 */
module Web {
  import opened Wrappers
  import opened Text

  /** url.Values: each key maps to its list of values. */
  type Values = map<string, seq<string>>

  /** The values stored under `k`, the empty list when there are none. */
  function ValuesOf(q: Values, k: string): seq<string> {
    if k in q then q[k] else []
  }

  /** url.Values.Set: `k` now has exactly the one value `v`. */
  function Set(q: Values, k: string, v: string): (r: Values)
    ensures r.Keys == q.Keys + {k}
    ensures ValuesOf(r, k) == [v]
    ensures forall k' :: k' != k ==> ValuesOf(r, k') == ValuesOf(q, k')
  {
    q[k := [v]]
  }

  /** url.Values.Add: `v` goes at the end of the values of `k`. */
  function Add(q: Values, k: string, v: string): (r: Values)
    ensures r.Keys == q.Keys + {k}
    ensures ValuesOf(r, k) == ValuesOf(q, k) + [v]
    ensures forall k' :: k' != k ==> ValuesOf(r, k') == ValuesOf(q, k')
  {
    q[k := ValuesOf(q, k) + [v]]
  }

  /**
   * A URL as url.Parse returns it: the host name (without port), everything
   * but the query as `base`, and the decoded query.
   */
  datatype Url = Url(hostname: string, base: string, query: Values)

  /**
   * url.Parse and URL.String, which belong to Go's library and are given to
   * the model as functions. `Parse` answering None is url.Parse's error.
   */
  datatype UrlCodec = UrlCodec(Parse: string -> Option<Url>, Render: Url -> string)

  /** responder.Response and micropub.HttpResponse. */
  datatype Response = Response(statusCode: int, headers: map<string, string>, body: string)

  const StatusOK := 200
  const StatusSeeOther := 303
  const StatusBadRequest := 400
  const StatusForbidden := 403
  const StatusInternalServerError := 500

  /** A 303 redirect to `location`. */
  function SeeOther(location: string): Response {
    Response(StatusSeeOther, map["Location" := location], "")
  }

  /** A response that only carries a status and a body. */
  function Status(code: int, body: string): Response {
    Response(code, map[], body)
  }

  /** The part of a URL before its first '?'. */
  function BasePart(u: string): string {
    if '?' in u then u[..IndexOf(u, '?')] else u
  }

  /** The parameters of a URL's query: the text after the first '?', split at '&'. */
  function QueryParams(u: string): seq<string> {
    if '?' in u then Split(u[IndexOf(u, '?') + 1..], '&') else []
  }

  /** A URL built as endpoint, '?', then the parameters joined with '&', reads back as those. */
  lemma {:induction false} QueryRoundTrip(endpoint: string, params: seq<string>)
    requires '?' !in endpoint
    requires |params| >= 1 && forall p :: p in params ==> '&' !in p
    ensures BasePart(endpoint + "?" + Join(params, '&')) == endpoint
    ensures QueryParams(endpoint + "?" + Join(params, '&')) == params
  {
    var u := endpoint + "?" + Join(params, '&');
    assert u[..|endpoint|] == endpoint;
    IndexOfAt(u, '?', |endpoint|);
    assert u[|endpoint| + 1..] == Join(params, '&');
    SplitJoin(params, '&');
  }
}
