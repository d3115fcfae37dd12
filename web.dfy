/**
 * The collaborators the core talks to: the visitor's cookie session, the
 * `url_builder` builder, the HTTP client and the configuration read from
 * the environment. Each is reduced to what the core relies on.
 */
module Web {
  import opened Wrappers
  import opened Json

  /** Configuration values, read from environment variables in the service; opaque here. */
  datatype Config = Config(
    discordClientId: string,       // CLIENT_ID
    discordClientSecret: string,   // CLIENT_SECRET
    discordRedirectUri: string,    // DISCORD_REDIRECT_URI
    dsekClientId: string,          // DSEK_CLIENT_ID
    dsekClientSecret: string,      // DSEK_CLIENT_SECRET
    dsekRedirectUri: string)       // DSEK_REDIRECT_URI

  // ---------------------------------------------------------------------
  // URLs
  // ---------------------------------------------------------------------

  /** What a URL builder holds when `build` is called: query parameters in the order they were added. */
  datatype Url = Url(protocol: string, host: string, routes: seq<string>, params: seq<(string, string)>)

  /** The value of the first query parameter called `key`. */
  function QueryValue(params: seq<(string, string)>, key: string): (r: Option<string>)
    ensures r.None? <==> forall i :: 0 <= i < |params| ==> params[i].0 != key
    decreases |params|
  {
    if params == [] then None
    else if params[0].0 == key then Some(params[0].1)
    else QueryValue(params[1..], key)
  }

  /** The first parameter called `key` decides the value. */
  lemma {:induction false} QueryValueAt(params: seq<(string, string)>, i: nat, key: string)
    requires i < |params| && params[i].0 == key
    requires forall j :: 0 <= j < i ==> params[j].0 != key
    ensures QueryValue(params, key) == Some(params[i].1)
    decreases i
  {
    if i > 0 {
      QueryValueAt(params[1..], i - 1, key);
    }
  }

  /** The parameter names in order. */
  function ParamNames(params: seq<(string, string)>): (names: seq<string>)
    ensures |names| == |params|
    ensures forall i :: 0 <= i < |params| ==> names[i] == params[i].0
  {
    seq(|params|, i requires 0 <= i < |params| => params[i].0)
  }

  /** The mutable builder of `url_builder`; each setter changes one part. */
  class UrlBuilder {
    var protocol: string
    var host: string
    var routes: seq<string>
    var params: seq<(string, string)>

    constructor ()
      ensures protocol == [] && host == [] && routes == [] && params == []
    {
      protocol, host, routes, params := [], [], [], [];
    }

    method SetProtocol(p: string)
      modifies this
      ensures protocol == p
      ensures host == old(host) && routes == old(routes) && params == old(params)
    {
      protocol := p;
    }

    method SetHost(h: string)
      modifies this
      ensures host == h
      ensures protocol == old(protocol) && routes == old(routes) && params == old(params)
    {
      host := h;
    }

    method AddRoute(r: string)
      modifies this
      ensures routes == old(routes) + [r]
      ensures protocol == old(protocol) && host == old(host) && params == old(params)
    {
      routes := routes + [r];
    }

    method AddParam(key: string, value: string)
      modifies this
      ensures params == old(params) + [(key, value)]
      ensures protocol == old(protocol) && host == old(host) && routes == old(routes)
    {
      params := params + [(key, value)];
    }

    /** The URL as set so far: each part exactly as the setters left it, parameters in the order added. */
    function Build(): (u: Url)
      reads this
      ensures u.protocol == protocol && u.host == host
      ensures u.routes == routes && u.params == params
    {
      Url(protocol, host, routes, params)
    }
  }

  // ---------------------------------------------------------------------
  // The visitor's session
  // ---------------------------------------------------------------------

  /** The cookie session of one visitor: small string values under string keys. */
  class Session {
    var entries: map<string, string>

    constructor ()
      ensures entries == map[]
    {
      entries := map[];
    }

    method Insert(key: string, value: string)
      modifies this
      ensures entries == old(entries)[key := value]
      ensures Get(key) == Some(value)
      ensures forall k :: k != key ==> Get(k) == old(Get(k))
    {
      entries := entries[key := value];
    }

    /** The value under `key`, if the session holds one. */
    function Get(key: string): (r: Option<string>)
      reads this
      ensures r.Some? <==> key in entries
      ensures r.Some? ==> entries[key] == r.value
    {
      if key in entries then Some(entries[key]) else None
    }
  }

  // ---------------------------------------------------------------------
  // HTTP
  // ---------------------------------------------------------------------

  datatype Method = Get | Post | Put

  datatype Body =
    | NoBody
    | Form(fields: map<string, string>)   // a form built from a `HashMap`: no order
    | JsonBody(value: Json)

  /** An outgoing request; `bearer` is the token of an `Authorization: Bearer` header. */
  datatype Request = Request(verb: Method, url: string, bearer: Option<string>, body: Body)

  /** A response: its status and its body, `None` when the body is not JSON. */
  datatype Response = Response(status: int, body: Option<Json>)

  datatype TransportError = TransportError

  /** Sending a request: the network, the provider and the clock behind it, as one function. */
  type Transport = Request -> Result<Response, TransportError>
}
