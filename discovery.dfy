/**
 * The login's use of the user's profile page: the authorization request URL,
 * endpoint discovery from the HTTP Link header (RFC 8288) or the page's
 * `<link rel=...>` elements, and the micropub configuration query that finds
 * the media endpoint.
 */
module Discovery {
  import opened Wrappers
  import opened Web
  import opened Sessions

  // ---------------------------------------------------------------------------
  // The authorization request (section 4.1.1 of RFC 6749)
  // ---------------------------------------------------------------------------

  /** The parameters the authorization request sets. */
  const AuthParams: set<string> := {"me", "client_id", "redirect_uri", "state", "scope", "response_type"}

  /**
   * BuildAuthRedirectUrl, before the URL is rendered as text: the authorization
   * endpoint with exactly the six request parameters set, replacing any
   * same-named ones and keeping every other parameter; an unparsable endpoint
   * is an error.
   */
  function BuildAuthRedirectUrl<L>(s: UserSession<L>, codec: UrlCodec): (r: Result<Url>)
    ensures r.Ok? <==> codec.Parse(s.authorizationEndpoint).Some?
    ensures r.Ok? ==>
      var u := codec.Parse(s.authorizationEndpoint).value;
      var q := r.value.query;
      && r.value.hostname == u.hostname && r.value.base == u.base
      && ValuesOf(q, "me") == [s.me]
      && ValuesOf(q, "client_id") == [s.clientId]
      && ValuesOf(q, "redirect_uri") == [s.redirectUri]
      && ValuesOf(q, "state") == [s.state]
      && ValuesOf(q, "scope") == [s.scope]
      && ValuesOf(q, "response_type") == ["code"]
      && q.Keys == u.query.Keys + AuthParams
      && (forall k :: k !in AuthParams ==> ValuesOf(q, k) == ValuesOf(u.query, k))
  {
    match codec.Parse(s.authorizationEndpoint)
    case None => Err("failed to parse authorization endpoint")
    case Some(u) =>
      var q := Set(u.query, "me", s.me);
      var q := Set(q, "client_id", s.clientId);
      var q := Set(q, "redirect_uri", s.redirectUri);
      var q := Set(q, "state", s.state);
      var q := Set(q, "scope", s.scope);
      var q := Set(q, "response_type", "code");
      Ok(u.(query := q))
  }

  // ---------------------------------------------------------------------------
  // The profile page and its Link header
  // ---------------------------------------------------------------------------

  datatype NodeKind = ElementNode | TextNode | OtherNode

  datatype Attribute = Attribute(key: string, val: string)

  /** A node of the parsed HTML tree with its children in document order. */
  datatype Node = Node(kind: NodeKind, data: string, attrs: seq<Attribute>, children: seq<Node>)

  /** One link of a Link header value. */
  datatype Link = Link(url: string, rel: string)

  /**
   * One value of the response's Link header: its text, and the links the
   * header parser reads from it.
   */
  datatype LinkValue = LinkValue(raw: string, links: seq<Link>)

  /** The Link header branch is taken when the header's first value is non-empty. */
  predicate HasLinkHeader(head: seq<LinkValue>) {
    |head| > 0 && head[0].raw != ""
  }

  /** The first link with the given rel, its URL. */
  function FirstRel(links: seq<Link>, rel: string): (r: Option<string>)
    ensures r.Some? <==> exists i :: 0 <= i < |links| && links[i].rel == rel
    ensures r.Some? ==> exists i :: (0 <= i < |links| && links[i].rel == rel && links[i].url == r.value
      && forall j :: 0 <= j < i ==> links[j].rel != rel)
  {
    if links == [] then None
    else if links[0].rel == rel then Some(links[0].url)
    else
      var r := FirstRel(links[1..], rel);
      assert forall i :: 1 <= i < |links| ==> links[i] == links[1..][i - 1];
      if r.Some? then
        ghost var i :| 0 <= i < |links[1..]| && links[1..][i].rel == rel && links[1..][i].url == r.value
          && forall j :: 0 <= j < i ==> links[1..][j].rel != rel;
        assert links[i + 1] == links[1..][i];
        r
      else r
  }

  /** The first link, over all header values in order, with the given rel. */
  function HeaderLookup(head: seq<LinkValue>, rel: string): Option<string> {
    if head == [] then None
    else if FirstRel(head[0].links, rel).Some? then FirstRel(head[0].links, rel)
    else HeaderLookup(head[1..], rel)
  }

  /** The value of the first attribute with the given key. */
  function FirstAttr(attrs: seq<Attribute>, key: string): Option<string> {
    if attrs == [] then None
    else if attrs[0].key == key then Some(attrs[0].val)
    else FirstAttr(attrs[1..], key)
  }

  predicate HasAttr(attrs: seq<Attribute>, key: string, val: string) {
    exists i :: 0 <= i < |attrs| && attrs[i] == Attribute(key, val)
  }

  /**
   * What a node itself says about the endpoint: a `<link>` element with
   * rel exactly `name` and some href yields its first href.
   */
  function Hit(n: Node, name: string): Option<string> {
    if n.kind == ElementNode && n.data == "link" && HasAttr(n.attrs, "rel", name) then FirstAttr(n.attrs, "href")
    else None
  }

  /** The HTML search: the node's own link, else its children in order, first non-empty wins. */
  function InTree(n: Node, name: string): string
    decreases n, |n.children| + 1
  {
    if Hit(n, name).Some? then Hit(n, name).value else InChildren(n, 0, name)
  }

  function InChildren(n: Node, i: nat, name: string): string
    requires i <= |n.children|
    decreases n, |n.children| - i
  {
    if i == |n.children| then ""
    else
      var r := InTree(n.children[i], name);
      if r != "" then r else InChildren(n, i + 1, name)
  }

  /** findEndpoint's answer: the Link header alone when present, the HTML otherwise. */
  function LinkedEndpoint(n: Node, name: string, head: seq<LinkValue>): string {
    if HasLinkHeader(head) then
      (match HeaderLookup(head, name) case Some(u) => u case None => "")
    else InTree(n, name)
  }

  /**
   * findEndpoint. With a Link header it returns the first link whose rel is
   * `name` (or "") and never looks at the page; without one it searches the
   * page from `n`.
   */
  method FindEndpoint(n: Node, name: string, head: seq<LinkValue>) returns (out: string)
    ensures HasLinkHeader(head) ==> out == (match HeaderLookup(head, name) case Some(u) => u case None => "")
    ensures !HasLinkHeader(head) ==> out == InTree(n, name)
    decreases n
  {
    if HasLinkHeader(head) {
      var i := 0;
      while i < |head|
        invariant 0 <= i <= |head|
        invariant HeaderLookup(head, name) == HeaderLookup(head[i..], name)
      {
        var links := head[i].links;
        var j := 0;
        while j < |links|
          invariant 0 <= j <= |links|
          invariant FirstRel(links, name) == FirstRel(links[j..], name)
        {
          if links[j].rel == name {
            return links[j].url;
          }
          assert links[j..][1..] == links[j + 1..];
          j := j + 1;
        }
        assert head[i..][1..] == head[i + 1..];
        i := i + 1;
      }
      return "";
    }
    if n.kind == ElementNode && n.data == "link" {
      var k := 0;
      while k < |n.attrs|
        invariant 0 <= k <= |n.attrs|
        invariant forall p :: 0 <= p < k && n.attrs[p] == Attribute("rel", name) ==> FirstAttr(n.attrs, "href") == None
      {
        if n.attrs[k].key == "rel" && n.attrs[k].val == name {
          var m := 0;
          while m < |n.attrs|
            invariant 0 <= m <= |n.attrs|
            invariant FirstAttr(n.attrs, "href") == FirstAttr(n.attrs[m..], "href")
          {
            if n.attrs[m].key == "href" {
              return n.attrs[m].val;
            }
            assert n.attrs[m..][1..] == n.attrs[m + 1..];
            m := m + 1;
          }
        }
        k := k + 1;
      }
    }
    assert Hit(n, name) == None;
    out := "";
    var i := 0;
    while i < |n.children|
      invariant 0 <= i <= |n.children|
      invariant InChildren(n, 0, name) == InChildren(n, i, name)
    {
      out := FindEndpoint(n.children[i], name, head);
      if out != "" {
        return out;
      }
      i := i + 1;
    }
    out := "";
  }

  // ---------------------------------------------------------------------------
  // The HTML search is the first answer of a pre-order walk
  // ---------------------------------------------------------------------------

  /** The nodes a pre-order walk visits; a node that answers ends its subtree. */
  function PreOrder(n: Node, name: string): seq<Node>
    decreases n, |n.children| + 1
  {
    if Hit(n, name).Some? then [n] else [n] + ChildrenPreOrder(n, 0, name)
  }

  function ChildrenPreOrder(n: Node, i: nat, name: string): seq<Node>
    requires i <= |n.children|
    decreases n, |n.children| - i
  {
    if i == |n.children| then [] else PreOrder(n.children[i], name) + ChildrenPreOrder(n, i + 1, name)
  }

  /**
   * The first non-empty answer among the visited nodes; a non-empty result is
   * the href of a matching `<link>`, and "" means no visited node gave one.
   */
  function FirstFound(ns: seq<Node>, name: string): (r: string)
    ensures r != "" ==> exists i :: 0 <= i < |ns| && Hit(ns[i], name) == Some(r)
    ensures r == "" ==> forall i :: 0 <= i < |ns| ==> Hit(ns[i], name) in {None, Some("")}
  {
    if ns == [] then ""
    else if Hit(ns[0], name).Some? && Hit(ns[0], name).value != "" then Hit(ns[0], name).value
    else
      var r := FirstFound(ns[1..], name);
      assert forall i :: 1 <= i < |ns| ==> ns[i] == ns[1..][i - 1];
      if r != "" then
        ghost var i :| 0 <= i < |ns[1..]| && Hit(ns[1..][i], name) == Some(r);
        assert ns[i + 1] == ns[1..][i];
        r
      else r
  }

  lemma {:induction false} FirstFoundAppend(a: seq<Node>, b: seq<Node>, name: string)
    ensures FirstFound(a + b, name) == if FirstFound(a, name) != "" then FirstFound(a, name) else FirstFound(b, name)
  {
    if a != [] {
      assert (a + b)[1..] == a[1..] + b;
      FirstFoundAppend(a[1..], b, name);
    } else {
      assert a + b == b;
    }
  }

  /**
   * The recursive HTML search finds exactly the first non-empty href of a
   * pre-order depth-first walk, children in document order.
   */
  lemma {:induction false} InTreePreOrder(n: Node, name: string)
    ensures InTree(n, name) == FirstFound(PreOrder(n, name), name)
    decreases n, |n.children| + 1
  {
    if Hit(n, name).Some? {
      assert PreOrder(n, name) == [n];
      assert FirstFound([n][1..], name) == "";
    } else {
      InChildrenPreOrder(n, 0, name);
      FirstFoundAppend([n], ChildrenPreOrder(n, 0, name), name);
      assert FirstFound([n], name) == "" by {
        assert [n][1..] == [];
      }
    }
  }

  lemma {:induction false} InChildrenPreOrder(n: Node, i: nat, name: string)
    requires i <= |n.children|
    ensures InChildren(n, i, name) == FirstFound(ChildrenPreOrder(n, i, name), name)
    decreases n, |n.children| - i
  {
    if i < |n.children| {
      InTreePreOrder(n.children[i], name);
      InChildrenPreOrder(n, i + 1, name);
      FirstFoundAppend(PreOrder(n.children[i], name), ChildrenPreOrder(n, i + 1, name), name);
    }
  }

  // ---------------------------------------------------------------------------
  // DiscoverEndpoints, discoverMediaEndpoint and buildConfigUrl
  // ---------------------------------------------------------------------------

  /** The GET of the profile page: a transport error, or status, Link header and parsed page. */
  datatype ProfileFetch = FetchFailed(err: string) | Fetched(statusCode: int, link: seq<LinkValue>, doc: Result<Node>)

  /**
   * buildConfigUrl, before rendering: the micropub endpoint with q=config,
   * replacing any q and keeping every other parameter.
   */
  function BuildConfigUrl(endpoint: string, codec: UrlCodec): (r: Result<Url>)
    ensures r.Ok? <==> codec.Parse(endpoint).Some?
    ensures r.Ok? ==>
      var u := codec.Parse(endpoint).value;
      && r.value.hostname == u.hostname && r.value.base == u.base
      && ValuesOf(r.value.query, "q") == ["config"]
      && r.value.query.Keys == u.query.Keys + {"q"}
      && (forall k :: k != "q" ==> ValuesOf(r.value.query, k) == ValuesOf(u.query, k))
  {
    match codec.Parse(endpoint)
    case None => Err("failed to parse micropub endpoint")
    case Some(u) => Ok(u.(query := Set(u.query, "q", "config")))
  }

  /**
   * discoverMediaEndpoint. `fetchConfig` is the configuration query: for a
   * URL, the media endpoint the server reports or an error. Only the media
   * endpoint changes; it is reset first and set only when the micropub
   * endpoint is known, the query URL builds and the query succeeds.
   */
  function DiscoverMediaEndpoint<L>(s: UserSession<L>, fetchConfig: string -> Result<string>, codec: UrlCodec)
    : (r: UserSession<L>)
    ensures r == s.(mediaEndpoint := r.mediaEndpoint)
    ensures r.mediaEndpoint != "" ==>
      && s.micropubEndpoint != ""
      && BuildConfigUrl(s.micropubEndpoint, codec).Ok?
      && fetchConfig(codec.Render(BuildConfigUrl(s.micropubEndpoint, codec).value)) == Ok(r.mediaEndpoint)
    ensures s.micropubEndpoint == "" || BuildConfigUrl(s.micropubEndpoint, codec).Err? ==> r.mediaEndpoint == ""
    ensures s.micropubEndpoint != "" && BuildConfigUrl(s.micropubEndpoint, codec).Ok? ==>
      var fetched := fetchConfig(codec.Render(BuildConfigUrl(s.micropubEndpoint, codec).value));
      r.mediaEndpoint == (if fetched.Ok? then fetched.value else "")
  {
    var s := s.(mediaEndpoint := "");
    if s.micropubEndpoint == "" then s
    else
      match BuildConfigUrl(s.micropubEndpoint, codec)
      case Err(_) => s
      case Ok(u) =>
        match fetchConfig(codec.Render(u))
        case Err(_) => s
        case Ok(media) => s.(mediaEndpoint := media)
  }

  /**
   * DiscoverEndpoints: the session with its endpoints discovered, and the
   * error when discovery failed.
   */
  function DiscoverEndpoints<L>(s: UserSession<L>, profile: ProfileFetch, fetchConfig: string -> Result<string>, codec: UrlCodec)
    : (r: (UserSession<L>, Option<string>))
  {
    match profile
    case FetchFailed(e) => (s, Some(e))
    case Fetched(status, head, doc) =>
      if status != StatusOK then (s, Some("URL returned a non-200"))
      else if doc.Err? then (s, Some("failed to parse HTML [" + s.me + "][" + doc.error + "]"))
      else
        var s := s.(authorizationEndpoint := LinkedEndpoint(doc.value, "authorization_endpoint", head));
        if s.authorizationEndpoint == "" then (s, Some("failed to find authorization_endpoint"))
        else
          var s := s.(tokenEndpoint := LinkedEndpoint(doc.value, "token_endpoint", head),
                      micropubEndpoint := LinkedEndpoint(doc.value, "micropub", head));
          (DiscoverMediaEndpoint(s, fetchConfig, codec), None)
  }

  /**
   * Discovery succeeds exactly when the profile answers 200 with a parsable
   * page that names an authorization endpoint. A failed fetch, a non-200 or an
   * unparsable page changes nothing; a missing authorization endpoint fails
   * before the token and micropub endpoints are looked up, so those keep their
   * values.
   */
  lemma DiscoverEndpointsOutcome<L>(s: UserSession<L>, profile: ProfileFetch, fetchConfig: string -> Result<string>, codec: UrlCodec)
    ensures var (t, err) := DiscoverEndpoints(s, profile, fetchConfig, codec);
      && (err.None? <==>
           profile.Fetched? && profile.statusCode == StatusOK && profile.doc.Ok?
           && LinkedEndpoint(profile.doc.value, "authorization_endpoint", profile.link) != "")
      && (profile.FetchFailed? || profile.statusCode != StatusOK || profile.doc.Err? ==> t == s)
      && (err.Some? ==> t.tokenEndpoint == s.tokenEndpoint && t.micropubEndpoint == s.micropubEndpoint
                        && t.mediaEndpoint == s.mediaEndpoint)
      && t.uid == s.uid && t.state == s.state && t.me == s.me && t.accessToken == s.accessToken
      && t.composer == s.composer
      && t.(authorizationEndpoint := s.authorizationEndpoint, tokenEndpoint := s.tokenEndpoint,
            micropubEndpoint := s.micropubEndpoint, mediaEndpoint := s.mediaEndpoint) == s
  {
  }

  /** On success every endpoint is the one findEndpoint reports for the profile. */
  lemma DiscoverEndpointsFound<L>(s: UserSession<L>, profile: ProfileFetch, fetchConfig: string -> Result<string>, codec: UrlCodec)
    requires DiscoverEndpoints(s, profile, fetchConfig, codec).1.None?
    ensures var t := DiscoverEndpoints(s, profile, fetchConfig, codec).0;
      && t.authorizationEndpoint == LinkedEndpoint(profile.doc.value, "authorization_endpoint", profile.link) != ""
      && t.tokenEndpoint == LinkedEndpoint(profile.doc.value, "token_endpoint", profile.link)
      && t.micropubEndpoint == LinkedEndpoint(profile.doc.value, "micropub", profile.link)
      && t == DiscoverMediaEndpoint(t, fetchConfig, codec)
  {
    var t := DiscoverEndpoints(s, profile, fetchConfig, codec).0;
    var mid := s.(authorizationEndpoint := LinkedEndpoint(profile.doc.value, "authorization_endpoint", profile.link),
                  tokenEndpoint := LinkedEndpoint(profile.doc.value, "token_endpoint", profile.link),
                  micropubEndpoint := LinkedEndpoint(profile.doc.value, "micropub", profile.link));
    assert t == DiscoverMediaEndpoint(mid, fetchConfig, codec);
    assert t.(mediaEndpoint := "") == mid.(mediaEndpoint := "");
  }
}
