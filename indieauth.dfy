/**
 * The IndieAuth login: the token-response check, the domain comparison, and
 * the two steps of the login, Init (create the session, discover endpoints,
 * redirect to the authorization endpoint) and Callback (check the state,
 * exchange the code, compare domains, store the token, set the cookie).
 */
module IndieAuth {
  import opened Wrappers
  import opened Text
  import opened Web
  import opened Sessions
  import opened Discovery

  // ---------------------------------------------------------------------------
  // Token responses
  // ---------------------------------------------------------------------------

  datatype TokenResponse = TokenResponse(
    me: string,
    clientId: string,
    scope: string,
    issuedBy: string,
    error: string,
    errorDescription: string,
    statusCode: int)

  /** TokenResponse.IsValid */
  predicate IsValid(tr: TokenResponse) {
    tr.statusCode == 200 && TrimSpace(tr.me) != "" && TrimSpace(tr.scope) != ""
  }

  /** A token response is valid exactly when it is a 200 whose me and scope are not blank. */
  lemma IsValidIff(tr: TokenResponse)
    ensures IsValid(tr) <==> tr.statusCode == 200 && !AllSpace(tr.me) && !AllSpace(tr.scope)
  {
    TrimSpaceBlank(tr.me);
    TrimSpaceBlank(tr.scope);
  }

  /** The decoded body of the token endpoint's answer to the code exchange. */
  datatype VerifyCodeResponse = VerifyCodeResponse(me: string, scope: string, accessToken: string, tokenType: string)

  // ---------------------------------------------------------------------------
  // Domain comparison as written: a host with fewer than two labels panics
  // ---------------------------------------------------------------------------

  /**
   * parseDomain as written: "" for an unparsable URL, else the last two
   * dot-separated labels of the host; a host without a dot indexes before
   * the start of the label list and panics.
   */
  function ParseDomainAsWritten(dom: string, codec: UrlCodec): (r: Run<string>)
    ensures codec.Parse(dom).None? ==> r == Returned("")
    ensures codec.Parse(dom).Some? ==> (r.Panicked? <==> '.' !in codec.Parse(dom).value.hostname)
  {
    match codec.Parse(dom)
    case None => Returned("")
    case Some(u) =>
      var parts := Split(u.hostname, '.');
      if |parts| < 2 then Panicked("index out of range [-1]")
      else Returned(parts[|parts| - 2] + "." + parts[|parts| - 1])
  }

  /** CompareDomains as written: Returned(true) is a nil error. */
  function CompareDomainsAsWritten(vr: VerifyCodeResponse, other: string, codec: UrlCodec): Run<bool> {
    match ParseDomainAsWritten(vr.me, codec)
    case Panicked(why) => Panicked(why)
    case Returned(d1) =>
      match ParseDomainAsWritten(other, codec)
      case Panicked(why) => Panicked(why)
      case Returned(d2) => Returned(ToLower(d1) == ToLower(d2))
  }

  /**
   * A 200 from the token endpoint whose body has no "me" decodes to an empty
   * me; url.Parse accepts "" with an empty host, so the comparison panics
   * instead of rejecting the login.
   */
  lemma EmptyMePanics(vr: VerifyCodeResponse, other: string, codec: UrlCodec)
    requires vr.me == ""
    requires codec.Parse("") == Some(Url("", "", map[]))
    ensures CompareDomainsAsWritten(vr, other, codec).Panicked?
  {
  }

  // ---------------------------------------------------------------------------
  // Domain comparison, failing closed
  // ---------------------------------------------------------------------------

  /**
   * parseDomain with its panic corrected: "" for an unparsable URL, as
   * written, the last two labels of the host, and None in place of the
   * panic on a host with no dot.
   */
  function ParseDomain(dom: string, codec: UrlCodec): (r: Option<string>)
    ensures r.None? <==> codec.Parse(dom).Some? && '.' !in codec.Parse(dom).value.hostname
    ensures r.None? <==> ParseDomainAsWritten(dom, codec).Panicked?
    ensures r.Some? ==> ParseDomainAsWritten(dom, codec) == Returned(r.value)
  {
    match codec.Parse(dom)
    case None => Some("")
    case Some(u) =>
      var parts := Split(u.hostname, '.');
      if |parts| < 2 then None
      else Some(parts[|parts| - 2] + "." + parts[|parts| - 1])
  }

  /**
   * The reduced domain is the host's last two labels: the host is those two
   * labels, preceded by any further labels.
   */
  lemma ParseDomainLastTwoLabels(dom: string, codec: UrlCodec)
    requires codec.Parse(dom).Some? && ParseDomain(dom, codec).Some?
    ensures exists pre: seq<string>, a: string, b: string ::
      && ParseDomain(dom, codec).value == a + "." + b
      && codec.Parse(dom).value.hostname == Join(pre + [a, b], '.')
      && '.' !in a && '.' !in b && (forall p :: p in pre ==> '.' !in p)
  {
    var parts := Split(codec.Parse(dom).value.hostname, '.');
    var n := |parts|;
    var pre, a, b := parts[..n - 2], parts[n - 2], parts[n - 1];
    assert parts == pre + [a, b];
    assert forall p :: p in pre ==> p in parts;
  }

  /**
   * CompareDomains, failing closed: neither URL panics, and the reduced
   * domains are equal ignoring case (two unparsable URLs both reduce to "",
   * as written).
   */
  predicate CompareDomains(vr: VerifyCodeResponse, other: string, codec: UrlCodec) {
    var d1 := ParseDomain(vr.me, codec);
    var d2 := ParseDomain(other, codec);
    d1.Some? && d2.Some? && ToLower(d1.value) == ToLower(d2.value)
  }

  /**
   * Only the last two labels count: any host under a.b matches a.b itself,
   * so https://jay.example.com matches http://example.com/jay.
   */
  lemma {:induction false} CompareDomainsSubdomain(vr: VerifyCodeResponse, other: string, codec: UrlCodec,
                                                  pre: seq<string>, a: string, b: string)
    requires '.' !in a && '.' !in b && forall p :: p in pre ==> '.' !in p
    requires codec.Parse(vr.me).Some? && codec.Parse(vr.me).value.hostname == Join(pre + [a, b], '.')
    requires codec.Parse(other).Some? && codec.Parse(other).value.hostname == Join([a, b], '.')
    ensures CompareDomains(vr, other, codec)
    ensures ParseDomain(vr.me, codec) == ParseDomain(other, codec) == Some(a + "." + b)
  {
    SplitJoin(pre + [a, b], '.');
    SplitJoin([a, b], '.');
  }

  /**
   * Where the comparison as written returns, the fail-closed comparison
   * agrees with it; where it panics, the fail-closed comparison rejects.
   */
  lemma CompareDomainsAgrees(vr: VerifyCodeResponse, other: string, codec: UrlCodec)
    ensures !CompareDomainsAsWritten(vr, other, codec).Panicked? ==>
              CompareDomainsAsWritten(vr, other, codec) == Returned(CompareDomains(vr, other, codec))
    ensures CompareDomainsAsWritten(vr, other, codec).Panicked? ==> !CompareDomains(vr, other, codec)
  {
  }

  // ---------------------------------------------------------------------------
  // The login steps
  // ---------------------------------------------------------------------------

  /** The code exchange request (section 4.1.3 of RFC 6749) as it is sent. */
  datatype TokenRequest = TokenRequest(endpoint: string, form: Values)

  /** The token endpoint's answer: a transport error, or a status and the read body. */
  datatype TokenReply = TransportFailed(err: string) | Replied(statusCode: int, body: Result<VerifyCodeResponse>)

  /** The body of the code exchange request. */
  function TokenForm(code: string, clientId: string, redirectUri: string, me: string): (form: Values)
    ensures form.Keys == {"grant_type", "code", "client_id", "redirect_uri", "me"}
    ensures ValuesOf(form, "grant_type") == ["authorization_code"]
    ensures ValuesOf(form, "code") == [code]
    ensures ValuesOf(form, "client_id") == [clientId]
    ensures ValuesOf(form, "redirect_uri") == [redirectUri]
    ensures ValuesOf(form, "me") == [me]
  {
    var f := Set(map[], "grant_type", "authorization_code");
    var f := Set(f, "code", code);
    var f := Set(f, "client_id", clientId);
    var f := Set(f, "redirect_uri", redirectUri);
    Set(f, "me", me)
  }

  /** The session cookie set after a successful login. */
  function SessionCookie(uid: string): string {
    "sessionid=" + uid + "; Path=/"
  }

  class Client {
    const store: SessionStore<Location>
    const codec: UrlCodec

    constructor (store: SessionStore<Location>, codec: UrlCodec)
      ensures this.store == store && this.codec == codec
    {
      this.store := store;
      this.codec := codec;
    }

    /**
     * Init. `uid` is the generated session id (None when generation failed),
     * `profile` the GET of the user's URL, `fetchConfig` the micropub
     * configuration query and `storeFault` whether the store write fails.
     * The session is stored only when creation, discovery and the redirect
     * URL all succeed.
     */
    method Init(me: string, clientId: string, redirectUri: string, uid: Option<string>,
                profile: ProfileFetch, fetchConfig: string -> Result<string>, storeFault: bool)
      returns (res: Response)
      requires store.Valid()
      modifies store
      ensures store.Valid()
      ensures uid.None? ==> res == Status(StatusBadRequest, "failed to generate uid") && store.records == old(store.records)
      ensures uid.Some? ==>
        var created := NewUserSession(uid, me, clientId, redirectUri).value;
        var (s, err) := DiscoverEndpoints(created, profile, fetchConfig, codec);
        if err.Some? then res == Status(StatusBadRequest, err.value) && store.records == old(store.records)
        else if BuildAuthRedirectUrl(s, codec).Err? then res == Response(0, map[], "") && store.records == old(store.records)
        else if storeFault then res == Status(StatusInternalServerError, "") && store.records == old(store.records)
        else res == SeeOther(codec.Render(BuildAuthRedirectUrl(s, codec).value))
             && store.records == old(store.records)[s.uid := s]
             && s.state == s.uid == uid.value
      ensures res.statusCode != StatusSeeOther ==> store.records == old(store.records)
    {
      var created := NewUserSession(uid, me, clientId, redirectUri);
      if created.Err? {
        return Status(StatusBadRequest, created.error);
      }
      var (usess, err) := DiscoverEndpoints(created.value, profile, fetchConfig, codec);
      if err.Some? {
        return Status(StatusBadRequest, err.value);
      }
      var authUrl := BuildAuthRedirectUrl(usess, codec);
      if authUrl.Err? {
        return Response(0, map[], "");
      }
      var ok := store.Create(usess, storeFault);
      if !ok {
        return Status(StatusInternalServerError, "");
      }
      res := SeeOther(codec.Render(authUrl.value));
    }

    /**
     * Callback. `reply` is the token endpoint's answer to the code exchange,
     * `fetchFault` and `storeFault` the store's failures. `sent` is the
     * token request when one was made. Every check runs before anything is
     * written: the session is stored only after the state matched, the
     * endpoint answered 200 and the domains matched.
     */
    method Callback(state: string, code: string, clientId: string, redirectUri: string,
                    reply: TokenReply, fetchFault: bool, storeFault: bool)
      returns (res: Response, sent: Option<TokenRequest>)
      requires store.Valid()
      modifies store
      ensures store.Valid()
      ensures res.statusCode != StatusSeeOther ==> store.records == old(store.records)
      ensures fetchFault || state !in old(store.records) ==>
        res == Status(StatusInternalServerError, "") && sent == None
      ensures !fetchFault && state in old(store.records) && old(store.records)[state].state != state ==>
        res == Status(StatusForbidden, "") && sent == None
      ensures !fetchFault && state in old(store.records) && old(store.records)[state].state == state ==>
        var s := old(store.records)[state];
        if codec.Parse(s.tokenEndpoint).None? then res == Status(StatusInternalServerError, "") && sent == None
        else
          && sent == Some(TokenRequest(s.tokenEndpoint, TokenForm(code, clientId, redirectUri, s.me)))
          && match reply
             case TransportFailed(_) => res == Status(StatusInternalServerError, "")
             case Replied(status, body) =>
               if status != StatusOK then res == Status(StatusForbidden, "")
               else if body.Err? then res == Status(StatusInternalServerError, "")
               else if !CompareDomains(body.value, s.me, codec) then res == Status(StatusForbidden, "")
               else if storeFault then res == Status(StatusInternalServerError, "")
               else
                 && res == Response(StatusSeeOther, map["Location" := "/composer", "Set-Cookie" := SessionCookie(s.uid)], "")
                 && store.records == old(store.records)[state := s.(accessToken := body.value.accessToken,
                                                                    tokenType := body.value.tokenType)]
    {
      sent := None;
      var fetched := store.FetchByID(state, fetchFault);
      if fetched.Err? {
        return Status(StatusInternalServerError, ""), sent;
      }
      var s := fetched.value;
      if s.state != state {
        return Status(StatusForbidden, ""), sent;
      }
      var data := TokenForm(code, clientId, redirectUri, s.me);
      if codec.Parse(s.tokenEndpoint).None? {
        return Status(StatusInternalServerError, ""), sent;
      }
      sent := Some(TokenRequest(s.tokenEndpoint, data));
      if reply.TransportFailed? {
        return Status(StatusInternalServerError, ""), sent;
      }
      if reply.statusCode != StatusOK {
        return Status(StatusForbidden, ""), sent;
      }
      if reply.body.Err? {
        return Status(StatusInternalServerError, ""), sent;
      }
      var verifyRes := reply.body.value;
      if !CompareDomains(verifyRes, s.me, codec) {
        return Status(StatusForbidden, ""), sent;
      }
      s := s.(accessToken := verifyRes.accessToken, tokenType := verifyRes.tokenType);
      var ok := store.Create(s, storeFault);
      if !ok {
        return Status(StatusInternalServerError, ""), sent;
      }
      res := Response(StatusSeeOther, map["Location" := "/composer", "Set-Cookie" := SessionCookie(s.uid)], "");
    }
  }
}
