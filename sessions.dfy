/**
 * The user session: the record the IndieAuth login creates and the composer
 * updates, its staged post data, and the session store it is persisted in.
 *
 * The composer's location has type `L`: the current composer stores a
 * structured `Location`, the older one a plain string.
 */
module Sessions {
  import opened Wrappers

  /** The result of one successful upload. */
  datatype MediaUpload<L> = MediaUpload(url: string, published: string, location: L)

  /** The post being staged across requests. */
  datatype ComposerData<L> = ComposerData(photos: seq<MediaUpload<L>>, published: string, location: L)

  datatype UserSession<L> = UserSession(
    uid: string,
    me: string,
    clientId: string,
    redirectUri: string,
    scope: string,
    state: string,
    authorizationEndpoint: string,
    tokenEndpoint: string,
    micropubEndpoint: string,
    mediaEndpoint: string,
    accessToken: string,
    tokenType: string,
    composer: ComposerData<L>)

  /**
   * Whether a location has a latitude and longitude. Floating point is not
   * modelled: a location either has a point, rendered as its geo: URL, or not.
   */
  datatype Geo = NoGeo | LatLng(geoUrl: string)

  /** The current composer's structured location. */
  datatype Location = Location(locality: string, region: string, country: string, geo: Geo)

  /** Location's zero value. */
  const NoLocation := Location("", "", "", NoGeo)

  predicate HasLatLng(l: Location) {
    l.geo.LatLng?
  }

  /** The composer with nothing staged (ClearComposerData). */
  function EmptyComposer<L>(noLocation: L): ComposerData<L> {
    ComposerData([], "", noLocation)
  }

  /**
   * AddPhotoUpload: the upload goes at the end of the photos, its publication
   * time replaces the staged one when it has one, and its location replaces
   * the staged location.
   */
  function AddPhotoUpload<L>(c: ComposerData<L>, up: MediaUpload<L>): ComposerData<L> {
    ComposerData(c.photos + [up], if up.published != "" then up.published else c.published, up.location)
  }

  /**
   * The composer after staging every successful upload of a batch, in order;
   * None stands for an upload that failed and was skipped.
   */
  function Stage<L>(c: ComposerData<L>, ups: seq<Option<MediaUpload<L>>>): ComposerData<L> {
    if ups == [] then c
    else
      var before := Stage(c, ups[..|ups| - 1]);
      match ups[|ups| - 1]
      case None => before
      case Some(up) => AddPhotoUpload(before, up)
  }

  /** The successful uploads of a batch, in order. */
  function Successes<L>(ups: seq<Option<MediaUpload<L>>>): seq<MediaUpload<L>> {
    if ups == [] then []
    else Successes(ups[..|ups| - 1]) + (if ups[|ups| - 1].Some? then [ups[|ups| - 1].value] else [])
  }

  /**
   * Staging appends exactly the successful uploads, in upload order, and a
   * failed upload leaves no trace.
   */
  lemma {:induction false} StagePhotos<L>(c: ComposerData<L>, ups: seq<Option<MediaUpload<L>>>)
    ensures Stage(c, ups).photos == c.photos + Successes(ups)
  {
    if ups != [] {
      StagePhotos(c, ups[..|ups| - 1]);
    }
  }

  /**
   * After a batch the staged publication time is the last non-empty one among
   * the successful uploads, or the previous one when there is none.
   */
  lemma {:induction false} StagePublished<L>(c: ComposerData<L>, ups: seq<Option<MediaUpload<L>>>)
    ensures var s := Successes(ups);
      Stage(c, ups).published == LastPublished(s, c.published)
  {
    if ups != [] {
      StagePublished(c, ups[..|ups| - 1]);
      var s := Successes(ups[..|ups| - 1]);
      if ups[|ups| - 1].Some? {
        var up := ups[|ups| - 1].value;
        assert Successes(ups) == s + [up];
        assert (s + [up])[..|s|] == s;
      } else {
        assert Successes(ups) == s;
      }
    }
  }

  /**
   * The store after a batch of uploads staged into session `s`: after each
   * successful upload whose write did not fail, the session as staged so far
   * is written under its Uid.
   */
  function StoredAfter<L>(records: map<string, UserSession<L>>, s: UserSession<L>,
                          ups: seq<Option<MediaUpload<L>>>, faults: seq<bool>): map<string, UserSession<L>>
    requires |faults| == |ups|
  {
    if ups == [] then records
    else
      var n := |ups|;
      var before := StoredAfter(records, s, ups[..n - 1], faults[..n - 1]);
      if ups[n - 1].Some? && !faults[n - 1] then before[s.uid := s.(composer := Stage(s.composer, ups))]
      else before
  }

  /** One more upload of a batch: the composer stages it, and a success is written unless its write fails. */
  lemma StoredAfterStep<L>(records: map<string, UserSession<L>>, s: UserSession<L>,
                           ups: seq<Option<MediaUpload<L>>>, faults: seq<bool>, i: nat)
    requires |faults| == |ups| && i < |ups|
    ensures Stage(s.composer, ups[..i + 1])
            == match ups[i] case None => Stage(s.composer, ups[..i]) case Some(up) => AddPhotoUpload(Stage(s.composer, ups[..i]), up)
    ensures StoredAfter(records, s, ups[..i + 1], faults[..i + 1])
            == if ups[i].Some? && !faults[i]
               then StoredAfter(records, s, ups[..i], faults[..i])[s.uid := s.(composer := Stage(s.composer, ups[..i + 1]))]
               else StoredAfter(records, s, ups[..i], faults[..i])
  {
    assert ups[..i + 1][..i] == ups[..i];
    assert faults[..i + 1][..i] == faults[..i];
  }

  /** A batch writes no session but `s` itself. */
  lemma {:induction false} StoredAfterOthers<L>(records: map<string, UserSession<L>>, s: UserSession<L>,
                                              ups: seq<Option<MediaUpload<L>>>, faults: seq<bool>, id: string)
    requires |faults| == |ups| && id != s.uid
    ensures var m := StoredAfter(records, s, ups, faults);
      (id in m <==> id in records) && (id in m ==> m[id] == records[id])
  {
    if ups != [] {
      StoredAfterOthers(records, s, ups[..|ups| - 1], faults[..|faults| - 1], id);
    }
  }

  /** When no upload succeeded with its write, the store is unchanged. */
  lemma {:induction false} StoredAfterNothingWritten<L>(records: map<string, UserSession<L>>, s: UserSession<L>,
                                                      ups: seq<Option<MediaUpload<L>>>, faults: seq<bool>)
    requires |faults| == |ups|
    requires forall k :: 0 <= k < |ups| ==> ups[k].None? || faults[k]
    ensures StoredAfter(records, s, ups, faults) == records
  {
    if ups != [] {
      StoredAfterNothingWritten(records, s, ups[..|ups| - 1], faults[..|faults| - 1]);
    }
  }

  /**
   * When every write succeeds and some upload did, the stored session holds
   * every successful upload of the batch, in order.
   */
  lemma {:induction false} StoredAfterAllWritten<L>(records: map<string, UserSession<L>>, s: UserSession<L>,
                                                  ups: seq<Option<MediaUpload<L>>>, faults: seq<bool>)
    requires |faults| == |ups| && forall k :: 0 <= k < |faults| ==> !faults[k]
    requires Successes(ups) != []
    ensures var m := StoredAfter(records, s, ups, faults);
      && s.uid in m && m[s.uid] == s.(composer := Stage(s.composer, ups))
      && m[s.uid].composer.photos == s.composer.photos + Successes(ups)
  {
    var n := |ups|;
    if ups[n - 1].None? {
      assert Successes(ups) == Successes(ups[..n - 1]);
      StoredAfterAllWritten(records, s, ups[..n - 1], faults[..n - 1]);
    }
    StagePhotos(s.composer, ups);
  }

  /** The publication time of the last upload that has one, else `default`. */
  function LastPublished<L>(s: seq<MediaUpload<L>>, default: string): string {
    if s == [] then default
    else if s[|s| - 1].published != "" then s[|s| - 1].published
    else LastPublished(s[..|s| - 1], default)
  }

  /**
   * NewUserSession. `uid` is the freshly generated identifier, None when
   * generating it failed.
   */
  function NewUserSession(uid: Option<string>, me: string, clientId: string, redirectUri: string)
    : (r: Result<UserSession<Location>>)
    ensures r.Ok? <==> uid.Some?
    ensures r.Ok? ==>
      && r.value.uid == uid.value && r.value.state == r.value.uid
      && r.value.me == me && r.value.clientId == clientId && r.value.redirectUri == redirectUri
      && r.value.scope == "create"
      && r.value.authorizationEndpoint == r.value.tokenEndpoint == r.value.micropubEndpoint == r.value.mediaEndpoint == ""
      && r.value.accessToken == r.value.tokenType == ""
      && r.value.composer == EmptyComposer(NoLocation)
  {
    match uid
    case None => Err("failed to generate uid")
    case Some(id) =>
      Ok(UserSession(id, me, clientId, redirectUri, "create", id, "", "", "", "", "", "", EmptyComposer(NoLocation)))
  }

  /** The error text of a failed fetch. */
  function FetchError(id: string, fault: bool): string {
    if fault then "session store unavailable" else "session not found: " + id
  }

  /**
   * The session store: an upsert by Uid and a fetch by id. The backend's own
   * failures are the `fault` arguments.
   */
  class SessionStore<L> {
    var records: map<string, UserSession<L>>

    /** Every record is filed under its own Uid. */
    ghost predicate Valid()
      reads this
    {
      forall id :: id in records ==> records[id].uid == id
    }

    constructor ()
      ensures Valid() && records == map[]
    {
      records := map[];
    }

    /** Create: upsert under the session's Uid; a failed write stores nothing. */
    method Create(s: UserSession<L>, fault: bool) returns (ok: bool)
      requires Valid()
      modifies this
      ensures Valid()
      ensures ok == !fault
      ensures records == if fault then old(records) else old(records)[s.uid := s]
    {
      ok := !fault;
      if !fault {
        records := records[s.uid := s];
      }
    }

    /** FetchByID: the stored record, or an error on a miss or a backend failure. */
    method FetchByID(id: string, fault: bool) returns (r: Result<UserSession<L>>)
      requires Valid()
      ensures r.Ok? <==> !fault && id in records
      ensures r.Ok? ==> r.value == records[id] && r.value.uid == id
      ensures r.Err? ==> r.error == FetchError(id, fault)
    {
      if fault || id !in records {
        r := Err(FetchError(id, fault));
      } else {
        r := Ok(records[id]);
      }
    }
  }

  /**
   * A session written to any valid store and read back by its Uid is the same
   * session; the write replaces only that Uid's record.
   */
  method StoreRoundTrip<L>(store: SessionStore<L>, s: UserSession<L>) returns (r: Result<UserSession<L>>)
    requires store.Valid()
    modifies store
    ensures store.Valid()
    ensures store.records == old(store.records)[s.uid := s]
    ensures r == Ok(s)
  {
    var _ := store.Create(s, false);
    r := store.FetchByID(s.uid, false);
  }
}
