/**
 * The current composer: staging photos and a location in the session, and
 * sending the staged post as a Micropub create request. Also the query URLs
 * the composer's client builds for the media and post listings.
 */
module Composer {
  import opened Wrappers
  import opened Text
  import opened Web
  import opened Sessions
  import opened CreateForm

  /** A media endpoint upload: the transport or decode error, or the reply. */
  datatype UploadResult = UploadFailed(err: string) | Uploaded(url: string, location: string, published: string)

  /** SendRequest's outcome: its error, or the remote status and Location header. */
  datatype SendResult = SendFailed(err: string) | Sent(statusCode: int, location: string)

  /**
   * What one upload contributes to the composer: nothing when it failed, else
   * its URL and publication time and a location that holds only the point of
   * its geo: URL (`geoOf` reads the point; floating point is not modelled).
   */
  function ToUpload(u: UploadResult, geoOf: string -> Geo): Option<MediaUpload<Location>> {
    match u
    case UploadFailed(_) => None
    case Uploaded(url, location, published) => Some(MediaUpload(url, published, Location("", "", "", geoOf(location))))
  }

  function StagedUploads(uploads: seq<UploadResult>, geoOf: string -> Geo): (ups: seq<Option<MediaUpload<Location>>>)
    ensures |ups| == |uploads| && forall i :: 0 <= i < |uploads| ==> ups[i] == ToUpload(uploads[i], geoOf)
  {
    seq(|uploads|, i requires 0 <= i < |uploads| => ToUpload(uploads[i], geoOf))
  }

  /** The location the create request carries: the geo: URL, when the location has a point. */
  function LocationParam(l: Location): Option<string> {
    if HasLatLng(l) then Some(l.geo.geoUrl) else None
  }

  class Server {
    const store: SessionStore<Location>

    constructor (store: SessionStore<Location>)
      ensures this.store == store
    {
      this.store := store;
    }

    /**
     * SubmitPost. `now` is the current time in RFC 3339 form and `send` the
     * outcome of the request. The composer is cleared only when the request
     * was sent, whatever the remote status, and the response echoes that
     * status and Location.
     */
    method SubmitPost(sid: string, content: string, h: string, now: string, send: SendResult,
                      fetchFault: bool, storeFault: bool)
      returns (res: Response, request: Option<MicropubRequest>)
      requires store.Valid()
      modifies store
      ensures store.Valid()
      ensures fetchFault || sid !in old(store.records) ==>
        res == Status(StatusInternalServerError, FetchError(sid, fetchFault)) && request == None
        && store.records == old(store.records)
      ensures !fetchFault && sid in old(store.records) ==>
        var s := old(store.records)[sid];
        && request.Some?
        && request.value.endpoint == s.micropubEndpoint && request.value.bearerToken == s.accessToken
        && IsCreateForm(request.value.form, content, h, s.composer.photos,
                        if s.composer.published != "" then s.composer.published else now,
                        LocationParam(s.composer.location))
        && match send
           case SendFailed(e) => res == Status(StatusInternalServerError, e) && store.records == old(store.records)
           case Sent(status, location) =>
             && res == Response(status, map["Location" := location], "")
             && store.records == if storeFault then old(store.records)
                                 else old(store.records)[sid := s.(composer := EmptyComposer(NoLocation))]
    {
      var fetched := store.FetchByID(sid, fetchFault);
      if fetched.Err? {
        return Status(StatusInternalServerError, fetched.error), None;
      }
      var usess := fetched.value;
      var form := BuildCreateForm(content, h, usess.composer, now, LocationParam(usess.composer.location));
      request := Some(MicropubRequest(form, usess.micropubEndpoint, usess.accessToken));
      if send.SendFailed? {
        return Status(StatusInternalServerError, send.err), request;
      }
      usess := usess.(composer := EmptyComposer(NoLocation));
      var _ := store.Create(usess, storeFault);
      res := Response(send.statusCode, map["Location" := send.location], "");
    }

    /**
     * AddLocation. `geoOf` reads the point from the lat and lng form values.
     * The staged location is replaced; nothing else in the session changes.
     */
    method AddLocation(sid: string, locality: string, region: string, country: string, lat: string, lng: string,
                       geoOf: (string, string) -> Geo, fetchFault: bool, storeFault: bool)
      returns (res: Response)
      requires store.Valid()
      modifies store
      ensures store.Valid()
      ensures fetchFault || sid !in old(store.records) ==>
        res == Status(StatusInternalServerError, "") && store.records == old(store.records)
      ensures !fetchFault && sid in old(store.records) ==>
        var s := old(store.records)[sid];
        if storeFault then res == Status(StatusInternalServerError, "") && store.records == old(store.records)
        else
          && res == SeeOther("/composer")
          && store.records == old(store.records)[sid := s.(composer := s.composer.(location :=
               Location(locality, region, country, geoOf(lat, lng))))]
    {
      var fetched := store.FetchByID(sid, fetchFault);
      if fetched.Err? {
        return Status(StatusInternalServerError, "");
      }
      var usess := fetched.value;
      var location := Location(locality, region, country, geoOf(lat, lng));
      usess := usess.(composer := usess.composer.(location := location));
      var ok := store.Create(usess, storeFault);
      if !ok {
        return Status(StatusInternalServerError, "");
      }
      res := SeeOther("/composer");
    }

    /**
     * AddPhotos. `uploads` are the media endpoint's answers, one per file in
     * file order, and `storeFaults` whether each write fails. A failed upload
     * is skipped; each success is staged and the session written at once, and
     * a failed write does not stop the loop.
     */
    method AddPhotos(sid: string, uploads: seq<UploadResult>, geoOf: string -> Geo,
                     fetchFault: bool, storeFaults: seq<bool>)
      returns (res: Response, attempted: nat)
      requires store.Valid() && |storeFaults| == |uploads|
      modifies store
      ensures store.Valid()
      ensures fetchFault || sid !in old(store.records) ==>
        res == Status(StatusInternalServerError, "") && attempted == 0 && store.records == old(store.records)
      ensures !fetchFault && sid in old(store.records) ==>
        && res == SeeOther("/composer") && attempted == |uploads|
        && store.records == StoredAfter(old(store.records), old(store.records)[sid], StagedUploads(uploads, geoOf), storeFaults)
    {
      var fetched := store.FetchByID(sid, fetchFault);
      if fetched.Err? {
        return Status(StatusInternalServerError, ""), 0;
      }
      var usess := fetched.value;
      ghost var s0 := usess;
      ghost var r0 := store.records;
      ghost var staged := StagedUploads(uploads, geoOf);
      var i := 0;
      while i < |uploads|
        invariant 0 <= i <= |uploads|
        invariant store.Valid()
        invariant usess == s0.(composer := Stage(s0.composer, staged[..i]))
        invariant store.records == StoredAfter(r0, s0, staged[..i], storeFaults[..i])
      {
        StoredAfterStep(r0, s0, staged, storeFaults, i);
        match uploads[i] {
          case UploadFailed(_) =>
          case Uploaded(url, location, published) =>
            usess := usess.(composer := AddPhotoUpload(usess.composer,
                       MediaUpload(url, published, Location("", "", "", geoOf(location)))));
            var _ := store.Create(usess, storeFaults[i]);
        }
        i := i + 1;
      }
      assert staged[..i] == staged && storeFaults[..i] == storeFaults;
      res := SeeOther("/composer");
      attempted := |uploads|;
    }
  }

  // ---------------------------------------------------------------------------
  // Query URLs (no value is escaped; the literals are split at '?' and '&'
  // only so that the parameters can be read off)
  // ---------------------------------------------------------------------------

  /** QueryMediaList's URL: the after key replaces the year and month. */
  function MediaListUrl(mediaEndpoint: string, afterKey: string, year: string, month: string): string {
    if afterKey == "" then mediaEndpoint + "?" + "q=source" + "&" + "limit=15" + "&" + "year=" + year + "&" + "month=" + month
    else mediaEndpoint + "?" + "q=source" + "&" + "limit=15" + "&" + "after=" + afterKey
  }

  /** QueryPostList's URL: the after key is appended only when there is one. */
  function PostListUrl(micropubEndpoint: string, afterKey: string): string {
    if afterKey == "" then micropubEndpoint + "?" + "q=source"
    else micropubEndpoint + "?" + "q=source" + "&" + "after=" + afterKey
  }

  /** QueryMonthsList's URL. */
  function MonthsListUrl(micropubEndpoint: string, currentYear: string): string {
    micropubEndpoint + "?" + "q=months" + "&" + "year=" + currentYear
  }

  /** QueryMediaURL's URL. */
  function MediaItemUrl(url: string, mediaEndpoint: string): string {
    mediaEndpoint + "?" + "q=source" + "&" + "url=" + url
  }

  /**
   * The media listing query is q=source and limit=15, then either the year
   * and month or, when there is an after key, the after key alone.
   */
  lemma MediaListUrlParams(mediaEndpoint: string, afterKey: string, year: string, month: string)
    requires '?' !in mediaEndpoint && '&' !in afterKey && '&' !in year && '&' !in month
    ensures var u := MediaListUrl(mediaEndpoint, afterKey, year, month);
      && BasePart(u) == mediaEndpoint
      && QueryParams(u) == if afterKey == "" then ["q=source", "limit=15", "year=" + year, "month=" + month]
                           else ["q=source", "limit=15", "after=" + afterKey]
  {
    if afterKey == "" {
      MediaListUrlByMonth(mediaEndpoint, year, month);
    } else {
      MediaListUrlAfter(mediaEndpoint, afterKey);
    }
  }

  lemma MediaListUrlByMonth(mediaEndpoint: string, year: string, month: string)
    requires '?' !in mediaEndpoint && '&' !in year && '&' !in month
    ensures QueryParams(MediaListUrl(mediaEndpoint, "", year, month)) == ["q=source", "limit=15", "year=" + year, "month=" + month]
    ensures BasePart(MediaListUrl(mediaEndpoint, "", year, month)) == mediaEndpoint
  {
    var ps := ["q=source", "limit=15", "year=" + year, "month=" + month];
    JoinCons("year=" + year, ["month=" + month], '&');
    assert Join(ps[2..], '&') == "year=" + year + "&" + "month=" + month by {
      assert ps[2..] == ["year=" + year] + ["month=" + month];
    }
    JoinCons("limit=15", ps[2..], '&');
    assert ps[1..] == ["limit=15"] + ps[2..];
    JoinCons("q=source", ps[1..], '&');
    assert ps == ["q=source"] + ps[1..];
    assert MediaListUrl(mediaEndpoint, "", year, month) == mediaEndpoint + "?" + Join(ps, '&');
    assert forall p :: p in ps ==> '&' !in p;
    QueryRoundTrip(mediaEndpoint, ps);
  }

  lemma MediaListUrlAfter(mediaEndpoint: string, afterKey: string)
    requires '?' !in mediaEndpoint && '&' !in afterKey && afterKey != ""
    ensures forall year, month :: QueryParams(MediaListUrl(mediaEndpoint, afterKey, year, month)) == ["q=source", "limit=15", "after=" + afterKey]
    ensures forall year, month :: BasePart(MediaListUrl(mediaEndpoint, afterKey, year, month)) == mediaEndpoint
  {
    var ps := ["q=source", "limit=15", "after=" + afterKey];
    JoinCons("limit=15", ["after=" + afterKey], '&');
    assert ps[1..] == ["limit=15"] + ["after=" + afterKey];
    JoinCons("q=source", ps[1..], '&');
    assert ps == ["q=source"] + ps[1..];
    assert forall year, month :: MediaListUrl(mediaEndpoint, afterKey, year, month) == mediaEndpoint + "?" + Join(ps, '&');
    assert forall p :: p in ps ==> '&' !in p;
    QueryRoundTrip(mediaEndpoint, ps);
  }

  /** The post listing query is q=source, followed by the after key only when there is one. */
  lemma PostListUrlParams(micropubEndpoint: string, afterKey: string)
    requires '?' !in micropubEndpoint && '&' !in afterKey
    ensures var u := PostListUrl(micropubEndpoint, afterKey);
      && BasePart(u) == micropubEndpoint
      && QueryParams(u) == if afterKey == "" then ["q=source"] else ["q=source", "after=" + afterKey]
  {
    if afterKey == "" {
      assert PostListUrl(micropubEndpoint, afterKey) == micropubEndpoint + "?" + Join(["q=source"], '&');
      assert forall p :: p in ["q=source"] ==> '&' !in p;
      QueryRoundTrip(micropubEndpoint, ["q=source"]);
    } else {
      JoinCons("q=source", ["after=" + afterKey], '&');
      assert PostListUrl(micropubEndpoint, afterKey) == micropubEndpoint + "?" + Join(["q=source", "after=" + afterKey], '&');
      assert forall p :: p in ["q=source", "after=" + afterKey] ==> '&' !in p;
      QueryRoundTrip(micropubEndpoint, ["q=source", "after=" + afterKey]);
    }
  }

  /** The months query is q=months and the year. */
  lemma MonthsListUrlParams(micropubEndpoint: string, currentYear: string)
    requires '?' !in micropubEndpoint && '&' !in currentYear
    ensures BasePart(MonthsListUrl(micropubEndpoint, currentYear)) == micropubEndpoint
    ensures QueryParams(MonthsListUrl(micropubEndpoint, currentYear)) == ["q=months", "year=" + currentYear]
  {
    JoinCons("q=months", ["year=" + currentYear], '&');
    assert MonthsListUrl(micropubEndpoint, currentYear) == micropubEndpoint + "?" + Join(["q=months", "year=" + currentYear], '&');
    assert forall p :: p in ["q=months", "year=" + currentYear] ==> '&' !in p;
    QueryRoundTrip(micropubEndpoint, ["q=months", "year=" + currentYear]);
  }

  /** The single-item query is q=source and the item's URL. */
  lemma MediaItemUrlParams(url: string, mediaEndpoint: string)
    requires '?' !in mediaEndpoint && '&' !in url
    ensures BasePart(MediaItemUrl(url, mediaEndpoint)) == mediaEndpoint
    ensures QueryParams(MediaItemUrl(url, mediaEndpoint)) == ["q=source", "url=" + url]
  {
    JoinCons("q=source", ["url=" + url], '&');
    assert MediaItemUrl(url, mediaEndpoint) == mediaEndpoint + "?" + Join(["q=source", "url=" + url], '&');
    assert forall p :: p in ["q=source", "url=" + url] ==> '&' !in p;
    QueryRoundTrip(mediaEndpoint, ["q=source", "url=" + url]);
  }
}
