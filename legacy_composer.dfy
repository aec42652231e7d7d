/**
 * The older composer, whose staged location is a plain string. It sends the
 * create request without looking at the result, and always clears the
 * composer afterwards.
 */
module LegacyComposer {
  import opened Wrappers
  import opened Web
  import opened Sessions
  import opened CreateForm

  /** A media endpoint upload: its error, or the reply with a plain-text location. */
  datatype UploadResult = UploadFailed(err: string) | Uploaded(url: string, location: string, published: string)

  function ToUpload(u: UploadResult): Option<MediaUpload<string>> {
    match u
    case UploadFailed(_) => None
    case Uploaded(url, location, published) => Some(MediaUpload(url, published, location))
  }

  function StagedUploads(uploads: seq<UploadResult>): (ups: seq<Option<MediaUpload<string>>>)
    ensures |ups| == |uploads| && forall i :: 0 <= i < |uploads| ==> ups[i] == ToUpload(uploads[i])
  {
    seq(|uploads|, i requires 0 <= i < |uploads| => ToUpload(uploads[i]))
  }

  /** The location the create request carries: the staged text, when there is any. */
  function LocationParam(l: string): Option<string> {
    if l != "" then Some(l) else None
  }

  class Server {
    const store: SessionStore<string>

    constructor (store: SessionStore<string>)
      ensures this.store == store
    {
      this.store := store;
    }

    /**
     * SubmitPost. The request goes to the session's micropub endpoint with its
     * access token; its result is not looked at, the composer is cleared and
     * written back, and the answer is always a redirect to the composer.
     */
    method SubmitPost(sid: string, content: string, h: string, now: string, fetchFault: bool, storeFault: bool)
      returns (res: Response, request: Option<MicropubRequest>)
      requires store.Valid()
      modifies store
      ensures store.Valid()
      ensures fetchFault || sid !in old(store.records) ==>
        res == Status(StatusInternalServerError, FetchError(sid, fetchFault)) && request == None
        && store.records == old(store.records)
      ensures !fetchFault && sid in old(store.records) ==>
        var s := old(store.records)[sid];
        && res == SeeOther("/composer")
        && request.Some?
        && request.value.endpoint == s.micropubEndpoint && request.value.bearerToken == s.accessToken
        && IsCreateForm(request.value.form, content, h, s.composer.photos,
                        if s.composer.published != "" then s.composer.published else now,
                        LocationParam(s.composer.location))
        && store.records == if storeFault then old(store.records)
                            else old(store.records)[sid := s.(composer := EmptyComposer(""))]
    {
      var fetched := store.FetchByID(sid, fetchFault);
      if fetched.Err? {
        return Status(StatusInternalServerError, fetched.error), None;
      }
      var usess := fetched.value;
      var form := BuildCreateForm(content, h, usess.composer, now, LocationParam(usess.composer.location));
      request := Some(MicropubRequest(form, usess.micropubEndpoint, usess.accessToken));
      usess := usess.(composer := EmptyComposer(""));
      var _ := store.Create(usess, storeFault);
      res := SeeOther("/composer");
    }

    /**
     * AddPhotos. A failed session fetch answers 500 before any upload; then
     * each file's upload is staged when it succeeded and the session written
     * at once, and the answer is a redirect to the composer.
     */
    method AddPhotos(sid: string, uploads: seq<UploadResult>, fetchFault: bool, storeFaults: seq<bool>)
      returns (res: Response, attempted: nat)
      requires store.Valid() && |storeFaults| == |uploads|
      modifies store
      ensures store.Valid()
      ensures fetchFault || sid !in old(store.records) ==>
        res == Status(StatusInternalServerError, "") && attempted == 0 && store.records == old(store.records)
      ensures !fetchFault && sid in old(store.records) ==>
        && res == SeeOther("/composer") && attempted == |uploads|
        && store.records == StoredAfter(old(store.records), old(store.records)[sid], StagedUploads(uploads), storeFaults)
    {
      var fetched := store.FetchByID(sid, fetchFault);
      if fetched.Err? {
        return Status(StatusInternalServerError, ""), 0;
      }
      var usess := fetched.value;
      ghost var s0 := usess;
      ghost var r0 := store.records;
      ghost var staged := StagedUploads(uploads);
      var i := 0;
      while i < |uploads|
        invariant 0 <= i <= |uploads|
        invariant store.Valid()
        invariant usess == s0.(composer := Stage(s0.composer, staged[..i]))
        invariant store.records == StoredAfter(r0, s0, staged[..i], storeFaults[..i])
      {
        StoredAfterStep(r0, s0, staged, storeFaults, i);
        match uploads[i] {
          case UploadFailed(_) =>
          case Uploaded(url, location, published) =>
            usess := usess.(composer := AddPhotoUpload(usess.composer, MediaUpload(url, published, location)));
            var _ := store.Create(usess, storeFaults[i]);
        }
        i := i + 1;
      }
      assert staged[..i] == staged && storeFaults[..i] == storeFaults;
      res := SeeOther("/composer");
      attempted := |uploads|;
    }
  }

  /**
   * One successful upload into an empty composer, written without fault:
   * the stored photos are exactly that upload, and the composer's published
   * time and location are the upload's.
   */
  lemma OneUploadStored(records: map<string, UserSession<string>>, s: UserSession<string>,
                        url: string, published: string, location: string)
    requires s.composer == EmptyComposer("") && published != ""
    ensures var m := StoredAfter(records, s, StagedUploads([Uploaded(url, location, published)]), [false]);
      && s.uid in m
      && m[s.uid].composer == ComposerData([MediaUpload(url, published, location)], published, location)
  {
    var up := MediaUpload(url, published, location);
    var ups := StagedUploads([Uploaded(url, location, published)]);
    assert ups == [Some(up)];
    assert ups[..0] == [];
    assert Stage(s.composer, ups) == AddPhotoUpload(s.composer, up);
  }
}
