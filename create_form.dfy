/**
 * The form-encoded Micropub create request both composers send (section 3.3
 * of the W3C Micropub Recommendation): content and h once each, one photo
 * per staged upload in staging order, published, and an optional location.
 */
module CreateForm {
  import opened Wrappers
  import opened Web
  import opened Sessions

  /** The URLs of the staged uploads, in staging order. */
  function PhotoUrls<L>(photos: seq<MediaUpload<L>>): (urls: seq<string>)
    ensures |urls| == |photos| && forall i :: 0 <= i < |photos| ==> urls[i] == photos[i].url
  {
    seq(|photos|, i requires 0 <= i < |photos| => photos[i].url)
  }

  /** `form` is the create request for these values; it fixes every key and every value. */
  predicate IsCreateForm<L>(form: Values, content: string, h: string, photos: seq<MediaUpload<L>>,
                            published: string, location: Option<string>)
  {
    && form.Keys == {"content", "h", "published"}
                    + (if photos != [] then {"photo"} else {})
                    + (if location.Some? then {"location"} else {})
    && ValuesOf(form, "content") == [content]
    && ValuesOf(form, "h") == [h]
    && ValuesOf(form, "photo") == PhotoUrls(photos)
    && ValuesOf(form, "published") == [published]
    && ValuesOf(form, "location") == (if location.Some? then [location.value] else [])
  }

  /** IsCreateForm leaves no freedom: two forms it accepts are the same form. */
  lemma CreateFormUnique<L>(f1: Values, f2: Values, content: string, h: string, photos: seq<MediaUpload<L>>,
                            published: string, location: Option<string>)
    requires IsCreateForm(f1, content, h, photos, published, location)
    requires IsCreateForm(f2, content, h, photos, published, location)
    ensures f1 == f2
  {
    forall k | k in f1
      ensures f1[k] == f2[k]
    {
      assert ValuesOf(f1, k) == ValuesOf(f2, k);
    }
  }

  /** The request so far, once content, h and the photos are in. */
  predicate HasBody<L>(form: Values, content: string, h: string, photos: seq<MediaUpload<L>>) {
    && form.Keys == {"content", "h"} + (if photos != [] then {"photo"} else {})
    && ValuesOf(form, "content") == [content] && ValuesOf(form, "h") == [h]
    && ValuesOf(form, "photo") == PhotoUrls(photos)
  }

  /** Adding the next photo's URL extends the body by that photo. */
  lemma HasBodyPhoto<L>(form: Values, content: string, h: string, photos: seq<MediaUpload<L>>, i: nat)
    requires i < |photos| && HasBody(form, content, h, photos[..i])
    ensures HasBody(Add(form, "photo", photos[i].url), content, h, photos[..i + 1])
  {
    assert photos[..i + 1][..i] == photos[..i];
    assert PhotoUrls(photos[..i + 1]) == PhotoUrls(photos[..i]) + [photos[i].url];
  }

  /** Adding published and then the optional location completes the create request. */
  lemma HasBodyComplete<L>(form: Values, content: string, h: string, photos: seq<MediaUpload<L>>,
                           published: string, location: Option<string>)
    requires HasBody(form, content, h, photos)
    ensures var f := Add(form, "published", published);
      IsCreateForm(if location.Some? then Add(f, "location", location.value) else f,
                   content, h, photos, published, location)
  {
  }

  /**
   * The loop that builds the request body. `published` is the staged time
   * when there is one, else `now`; `location` is the encoded location when
   * the composer has one to send.
   */
  method BuildCreateForm<L>(content: string, h: string, c: ComposerData<L>, now: string, location: Option<string>)
    returns (form: Values)
    ensures IsCreateForm(form, content, h, c.photos, if c.published != "" then c.published else now, location)
  {
    form := map[];
    form := Add(form, "content", content);
    form := Add(form, "h", h);
    var i := 0;
    while i < |c.photos|
      invariant 0 <= i <= |c.photos|
      invariant HasBody(form, content, h, c.photos[..i])
    {
      HasBodyPhoto(form, content, h, c.photos, i);
      form := Add(form, "photo", c.photos[i].url);
      i := i + 1;
    }
    assert c.photos[..i] == c.photos;
    var published := if c.published != "" then c.published else now;
    HasBodyComplete(form, content, h, c.photos, published, location);
    form := Add(form, "published", published);
    if location.Some? {
      form := Add(form, "location", location.value);
    }
  }

  /** The request SendRequest is asked to make. */
  datatype MicropubRequest = MicropubRequest(form: Values, endpoint: string, bearerToken: string)
}
