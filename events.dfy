/**
 * The post event log (storage/storage.go): events stored one per object,
 * decoded by their eventType, and replayed onto a microformat. The object
 * store and the JSON decoder are parameters of the model.
 */
module Events {
  import opened Wrappers
  import opened Mf2

  /**
   * An MfMutator. `NullEvent` is what an undecodable or unknown event becomes;
   * `PostCreated` carries the created post.
   */
  datatype Event =
    | NullEvent
    | PostCreated(eventId: string, eventType: string, eventVersion: string, eventData: MicroFormat)

  /** Apply: a null event is the identity, a PostCreated event yields its post. */
  function Apply(e: Event, mf: MicroFormat): (r: MicroFormat)
    ensures e.NullEvent? ==> r == mf
    ensures e.PostCreated? ==> r == e.eventData
  {
    match e
    case NullEvent => mf
    case PostCreated(_, _, _, data) => data
  }

  /** Applying events in order, as a reader of the log would. */
  function Replay(events: seq<Event>, mf: MicroFormat): MicroFormat {
    if events == [] then mf else Replay(events[1..], Apply(events[0], mf))
  }

  /** Replaying a log yields the post of its last PostCreated event, or the start when there is none. */
  lemma {:induction false} ReplayLast(events: seq<Event>, mf: MicroFormat, k: nat)
    requires k < |events| && events[k].PostCreated?
    requires forall j :: k < j < |events| ==> events[j].NullEvent?
    ensures Replay(events, mf) == events[k].eventData
  {
    if k == 0 {
      ReplayNulls(events[1..], events[0].eventData);
    } else {
      ReplayLast(events[1..], Apply(events[0], mf), k - 1);
    }
  }

  lemma {:induction false} ReplayNulls(events: seq<Event>, mf: MicroFormat)
    requires forall j :: 0 <= j < |events| ==> events[j].NullEvent?
    ensures Replay(events, mf) == mf
  {
    if events != [] {
      ReplayNulls(events[1..], mf);
    }
  }

  /**
   * The JSON decoder: `eventTypeOf` decodes only the eventType field,
   * `postCreatedOf` the whole PostCreated event; Err carries the decoder's
   * message.
   */
  datatype Decoder = Decoder(eventTypeOf: string -> Result<string>, postCreatedOf: string -> Result<Event>)

  /** unmarshalEvent's two results: the event (NullEvent on error) and the error. */
  datatype Unmarshalled = Unmarshalled(event: Event, err: Option<string>)

  /**
   * unmarshalEvent. The event type is decoded first; only "PostCreated" is
   * recognised, and its body must then decode too. Every error comes with
   * a NullEvent.
   */
  function UnmarshalEvent(buf: string, dec: Decoder): (r: Unmarshalled)
    ensures r.err.Some? ==> r.event == NullEvent
    ensures r.err.None? <==> dec.eventTypeOf(buf) == Ok("PostCreated") && dec.postCreatedOf(buf).Ok?
    ensures r.err.None? ==> r.event == dec.postCreatedOf(buf).value
    ensures dec.eventTypeOf(buf).Err? ==>
              r.err == Some("failed to unmarshal event type: " + dec.eventTypeOf(buf).error)
    ensures dec.eventTypeOf(buf).Ok? && dec.eventTypeOf(buf).value != "PostCreated" ==>
              r.err == Some("failed to recognise the eventType: " + dec.eventTypeOf(buf).value)
  {
    match dec.eventTypeOf(buf)
    case Err(e) => Unmarshalled(NullEvent, Some("failed to unmarshal event type: " + e))
    case Ok(t) =>
      if t == "PostCreated" then
        match dec.postCreatedOf(buf)
        case Err(e) => Unmarshalled(NullEvent, Some("failed to unmarshal event: " + buf + " " + e))
        case Ok(ev) => Unmarshalled(ev, None)
      else Unmarshalled(NullEvent, Some("failed to recognise the eventType: " + t))
  }

  /**
   * A decodable PostCreated event decodes to itself, so Apply yields its
   * post; anything that fails to decode is a NullEvent, so Apply changes
   * nothing.
   */
  lemma UnmarshalApply(buf: string, dec: Decoder, mf: MicroFormat)
    requires dec.postCreatedOf(buf).Ok? ==> dec.postCreatedOf(buf).value.PostCreated?
    ensures var u := UnmarshalEvent(buf, dec);
      && (u.err.None? ==> Apply(u.event, mf) == dec.postCreatedOf(buf).value.eventData)
      && (u.err.Some? ==> Apply(u.event, mf) == mf)
  {
  }

  /**
   * The events FetchAll keeps from these keys: each key whose object
   * downloads and decodes without error, in key order.
   */
  function Kept(keys: seq<string>, download: string -> Result<string>, dec: Decoder): seq<Event> {
    if keys == [] then []
    else
      var rest := Kept(keys[1..], download, dec);
      match download(keys[0])
      case Err(_) => rest
      case Ok(buf) =>
        var u := UnmarshalEvent(buf, dec);
        if u.err.None? then [u.event] + rest else rest
  }

  /** At most one event per key, and never a NullEvent when decoding only yields PostCreated. */
  lemma {:induction false} KeptBounds(keys: seq<string>, download: string -> Result<string>, dec: Decoder)
    requires forall buf :: dec.postCreatedOf(buf).Ok? ==> dec.postCreatedOf(buf).value.PostCreated?
    ensures |Kept(keys, download, dec)| <= |keys|
    ensures forall e :: e in Kept(keys, download, dec) ==> e.PostCreated?
  {
    if keys != [] {
      KeptBounds(keys[1..], download, dec);
    }
  }

  /** A key's event is kept exactly when its object downloads and decodes. */
  lemma {:induction false} KeptAll(keys: seq<string>, download: string -> Result<string>, dec: Decoder)
    requires forall k :: k in keys ==> download(k).Ok? && UnmarshalEvent(download(k).value, dec).err.None?
    ensures |Kept(keys, download, dec)| == |keys|
    ensures forall i :: 0 <= i < |keys| ==>
              Kept(keys, download, dec)[i] == UnmarshalEvent(download(keys[i]).value, dec).event
  {
    if keys != [] {
      assert keys[0] in keys;
      KeptAll(keys[1..], download, dec);
      forall i | 0 < i < |keys|
        ensures Kept(keys, download, dec)[i] == UnmarshalEvent(download(keys[i]).value, dec).event
      {
        assert keys[1..][i - 1] == keys[i];
      }
    }
  }

  /**
   * FetchAll. `listing` is the key listing of the bucket (an error ends the
   * call with no events); then every key is downloaded and decoded in
   * order, failures are skipped, and the call reports no error.
   */
  method FetchAll(listing: Result<seq<string>>, download: string -> Result<string>, dec: Decoder)
    returns (l: seq<Event>, err: Option<string>)
    ensures listing.Err? ==> l == [] && err == Some(listing.error)
    ensures listing.Ok? ==> l == Kept(listing.value, download, dec) && err == None
  {
    if listing.Err? {
      return [], Some(listing.error);
    }
    var keys := listing.value;
    l := [];
    var i := 0;
    while i < |keys|
      invariant 0 <= i <= |keys|
      invariant l + Kept(keys[i..], download, dec) == Kept(keys, download, dec)
    {
      assert keys[i..][1..] == keys[i + 1..];
      var fetched := download(keys[i]);
      if fetched.Ok? {
        var u := UnmarshalEvent(fetched.value, dec);
        if u.err.None? {
          l := l + [u.event];
        }
      }
      i := i + 1;
    }
    err := None;
  }
}
