/** The control panel's HTTP routes (src/webview.ts:49-353). A request carries the authenticated
    user, if any, and that user's active session, if any; each awaited camera request is an input
    outcome, and each handler runs as one atomic step. */
module Routes {
  import opened Wrappers
  import opened JsText
  import opened StreamSession
  import opened SessionUpdates
  import opened StatusPayload
  import opened SseHub
  import opened Destinations

  /** What a route answers: 401, 400 with an error text, `{ok: true}` with an optional message, or
      the check route's description of the running stream. */
  datatype Reply =
    | Unauthorized
    | Rejected(error: string)
    | Accepted(message: Option<string>)
    | Checked(hasActiveStream: bool, streamInfo: Option<StreamInfo>)

  const MissingRtmpUrl := "Missing rtmpUrl"
  const MissingRestreamUrls := "Provide restreamUrls: string[]"
  const NoStreamToStop := "No stream to stop"

  /** Both the user and the session must be present (`!req.authUserId || !req.activeSession`). */
  predicate Authorized(auth: Option<UserId>, session: AppSession?) {
    auth.Some? && session != null
  }

  /** The snapshot of the request's session, or of no session. */
  function SnapshotOf(session: AppSession?): Payload
    reads session
  {
    if session != null then FormatStreamStatus(Some(session.Record())) else FormatStreamStatus(None)
  }

  /** `GET /stream-status` (src/webview.ts:49-111): subscribe the user's new connection, with the
      snapshot of the request's session as its first event. Without a user nothing is written. */
  method StreamStatus(auth: Option<UserId>, session: AppSession?, hub: Hub) returns (r: Option<ClientId>)
    requires hub.Valid()
    modifies hub
    ensures hub.Valid()
    ensures auth.None? ==> r == None && hub.clients == old(hub.clients) && hub.trace == old(hub.trace)
    ensures auth.Some? ==>
      && r == Some(old(hub.nextClient))
      && hub.trace == old(hub.trace) + [Write(r.value, RetryHint(RetryMs)), Write(r.value, Status(SnapshotOf(session)))]
      && hub.clients == Added(old(hub.clients), auth.value, r.value)
  {
    r := hub.Subscribe(auth, SnapshotOf(session));
  }

  /** The restream list the managed start route builds from the saved configuration
      (src/webview.ts:128-155): one entry named after the platform, exactly when the platform rule
      yields a destination. */
  function RouteDestinations(r: SessionRecord): (d: Option<seq<RestreamDestination>>)
    ensures d.Some? <==>
      Truthy(r.streamPlatform) &&
      Destination(r.streamPlatform.value, r.streamKey.GetOr(""), r.customRtmpUrl.GetOr("")).Some?
    ensures d.Some? ==>
      d.value == [RestreamDestination(
                    Destination(r.streamPlatform.value, r.streamKey.GetOr(""), r.customRtmpUrl.GetOr("")).value,
                    r.streamPlatform.value)]
  {
    RouteRestreamAgrees(r.streamPlatform, r.streamKey, r.customRtmpUrl);
    var url := RouteRestreamUrl(r.streamPlatform, r.streamKey, r.customRtmpUrl);
    if url.Some? then Some([RestreamDestination(url.value, r.streamPlatform.value)]) else None
  }

  /** The record after the managed start route's writes: configuration, then the restream list
      when there is one. */
  function ManagedStartSaved(r: SessionRecord, b: ConfigBody): (r': SessionRecord)
    ensures var saved := ConfigSaved(r, b);
      r' == if RouteDestinations(saved).Some? then saved.(restreamDestinations := RouteDestinations(saved)) else saved
  {
    var saved := ConfigSaved(r, b);
    var d := RouteDestinations(saved);
    if d.Some? then saved.(restreamDestinations := d) else saved
  }

  /** `POST /api/stream/managed/start` (src/webview.ts:114-164). The configuration and the restream
      list stay saved when the camera refuses; only success is broadcast. */
  method ManagedStart(auth: Option<UserId>, session: AppSession?, hub: Hub, body: ConfigBody, start: Outcome<Done>)
    returns (reply: Reply)
    requires hub.Valid()
    modifies session, hub
    ensures hub.Valid() && hub.clients == old(hub.clients)
    ensures !Authorized(auth, session) ==> reply == Unauthorized && hub.trace == old(hub.trace)
    ensures !Authorized(auth, session) && session != null ==>
      session.Record() == old(session.Record()) && session.cameraCalls == old(session.cameraCalls)
    ensures Authorized(auth, session) ==>
      && session.Record() == ManagedStartSaved(old(session.Record()), body)
      && session.cameraCalls == old(session.cameraCalls) + [StartManagedStream(RouteDestinations(ConfigSaved(old(session.Record()), body)))]
      && (start.Ok? ==>
            reply == Accepted(None) && hub.trace == old(hub.trace) + Published(hub.clients, auth.value, FormatStreamStatus(Some(session.Record()))))
      && (start.Fail? ==> reply == Rejected(start.message) && hub.trace == old(hub.trace))
  {
    if auth.None? || session == null {
      return Unauthorized;
    }
    SaveConfig(session, body);
    var dests := RouteDestinations(session.Record());
    if dests.Some? {
      session.restreamDestinations := dests;
    }
    session.cameraCalls := session.cameraCalls + [StartManagedStream(dests)];
    if start.Fail? {
      return Rejected(start.message);
    }
    hub.Broadcast(auth.value, FormatStreamStatus(Some(session.Record())));
    return Accepted(None);
  }

  /** A check found a running stream of the given kind (`streamInfo?.type === kind`). */
  predicate FoundKind(check: Outcome<ExistingStream>, kind: StreamKind) {
    check.Ok? && Found(check.value) && check.value.streamInfo.value.kind == kind
  }

  /** What a stop route answers: the check's or the stop's failure, the "nothing to stop" message,
      or plain success. */
  function StopReply(check: Outcome<ExistingStream>, kind: StreamKind, stop: Outcome<Done>): (reply: Reply)
    ensures reply.Rejected? <==> check.Fail? || (FoundKind(check, kind) && stop.Fail?)
    ensures reply == Accepted(Some(NoStreamToStop)) <==> check.Ok? && !FoundKind(check, kind)
  {
    if check.Fail? then Rejected(check.message)
    else if !FoundKind(check, kind) then Accepted(Some(NoStreamToStop))
    else if stop.Fail? then Rejected(stop.message)
    else Accepted(None)
  }

  /** The two stop routes (src/webview.ts:167-206 for managed, 236-273 for unmanaged): check what
      runs, stop it if it is of this route's kind, and in every case leave the session idle and
      broadcast once; the kind's fields are cleared only after a successful stop. */
  method StopRoute(kind: StreamKind, auth: Option<UserId>, session: AppSession?, hub: Hub,
                   check: Outcome<ExistingStream>, stop: Outcome<Done>)
    returns (reply: Reply)
    requires hub.Valid()
    modifies session, hub
    ensures hub.Valid() && hub.clients == old(hub.clients)
    ensures !Authorized(auth, session) ==> reply == Unauthorized && hub.trace == old(hub.trace)
    ensures !Authorized(auth, session) && session != null ==>
      session.Record() == old(session.Record()) && session.cameraCalls == old(session.cameraCalls)
    ensures Authorized(auth, session) ==>
      && session.Record() == StopApplied(old(session.Record()), kind, FoundKind(check, kind) && stop.Ok?)
      && session.cameraCalls == old(session.cameraCalls) + [CheckExistingStream] +
           (if FoundKind(check, kind) then StopCalls(Some(kind)) else [])
      && hub.trace == old(hub.trace) + Published(hub.clients, auth.value, FormatStreamStatus(Some(session.Record())))
      && reply == StopReply(check, kind, stop)
  {
    if auth.None? || session == null {
      return Unauthorized;
    }
    session.cameraCalls := session.cameraCalls + [CheckExistingStream];
    var found := FoundKind(check, kind);
    if found {
      session.cameraCalls := session.cameraCalls + StopCalls(Some(kind));
    }
    MarkIdle(session, kind, found && stop.Ok?);
    hub.Broadcast(auth.value, FormatStreamStatus(Some(session.Record())));
    reply := StopReply(check, kind, stop);
  }

  /** `POST /api/stream/unmanaged/start` (src/webview.ts:210-233): a missing or empty `rtmpUrl`
      is refused before anything is saved or sent; otherwise the configuration is saved, the stream
      is started at that URL, and only success is broadcast. */
  method UnmanagedStart(auth: Option<UserId>, session: AppSession?, hub: Hub, rtmpUrl: Option<string>,
                        body: ConfigBody, start: Outcome<Done>)
    returns (reply: Reply)
    requires hub.Valid()
    modifies session, hub
    ensures hub.Valid() && hub.clients == old(hub.clients)
    ensures !Authorized(auth, session) ==> reply == Unauthorized
    ensures !Authorized(auth, session) || !Truthy(rtmpUrl) ==>
      hub.trace == old(hub.trace) &&
      (session != null ==> session.Record() == old(session.Record()) && session.cameraCalls == old(session.cameraCalls))
    ensures Authorized(auth, session) && !Truthy(rtmpUrl) ==> reply == Rejected(MissingRtmpUrl)
    ensures Authorized(auth, session) && Truthy(rtmpUrl) ==>
      && session.Record() == ConfigSaved(old(session.Record()), body)
      && session.cameraCalls == old(session.cameraCalls) + [StartStream(rtmpUrl.value)]
      && (start.Ok? ==>
            reply == Accepted(None) && hub.trace == old(hub.trace) + Published(hub.clients, auth.value, FormatStreamStatus(Some(session.Record()))))
      && (start.Fail? ==> reply == Rejected(start.message) && hub.trace == old(hub.trace))
  {
    if auth.None? || session == null {
      return Unauthorized;
    }
    if !Truthy(rtmpUrl) {
      return Rejected(MissingRtmpUrl);
    }
    SaveConfig(session, body);
    session.cameraCalls := session.cameraCalls + [StartStream(rtmpUrl.value)];
    if start.Fail? {
      return Rejected(start.message);
    }
    hub.Broadcast(auth.value, FormatStreamStatus(Some(session.Record())));
    return Accepted(None);
  }

  /** `GET /api/stream/check` (src/webview.ts:276-320): fold a running stream into the session,
      with the WebRTC URL standing in for a missing preview, broadcast it, and describe it. */
  method Check(auth: Option<UserId>, session: AppSession?, hub: Hub, check: Outcome<ExistingStream>)
    returns (reply: Reply)
    requires hub.Valid()
    modifies session, hub
    ensures hub.Valid() && hub.clients == old(hub.clients)
    ensures !Authorized(auth, session) ==> reply == Unauthorized && hub.trace == old(hub.trace)
    ensures !Authorized(auth, session) && session != null ==>
      session.Record() == old(session.Record()) && session.cameraCalls == old(session.cameraCalls)
    ensures Authorized(auth, session) ==>
      && session.cameraCalls == old(session.cameraCalls) + [CheckExistingStream]
      && (check.Fail? ==> reply == Rejected(check.message))
      && (check.Ok? ==> reply == Checked(check.value.hasActiveStream, check.value.streamInfo))
      && (check.Ok? && Found(check.value) ==>
            && session.Record() == ExistingFolded(old(session.Record()), check.value.streamInfo.value, true)
            && hub.trace == old(hub.trace) + Published(hub.clients, auth.value, FormatStreamStatus(Some(session.Record()))))
      && (!(check.Ok? && Found(check.value)) ==>
            session.Record() == old(session.Record()) && hub.trace == old(hub.trace))
  {
    if auth.None? || session == null {
      return Unauthorized;
    }
    session.cameraCalls := session.cameraCalls + [CheckExistingStream];
    if check.Fail? {
      return Rejected(check.message);
    }
    var e := check.value;
    if e.hasActiveStream && e.streamInfo.Some? {
      var info := e.streamInfo.value;
      if info.kind == Managed {
        AdoptManaged(session, info, true);
      } else {
        AdoptUnmanaged(session, info, true);
      }
      hub.Broadcast(auth.value, FormatStreamStatus(Some(session.Record())));
    }
    return Checked(e.hasActiveStream, e.streamInfo);
  }

  /** The destinations of a restream start (src/webview.ts:337-342): one per URL, in order, named
      `destination-1` to `destination-n`. */
  function NumberedDestinations(urls: seq<string>): (d: seq<RestreamDestination>)
    ensures |d| == |urls|
    ensures forall i :: 0 <= i < |d| ==> d[i].url == urls[i] && d[i].name == "destination-" + NatToString(i + 1)
  {
    seq(|urls|, i requires 0 <= i < |urls| => RestreamDestination(urls[i], "destination-" + NatToString(i + 1)))
  }

  /** No two numbered destinations share a name. */
  lemma NumberedNamesDistinct(urls: seq<string>, i: nat, j: nat)
    requires i < |urls| && j < |urls| && i != j
    ensures NumberedDestinations(urls)[i].name != NumberedDestinations(urls)[j].name
  {
    var d := NumberedDestinations(urls);
    var prefix := "destination-";
    if d[i].name == d[j].name {
      assert d[i].name[|prefix|..] == NatToString(i + 1);
      assert d[j].name[|prefix|..] == NatToString(j + 1);
      NatToStringInjective(i + 1, j + 1);
    }
  }

  /** `POST /api/stream/managed/restream/start` (src/webview.ts:324-353): anything but a non-empty
      list is refused before any write; otherwise the numbered list is stored and sent, and it stays
      stored when the camera refuses. */
  method RestreamStart(auth: Option<UserId>, session: AppSession?, hub: Hub, restreamUrls: Option<seq<string>>,
                       start: Outcome<Done>)
    returns (reply: Reply)
    requires hub.Valid()
    modifies session, hub
    ensures hub.Valid() && hub.clients == old(hub.clients)
    ensures !Authorized(auth, session) ==> reply == Unauthorized
    ensures !Authorized(auth, session) || restreamUrls.None? || restreamUrls == Some([]) ==>
      hub.trace == old(hub.trace) &&
      (session != null ==> session.Record() == old(session.Record()) && session.cameraCalls == old(session.cameraCalls))
    ensures Authorized(auth, session) && (restreamUrls.None? || restreamUrls == Some([])) ==>
      reply == Rejected(MissingRestreamUrls)
    ensures Authorized(auth, session) && restreamUrls.Some? && restreamUrls.value != [] ==>
      var d := NumberedDestinations(restreamUrls.value);
      && session.Record() == old(session.Record()).(restreamDestinations := Some(d))
      && session.cameraCalls == old(session.cameraCalls) + [StartManagedStream(Some(d))]
      && (start.Ok? ==>
            reply == Accepted(None) && hub.trace == old(hub.trace) + Published(hub.clients, auth.value, FormatStreamStatus(Some(session.Record()))))
      && (start.Fail? ==> reply == Rejected(start.message) && hub.trace == old(hub.trace))
  {
    if auth.None? || session == null {
      return Unauthorized;
    }
    if restreamUrls.None? || |restreamUrls.value| == 0 {
      return Rejected(MissingRestreamUrls);
    }
    var d := NumberedDestinations(restreamUrls.value);
    session.restreamDestinations := Some(d);
    session.cameraCalls := session.cameraCalls + [StartManagedStream(Some(d))];
    if start.Fail? {
      return Rejected(start.message);
    }
    hub.Broadcast(auth.value, FormatStreamStatus(Some(session.Record())));
    return Accepted(None);
  }
}
