/** The app server's session lifecycle (src/index.ts): `onSession` with its provider push handlers,
    the disconnect handler and `onStop`. Each handler runs as one atomic step; the result of each
    awaited provider call is an input. */
module AppServer {
  import opened Wrappers
  import opened StreamSession
  import opened SessionUpdates
  import opened StatusPayload
  import opened SseHub
  import Tools

  /** The argument of `onDisconnected`: something that is not an object, or an object whose
      `permanent` field is a boolean or missing. */
  datatype DisconnectInfo = NotAnObject | InfoObject(permanent: Option<bool>)

  /** The managed-status push handler (src/index.ts:98-111). */
  method OnManagedStreamStatus(session: AppSession, userId: UserId, hub: Hub, d: ManagedStatusData)
    requires hub.Valid()
    modifies session, hub
    ensures hub.Valid() && hub.clients == old(hub.clients)
    ensures session.Record() == ManagedStatusApplied(old(session.Record()), d)
    ensures session.cameraCalls == old(session.cameraCalls)
    ensures hub.trace == old(hub.trace) + Published(hub.clients, userId, FormatStreamStatus(Some(session.Record())))
  {
    WriteManagedStatus(session, d);
    hub.Broadcast(userId, FormatStreamStatus(Some(session.Record())));
  }

  /** The RTMP-status push handler (src/index.ts:113-124). */
  method OnStreamStatus(session: AppSession, userId: UserId, hub: Hub, d: RtmpStatusData)
    requires hub.Valid()
    modifies session, hub
    ensures hub.Valid() && hub.clients == old(hub.clients)
    ensures session.Record() == RtmpStatusApplied(old(session.Record()), d)
    ensures session.cameraCalls == old(session.cameraCalls)
    ensures hub.trace == old(hub.trace) + Published(hub.clients, userId, FormatStreamStatus(Some(session.Record())))
  {
    WriteRtmpStatus(session, d);
    hub.Broadcast(userId, FormatStreamStatus(Some(session.Record())));
  }

  /** The battery push handler (src/index.ts:127-135): store the reading, always broadcast. */
  method OnGlassesBattery(session: AppSession, userId: UserId, hub: Hub, d: BatteryData)
    requires hub.Valid()
    modifies session, hub
    ensures hub.Valid() && hub.clients == old(hub.clients)
    ensures session.Record() == BatteryApplied(old(session.Record()), d)
    ensures session.cameraCalls == old(session.cameraCalls)
    ensures hub.trace == old(hub.trace) + Published(hub.clients, userId, FormatStreamStatus(Some(session.Record())))
  {
    var pct: Option<int>;
    match d {
      case WithPercent(p) => pct := p;
      case Number(n) => pct := Some(n);
      case NotNumeric => pct := None;
    }
    session.glassesBatteryPercent := pct;
    hub.Broadcast(userId, FormatStreamStatus(Some(session.Record())));
  }

  /** Folding the answer of `checkExistingStream` into the session the way `onSession` does
      (src/index.ts:51-96): a found stream is folded in and broadcast once; no stream, or a failed
      check, leaves the record untouched. */
  method FoldExistingStream(session: AppSession, userId: UserId, hub: Hub, check: Outcome<ExistingStream>)
    requires hub.Valid()
    modifies session, hub
    ensures hub.Valid() && hub.clients == old(hub.clients)
    ensures session.cameraCalls == old(session.cameraCalls) + [CheckExistingStream]
    ensures check.Ok? && Found(check.value) ==>
      && session.Record() == ExistingFolded(old(session.Record()), check.value.streamInfo.value, false)
      && hub.trace == old(hub.trace) + Published(hub.clients, userId, FormatStreamStatus(Some(session.Record())))
    ensures !(check.Ok? && Found(check.value)) ==>
      session.Record() == old(session.Record()) && hub.trace == old(hub.trace)
  {
    session.cameraCalls := session.cameraCalls + [CheckExistingStream];
    if check.Fail? {
      return;
    }
    var streamInfo := check.value;
    if streamInfo.hasActiveStream && streamInfo.streamInfo.Some? {
      var info := streamInfo.streamInfo.value;
      if info.kind == Managed {
        AdoptManaged(session, info, false);
      } else {
        AdoptUnmanaged(session, info, false);
      }
      hub.Broadcast(userId, FormatStreamStatus(Some(session.Record())));
    }
  }

  /** `StreamerApp`: the server's own map from user to session (`userSessionsMap`). */
  class StreamerApp {
    var userSessions: map<UserId, AppSession>

    constructor ()
      ensures userSessions == map[]
    {
      userSessions := map[];
    }

    /** `onSession` (src/index.ts:43-162): register the session under its user, fold in a stream
        that is already running, and end with one snapshot broadcast. */
    method OnSession(session: AppSession, userId: UserId, hub: Hub, check: Outcome<ExistingStream>)
      requires hub.Valid()
      modifies this, session, hub
      ensures hub.Valid() && hub.clients == old(hub.clients)
      ensures userSessions == old(userSessions)[userId := session]
      ensures session.cameraCalls == old(session.cameraCalls) + [CheckExistingStream]
      ensures check.Ok? && Found(check.value) ==>
        && session.Record() == ExistingFolded(old(session.Record()), check.value.streamInfo.value, false)
        && hub.trace == old(hub.trace) + Published(hub.clients, userId, FormatStreamStatus(Some(session.Record())))
                                       + Published(hub.clients, userId, FormatStreamStatus(Some(session.Record())))
      ensures !(check.Ok? && Found(check.value)) ==>
        && session.Record() == old(session.Record())
        && hub.trace == old(hub.trace) + Published(hub.clients, userId, FormatStreamStatus(Some(session.Record())))
    {
      userSessions := userSessions[userId := session];
      FoldExistingStream(session, userId, hub, check);
      hub.Broadcast(userId, FormatStreamStatus(Some(session.Record())));
    }

    /** The disconnect handler (src/index.ts:138-149): only a permanent disconnect forgets the
        session and tells the observers there is none; otherwise nothing happens. */
    method OnDisconnected(userId: UserId, hub: Hub, info: DisconnectInfo)
      requires hub.Valid()
      modifies this, hub
      ensures hub.Valid() && hub.clients == old(hub.clients)
      ensures info == InfoObject(Some(true)) ==>
        && userSessions == old(userSessions) - {userId}
        && hub.trace == old(hub.trace) + Published(hub.clients, userId, FormatStreamStatus(None))
      ensures info != InfoObject(Some(true)) ==>
        userSessions == old(userSessions) && hub.trace == old(hub.trace)
    {
      if info.InfoObject? && info.permanent == Some(true) {
        userSessions := userSessions - {userId};
        hub.Broadcast(userId, FormatStreamStatus(None));
      }
    }

    /** `onStop` (src/index.ts:168-197): send the stop that matches the stream type (a failure is
        swallowed), run the SDK's own cleanup, forget the session, and in every case broadcast a
        no-session snapshot. When the SDK cleanup throws, the map entry is kept and the call
        rejects with that error, after the broadcast. */
    method OnStop(userId: UserId, hub: Hub, baseCleanup: Outcome<Done>) returns (r: Outcome<Done>)
      requires hub.Valid()
      modifies this, hub, userSessions.Values
      ensures hub.Valid() && hub.clients == old(hub.clients)
      ensures r == baseCleanup
      ensures userSessions == if baseCleanup.Ok? then old(userSessions) - {userId} else old(userSessions)
      ensures hub.trace == old(hub.trace) + Published(hub.clients, userId, FormatStreamStatus(None))
      ensures forall s :: s in old(userSessions.Values) ==> s.Record() == old(s.Record())
      ensures forall s :: s in old(userSessions.Values) && (userId !in old(userSessions) || s != old(userSessions[userId]))
                ==> s.cameraCalls == old(s.cameraCalls)
      ensures userId in old(userSessions) ==>
        var s := old(userSessions[userId]);
        s.cameraCalls == old(s.cameraCalls) + StopCalls(old(s.streamType))
    {
      if userId in userSessions {
        var session := userSessions[userId];
        if session.streamType == Some(Managed) {
          session.cameraCalls := session.cameraCalls + [StopManagedStream];
        } else if session.streamType == Some(Unmanaged) {
          session.cameraCalls := session.cameraCalls + [StopStream];
        }
      }
      if baseCleanup.Ok? {
        userSessions := userSessions - {userId};
      }
      hub.Broadcast(userId, FormatStreamStatus(None));
      r := baseCleanup;
    }

    /** `onToolCall` (src/index.ts:32-34): the tool handler runs against this user's session, if any. */
    method OnToolCall(call: Tools.ToolCall, hub: Hub, provider: Outcome<Done>) returns (reply: Option<string>)
      requires hub.Valid()
      modifies hub, userSessions.Values
      ensures hub.Valid() && hub.clients == old(hub.clients)
      ensures call.userId !in userSessions && call.toolId in {Tools.StartTool, Tools.StopTool} ==>
        reply == Some(Tools.NoSessionReply)
    {
      var session: AppSession? := if call.userId in userSessions then userSessions[call.userId] else null;
      reply := Tools.HandleToolCall(call, call.userId, session, hub, provider);
    }
  }
}
