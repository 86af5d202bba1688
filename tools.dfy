/** The voice-assistant tools `start_streaming` and `stop_streaming` (src/tools.ts). */
module Tools {
  import opened Wrappers
  import opened JsText
  import opened StreamSession
  import opened StatusPayload
  import opened SseHub
  import opened Destinations

  const StartTool := "start_streaming"
  const StopTool := "stop_streaming"
  const NoSessionReply := "Error: No active session"
  const StartedReply := "Stream started successfully"
  const MissingUrlReply := "Error: Missing RTMP URL or stream key"
  const StoppedReply := "Stream stopped successfully"
  const NothingToStopReply := "No active stream to stop"

  /** `toolParameters`: each parameter the assistant may pass; `None` when it is absent. */
  datatype ToolParams = ToolParams(
    platform: Option<string>, streamKey: Option<string>, customRtmpUrl: Option<string>,
    useCloudflareManaged: Option<bool>)

  datatype ToolCall = ToolCall(toolId: string, userId: UserId, params: ToolParams)

  /** The configuration a start call settles on before it does anything else. */
  datatype ToolConfig = ToolConfig(platform: string, streamKey: string, customRtmpUrl: string, useCloudflareManaged: bool)

  /** Parameter defaults (src/tools.ts:26-29): the three strings fall back with `||`, so an empty
      parameter falls through to the saved value and then to `here` or `""`; the relay choice falls
      back with `??`, so an explicit `false` is kept and only a missing one defaults to `true`. */
  function ResolvedConfig(p: ToolParams, r: SessionRecord): (c: ToolConfig)
    ensures c.platform != ""
    ensures Truthy(p.platform) ==> c.platform == p.platform.value
    ensures !Truthy(p.platform) && Truthy(r.streamPlatform) ==> c.platform == r.streamPlatform.value
    ensures !Truthy(p.platform) && !Truthy(r.streamPlatform) ==> c.platform == "here"
    ensures Truthy(p.streamKey) ==> c.streamKey == p.streamKey.value
    ensures !Truthy(p.streamKey) ==> c.streamKey == r.streamKey.GetOr("")
    ensures Truthy(p.customRtmpUrl) ==> c.customRtmpUrl == p.customRtmpUrl.value
    ensures !Truthy(p.customRtmpUrl) ==> c.customRtmpUrl == r.customRtmpUrl.GetOr("")
    ensures p.useCloudflareManaged.Some? ==> c.useCloudflareManaged == p.useCloudflareManaged.value
    ensures p.useCloudflareManaged.None? ==> c.useCloudflareManaged == r.useCloudflareManaged.GetOr(true)
  {
    ToolConfig(OrElse(p.platform, OrElse(r.streamPlatform, "here")),
               OrElse(p.streamKey, OrElse(r.streamKey, "")),
               OrElse(p.customRtmpUrl, OrElse(r.customRtmpUrl, "")),
               p.useCloudflareManaged.GetOr(r.useCloudflareManaged.GetOr(true)))
  }

  /** What a start call will ask of the camera. */
  datatype StartPlan = ManagedPlan(restreamUrl: Option<string>) | UnmanagedPlan(rtmpUrl: string) | MissingUrl

  /** The branch structure of src/tools.ts:37-99, over the resolved configuration. */
  function PlanOf(c: ToolConfig): StartPlan {
    if c.platform == "here" || c.useCloudflareManaged then
      ManagedPlan(if c.platform != "here" then ToolRestreamUrl(c.platform, c.streamKey, c.customRtmpUrl) else None)
    else
      match ToolRtmpUrl(c.platform, c.streamKey, c.customRtmpUrl)
      case Some(url) => if url != "" then UnmanagedPlan(url) else MissingUrl
      case None => MissingUrl
  }

  /** The tool takes the managed path exactly for `here` or the relay choice; both paths resolve
      the destination by the one platform rule, and only the unmanaged path can fail for want of it. */
  lemma PlanFollowsRule(c: ToolConfig)
    ensures PlanOf(c).ManagedPlan? <==> c.platform == "here" || c.useCloudflareManaged
    ensures PlanOf(c).ManagedPlan? ==>
      PlanOf(c).restreamUrl == Destination(c.platform, c.streamKey, c.customRtmpUrl)
    ensures PlanOf(c).UnmanagedPlan? ==>
      Some(PlanOf(c).rtmpUrl) == Destination(c.platform, c.streamKey, c.customRtmpUrl)
    ensures PlanOf(c).MissingUrl? <==>
      !(c.platform == "here" || c.useCloudflareManaged) && Destination(c.platform, c.streamKey, c.customRtmpUrl).None?
  {
    ToolRestreamAgrees(c.platform, c.streamKey, c.customRtmpUrl);
    ToolRtmpAgrees(c.platform, c.streamKey, c.customRtmpUrl);
  }

  /** The restream list a managed plan sends and stores: one entry named after the platform, when
      a URL was built. */
  function PlanDestinations(c: ToolConfig, plan: StartPlan): (d: Option<seq<RestreamDestination>>)
    ensures d.Some? <==> plan.ManagedPlan? && plan.restreamUrl.Some?
    ensures d.Some? ==> d.value == [RestreamDestination(plan.restreamUrl.value, c.platform)]
  {
    if plan.ManagedPlan? && plan.restreamUrl.Some? then Some([RestreamDestination(plan.restreamUrl.value, c.platform)])
    else None
  }

  /** The record after a start call (src/tools.ts:32-35, 65): the resolved configuration is stored,
      and the restream list only when one was built. */
  function StartSaved(r: SessionRecord, c: ToolConfig): (r': SessionRecord)
    ensures r'.streamPlatform == Some(c.platform) && r'.streamKey == Some(c.streamKey)
    ensures r'.customRtmpUrl == Some(c.customRtmpUrl) && r'.useCloudflareManaged == Some(c.useCloudflareManaged)
    ensures r'.restreamDestinations ==
            (if PlanDestinations(c, PlanOf(c)).Some? then PlanDestinations(c, PlanOf(c)) else r.restreamDestinations)
    ensures FormatStreamStatus(Some(r')) == FormatStreamStatus(Some(r))
  {
    var saved := r.(streamPlatform := Some(c.platform), streamKey := Some(c.streamKey),
                    customRtmpUrl := Some(c.customRtmpUrl), useCloudflareManaged := Some(c.useCloudflareManaged));
    var dests := PlanDestinations(c, PlanOf(c));
    if dests.Some? then saved.(restreamDestinations := dests) else saved
  }

  /** The camera request a plan issues, if any. */
  function PlanCalls(c: ToolConfig, plan: StartPlan): seq<CameraCall> {
    match plan
    case ManagedPlan(_) => [StartManagedStream(PlanDestinations(c, plan))]
    case UnmanagedPlan(url) => [StartStream(url)]
    case MissingUrl => []
  }

  /** The configuration writes of a start call (src/tools.ts:32-35, 65). */
  method SaveResolvedConfig(session: AppSession, c: ToolConfig)
    modifies session
    ensures session.Record() == StartSaved(old(session.Record()), c)
    ensures session.cameraCalls == old(session.cameraCalls)
  {
    session.streamPlatform := Some(c.platform);
    session.streamKey := Some(c.streamKey);
    session.customRtmpUrl := Some(c.customRtmpUrl);
    session.useCloudflareManaged := Some(c.useCloudflareManaged);
    var dests := PlanDestinations(c, PlanOf(c));
    if dests.Some? {
      session.restreamDestinations := dests;
    }
  }

  /** `start_streaming` with a session (src/tools.ts:24-99): store the resolved configuration, then
      start the stream the plan names, or refuse when an unmanaged start has no URL. The reply does
      not wait for the camera; `provider` only decides whether the follow-up broadcast happens. */
  method StartStreaming(params: ToolParams, userId: UserId, session: AppSession, hub: Hub, provider: Outcome<Done>)
    returns (reply: string)
    requires hub.Valid()
    modifies hub, session
    ensures hub.Valid() && hub.clients == old(hub.clients)
    ensures var c := ResolvedConfig(params, old(session.Record()));
      && session.Record() == StartSaved(old(session.Record()), c)
      && session.cameraCalls == old(session.cameraCalls) + PlanCalls(c, PlanOf(c))
      && reply == (if PlanOf(c).MissingUrl? then MissingUrlReply else StartedReply)
      && hub.trace == old(hub.trace) +
           (if !PlanOf(c).MissingUrl? && provider.Ok?
            then Published(hub.clients, userId, FormatStreamStatus(Some(session.Record()))) else [])
  {
    var c := ResolvedConfig(params, session.Record());
    var plan := PlanOf(c);
    SaveResolvedConfig(session, c);
    if plan.ManagedPlan? {
      session.cameraCalls := session.cameraCalls + [StartManagedStream(PlanDestinations(c, plan))];
    } else if plan.UnmanagedPlan? {
      session.cameraCalls := session.cameraCalls + [StartStream(plan.rtmpUrl)];
    } else {
      return MissingUrlReply;
    }
    if provider.Ok? {
      hub.Broadcast(userId, FormatStreamStatus(Some(session.Record())));
    }
    return StartedReply;
  }

  /** `stop_streaming` with a session (src/tools.ts:109-122): send the stop that matches the stream
      type, or report that nothing runs. The session's fields are left as they are; only the status
      push that follows changes them. */
  method StopStreaming(userId: UserId, session: AppSession, hub: Hub, provider: Outcome<Done>)
    returns (reply: string)
    requires hub.Valid()
    modifies hub, session
    ensures hub.Valid() && hub.clients == old(hub.clients)
    ensures session.Record() == old(session.Record())
    ensures session.cameraCalls == old(session.cameraCalls) + StopCalls(old(session.streamType))
    ensures reply == (if old(session.streamType).None? then NothingToStopReply else StoppedReply)
    ensures hub.trace == old(hub.trace) +
              (if old(session.streamType).Some? && provider.Ok?
               then Published(hub.clients, userId, FormatStreamStatus(Some(session.Record()))) else [])
  {
    if session.streamType == Some(Managed) {
      session.cameraCalls := session.cameraCalls + [StopManagedStream];
    } else if session.streamType == Some(Unmanaged) {
      session.cameraCalls := session.cameraCalls + [StopStream];
    } else {
      return NothingToStopReply;
    }
    if provider.Ok? {
      hub.Broadcast(userId, FormatStreamStatus(Some(session.Record())));
    }
    return StoppedReply;
  }

  /** `handleToolCall` (src/tools.ts:11-130): an unknown tool gets no reply, either tool without a
      session gets the no-session error, and otherwise the tool runs. */
  method HandleToolCall(call: ToolCall, userId: UserId, session: AppSession?, hub: Hub, provider: Outcome<Done>)
    returns (reply: Option<string>)
    requires hub.Valid()
    modifies hub, session
    ensures hub.Valid() && hub.clients == old(hub.clients)
    ensures call.toolId != StartTool && call.toolId != StopTool ==>
      reply == None && hub.trace == old(hub.trace)
    ensures call.toolId in {StartTool, StopTool} && session == null ==>
      reply == Some(NoSessionReply) && hub.trace == old(hub.trace)
    ensures session != null && call.toolId != StartTool && call.toolId != StopTool ==>
      session.Record() == old(session.Record()) && session.cameraCalls == old(session.cameraCalls)
    ensures session != null && call.toolId == StartTool ==>
      reply.Some? && reply.value in {StartedReply, MissingUrlReply}
    ensures session != null && call.toolId == StopTool ==>
      reply.Some? && reply.value in {StoppedReply, NothingToStopReply}
  {
    if call.toolId == StartTool {
      if session == null {
        return Some(NoSessionReply);
      }
      var text := StartStreaming(call.params, userId, session, hub, provider);
      return Some(text);
    } else if call.toolId == StopTool {
      if session == null {
        return Some(NoSessionReply);
      }
      var text := StopStreaming(userId, session, hub, provider);
      return Some(text);
    }
    return None;
  }
}
