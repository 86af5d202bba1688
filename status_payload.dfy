/** The status snapshot sent to every observer: `formatStreamStatus` (src/webview.ts:359-390). */
module StatusPayload {
  import opened Wrappers
  import opened StreamSession

  /** `StreamStatusPayload` after `JSON.stringify`: a field that is `undefined` is not sent at all,
      so `streamStatus == None` means the key is missing, while every other `None` is a `null`. */
  datatype Payload = Payload(
    streamType: Option<StreamKind>,
    streamStatus: Option<string>,
    hlsUrl: Option<string>,
    dashUrl: Option<string>,
    streamId: Option<string>,
    directRtmpUrl: Option<string>,
    mangedRtmpRestreamUrls: Option<seq<string>>,
    previewUrl: Option<string>,
    error: Option<string>,
    glassesBatteryPercent: Option<int>,
    hasActiveSession: bool)

  /** The snapshot that says "this user has no session". */
  predicate IsNoSession(p: Payload) {
    && p.streamType == None && p.streamStatus == None
    && p.hlsUrl == None && p.dashUrl == None && p.streamId == None && p.directRtmpUrl == None
    && p.mangedRtmpRestreamUrls == None && p.previewUrl == None && p.error == None
    && p.glassesBatteryPercent == None && !p.hasActiveSession
  }

  /** `formatStreamStatus(session?)`: each broadcast field copied with absent turned into null, and
      `hasActiveSession` true exactly when a session was given. */
  function FormatStreamStatus(s: Option<SessionRecord>): (p: Payload)
    ensures p.hasActiveSession <==> s.Some?
    ensures s.None? ==> IsNoSession(p)
    ensures s.Some? ==>
      && p.streamType == s.value.streamType && p.streamStatus == s.value.streamStatus
      && p.hlsUrl == s.value.hlsUrl && p.dashUrl == s.value.dashUrl
      && p.streamId == s.value.streamId && p.directRtmpUrl == s.value.directRtmpUrl
      && p.mangedRtmpRestreamUrls == s.value.mangedRtmpRestreamUrls
      && p.previewUrl == s.value.previewUrl && p.error == s.value.error
      && p.glassesBatteryPercent == s.value.glassesBatteryPercent
  {
    match s
    case None =>
      Payload(None, None, None, None, None, None, None, None, None, None, false)
    case Some(r) =>
      Payload(r.streamType, r.streamStatus, r.hlsUrl, r.dashUrl, r.streamId, r.directRtmpUrl,
              r.mangedRtmpRestreamUrls, r.previewUrl, r.error, r.glassesBatteryPercent, true)
  }

  /** The snapshot never carries the saved configuration (platform, stream key, custom URL, relay
      choice), the restream destinations or the thumbnail: changing them leaves it unchanged. */
  lemma SnapshotHidesConfiguration(r: SessionRecord, platform: Option<string>, key: Option<string>,
                                   custom: Option<string>, managed: Option<bool>,
                                   dests: Option<seq<RestreamDestination>>, thumb: Option<string>)
    ensures FormatStreamStatus(Some(r)) ==
            FormatStreamStatus(Some(r.(streamPlatform := platform, streamKey := key, customRtmpUrl := custom,
                                       useCloudflareManaged := managed, restreamDestinations := dests,
                                       thumbnailUrl := thumb)))
  {
  }
}
