/** What the provider reports and how each report rewrites the session record. The handlers in
    `AppServer`, `Routes` and `Tools` assign the fields of the session object one by one; their
    contracts equate the resulting record with the functions below. */
module SessionUpdates {
  import opened Wrappers
  import opened JsText
  import opened StreamSession

  /** The argument of `onManagedStreamStatus`. */
  datatype ManagedStatusData = ManagedStatusData(
    status: string, hlsUrl: Option<string>, dashUrl: Option<string>, streamId: Option<string>,
    previewUrl: Option<string>, thumbnailUrl: Option<string>)

  /** The argument of `onStreamStatus` (the RTMP status push). */
  datatype RtmpStatusData = RtmpStatusData(status: string, streamId: Option<string>, errorDetails: Option<string>)

  /** The argument of `onGlassesBattery`: an object whose `percent` is a number or not, a bare
      number, or any other value. */
  datatype BatteryData = WithPercent(percent: Option<int>) | Number(n: int) | NotNumeric

  /** `streamInfo` as `checkExistingStream` describes a running stream. */
  datatype StreamInfo = StreamInfo(
    kind: StreamKind, status: Option<string>, hlsUrl: Option<string>, dashUrl: Option<string>,
    streamId: Option<string>, previewUrl: Option<string>, webrtcUrl: Option<string>, rtmpUrl: Option<string>)

  /** The answer of `checkExistingStream`. */
  datatype ExistingStream = ExistingStream(hasActiveStream: bool, streamInfo: Option<StreamInfo>)

  /** The configuration fields a start request may carry; `None` means the key was not sent. */
  datatype ConfigBody = ConfigBody(
    platform: Option<string>, streamKey: Option<string>, customRtmpUrl: Option<string>,
    useCloudflareManaged: Option<bool>)

  /** The managed-status push (src/index.ts:100-108). */
  function ManagedStatusApplied(r: SessionRecord, d: ManagedStatusData): (r': SessionRecord)
    ensures r'.streamType == Some(Managed) && r'.streamStatus == Some(d.status)
    ensures r'.hlsUrl == d.hlsUrl && r'.dashUrl == d.dashUrl && r'.streamId == d.streamId
    ensures r'.previewUrl == d.previewUrl && r'.thumbnailUrl == d.thumbnailUrl
    ensures r'.directRtmpUrl == None && r'.error == None
    ensures r'.mangedRtmpRestreamUrls == r.mangedRtmpRestreamUrls
    ensures r'.glassesBatteryPercent == r.glassesBatteryPercent
    ensures SameConfig(r, r')
  {
    r.(streamType := Some(Managed), streamStatus := Some(d.status), hlsUrl := d.hlsUrl, dashUrl := d.dashUrl,
       directRtmpUrl := None, streamId := d.streamId, error := None, previewUrl := d.previewUrl,
       thumbnailUrl := d.thumbnailUrl)
  }

  /** The RTMP-status push (src/index.ts:115-121). */
  function RtmpStatusApplied(r: SessionRecord, d: RtmpStatusData): (r': SessionRecord)
    ensures r'.streamType == Some(Unmanaged) && r'.streamStatus == Some(d.status)
    ensures r'.hlsUrl == None && r'.dashUrl == None && r'.mangedRtmpRestreamUrls == None
    ensures r'.streamId == d.streamId && r'.error == d.errorDetails
    ensures r'.previewUrl == r.previewUrl && r'.thumbnailUrl == r.thumbnailUrl
    ensures r'.directRtmpUrl == r.directRtmpUrl
    ensures r'.glassesBatteryPercent == r.glassesBatteryPercent
    ensures SameConfig(r, r')
  {
    r.(streamType := Some(Unmanaged), streamStatus := Some(d.status), hlsUrl := None, dashUrl := None,
       streamId := d.streamId, mangedRtmpRestreamUrls := None, error := d.errorDetails)
  }

  /** The battery reading (src/index.ts:129-130): `data.percent` if it is a number, else `data`
      if it is a number, else null. */
  function BatteryReading(d: BatteryData): (pct: Option<int>)
    ensures pct.Some? <==> (d.WithPercent? && d.percent.Some?) || d.Number?
    ensures d.WithPercent? && d.percent.Some? ==> pct == d.percent
    ensures d.Number? ==> pct == Some(d.n)
  {
    match d
    case WithPercent(p) => p
    case Number(n) => Some(n)
    case NotNumeric => None
  }

  /** The record after a battery push: only the battery field changes. */
  function BatteryApplied(r: SessionRecord, d: BatteryData): (r': SessionRecord)
    ensures r' == r.(glassesBatteryPercent := BatteryReading(d))
  {
    r.(glassesBatteryPercent := BatteryReading(d))
  }

  /** A check found a running stream: `hasActiveStream && streamInfo`. */
  predicate Found(e: ExistingStream) {
    e.hasActiveStream && e.streamInfo.Some?
  }

  /** Folding a running stream into the record, as `onSession` does (src/index.ts:62-69, 78-84,
      `webrtcFallback == false`) and as the check route does (src/webview.ts:290-305,
      `webrtcFallback == true`). Every `||` turns an empty string into null. */
  function ExistingFolded(r: SessionRecord, info: StreamInfo, webrtcFallback: bool): (r': SessionRecord)
    ensures r'.streamType == Some(info.kind)
    ensures r'.streamStatus == Some(OrElse(info.status, "active"))
    ensures r'.streamId == OrNull(info.streamId) && r'.error == None
    ensures info.kind == Managed ==>
      && r'.hlsUrl == OrNull(info.hlsUrl) && r'.dashUrl == OrNull(info.dashUrl) && r'.directRtmpUrl == None
      && r'.previewUrl == (if webrtcFallback && !Truthy(info.previewUrl) then OrNull(info.webrtcUrl)
                           else OrNull(info.previewUrl))
    ensures info.kind == Unmanaged ==>
      && r'.hlsUrl == None && r'.dashUrl == None && r'.directRtmpUrl == OrNull(info.rtmpUrl)
      && r'.previewUrl == r.previewUrl
    ensures r'.thumbnailUrl == r.thumbnailUrl && r'.mangedRtmpRestreamUrls == r.mangedRtmpRestreamUrls
    ensures r'.glassesBatteryPercent == r.glassesBatteryPercent && SameConfig(r, r')
  {
    var status := Some(OrElse(info.status, "active"));
    match info.kind
    case Managed =>
      r.(streamType := Some(Managed), streamStatus := status, hlsUrl := OrNull(info.hlsUrl),
         dashUrl := OrNull(info.dashUrl), streamId := OrNull(info.streamId), directRtmpUrl := None,
         error := None,
         previewUrl := if webrtcFallback && !Truthy(info.previewUrl) then OrNull(info.webrtcUrl)
                       else OrNull(info.previewUrl))
    case Unmanaged =>
      r.(streamType := Some(Unmanaged), streamStatus := status, hlsUrl := None, dashUrl := None,
         streamId := OrNull(info.streamId), directRtmpUrl := OrNull(info.rtmpUrl), error := None)
  }

  /** The two folds differ only in `previewUrl`, and only for a managed stream that reports no
      preview URL but a WebRTC URL. */
  lemma FoldsDifferOnlyInPreview(r: SessionRecord, info: StreamInfo)
    ensures ExistingFolded(r, info, true).(previewUrl := r.previewUrl) ==
            ExistingFolded(r, info, false).(previewUrl := r.previewUrl)
    ensures ExistingFolded(r, info, true) != ExistingFolded(r, info, false) <==>
            info.kind == Managed && !Truthy(info.previewUrl) && Truthy(info.webrtcUrl)
  {
  }

  /** Same saved configuration and restream destinations. */
  predicate SameConfig(r: SessionRecord, r': SessionRecord) {
    && r'.streamPlatform == r.streamPlatform && r'.streamKey == r.streamKey
    && r'.customRtmpUrl == r.customRtmpUrl && r'.useCloudflareManaged == r.useCloudflareManaged
    && r'.restreamDestinations == r.restreamDestinations
  }

  /** A stop route's effect (src/webview.ts:177-203, 246-270): the stream always ends up
      `null`/`idle`; the fields of `kind` are cleared only when a stream of that kind was found
      and the provider stopped it (`cleared`). */
  function StopApplied(r: SessionRecord, kind: StreamKind, cleared: bool): (r': SessionRecord)
    ensures r'.streamType == None && r'.streamStatus == Some("idle")
    ensures cleared && kind == Managed ==>
      r' == r.(streamType := None, streamStatus := Some("idle"),
               hlsUrl := None, dashUrl := None, streamId := None, previewUrl := None)
    ensures cleared && kind == Unmanaged ==>
      r' == r.(streamType := None, streamStatus := Some("idle"), directRtmpUrl := None, streamId := None)
    ensures !cleared ==> r' == r.(streamType := None, streamStatus := Some("idle"))
    ensures r'.error == r.error && r'.thumbnailUrl == r.thumbnailUrl
    ensures r'.glassesBatteryPercent == r.glassesBatteryPercent && SameConfig(r, r')
  {
    var idle := r.(streamType := None, streamStatus := Some("idle"));
    if !cleared then idle
    else match kind
      case Managed => idle.(hlsUrl := None, dashUrl := None, streamId := None, previewUrl := None)
      case Unmanaged => idle.(directRtmpUrl := None, streamId := None)
  }

  /** "Save configuration" in the start routes (src/webview.ts:121-124, 222-225): the platform
      only when truthy, the other three whenever the key was sent. */
  function ConfigSaved(r: SessionRecord, b: ConfigBody): (r': SessionRecord)
    ensures r'.streamPlatform == (if Truthy(b.platform) then b.platform else r.streamPlatform)
    ensures r'.streamKey == (if b.streamKey.Some? then b.streamKey else r.streamKey)
    ensures r'.customRtmpUrl == (if b.customRtmpUrl.Some? then b.customRtmpUrl else r.customRtmpUrl)
    ensures r'.useCloudflareManaged ==
            (if b.useCloudflareManaged.Some? then b.useCloudflareManaged else r.useCloudflareManaged)
    ensures r' == r.(streamPlatform := r'.streamPlatform, streamKey := r'.streamKey,
                     customRtmpUrl := r'.customRtmpUrl, useCloudflareManaged := r'.useCloudflareManaged)
  {
    var r1 := if Truthy(b.platform) then r.(streamPlatform := b.platform) else r;
    var r2 := if b.streamKey.Some? then r1.(streamKey := b.streamKey) else r1;
    var r3 := if b.customRtmpUrl.Some? then r2.(customRtmpUrl := b.customRtmpUrl) else r2;
    if b.useCloudflareManaged.Some? then r3.(useCloudflareManaged := b.useCloudflareManaged) else r3
  }

  /** The managed branch of the fold as the handlers write it, field by field (src/index.ts:62-69,
      src/webview.ts:290-297). */
  method AdoptManaged(session: AppSession, info: StreamInfo, webrtcFallback: bool)
    requires info.kind == Managed
    modifies session
    ensures session.Record() == ExistingFolded(old(session.Record()), info, webrtcFallback)
    ensures session.cameraCalls == old(session.cameraCalls)
  {
    session.streamType := Some(Managed);
    session.streamStatus := Some(OrElse(info.status, "active"));
    session.hlsUrl := OrNull(info.hlsUrl);
    session.dashUrl := OrNull(info.dashUrl);
    ghost var r := old(session.Record()).(streamType := Some(Managed), streamStatus := Some(OrElse(info.status, "active")),
                                          hlsUrl := OrNull(info.hlsUrl), dashUrl := OrNull(info.dashUrl));
    assert session.Record() == r;
    session.streamId := OrNull(info.streamId);
    session.directRtmpUrl := None;
    session.error := None;
    var preview := if webrtcFallback && !Truthy(info.previewUrl) then OrNull(info.webrtcUrl)
                   else OrNull(info.previewUrl);
    session.previewUrl := preview;
    assert session.Record() ==
      r.(streamId := OrNull(info.streamId), directRtmpUrl := None, error := None, previewUrl := preview);
  }

  /** The managed push's writes (src/index.ts:100-108). */
  method WriteManagedStatus(session: AppSession, d: ManagedStatusData)
    modifies session
    ensures session.Record() == ManagedStatusApplied(old(session.Record()), d)
    ensures session.cameraCalls == old(session.cameraCalls)
  {
    session.streamType := Some(Managed);
    session.streamStatus := Some(d.status);
    session.hlsUrl := d.hlsUrl;
    session.dashUrl := d.dashUrl;
    ghost var r := old(session.Record()).(streamType := Some(Managed), streamStatus := Some(d.status),
                                          hlsUrl := d.hlsUrl, dashUrl := d.dashUrl);
    assert session.Record() == r;
    session.directRtmpUrl := None;
    session.streamId := d.streamId;
    session.error := None;
    session.previewUrl := d.previewUrl;
    session.thumbnailUrl := d.thumbnailUrl;
    assert session.Record() == r.(directRtmpUrl := None, streamId := d.streamId, error := None,
                                  previewUrl := d.previewUrl, thumbnailUrl := d.thumbnailUrl);
  }

  /** The RTMP push's writes (src/index.ts:115-121). */
  method WriteRtmpStatus(session: AppSession, d: RtmpStatusData)
    modifies session
    ensures session.Record() == RtmpStatusApplied(old(session.Record()), d)
    ensures session.cameraCalls == old(session.cameraCalls)
  {
    session.streamType := Some(Unmanaged);
    session.streamStatus := Some(d.status);
    session.hlsUrl := None;
    session.dashUrl := None;
    ghost var r := old(session.Record()).(streamType := Some(Unmanaged), streamStatus := Some(d.status),
                                          hlsUrl := None, dashUrl := None);
    assert session.Record() == r;
    session.streamId := d.streamId;
    session.mangedRtmpRestreamUrls := None;
    session.error := d.errorDetails;
    assert session.Record() == r.(streamId := d.streamId, mangedRtmpRestreamUrls := None, error := d.errorDetails);
  }

  /** The unmanaged branch of the fold (src/index.ts:78-84, src/webview.ts:299-305). */
  method AdoptUnmanaged(session: AppSession, info: StreamInfo, webrtcFallback: bool)
    requires info.kind == Unmanaged
    modifies session
    ensures session.Record() == ExistingFolded(old(session.Record()), info, webrtcFallback)
    ensures session.cameraCalls == old(session.cameraCalls)
  {
    session.streamType := Some(Unmanaged);
    session.streamStatus := Some(OrElse(info.status, "active"));
    session.hlsUrl := None;
    session.dashUrl := None;
    ghost var r := old(session.Record()).(streamType := Some(Unmanaged), streamStatus := Some(OrElse(info.status, "active")),
                                          hlsUrl := None, dashUrl := None);
    assert session.Record() == r;
    session.streamId := OrNull(info.streamId);
    session.directRtmpUrl := OrNull(info.rtmpUrl);
    session.error := None;
    assert session.Record() == r.(streamId := OrNull(info.streamId), directRtmpUrl := OrNull(info.rtmpUrl), error := None);
  }

  /** A stop route's writes (src/webview.ts:180-185, 191-192, 200-201, 249-252, 258-259, 267-268). */
  method MarkIdle(session: AppSession, kind: StreamKind, cleared: bool)
    modifies session
    ensures session.Record() == StopApplied(old(session.Record()), kind, cleared)
    ensures session.cameraCalls == old(session.cameraCalls)
  {
    session.streamType := None;
    session.streamStatus := Some("idle");
    ghost var idle := old(session.Record()).(streamType := None, streamStatus := Some("idle"));
    assert session.Record() == idle;
    if cleared {
      if kind == Managed {
        session.hlsUrl := None;
        session.dashUrl := None;
        session.streamId := None;
        session.previewUrl := None;
        assert session.Record() == idle.(hlsUrl := None, dashUrl := None, streamId := None, previewUrl := None);
      } else {
        session.directRtmpUrl := None;
        session.streamId := None;
        assert session.Record() == idle.(directRtmpUrl := None, streamId := None);
      }
    }
  }

  /** The configuration writes of a start route (src/webview.ts:121-124, 222-225). */
  method SaveConfig(session: AppSession, b: ConfigBody)
    modifies session
    ensures session.Record() == ConfigSaved(old(session.Record()), b)
    ensures session.cameraCalls == old(session.cameraCalls)
  {
    if Truthy(b.platform) {
      session.streamPlatform := b.platform;
    }
    if b.streamKey.Some? {
      session.streamKey := b.streamKey;
    }
    if b.customRtmpUrl.Some? {
      session.customRtmpUrl := b.customRtmpUrl;
    }
    if b.useCloudflareManaged.Some? {
      session.useCloudflareManaged := b.useCloudflareManaged;
    }
  }
}
