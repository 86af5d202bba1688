/** The per-user session record (src/streamSession.ts) and the camera requests the handlers issue on it. */
module StreamSession {
  import opened Wrappers

  /** `streamType`: a stream is either managed (relayed by the platform) or unmanaged (direct RTMP);
      `Option<StreamKind>` adds the third value, `null`. */
  datatype StreamKind = Managed | Unmanaged

  function KindName(k: StreamKind): (s: string)
    ensures s == "managed" <==> k == Managed
    ensures s == "unmanaged" <==> k == Unmanaged
  {
    match k
    case Managed => "managed"
    case Unmanaged => "unmanaged"
  }

  /** One `{url, name}` entry of `restreamDestinations`. */
  datatype RestreamDestination = RestreamDestination(url: string, name: string)

  /** The value of every field the app adds to the SDK's session object. Each field that TypeScript
      declares nullable, and each field no handler has set yet, is an `Option`; `None` stands for both
      `null` and `undefined`, except for `streamStatus`, whose `None` is always `undefined`. */
  datatype SessionRecord = SessionRecord(
    streamType: Option<StreamKind>,
    streamStatus: Option<string>,
    hlsUrl: Option<string>,
    dashUrl: Option<string>,
    streamId: Option<string>,
    directRtmpUrl: Option<string>,
    mangedRtmpRestreamUrls: Option<seq<string>>,
    error: Option<string>,
    glassesBatteryPercent: Option<int>,
    previewUrl: Option<string>,
    thumbnailUrl: Option<string>,
    streamPlatform: Option<string>,
    streamKey: Option<string>,
    customRtmpUrl: Option<string>,
    useCloudflareManaged: Option<bool>,
    restreamDestinations: Option<seq<RestreamDestination>>)

  /** A request the app sends to the device through `session.camera`; its result comes back as an `Outcome`. */
  datatype CameraCall =
    | CheckExistingStream
    | StartManagedStream(restream: Option<seq<RestreamDestination>>)
    | StartStream(rtmpUrl: string)
    | StopManagedStream
    | StopStream

  /** The stop request that matches a stream type; there is none to send while no stream runs. */
  function StopCalls(t: Option<StreamKind>): (calls: seq<CameraCall>)
    ensures t.None? <==> calls == []
    ensures t == Some(Managed) ==> calls == [StopManagedStream]
    ensures t == Some(Unmanaged) ==> calls == [StopStream]
  {
    match t
    case Some(Managed) => [StopManagedStream]
    case Some(Unmanaged) => [StopStream]
    case None => []
  }

  /** The SDK's session object, with the fields the app declares on it. The handlers in the other
      modules assign these fields one by one, as the TypeScript does. `cameraCalls` records, in order,
      the requests sent to the device. */
  class AppSession {
    var streamType: Option<StreamKind>
    var streamStatus: Option<string>
    var hlsUrl: Option<string>
    var dashUrl: Option<string>
    var streamId: Option<string>
    var directRtmpUrl: Option<string>
    var mangedRtmpRestreamUrls: Option<seq<string>>
    var error: Option<string>
    var glassesBatteryPercent: Option<int>
    var previewUrl: Option<string>
    var thumbnailUrl: Option<string>
    var streamPlatform: Option<string>
    var streamKey: Option<string>
    var customRtmpUrl: Option<string>
    var useCloudflareManaged: Option<bool>
    var restreamDestinations: Option<seq<RestreamDestination>>
    var cameraCalls: seq<CameraCall>

    /** The record held by this session object. */
    function Record(): SessionRecord
      reads this
    {
      SessionRecord(streamType, streamStatus, hlsUrl, dashUrl, streamId, directRtmpUrl,
                    mangedRtmpRestreamUrls, error, glassesBatteryPercent, previewUrl, thumbnailUrl,
                    streamPlatform, streamKey, customRtmpUrl, useCloudflareManaged, restreamDestinations)
    }

    /** A session as the SDK hands it to `onSession`: the declaration merging adds no initialiser,
        so none of the app's fields is set yet. */
    constructor ()
      ensures Record() == SessionRecord(None, None, None, None, None, None, None, None, None,
                                        None, None, None, None, None, None, None)
      ensures cameraCalls == []
    {
      streamType, streamStatus, hlsUrl, dashUrl, streamId, directRtmpUrl := None, None, None, None, None, None;
      mangedRtmpRestreamUrls, error, glassesBatteryPercent, previewUrl, thumbnailUrl := None, None, None, None, None;
      streamPlatform, streamKey, customRtmpUrl, useCloudflareManaged, restreamDestinations := None, None, None, None, None;
      cameraCalls := [];
    }
  }
}
