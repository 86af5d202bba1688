/** The control panel's state and how each event changes it (public/js/webview.js). The page is
    reduced to what the logic reads and writes: the module-level variables, the log, a display mode
    with the player's `src`, the button and control states, the form inputs, the battery readout,
    and the requests sent to the server. The class in `WebviewClient` updates the same state field
    by field; these functions are its specification. */
module PanelModel {
  import opened Wrappers
  import opened JsText
  import opened StreamSession
  import opened StatusPayload
  import opened Destinations
  import opened StatusClassifier
  import opened ClientLog

  /** What the video area shows: the overlay, the preview player, or the status logs. */
  datatype DisplayMode = Overlay | Preview | LogsView

  datatype BatteryLevel = Normal | Medium | Low

  /** The battery readout: the last percentage shown (`--` when `None`) and the colour class. */
  datatype BatteryView = BatteryView(percent: Option<int>, level: BatteryLevel)

  /** The configuration a start request carries. */
  datatype ClientConfig = ClientConfig(platform: string, streamKey: string, customRtmpUrl: string, useCloudflareManaged: bool)

  /** A request the panel sends to the server. */
  datatype ClientRequest =
    | CheckRequest
    | ManagedStartRequest(config: ClientConfig)
    | UnmanagedStartRequest(rtmpUrl: string, config: ClientConfig)
    | StopRequest(managed: bool)

  /** What `checkExistingStream` hands back to `startStream`: a stream was found (the reply had `ok`,
      `hasActiveStream` and `streamInfo`), or anything else, including a failed request. */
  datatype CheckAnswer =
    | NoStreamFound
    | StreamFound(kind: StreamKind, hlsUrl: Option<string>, activeViewers: Option<nat>,
                  rtmpUrl: Option<string>, requestingAppId: Option<string>)

  /** The parsed reply of a start request: its `ok` and `error` fields. */
  datatype PostAnswer = PostAnswer(ok: Option<bool>, error: Option<string>)

  /** The values the page template embeds for `initializeFromData`; `None` for a missing element. */
  datatype PageData = PageData(
    initialStreamType: Option<string>, initialStreamStatus: Option<string>, initialPreviewUrl: Option<string>,
    initialError: Option<string>, savedPlatform: Option<string>, savedStreamKey: Option<string>,
    savedCustomRtmpUrl: Option<string>, savedUseCloudflare: Option<string>)

  datatype PanelState = PanelState(
    currentPlatform: string,
    isStreaming: bool,
    streamType: string,
    currentStreamStatus: string,
    logs: seq<LogEntry>,
    display: DisplayMode,
    playerSrc: string,
    stopButton: bool,
    controlsDisabled: bool,
    streamKeyInput: string,
    rtmpUrlInput: string,
    cloudflareChecked: bool,
    battery: BatteryView,
    requests: seq<ClientRequest>)

  /** What the panel keeps true between events: the log is bounded, the player has a source
      exactly in preview mode, button and controls follow `isStreaming`, and a busy status is
      always shown as streaming. The converse of the last one does not hold (see
      `FailedErrorLeavesStuck`). */
  predicate Inv(p: PanelState) {
    && Framed(p)
    && p.stopButton == p.isStreaming
    && p.controlsDisabled == p.isStreaming
    && (IsStreamingStatus(p.currentStreamStatus) ==> p.isStreaming)
  }

  /** The part of `Inv` about the log and the video area alone. */
  predicate Framed(p: PanelState) {
    |p.logs| <= MaxLogs && (p.display == Preview <==> p.playerSrc != "")
  }

  // ---- the page's helper functions ----

  /** `updateStatus(status, type)` (public/js/webview.js:98-130). */
  function StatusUpdated(p: PanelState, status: string, kind: Option<string>): (q: PanelState)
    ensures q.currentStreamStatus == status
    ensures q.streamType == if Truthy(kind) then kind.value else p.streamType
    ensures q == p.(currentStreamStatus := q.currentStreamStatus, streamType := q.streamType)
  {
    p.(currentStreamStatus := status, streamType := if Truthy(kind) then kind.value else p.streamType)
  }

  /** The indicator and label the page shows: `updateStatus` always derives them from the status it
      stores, so they are a function of `currentStreamStatus`. */
  function Label(p: PanelState): StatusView {
    StatusViewOf(p.currentStreamStatus)
  }

  /** `addLog(level, message)` (public/js/webview.js:217-236). */
  function LogAdded(p: PanelState, level: LogLevel, message: string): (q: PanelState)
    ensures q == p.(logs := q.logs)
    ensures Framed(p) ==> Framed(q)
  {
    p.(logs := Pushed(p.logs, LogEntry(level, message)))
  }

  /** `updateDisplay(mode, url)` (public/js/webview.js:186-206): preview needs a URL; logs and
      overlay empty the player. */
  function DisplayUpdated(p: PanelState, mode: DisplayMode, url: string): (q: PanelState)
    ensures q.display == Preview <==> mode == Preview && url != ""
    ensures q.display == Preview ==> q.playerSrc == url
    ensures q.display != Preview ==> q.playerSrc == ""
    ensures mode == LogsView ==> q.display == LogsView
    ensures mode != LogsView && !(mode == Preview && url != "") ==> q.display == Overlay
    ensures q == p.(display := q.display, playerSrc := q.playerSrc)
  {
    if mode == Preview && url != "" then p.(display := Preview, playerSrc := url)
    else if mode == LogsView then p.(display := LogsView, playerSrc := "")
    else p.(display := Overlay, playerSrc := "")
  }

  /** `isStreaming = b` followed by `updateStreamButton(b)`. */
  function StreamingSet(p: PanelState, b: bool): PanelState {
    p.(isStreaming := b, stopButton := b)
  }

  /** `updateControlsState(b)` (public/js/webview.js:397-414). */
  function ControlsSet(p: PanelState, b: bool): PanelState {
    p.(controlsDisabled := b)
  }

  /** The battery colour class (public/js/webview.js:591-596). */
  function LevelOf(percent: int): (l: BatteryLevel)
    ensures l == Low <==> percent <= 20
    ensures l == Medium <==> 20 < percent <= 50
  {
    if percent <= 20 then Low else if percent <= 50 then Medium else Normal
  }

  /** `updateBatteryDisplay` (public/js/webview.js:575-597): no reading shows `--` and leaves the
      colour class as it was. */
  function BatteryShown(b: BatteryView, percent: Option<int>): BatteryView {
    match percent
    case None => BatteryView(None, b.level)
    case Some(n) => BatteryView(Some(n), LevelOf(n))
  }

  /** `updatePlatformConfig(platform)` (public/js/webview.js:144-172): `here` forces the managed
      relay; any other platform takes the stream type from the relay checkbox. */
  function PlatformConfigUpdated(p: PanelState, platform: string): (q: PanelState)
    ensures q.currentPlatform == platform
    ensures q.streamType == (if q.cloudflareChecked then "managed" else "unmanaged")
    ensures q.cloudflareChecked == (platform == "here" || p.cloudflareChecked)
    ensures q == p.(currentPlatform := platform, streamType := q.streamType, cloudflareChecked := q.cloudflareChecked)
  {
    if platform == "here" then p.(currentPlatform := platform, streamType := "managed", cloudflareChecked := true)
    else p.(currentPlatform := platform, streamType := if p.cloudflareChecked then "managed" else "unmanaged")
  }

  /** `getRtmpUrl()` over the panel's current inputs. */
  function PanelRtmpUrl(p: PanelState): Option<string> {
    GetRtmpUrl(p.currentPlatform, p.streamKeyInput, p.rtmpUrlInput)
  }

  /** The last `/` of a string, if any. */
  function LastSlash(s: string): (r: Option<nat>)
    ensures r.Some? ==> r.value < |s| && s[r.value] == '/' && forall k :: r.value < k < |s| ==> s[k] != '/'
    ensures r.None? ==> forall k :: 0 <= k < |s| ==> s[k] != '/'
  {
    if s == [] then None
    else if s[|s| - 1] == '/' then Some(|s| - 1)
    else LastSlash(s[..|s| - 1])
  }

  // The masking of the logged URL (public/js/webview.js:366): everything after the last slash is
  // replaced by four asterisks.
  function MaskKey(url: string): string {
    match LastSlash(url)
    case None => url
    case Some(i) => url[..i] + "/****"
  }

  /** For a URL the panel builds from a base and a key, the logged text keeps the base and hides
      the key. */
  lemma {:induction false} MaskHidesKey(base: string, key: string)
    requires forall k :: 0 <= k < |key| ==> key[k] != '/'
    ensures MaskKey(base + "/" + key) == base + "/****"
  {
    var url := base + "/" + key;
    assert url[|base|] == '/';
    forall k | |base| < k < |url|
      ensures url[k] != '/'
    {
      assert url[k] == key[k - |base| - 1];
    }
    assert LastSlash(url) == Some(|base|);
    assert url[..|base|] == base;
  }

  // ---- the SSE `status` handler (public/js/webview.js:463-565) ----

  /** `data.streamType` as the page sees it: `'managed'`, `'unmanaged'` or `null`. */
  function PayloadKind(d: Payload): Option<string> {
    match d.streamType
    case Some(k) => Some(KindName(k))
    case None => None
  }

  /** Lines 472-491: a snapshot without a session shows `Offline`; a panel that was streaming also
      stops, logs "Session lost" and keeps the logs only for an unmanaged stream. The `'offline'`
      assigned first is overwritten by `updateStatus('Offline')`. */
  function SessionPart(p: PanelState, d: Payload): PanelState {
    if d.hasActiveSession then p
    else
      var q := StatusUpdated(p.(currentStreamStatus := "offline"), "Offline", None);
      if !p.isStreaming then q
      else
        var q1 := LogAdded(ControlsSet(StreamingSet(q, false), false), Error, "Session lost");
        DisplayUpdated(q1, if q1.streamType == "unmanaged" && |q1.logs| > 0 then LogsView else Overlay, "")
  }

  /** The display choice of lines 522-538, after the flags are set. */
  function StatusDisplay(p: PanelState, d: Payload, show: bool): (q: PanelState)
    ensures q == p.(display := q.display, playerSrc := q.playerSrc)
    ensures Framed(p) ==> Framed(q)
  {
    if show then
      if d.streamType == Some(Managed) && Truthy(d.previewUrl) then
        if p.playerSrc != d.previewUrl.value then DisplayUpdated(p, Preview, d.previewUrl.value) else p
      else if d.streamType == Some(Unmanaged) then DisplayUpdated(p, LogsView, "")
      else p
    else
      DisplayUpdated(p, if d.streamType == Some(Unmanaged) && |p.logs| > 0 then LogsView else Overlay, "")
  }

  /** Lines 494-539: adopt the sent status, log a change for an unmanaged stream, follow the busy
      flag, and choose the display. */
  function StatusPart(p: PanelState, d: Payload): PanelState {
    match d.streamStatus
    case None => p
    case Some(s) => StatusDisplay(StatusAdopted(p, d, s), d, IsStreamingStatus(s))
  }

  /** Lines 494-519: adopt the status `s`, log a change for an unmanaged stream, and make the
      streaming flag follow the busy predicate, touching button and controls only when it flips. */
  function StatusAdopted(p: PanelState, d: Payload, s: string): (q: PanelState)
    ensures q.currentStreamStatus == s && q.isStreaming == IsStreamingStatus(s)
    ensures q.streamType == if Truthy(PayloadKind(d)) then PayloadKind(d).value else p.streamType
    ensures q.isStreaming == p.isStreaming ==> q.stopButton == p.stopButton && q.controlsDisabled == p.controlsDisabled
    ensures q.isStreaming != p.isStreaming ==> q.stopButton == q.isStreaming && q.controlsDisabled == q.isStreaming
    ensures q == p.(currentStreamStatus := s, streamType := q.streamType, logs := q.logs, isStreaming := q.isStreaming,
                    stopButton := q.stopButton, controlsDisabled := q.controlsDisabled)
    ensures d.streamType == Some(Unmanaged) && p.currentStreamStatus != s ==>
              q.logs == Pushed(p.logs, LogEntry(StatusLogLevel(s), "Status: " + s))
    ensures !(d.streamType == Some(Unmanaged) && p.currentStreamStatus != s) ==> q.logs == p.logs
    ensures Framed(p) ==> Framed(q)
  {
    var q := StatusUpdated(p, s, PayloadKind(d));
    FlagFollowed(StatusLogged(q, d.streamType == Some(Unmanaged) && p.currentStreamStatus != s, s),
                 IsStreamingStatus(s))
  }

  /** Lines 499-510: the status line an unmanaged stream's change writes. */
  function StatusLogged(p: PanelState, changed: bool, s: string): (q: PanelState)
    ensures q == p.(logs := q.logs)
    ensures changed ==> q.logs == Pushed(p.logs, LogEntry(StatusLogLevel(s), "Status: " + s))
    ensures !changed ==> q.logs == p.logs
    ensures Framed(p) ==> Framed(q)
  {
    if changed then LogAdded(p, StatusLogLevel(s), "Status: " + s) else p
  }

  /** Lines 512-519: button and controls are switched only when the busy flag flips. */
  function FlagFollowed(p: PanelState, show: bool): (q: PanelState)
    ensures q.isStreaming == show
    ensures show == p.isStreaming ==> q == p
    ensures show != p.isStreaming ==> q == p.(isStreaming := show, stopButton := show, controlsDisabled := show)
  {
    if show != p.isStreaming then ControlsSet(StreamingSet(p, show), show) else p
  }

  /** The lines a managed stream's snapshot adds to the log, in order (public/js/webview.js:542-549). */
  function UrlNotes(d: Payload): seq<LogEntry> {
    if d.streamType != Some(Managed) then []
    else (if Truthy(d.hlsUrl) then [LogEntry(Info, "HLS URL available")] else [])
         + (if Truthy(d.directRtmpUrl) then [LogEntry(Info, "RTMP ingest URL ready")] else [])
  }

  /** Lines 542-549: note the URLs a managed stream reports. */
  function ManagedUrlsPart(p: PanelState, d: Payload): (q: PanelState)
    ensures q == p.(logs := q.logs)
    ensures Framed(p) ==> Framed(q)
  {
    if d.streamType != Some(Managed) then p
    else
      var q := if Truthy(d.hlsUrl) then LogAdded(p, Info, "HLS URL available") else p;
      if Truthy(d.directRtmpUrl) then LogAdded(q, Info, "RTMP ingest URL ready") else q
  }

  /** Noting a managed stream's URLs logs exactly the lines `UrlNotes` lists, and changes nothing else. */
  lemma {:induction false} UrlNotesLogged(p: PanelState, d: Payload)
    ensures ManagedUrlsPart(p, d) == p.(logs := PushedAll(p.logs, UrlNotes(d)))
  {
    if d.streamType == Some(Managed) {
      var hls := if Truthy(d.hlsUrl) then [LogEntry(Info, "HLS URL available")] else [];
      var rtmp := if Truthy(d.directRtmpUrl) then [LogEntry(Info, "RTMP ingest URL ready")] else [];
      var q := if Truthy(d.hlsUrl) then LogAdded(p, Info, "HLS URL available") else p;
      PushedOne(p.logs, LogEntry(Info, "HLS URL available"));
      assert q.logs == PushedAll(p.logs, hls);
      PushedOne(q.logs, LogEntry(Info, "RTMP ingest URL ready"));
      PushedAllAppend(p.logs, hls, rtmp);
    }
  }

  /** Lines 552-554: the payload always carries the battery field, `null` or a number. */
  function BatteryPart(p: PanelState, d: Payload): PanelState {
    p.(battery := BatteryShown(p.battery, d.glassesBatteryPercent))
  }

  /** An error text that turns the label to `Error`. */
  predicate AlarmingError(e: string) {
    Contains(Lower(e), "failed") || Contains(Lower(e), "error")
  }

  /** Lines 557-564: log the error, and show `Error` when its text says so. */
  function ErrorPart(p: PanelState, d: Payload): (q: PanelState)
    ensures !Truthy(d.error) ==> q == p
    ensures Truthy(d.error) ==> q.logs == Pushed(p.logs, LogEntry(Error, d.error.value))
    ensures Truthy(d.error) ==>
      q.currentStreamStatus == (if AlarmingError(d.error.value) then "Error" else p.currentStreamStatus)
    ensures q == p.(logs := q.logs, currentStreamStatus := q.currentStreamStatus)
  {
    if !Truthy(d.error) then p
    else
      var q := LogAdded(p, Error, d.error.value);
      if AlarmingError(d.error.value) then StatusUpdated(q, "Error", None) else q
  }

  /** The whole `status` event handler. */
  function OnStatusEvent(p: PanelState, d: Payload): PanelState {
    ErrorPart(BatteryPart(ManagedUrlsPart(StatusPart(SessionPart(p, d), d), d), d), d)
  }

  // ---- user actions ----

  /** The lines `checkExistingStream` logs about a found stream, in order
      (public/js/webview.js:270-282). */
  function CheckNotes(a: CheckAnswer): seq<LogEntry> {
    match a
    case NoStreamFound => []
    case StreamFound(kind, hls, viewers, rtmp, appId) =>
      [LogEntry(Info, "Found existing " + KindName(kind) + " stream")]
      + if kind == Managed then
          (if Truthy(hls) then [LogEntry(Info, "HLS URL: " + hls.value)] else [])
          + (if viewers.Some? then [LogEntry(Info, "Active viewers: " + NatToString(viewers.value))] else [])
        else
          [LogEntry(Warning, "Another app (" + OrElse(appId, "Unknown app") + ") is streaming to: "
                             + OrElse(rtmp, "Unknown URL"))]
  }

  /** The log lines `checkExistingStream` writes for a found stream (public/js/webview.js:270-285). */
  function CheckLogged(p: PanelState, a: CheckAnswer): (q: PanelState)
    ensures q == p.(logs := q.logs)
    ensures Framed(p) ==> Framed(q)
  {
    match a
    case NoStreamFound => p
    case StreamFound(kind, hls, viewers, rtmp, appId) =>
      var q := LogAdded(p, Info, "Found existing " + KindName(kind) + " stream");
      if kind == Managed then
        (var q1 := if Truthy(hls) then LogAdded(q, Info, "HLS URL: " + hls.value) else q;
         if viewers.Some? then LogAdded(q1, Info, "Active viewers: " + NatToString(viewers.value)) else q1)
      else
        LogAdded(q, Warning, "Another app (" + OrElse(appId, "Unknown app") + ") is streaming to: "
                             + OrElse(rtmp, "Unknown URL"))
  }

  /** The stream check logs exactly the lines `CheckNotes` lists, and changes nothing else. */
  lemma {:induction false} CheckNotesLogged(p: PanelState, a: CheckAnswer)
    ensures CheckLogged(p, a) == p.(logs := PushedAll(p.logs, CheckNotes(a)))
  {
    match a
    case NoStreamFound =>
    case StreamFound(kind, hls, viewers, rtmp, appId) =>
      var found := LogEntry(Info, "Found existing " + KindName(kind) + " stream");
      var rest := CheckNotes(a)[1..];
      assert CheckNotes(a) == [found] + rest;
      var q := LogAdded(p, Info, found.message);
      PushedOne(p.logs, found);
      PushedAllAppend(p.logs, [found], rest);
      if kind == Managed {
        var hlsNote := if Truthy(hls) then [LogEntry(Info, "HLS URL: " + hls.value)] else [];
        var viewerNote := LogEntry(Info, "Active viewers: " + NatToString(viewers.GetOr(0)));
        var viewerNotes := if viewers.Some? then [viewerNote] else [];
        assert rest == hlsNote + viewerNotes;
        var q1 := if Truthy(hls) then LogAdded(q, Info, "HLS URL: " + hls.value) else q;
        PushedOne(q.logs, LogEntry(Info, "HLS URL: " + hls.GetOr("")));
        assert q1.logs == PushedAll(q.logs, hlsNote);
        PushedOne(q1.logs, viewerNote);
        PushedAllAppend(q.logs, hlsNote, viewerNotes);
      } else {
        var warning := LogEntry(Warning, "Another app (" + OrElse(appId, "Unknown app") + ") is streaming to: "
                                         + OrElse(rtmp, "Unknown URL"));
        assert rest == [warning];
        PushedOne(q.logs, warning);
      }
  }

  /** The relay is used for `here` or when the checkbox is on. */
  predicate UsesManaged(p: PanelState) {
    p.cloudflareChecked || p.currentPlatform == "here"
  }

  function ConfigOf(p: PanelState): ClientConfig {
    ClientConfig(p.currentPlatform, p.streamKeyInput, p.rtmpUrlInput, p.cloudflareChecked)
  }

  /** Lines 308-324: the optimistic switch to `Connecting`. */
  function StartBegun(p: PanelState): (q: PanelState)
    ensures q.currentStreamStatus == "Connecting" && q.isStreaming && q.stopButton && q.controlsDisabled
    ensures q.streamType == if UsesManaged(p) then "managed" else "unmanaged"
    ensures q.display == (if UsesManaged(p) then Overlay else LogsView) && q.playerSrc == ""
    ensures q.requests == p.requests && ConfigOf(q) == ConfigOf(p) && UsesManaged(q) == UsesManaged(p)
    ensures Framed(p) ==> Framed(q)
  {
    var managed := UsesManaged(p);
    var q := StatusUpdated(p.(streamType := if managed then "managed" else "unmanaged"), "Connecting", None);
    var q1 := ControlsSet(StreamingSet(q, true), true);
    if managed then LogAdded(DisplayUpdated(q1, Overlay, ""), Info, "Starting managed stream...")
    else LogAdded(LogAdded(DisplayUpdated(q1, LogsView, ""), Info, "--- New stream session ---"),
                  Info, "Starting unmanaged RTMP stream...")
  }

  /** The revert after a refused start; the managed path also returns to the overlay. */
  function StartReverted(p: PanelState, status: string, toOverlay: bool, message: string): (q: PanelState)
    ensures q.currentStreamStatus == status && !q.isStreaming && !q.stopButton && !q.controlsDisabled
    ensures q.requests == p.requests && q.streamType == p.streamType
    ensures q.logs != [] && q.logs[|q.logs| - 1] == LogEntry(Error, message)
    ensures toOverlay ==> q.display == Overlay && q.playerSrc == ""
    ensures !toOverlay ==> q.display == p.display && q.playerSrc == p.playerSrc
    ensures Framed(p) ==> Framed(q)
  {
    var q := ControlsSet(StreamingSet(StatusUpdated(p, status, None), false), false);
    LogAdded(if toOverlay then DisplayUpdated(q, Overlay, "") else q, Error, message)
  }

  /** Lines 334-348: request the relayed stream and revert if the reply says `ok: false`. */
  function ManagedRequested(p: PanelState, post: PostAnswer): (q: PanelState)
    ensures q.requests == p.requests + [ManagedStartRequest(ConfigOf(p))] && q.streamType == p.streamType
    ensures post.ok == Some(false) ==> !q.isStreaming && q.currentStreamStatus == "Error" && q.display == Overlay
    ensures post.ok != Some(false) ==>
      q.isStreaming == p.isStreaming && q.currentStreamStatus == p.currentStreamStatus && q.display == p.display
  {
    var q := LogAdded(p, Info, "Requesting Cloudflare managed stream...");
    var q1 := q.(requests := q.requests + [ManagedStartRequest(ConfigOf(q))]);
    if post.ok == Some(false) then
      StartReverted(q1, "Error", true, "Failed to start: " + OrElse(post.error, "Unknown error"))
    else LogAdded(q1, Success, "Managed stream request sent")
  }

  /** Lines 349-375: without a URL revert to `Offline` and send nothing; otherwise log the masked
      URL, send it, and revert (keeping the logs view) if the reply says `ok: false`. */
  function UnmanagedRequested(p: PanelState, post: PostAnswer): (q: PanelState)
    ensures q.streamType == p.streamType
    ensures OrNull(PanelRtmpUrl(p)).None? ==>
      && q.requests == p.requests && !q.isStreaming && q.currentStreamStatus == "Offline"
      && q.display == Overlay && q.logs != [] && q.logs[|q.logs| - 1] == LogEntry(Error, "No RTMP URL provided")
    ensures OrNull(PanelRtmpUrl(p)).Some? ==>
      q.requests == p.requests + [UnmanagedStartRequest(OrNull(PanelRtmpUrl(p)).value, ConfigOf(p))]
    ensures OrNull(PanelRtmpUrl(p)).Some? && post.ok == Some(false) ==>
      !q.isStreaming && q.currentStreamStatus == "Error" && q.display == p.display
    ensures OrNull(PanelRtmpUrl(p)).Some? && post.ok != Some(false) ==>
      q.isStreaming == p.isStreaming && q.currentStreamStatus == p.currentStreamStatus && q.display == p.display
  {
    match OrNull(PanelRtmpUrl(p))
    case None => StartReverted(p, "Offline", true, "No RTMP URL provided")
    case Some(url) =>
      var q := LogAdded(p, Info, "Connecting to: " + MaskKey(url));
      var q1 := q.(requests := q.requests + [UnmanagedStartRequest(url, ConfigOf(q))]);
      if post.ok == Some(false) then
        StartReverted(q1, "Error", false, "Failed to start: " + OrElse(post.error, "Unknown error"))
      else LogAdded(q1, Success, "RTMP stream request sent")
  }

  /** `startStream()` (public/js/webview.js:296-376). */
  function StartStreamed(p: PanelState, check: CheckAnswer, post: PostAnswer): PanelState {
    if IsStreamingStatus(p.currentStreamStatus) then p
    else
      var q := CheckLogged(p.(requests := p.requests + [CheckRequest]), check);
      if check.StreamFound? then LogAdded(q, Info, "Reconnecting to existing stream...")
      else
        var q1 := StartBegun(q);
        if UsesManaged(q) then ManagedRequested(q1, post) else UnmanagedRequested(q1, post)
  }

  /** `stopStream()` (public/js/webview.js:378-395): the stop endpoint follows `streamType`; the
      reply is left to the next snapshot. */
  function StopStreamed(p: PanelState): PanelState {
    if !IsStreamingStatus(p.currentStreamStatus) then p
    else
      var q := LogAdded(StreamingSet(StatusUpdated(p, "Stopping", None), true), Info, "Stopping stream...");
      q.(requests := q.requests + [StopRequest(q.streamType == "managed")])
  }

  /** The stream button (public/js/webview.js:426-432). */
  function ToggleClicked(p: PanelState, check: CheckAnswer, post: PostAnswer): PanelState {
    if p.isStreaming then StopStreamed(p) else StartStreamed(p, check, post)
  }

  /** A platform button (public/js/webview.js:417-424): ignored while streaming. */
  function PlatformClicked(p: PanelState, platform: string): PanelState {
    if p.isStreaming then p else PlatformConfigUpdated(p, platform)
  }

  /** The relay checkbox's `change` event (public/js/webview.js:455-458). */
  function CloudflareChanged(p: PanelState, checked: bool): (q: PanelState)
    ensures q.cloudflareChecked == checked
    ensures q.streamType == (if checked then "managed" else "unmanaged")
    ensures q == p.(cloudflareChecked := q.cloudflareChecked, streamType := q.streamType)
  {
    p.(cloudflareChecked := checked, streamType := if checked then "managed" else "unmanaged")
  }

  // ---- page load ----

  /** The page before `initializeFromData`: the module's `let` initial values and a page showing
      the overlay. */
  function Blank(): PanelState {
    PanelState("here", false, "managed", "", [], Overlay, "", false, false,
               "", "", false, BatteryView(None, Normal), [])
  }

  /** The part of `initializeFromData` that adopts an initial status (public/js/webview.js:58-77):
      the type defaults to `managed`, the button follows the busy flag, and the preview or the logs
      are shown. */
  function InitialStatus(p: PanelState, page: PageData): PanelState {
    if !Truthy(page.initialStreamStatus) then p
    else
      var s := page.initialStreamStatus.value;
      var q := StatusUpdated(p, s, page.initialStreamType).(streamType := OrElse(page.initialStreamType, "managed"));
      var show := IsStreamingStatus(s);
      var q1 := StreamingSet(q, show);
      var q2 :=
        if Truthy(page.initialPreviewUrl) && q1.streamType == "managed" then
          DisplayUpdated(q1, Preview, page.initialPreviewUrl.value)
        else if show && q1.streamType == "unmanaged" then
          LogAdded(DisplayUpdated(q1, LogsView, ""), Info, "Stream active: " + s)
        else q1;
      ControlsSet(q2, show)
  }

  /** `initializeFromData()` (public/js/webview.js:39-83): restore the saved form, adopt the
      initial status, and log the initial error. */
  function DataLoaded(p: PanelState, page: PageData): PanelState {
    var p0 := p.(currentPlatform := OrElse(page.savedPlatform, "here"),
                 streamKeyInput := OrElse(page.savedStreamKey, ""),
                 rtmpUrlInput := OrElse(page.savedCustomRtmpUrl, ""),
                 cloudflareChecked := page.savedUseCloudflare == Some("true"));
    var p1 := InitialStatus(p0, page);
    if Truthy(page.initialError) then LogAdded(p1, Error, page.initialError.value) else p1
  }

  /** The page after load: `initializeFromData()` followed by `updatePlatformConfig(currentPlatform)`
      (public/js/webview.js:600-601). */
  function Initial(page: PageData): PanelState {
    var p := DataLoaded(Blank(), page);
    PlatformConfigUpdated(p, p.currentPlatform)
  }

  // ---- what the panel keeps true ----

  lemma {:induction false} InitialStatusInv(p: PanelState, page: PageData)
    requires Framed(p) && !p.isStreaming && !p.stopButton && !p.controlsDisabled
    requires !IsStreamingStatus(p.currentStreamStatus)
    ensures Inv(InitialStatus(p, page))
  {
    if Truthy(page.initialStreamStatus) {
      var s := page.initialStreamStatus.value;
      var q := StatusUpdated(p, s, page.initialStreamType).(streamType := OrElse(page.initialStreamType, "managed"));
      var show := IsStreamingStatus(s);
      var q1 := StreamingSet(q, show);
      assert Framed(q1) && q1.isStreaming == show && q1.stopButton == show && q1.currentStreamStatus == s;
    }
  }

  /** A page as it is first set up satisfies the invariant. */
  lemma {:induction false} InitialInv(page: PageData)
    ensures Inv(Initial(page))
  {
    IdleLabelsNotBusy();
    var p := Blank().(currentPlatform := OrElse(page.savedPlatform, "here"),
                      streamKeyInput := OrElse(page.savedStreamKey, ""),
                      rtmpUrlInput := OrElse(page.savedCustomRtmpUrl, ""),
                      cloudflareChecked := page.savedUseCloudflare == Some("true"));
    assert p.currentStreamStatus == "" && !IsStreamingStatus("");
    InitialStatusInv(p, page);
    var p1 := InitialStatus(p, page);
    var p2 := if Truthy(page.initialError) then LogAdded(p1, Error, page.initialError.value) else p1;
    assert p2 == DataLoaded(Blank(), page);
    assert Inv(p2);
  }

  lemma {:induction false} SessionPartInv(p: PanelState, d: Payload)
    requires Inv(p)
    ensures Inv(SessionPart(p, d))
  {
    if !d.hasActiveSession {
      IdleLabelsNotBusy();
      var q := StatusUpdated(p.(currentStreamStatus := "offline"), "Offline", None);
      assert q.currentStreamStatus == "Offline" && Framed(q);
      if p.isStreaming {
        var q1 := LogAdded(ControlsSet(StreamingSet(q, false), false), Error, "Session lost");
        assert Framed(q1) && !q1.isStreaming && !q1.stopButton && !q1.controlsDisabled;
        assert q1.currentStreamStatus == "Offline";
      }
    }
  }

  lemma {:induction false} StatusPartInv(p: PanelState, d: Payload)
    requires Inv(p)
    ensures Inv(StatusPart(p, d))
  {
    match d.streamStatus
    case None =>
    case Some(s) =>
      assert Inv(StatusAdopted(p, d, s));
  }

  lemma {:induction false} ManagedUrlsPartInv(p: PanelState, d: Payload)
    requires Inv(p)
    ensures Inv(ManagedUrlsPart(p, d))
  {
    if d.streamType == Some(Managed) {
      var q := if Truthy(d.hlsUrl) then LogAdded(p, Info, "HLS URL available") else p;
      assert Inv(q);
    }
  }

  lemma {:induction false} ErrorPartInv(p: PanelState, d: Payload)
    requires Inv(p)
    ensures Inv(ErrorPart(p, d))
  {
    if Truthy(d.error) {
      var q := LogAdded(p, Error, d.error.value);
      assert Inv(q);
      IdleLabelsNotBusy();
      RelabelledInv(q, "Error");
    }
  }

  /** Showing a status that is not busy keeps the invariant. */
  lemma RelabelledInv(p: PanelState, status: string)
    requires Inv(p) && !IsStreamingStatus(status)
    ensures Inv(StatusUpdated(p, status, None))
  {
  }

  /** Every snapshot keeps the invariant. */
  lemma {:induction false} StatusEventInv(p: PanelState, d: Payload)
    requires Inv(p)
    ensures Inv(OnStatusEvent(p, d))
  {
    SessionPartInv(p, d);
    var p1 := SessionPart(p, d);
    StatusPartInv(p1, d);
    var p2 := StatusPart(p1, d);
    ManagedUrlsPartInv(p2, d);
    var p3 := ManagedUrlsPart(p2, d);
    var p4 := BatteryPart(p3, d);
    assert Inv(p4);
    ErrorPartInv(p4, d);
  }

  lemma {:induction false} StartBegunInv(p: PanelState)
    requires Framed(p)
    ensures Inv(StartBegun(p))
  {
    ConnectingBusy();
  }

  lemma {:induction false} StartRevertedInv(p: PanelState, status: string, toOverlay: bool, message: string)
    requires Framed(p) && !IsStreamingStatus(status)
    ensures Inv(StartReverted(p, status, toOverlay, message))
  {
    var q := ControlsSet(StreamingSet(StatusUpdated(p, status, None), false), false);
    assert Framed(q) && q.currentStreamStatus == status;
  }

  lemma {:induction false} ManagedRequestedInv(p: PanelState, post: PostAnswer)
    requires Inv(p)
    ensures Inv(ManagedRequested(p, post))
  {
    var q := LogAdded(p, Info, "Requesting Cloudflare managed stream...");
    var q1 := q.(requests := q.requests + [ManagedStartRequest(ConfigOf(q))]);
    assert Inv(q1);
    if post.ok == Some(false) {
      IdleLabelsNotBusy();
      StartRevertedInv(q1, "Error", true, "Failed to start: " + OrElse(post.error, "Unknown error"));
    }
  }

  lemma {:induction false} UnmanagedRequestedInv(p: PanelState, post: PostAnswer)
    requires Inv(p)
    ensures Inv(UnmanagedRequested(p, post))
  {
    IdleLabelsNotBusy();
    match OrNull(PanelRtmpUrl(p))
    case None =>
      StartRevertedInv(p, "Offline", true, "No RTMP URL provided");
    case Some(url) =>
      var q := LogAdded(p, Info, "Connecting to: " + MaskKey(url));
      var q1 := q.(requests := q.requests + [UnmanagedStartRequest(url, ConfigOf(q))]);
      assert Inv(q1);
      if post.ok == Some(false) {
        StartRevertedInv(q1, "Error", false, "Failed to start: " + OrElse(post.error, "Unknown error"));
      }
  }

  lemma {:induction false} StartInv(p: PanelState, check: CheckAnswer, post: PostAnswer)
    requires Inv(p)
    ensures Inv(StartStreamed(p, check, post))
  {
    if !IsStreamingStatus(p.currentStreamStatus) {
      var q := CheckLogged(p.(requests := p.requests + [CheckRequest]), check);
      assert Inv(q);
      if !check.StreamFound? {
        StartBegunInv(q);
        ManagedRequestedInv(StartBegun(q), post);
        UnmanagedRequestedInv(StartBegun(q), post);
      }
    }
  }

  lemma {:induction false} StopInv(p: PanelState)
    requires Inv(p)
    ensures Inv(StopStreamed(p))
  {
    StoppingBusy();
  }

  /** Every click keeps the invariant. */
  lemma {:induction false} ClickInv(p: PanelState, check: CheckAnswer, post: PostAnswer, platform: string, checked: bool)
    requires Inv(p)
    ensures Inv(ToggleClicked(p, check, post))
    ensures Inv(PlatformClicked(p, platform))
    ensures Inv(CloudflareChanged(p, checked))
  {
    StartInv(p, check, post);
    StopInv(p);
  }

  // ---- what the status handler and the buttons promise ----

  /** A snapshot with a status and no error leaves the panel showing exactly that status, and
      streaming exactly when the status is busy (public/js/webview.js:494-519). */
  lemma {:induction false} SnapshotSetsBusyFlag(p: PanelState, d: Payload)
    requires d.hasActiveSession && d.streamStatus.Some? && !Truthy(d.error)
    ensures OnStatusEvent(p, d).currentStreamStatus == d.streamStatus.value
    ensures OnStatusEvent(p, d).isStreaming == IsStreamingStatus(d.streamStatus.value)
    ensures OnStatusEvent(p, d).stopButton == OnStatusEvent(p, d).isStreaming || p.stopButton != p.isStreaming
  {
    var q := StatusPart(p, d);
    assert q.currentStreamStatus == d.streamStatus.value;
    assert q.isStreaming == IsStreamingStatus(d.streamStatus.value);
    assert q.stopButton == q.isStreaming || p.stopButton != p.isStreaming;
  }

  /** While a managed stream is live, a snapshot whose preview URL is the one already playing does
      not touch the player (public/js/webview.js:524-527). */
  lemma {:induction false} SamePreviewNotReloaded(p: PanelState, d: Payload)
    requires Inv(p) && p.playerSrc != ""
    requires d.hasActiveSession && d.streamStatus.Some? && IsStreamingStatus(d.streamStatus.value)
    requires d.streamType == Some(Managed) && d.previewUrl == Some(p.playerSrc)
    ensures OnStatusEvent(p, d).display == Preview && OnStatusEvent(p, d).playerSrc == p.playerSrc
  {
    var q := StatusPart(p, d);
    assert q.display == p.display && q.playerSrc == p.playerSrc;
    assert ManagedUrlsPart(q, d).playerSrc == p.playerSrc;
  }

  /** While a managed stream is live, a new preview URL is loaded into the player. */
  lemma {:induction false} NewPreviewLoaded(p: PanelState, d: Payload)
    requires d.hasActiveSession && d.streamStatus.Some? && IsStreamingStatus(d.streamStatus.value)
    requires d.streamType == Some(Managed) && Truthy(d.previewUrl) && d.previewUrl.value != p.playerSrc
    ensures OnStatusEvent(p, d).display == Preview && OnStatusEvent(p, d).playerSrc == d.previewUrl.value
  {
    var q := StatusPart(p, d);
    assert q.display == Preview && q.playerSrc == d.previewUrl.value;
    assert ManagedUrlsPart(q, d).playerSrc == d.previewUrl.value;
  }

  /** When the status is not busy, the logs stay on screen for an unmanaged stream that has logged
      something, and the overlay shows otherwise (public/js/webview.js:528-537). */
  lemma {:induction false} IdleSnapshotDisplay(p: PanelState, d: Payload)
    requires d.hasActiveSession && d.streamStatus.Some? && !IsStreamingStatus(d.streamStatus.value)
    ensures var q := StatusPart(p, d);
            && q.playerSrc == ""
            && (q.display == LogsView <==> d.streamType == Some(Unmanaged) && |q.logs| > 0)
            && (q.display != LogsView ==> q.display == Overlay)
  {
  }

  /** While an unmanaged stream is busy, the snapshot switches the panel to the logs view
      (public/js/webview.js:528-530). */
  lemma {:induction false} BusyUnmanagedShowsLogs(p: PanelState, d: Payload)
    requires d.streamStatus.Some? && IsStreamingStatus(d.streamStatus.value)
    requires d.streamType == Some(Unmanaged)
    ensures StatusPart(p, d).display == LogsView && StatusPart(p, d).playerSrc == ""
  {
  }

  /** A busy snapshot that is neither unmanaged nor managed with a preview URL leaves the display
      and the player as they were (public/js/webview.js:522-531). */
  lemma {:induction false} BusyOtherKeepsDisplay(p: PanelState, d: Payload)
    requires d.streamStatus.Some? && IsStreamingStatus(d.streamStatus.value)
    requires d.streamType != Some(Unmanaged)
    requires !(d.streamType == Some(Managed) && Truthy(d.previewUrl))
    ensures StatusPart(p, d).display == p.display && StatusPart(p, d).playerSrc == p.playerSrc
  {
  }

  lemma {:induction false} StatusDisplaySettles(x: PanelState, d: Payload, show: bool, logs: seq<LogEntry>, battery: BatteryView)
    requires d.streamType == Some(Unmanaged) ==> logs == x.logs
    ensures var q := StatusDisplay(x, d, show).(logs := logs, battery := battery);
            StatusDisplay(q, d, show) == q
  {
  }

  /** Adopting a status the panel already shows, with the flag already following it, changes
      nothing. */
  lemma {:induction false} AdoptedSettles(q: PanelState, d: Payload, s: string)
    requires q.currentStreamStatus == s && q.isStreaming == IsStreamingStatus(s)
    requires Truthy(PayloadKind(d)) ==> q.streamType == PayloadKind(d).value
    ensures StatusAdopted(q, d, s) == q
  {
  }

  /** After the status part has run, running it again with the same snapshot changes nothing,
      provided the log of an unmanaged stream was not touched in between. */
  lemma {:induction false} StatusPartSettles(p: PanelState, d: Payload, logs: seq<LogEntry>, battery: BatteryView)
    requires d.streamType == Some(Unmanaged) ==> logs == StatusPart(p, d).logs
    ensures var q := StatusPart(p, d).(logs := logs, battery := battery);
            StatusPart(q, d) == q
  {
    match d.streamStatus
    case None =>
    case Some(s) =>
      var a := StatusAdopted(p, d, s);
      var show := IsStreamingStatus(s);
      var q := StatusDisplay(a, d, show).(logs := logs, battery := battery);
      AdoptedSettles(q, d, s);
      StatusDisplaySettles(a, d, show, logs, battery);
  }

  /** Replaying a snapshot of a live session without an error changes nothing but the log: the
      periodic resnapshot the server sends is harmless to the panel. */
  lemma {:induction false} SnapshotReplayStable(p: PanelState, d: Payload)
    requires d.hasActiveSession && !Truthy(d.error)
    ensures var q := OnStatusEvent(p, d);
            OnStatusEvent(q, d) == q.(logs := OnStatusEvent(q, d).logs)
  {
    var q0 := StatusPart(p, d);
    var q := BatteryPart(ManagedUrlsPart(q0, d), d);
    assert OnStatusEvent(p, d) == q;
    StatusPartSettles(p, d, q.logs, q.battery);
    assert q == q0.(logs := q.logs, battery := q.battery);
    var r0 := StatusPart(q, d);
    assert r0 == q;
    var r := BatteryPart(ManagedUrlsPart(r0, d), d);
    assert OnStatusEvent(q, d) == r;
    assert r.battery == q.battery;
  }

  lemma {:induction false} SessionPartGone(p: PanelState, d: Payload)
    requires !d.hasActiveSession
    ensures var q := SessionPart(p, d);
            && q.currentStreamStatus == "Offline" && !q.isStreaming
            && (p.isStreaming ==> !q.stopButton && !q.controlsDisabled)
            && (p.isStreaming ==> q.logs != [] && q.logs[|q.logs| - 1] == LogEntry(Error, "Session lost"))
            && (p.isStreaming ==> (q.display == LogsView <==> p.streamType == "unmanaged"))
  {
    var q := StatusUpdated(p.(currentStreamStatus := "offline"), "Offline", None);
    assert q.streamType == p.streamType;
    if p.isStreaming {
      var q1 := LogAdded(ControlsSet(StreamingSet(q, false), false), Error, "Session lost");
      assert q1.logs != [] && q1.logs[|q1.logs| - 1] == LogEntry(Error, "Session lost");
      assert q1.streamType == p.streamType && q1.currentStreamStatus == "Offline";
    }
  }

  /** The no-session snapshot only goes through the session part and the battery readout. */
  lemma {:induction false} NoSessionEvent(p: PanelState)
    ensures OnStatusEvent(p, FormatStreamStatus(None)) ==
            SessionPart(p, FormatStreamStatus(None)).(battery := BatteryView(None, SessionPart(p, FormatStreamStatus(None)).battery.level))
  {
    var d := FormatStreamStatus(None);
    assert IsNoSession(d);
    var q := SessionPart(p, d);
    assert StatusPart(q, d) == q;
    assert ManagedUrlsPart(q, d) == q;
  }

  /** Once the server reports that the session is gone, the panel shows `Offline` and stops; a
      panel that was streaming logs "Session lost" and keeps its logs on screen only for an
      unmanaged stream (public/js/webview.js:472-491). */
  lemma {:induction false} SessionLost(p: PanelState)
    ensures var q := OnStatusEvent(p, FormatStreamStatus(None));
            && q.currentStreamStatus == "Offline" && Label(q) == StatusView(Plain, "Offline")
            && !q.isStreaming
            && (p.isStreaming ==> !q.stopButton && !q.controlsDisabled)
            && (p.isStreaming ==> q.logs != [] && q.logs[|q.logs| - 1] == LogEntry(Error, "Session lost"))
            && (p.isStreaming ==> (q.display == LogsView <==> p.streamType == "unmanaged"))
  {
    NoSessionEvent(p);
    OfflineLabel();
    SessionPartGone(p, FormatStreamStatus(None));
  }

  /** Replaying the no-session snapshot changes nothing. */
  lemma {:induction false} SessionLostReplay(p: PanelState)
    ensures var q := OnStatusEvent(p, FormatStreamStatus(None));
            OnStatusEvent(q, FormatStreamStatus(None)) == q
  {
    NoSessionEvent(p);
    var q := OnStatusEvent(p, FormatStreamStatus(None));
    assert q.currentStreamStatus == "Offline" && !q.isStreaming;
    NoSessionEvent(q);
    assert SessionPart(q, FormatStreamStatus(None)) == q;
  }

  /** `startStream` does nothing while the status is busy, and `stopStream` nothing while it is not
      (public/js/webview.js:298, 380). */
  lemma {:induction false} StartStopGuards(p: PanelState, check: CheckAnswer, post: PostAnswer)
    ensures IsStreamingStatus(p.currentStreamStatus) ==> StartStreamed(p, check, post) == p
    ensures !IsStreamingStatus(p.currentStreamStatus) ==> StopStreamed(p) == p
    ensures IsStreamingStatus(p.currentStreamStatus) ==>
      var q := StopStreamed(p);
      && q.requests == p.requests + [StopRequest(p.streamType == "managed")]
      && q.currentStreamStatus == "Stopping" && q.isStreaming && q.stopButton
  {
  }

  /** After the optimistic switch, a start sends at most one start request, carrying the form's
      configuration. */
  lemma {:induction false} BegunRequests(q: PanelState, post: PostAnswer)
    ensures var q1 := StartBegun(q);
      var r := if UsesManaged(q) then ManagedRequested(q1, post) else UnmanagedRequested(q1, post);
      || r.requests == q.requests
      || r.requests == q.requests + [ManagedStartRequest(ConfigOf(q))]
      || exists url :: r.requests == q.requests + [UnmanagedStartRequest(url, ConfigOf(q))]
  {
    var q1 := StartBegun(q);
    assert ConfigOf(q1) == ConfigOf(q) && q1.requests == q.requests;
    if !UsesManaged(q) {
      var r := UnmanagedRequested(q1, post);
      match OrNull(PanelRtmpUrl(q1))
      case None =>
        assert r.requests == q.requests;
      case Some(url) =>
        assert r.requests == q.requests + [UnmanagedStartRequest(url, ConfigOf(q))];
    }
  }

  /** The requests `startStream` sends once its guard lets it through: the stream check, and then
      at most one start request, carrying the form's configuration. */
  lemma {:induction false} StartRequests(p: PanelState, check: CheckAnswer, post: PostAnswer)
    requires !IsStreamingStatus(p.currentStreamStatus)
    ensures var q := StartStreamed(p, check, post);
      || q.requests == p.requests + [CheckRequest]
      || q.requests == p.requests + [CheckRequest, ManagedStartRequest(ConfigOf(p))]
      || exists url :: q.requests == p.requests + [CheckRequest, UnmanagedStartRequest(url, ConfigOf(p))]
  {
    var q := CheckLogged(p.(requests := p.requests + [CheckRequest]), check);
    assert ConfigOf(q) == ConfigOf(p) && q.requests == p.requests + [CheckRequest];
    if check.StreamFound? {
      var r := LogAdded(q, Info, "Reconnecting to existing stream...");
      assert StartStreamed(p, check, post) == r && r.requests == q.requests;
    } else {
      var r := if UsesManaged(q) then ManagedRequested(StartBegun(q), post) else UnmanagedRequested(StartBegun(q), post);
      assert StartStreamed(p, check, post) == r;
      BegunRequests(q, post);
      forall x: ClientRequest ensures q.requests + [x] == p.requests + [CheckRequest, x] {
        assert p.requests + [CheckRequest] + [x] == p.requests + [CheckRequest, x];
      }
    }
  }

  /** What one click of the stream button sends: a stop request while a busy stream runs; a stream
      check first, and then at most one start request, while nothing runs; nothing at all while the
      panel thinks it streams but the status is not busy. */
  lemma {:induction false} ClickRequests(p: PanelState, check: CheckAnswer, post: PostAnswer)
    requires Inv(p)
    ensures var q := ToggleClicked(p, check, post);
      && (p.isStreaming && IsStreamingStatus(p.currentStreamStatus) ==>
            q.requests == p.requests + [StopRequest(p.streamType == "managed")])
      && (p.isStreaming && !IsStreamingStatus(p.currentStreamStatus) ==> q == p)
      && (!p.isStreaming ==>
            || q.requests == p.requests + [CheckRequest]
            || q.requests == p.requests + [CheckRequest, ManagedStartRequest(ConfigOf(p))]
            || exists url :: q.requests == p.requests + [CheckRequest, UnmanagedStartRequest(url, ConfigOf(p))])
  {
    if p.isStreaming {
      assert ToggleClicked(p, check, post) == StopStreamed(p);
      if IsStreamingStatus(p.currentStreamStatus) {
        var q := LogAdded(StreamingSet(StatusUpdated(p, "Stopping", None), true), Info, "Stopping stream...");
        assert q.requests == p.requests && q.streamType == p.streamType;
      }
    } else {
      assert !IsStreamingStatus(p.currentStreamStatus);
      assert ToggleClicked(p, check, post) == StartStreamed(p, check, post);
      StartRequests(p, check, post);
    }
  }

  /** A start the panel may make: with no existing stream, the relayed path sends the form's
      configuration; it stays in `Connecting` unless the reply says `ok: false`, which reverts it
      to `Error` (public/js/webview.js:308-348). */
  lemma {:induction false} ManagedStartOutcome(p: PanelState, post: PostAnswer)
    requires Inv(p) && !p.isStreaming && UsesManaged(p)
    ensures var q := ToggleClicked(p, NoStreamFound, post);
      && q.requests == p.requests + [CheckRequest, ManagedStartRequest(ConfigOf(p))]
      && q.streamType == "managed"
      && (post.ok == Some(false) ==> !q.isStreaming && q.currentStreamStatus == "Error" && q.display == Overlay)
      && (post.ok != Some(false) ==> q.isStreaming && q.currentStreamStatus == "Connecting")
  {
    assert !IsStreamingStatus(p.currentStreamStatus);
    var q := CheckLogged(p.(requests := p.requests + [CheckRequest]), NoStreamFound);
    assert UsesManaged(q) && ConfigOf(q) == ConfigOf(p) && q.requests == p.requests + [CheckRequest];
    var q1 := StartBegun(q);
    assert ToggleClicked(p, NoStreamFound, post) == ManagedRequested(q1, post);
    assert q1.streamType == "managed" && ConfigOf(q1) == ConfigOf(p);
    assert q1.currentStreamStatus == "Connecting" && q1.isStreaming;
  }

  /** A direct start with no usable URL reverts to `Offline` and sends nothing but the stream check
      (public/js/webview.js:350-360). */
  lemma {:induction false} NoUrlNoStart(p: PanelState, post: PostAnswer)
    requires Inv(p) && !p.isStreaming && !UsesManaged(p)
    requires !Truthy(PanelRtmpUrl(p))
    ensures var q := ToggleClicked(p, NoStreamFound, post);
      && q.requests == p.requests + [CheckRequest]
      && !q.isStreaming && q.currentStreamStatus == "Offline" && q.display == Overlay
      && q.logs[|q.logs| - 1] == LogEntry(Error, "No RTMP URL provided")
  {
    assert !IsStreamingStatus(p.currentStreamStatus);
    var q := p.(requests := p.requests + [CheckRequest]);
    var q1 := StartBegun(q);
    assert PanelRtmpUrl(q1) == PanelRtmpUrl(p) && q1.requests == q.requests;
  }

  /** A direct start whose form gives a URL sends that URL with the form's configuration and, unless
      the reply says `ok: false`, shows the logs while connecting (public/js/webview.js:349-375). */
  lemma {:induction false} UnmanagedStartSends(p: PanelState, post: PostAnswer, url: string)
    requires Inv(p) && !p.isStreaming && !UsesManaged(p)
    requires OrNull(PanelRtmpUrl(p)) == Some(url)
    ensures var q := ToggleClicked(p, NoStreamFound, post);
      && q.requests == p.requests + [CheckRequest, UnmanagedStartRequest(url, ConfigOf(p))]
      && (post.ok != Some(false) ==> q.isStreaming && q.currentStreamStatus == "Connecting" && q.display == LogsView)
  {
    assert !IsStreamingStatus(p.currentStreamStatus);
    var q := p.(requests := p.requests + [CheckRequest]);
    assert CheckLogged(q, NoStreamFound) == q && !UsesManaged(q);
    var q1 := StartBegun(q);
    assert PanelRtmpUrl(q1) == PanelRtmpUrl(p) && ConfigOf(q1) == ConfigOf(p);
    assert q1.currentStreamStatus == "Connecting" && q1.isStreaming && q1.display == LogsView;
    assert ToggleClicked(p, NoStreamFound, post) == UnmanagedRequested(q1, post);
  }

  /** That URL is the one the server would build for the trimmed form values. */
  lemma {:induction false} UnmanagedStartSendsUrl(p: PanelState, post: PostAnswer)
    requires Inv(p) && !p.isStreaming && !UsesManaged(p)
    requires p.currentPlatform in {"youtube", "twitch", "instagram", "other"}
    requires Destination(p.currentPlatform, Trim(p.streamKeyInput), Trim(p.rtmpUrlInput)).Some?
    ensures var q := ToggleClicked(p, NoStreamFound, post);
      var url := Destination(p.currentPlatform, Trim(p.streamKeyInput), Trim(p.rtmpUrlInput)).value;
      && q.requests == p.requests + [CheckRequest, UnmanagedStartRequest(url, ConfigOf(p))]
      && (post.ok != Some(false) ==> q.isStreaming && q.currentStreamStatus == "Connecting" && q.display == LogsView)
  {
    GetRtmpUrlAgrees(p.currentPlatform, p.streamKeyInput, p.rtmpUrlInput);
    UnmanagedStartSends(p, post, Destination(p.currentPlatform, Trim(p.streamKeyInput), Trim(p.rtmpUrlInput)).value);
  }

  /** A live stream whose snapshot carries an error mentioning `failed` ends up labelled `Error`
      while the panel still thinks it streams; the stream button then does nothing, because the stop
      guard reads the status, until the next snapshot arrives. */
  lemma {:induction false} FailedErrorLeavesStuck(p: PanelState, d: Payload, check: CheckAnswer, post: PostAnswer)
    requires d.hasActiveSession && d.streamStatus.Some? && IsStreamingStatus(d.streamStatus.value)
    requires d.error.Some? && Contains(Lower(d.error.value), "failed")
    ensures var q := OnStatusEvent(p, d);
      && q.isStreaming && q.currentStreamStatus == "Error" && !IsStreamingStatus(q.currentStreamStatus)
      && ToggleClicked(q, check, post) == q
  {
    IdleLabelsNotBusy();
    var q0 := StatusPart(p, d);
    assert q0.isStreaming;
    var q1 := BatteryPart(ManagedUrlsPart(q0, d), d);
    assert q1.isStreaming;
    assert d.error.value != "";
  }
}
