/** The control panel script itself (public/js/webview.js): the module-level variables and the
    parts of the page the logic reads or writes are fields, updated step by step as the script
    does. Each method is proved to perform the transition `PanelModel` specifies, and the event
    handlers to keep `PanelModel.Inv`. */
module WebviewClient {
  import opened Wrappers
  import opened JsText
  import opened StreamSession
  import opened StatusPayload
  import opened Destinations
  import opened StatusClassifier
  import opened ClientLog
  import opened PanelModel

  class ControlPanel {
    var currentPlatform: string
    var isStreaming: bool
    var streamType: string
    var currentStreamStatus: string
    var logs: seq<LogEntry>
    var display: DisplayMode
    var playerSrc: string
    var stopButton: bool
    var controlsDisabled: bool
    var streamKeyInput: string
    var rtmpUrlInput: string
    var cloudflareChecked: bool
    var battery: BatteryView
    var requests: seq<ClientRequest>

    /** The panel's fields as one value. */
    function State(): PanelState
      reads this
    {
      PanelState(currentPlatform, isStreaming, streamType, currentStreamStatus, logs, display, playerSrc,
                 stopButton, controlsDisabled, streamKeyInput, rtmpUrlInput, cloudflareChecked, battery, requests)
    }

    /** Page load: the script's initial values, `initializeFromData()` and
        `updatePlatformConfig(currentPlatform)` (public/js/webview.js:1-7, 39-83, 600-601). */
    constructor (page: PageData)
      ensures State() == Initial(page)
      ensures Inv(State())
    {
      currentPlatform := "here";
      isStreaming := false;
      streamType := "managed";
      currentStreamStatus := "";
      logs := [];
      display := Overlay;
      playerSrc := "";
      stopButton := false;
      controlsDisabled := false;
      streamKeyInput := "";
      rtmpUrlInput := "";
      cloudflareChecked := false;
      battery := BatteryView(None, Normal);
      requests := [];
      new;
      InitializeFromData(page);
      UpdatePlatformConfig(currentPlatform);
      InitialInv(page);
    }

    // ---- the page's helper functions ----

    /** `updateStatus(status, type)` (public/js/webview.js:98-130). */
    method UpdateStatus(status: string, kind: Option<string>)
      modifies this
      ensures State() == StatusUpdated(old(State()), status, kind)
    {
      if Truthy(kind) {
        streamType := kind.value;
      }
      currentStreamStatus := status;
    }

    /** `addLog(type, message)` (public/js/webview.js:217-236): push, then shift once the log is
        over the bound. */
    method AddLog(level: LogLevel, message: string)
      modifies this
      ensures State() == LogAdded(old(State()), level, message)
    {
      logs := logs + [LogEntry(level, message)];
      if |logs| > MaxLogs {
        logs := logs[1..];
      }
    }

    /** `updateDisplay(mode, url)` (public/js/webview.js:186-206). */
    method UpdateDisplay(mode: DisplayMode, url: string)
      modifies this
      ensures State() == DisplayUpdated(old(State()), mode, url)
    {
      if mode == Preview && url != "" {
        playerSrc := url;
        display := Preview;
      } else if mode == LogsView {
        playerSrc := "";
        display := LogsView;
      } else {
        playerSrc := "";
        display := Overlay;
      }
    }

    /** `updateStreamButton(streaming)`: the button shows "stop" exactly when asked to. */
    method UpdateStreamButton(streaming: bool)
      modifies this
      ensures State() == old(State()).(stopButton := streaming)
    {
      stopButton := streaming;
    }

    /** `updateControlsState(disabled)` (public/js/webview.js:397-414). */
    method UpdateControlsState(disabled: bool)
      modifies this
      ensures State() == ControlsSet(old(State()), disabled)
    {
      controlsDisabled := disabled;
    }

    /** `updateBatteryDisplay(percent)` (public/js/webview.js:575-597). */
    method UpdateBatteryDisplay(percent: Option<int>)
      modifies this
      ensures State() == old(State()).(battery := BatteryShown(old(battery), percent))
    {
      if percent.None? {
        battery := battery.(percent := None);
        return;
      }
      var n := percent.value;
      if n <= 20 {
        battery := BatteryView(Some(n), Low);
      } else if n <= 50 {
        battery := BatteryView(Some(n), Medium);
      } else {
        battery := BatteryView(Some(n), Normal);
      }
    }

    /** `updatePlatformConfig(platform)` (public/js/webview.js:144-172). */
    method UpdatePlatformConfig(platform: string)
      modifies this
      ensures State() == PlatformConfigUpdated(old(State()), platform)
    {
      currentPlatform := platform;
      if platform == "here" {
        streamType := "managed";
        cloudflareChecked := true;
      } else {
        streamType := if cloudflareChecked then "managed" else "unmanaged";
      }
    }

    /** The part of `initializeFromData` that adopts an initial status (public/js/webview.js:58-77). */
    method AdoptInitialStatus(page: PageData)
      modifies this
      ensures State() == InitialStatus(old(State()), page)
    {
      if !Truthy(page.initialStreamStatus) {
        return;
      }
      var s := page.initialStreamStatus.value;
      ghost var start := State();
      UpdateStatus(s, page.initialStreamType);
      currentStreamStatus := s;
      streamType := OrElse(page.initialStreamType, "managed");
      var shouldShowStop := IsStreamingStatus(s);
      isStreaming := shouldShowStop;
      UpdateStreamButton(shouldShowStop);
      ghost var q1 := StreamingSet(StatusUpdated(start, s, page.initialStreamType).(streamType := OrElse(page.initialStreamType, "managed")), shouldShowStop);
      assert State() == q1;
      if Truthy(page.initialPreviewUrl) && streamType == "managed" {
        UpdateDisplay(Preview, page.initialPreviewUrl.value);
      } else if shouldShowStop && streamType == "unmanaged" {
        UpdateDisplay(LogsView, "");
        AddLog(Info, "Stream active: " + s);
      }
      UpdateControlsState(shouldShowStop);
    }

    /** `initializeFromData()` (public/js/webview.js:39-83). */
    method InitializeFromData(page: PageData)
      modifies this
      ensures State() == DataLoaded(old(State()), page)
    {
      currentPlatform := OrElse(page.savedPlatform, "here");
      streamKeyInput := OrElse(page.savedStreamKey, "");
      rtmpUrlInput := OrElse(page.savedCustomRtmpUrl, "");
      cloudflareChecked := page.savedUseCloudflare == Some("true");
      AdoptInitialStatus(page);
      if Truthy(page.initialError) {
        AddLog(Error, page.initialError.value);
      }
    }

    // ---- the SSE `status` handler (public/js/webview.js:463-565) ----

    /** Lines 472-491. */
    method HandleSessionFlag(d: Payload)
      modifies this
      ensures State() == SessionPart(old(State()), d)
    {
      if d.hasActiveSession {
        return;
      }
      currentStreamStatus := "offline";
      UpdateStatus("Offline", None);
      if isStreaming {
        isStreaming := false;
        UpdateStreamButton(false);
        UpdateControlsState(false);
        AddLog(Error, "Session lost");
        if streamType == "unmanaged" && |logs| > 0 {
          UpdateDisplay(LogsView, "");
        } else {
          UpdateDisplay(Overlay, "");
        }
      }
    }

    /** Lines 494-519. */
    method AdoptStatus(d: Payload, s: string)
      modifies this
      ensures State() == StatusAdopted(old(State()), d, s)
    {
      var oldStatus := currentStreamStatus;
      UpdateStatus(s, PayloadKind(d));
      ghost var updated := State();
      var changed := d.streamType == Some(Unmanaged) && oldStatus != s;
      if changed {
        AddLog(StatusLogLevel(s), "Status: " + s);
      }
      assert State() == StatusLogged(updated, changed, s);
      var shouldShowStop := IsStreamingStatus(s);
      if shouldShowStop != isStreaming {
        isStreaming := shouldShowStop;
        UpdateStreamButton(shouldShowStop);
        UpdateControlsState(shouldShowStop);
      }
    }

    /** Lines 522-538. */
    method ChooseDisplay(d: Payload, shouldShowStop: bool)
      modifies this
      ensures State() == StatusDisplay(old(State()), d, shouldShowStop)
    {
      if shouldShowStop {
        if d.streamType == Some(Managed) && Truthy(d.previewUrl) {
          if playerSrc != d.previewUrl.value {
            UpdateDisplay(Preview, d.previewUrl.value);
          }
        } else if d.streamType == Some(Unmanaged) {
          UpdateDisplay(LogsView, "");
        }
      } else {
        if d.streamType == Some(Unmanaged) && |logs| > 0 {
          UpdateDisplay(LogsView, "");
        } else {
          UpdateDisplay(Overlay, "");
        }
      }
    }

    /** Lines 542-549. */
    method NoteManagedUrls(d: Payload)
      modifies this
      ensures State() == ManagedUrlsPart(old(State()), d)
    {
      if d.streamType == Some(Managed) {
        if Truthy(d.hlsUrl) {
          AddLog(Info, "HLS URL available");
        }
        if Truthy(d.directRtmpUrl) {
          AddLog(Info, "RTMP ingest URL ready");
        }
      }
    }

    /** Lines 557-564. */
    method ShowError(d: Payload)
      modifies this
      ensures State() == ErrorPart(old(State()), d)
    {
      if Truthy(d.error) {
        AddLog(Error, d.error.value);
        if Contains(Lower(d.error.value), "failed") || Contains(Lower(d.error.value), "error") {
          UpdateStatus("Error", None);
        }
      }
    }

    /** One `status` event: the snapshot `d` is folded into the panel, and the panel's invariant is
        kept. */
    method OnStatus(d: Payload)
      modifies this
      ensures State() == OnStatusEvent(old(State()), d)
      ensures old(Inv(State())) ==> Inv(State())
    {
      ghost var before := State();
      HandleSessionFlag(d);
      ghost var p1 := State();
      if d.streamStatus.Some? {
        var s := d.streamStatus.value;
        AdoptStatus(d, s);
        ChooseDisplay(d, IsStreamingStatus(s));
      }
      assert State() == StatusPart(p1, d);
      NoteManagedUrls(d);
      UpdateBatteryDisplay(d.glassesBatteryPercent);
      ghost var p2 := State();
      assert p2 == BatteryPart(ManagedUrlsPart(StatusPart(p1, d), d), d);
      ShowError(d);
      assert State() == ErrorPart(p2, d);
      if Inv(before) {
        StatusEventInv(before, d);
      }
    }

    // ---- user actions ----

    /** The stream check `startStream` begins with, and the lines `checkExistingStream` logs
        (public/js/webview.js:251-294). */
    method CheckExistingStream(check: CheckAnswer)
      modifies this
      ensures State() == CheckLogged(old(State()).(requests := old(requests) + [CheckRequest]), check)
    {
      requests := requests + [CheckRequest];
      match check {
        case NoStreamFound =>
        case StreamFound(kind, hls, viewers, rtmp, appId) =>
          AddLog(Info, "Found existing " + KindName(kind) + " stream");
          if kind == Managed {
            if Truthy(hls) {
              AddLog(Info, "HLS URL: " + hls.value);
            }
            if viewers.Some? {
              AddLog(Info, "Active viewers: " + NatToString(viewers.value));
            }
          } else {
            AddLog(Warning, "Another app (" + OrElse(appId, "Unknown app") + ") is streaming to: "
                            + OrElse(rtmp, "Unknown URL"));
          }
      }
    }

    /** The optimistic switch to `Connecting` (public/js/webview.js:308-324). */
    method BeginStart()
      modifies this
      ensures State() == StartBegun(old(State()))
    {
      var useManaged := cloudflareChecked || currentPlatform == "here";
      streamType := if useManaged then "managed" else "unmanaged";
      UpdateStatus("Connecting", None);
      isStreaming := true;
      UpdateStreamButton(true);
      UpdateControlsState(true);
      if useManaged {
        UpdateDisplay(Overlay, "");
        AddLog(Info, "Starting managed stream...");
      } else {
        UpdateDisplay(LogsView, "");
        AddLog(Info, "--- New stream session ---");
        AddLog(Info, "Starting unmanaged RTMP stream...");
      }
    }

    /** The revert after a refused start. */
    method RevertStart(status: string, toOverlay: bool, message: string)
      modifies this
      ensures State() == StartReverted(old(State()), status, toOverlay, message)
    {
      UpdateStatus(status, None);
      isStreaming := false;
      UpdateStreamButton(false);
      UpdateControlsState(false);
      if toOverlay {
        UpdateDisplay(Overlay, "");
      }
      AddLog(Error, message);
    }

    /** Lines 334-348. */
    method RequestManagedStart(post: PostAnswer)
      modifies this
      ensures State() == ManagedRequested(old(State()), post)
    {
      AddLog(Info, "Requesting Cloudflare managed stream...");
      var config := ClientConfig(currentPlatform, streamKeyInput, rtmpUrlInput, cloudflareChecked);
      requests := requests + [ManagedStartRequest(config)];
      if post.ok == Some(false) {
        RevertStart("Error", true, "Failed to start: " + OrElse(post.error, "Unknown error"));
      } else {
        AddLog(Success, "Managed stream request sent");
      }
    }

    /** Lines 349-375. */
    method RequestUnmanagedStart(post: PostAnswer)
      modifies this
      ensures State() == UnmanagedRequested(old(State()), post)
    {
      var rtmpUrl := OrNull(GetRtmpUrl(currentPlatform, streamKeyInput, rtmpUrlInput));
      if rtmpUrl.None? {
        RevertStart("Offline", true, "No RTMP URL provided");
        return;
      }
      var url := rtmpUrl.value;
      AddLog(Info, "Connecting to: " + MaskKey(url));
      var config := ClientConfig(currentPlatform, streamKeyInput, rtmpUrlInput, cloudflareChecked);
      requests := requests + [UnmanagedStartRequest(url, config)];
      if post.ok == Some(false) {
        RevertStart("Error", false, "Failed to start: " + OrElse(post.error, "Unknown error"));
      } else {
        AddLog(Success, "RTMP stream request sent");
      }
    }

    /** `startStream()` (public/js/webview.js:296-376); the answers of the two requests are inputs. */
    method StartStream(check: CheckAnswer, post: PostAnswer)
      modifies this
      ensures State() == StartStreamed(old(State()), check, post)
    {
      if IsStreamingStatus(currentStreamStatus) {
        return;
      }
      CheckExistingStream(check);
      if check.StreamFound? {
        AddLog(Info, "Reconnecting to existing stream...");
        return;
      }
      var useManaged := cloudflareChecked || currentPlatform == "here";
      BeginStart();
      if useManaged {
        RequestManagedStart(post);
      } else {
        RequestUnmanagedStart(post);
      }
    }

    /** `stopStream()` (public/js/webview.js:378-395). */
    method StopStream()
      modifies this
      ensures State() == StopStreamed(old(State()))
    {
      if !IsStreamingStatus(currentStreamStatus) {
        return;
      }
      UpdateStatus("Stopping", None);
      isStreaming := true;
      UpdateStreamButton(true);
      AddLog(Info, "Stopping stream...");
      requests := requests + [StopRequest(streamType == "managed")];
    }

    /** The stream button's `click` handler (public/js/webview.js:426-432). */
    method ToggleClick(check: CheckAnswer, post: PostAnswer)
      modifies this
      ensures State() == ToggleClicked(old(State()), check, post)
      ensures old(Inv(State())) ==> Inv(State())
    {
      ghost var before := State();
      if isStreaming {
        StopStream();
      } else {
        StartStream(check, post);
      }
      if Inv(before) {
        ClickInv(before, check, post, "", false);
      }
    }

    /** A platform button's `click` handler (public/js/webview.js:417-424). */
    method PlatformClick(platform: string)
      modifies this
      ensures State() == PlatformClicked(old(State()), platform)
      ensures old(Inv(State())) ==> Inv(State())
    {
      ghost var before := State();
      if !isStreaming {
        UpdatePlatformConfig(platform);
      }
      if Inv(before) {
        ClickInv(before, NoStreamFound, PostAnswer(None, None), platform, false);
      }
    }

    /** The relay checkbox's `change` handler (public/js/webview.js:455-458). */
    method CloudflareChange(checked: bool)
      modifies this
      ensures State() == CloudflareChanged(old(State()), checked)
      ensures old(Inv(State())) ==> Inv(State())
    {
      ghost var before := State();
      cloudflareChecked := checked;
      streamType := if checked then "managed" else "unmanaged";
      if Inv(before) {
        ClickInv(before, NoStreamFound, PostAnswer(None, None), "", checked);
      }
    }
  }
}
