/** How the control panel reads a stream status (public/js/webview.js:85-130, 500-509): whether it
    means "busy", which label and indicator it shows, and at which level it is logged. */
module StatusClassifier {
  import opened JsText
  import opened ClientLog

  /** The indicator's extra CSS class: none, `online` or `connecting`. */
  datatype Indicator = Plain | Online | Connecting

  datatype StatusView = StatusView(indicator: Indicator, text: string)

  /** The lower-case statuses the label table recognises. */
  predicate Recognised(l: string) {
    l in {"active", "streaming", "connected", "connecting", "starting", "pending", "stopping",
          "disconnecting", "error", "failed", "idle", "ready"}
  }

  /** The label and indicator `updateStatus` shows for a status (public/js/webview.js:102-129). The
      empty status reads `Offline`, a recognised one gets its fixed label, and any other is shown
      as it was sent. */
  function StatusViewOf(status: string): (v: StatusView)
    ensures v.text != ""
    ensures Lower(status) in {"active", "streaming", "connected"} ==> v == StatusView(Online, "Live")
    ensures Lower(status) in {"connecting", "starting", "pending"} ==> v == StatusView(Connecting, "Connecting")
    ensures Lower(status) in {"stopping", "disconnecting"} ==> v == StatusView(Connecting, "Stopping")
    ensures Lower(status) in {"error", "failed"} ==> v == StatusView(Plain, "Error")
    ensures Lower(status) in {"idle", "ready"} ==> v == StatusView(Plain, "Ready")
    ensures status == "" ==> v == StatusView(Plain, "Offline")
    ensures !Recognised(Lower(status)) && status != "" ==> v == StatusView(Plain, status)
    ensures v.indicator == Online ==> v.text == "Live"
    ensures v.indicator == Connecting ==> v.text in {"Connecting", "Stopping"}
  {
    var l := Lower(status);
    if l == "active" || l == "streaming" || l == "connected" then StatusView(Online, "Live")
    else if l == "connecting" || l == "starting" || l == "pending" then StatusView(Connecting, "Connecting")
    else if l == "stopping" || l == "disconnecting" then StatusView(Connecting, "Stopping")
    else if l == "error" || l == "failed" then StatusView(Plain, "Error")
    else if l == "idle" || l == "ready" then StatusView(Plain, "Ready")
    else if status != "" then StatusView(Plain, status)
    else StatusView(Plain, "Offline")
  }

  /** The nine lower-case words `isStreamingStatus` treats as busy. */
  predicate BusyWord(l: string) {
    l in {"active", "streaming", "connected", "connecting", "starting", "pending", "stopping",
          "disconnecting", "initializing"}
  }

  /** `isStreamingStatus` (public/js/webview.js:85-96); an absent status is passed as `""`. */
  function IsStreamingStatus(status: string): (b: bool)
    ensures b <==> BusyWord(Lower(status))
    ensures status == "" ==> !b
  {
    var l := Lower(status);
    l == "active" || l == "streaming" || l == "connected" || l == "connecting" || l == "starting"
    || l == "pending" || l == "stopping" || l == "disconnecting" || l == "initializing"
  }

  /** The busy statuses are exactly those with a live or connecting indicator, plus `initializing`,
      which the label table does not know. */
  lemma BusyMatchesIndicator(status: string)
    ensures IsStreamingStatus(status) <==> StatusViewOf(status).indicator != Plain || Lower(status) == "initializing"
  {
  }

  /** The labels the panel itself assigns that are not busy: `Offline` (and the `offline` written
      just before it) and `Error`. */
  lemma {:induction false} IdleLabelsNotBusy()
    ensures !IsStreamingStatus("Offline") && !IsStreamingStatus("offline") && !IsStreamingStatus("Error")
  {
    assert Lower("Offline")[0] == 'o' && Lower("offline")[0] == 'o';
  }

  /** `Offline` is not in the label table, so it is shown as it is. */
  lemma {:induction false} OfflineLabel()
    ensures StatusViewOf("Offline") == StatusView(Plain, "Offline")
  {
    assert Lower("Offline")[0] == 'o' && |Lower("Offline")| == 7;
  }

  /** Lowering a word whose only capital is its first letter lowers just that letter. */
  lemma LowerCapitalised(s: string, l: string)
    requires |s| == |l| && 0 < |s| && 'A' <= s[0] <= 'Z' && l[0] as int == s[0] as int + 32
    requires forall i | 1 <= i < |s| :: s[i] == l[i] && 'a' <= s[i] <= 'z'
    ensures Lower(s) == l
  {
  }

  /** The label the panel assigns while a start request is in flight is busy. */
  lemma {:induction false} ConnectingBusy()
    ensures IsStreamingStatus("Connecting")
  {
    LowerCapitalised("Connecting", "connecting");
  }

  /** The label the panel assigns while a stop request is in flight is busy. */
  lemma {:induction false} StoppingBusy()
    ensures IsStreamingStatus("Stopping")
  {
    LowerCapitalised("Stopping", "stopping");
  }

  /** Whether a status is busy does not depend on its letter case. */
  lemma BusyIgnoresCase(status: string)
    ensures IsStreamingStatus(status) == IsStreamingStatus(Lower(status))
  {
    LowerIdempotent(status);
  }

  /** A recognised status shows the same label whatever its letter case. */
  lemma ViewIgnoresCase(status: string)
    requires Recognised(Lower(status))
    ensures StatusViewOf(status) == StatusViewOf(Lower(status))
  {
    var l := Lower(status);
    LowerIdempotent(status);
    assert Lower(l) == l;
    assert status != "" && l != "";
  }

  /** The level of the "Status: ..." line logged for an unmanaged stream
      (public/js/webview.js:500-508). */
  function StatusLogLevel(status: string): (level: LogLevel)
    ensures level == Success <==> StatusViewOf(status).indicator == Online
    ensures level == Warning <==> StatusViewOf(status) == StatusView(Connecting, "Stopping")
    ensures level == Error <==> Lower(status) in {"error", "failed"}
  {
    var l := Lower(status);
    if l == "active" || l == "connected" || l == "streaming" then Success
    else if l == "error" || l == "failed" then Error
    else if l == "stopping" || l == "disconnecting" then Warning
    else Info
  }

  /** The log level and the label agree on errors: a status is logged at error level exactly when
      the label reads `Error`. */
  lemma ErrorLevelMatchesLabel(status: string)
    ensures StatusLogLevel(status) == Error <==> StatusViewOf(status).text == "Error"
  {
  }
}
