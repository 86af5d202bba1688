# Live-stream control: a Dafny model

This project models the core of a smart-glasses streaming app. One user's live-stream state is
kept in sync between three parties:
- the camera's session provider;
- a Node server;
- any number of browser tabs showing a control panel.

The model covers five parts:

- **The session record** (`src/streamSession.ts`). It is the class `StreamSession.AppSession`, whose fields
  are the app's declared fields. `Record()` returns them as the datatype `SessionRecord`. The
  camera requests sent through the session are recorded in order in `cameraCalls`.
- **The server handlers.** These are:
  - the provider push handlers, the disconnect handler and `onStop` (`src/index.ts`, module `AppServer`);
  - the HTTP routes (`src/webview.ts`, module `Routes`);
  - the voice-assistant tools (`src/tools.ts`, module `Tools`).

  Each handler runs as one atomic step. The answer of each awaited provider call is an input
  `Outcome` (`Ok(value)` or `Fail(message)`). Each handler assigns the session's fields one by one,
  as the TypeScript does. Its contract equates the resulting record with a function in
  `SessionUpdates`, and lemmas state what that function keeps and clears.
- **The snapshot and the observer registry** (`src/webview.ts`, modules `StatusPayload` and `SseHub`):
  - `formatStreamStatus` builds the snapshot;
  - the `sseClientsByUser` registry is a map from user to that user's connections, and subscribing and closing update it;
  - `broadcastStreamStatus` writes one event to each of the user's connections. `SseHub.Hub` holds the registry and an
    append-only trace of every write.
- **Destination resolution** (module `Destinations`). The platform table and the RTMP URL rule
  appear four times in the repository. `Destinations.Destination` states the rule once, and each call
  site is proved to agree with it.
- **The control panel script** (`public/js/webview.js`):
  - `StatusClassifier`: the busy predicate and the status label table;
  - `ClientLog`: the bounded log;
  - `PanelModel`: the panel's state as a value, with one transition function per event;
  - `WebviewClient.ControlPanel`: a class whose fields are the script's variables, with one
    method per function of the script.

  Each method is proved to perform its `PanelModel` transition, and the event handlers to keep
  `PanelModel.Inv`.

Behaviour of the code that the model follows, even where it looks unintended:
- The push handlers do not clear every field of the other stream kind:
  - the RTMP push keeps `previewUrl`, `thumbnailUrl` and `directRtmpUrl`;
  - the managed push keeps `mangedRtmpRestreamUrls`;
  - the fold in `onSession` has no WebRTC fallback for the preview URL, which the check route has.
- `streamStatus` and `useCloudflareManaged` are unset on a new session, although the types declare
  them non-nullable. The tool's `?? true` default relies on that.
- Platform strings are stored unchecked. For a platform outside the table, the panel builds the URL
  `undefined/<key>` (`Destinations.UnlistedPlatformUrl`).
- When a session is lost, the panel's `currentStreamStatus = 'offline'` is overwritten at once by
  `updateStatus('Offline')`.
- The panel can get stuck, as `PanelModel.FailedErrorLeavesStuck` shows. Suppose a snapshot has a busy
  status and an error text mentioning "failed". The label becomes `Error` while `isStreaming` stays true.
  The stream button then calls `stopStream`, whose guard refuses a non-busy status. The click does
  nothing until the next snapshot.
- A start reply without an `ok` field (such as a 401 body) counts as success on the panel.
- A JavaScript `Set` iterates in insertion order, so each user's connection set is a duplicate-free
  sequence. A broadcast's writes are therefore a function of the registry.

## Model

| member | source | states |
|---|---|---|
| StreamSession.KindName | src/streamSession.ts:5 | the two stream kinds map one-to-one to the strings `managed` and `unmanaged` |
| StreamSession.StopCalls | src/index.ts:174-180 | no stop request without a stream type; a managed stream is stopped with `stopManagedStream`, an unmanaged one with `stopStream` |
| StreamSession.AppSession.constructor | src/streamSession.ts:3-28 | a new session has none of the app's fields set and has issued no camera request |
| SessionUpdates.ManagedStatusApplied | src/index.ts:100-108 | the managed push marks the stream managed and copies the status; it null-defaults the five URLs and ids and clears `directRtmpUrl` and `error`; it keeps the restream URLs, the battery and the configuration |
| SessionUpdates.RtmpStatusApplied | src/index.ts:115-121 | the RTMP push marks the stream unmanaged and clears hls, dash and the restream URLs; `error` becomes `errorDetails` or null; the preview, thumbnail and direct URL are kept |
| SessionUpdates.BatteryReading | src/index.ts:129-130 | the reading is `percent` when that is a number, else the bare number, else null |
| SessionUpdates.BatteryApplied | src/index.ts:127-134 | a battery push changes only the battery field |
| SessionUpdates.ExistingFolded | src/index.ts:62-84 | a found stream gives its kind; the status defaults to `active`; `error` is cleared and every empty string becomes null; managed takes hls, dash and preview and clears the direct URL; unmanaged clears hls and dash and takes the RTMP URL; the preview uses the WebRTC fallback only on the check route |
| SessionUpdates.FoldsDifferOnlyInPreview | src/webview.ts:290-297 | the fold of the check route and that of `onSession` differ only in `previewUrl`, and exactly for a managed stream with a WebRTC URL but no preview URL |
| SessionUpdates.StopApplied | src/webview.ts:177-203 | a stop always leaves type null and status `idle`; only after a found stream was stopped are the kind's own fields cleared (managed: hls, dash, id and preview; unmanaged: the direct URL and id); every other field, including the other kind's URLs, is kept |
| SessionUpdates.ConfigSaved | src/webview.ts:121-124 | the platform is saved only when truthy; key, custom URL and relay choice are saved whenever the key was sent; nothing else changes |
| SessionUpdates.WriteManagedStatus | src/index.ts:100-108 | the managed push's field writes yield the record `ManagedStatusApplied` describes and send no camera request |
| SessionUpdates.WriteRtmpStatus | src/index.ts:115-121 | the RTMP push's field writes yield the record `RtmpStatusApplied` describes and send no camera request |
| SessionUpdates.AdoptManaged | src/index.ts:62-69 | the field-by-field managed fold yields the record `ExistingFolded` describes and sends no camera request |
| SessionUpdates.AdoptUnmanaged | src/index.ts:78-84 | the field-by-field unmanaged fold yields the record `ExistingFolded` describes and sends no camera request |
| SessionUpdates.MarkIdle | src/webview.ts:180-201 | the stop routes' writes yield the record `StopApplied` describes |
| SessionUpdates.SaveConfig | src/webview.ts:121-124 | the start routes' configuration writes yield the record `ConfigSaved` describes |
| StatusPayload.FormatStreamStatus | src/webview.ts:376-390 | each field is copied with absent turned into null; `hasActiveSession` holds exactly when a session is given; with no session every field is null and the status key is missing |
| StatusPayload.SnapshotHidesConfiguration | src/webview.ts:376-390 | the snapshot ignores the saved configuration, the restream list and the thumbnail |
| SseHub.Fanout | src/webview.ts:395-401 | a broadcast writes one `status` event per registered connection, in registration order |
| SseHub.FanoutReachesEachOnce | src/webview.ts:395-401 | over duplicate-free connections, each registered connection gets exactly one write and any other connection none |
| SseHub.Published | src/webview.ts:395-401 | a broadcast for a user writes as many events as the user has connections (none when absent), each the given snapshot to one of the user's connections |
| SseHub.Added | src/webview.ts:71-77 | subscribing creates the user's entry if absent and appends the connection; other users are untouched |
| SseHub.Without | src/webview.ts:105 | deleting from a set keeps every other member, never grows it, and keeps it duplicate-free |
| SseHub.Removed | src/webview.ts:100-110 | closing removes the connection from the user's set only; no entry is added |
| SseHub.AddedWellFormed | src/webview.ts:71-77 | subscribing a fresh connection keeps the registry well formed: non-empty, duplicate-free, each connection under one user |
| SseHub.RemovedWellFormed | src/webview.ts:103-109 | closing keeps the registry well formed; it never holds an empty set |
| SseHub.RemovedIdempotent | src/webview.ts:100-110 | a second close of the same connection changes nothing |
| SseHub.CloseUndoesSubscribe | src/webview.ts:71-110 | closing a connection right after subscribing it restores the registry exactly |
| SseHub.BroadcastStaysWithUser | src/webview.ts:395-401 | a broadcast for one user writes nothing to another user's connection |
| SseHub.Frame | src/webview.ts:406-409 | an event is framed as `event: <name>\n` then `data: <json>\n\n`; this is the wire form of each status write in a `Hub` trace |
| SseHub.FrameRoundTrip | src/webview.ts:406-409 | reading a frame back yields the name and data it was written with, when neither holds a line break |
| SseHub.Hub.constructor | src/webview.ts:412 | the registry starts empty, with nothing written |
| SseHub.Hub.Subscribe | src/webview.ts:49-77 | without a user: nothing is written or registered; otherwise the retry hint of 3000 ms and then exactly one initial `status` event are written to the new connection, which is then added to the user's set |
| SseHub.Hub.Close | src/webview.ts:100-110 | the close handler updates the registry as `Removed` says and writes nothing |
| SseHub.Hub.Broadcast | src/webview.ts:395-401 | the trace grows by exactly the writes `Published` describes, and the registry is unchanged |
| Destinations.PlatformBase | src/webview.ts:135-139 | exactly the three known services have an ingest base, one of the three fixed URLs |
| Destinations.Destination | src/webview.ts:128-144 | `here` has no destination; `other` uses a non-empty custom URL; a known service with a non-empty key uses `base/key`; anything else has none |
| Destinations.RouteRestreamAgrees | src/webview.ts:128-144 | the managed start route's restream URL is the rule applied to the saved configuration; an unset platform has none |
| Destinations.ToolRestreamAgrees | src/tools.ts:41-56 | the tool's restream URL is the rule |
| Destinations.ToolRtmpAgrees | src/tools.ts:77-91 | after the `!rtmpUrl` check, the tool's unmanaged URL is the rule |
| Destinations.GetRtmpUrlAgrees | public/js/webview.js:174-184 | for every platform the panel offers, a truthy `getRtmpUrl()` is the rule applied to the trimmed inputs |
| Destinations.UnlistedPlatformUrl | public/js/webview.js:179-182 | for any platform outside the table and any non-blank key the panel builds `undefined/<trimmed key>`, where the rule has no destination |
| AppServer.OnManagedStreamStatus | src/index.ts:98-111 | the record becomes `ManagedStatusApplied`; exactly one snapshot of the new record is broadcast; no camera request |
| AppServer.OnStreamStatus | src/index.ts:113-124 | the record becomes `RtmpStatusApplied`; exactly one snapshot is broadcast |
| AppServer.OnGlassesBattery | src/index.ts:127-135 | the record becomes `BatteryApplied`; a snapshot is always broadcast |
| AppServer.FoldExistingStream | src/index.ts:51-96 | one check request is sent; a found stream is folded in and broadcast once; no stream or a failed check leaves the record and the trace untouched |
| AppServer.StreamerApp.constructor | src/index.ts:25 | the user-to-session map starts empty |
| AppServer.StreamerApp.OnSession | src/index.ts:43-162 | the session is registered under its user; a found stream is folded and broadcast; the handler ends with one more snapshot broadcast |
| AppServer.StreamerApp.OnDisconnected | src/index.ts:138-149 | only `permanent === true` removes the mapping and broadcasts a no-session snapshot; otherwise nothing changes |
| AppServer.StreamerApp.OnStop | src/index.ts:168-197 | the stop matching the stream type is sent; a failure of the SDK cleanup keeps the mapping and is returned; otherwise the mapping is removed; a no-session snapshot is broadcast in every case; no record changes |
| AppServer.StreamerApp.OnToolCall | src/index.ts:32-34 | either tool for a user with no mapped session answers the no-session error |
| Tools.ResolvedConfig | src/tools.ts:26-29 | platform, key and URL fall back with `\|\|` (an empty parameter falls through) to the saved value and then to `here` or `""`; the relay choice falls back with `??`, so an explicit false is kept and the default is true |
| Tools.PlanFollowsRule | src/tools.ts:37-93 | the managed path is taken exactly for `here` or the relay choice; both paths resolve the URL by the one rule; only the unmanaged path can lack a URL |
| Tools.PlanDestinations | src/tools.ts:58-66 | a restream list exists exactly when a managed plan built a URL, as one entry named after the platform |
| Tools.StartSaved | src/tools.ts:32-35 | the resolved configuration is stored, and the restream list only when built; the snapshot is unaffected |
| Tools.SaveResolvedConfig | src/tools.ts:32-35 | the configuration writes yield the record `StartSaved` describes |
| Tools.StartStreaming | src/tools.ts:24-99 | the configuration is stored before any camera request; the plan's request is sent; the reply is the missing-URL error or success without waiting for the camera; a broadcast follows only a sent request that succeeds |
| Tools.StopStreaming | src/tools.ts:109-122 | the stop matching the stream type is sent, or the "no active stream" reply is given; the record is untouched |
| Tools.HandleToolCall | src/tools.ts:11-130 | an unknown tool gets no reply and changes nothing; either tool without a session gets the no-session error; otherwise the tool's reply is one of its two texts |
| Routes.StreamStatus | src/webview.ts:49-77 | without a user: 401, nothing written; otherwise the retry hint and the request session's snapshot are written, then the connection is registered |
| Routes.RouteDestinations | src/webview.ts:128-155 | a restream list exists exactly when the saved platform is set and the rule yields a URL, and then it is that URL named after the platform |
| Routes.ManagedStart | src/webview.ts:114-164 | 401 without user or session; configuration and restream list are saved before the start request and stay saved on failure; success is broadcast once and answered `ok` |
| Routes.StopReply | src/webview.ts:174-205 | a failure of the check or of a needed stop answers 400; a check finding no stream of this kind answers "No stream to stop" |
| Routes.StopRoute | src/webview.ts:167-273 | the session always ends with type null and status `idle`, with exactly one broadcast; the kind's fields are cleared only after a successful stop of a found stream |
| Routes.UnmanagedStart | src/webview.ts:210-233 | a missing or empty `rtmpUrl` is refused with 400 before any save or camera request; otherwise the configuration is saved and the stream started at that URL |
| Routes.Check | src/webview.ts:276-320 | a found stream is folded in with the WebRTC fallback and broadcast; the answer echoes what the check reported |
| Routes.NumberedDestinations | src/webview.ts:337-342 | one destination per URL, in input order, named `destination-1` to `destination-n` |
| Routes.NumberedNamesDistinct | src/webview.ts:337-342 | no two numbered destinations share a name |
| Routes.RestreamStart | src/webview.ts:324-353 | anything but a non-empty list is refused with 400 before any write; otherwise the numbered list is stored and sent, and stays stored on failure |
| JsText.Lower | public/js/webview.js:86 | lowering keeps the length and lowers each letter |
| JsText.LowerIdempotent | public/js/webview.js:86 | lowering twice is lowering once |
| JsText.Trim | public/js/webview.js:178 | `trim` cuts only white space, from both ends, and leaves none at either end |
| JsText.NatToString | src/webview.ts:340 | a number's decimal text is non-empty and all digits, one digit exactly below ten |
| JsText.NatToStringInjective | src/webview.ts:340 | different numbers have different decimal texts |
| StatusClassifier.IsStreamingStatus | public/js/webview.js:85-96 | a status is busy exactly when its lower-cased form is one of the nine busy words (`active`, `streaming`, `connected`, `connecting`, `starting`, `pending`, `stopping`, `disconnecting`, `initializing`); the absent status is not busy |
| StatusClassifier.BusyMatchesIndicator | public/js/webview.js:85-125 | a status is busy exactly when its label has a live or connecting indicator, or it reads `initializing` |
| StatusClassifier.StatusViewOf | public/js/webview.js:98-130 | the label table, case-insensitively: `active`/`streaming`/`connected` read `Live` with the online indicator; `connecting`/`starting`/`pending` read `Connecting` and `stopping`/`disconnecting` read `Stopping`, both with the connecting indicator; `error`/`failed` read `Error` and `idle`/`ready` read `Ready`, with no indicator; the empty status reads `Offline`; any other is shown verbatim |
| StatusClassifier.BusyIgnoresCase | public/js/webview.js:85-86 | the busy predicate ignores letter case |
| StatusClassifier.ViewIgnoresCase | public/js/webview.js:100-125 | a recognised status has the same label in any letter case |
| StatusClassifier.IdleLabelsNotBusy | public/js/webview.js:85-96 | the statuses the panel writes when it reverts (`Offline`, `offline`, `Error`) are not busy |
| StatusClassifier.OfflineLabel | public/js/webview.js:120-123 | `Offline` is not in the table and is shown as written |
| StatusClassifier.ConnectingBusy | public/js/webview.js:312 | the `Connecting` the panel writes at a start is busy |
| StatusClassifier.StoppingBusy | public/js/webview.js:383 | the `Stopping` the panel writes at a stop is busy |
| StatusClassifier.StatusLogLevel | public/js/webview.js:500-508 | a status change is logged as success exactly for a live label, as a warning exactly for `Stopping`, as an error exactly for `error`/`failed` |
| StatusClassifier.ErrorLevelMatchesLabel | public/js/webview.js:500-508 | the error level and the `Error` label pick out the same statuses |
| ClientLog.PushedAllAppend | public/js/webview.js:217-236 | logging one list of entries and then another is logging their concatenation |
| ClientLog.Pushed | public/js/webview.js:225-230 | after `addLog` the log holds at most 100 entries and the new one is last; below the bound it is appended; at the bound exactly the oldest is dropped |
| ClientLog.LogKeepsNewest | public/js/webview.js:225-230 | after any number of `addLog` calls the log is exactly the newest 100 of everything logged, in order |
| PanelModel.StatusUpdated | public/js/webview.js:98-100 | `updateStatus` stores the status and adopts a truthy type; nothing else changes |
| PanelModel.DisplayUpdated | public/js/webview.js:186-206 | the preview shows exactly for a preview request with a URL, and then plays that URL; the logs view empties the player; other requests show the overlay |
| PanelModel.LevelOf | public/js/webview.js:591-596 | the battery is low up to 20 percent and medium above 20 up to 50 |
| PanelModel.PlatformConfigUpdated | public/js/webview.js:144-172 | `here` forces the relay on; the stream type always follows the relay checkbox |
| PanelModel.MaskHidesKey | public/js/webview.js:366 | a URL built as `base/key` is logged as `base/****` |
| PanelModel.StatusAdopted | public/js/webview.js:494-519 | the status is adopted; a change of an unmanaged stream's status is logged; `isStreaming` becomes the busy flag; button and controls change only when the flag flips |
| PanelModel.StatusLogged | public/js/webview.js:499-510 | the `Status:` line is appended, at the level `StatusLogLevel` gives, exactly when asked; nothing else changes |
| PanelModel.FlagFollowed | public/js/webview.js:512-519 | afterwards `isStreaming` is the busy flag; button and controls are switched to it only when it flipped, and otherwise nothing changes |
| PanelModel.StatusDisplay | public/js/webview.js:522-538 | choosing the display touches only the display and the player; each branch is stated by `NewPreviewLoaded`, `SamePreviewNotReloaded`, `BusyUnmanagedShowsLogs`, `BusyOtherKeepsDisplay` and `IdleSnapshotDisplay` |
| PanelModel.ManagedUrlsPart | public/js/webview.js:542-549 | noting a managed stream's URLs changes only the log and keeps it within the bound |
| PanelModel.UrlNotesLogged | public/js/webview.js:542-549 | the step logs exactly `HLS URL available` when an HLS URL is reported and then `RTMP ingest URL ready` when a direct URL is, both only for a managed stream, and changes nothing else |
| PanelModel.ErrorPart | public/js/webview.js:557-564 | a snapshot without an error text changes nothing; with one, the text is logged at error level, and the status becomes `Error` exactly when the lower-cased text contains `failed` or `error`; nothing else changes |
| PanelModel.CheckLogged | public/js/webview.js:265-282 | the check's logging changes only the log and keeps it within the bound |
| PanelModel.CheckNotesLogged | public/js/webview.js:270-282 | the check logs exactly: nothing when no stream is found; otherwise `Found existing <type> stream`, then for a managed stream the HLS URL if any and the viewer count if reported, or for an unmanaged one the warning naming the app and URL with their `Unknown` defaults; nothing else changes |
| PanelModel.StartBegun | public/js/webview.js:308-324 | the optimistic switch shows `Connecting` with button and controls in streaming mode; the type follows the relay choice; the overlay shows (managed) or the logs (unmanaged); the configuration is unchanged |
| PanelModel.StartReverted | public/js/webview.js:337-345 | a revert shows the given status, leaves streaming mode, sends nothing and logs the error last |
| PanelModel.ManagedRequested | public/js/webview.js:334-348 | the relayed start sends the form's configuration; `ok: false` reverts to `Error` on the overlay; otherwise the state is kept |
| PanelModel.UnmanagedRequested | public/js/webview.js:349-375 | without a URL: revert to `Offline`, nothing sent; with one, that URL is sent with the configuration; `ok: false` reverts to `Error` and keeps the display |
| PanelModel.CloudflareChanged | public/js/webview.js:455-458 | the checkbox state is stored and the stream type follows it; nothing else changes |
| PanelModel.InitialStatusInv | public/js/webview.js:58-77 | adopting the initial status keeps the panel's invariant |
| PanelModel.InitialInv | public/js/webview.js:39-83 | the loaded page satisfies the invariant: bounded log, player source exactly in preview, button and controls following `isStreaming`, a busy status only while streaming |
| PanelModel.SessionPartInv | public/js/webview.js:472-491 | the session-lost step keeps the invariant |
| PanelModel.StatusPartInv | public/js/webview.js:494-538 | the status step keeps the invariant |
| PanelModel.ManagedUrlsPartInv | public/js/webview.js:542-549 | the URL notes keep the invariant |
| PanelModel.ErrorPartInv | public/js/webview.js:557-564 | the error step keeps the invariant |
| PanelModel.StatusEventInv | public/js/webview.js:463-565 | every `status` event keeps the invariant |
| PanelModel.StartBegunInv | public/js/webview.js:308-324 | the optimistic switch satisfies the invariant |
| PanelModel.StartRevertedInv | public/js/webview.js:337-345 | a revert to a non-busy status satisfies the invariant |
| PanelModel.ManagedRequestedInv | public/js/webview.js:334-348 | the relayed request keeps the invariant |
| PanelModel.UnmanagedRequestedInv | public/js/webview.js:349-375 | the direct request keeps the invariant |
| PanelModel.StartInv | public/js/webview.js:296-376 | `startStream` keeps the invariant |
| PanelModel.StopInv | public/js/webview.js:378-395 | `stopStream` keeps the invariant |
| PanelModel.ClickInv | public/js/webview.js:417-458 | the stream button, the platform buttons and the relay checkbox keep the invariant |
| PanelModel.SnapshotSetsBusyFlag | public/js/webview.js:494-519 | after a snapshot with a status and no error the panel holds that status and streams exactly when it is busy |
| PanelModel.SamePreviewNotReloaded | public/js/webview.js:522-527 | while a managed stream is live, a preview URL equal to the one playing leaves the player alone |
| PanelModel.NewPreviewLoaded | public/js/webview.js:522-527 | while a managed stream is live, a different preview URL is loaded into the player |
| PanelModel.BusyUnmanagedShowsLogs | public/js/webview.js:528-530 | a busy snapshot of an unmanaged stream switches to the logs view with an empty player |
| PanelModel.BusyOtherKeepsDisplay | public/js/webview.js:522-531 | a busy snapshot that is neither unmanaged nor managed with a preview URL keeps the display and the player |
| PanelModel.IdleSnapshotDisplay | public/js/webview.js:528-537 | with a non-busy status, the logs stay exactly for an unmanaged stream with a non-empty log, and the overlay shows otherwise |
| PanelModel.StatusDisplaySettles | public/js/webview.js:522-538 | choosing the display a second time for the same snapshot changes nothing |
| PanelModel.AdoptedSettles | public/js/webview.js:494-519 | adopting a status that is already shown and already followed by the flag changes nothing |
| PanelModel.StatusPartSettles | public/js/webview.js:494-538 | running the status step twice on one snapshot equals running it once |
| PanelModel.SnapshotReplayStable | public/js/webview.js:463-565 | replaying a live session's snapshot without an error changes nothing but the log, so the server's periodic resnapshot is harmless |
| PanelModel.SessionPartGone | public/js/webview.js:472-491 | a lost session shows `Offline` and stops; a panel that was streaming logs "Session lost" and keeps the logs only for an unmanaged stream |
| PanelModel.NoSessionEvent | public/js/webview.js:463-565 | the no-session snapshot goes only through the session step and the battery readout |
| PanelModel.SessionLost | public/js/webview.js:472-491 | after the no-session snapshot the panel shows `Offline` and is not streaming; a panel that was streaming has re-enabled its controls, logged "Session lost" last and shows the logs exactly for an unmanaged stream |
| PanelModel.SessionLostReplay | public/js/webview.js:472-491 | a second no-session snapshot changes nothing |
| PanelModel.StartStopGuards | public/js/webview.js:296-395 | `startStream` does nothing while the status is busy and `stopStream` nothing while it is not; a stop shows `Stopping` and sends one stop request for the current type |
| PanelModel.ClickRequests | public/js/webview.js:426-432 | a click sends a stop while a busy stream runs; nothing while streaming with a non-busy status; otherwise the check and at most one start request |
| PanelModel.BegunRequests | public/js/webview.js:324-375 | after the optimistic switch, a start sends no request or exactly one start request carrying the form's configuration |
| PanelModel.StartRequests | public/js/webview.js:296-376 | past its guard, `startStream` sends the stream check and then at most one start request, carrying the form's configuration |
| PanelModel.ManagedStartOutcome | public/js/webview.js:308-348 | a relayed start sends the check and the form's configuration; it stays `Connecting` unless `ok: false` reverts it to `Error` on the overlay |
| PanelModel.NoUrlNoStart | public/js/webview.js:350-360 | a direct start with no usable URL reverts to `Offline` on the overlay, logs the reason last, and sends only the check |
| PanelModel.UnmanagedStartSends | public/js/webview.js:349-375 | a direct start whose form yields a URL sends exactly that URL with the form's configuration, and shows the logs while connecting unless refused |
| PanelModel.UnmanagedStartSendsUrl | public/js/webview.js:349-368 | a direct start sends the URL the platform rule gives for the trimmed inputs, and shows the logs while connecting |
| PanelModel.FailedErrorLeavesStuck | public/js/webview.js:557-564 | a busy snapshot with a "failed" error leaves the panel streaming under a non-busy `Error` label, and the stream button then does nothing |
| WebviewClient.ControlPanel.constructor | public/js/webview.js:39-83 | page load yields `Initial(page)`, which satisfies the invariant |
| WebviewClient.ControlPanel.UpdateStatus | public/js/webview.js:98-100 | performs `StatusUpdated` |
| WebviewClient.ControlPanel.AddLog | public/js/webview.js:225-230 | push then shift performs `LogAdded`, the bounded FIFO of `ClientLog.Pushed` |
| WebviewClient.ControlPanel.UpdateDisplay | public/js/webview.js:186-206 | performs `DisplayUpdated` |
| WebviewClient.ControlPanel.UpdateStreamButton | public/js/webview.js:132-141 | changes only the button |
| WebviewClient.ControlPanel.UpdateControlsState | public/js/webview.js:397-414 | changes only the controls' disabled state |
| WebviewClient.ControlPanel.UpdateBatteryDisplay | public/js/webview.js:575-597 | performs `BatteryShown`: `--` keeps the colour class; a reading sets the class by `LevelOf` |
| WebviewClient.ControlPanel.UpdatePlatformConfig | public/js/webview.js:144-172 | performs `PlatformConfigUpdated` |
| WebviewClient.ControlPanel.AdoptInitialStatus | public/js/webview.js:58-77 | performs `InitialStatus` |
| WebviewClient.ControlPanel.InitializeFromData | public/js/webview.js:39-83 | performs `DataLoaded` |
| WebviewClient.ControlPanel.HandleSessionFlag | public/js/webview.js:472-491 | performs `SessionPart` |
| WebviewClient.ControlPanel.AdoptStatus | public/js/webview.js:494-519 | performs `StatusAdopted` |
| WebviewClient.ControlPanel.ChooseDisplay | public/js/webview.js:522-538 | performs `StatusDisplay` |
| WebviewClient.ControlPanel.NoteManagedUrls | public/js/webview.js:542-549 | performs `ManagedUrlsPart` |
| WebviewClient.ControlPanel.ShowError | public/js/webview.js:557-564 | performs `ErrorPart` |
| WebviewClient.ControlPanel.OnStatus | public/js/webview.js:463-565 | performs `OnStatusEvent` and keeps the invariant |
| WebviewClient.ControlPanel.CheckExistingStream | public/js/webview.js:265-294 | sends the check and performs `CheckLogged` |
| WebviewClient.ControlPanel.BeginStart | public/js/webview.js:308-324 | performs `StartBegun` |
| WebviewClient.ControlPanel.RevertStart | public/js/webview.js:337-345 | performs `StartReverted` |
| WebviewClient.ControlPanel.RequestManagedStart | public/js/webview.js:334-348 | performs `ManagedRequested` |
| WebviewClient.ControlPanel.RequestUnmanagedStart | public/js/webview.js:349-375 | performs `UnmanagedRequested` |
| WebviewClient.ControlPanel.StartStream | public/js/webview.js:296-376 | performs `StartStreamed` |
| WebviewClient.ControlPanel.StopStream | public/js/webview.js:378-395 | performs `StopStreamed` |
| WebviewClient.ControlPanel.ToggleClick | public/js/webview.js:426-432 | performs `ToggleClicked` and keeps the invariant |
| WebviewClient.ControlPanel.PlatformClick | public/js/webview.js:417-424 | ignored while streaming, otherwise `updatePlatformConfig`; keeps the invariant |
| WebviewClient.ControlPanel.CloudflareChange | public/js/webview.js:455-458 | performs `CloudflareChanged` and keeps the invariant |

## Left out

- I/O and transport are not modelled: Express wiring, EJS rendering, HTTP status codes beyond the
  `Reply` tags, `fetch`/`postJson`, `EventSource` reconnection, JSON encoding and parsing. A snapshot
  is an abstract record. A malformed SSE message (`data = {}`) is not modelled.
- Timers are not modelled: the server's heartbeat and periodic resnapshot, and the page-load `setTimeout`.
  `PanelModel.SnapshotReplayStable` covers what a resnapshot does to the panel.
- Asynchrony is not modelled. Each handler is one atomic step; races between the check query and pushes
  are not modelled, and neither are the un-awaited `.then` broadcasts of the tools, which are treated as completing at once.
- The SDK's own calls (camera, layouts, `showTextWall`, subscriptions, cleanup handlers) appear only
  as recorded requests with `Outcome` answers.
- The DOM is not modelled: class lists, section visibility, overlay message text, `alert`, log
  rendering and the SVG toggle markup. The video area is a display mode plus the player's `src`. The
  label is `PanelModel.Label`, a function of the status. The template's label before the first `updateStatus` is left out.
- Typing into the form inputs is a browser action, not part of the script; the inputs appear as fields.
  The browser's normalisation of an assigned `livePlayer.src` is assumed not to change the URL.
- The retry line's text (`retry: 3000`) is not modelled: the hint is the abstract event `RetryHint(3000)`. Only the `event:`/`data:` framing is modelled as text.
- Timestamps of log entries and all `console` output are left out.
- Battery fill width: it is floating-point arithmetic and is left out; the percentage is an integer.
- JsText.Lower: lowers ASCII letters only; `toLowerCase` also maps other Unicode letters. Every status
  word compared against is ASCII.
- The "Active viewers" count is a natural number; other JSON values are not modelled.
- JSON `null` in a request body is treated like an absent key, and tool parameters of a non-string type
  are not modelled.
- Synchronous throws inside the tools' `try` blocks (which would answer `Error: <message>`) are not modelled;
  the camera calls there are not awaited, so only a synchronous throw could reach that branch.
- A `platformUrls` lookup of a key inherited from `Object.prototype` (such as `constructor`) is not modelled.
- AppServer.StreamerApp.OnToolCall: states only the no-session reply. The rest of its behaviour is
  the contract of `Tools.HandleToolCall`, which it calls with the mapped session.
- Tools.HandleToolCall: states the reply as one of the tool's two texts. The exact reply and the
  state change are stated by `Tools.StartStreaming` and `Tools.StopStreaming`.
- AppServer.StreamerApp.OnStop: states the mapping, the trace and the stop requests, not the SDK's internal
  session maps that `super.onStop` clears.
