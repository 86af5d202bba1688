/** Where a stream goes for a chosen platform. The platform table and the URL rule are written out
    four times in the repository (public/js/webview.js:9-13 and 174-184, src/webview.ts:128-156,
    src/tools.ts:41-58 and 75-93); `Destination` states the rule once and each call site is proved
    to agree with it. */
module Destinations {
  import opened Wrappers
  import opened JsText

  const YouTubeBase := "rtmps://a.rtmps.youtube.com/live2"
  const TwitchBase := "rtmps://live.twitch.tv/app"
  const InstagramBase := "rtmps://live-upload.instagram.com:443/rtmp"

  /** `platformUrls[platform]`: the RTMP ingest base of the three known services. */
  function PlatformBase(platform: string): (r: Option<string>)
    ensures r.Some? <==> platform in {"youtube", "twitch", "instagram"}
    ensures r.Some? ==> r.value in {YouTubeBase, TwitchBase, InstagramBase}
  {
    if platform == "youtube" then Some(YouTubeBase)
    else if platform == "twitch" then Some(TwitchBase)
    else if platform == "instagram" then Some(InstagramBase)
    else None
  }

  /** The platforms the session type declares and the panel's buttons offer. */
  predicate DeclaredPlatform(platform: string) {
    platform in {"here", "youtube", "twitch", "instagram", "other"}
  }

  /** The one rule: `here` has no external destination; `other` uses the custom URL when it is
      non-empty; a known service with a non-empty key uses `<base>/<key>`; anything else has none. */
  function Destination(platform: string, key: string, custom: string): (r: Option<string>)
    ensures platform == "here" ==> r == None
    ensures platform == "other" ==> (r.Some? <==> custom != "") && (r.Some? ==> r.value == custom)
    ensures platform != "other" ==>
      (r.Some? <==> PlatformBase(platform).Some? && key != "")
      && (r.Some? ==> r.value == PlatformBase(platform).value + "/" + key)
    ensures r.Some? ==> r.value != ""
  {
    if platform == "other" then (if custom != "" then Some(custom) else None)
    else match PlatformBase(platform)
      case Some(base) => if key != "" then Some(base + "/" + key) else None
      case None => None
  }

  /** The managed-start route's restream URL, from the saved (possibly absent) configuration
      (src/webview.ts:128-144). */
  function RouteRestreamUrl(platform: Option<string>, key: Option<string>, custom: Option<string>): Option<string> {
    if !Truthy(platform) || platform.value == "here" then None
    else if platform.value == "other" then OrNull(custom)
    else match PlatformBase(platform.value)
      case Some(base) => if Truthy(key) then Some(base + "/" + key.value) else None
      case None => None
  }

  /** The route agrees with the rule; an absent or empty platform, like `here`, has no destination. */
  lemma RouteRestreamAgrees(platform: Option<string>, key: Option<string>, custom: Option<string>)
    ensures RouteRestreamUrl(platform, key, custom) ==
            if Truthy(platform) then Destination(platform.value, key.GetOr(""), custom.GetOr("")) else None
  {
  }

  /** The tool's restream URL for the managed path (src/tools.ts:41-56). */
  function ToolRestreamUrl(platform: string, key: string, custom: string): Option<string> {
    if platform == "here" then None
    else if platform == "other" then (if custom != "" then Some(custom) else None)
    else match PlatformBase(platform)
      case Some(base) => if key != "" then Some(base + "/" + key) else None
      case None => None
  }

  lemma ToolRestreamAgrees(platform: string, key: string, custom: string)
    ensures ToolRestreamUrl(platform, key, custom) == Destination(platform, key, custom)
  {
  }

  /** The tool's RTMP URL for the unmanaged path (src/tools.ts:75-89): for `other` the custom URL
      as it is, possibly empty, which the caller then rejects with `!rtmpUrl`. */
  function ToolRtmpUrl(platform: string, key: string, custom: string): Option<string> {
    if platform == "other" then Some(custom)
    else match PlatformBase(platform)
      case Some(base) => if key != "" then Some(base + "/" + key) else None
      case None => None
  }

  /** After the `!rtmpUrl` check, the unmanaged tool path agrees with the rule. */
  lemma ToolRtmpAgrees(platform: string, key: string, custom: string)
    ensures OrNull(ToolRtmpUrl(platform, key, custom)) == Destination(platform, key, custom)
  {
  }

  /** The panel's `getRtmpUrl` (public/js/webview.js:174-184) over the trimmed form inputs. For a
      platform outside the table the template literal renders the missing base as `undefined`. */
  function GetRtmpUrl(platform: string, keyInput: string, urlInput: string): Option<string> {
    if platform == "here" then None
    else if platform == "other" then Some(Trim(urlInput))
    else
      var key := Trim(keyInput);
      if key != "" then Some(PlatformBase(platform).GetOr("undefined") + "/" + key) else None
  }

  /** For every declared platform, what the panel accepts (a truthy `getRtmpUrl()`) is the rule
      applied to the trimmed inputs. */
  lemma {:induction false} GetRtmpUrlAgrees(platform: string, keyInput: string, urlInput: string)
    requires DeclaredPlatform(platform)
    ensures OrNull(GetRtmpUrl(platform, keyInput, urlInput)) == Destination(platform, Trim(keyInput), Trim(urlInput))
  {
  }

  /** For a platform outside the table (one saved through a tool call, say) the panel builds a URL
      with the literal text `undefined` where the rule has no destination at all. */
  lemma UnlistedPlatformUrl(platform: string, keyInput: string, urlInput: string)
    requires platform !in {"here", "other"} && PlatformBase(platform).None?
    requires Trim(keyInput) != ""
    ensures GetRtmpUrl(platform, keyInput, urlInput) == Some("undefined/" + Trim(keyInput))
    ensures Destination(platform, Trim(keyInput), Trim(urlInput)) == None
  {
    assert "undefined" + "/" + Trim(keyInput) == "undefined/" + Trim(keyInput);
  }
}
