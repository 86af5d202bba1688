/** The control panel's log (public/js/webview.js:6-7, 217-236): a FIFO that keeps the newest
    `MaxLogs` entries. The timestamp of an entry is left out. */
module ClientLog {
  datatype LogLevel = Info | Success | Warning | Error

  datatype LogEntry = LogEntry(level: LogLevel, message: string)

  const MaxLogs: nat := 100

  /** `addLog`: append the entry, then drop the oldest one if the log has grown past the bound. */
  function Pushed(logs: seq<LogEntry>, e: LogEntry): (r: seq<LogEntry>)
    ensures |logs| <= MaxLogs ==> |r| <= MaxLogs
    ensures r != [] && r[|r| - 1] == e
    ensures |logs| < MaxLogs ==> r == logs + [e]
    ensures |logs| == MaxLogs ==> r == logs[1..] + [e]
  {
    var grown := logs + [e];
    if |grown| > MaxLogs then grown[1..] else grown
  }

  /** The newest `n` elements of `s` (all of them when there are fewer). */
  function Newest<T>(s: seq<T>, n: nat): (r: seq<T>)
    ensures |r| == if |s| < n then |s| else n
  {
    if |s| <= n then s else s[|s| - n..]
  }

  /** `addLog` called once for each entry of `es`, in order. */
  function PushedAll(logs: seq<LogEntry>, es: seq<LogEntry>): seq<LogEntry>
    decreases |es|
  {
    if es == [] then logs else PushedAll(Pushed(logs, es[0]), es[1..])
  }

  /** Logging one entry through `PushedAll` is one `addLog`. */
  lemma PushedOne(logs: seq<LogEntry>, e: LogEntry)
    ensures PushedAll(logs, [e]) == Pushed(logs, e)
  {
    assert [e][1..] == [];
  }

  /** Logging `es` and then `fs` is logging `es + fs`. */
  lemma {:induction false} PushedAllAppend(logs: seq<LogEntry>, es: seq<LogEntry>, fs: seq<LogEntry>)
    ensures PushedAll(logs, es + fs) == PushedAll(PushedAll(logs, es), fs)
    decreases |es|
  {
    if es != [] {
      assert (es + fs)[0] == es[0] && (es + fs)[1..] == es[1..] + fs;
      PushedAllAppend(Pushed(logs, es[0]), es[1..], fs);
    } else {
      assert es + fs == fs;
    }
  }

  /** Keeping the newest `n` and then appending and keeping the newest `n` again is the same as
      appending first. */
  lemma NewestOfNewest<T>(s: seq<T>, t: seq<T>, n: nat)
    ensures Newest(Newest(s, n) + t, n) == Newest(s + t, n)
  {
    if |s| > n {
      var k := |s| - n;
      assert s + t == s[..k] + (s[k..] + t);
      assert (s + t)[k..] == s[k..] + t;
    }
  }

  /** However many entries are logged, starting from a log within the bound, the log holds exactly
      the newest `MaxLogs` of everything logged, in order. */
  lemma {:induction false} LogKeepsNewest(logs: seq<LogEntry>, es: seq<LogEntry>)
    requires |logs| <= MaxLogs
    ensures PushedAll(logs, es) == Newest(logs + es, MaxLogs)
    decreases |es|
  {
    if es == [] {
      assert logs + es == logs;
    } else {
      var next := Pushed(logs, es[0]);
      assert next == Newest(logs + [es[0]], MaxLogs);
      LogKeepsNewest(next, es[1..]);
      NewestOfNewest(logs + [es[0]], es[1..], MaxLogs);
      assert logs + [es[0]] + es[1..] == logs + es;
    }
  }
}
