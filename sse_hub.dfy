/** The observer registry `sseClientsByUser` and the event stream written to each observer
    (src/webview.ts:49-111, 392-412). */
module SseHub {
  import opened Wrappers
  import opened StatusPayload
  import JsText

  type UserId = string

  /** An open `/stream-status` response. Express creates a new one per request; the model numbers them. */
  type ClientId = nat

  /** What a handler writes on an observer's stream: the reconnection hint or a named `status` event. */
  datatype Event = RetryHint(ms: nat) | Status(payload: Payload)

  /** One write, in the order the server performed it. */
  datatype Write = Write(client: ClientId, event: Event)

  /** The reconnection delay announced to every new observer (src/webview.ts:64). */
  const RetryMs: nat := 3000

  /** No connection occurs twice. A JavaScript `Set` iterates in insertion order, so each user's set
      is kept as a duplicate-free sequence in that order. */
  predicate Distinct(cs: seq<ClientId>) {
    forall i, j :: 0 <= i < j < |cs| ==> cs[i] != cs[j]
  }

  /** The writes `broadcastStreamStatus` performs for the connections `cs`, one event each, in order. */
  function Fanout(cs: seq<ClientId>, e: Event): (w: seq<Write>)
    ensures |w| == |cs|
    ensures forall i :: 0 <= i < |cs| ==> w[i] == Write(cs[i], e)
  {
    if cs == [] then [] else Fanout(cs[..|cs| - 1], e) + [Write(cs[|cs| - 1], e)]
  }

  /** How many of the writes `w` go to connection `c`. */
  function WritesTo(w: seq<Write>, c: ClientId): nat {
    if w == [] then 0 else WritesTo(w[..|w| - 1], c) + (if w[|w| - 1].client == c then 1 else 0)
  }

  lemma {:induction false} WritesToAppend(w: seq<Write>, x: seq<Write>, c: ClientId)
    ensures WritesTo(w + x, c) == WritesTo(w, c) + WritesTo(x, c)
  {
    if x != [] {
      assert (w + x)[..|w + x| - 1] == w + x[..|x| - 1];
      WritesToAppend(w, x[..|x| - 1], c);
    } else {
      assert w + x == w;
    }
  }

  /** A fan-out over duplicate-free connections reaches each registered connection exactly once
      and no other connection. */
  lemma {:induction false} FanoutReachesEachOnce(cs: seq<ClientId>, e: Event, c: ClientId)
    requires Distinct(cs)
    ensures WritesTo(Fanout(cs, e), c) == if c in cs then 1 else 0
  {
    if cs != [] {
      var init := cs[..|cs| - 1];
      assert Fanout(cs, e)[..|cs| - 1] == Fanout(init, e);
      FanoutReachesEachOnce(init, e, c);
      assert c in cs <==> c in init || c == cs[|cs| - 1];
      assert cs[|cs| - 1] !in init;
    }
  }

  /** `sseClientsByUser`: every entry is non-empty, without duplicates, and no connection is
      registered under two users. */
  predicate WellFormed(m: map<UserId, seq<ClientId>>) {
    && (forall u :: u in m ==> m[u] != [] && Distinct(m[u]))
    && (forall u, v, c :: u in m && v in m && c in m[u] && c in m[v] ==> u == v)
  }

  /** The connections registered for `u`; an absent entry is treated as an empty set. */
  function ClientsOf(m: map<UserId, seq<ClientId>>, u: UserId): (cs: seq<ClientId>)
    ensures u !in m ==> cs == []
  {
    if u in m then m[u] else []
  }

  /** The writes of one `broadcastStreamStatus(u, p)` against the registry `m`. */
  function Published(m: map<UserId, seq<ClientId>>, u: UserId, p: Payload): (w: seq<Write>)
    ensures |w| == |ClientsOf(m, u)|
    ensures forall i :: 0 <= i < |w| ==> w[i].event == Status(p) && w[i].client in m[u]
  {
    Fanout(ClientsOf(m, u), Status(p))
  }

  predicate Registered(m: map<UserId, seq<ClientId>>, c: ClientId) {
    exists u :: u in m && c in m[u]
  }

  /** Subscribing: create the user's set if absent, then add the connection (src/webview.ts:72-77). */
  function Added(m: map<UserId, seq<ClientId>>, u: UserId, c: ClientId): (m': map<UserId, seq<ClientId>>)
    ensures m'.Keys == m.Keys + {u}
    ensures ClientsOf(m', u) == ClientsOf(m, u) + [c]
    ensures forall v :: v in m && v != u ==> m'[v] == m[v]
  {
    m[u := ClientsOf(m, u) + [c]]
  }

  /** `set.delete(c)` on a duplicate-free sequence. */
  function Without(cs: seq<ClientId>, c: ClientId): (r: seq<ClientId>)
    ensures forall x :: x in r <==> x in cs && x != c
    ensures |r| <= |cs|
    ensures Distinct(cs) ==> Distinct(r)
    ensures c !in cs ==> r == cs
  {
    if cs == [] then []
    else if cs[0] == c then Without(cs[1..], c)
    else
      assert Distinct(cs) ==> Distinct(cs[1..]) && cs[0] !in cs[1..];
      [cs[0]] + Without(cs[1..], c)
  }

  /** Closing: remove the connection and drop the user's entry once its set is empty
      (src/webview.ts:103-109). */
  function Removed(m: map<UserId, seq<ClientId>>, u: UserId, c: ClientId): (m': map<UserId, seq<ClientId>>)
    ensures forall v :: v in m && v != u ==> v in m' && m'[v] == m[v]
    ensures ClientsOf(m', u) == Without(ClientsOf(m, u), c)
    ensures m'.Keys <= m.Keys
  {
    if u !in m then m
    else
      var rest := Without(m[u], c);
      if rest == [] then m - {u} else m[u := rest]
  }

  /** Adding a connection nobody holds keeps the registry well formed. */
  lemma AddedWellFormed(m: map<UserId, seq<ClientId>>, u: UserId, c: ClientId)
    requires WellFormed(m) && !Registered(m, c)
    ensures WellFormed(Added(m, u, c))
  {
    var m' := Added(m, u, c);
    forall v | v in m'
      ensures m'[v] != [] && Distinct(m'[v])
    {
      if v == u {
        assert c !in ClientsOf(m, u);
      }
    }
    forall v, w, x | v in m' && w in m' && x in m'[v] && x in m'[w]
      ensures v == w
    {
      if x == c {
        assert v == u && w == u;
      }
    }
  }

  /** Closing keeps the registry well formed; in particular it never holds an empty set. */
  lemma RemovedWellFormed(m: map<UserId, seq<ClientId>>, u: UserId, c: ClientId)
    requires WellFormed(m)
    ensures WellFormed(Removed(m, u, c))
    ensures forall v :: v in Removed(m, u, c) ==> Removed(m, u, c)[v] != []
  {
  }

  /** Closing twice is closing once: the second removal is a no-op. */
  lemma RemovedIdempotent(m: map<UserId, seq<ClientId>>, u: UserId, c: ClientId)
    requires WellFormed(m)
    ensures Removed(Removed(m, u, c), u, c) == Removed(m, u, c)
  {
    var m1 := Removed(m, u, c);
    if u in m1 {
      assert c !in m1[u];
    }
  }

  /** Closing a connection right after subscribing it restores the registry exactly. */
  lemma {:induction false} CloseUndoesSubscribe(m: map<UserId, seq<ClientId>>, u: UserId, c: ClientId)
    requires WellFormed(m) && !Registered(m, c)
    ensures Removed(Added(m, u, c), u, c) == m
  {
    var cs := ClientsOf(m, u);
    assert c !in cs;
    WithoutAppended(cs, c);
    var m2 := Removed(Added(m, u, c), u, c);
    if u in m {
      assert m2 == m[u := cs];
    } else {
      assert m2 == m;
    }
  }

  lemma {:induction false} WithoutAppended(cs: seq<ClientId>, c: ClientId)
    requires c !in cs
    ensures Without(cs + [c], c) == cs
  {
    if cs != [] {
      assert (cs + [c])[1..] == cs[1..] + [c];
      WithoutAppended(cs[1..], c);
    }
  }

  /** A broadcast for `u` writes nothing to a connection registered under another user. */
  lemma BroadcastStaysWithUser(m: map<UserId, seq<ClientId>>, u: UserId, v: UserId, c: ClientId, e: Event)
    requires WellFormed(m) && v in m && c in m[v] && u != v
    ensures WritesTo(Fanout(ClientsOf(m, u), e), c) == 0
  {
    assert c !in ClientsOf(m, u);
    FanoutReachesEachOnce(ClientsOf(m, u), e, c);
  }

  /** `writeSseEvent` framing: `event: <name>\n` then `data: <json>\n\n` (src/webview.ts:406-409).
      This is how each status `Write` in a `Hub` trace reaches the wire: `Write(c, Status(v))` is
      `Frame("status", <v as JSON>)` on connection `c`. The trace keeps the abstract event, and
      `FrameRoundTrip` shows the framing loses nothing. */
  function Frame(name: string, data: string): (s: string)
    ensures |s| == |name| + |data| + 16
  {
    "event: " + name + "\n" + "data: " + data + "\n\n"
  }

  /** The first position of `c` in `s`. */
  function IndexOf(s: string, c: char): (r: Option<nat>)
    ensures r.Some? ==> r.value < |s| && s[r.value] == c && c !in s[..r.value]
    ensures r.None? ==> c !in s
  {
    if s == [] then None
    else if s[0] == c then Some(0)
    else match IndexOf(s[1..], c)
      case None => None
      case Some(k) => assert s[..k + 1] == [s[0]] + s[1..][..k]; Some(k + 1)
  }

  /** How an event-stream reader splits one frame back into its event name and its data line. */
  function ParseFrame(s: string): Option<(string, string)> {
    if |s| < 7 || s[..7] != "event: " then None
    else
      var rest := s[7..];
      match IndexOf(rest, '\n')
      case None => None
      case Some(k) =>
        var after := rest[k + 1..];
        if |after| < 8 || after[..6] != "data: " || after[|after| - 2..] != "\n\n" then None
        else
          var data := after[6..|after| - 2];
          if '\n' in data then None else Some((rest[..k], data))
  }

  /** The first line break of `a + "\n" + b` ends `a` when `a` has none. */
  lemma IndexOfFirst(a: string, b: string, c: char)
    requires c !in a
    ensures IndexOf(a + [c] + b, c) == Some(|a|)
  {
    var s := a + [c] + b;
    assert s[|a|] == c && s[..|a|] == a;
  }

  /** Reading a frame back yields the event name and the data it was written with, provided
      neither contains a line break (`JSON.stringify` never emits one). */
  lemma FrameRoundTrip(name: string, data: string)
    requires '\n' !in name && '\n' !in data
    ensures ParseFrame(Frame(name, data)) == Some((name, data))
  {
    var s := Frame(name, data);
    var after := "data: " + data + "\n\n";
    var rest := name + "\n" + after;
    assert s == "event: " + rest;
    assert s[..7] == "event: " && s[7..] == rest;
    IndexOfFirst(name, after, '\n');
    assert rest[..|name|] == name && rest[|name| + 1..] == after;
    assert after[..6] == "data: " && after[|after| - 2..] == "\n\n";
    assert after[6..|after| - 2] == data;
  }

  /** The registry and the output trace of `broadcastStreamStatus` and the `/stream-status` route. */
  class Hub {
    var clients: map<UserId, seq<ClientId>>
    var trace: seq<Write>
    var nextClient: ClientId

    ghost predicate Valid()
      reads this
    {
      && WellFormed(clients)
      && forall u, c :: u in clients && c in clients[u] ==> c < nextClient
    }

    constructor ()
      ensures Valid() && clients == map[] && trace == []
    {
      clients, trace, nextClient := map[], [], 0;
    }

    /** GET /stream-status: 401 without an authenticated user; otherwise write the retry hint and one
        initial `status` event, then register the new connection under the user. */
    method Subscribe(authUser: Option<UserId>, initial: Payload) returns (r: Option<ClientId>)
      requires Valid()
      modifies this
      ensures Valid()
      ensures authUser.None? ==> r == None && clients == old(clients) && trace == old(trace)
      ensures authUser.Some? ==>
        && r == Some(old(nextClient))
        && trace == old(trace) + [Write(r.value, RetryHint(RetryMs)), Write(r.value, Status(initial))]
        && clients == Added(old(clients), authUser.value, r.value)
        && !Registered(old(clients), r.value)
    {
      if authUser.None? {
        return None;
      }
      var c := nextClient;
      nextClient := nextClient + 1;
      trace := trace + [Write(c, RetryHint(RetryMs))];
      trace := trace + [Write(c, Status(initial))];
      assert !Registered(clients, c);
      AddedWellFormed(clients, authUser.value, c);
      clients := Added(clients, authUser.value, c);
      r := Some(c);
    }

    /** The request's `close` handler for connection `c` of user `u`. */
    method Close(u: UserId, c: ClientId)
      requires Valid()
      modifies this
      ensures Valid()
      ensures clients == Removed(old(clients), u, c)
      ensures trace == old(trace) && nextClient == old(nextClient)
    {
      RemovedWellFormed(clients, u, c);
      if u in clients {
        var rest := Without(clients[u], c);
        if rest == [] {
          clients := clients - {u};
        } else {
          clients := clients[u := rest];
        }
      }
    }

    /** `broadcastStreamStatus(u, p)`: one `status` event to each of the user's connections, in
        registration order; nothing when the user has none. */
    method Broadcast(u: UserId, p: Payload)
      requires Valid()
      modifies this
      ensures Valid()
      ensures trace == old(trace) + Published(clients, u, p)
      ensures clients == old(clients) && nextClient == old(nextClient)
    {
      var cs := ClientsOf(clients, u);
      if cs == [] {
        return;
      }
      var i := 0;
      while i < |cs|
        invariant 0 <= i <= |cs|
        invariant trace == old(trace) + Fanout(cs[..i], Status(p))
        invariant clients == old(clients) && nextClient == old(nextClient)
      {
        assert cs[..i + 1][..i] == cs[..i];
        trace := trace + [Write(cs[i], Status(p))];
        i := i + 1;
      }
      assert cs[..|cs|] == cs;
    }
  }
}
