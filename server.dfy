/** The daemon (src/daemon/server.ts): an HTTP endpoint that ingests hook payloads into the store
    and the log and pushes each accepted event to every connected browser, which first receives a
    snapshot of the store. Each handler runs to completion before the next one starts, so every
    request and every socket event is one step of the state machine below. Fresh ids, clock
    readings and the set of files the web build holds are parameters. */
module Server {
  import opened Wrappers
  import opened Json
  import opened Codec
  import opened Types
  import opened Normalizer
  import opened Store
  import opened Logger

  // ---------------------------------------------------------------- routes

  datatype Route =
    | Upgrade          // the request became a WebSocket
    | Health
    | StatsQuery
    | EventsQuery
    | IngestEvent
    | StaticFile(file: string)
    | NotFound

  /** The file a path names in the web build, `/` standing for `/index.html`. */
  function StaticPath(webDist: string, path: string): string {
    webDist + (if path == "/" then "/index.html" else path)
  }

  /** The order in which `fetch` tries the routes. The web build is served only when its
      directory is configured (a non-empty string) and the file exists there. */
  function RouteOf(upgraded: bool, path: string, verb: string, webDist: Option<string>, files: set<string>): (r: Route)
    ensures upgraded <==> r == Upgrade
    ensures !upgraded && path == "/health" ==> r == Health
    ensures !upgraded && path == "/stats" ==> r == StatsQuery
    ensures !upgraded && path == "/events" ==> r == EventsQuery
    ensures r == IngestEvent <==> !upgraded && path == "/event" && verb == "POST"
    ensures r.StaticFile? ==>
      webDist.Some? && webDist.value != "" && r.file == StaticPath(webDist.value, path) && r.file in files
    ensures r == NotFound ==>
      !upgraded && path !in {"/health", "/stats", "/events"} && !(path == "/event" && verb == "POST")
  {
    if upgraded then Upgrade
    else if path == "/health" then Health
    else if path == "/stats" then StatsQuery
    else if path == "/events" then EventsQuery
    else if path == "/event" && verb == "POST" then IngestEvent
    else if webDist.Some? && webDist.value != "" && StaticPath(webDist.value, path) in files then
      StaticFile(StaticPath(webDist.value, path))
    else NotFound
  }

  /** A `GET /event` is not an ingest, and without a web build it is not found. */
  lemma GetEventIsNotFound(files: set<string>)
    ensures RouteOf(false, "/event", "GET", None, files) == NotFound
  {
  }

  // ---------------------------------------------------------------- messages

  datatype Response = Response(status: int, body: string)

  /** The agent a payload speaks for: `payload.agent_id ?? 'agent-0'`. */
  function AgentOf(fields: Record): (a: Value)
    ensures Field(fields, "agent_id").None? || Field(fields, "agent_id") == Some(Null) ==> a == Str("agent-0")
    ensures Field(fields, "agent_id").Some? && Field(fields, "agent_id") != Some(Null) ==> a == fields["agent_id"]
  {
    Coalesce(Field(fields, "agent_id"), Str("agent-0"))
  }

  /** The properties a parsed body exposes: only an object has named properties. */
  function FieldsOf(v: Value): (r: Record)
    ensures v.Obj? ==> r == v.fields
    ensures !v.Obj? ==> r == map[]
  {
    if v.Obj? then v.fields else map[]
  }

  function Objects(es: seq<Record>): (vs: seq<Value>)
    ensures |vs| == |es|
    ensures forall i :: 0 <= i < |es| ==> vs[i] == Obj(es[i])
  {
    if |es| == 0 then [] else Objects(es[..|es| - 1]) + [Obj(es[|es| - 1])]
  }

  /** The object a new subscriber receives first. */
  function SnapshotValue(es: seq<Record>, stats: SessionStats): Value {
    Obj(map["type" := Str("snapshot"), "events" := Arr(Objects(es)), "stats" := EncodeStats(stats)])
  }

  /** What the daemon sends a subscriber: the snapshot it receives on joining, or one accepted
      event. `Text` is the JSON text that goes over the socket. */
  datatype Frame = SnapshotFrame(events: seq<Record>, stats: SessionStats) | EventFrame(event: Record)

  function FrameValue(f: Frame): Value {
    match f
    case SnapshotFrame(es, stats) => SnapshotValue(es, stats)
    case EventFrame(e) => Obj(e)
  }

  function Text(f: Frame): string {
    Serialize(FrameValue(f))
  }

  /** A subscriber that parses a frame's text gets back the object the daemon sent. */
  lemma TextParses(f: Frame)
    ensures Parse(Text(f)) == Some(FrameValue(f))
  {
    ParseSerialize(FrameValue(f));
  }

  /** The event a `POST /event` body yields, if any: the body must be JSON other than `null`,
      and the normalizer must accept the properties it exposes. */
  function Accepted(body: string, freshId: string, now: int): (r: Option<Record>)
    ensures r.Some? ==> Parse(body).Some? && Parse(body) != Some(Null)
    ensures Parse(body).Some? && Parse(body) != Some(Null) ==>
      r == Normalize(FieldsOf(Parse(body).value), AgentOf(FieldsOf(Parse(body).value)), freshId, now)
  {
    var parsed := Parse(body);
    if parsed.Some? && parsed.value != Null then
      var fields := FieldsOf(parsed.value);
      Normalize(fields, AgentOf(fields), freshId, now)
    else None
  }

  /** The events a `POST /event` body adds to the store: the one it yields, or none. */
  function Stored(body: string, freshId: string, now: int): (es: seq<Record>)
    ensures |es| <= 1
  {
    match Accepted(body, freshId, now)
    case Some(e) => [e]
    case None => []
  }

  /** A body that is not JSON, or that the normalizer turns down, adds nothing; an accepted one
      adds exactly its event. */
  lemma StoredMeaning(body: string, freshId: string, now: int)
    ensures Parse(body).None? ==> Stored(body, freshId, now) == []
    ensures Stored(body, freshId, now) == [] <==> Accepted(body, freshId, now).None?
    ensures Accepted(body, freshId, now).Some? ==> Stored(body, freshId, now) == [Accepted(body, freshId, now).value]
  {
  }

  /** The frames that stream the events `es`, one each, in order. */
  function Broadcasts(es: seq<Record>): (ms: seq<Frame>)
    ensures |ms| == |es|
    ensures forall i :: 0 <= i < |es| ==> ms[i] == EventFrame(es[i])
  {
    if |es| == 0 then [] else Broadcasts(es[..|es| - 1]) + [EventFrame(es[|es| - 1])]
  }

  /** `msgs` is what a subscriber that joined when the store held `joined` has been sent by the
      time the store holds `es`: a snapshot of `joined`, then one message per later event. */
  predicate Joined(msgs: seq<Frame>, es: seq<Record>, joined: seq<Record>, stats: SessionStats) {
    joined <= es && msgs == [SnapshotFrame(joined, stats)] + Broadcasts(es[|joined|..])
  }

  /** A socket that joins now has been sent the snapshot alone. */
  lemma JoinNow(es: seq<Record>, stats: SessionStats)
    ensures Joined([SnapshotFrame(es, stats)], es, es, stats)
  {
    assert es[|es|..] == [];
  }

  /** Broadcasting an accepted event extends what every subscriber has been sent by its message. */
  lemma JoinedAppend(msgs: seq<Frame>, es: seq<Record>, joined: seq<Record>, stats: SessionStats, e: Record)
    requires Joined(msgs, es, joined, stats)
    ensures Joined(msgs + [EventFrame(e)], es + [e], joined, stats)
  {
    var rest := (es + [e])[|joined|..];
    assert rest == es[|joined|..] + [e];
    assert rest[..|rest| - 1] == es[|joined|..];
    assert Broadcasts(rest) == Broadcasts(es[|joined|..]) + [EventFrame(e)];
  }

  /** `msgs` is a snapshot of the first `k` events of `es` followed by the frame of each later
      event, once and in order. */
  predicate Streamed(msgs: seq<Frame>, es: seq<Record>, k: nat, st: SessionStats) {
    k <= |es| && |msgs| == 1 + |es| - k && msgs[0] == SnapshotFrame(es[..k], st) &&
    forall i :: 0 < i < |msgs| ==> msgs[i] == EventFrame(es[k + i - 1])
  }

  lemma JoinedStreams(msgs: seq<Frame>, es: seq<Record>, joined: seq<Record>, st: SessionStats)
    requires Joined(msgs, es, joined, st)
    ensures Streamed(msgs, es, |joined|, st)
  {
    var k := |joined|;
    assert es[..k] == joined;
    var rest := es[k..];
    assert msgs[1..] == Broadcasts(rest);
    forall i | 0 < i < |msgs|
      ensures msgs[i] == EventFrame(es[k + i - 1])
    {
      assert msgs[1..][i - 1] == msgs[i];
      assert rest[i - 1] == es[k + i - 1];
    }
  }

  // ---------------------------------------------------------------- the daemon

  type ClientId = nat

  class Daemon {
    const sessionId: string
    const store: EventStore
    const logger: SessionLogger
    /** The open sockets. */
    var clients: set<ClientId>
    /** Every message each socket has been sent, in order. */
    var inbox: map<ClientId, seq<Frame>>
    /** For each open socket: the events the store held when it joined, and the statistics its
        snapshot carried (those of that moment, as `Open` states). */
    ghost var joinedWith: map<ClientId, seq<Record>>
    ghost var joinStats: map<ClientId, SessionStats>

    /** The log mirrors the store, and every open socket has been sent a snapshot of the store as
        it was when it joined followed by every event accepted since. */
    ghost predicate Valid()
      reads this, store, logger
    {
      store.sessionId == sessionId && logger.sessionId == sessionId &&
      logger.sink == Some(Lines(store.events)) &&
      (forall c :: c in clients ==> c in inbox && c in joinedWith && c in joinStats) &&
      (forall c :: c in clients ==> Joined(inbox[c], store.events, joinedWith[c], joinStats[c]))
    }

    /** `createServer`: a fresh session id, an empty store and an open log. */
    constructor(sessionId: string, startTime: int, home: string)
      ensures Valid() && fresh(store) && fresh(logger)
      ensures store.events == [] && clients == {} && inbox == map[]
      ensures logger.path == Some(LogPath(home, sessionId))
    {
      this.sessionId := sessionId;
      store := new EventStore(sessionId, startTime);
      var l := new SessionLogger(sessionId);
      l.Init(home);
      logger := l;
      clients := {};
      inbox := map[];
      joinedWith := map[];
      joinStats := map[];
    }

    /** `broadcast(data)`: the same text to every open socket, and to no other. */
    method Broadcast(msg: Frame)
      requires clients <= inbox.Keys
      modifies this
      ensures clients == old(clients) && joinedWith == old(joinedWith)
      ensures joinStats == old(joinStats)
      ensures inbox.Keys == old(inbox.Keys)
      ensures forall c :: c in clients ==> inbox[c] == old(inbox[c]) + [msg]
      ensures forall c :: c in inbox && c !in clients ==> inbox[c] == old(inbox[c])
    {
      var remaining := clients;
      while remaining != {}
        invariant remaining <= clients && clients == old(clients)
        invariant joinedWith == old(joinedWith) && joinStats == old(joinStats)
        invariant inbox.Keys == old(inbox.Keys)
        invariant forall c :: c in clients - remaining ==> inbox[c] == old(inbox[c]) + [msg]
        invariant forall c :: c in inbox && (c !in clients || c in remaining) ==> inbox[c] == old(inbox[c])
        decreases remaining
      {
        var c :| c in remaining;
        inbox := inbox[c := inbox[c] + [msg]];
        remaining := remaining - {c};
      }
    }

    /** `POST /event`: 400 for a body that is not JSON; a body that is JSON `null` makes the
        handler throw when it reads `agent_id`, which the runtime answers with 500; otherwise the
        normalized event, if any, is stored, logged and broadcast, in that order, and the answer
        is 200. */
    method Ingest(body: string, freshId: string, now: int) returns (resp: Response)
      requires Valid()
      modifies this, store, logger
      ensures Valid()
      ensures clients == old(clients)
      ensures Parse(body).None? ==> resp == Response(400, "invalid json")
      ensures Parse(body) == Some(Null) ==> resp.status == 500
      ensures Parse(body).Some? && Parse(body) != Some(Null) ==> resp == Response(200, "ok")
      ensures store.events == old(store.events) + Stored(body, freshId, now)
      ensures inbox.Keys == old(inbox.Keys)
      ensures forall c :: c in clients ==> inbox[c] == old(inbox[c]) + Broadcasts(Stored(body, freshId, now))
      ensures forall c :: c in inbox && c !in clients ==> inbox[c] == old(inbox[c])
    {
      var parsed := Parse(body);
      if parsed.None? {
        assert Stored(body, freshId, now) == [];
        return Response(400, "invalid json");
      }
      if parsed.value == Null {
        assert Accepted(body, freshId, now).None?;
        assert Stored(body, freshId, now) == [];
        return Response(500, "internal error");
      }
      var fields := FieldsOf(parsed.value);
      var event := Normalize(fields, AgentOf(fields), freshId, now);
      assert Accepted(body, freshId, now) == event;
      if event.Some? {
        assert Stored(body, freshId, now) == [event.value];
        assert Broadcasts([event.value]) == [EventFrame(event.value)];
        Accept(event.value);
      } else {
        assert Stored(body, freshId, now) == [];
      }
      return Response(200, "ok");
    }

    /** An accepted event is stored, logged and broadcast, in that order. */
    method Accept(e: Record)
      requires Valid()
      modifies this, store, logger
      ensures Valid()
      ensures clients == old(clients)
      ensures store.events == old(store.events) + [e]
      ensures logger.sink == Some(old(logger.sink).value + [Line(e)])
      ensures inbox.Keys == old(inbox.Keys)
      ensures forall c :: c in clients ==> inbox[c] == old(inbox[c]) + [EventFrame(e)]
      ensures forall c :: c in inbox && c !in clients ==> inbox[c] == old(inbox[c])
    {
      ghost var before := store.events;
      ghost var sent := inbox;
      store.Add(e);
      logger.Write(e);
      Broadcast(EventFrame(e));
      forall c | c in clients
        ensures Joined(inbox[c], store.events, joinedWith[c], joinStats[c])
      {
        JoinedAppend(sent[c], before, joinedWith[c], joinStats[c], e);
      }
      assert Lines(store.events) == Lines(before) + [Line(e)] by {
        assert store.events[..|before|] == before;
      }
    }

    /** The WebSocket `open` handler: the socket joins and is sent one snapshot holding the
        store's events and statistics. Each connection is a new socket object, so its id has
        never been seen before. */
    method Open(c: ClientId, now: int)
      requires Valid() && c !in clients && c !in inbox
      modifies this
      ensures Valid()
      ensures clients == old(clients) + {c}
      ensures inbox == old(inbox)[c := [SnapshotFrame(store.events, StatsOf(store.events, sessionId, store.startTime, now))]]
    {
      var stats := StatsOf(store.events, sessionId, store.startTime, now);
      JoinNow(store.events, stats);
      ghost var before := clients;
      clients := clients + {c};
      inbox := inbox[c := [SnapshotFrame(store.events, stats)]];
      joinedWith := joinedWith[c := store.events];
      joinStats := joinStats[c := stats];
      forall d | d in before
        ensures Joined(inbox[d], store.events, joinedWith[d], joinStats[d])
      {
        assert d != c;
      }
    }

    /** The WebSocket `close` handler: the socket leaves and is sent nothing further. */
    method Close(c: ClientId)
      requires Valid()
      modifies this
      ensures Valid()
      ensures clients == old(clients) - {c} && inbox == old(inbox)
    {
      clients := clients - {c};
    }

    /** `fetch(req)`: route the request; `None` when it was upgraded to a WebSocket. A static
        file's answer carries the file's path in place of its contents. */
    method Fetch(upgraded: bool, path: string, verb: string, body: string,
                 webDist: Option<string>, files: set<string>, freshId: string, now: int)
      returns (resp: Option<Response>)
      requires Valid()
      modifies this, store, logger
      ensures Valid()
      ensures var route := RouteOf(upgraded, path, verb, webDist, files);
        (route == Upgrade <==> resp.None?) &&
        (route == Health ==> resp == Some(Response(200, "ok"))) &&
        (route == StatsQuery ==>
          resp == Some(Response(200, Serialize(EncodeStats(StatsOf(store.events, sessionId, store.startTime, now)))))) &&
        (route == EventsQuery ==> resp == Some(Response(200, Serialize(Arr(Objects(store.events)))))) &&
        (route.StaticFile? ==> resp == Some(Response(200, route.file))) &&
        (route == NotFound ==> resp == Some(Response(404, "not found"))) &&
        (route != IngestEvent ==> store.events == old(store.events) && logger.sink == old(logger.sink) &&
                                  clients == old(clients) && inbox == old(inbox))
      ensures RouteOf(upgraded, path, verb, webDist, files) == IngestEvent ==>
        resp.Some? && clients == old(clients) &&
        (Parse(body).None? ==> resp.value == Response(400, "invalid json")) &&
        (Parse(body) == Some(Null) ==> resp.value.status == 500) &&
        (Parse(body).Some? && Parse(body) != Some(Null) ==> resp.value == Response(200, "ok")) &&
        store.events == old(store.events) + Stored(body, freshId, now) &&
        inbox.Keys == old(inbox.Keys) &&
        (forall c :: c in clients ==> inbox[c] == old(inbox[c]) + Broadcasts(Stored(body, freshId, now))) &&
        (forall c :: c in inbox && c !in clients ==> inbox[c] == old(inbox[c]))
    {
      var route := RouteOf(upgraded, path, verb, webDist, files);
      match route
      case Upgrade =>
        resp := None;
      case Health =>
        resp := Some(Response(200, "ok"));
      case StatsQuery =>
        var s := store.GetStats(now);
        resp := Some(Response(200, Serialize(EncodeStats(s))));
      case EventsQuery =>
        var all := store.GetAll();
        resp := Some(Response(200, Serialize(Arr(Objects(all)))));
      case IngestEvent =>
        var r := Ingest(body, freshId, now);
        resp := Some(r);
      case StaticFile(file) =>
        resp := Some(Response(200, file));
      case NotFound =>
        resp := Some(Response(404, "not found"));
    }

    /** No duplicate and no gap: an open socket has been sent a snapshot of the first `k` events
        of the store and then the frame of each later event, once and in order. */
    lemma SnapshotThenStream(c: ClientId)
      requires Valid() && c in clients
      ensures exists k, st :: Streamed(inbox[c], store.events, k, st)
    {
      JoinedStreams(inbox[c], store.events, joinedWith[c], joinStats[c]);
    }
  }

  // ---------------------------------------------------------------- examples

  /** A body that is not JSON is refused. */
  lemma NotJsonIsRefused()
    ensures Parse("not-json").None?
  {
    assert "not-json"[..4] == "not-";
  }
}
