/** The web client's event state: the list of events, the latest statistics, the connection
    flag and the most recent event, kept up to date from the daemon's socket messages or taken
    once from a snapshot embedded in an exported page. */
module EventContext {
  import opened Wrappers
  import opened Json
  import opened Codec
  import opened Types
  import opened Server

  /** The part of the client state the socket messages change. `None` stands for `null`. */
  datatype View = View(events: seq<Value>, stats: Option<Value>, latest: Option<Value>)

  /** The items of a list value; anything else holds no events. */
  function ListOf(o: Option<Value>): (vs: seq<Value>)
    ensures o.Some? && o.value.Arr? ==> vs == o.value.items
  {
    if o.Some? && o.value.Arr? then o.value.items else []
  }

  predicate IsSnapshot(msg: Value) {
    Member(msg, "type") == Some(Str("snapshot"))
  }

  /** The state after one socket message: a snapshot replaces the events and statistics, any
      other object is appended as an event and becomes the latest one. Text that does not parse,
      and `null`, throw in the handler and change nothing. */
  function Receive(v: View, data: string): (w: View)
    ensures Parse(data).None? || Parse(data) == Some(Null) ==> w == v
    ensures Parse(data).Some? && IsSnapshot(Parse(data).value) ==>
      w == View(ListOf(Member(Parse(data).value, "events")), Member(Parse(data).value, "stats"), v.latest)
    ensures Parse(data).Some? && Parse(data) != Some(Null) && !IsSnapshot(Parse(data).value) ==>
      w == View(v.events + [Parse(data).value], v.stats, Some(Parse(data).value))
  {
    var parsed := Parse(data);
    if parsed.None? || parsed.value == Null then v
    else if IsSnapshot(parsed.value) then
      View(ListOf(Member(parsed.value, "events")), Member(parsed.value, "stats"), v.latest)
    else
      View(v.events + [parsed.value], v.stats, Some(parsed.value))
  }

  /** The state after a sequence of messages, in order. */
  function ReceiveAll(v: View, datas: seq<string>): View {
    if |datas| == 0 then v else Receive(ReceiveAll(v, datas[..|datas| - 1]), datas[|datas| - 1])
  }

  /** The texts of the frames a subscriber is sent. */
  function Texts(msgs: seq<Frame>): (ts: seq<string>)
    ensures |ts| == |msgs|
  {
    if |msgs| == 0 then [] else Texts(msgs[..|msgs| - 1]) + [Text(msgs[|msgs| - 1])]
  }

  /** No event from position `k` on carries the snapshot tag. */
  predicate PlainFrom(es: seq<Record>, k: nat) {
    forall i :: k <= i < |es| ==> Field(es[i], "type") != Some(Str("snapshot"))
  }

  /** A client receiving a snapshot frame holds its events and statistics. */
  lemma ReceiveSnapshot(v: View, data: string, es: seq<Record>, st: SessionStats)
    requires Parse(data) == Some(SnapshotValue(es, st))
    ensures Receive(v, data) == View(Objects(es), Some(EncodeStats(st)), v.latest)
  {
    assert Member(SnapshotValue(es, st), "events") == Some(Arr(Objects(es)));
  }

  /** A client receiving an event frame appends the event and makes it the latest one. */
  lemma ReceiveEvent(v: View, data: string, e: Record)
    requires Parse(data) == Some(Obj(e)) && Field(e, "type") != Some(Str("snapshot"))
    ensures Receive(v, data) == View(v.events + [Obj(e)], v.stats, Some(Obj(e)))
  {
    assert Member(Obj(e), "type") != Some(Str("snapshot"));
  }

  /** What a client does with a frame it has parsed. */
  function ApplyFrame(v: View, f: Frame): View {
    match f
    case SnapshotFrame(es, st) => View(Objects(es), Some(EncodeStats(st)), v.latest)
    case EventFrame(e) => View(v.events + [Obj(e)], v.stats, Some(Obj(e)))
  }

  function ApplyAll(v: View, msgs: seq<Frame>): View {
    if |msgs| == 0 then v else ApplyFrame(ApplyAll(v, msgs[..|msgs| - 1]), msgs[|msgs| - 1])
  }

  /** A frame the client reads as what it is: a snapshot, or an event not tagged `snapshot`. */
  predicate PlainFrame(f: Frame) {
    f.EventFrame? ==> Field(f.event, "type") != Some(Str("snapshot"))
  }

  /** Receiving a plain frame's text does what the frame means. */
  lemma ReceiveFrame(v: View, f: Frame)
    requires PlainFrame(f)
    ensures Receive(v, Text(f)) == ApplyFrame(v, f)
  {
    TextParses(f);
    match f
    case SnapshotFrame(es, st) => ReceiveSnapshot(v, Text(f), es, st);
    case EventFrame(e) => ReceiveEvent(v, Text(f), e);
  }

  /** Receiving the texts of plain frames one by one does what the frames mean. */
  lemma {:induction false} ReceiveFrames(v: View, msgs: seq<Frame>)
    requires forall i :: 0 <= i < |msgs| ==> PlainFrame(msgs[i])
    ensures ReceiveAll(v, Texts(msgs)) == ApplyAll(v, msgs)
  {
    if |msgs| > 0 {
      var n := |msgs| - 1;
      ReceiveFrames(v, msgs[..n]);
      var ts := Texts(msgs);
      assert ts == Texts(msgs[..n]) + [Text(msgs[n])];
      assert ts[..n] == Texts(msgs[..n]);
      ReceiveFrame(ApplyAll(v, msgs[..n]), msgs[n]);
    }
  }

  /** One more frame of a prefix, applied. */
  lemma ApplyNext(v: View, msgs: seq<Frame>, n: nat)
    requires n < |msgs|
    ensures ApplyAll(v, msgs[..n + 1]) == ApplyFrame(ApplyAll(v, msgs[..n]), msgs[n])
  {
    assert msgs[..n + 1][..n] == msgs[..n];
  }

  lemma ObjectsNext(es: seq<Record>, n: nat)
    requires n < |es|
    ensures Objects(es[..n + 1]) == Objects(es[..n]) + [Obj(es[n])]
  {
    assert es[..n + 1][..n] == es[..n];
  }

  /** A stream without its last frame is the stream of the store without its last event. */
  lemma StreamedInit(msgs: seq<Frame>, es: seq<Record>, k: nat, st: SessionStats)
    requires Streamed(msgs, es, k, st) && k < |es|
    ensures Streamed(msgs[..|msgs| - 1], es[..|es| - 1], k, st)
  {
    assert es[..|es| - 1][..k] == es[..k];
  }

  /** A client that applies a whole stream holds the store's events, the snapshot's statistics,
      and the last streamed event as the latest one. */
  lemma {:induction false} StreamApplied(v: View, msgs: seq<Frame>, es: seq<Record>, k: nat, st: SessionStats)
    requires Streamed(msgs, es, k, st)
    ensures ApplyAll(v, msgs).events == Objects(es)
    ensures ApplyAll(v, msgs).stats == Some(EncodeStats(st))
    ensures k < |es| ==> ApplyAll(v, msgs).latest == Some(Obj(es[|es| - 1]))
  {
    var n := |msgs| - 1;
    if n == 0 {
      ApplyNext(v, msgs, n);
      assert msgs[..1] == msgs && msgs[..0] == [];
      StreamStart(v, msgs, es, k, st);
    } else {
      var w := ApplyAll(v, msgs[..n]);
      assert w.events == Objects(es[..|es| - 1]) && w.stats == Some(EncodeStats(st)) by {
        StreamedInit(msgs, es, k, st);
        StreamApplied(v, msgs[..n], es[..|es| - 1], k, st);
      }
      assert msgs[n] == EventFrame(es[|es| - 1]);
      StreamNext(v, msgs, es, st);
    }
  }

  /** The inductive step: a client that holds the stream without its last frame ends up
      holding the whole store once it applies that frame. */
  lemma StreamNext(v: View, msgs: seq<Frame>, es: seq<Record>, st: SessionStats)
    requires |msgs| > 0 && |es| > 0 && msgs[|msgs| - 1] == EventFrame(es[|es| - 1])
    requires ApplyAll(v, msgs[..|msgs| - 1]).events == Objects(es[..|es| - 1])
    requires ApplyAll(v, msgs[..|msgs| - 1]).stats == Some(EncodeStats(st))
    ensures ApplyAll(v, msgs).events == Objects(es)
    ensures ApplyAll(v, msgs).stats == Some(EncodeStats(st))
    ensures ApplyAll(v, msgs).latest == Some(Obj(es[|es| - 1]))
  {
    var n := |msgs| - 1;
    ApplyNext(v, msgs, n);
    assert msgs[..n + 1] == msgs;
    StreamStep(ApplyAll(v, msgs[..n]), msgs[n], es);
  }

  /** A stream of the snapshot alone leaves the client holding the snapshot. */
  lemma StreamStart(v: View, msgs: seq<Frame>, es: seq<Record>, k: nat, st: SessionStats)
    requires Streamed(msgs, es, k, st) && |msgs| == 1
    ensures ApplyFrame(v, msgs[0]) == View(Objects(es), Some(EncodeStats(st)), v.latest)
  {
    assert es[..k] == es;
  }

  /** The last frame of a longer stream appends the store's last event. */
  lemma StreamStep(w: View, f: Frame, es: seq<Record>)
    requires |es| > 0 && f == EventFrame(es[|es| - 1]) && w.events == Objects(es[..|es| - 1])
    ensures ApplyFrame(w, f) == View(Objects(es), w.stats, Some(Obj(es[|es| - 1])))
  {
    ObjectsNext(es, |es| - 1);
    assert es[..|es|] == es;
  }

  /** The frames of a stream whose events are untagged are all plain. */
  lemma StreamedPlain(msgs: seq<Frame>, es: seq<Record>, k: nat, st: SessionStats)
    requires Streamed(msgs, es, k, st) && PlainFrom(es, k)
    ensures forall i :: 0 <= i < |msgs| ==> PlainFrame(msgs[i])
  {
    forall i | 0 <= i < |msgs| ensures PlainFrame(msgs[i]) {
      if i > 0 {
        assert msgs[i] == EventFrame(es[k + i - 1]);
      }
    }
  }

  /** A client that parses every frame the daemon sent it ends with exactly the daemon's events,
      the statistics of its snapshot, and the last streamed event as the latest one, provided no
      streamed event carries the snapshot tag. */
  lemma ClientSeesStream(v: View, msgs: seq<Frame>, es: seq<Record>, k: nat, st: SessionStats)
    requires Streamed(msgs, es, k, st) && PlainFrom(es, k)
    ensures ReceiveAll(v, Texts(msgs)).events == Objects(es)
    ensures ReceiveAll(v, Texts(msgs)).stats == Some(EncodeStats(st))
    ensures k < |es| ==> ReceiveAll(v, Texts(msgs)).latest == Some(Obj(es[|es| - 1]))
  {
    StreamedPlain(msgs, es, k, st);
    ReceiveFrames(v, msgs);
    StreamApplied(v, msgs, es, k, st);
  }

  /** The same, for a subscriber of a running daemon: whatever the client held before, after
      its inbox it holds the store's events. */
  lemma ClientSeesStore(d: Daemon, c: ClientId, v: View)
    requires d.Valid() && c in d.clients && PlainFrom(d.store.events, 0)
    ensures ReceiveAll(v, Texts(d.inbox[c])).events == Objects(d.store.events)
  {
    d.SnapshotThenStream(c);
    var k, st :| Streamed(d.inbox[c], d.store.events, k, st);
    ClientSeesStream(v, d.inbox[c], d.store.events, k, st);
  }

  /** The daemon stores a replayed event whose tag is `snapshot`. */
  lemma SnapshotTaggedEventIsStored(freshId: string, now: int)
    ensures Accepted(Serialize(Obj(map["hook" := Str(Normalizer.ReplayHook), "type" := Str("snapshot")])), freshId, now).Some?
    ensures Field(Accepted(Serialize(Obj(map["hook" := Str(Normalizer.ReplayHook), "type" := Str("snapshot")])), freshId, now).value, "type")
      == Some(Str("snapshot"))
  {
    var body := map["hook" := Str(Normalizer.ReplayHook), "type" := Str("snapshot")];
    ParseSerialize(Obj(body));
    assert FieldsOf(Obj(body)) == body;
    Normalizer.ReplayRestamps(body, AgentOf(body), freshId, now);
  }

  /** A client that is sent such an event takes it for a snapshot and drops the events it held. */
  lemma SnapshotTaggedEventClears(v: View, e: Record)
    requires Field(e, "type") == Some(Str("snapshot")) && "events" !in e
    ensures Receive(v, Text(EventFrame(e))).events == []
  {
    TextParses(EventFrame(e));
  }

  /** The provider's state. */
  class Client {
    var events: seq<Value>
    var stats: Option<Value>
    var connected: bool
    var latest: Option<Value>

    /** The part of the state the socket messages change. */
    function Shown(): View
      reads this
    {
      View(events, stats, latest)
    }

    /** No events, no statistics, not connected, no latest event. */
    constructor()
      ensures events == [] && stats == None && !connected && latest == None
    {
      events := [];
      stats := None;
      connected := false;
      latest := None;
    }

    /** Mounting the provider: an embedded export snapshot supplies the events and statistics
        and no socket is opened; otherwise the client connects (`connects`). */
    method Mount(snap: Option<Value>) returns (connects: bool)
      modifies this
      ensures connects <==> !Truthy(snap)
      ensures connects ==> Shown() == old(Shown())
      ensures !connects ==> events == ListOf(Member(snap.value, "events")) && stats == Member(snap.value, "stats")
      ensures latest == old(latest) && connected == old(connected)
    {
      if Truthy(snap) {
        events := ListOf(Member(snap.value, "events"));
        stats := Member(snap.value, "stats");
        connects := false;
      } else {
        connects := true;
      }
    }

    method OnOpen()
      modifies this
      ensures connected && Shown() == old(Shown())
    {
      connected := true;
    }

    method OnClose()
      modifies this
      ensures !connected && Shown() == old(Shown())
    {
      connected := false;
    }

    /** One socket message. */
    method OnMessage(data: string)
      modifies this
      ensures Shown() == Receive(old(Shown()), data) && connected == old(connected)
    {
      var parsed := Parse(data);
      if parsed.None? || parsed.value == Null {
        return;
      }
      var msg := parsed.value;
      if Member(msg, "type") == Some(Str("snapshot")) {
        events := ListOf(Member(msg, "events"));
        stats := Member(msg, "stats");
      } else {
        events := events + [msg];
        latest := Some(msg);
      }
    }
  }
}
