/** The replay command (src/cli/commands/replay.ts): read a session log, parse it one line at a
    time, and post each event back to a daemon marked as a replay. The file's contents, the
    fresh ids and the clock readings are parameters; the daemon is the in-process one the
    command starts, so each post is one `POST /event` handled by `Daemon.Ingest`. */
module Replay {
  import opened Wrappers
  import opened Json
  import opened Codec
  import opened Normalizer
  import opened Logger
  import opened Server
  import opened Text

  // ---------------------------------------------------------------- parseJSONL

  /** The value a line contributes: none for an empty line or one that is not JSON. */
  function ParseLine(line: string): Option<Value> {
    if line == "" then None else Parse(line)
  }

  /** The number of lines `filter(Boolean)` keeps: those that are not empty. */
  function NonEmpty(ls: seq<string>): nat {
    if |ls| == 0 then 0 else (if ls[0] == "" then 0 else 1) + NonEmpty(ls[1..])
  }

  /** `filter(Boolean)` then `flatMap` over the pieces: the values of the lines that parse, in
      order. */
  function ParseLines(ls: seq<string>): (vs: seq<Value>)
    ensures |vs| <= NonEmpty(ls) <= |ls|
    ensures forall i :: 0 <= i < |vs| ==> exists j :: 0 <= j < |ls| && ParseLine(ls[j]) == Some(vs[i])
  {
    if |ls| == 0 then []
    else
      var rest := ParseLines(ls[1..]);
      assert forall i :: 0 <= i < |rest| ==> exists j :: 0 < j < |ls| && ParseLine(ls[j]) == Some(rest[i]) by {
        forall i | 0 <= i < |rest|
          ensures exists j :: 0 < j < |ls| && ParseLine(ls[j]) == Some(rest[i])
        {
          var j :| 0 <= j < |ls[1..]| && ParseLine(ls[1..][j]) == Some(rest[i]);
          assert ParseLine(ls[j + 1]) == Some(rest[i]);
        }
      }
      match ParseLine(ls[0])
      case Some(v) => [v] + rest
      case None => rest
  }

  /** `parseJSONL(content)`. */
  function ParseJsonl(content: string): seq<Value> {
    ParseLines(SplitLines(content))
  }

  /** An empty file holds no events. */
  lemma EmptyLog()
    ensures ParseJsonl("") == []
  {
  }

  /** A broken line is skipped and the lines after it still count. */
  lemma BrokenLineSkipped(line: string, rest: string)
    requires '\n' !in line && Parse(line).None?
    ensures ParseJsonl(line + "\n" + rest) == ParseJsonl(rest)
  {
    SplitAfterLine(line, rest);
    assert SplitLines(line + "\n" + rest)[1..] == SplitLines(rest);
  }

  /** A line, then the rest of the file: the line's value, if it has one, comes before the
      values of the rest, whatever JSON text the line holds. */
  lemma LineThen(line: string, rest: string)
    requires '\n' !in line
    ensures ParseJsonl(line + "\n" + rest)
      == (if ParseLine(line).Some? then [ParseLine(line).value] else []) + ParseJsonl(rest)
  {
    SplitAfterLine(line, rest);
    assert SplitLines(line + "\n" + rest)[1..] == SplitLines(rest);
  }

  /** One logged record, then anything: the record's event comes first. */
  lemma LogLine(e: Record, rest: string)
    ensures ParseJsonl(Line(e) + rest) == [Obj(e)] + ParseJsonl(rest)
  {
    var text := Serialize(Obj(e));
    assert Line(e) + rest == text + "\n" + rest;
    SerializeOneLine(Obj(e));
    SplitAfterLine(text, rest);
    ParseSerialize(Obj(e));
    var ls := SplitLines(text + "\n" + rest);
    assert ls[0] == text && ls[1..] == SplitLines(rest);
    assert ParseLine(ls[0]) == Some(Obj(e));
  }

  /** What the daemon logs, the replay command reads back: every logged event, in order. */
  lemma {:induction false} LogRoundTrip(es: seq<Record>)
    ensures ParseJsonl(Concat(Lines(es))) == Objects(es)
  {
    if |es| == 0 {
      assert Concat(Lines(es)) == "";
    } else {
      LinesFirst(es);
      LogLine(es[0], Concat(Lines(es[1..])));
      LogRoundTrip(es[1..]);
      ObjectsFirst(es);
    }
  }

  lemma LinesFirst(es: seq<Record>)
    requires |es| > 0
    ensures Concat(Lines(es)) == Line(es[0]) + Concat(Lines(es[1..]))
  {
    ConcatFirst(Lines(es));
    LinesTail(es);
  }

  lemma ConcatFirst(chunks: seq<string>)
    requires |chunks| > 0
    ensures Concat(chunks) == chunks[0] + Concat(chunks[1..])
  {
  }

  lemma LinesTail(es: seq<Record>)
    requires |es| > 0
    ensures Lines(es)[0] == Line(es[0]) && Lines(es)[1..] == Lines(es[1..])
  {
    var ls := Lines(es);
    var tail := Lines(es[1..]);
    forall i | 0 <= i < |tail| ensures ls[i + 1] == tail[i] {
      assert es[1..][i] == es[i + 1];
    }
    SliceTail(ls, tail);
  }

  /** A list whose elements after the first are those of another is that list behind its head. */
  lemma SliceTail(ls: seq<string>, tail: seq<string>)
    requires |ls| == |tail| + 1
    requires forall i :: 0 <= i < |tail| ==> ls[i + 1] == tail[i]
    ensures ls[1..] == tail
  {
    assert forall i :: 0 <= i < |tail| ==> ls[1..][i] == ls[i + 1];
  }

  lemma ObjectsFirst(es: seq<Record>)
    requires |es| > 0
    ensures Objects(es) == [Obj(es[0])] + Objects(es[1..])
  {
  }

  // ---------------------------------------------------------------- resubmission

  /** `{ hook: '__replay__', ...event }`: the event's own properties win, a `hook` among them
      included. */
  function ReplayPayload(v: Value): Record {
    map["hook" := Str(ReplayHook)] + Spread(v)
  }

  /** The posted payload carries a hook, the replay one unless the event names its own, and
      every property of the event unchanged. */
  lemma ReplayPayloadFields(v: Value)
    ensures "hook" in ReplayPayload(v)
    ensures v.Obj? && "hook" !in v.fields ==> ReplayPayload(v)["hook"] == Str(ReplayHook)
    ensures v.Obj? ==> forall k :: k in v.fields ==> k in ReplayPayload(v) && ReplayPayload(v)[k] == v.fields[k]
  {
  }

  /** The body posted for one event. */
  function ReplayBody(v: Value): string {
    Serialize(Obj(ReplayPayload(v)))
  }

  /** A logged event that a replay brings back: its `type` is truthy and it names no hook but
      the replay one. */
  predicate Replayable(e: Record) {
    Truthy(Field(e, "type")) && (Field(e, "hook").None? || Field(e, "hook") == Some(Str(ReplayHook)))
  }

  /** The bodies posted for the events, in order. */
  function Bodies(vs: seq<Value>): (bs: seq<string>)
    ensures |bs| == |vs|
    ensures forall i :: 0 <= i < |vs| ==> bs[i] == ReplayBody(vs[i])
  {
    seq(|vs|, i requires 0 <= i < |vs| => ReplayBody(vs[i]))
  }

  /** The events a series of posts adds, in order, when `step` gives what one post adds. */
  function Collect(step: (string, string, int) -> seq<Record>, bs: seq<string>, ids: seq<string>, nows: seq<int>): seq<Record>
    requires |ids| == |bs| && |nows| == |bs|
  {
    if |bs| == 0 then []
    else
      var n := |bs| - 1;
      Collect(step, bs[..n], ids[..n], nows[..n]) + step(bs[n], ids[n], nows[n])
  }

  /** The events the daemon stores from the bodies posted to it, in order. */
  function Posted(bs: seq<string>, ids: seq<string>, nows: seq<int>): seq<Record>
    requires |ids| == |bs| && |nows| == |bs|
  {
    Collect(Stored, bs, ids, nows)
  }

  /** Posts that each add one given event add exactly those events. */
  lemma {:induction false} CollectEach(step: (string, string, int) -> seq<Record>, bs: seq<string>, ids: seq<string>,
                                       nows: seq<int>, rs: seq<Record>)
    requires |ids| == |bs| && |nows| == |bs| && |rs| == |bs|
    requires forall i :: 0 <= i < |bs| ==> step(bs[i], ids[i], nows[i]) == [rs[i]]
    ensures Collect(step, bs, ids, nows) == rs
  {
    if |bs| > 0 {
      var n := |bs| - 1;
      CollectEach(step, bs[..n], ids[..n], nows[..n], rs[..n]);
      assert step(bs[n], ids[n], nows[n]) == [rs[n]];
      assert rs == rs[..n] + [rs[n]];
    }
  }

  lemma CollectNext(step: (string, string, int) -> seq<Record>, bs: seq<string>, ids: seq<string>, nows: seq<int>, i: nat)
    requires |ids| == |bs| && |nows| == |bs| && i < |bs|
    ensures Collect(step, bs[..i + 1], ids[..i + 1], nows[..i + 1]) ==
            Collect(step, bs[..i], ids[..i], nows[..i]) + step(bs[i], ids[i], nows[i])
  {
    assert bs[..i + 1][..i] == bs[..i];
    assert ids[..i + 1][..i] == ids[..i];
    assert nows[..i + 1][..i] == nows[..i];
  }

  /** A replayable event comes back with its own fields, the replay hook, and a fresh id and
      timestamp. */
  lemma ReplayAccepted(e: Record, freshId: string, now: int)
    requires Replayable(e)
    ensures Accepted(ReplayBody(Obj(e)), freshId, now) == Some(Restamp(ReplayPayload(Obj(e)), freshId, now))
  {
    var payload := ReplayPayload(Obj(e));
    BodyParses(e);
    PayloadReplays(e);
    ReplayRestamps(payload, AgentOf(payload), freshId, now);
  }

  lemma BodyParses(e: Record)
    ensures Parse(ReplayBody(Obj(e))) == Some(Obj(ReplayPayload(Obj(e))))
  {
    ParseSerialize(Obj(ReplayPayload(Obj(e))));
  }

  lemma PayloadReplays(e: Record)
    requires Replayable(e)
    ensures HasHook(ReplayPayload(Obj(e)), ReplayHook) && Truthy(Field(ReplayPayload(Obj(e)), "type"))
  {
    assert Field(ReplayPayload(Obj(e)), "type") == Field(e, "type");
  }

  /** Every event the normalizer produces can be replayed: the arms set a non-empty type and no
      hook, and the replay arm keeps the replay hook and a truthy type. */
  lemma NormalizedReplayable(payload: Record, agentId: Value, freshId: string, now: int)
    requires Normalize(payload, agentId, freshId, now).Some?
    ensures Replayable(Normalize(payload, agentId, freshId, now).value)
  {
    var h := HookOf(payload).value;
    if h in HookArms {
      NormalizeIsArm(payload, agentId, freshId, now, h);
      ArmNoHook(payload, agentId, freshId, now, h);
    } else {
      ReplayRestamps(payload, agentId, freshId, now);
    }
  }

  /** Replaying a session's log stores every logged event again, in order, each with the replay
      hook and a fresh id and timestamp, when its events are replayable. */
  lemma ReplayLog(es: seq<Record>, ids: seq<string>, nows: seq<int>)
    requires |ids| == |es| && |nows| == |es|
    requires forall i :: 0 <= i < |es| ==> Replayable(es[i])
    ensures ParseJsonl(Concat(Lines(es))) == Objects(es)
    ensures Posted(Bodies(ParseJsonl(Concat(Lines(es)))), ids, nows) == Restamped(es, ids, nows)
  {
    LogRoundTrip(es);
    ReplayEvents(es, ids, nows);
  }

  /** Each event with the replay hook added and a fresh id and timestamp, in order. */
  function Restamped(es: seq<Record>, ids: seq<string>, nows: seq<int>): (rs: seq<Record>)
    requires |ids| == |es| && |nows| == |es|
    ensures |rs| == |es|
    ensures forall i :: 0 <= i < |es| ==> rs[i] == Restamp(ReplayPayload(Obj(es[i])), ids[i], nows[i])
  {
    if |es| == 0 then []
    else
      var n := |es| - 1;
      Restamped(es[..n], ids[..n], nows[..n]) + [Restamp(ReplayPayload(Obj(es[n])), ids[n], nows[n])]
  }

  /** Posting the replay bodies of replayable events stores each of them again, in order. */
  lemma ReplayEvents(es: seq<Record>, ids: seq<string>, nows: seq<int>)
    requires |ids| == |es| && |nows| == |es|
    requires forall i :: 0 <= i < |es| ==> Replayable(es[i])
    ensures Posted(Bodies(Objects(es)), ids, nows) == Restamped(es, ids, nows)
  {
    var bs := Bodies(Objects(es));
    var rs := Restamped(es, ids, nows);
    forall i | 0 <= i < |es|
      ensures Stored(bs[i], ids[i], nows[i]) == [rs[i]]
    {
      StoredAt(es, ids, nows, i);
    }
    PostedEach(bs, ids, nows, rs);
  }

  lemma PostedEach(bs: seq<string>, ids: seq<string>, nows: seq<int>, rs: seq<Record>)
    requires |ids| == |bs| && |nows| == |bs| && |rs| == |bs|
    requires forall i :: 0 <= i < |bs| ==> Stored(bs[i], ids[i], nows[i]) == [rs[i]]
    ensures Posted(bs, ids, nows) == rs
  {
    CollectEach(Stored, bs, ids, nows, rs);
  }

  lemma StoredAt(es: seq<Record>, ids: seq<string>, nows: seq<int>, i: nat)
    requires |ids| == |es| && |nows| == |es| && i < |es| && Replayable(es[i])
    ensures Stored(Bodies(Objects(es))[i], ids[i], nows[i]) == [Restamp(ReplayPayload(Obj(es[i])), ids[i], nows[i])]
  {
    StoredObject(es[i], ids[i], nows[i]);
  }

  lemma StoredObject(e: Record, freshId: string, now: int)
    requires Replayable(e)
    ensures Stored(ReplayBody(Obj(e)), freshId, now) == [Restamp(ReplayPayload(Obj(e)), freshId, now)]
  {
    ReplayAccepted(e, freshId, now);
  }

  /** After posting event `i`, the loop reads `events[i].timestamp` when the next event is
      truthy; on a parsed `null` that read throws and the replay stops. */
  predicate Aborts(vs: seq<Value>, i: nat)
    requires i < |vs|
  {
    vs[i] == Null && i + 1 < |vs| && Truthy(Some(vs[i + 1]))
  }

  /** How many events the loop posts from position `i` on, counted from the start. */
  function PostedFrom(vs: seq<Value>, i: nat): (n: nat)
    requires i <= |vs|
    ensures i <= n <= |vs|
    ensures forall j :: i <= j < n - 1 ==> !Aborts(vs, j)
    ensures n < |vs| ==> i < n && Aborts(vs, n - 1)
    decreases |vs| - i
  {
    if i == |vs| then i else if Aborts(vs, i) then i + 1 else PostedFrom(vs, i + 1)
  }

  /** How many events `runReplay` posts: all of them, or up to the first `null` that is
      followed by a truthy event. */
  function PostedCount(vs: seq<Value>): (n: nat)
    ensures n <= |vs|
    ensures forall j :: 0 <= j < n - 1 ==> !Aborts(vs, j)
    ensures n < |vs| ==> 0 < n && Aborts(vs, n - 1)
  {
    PostedFrom(vs, 0)
  }

  /** Without a parsed `null` the loop posts every event. */
  lemma NoNullPostsAll(vs: seq<Value>)
    requires forall i :: 0 <= i < |vs| ==> vs[i] != Null
    ensures PostedCount(vs) == |vs|
  {
  }

  /** A `null` line followed by an event ends the replay right after the `null` is posted. */
  lemma NullThenEventStops(e: Record)
    ensures PostedCount([Null, Obj(e)]) == 1
  {
    assert Aborts([Null, Obj(e)], 0);
  }

  /** One round of the loop: post body `i`; the store then holds the first `i + 1` posts. */
  method PostNext(d: Daemon, bodies: seq<string>, ids: seq<string>, nows: seq<int>, i: nat, ghost before: seq<Record>)
    requires d.Valid()
    requires |ids| == |bodies| && |nows| == |bodies| && i < |bodies|
    requires d.store.events == before + Posted(bodies[..i], ids[..i], nows[..i])
    modifies d, d.store, d.logger
    ensures d.Valid() && d.clients == old(d.clients)
    ensures d.store.events == before + Posted(bodies[..i + 1], ids[..i + 1], nows[..i + 1])
  {
    var _ := d.Ingest(bodies[i], ids[i], nows[i]);
    CollectNext(Stored, bodies, ids, nows, i);
  }

  /** `runReplay`: parse the file's contents and post one body per parsed event, until the loop
      throws. `completed` is false when it throws. */
  method RunReplay(d: Daemon, content: string, ids: seq<string>, nows: seq<int>) returns (completed: bool)
    requires d.Valid()
    requires |ids| == |ParseJsonl(content)| && |nows| == |ParseJsonl(content)|
    modifies d, d.store, d.logger
    ensures d.Valid()
    ensures d.clients == old(d.clients)
    ensures var vs := ParseJsonl(content); var n := PostedCount(vs);
      d.store.events == old(d.store.events) + Posted(Bodies(vs)[..n], ids[..n], nows[..n])
    ensures completed <==> PostedCount(ParseJsonl(content)) == |ParseJsonl(content)|
  {
    var events := ParseJsonl(content);
    completed := PostAll(d, events, ids, nows);
  }

  /** The loop of `runReplay`: post each event's body, in order, to the daemon; after an
      event, stop if it is `null` and the next one is truthy. The pause between posts only
      paces the replay. */
  method PostAll(d: Daemon, events: seq<Value>, ids: seq<string>, nows: seq<int>) returns (completed: bool)
    requires d.Valid()
    requires |ids| == |events| && |nows| == |events|
    modifies d, d.store, d.logger
    ensures d.Valid()
    ensures d.clients == old(d.clients)
    ensures var n := PostedCount(events);
      d.store.events == old(d.store.events) + Posted(Bodies(events)[..n], ids[..n], nows[..n])
    ensures completed <==> PostedCount(events) == |events|
  {
    var bodies := Bodies(events);
    ghost var n := PostedCount(events);
    var i := 0;
    completed := true;
    while i < |events| && completed
      invariant 0 <= i <= |events|
      invariant d.Valid() && d.clients == old(d.clients)
      invariant completed ==> PostedFrom(events, i) == n
      invariant !completed ==> i == n < |events|
      invariant d.store.events == old(d.store.events) + Posted(bodies[..i], ids[..i], nows[..i])
    {
      PostNext(d, bodies, ids, nows, i, old(d.store.events));
      if Aborts(events, i) {
        completed := false;
      }
      i := i + 1;
    }
  }
}
