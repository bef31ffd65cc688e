/** The daemon's in-memory event store (src/daemon/store.ts): an append-only sequence of the
    accepted events and the session statistics recomputed from the whole sequence on request. */
module Store {
  import opened Wrappers
  import opened Json
  import opened Types

  predicate IsType(r: Record, tag: string) {
    Field(r, "type") == Some(Str(tag))
  }

  // ---------------------------------------------------------------- statistics, as functions

  /** `events.filter(e => e.type === 'tool_end')`. */
  function ToolEnds(es: seq<Record>): (ends: seq<Record>)
    ensures |ends| <= |es|
    ensures forall i :: 0 <= i < |ends| ==> IsType(ends[i], "tool_end") && ends[i] in es
    ensures forall i :: 0 <= i < |es| && IsType(es[i], "tool_end") ==> es[i] in ends
  {
    if |es| == 0 then []
    else ToolEnds(es[..|es| - 1]) + (if IsType(es[|es| - 1], "tool_end") then [es[|es| - 1]] else [])
  }

  /** The number of events of type `tag`, counted over the whole history. */
  function CountType(es: seq<Record>, tag: string): nat {
    if |es| == 0 then 0
    else CountType(es[..|es| - 1], tag) + if IsType(es[|es| - 1], tag) then 1 else 0
  }

  /** The filter keeps every `tool_end` and nothing else: as many as the history holds. */
  lemma {:induction false} ToolEndsCount(es: seq<Record>)
    ensures |ToolEnds(es)| == CountType(es, "tool_end")
  {
    if |es| > 0 {
      ToolEndsCount(es[..|es| - 1]);
    }
  }

  /** The category a `tool_end` counts under: its `toolType` when that names one of the five. */
  function CategoryOf(r: Record): (c: Option<ToolType>)
    ensures c.Some? ==> Field(r, "toolType") == Some(Str(ToolTypeName(c.value)))
  {
    var t := Field(r, "toolType");
    if t.Some? && t.value.Str? then ToolTypeFromName(t.value.s) else None
  }

  /** The per-category counts the increment loop arrives at. */
  function CountsOf(ends: seq<Record>): ToolCounts {
    if |ends| == 0 then NoCounts
    else
      var c := CategoryOf(ends[|ends| - 1]);
      var before := CountsOf(ends[..|ends| - 1]);
      if c.Some? then before.Inc(c.value) else before
  }

  /** The `tool_end` events whose `toolType` is not one of the five. */
  function Uncategorized(ends: seq<Record>): nat {
    if |ends| == 0 then 0
    else Uncategorized(ends[..|ends| - 1]) + if CategoryOf(ends[|ends| - 1]).None? then 1 else 0
  }

  /** The number of `tool_end` events of category `t`, counted over the whole history. */
  function CountCategory(es: seq<Record>, t: ToolType): nat {
    if |es| == 0 then 0
    else
      var e := es[|es| - 1];
      CountCategory(es[..|es| - 1], t) + if IsType(e, "tool_end") && CategoryOf(e) == Some(t) then 1 else 0
  }

  /** `es[i]` is a `session_end` and none comes before it. */
  predicate IsFirstSessionEnd(es: seq<Record>, i: nat)
    requires i < |es|
  {
    IsType(es[i], "session_end") && forall j :: 0 <= j < i ==> !IsType(es[j], "session_end")
  }

  /** `events.find(e => e.type === 'session_end')`. */
  function FirstSessionEnd(es: seq<Record>): (o: Option<Record>)
    ensures o.None? <==> forall i :: 0 <= i < |es| ==> !IsType(es[i], "session_end")
    ensures o.Some? ==> exists i :: 0 <= i < |es| && es[i] == o.value && IsFirstSessionEnd(es, i)
  {
    if |es| == 0 then None
    else if IsType(es[0], "session_end") then Some(es[0])
    else
      var o := FirstSessionEnd(es[1..]);
      assert forall i :: 0 < i < |es| ==> es[i] == es[1..][i - 1];
      assert o.Some? ==> exists i :: 0 <= i < |es| && es[i] == o.value && IsFirstSessionEnd(es, i) by {
        if o.Some? {
          var k :| 0 <= k < |es[1..]| && es[1..][k] == o.value && IsFirstSessionEnd(es[1..], k);
          assert IsFirstSessionEnd(es, k + 1);
        }
      }
      o
  }

  /** `new Set(events.map(e => e.agentId))`; a missing `agentId` is the value `undefined`. */
  function AgentIds(es: seq<Record>): set<Option<Value>> {
    set i | 0 <= i < |es| :: Field(es[i], "agentId")
  }

  /** `getStats()` as a function of the history, the fixed session id and start time, and the
      clock reading taken when a `session_end` is present. */
  function StatsOf(es: seq<Record>, sessionId: string, startTime: int, now: int): SessionStats {
    var ends := ToolEnds(es);
    var sessionEnd := FirstSessionEnd(es);
    SessionStats(
      sessionId := sessionId,
      startTime := startTime,
      endTime := if sessionEnd.Some? then Some(now) else None,
      totalInputTokens := if sessionEnd.Some? then Field(sessionEnd.value, "totalInputTokens") else Some(Num(0)),
      totalOutputTokens := if sessionEnd.Some? then Field(sessionEnd.value, "totalOutputTokens") else Some(Num(0)),
      toolCallCount := |ends|,
      toolCallsByType := CountsOf(ends),
      agentCount := |AgentIds(es)|,
      model := if sessionEnd.Some? then Field(sessionEnd.value, "model") else None)
  }

  // ---------------------------------------------------------------- properties of the statistics

  /** Every tool call is counted under exactly one category or under none of the five, so the
      per-category counts add up to the total when every `toolType` is a category. */
  lemma {:induction false} CountsAddUp(ends: seq<Record>)
    ensures CountsOf(ends).Sum() + Uncategorized(ends) == |ends|
  {
    if |ends| > 0 {
      CountsAddUp(ends[..|ends| - 1]);
      var c := CategoryOf(ends[|ends| - 1]);
      var before := CountsOf(ends[..|ends| - 1]);
      if c.Some? {
        assert before.Inc(c.value).Sum() == before.Sum() + 1 by {
          match c.value
          case Bash => case File => case Web => case Task => case Other =>
        }
      }
    }
  }

  /** When every tool end names one of the five categories, none is left uncounted. */
  lemma {:induction false} AllCategorized(ends: seq<Record>)
    requires forall i :: 0 <= i < |ends| ==> CategoryOf(ends[i]).Some?
    ensures Uncategorized(ends) == 0
  {
    if |ends| > 0 {
      AllCategorized(ends[..|ends| - 1]);
    }
  }

  lemma {:induction false} ToolEndsAppend(es: seq<Record>, e: Record)
    ensures ToolEnds(es + [e]) == ToolEnds(es) + (if IsType(e, "tool_end") then [e] else [])
  {
    assert (es + [e])[..|es|] == es;
  }

  lemma {:induction false} CountsOfAppend(ends: seq<Record>, extra: seq<Record>)
    requires |extra| <= 1
    ensures CountsOf(ends + extra) ==
      if |extra| == 1 && CategoryOf(extra[0]).Some? then CountsOf(ends).Inc(CategoryOf(extra[0]).value) else CountsOf(ends)
  {
    if |extra| == 1 {
      assert (ends + extra)[..|ends|] == ends;
    } else {
      assert ends + extra == ends;
    }
  }

  /** The count of category `t` is the number of `tool_end` events of that category. */
  lemma {:induction false} CountsPerCategory(es: seq<Record>, t: ToolType)
    ensures CountsOf(ToolEnds(es)).Get(t) == CountCategory(es, t)
  {
    if |es| > 0 {
      var init := es[..|es| - 1];
      var e := es[|es| - 1];
      CountsPerCategory(init, t);
      assert init + [e] == es;
      ToolEndsAppend(init, e);
      CountsOfAppend(ToolEnds(init), if IsType(e, "tool_end") then [e] else []);
    }
  }

  /** The statistics as the source promises them. */
  lemma StatsMeaning(es: seq<Record>, sessionId: string, startTime: int, now: int)
    ensures var s := StatsOf(es, sessionId, startTime, now);
      s.sessionId == sessionId && s.startTime == startTime &&
      s.toolCallCount == CountType(es, "tool_end") &&
      s.toolCallsByType.Sum() <= s.toolCallCount &&
      (forall t :: s.toolCallsByType.Get(t) == CountCategory(es, t)) &&
      s.agentCount == |AgentIds(es)| &&
      (s.endTime.Some? <==> exists i :: 0 <= i < |es| && IsType(es[i], "session_end")) &&
      (s.endTime.None? ==> s.totalInputTokens == Some(Num(0)) && s.totalOutputTokens == Some(Num(0)) && s.model.None?)
  {
    ToolEndsCount(es);
    CountsAddUp(ToolEnds(es));
    forall t ensures CountsOf(ToolEnds(es)).Get(t) == CountCategory(es, t) {
      CountsPerCategory(es, t);
    }
  }

  /** When every tool end names one of the five categories, the counts add up to the total. */
  lemma CountsSumToTotal(es: seq<Record>, sessionId: string, startTime: int, now: int)
    requires forall e :: e in es && IsType(e, "tool_end") ==> CategoryOf(e).Some?
    ensures var s := StatsOf(es, sessionId, startTime, now);
      s.toolCallsByType.Sum() == s.toolCallCount
  {
    CountsAddUp(ToolEnds(es));
    AllCategorized(ToolEnds(es));
  }

  /** The tokens and model come from the first `session_end` of the history. */
  lemma StatsFromFirstSessionEnd(es: seq<Record>, i: nat, sessionId: string, startTime: int, now: int)
    requires i < |es| && IsType(es[i], "session_end")
    requires forall j :: 0 <= j < i ==> !IsType(es[j], "session_end")
    ensures var s := StatsOf(es, sessionId, startTime, now);
      s.endTime == Some(now) &&
      s.totalInputTokens == Field(es[i], "totalInputTokens") &&
      s.totalOutputTokens == Field(es[i], "totalOutputTokens") &&
      s.model == Field(es[i], "model")
  {
    var o := FirstSessionEnd(es);
    var k :| 0 <= k < |es| && es[k] == o.value && IsFirstSessionEnd(es, k);
    assert k == i;
  }

  /** The agent count is the number of distinct agent ids, so it never exceeds the history. */
  lemma {:induction false} AgentCountBounded(es: seq<Record>)
    ensures |AgentIds(es)| <= |es|
  {
    if |es| > 0 {
      var init := es[..|es| - 1];
      AgentCountBounded(init);
      assert AgentIds(es) == AgentIds(init) + {Field(es[|es| - 1], "agentId")} by {
        forall a | a in AgentIds(es) ensures a in AgentIds(init) + {Field(es[|es| - 1], "agentId")} {
          var i :| 0 <= i < |es| && a == Field(es[i], "agentId");
          if i < |es| - 1 { assert init[i] == es[i]; }
        }
        forall a | a in AgentIds(init) ensures a in AgentIds(es) {
          var i :| 0 <= i < |init| && a == Field(init[i], "agentId");
          assert es[i] == init[i];
        }
      }
    }
  }

  // ---------------------------------------------------------------- the store

  class EventStore {
    /** The accepted events, in order of arrival. */
    var events: seq<Record>
    const sessionId: string
    /** The clock reading when the store was made. */
    const startTime: int

    constructor(sessionId: string, startTime: int)
      ensures events == [] && this.sessionId == sessionId && this.startTime == startTime
    {
      this.sessionId := sessionId;
      this.startTime := startTime;
      events := [];
    }

    /** `add(event)`: append at the end. */
    method Add(e: Record)
      modifies this
      ensures events == old(events) + [e]
    {
      events := events + [e];
    }

    /** `getAll()`: a copy of the history, which later additions do not reach. */
    method GetAll() returns (all: seq<Record>)
      ensures all == events
    {
      all := events;
    }

    /** `getStats()`: the per-category counts come from an increment loop over the tool ends. */
    method GetStats(now: int) returns (s: SessionStats)
      ensures s == StatsOf(events, sessionId, startTime, now)
    {
      var ends := ToolEnds(events);
      var counts := NoCounts;
      for i := 0 to |ends|
        invariant counts == CountsOf(ends[..i])
      {
        var c := CategoryOf(ends[i]);
        if c.Some? {
          counts := counts.Inc(c.value);
        }
        assert ends[..i + 1][..i] == ends[..i];
      }
      assert ends[..|ends|] == ends;
      var sessionEnd := FirstSessionEnd(events);
      s := SessionStats(
        sessionId := sessionId,
        startTime := startTime,
        endTime := if sessionEnd.Some? then Some(now) else None,
        totalInputTokens := if sessionEnd.Some? then Field(sessionEnd.value, "totalInputTokens") else Some(Num(0)),
        totalOutputTokens := if sessionEnd.Some? then Field(sessionEnd.value, "totalOutputTokens") else Some(Num(0)),
        toolCallCount := |ends|,
        toolCallsByType := counts,
        agentCount := |AgentIds(events)|,
        model := if sessionEnd.Some? then Field(sessionEnd.value, "model") else None);
    }
  }
}
