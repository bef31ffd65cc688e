/** The daemon's normalizer (src/daemon/normalizer.ts): it turns the loosely typed payload a
    hook posts into one canonical trace event, or into nothing. The fresh id and the clock
    reading it stamps on the event are parameters. */
module Normalizer {
  import opened Wrappers
  import opened Json
  import opened Types

  // ---------------------------------------------------------------- tool categories

  const FileTools: set<string> := {"Read", "Write", "Edit", "Glob", "Grep", "NotebookEdit"}
  const WebTools: set<string> := {"WebFetch", "WebSearch"}

  /** The lookup table from tool names to categories. */
  const ToolTypeMap: map<string, ToolType> :=
    map["Read" := File, "Write" := File, "Edit" := File, "Glob" := File, "Grep" := File,
        "NotebookEdit" := File, "Bash" := Bash, "WebFetch" := Web, "WebSearch" := Web, "Task" := Task]

  /** The category of a tool name; any name the table does not list, and a missing or
      non-string name, is `other`. */
  function ToolTypeOf(name: Option<Value>): (t: ToolType)
    ensures t == File <==> name.Some? && name.value.Str? && name.value.s in FileTools
    ensures t == Bash <==> name == Some(Str("Bash"))
    ensures t == Web <==> name.Some? && name.value.Str? && name.value.s in WebTools
    ensures t == Task <==> name == Some(Str("Task"))
  {
    if name.Some? && name.value.Str? && name.value.s in ToolTypeMap then ToolTypeMap[name.value.s] else Other
  }

  // ---------------------------------------------------------------- hooks

  /** The hook names with an arm of their own, besides the replay one. */
  const HookArms: set<string> := {"PreToolUse", "PostToolUse", "Notification", "Stop", "PreCompact", "PostCompact"}

  /** The hook name the replay command stamps on the events it resubmits. */
  const ReplayHook := "__replay__"

  predicate HasHook(payload: Record, h: string) {
    Field(payload, "hook") == Some(Str(h))
  }

  /** `o?.k` on a property that may itself be missing. */
  function MemberOf(o: Option<Value>, k: string): (r: Option<Value>)
    ensures r.Some? <==> o.Some? && o.value.Obj? && k in o.value.fields
  {
    if o.Some? then Member(o.value, k) else None
  }

  /** `s.slice(0, n)`. */
  function Prefix(s: string, n: nat): (p: string)
    ensures |p| == if |s| < n then |s| else n
    ensures p <= s
  {
    if |s| <= n then s else s[..n]
  }

  /** The hook name a payload carries, when it is a string. */
  function HookOf(payload: Record): (h: Option<string>)
    ensures h.Some? <==> Field(payload, "hook").Some? && Field(payload, "hook").value.Str?
    ensures h.Some? ==> HasHook(payload, h.value)
  {
    var o := Field(payload, "hook");
    if o.Some? && o.value.Str? then Some(o.value.s) else None
  }

  /** The keys every non-replay event starts from. */
  const BaseKeys: set<string> := {"id", "sessionId", "agentId", "timestamp", "type"}

  /** The common fields of a non-replay event with its type tag. */
  function BaseFields(payload: Record, agentId: Value, freshId: string, now: int, tag: string): (r: Record)
    ensures r.Keys == BaseKeys
  {
    map["id" := Str(freshId), "sessionId" := Coalesce(Field(payload, "session_id"), Str("unknown")),
        "agentId" := agentId, "timestamp" := Num(now), "type" := Str(tag)]
  }

  /** The event type each arm produces. */
  function Tag(payload: Record, hook: string): string {
    if hook == "PreToolUse" then
      (if Field(payload, "tool_name") == Some(Str("Task")) then "agent_spawn" else "tool_start")
    else if hook == "PostToolUse" then "tool_end"
    else if hook == "Notification" then "notification"
    else if hook == "Stop" then "session_end"
    else if hook == "PreCompact" then "compact_start"
    else "compact_end"
  }

  /** The child id of a spawned agent: the tool input's `subagent_id`, or one made from the
      first six characters of the fresh id. */
  function ChildId(payload: Record, freshId: string): Value {
    Coalesce(MemberOf(Field(payload, "tool_input"), "subagent_id"), Str("agent-" + Prefix(freshId, 6)))
  }

  /** The `PreToolUse` fields: a `Task` tool spawns an agent, every other tool starts a call. */
  function PreToolUseFields(payload: Record, agentId: Value, freshId: string): Record {
    var toolName := Field(payload, "tool_name");
    if toolName == Some(Str("Task")) then
      map["parentAgentId" := agentId, "childAgentId" := ChildId(payload, freshId)]
    else
      Put(map["toolType" := Str(ToolTypeName(ToolTypeOf(toolName)))], "toolName", toolName)
  }

  /** The `PostToolUse` fields. */
  function PostToolUseFields(payload: Record): Record {
    var toolName := Field(payload, "tool_name");
    var resp := Field(payload, "tool_response");
    var output := MemberOf(resp, "output");
    var r := Put(map["toolType" := Str(ToolTypeName(ToolTypeOf(toolName))),
                     "durationMs" := Coalesce(Field(payload, "duration_ms"), Num(0)),
                     "success" := Bool(!Truthy(MemberOf(resp, "error")))], "toolName", toolName);
    if output.Some? && output.value.Str? then r["outputSize" := Num(|output.value.s|)] else r
  }

  /** The fields of the arms that only copy, with their defaults. */
  function SimpleFields(payload: Record, hook: string): Record {
    if hook == "Notification" then
      map["message" := Coalesce(Field(payload, "message"), Str("")), "level" := Str("info")]
    else if hook == "Stop" then
      map["totalInputTokens" := Coalesce(Field(payload, "total_input_tokens"), Num(0)),
          "totalOutputTokens" := Coalesce(Field(payload, "total_output_tokens"), Num(0)),
          "model" := Coalesce(Field(payload, "model"), Str("unknown"))]
    else if hook == "PreCompact" then
      Put(map[], "tokensBefore", Field(payload, "tokens_before"))
    else
      Put(map[], "tokensAfter", Field(payload, "tokens_after"))
  }

  /** The fields an arm adds to the common ones. */
  function OwnFields(payload: Record, agentId: Value, freshId: string, hook: string): Record {
    if hook == "PreToolUse" then PreToolUseFields(payload, agentId, freshId)
    else if hook == "PostToolUse" then PostToolUseFields(payload)
    else SimpleFields(payload, hook)
  }

  /** The event of a hook with an arm of its own. */
  function Arm(payload: Record, agentId: Value, freshId: string, now: int, hook: string): (r: Record)
    ensures Field(r, "id") == Some(Str(freshId)) && Field(r, "timestamp") == Some(Num(now))
    ensures Field(r, "agentId") == Some(agentId)
    ensures Field(r, "sessionId") == Some(Coalesce(Field(payload, "session_id"), Str("unknown")))
    ensures Field(r, "type") == Some(Str(Tag(payload, hook)))
  {
    OwnFields(payload, agentId, freshId, hook) + BaseFields(payload, agentId, freshId, now, Tag(payload, hook))
  }

  /** A replayed event keeps its fields; only `id` and `timestamp` are stamped afresh. */
  function Restamp(payload: Record, freshId: string, now: int): Record {
    payload["id" := Str(freshId)]["timestamp" := Num(now)]
  }

  /** `normalizeHookPayload(payload, agentId)`. */
  function Normalize(payload: Record, agentId: Value, freshId: string, now: int): (r: Option<Record>)
    ensures r.Some? <==>
      (HookOf(payload).Some? && HookOf(payload).value in HookArms) ||
      (HasHook(payload, ReplayHook) && Truthy(Field(payload, "type")))
    ensures r.Some? ==> Field(r.value, "id") == Some(Str(freshId)) && Field(r.value, "timestamp") == Some(Num(now))
    ensures r.Some? && !HasHook(payload, ReplayHook) ==>
      Field(r.value, "agentId") == Some(agentId) &&
      Field(r.value, "sessionId") == Some(Coalesce(Field(payload, "session_id"), Str("unknown")))
  {
    match HookOf(payload)
    case Some(h) =>
      if h in HookArms then Some(Arm(payload, agentId, freshId, now, h))
      else if h == ReplayHook && Truthy(Field(payload, "type")) then Some(Restamp(payload, freshId, now))
      else None
    case None => None
  }

  // ---------------------------------------------------------------- the arms, one by one

  /** A hook with an arm of its own yields that arm's event. */
  lemma NormalizeIsArm(payload: Record, agentId: Value, freshId: string, now: int, hook: string)
    requires HasHook(payload, hook) && hook in HookArms
    ensures Normalize(payload, agentId, freshId, now) == Some(Arm(payload, agentId, freshId, now, hook))
  {
    assert HookOf(payload) == Some(hook);
  }

  /** An arm's own fields survive next to the common ones. */
  lemma OwnKept(payload: Record, agentId: Value, freshId: string, now: int, hook: string, k: string)
    requires k !in BaseKeys
    ensures Field(Arm(payload, agentId, freshId, now, hook), k) == Field(OwnFields(payload, agentId, freshId, hook), k)
  {
  }

  /** `PreToolUse` for the `Task` tool is an agent spawn whose parent is the posting agent and
      whose child is the tool input's `subagent_id`, or an id made from the fresh one. */
  lemma TaskSpawnsAgent(payload: Record, agentId: Value, freshId: string, now: int)
    requires HasHook(payload, "PreToolUse") && Field(payload, "tool_name") == Some(Str("Task"))
    ensures var r := Normalize(payload, agentId, freshId, now);
      r.Some? &&
      Field(r.value, "type") == Some(Str("agent_spawn")) &&
      Field(r.value, "parentAgentId") == Some(agentId) &&
      Field(r.value, "childAgentId") == Some(ChildId(payload, freshId))
  {
    NormalizeIsArm(payload, agentId, freshId, now, "PreToolUse");
    OwnKept(payload, agentId, freshId, now, "PreToolUse", "parentAgentId");
    OwnKept(payload, agentId, freshId, now, "PreToolUse", "childAgentId");
  }

  /** `PreToolUse` for any other tool starts a call of that tool's category. */
  lemma OtherToolStarts(payload: Record, agentId: Value, freshId: string, now: int)
    requires HasHook(payload, "PreToolUse") && Field(payload, "tool_name") != Some(Str("Task"))
    ensures var r := Normalize(payload, agentId, freshId, now);
      r.Some? &&
      Field(r.value, "type") == Some(Str("tool_start")) &&
      Field(r.value, "toolName") == Field(payload, "tool_name") &&
      Field(r.value, "toolType") == Some(Str(ToolTypeName(ToolTypeOf(Field(payload, "tool_name")))))
  {
    NormalizeIsArm(payload, agentId, freshId, now, "PreToolUse");
    OwnKept(payload, agentId, freshId, now, "PreToolUse", "toolName");
    OwnKept(payload, agentId, freshId, now, "PreToolUse", "toolType");
  }

  lemma PostToolUseFieldsKeep(payload: Record)
    ensures var own := PostToolUseFields(payload);
      Field(own, "toolName") == Field(payload, "tool_name") &&
      Field(own, "toolType") == Some(Str(ToolTypeName(ToolTypeOf(Field(payload, "tool_name"))))) &&
      Field(own, "durationMs") == Some(Coalesce(Field(payload, "duration_ms"), Num(0)))
  {
  }

  /** `PostToolUse` ends a call of the named tool's category; the duration defaults to 0. */
  lemma PostToolUseEnds(payload: Record, agentId: Value, freshId: string, now: int)
    requires HasHook(payload, "PostToolUse")
    ensures var r := Normalize(payload, agentId, freshId, now);
      r.Some? &&
      Field(r.value, "type") == Some(Str("tool_end")) &&
      Field(r.value, "toolName") == Field(payload, "tool_name") &&
      Field(r.value, "toolType") == Some(Str(ToolTypeName(ToolTypeOf(Field(payload, "tool_name"))))) &&
      Field(r.value, "durationMs") == Some(Coalesce(Field(payload, "duration_ms"), Num(0)))
  {
    PostToolUseEvent(payload, agentId, freshId, now);
    EndFields(payload, BaseFields(payload, agentId, freshId, now, "tool_end"));
  }

  lemma EndFields(payload: Record, base: Record)
    requires base.Keys == BaseKeys
    ensures var r := PostToolUseFields(payload) + base;
      Field(r, "toolName") == Field(payload, "tool_name") &&
      Field(r, "toolType") == Some(Str(ToolTypeName(ToolTypeOf(Field(payload, "tool_name"))))) &&
      Field(r, "durationMs") == Some(Coalesce(Field(payload, "duration_ms"), Num(0)))
  {
    PostToolUseFieldsKeep(payload);
    OwnBeforeBase(PostToolUseFields(payload), base, "toolName");
    OwnBeforeBase(PostToolUseFields(payload), base, "toolType");
    OwnBeforeBase(PostToolUseFields(payload), base, "durationMs");
  }

  /** The `PostToolUse` event: its own fields under the common ones. */
  lemma PostToolUseEvent(payload: Record, agentId: Value, freshId: string, now: int)
    requires HasHook(payload, "PostToolUse")
    ensures Normalize(payload, agentId, freshId, now)
      == Some(PostToolUseFields(payload) + BaseFields(payload, agentId, freshId, now, "tool_end"))
  {
    NormalizeIsArm(payload, agentId, freshId, now, "PostToolUse");
  }

  /** A field the common ones do not hold is read from the arm's own fields. */
  lemma OwnBeforeBase(own: Record, base: Record, k: string)
    requires k !in base
    ensures Field(own + base, k) == Field(own, k)
  {
  }

  /** A tool call succeeded unless its response has a truthy `error`, and its output size is
      recorded only when the output is a string. */
  lemma PostToolUseOutcome(payload: Record, agentId: Value, freshId: string, now: int)
    requires HasHook(payload, "PostToolUse")
    ensures var r := Normalize(payload, agentId, freshId, now);
      var resp := Field(payload, "tool_response");
      var output := MemberOf(resp, "output");
      r.Some? &&
      Field(r.value, "success") == Some(Bool(!Truthy(MemberOf(resp, "error")))) &&
      (Field(r.value, "outputSize").Some? <==> output.Some? && output.value.Str?) &&
      (output.Some? && output.value.Str? ==> Field(r.value, "outputSize") == Some(Num(|output.value.s|)))
  {
    PostToolUseEvent(payload, agentId, freshId, now);
    OutcomeFields(payload, BaseFields(payload, agentId, freshId, now, "tool_end"));
  }

  lemma OutcomeFields(payload: Record, base: Record)
    requires base.Keys == BaseKeys
    ensures var r := PostToolUseFields(payload) + base;
      var resp := Field(payload, "tool_response");
      var output := MemberOf(resp, "output");
      Field(r, "success") == Some(Bool(!Truthy(MemberOf(resp, "error")))) &&
      (Field(r, "outputSize").Some? <==> output.Some? && output.value.Str?) &&
      (output.Some? && output.value.Str? ==> Field(r, "outputSize") == Some(Num(|output.value.s|)))
  {
    OwnBeforeBase(PostToolUseFields(payload), base, "success");
    OwnBeforeBase(PostToolUseFields(payload), base, "outputSize");
  }

  lemma NotificationDefaults(payload: Record, agentId: Value, freshId: string, now: int)
    requires HasHook(payload, "Notification")
    ensures var r := Normalize(payload, agentId, freshId, now);
      r.Some? &&
      Field(r.value, "type") == Some(Str("notification")) &&
      Field(r.value, "message") == Some(Coalesce(Field(payload, "message"), Str(""))) &&
      Field(r.value, "level") == Some(Str("info"))
  {
    NormalizeIsArm(payload, agentId, freshId, now, "Notification");
    OwnKept(payload, agentId, freshId, now, "Notification", "message");
    OwnKept(payload, agentId, freshId, now, "Notification", "level");
  }

  lemma StopDefaults(payload: Record, agentId: Value, freshId: string, now: int)
    requires HasHook(payload, "Stop")
    ensures var r := Normalize(payload, agentId, freshId, now);
      r.Some? &&
      Field(r.value, "type") == Some(Str("session_end")) &&
      Field(r.value, "totalInputTokens") == Some(Coalesce(Field(payload, "total_input_tokens"), Num(0))) &&
      Field(r.value, "totalOutputTokens") == Some(Coalesce(Field(payload, "total_output_tokens"), Num(0))) &&
      Field(r.value, "model") == Some(Coalesce(Field(payload, "model"), Str("unknown")))
  {
    NormalizeIsArm(payload, agentId, freshId, now, "Stop");
    OwnKept(payload, agentId, freshId, now, "Stop", "totalInputTokens");
    OwnKept(payload, agentId, freshId, now, "Stop", "totalOutputTokens");
    OwnKept(payload, agentId, freshId, now, "Stop", "model");
  }

  /** The compaction arms copy the token count as it is, with no default. */
  lemma PreCompactCopies(payload: Record, agentId: Value, freshId: string, now: int)
    requires HasHook(payload, "PreCompact")
    ensures var r := Normalize(payload, agentId, freshId, now);
      r.Some? &&
      Field(r.value, "type") == Some(Str("compact_start")) &&
      Field(r.value, "tokensBefore") == Field(payload, "tokens_before")
  {
    NormalizeIsArm(payload, agentId, freshId, now, "PreCompact");
    OwnKept(payload, agentId, freshId, now, "PreCompact", "tokensBefore");
  }

  lemma PostCompactCopies(payload: Record, agentId: Value, freshId: string, now: int)
    requires HasHook(payload, "PostCompact")
    ensures var r := Normalize(payload, agentId, freshId, now);
      r.Some? &&
      Field(r.value, "type") == Some(Str("compact_end")) &&
      Field(r.value, "tokensAfter") == Field(payload, "tokens_after")
  {
    NormalizeIsArm(payload, agentId, freshId, now, "PostCompact");
    OwnKept(payload, agentId, freshId, now, "PostCompact", "tokensAfter");
  }

  /** A replayed event keeps every field of the payload, its own `hook`, `agentId` and
      `sessionId` included, except that `id` and `timestamp` are stamped afresh. */
  lemma ReplayPassesThrough(payload: Record, agentId: Value, freshId: string, now: int)
    requires HasHook(payload, ReplayHook) && Truthy(Field(payload, "type"))
    ensures var r := Normalize(payload, agentId, freshId, now);
      r.Some? &&
      r.value.Keys == payload.Keys + {"id", "timestamp"} &&
      Field(r.value, "id") == Some(Str(freshId)) && Field(r.value, "timestamp") == Some(Num(now)) &&
      forall k :: k in payload && k != "id" && k != "timestamp" ==> r.value[k] == payload[k]
  {
    assert HookOf(payload) == Some(ReplayHook);
  }

  /** The replay arm is `Restamp` itself. */
  lemma ReplayRestamps(payload: Record, agentId: Value, freshId: string, now: int)
    requires HasHook(payload, ReplayHook) && Truthy(Field(payload, "type"))
    ensures Normalize(payload, agentId, freshId, now) == Some(Restamp(payload, freshId, now))
  {
    assert HookOf(payload) == Some(ReplayHook);
  }

  /** The arms name no hook in the events they make. */
  lemma ArmNoHook(payload: Record, agentId: Value, freshId: string, now: int, hook: string)
    requires hook in HookArms
    ensures Field(Arm(payload, agentId, freshId, now, hook), "hook").None?
  {
    OwnNoHook(payload, agentId, freshId, hook);
  }

  lemma OwnNoHook(payload: Record, agentId: Value, freshId: string, hook: string)
    ensures "hook" !in OwnFields(payload, agentId, freshId, hook)
  {
    if hook == "PreToolUse" {
      var toolName := Field(payload, "tool_name");
      assert Field(PreToolUseFields(payload, agentId, freshId), "hook").None?;
    } else if hook == "PostToolUse" {
      PostToolUseNoHook(payload);
    } else {
      assert Field(SimpleFields(payload, hook), "hook").None?;
    }
  }

  lemma PostToolUseNoHook(payload: Record)
    ensures "hook" !in PostToolUseFields(payload)
  {
    var toolName := Field(payload, "tool_name");
    var resp := Field(payload, "tool_response");
    var r := Put(map["toolType" := Str(ToolTypeName(ToolTypeOf(toolName))),
                     "durationMs" := Coalesce(Field(payload, "duration_ms"), Num(0)),
                     "success" := Bool(!Truthy(MemberOf(resp, "error")))], "toolName", toolName);
    assert Field(r, "hook").None?;
  }

  /** A replay payload without a truthy `type` yields no event. */
  lemma ReplayNeedsType(payload: Record, agentId: Value, freshId: string, now: int)
    requires HasHook(payload, ReplayHook) && !Truthy(Field(payload, "type"))
    ensures Normalize(payload, agentId, freshId, now).None?
  {
    assert HookOf(payload) == Some(ReplayHook);
  }

  // ---------------------------------------------------------------- well-typed payloads

  /** The posted fields a `PreToolUse` payload declares: a string tool name and session. */
  predicate SessionIsString(payload: Record) {
    Field(payload, "session_id").None? || Field(payload, "session_id") == Some(Null) ||
    Field(payload, "session_id").value.Str?
  }

  function SessionOf(payload: Record): string {
    var o := Field(payload, "session_id");
    if o.Some? && o.value.Str? then o.value.s else "unknown"
  }

  lemma SessionOfCoalesce(payload: Record)
    requires SessionIsString(payload)
    ensures Coalesce(Field(payload, "session_id"), Str("unknown")) == Str(SessionOf(payload))
  {
  }

  /** With a string agent, session and tool name, a non-`Task` `PreToolUse` yields exactly the
      object of a `tool_start` event. */
  lemma ToolStartConforms(payload: Record, agent: string, name: string, freshId: string, now: int)
    requires HasHook(payload, "PreToolUse") && Field(payload, "tool_name") == Some(Str(name)) && name != "Task"
    requires SessionIsString(payload)
    ensures Normalize(payload, Str(agent), freshId, now) ==
      Some(Encode(ToolStart(Base(freshId, SessionOf(payload), agent, now), name, ToolTypeOf(Some(Str(name))))))
  {
    SessionOfCoalesce(payload);
    var e := ToolStart(Base(freshId, SessionOf(payload), agent, now), name, ToolTypeOf(Some(Str(name))));
    assert OwnFields(payload, Str(agent), freshId, "PreToolUse") == Payload(e);
    assert BaseFields(payload, Str(agent), freshId, now, "tool_start") == EncodeBase(e.base, TypeName(e));
    assert HookOf(payload) == Some("PreToolUse");
  }

  /** With a string agent and session and a string `subagent_id`, a `Task` start yields exactly
      the object of an `agent_spawn` event. */
  lemma AgentSpawnConforms(payload: Record, agent: string, child: string, freshId: string, now: int)
    requires HasHook(payload, "PreToolUse") && Field(payload, "tool_name") == Some(Str("Task"))
    requires MemberOf(Field(payload, "tool_input"), "subagent_id") == Some(Str(child))
    requires SessionIsString(payload)
    ensures Normalize(payload, Str(agent), freshId, now) ==
      Some(Encode(AgentSpawn(Base(freshId, SessionOf(payload), agent, now), agent, child)))
  {
    SessionOfCoalesce(payload);
    var e := AgentSpawn(Base(freshId, SessionOf(payload), agent, now), agent, child);
    assert OwnFields(payload, Str(agent), freshId, "PreToolUse") == Payload(e);
    assert BaseFields(payload, Str(agent), freshId, now, "agent_spawn") == EncodeBase(e.base, TypeName(e));
    assert HookOf(payload) == Some("PreToolUse");
  }

  // ---------------------------------------------------------------- examples

  lemma ReadIsFileStart()
    ensures var r := Normalize(map["hook" := Str("PreToolUse"), "tool_name" := Str("Read"),
                                   "session_id" := Str("sess-1")], Str("agent-0"), "id-1", 7);
      r.Some? && Field(r.value, "type") == Some(Str("tool_start")) && Field(r.value, "toolType") == Some(Str("file"))
  {
    var p := map["hook" := Str("PreToolUse"), "tool_name" := Str("Read"), "session_id" := Str("sess-1")];
    OtherToolStarts(p, Str("agent-0"), "id-1", 7);
  }

  lemma UnknownHookIsDropped(agentId: Value, freshId: string, now: int)
    ensures Normalize(map["hook" := Str("Unknown")], agentId, freshId, now).None?
  {
    var p := map["hook" := Str("Unknown")];
    assert HookOf(p) == Some("Unknown");
  }
}
