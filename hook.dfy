/** The `hook` command: the agent runtime calls it with a hook slug and the hook's JSON on
    standard input, and it posts one event body to the daemon. */
module Hook {
  import opened Wrappers
  import opened Json
  import opened Codec
  import opened Normalizer
  import opened Server
  import opened Text

  /** The slugs the command is called with and the hook names the daemon understands. */
  const HookNameMap: map<string, string> := map[
    "pre-tool-use" := "PreToolUse",
    "post-tool-use" := "PostToolUse",
    "notification" := "Notification",
    "stop" := "Stop",
    "pre-compact" := "PreCompact",
    "post-compact" := "PostCompact"
  ]

  /** Every hook name the command sends is one the daemon has an arm for, and every arm is
      reachable from some slug. */
  lemma HookNamesAreArms()
    ensures HookNameMap.Values == HookArms
  {
    assert HookNameMap["pre-tool-use"] == "PreToolUse";
    assert HookNameMap["post-tool-use"] == "PostToolUse";
    assert HookNameMap["notification"] == "Notification";
    assert HookNameMap["stop"] == "Stop";
    assert HookNameMap["pre-compact"] == "PreCompact";
    assert HookNameMap["post-compact"] == "PostCompact";
  }

  /** Two slugs never name the same hook. */
  lemma HookNamesDistinct(a: string, b: string)
    requires a in HookNameMap && b in HookNameMap && HookNameMap[a] == HookNameMap[b]
    ensures a == b
  {
  }

  /** The methods every object literal inherits from `Object.prototype`: looking one of them up
      in the slug table finds a function, which is truthy. */
  const InheritedMethods: set<string> := {
    "constructor", "hasOwnProperty", "isPrototypeOf", "propertyIsEnumerable", "toString",
    "toLocaleString", "valueOf", "__defineGetter__", "__defineSetter__", "__lookupGetter__",
    "__lookupSetter__"
  }

  /** What looking a slug up in the table finds: one of its own hook names, an inherited method,
      or, for `__proto__`, the prototype object itself. */
  datatype HookName = Named(name: string) | InheritedMethod | PrototypeObject

  /** `HOOK_NAME_MAP[hookSlug]`, kept when it is truthy. */
  function LookupHook(slug: string): (h: Option<HookName>)
    ensures slug in HookNameMap ==> h == Some(Named(HookNameMap[slug]))
    ensures h.Some? <==> slug in HookNameMap || slug in InheritedMethods || slug == "__proto__"
    ensures h.Some? && h.value.Named? ==> slug in HookNameMap
  {
    if slug in HookNameMap then Some(Named(HookNameMap[slug]))
    else if slug in InheritedMethods then Some(InheritedMethod)
    else if slug == "__proto__" then Some(PrototypeObject)
    else None
  }

  /** The `hook` property as `JSON.stringify` writes it: a name as a string, an empty object for
      the prototype (it has no own enumerable properties), and nothing for a function. */
  function HookValue(h: HookName): (v: Option<Value>)
    ensures v.None? <==> h == InheritedMethod
    ensures h.Named? ==> v == Some(Str(h.name))
  {
    match h
    case Named(name) => Some(Str(name))
    case InheritedMethod => None
    case PrototypeObject => Some(Obj(map[]))
  }

  /** The text read from standard input: its lines joined back with line feeds, so every line
      end becomes a line feed, no carriage return survives, and a final line end is dropped. */
  function RawInput(stdin: string): (raw: string)
    ensures raw == JoinLines(ReadLines(stdin))
    ensures '\r' !in raw
    ensures forall t :: stdin == t + "\n" && '\r' !in t ==> raw == t
  {
    forall t | stdin == t + "\n" && '\r' !in t ensures JoinLines(ReadLines(stdin)) == t {
      ReadDropsFinalNewline(t);
    }
    NoCharInJoin(ReadLines(stdin), '\r');
    JoinLines(ReadLines(stdin))
  }

  /** The hook's payload: the parsed input, or an empty object when it is not JSON. */
  function Payload(raw: string): (v: Value)
    ensures Parse(raw).Some? ==> v == Parse(raw).value
    ensures Parse(raw).None? ==> v == Obj(map[])
  {
    Parse(raw).GetOr(Obj(map[]))
  }

  /** The defaults the body starts from before the payload is spread over them, as they are
      written out: a function-valued `hook` is dropped. */
  function Defaults(hook: HookName, sessionEnv: Option<string>, agentEnv: Option<string>): Record {
    var ids := map["session_id" := Str(sessionEnv.GetOr("unknown")),
                   "agent_id" := Str(agentEnv.GetOr("agent-0"))];
    if HookValue(hook).Some? then ids["hook" := HookValue(hook).value] else ids
  }

  /** The posted body: the payload's own properties win over the defaults. */
  function Body(hook: HookName, sessionEnv: Option<string>, agentEnv: Option<string>, payload: Value): (b: Record)
    ensures forall k :: k in Spread(payload) ==> k in b && b[k] == Spread(payload)[k]
    ensures "hook" !in Spread(payload) ==> Field(b, "hook") == HookValue(hook)
    ensures "session_id" !in Spread(payload) ==> Field(b, "session_id") == Some(Str(sessionEnv.GetOr("unknown")))
    ensures "agent_id" !in Spread(payload) ==> Field(b, "agent_id") == Some(Str(agentEnv.GetOr("agent-0")))
    ensures b.Keys == Spread(payload).Keys + {"session_id", "agent_id"} + (if HookValue(hook).Some? then {"hook"} else {})
  {
    Defaults(hook, sessionEnv, agentEnv) + Spread(payload)
  }

  /** What the command does: the text it posts to the daemon's event route, or nothing when the
      slug finds nothing truthy in the table. */
  function RunHook(slug: string, stdin: string, sessionEnv: Option<string>, agentEnv: Option<string>): (post: Option<string>)
    ensures post.Some? <==> LookupHook(slug).Some?
    ensures post.Some? <==> slug in HookNameMap || slug in InheritedMethods || slug == "__proto__"
  {
    match LookupHook(slug)
    case Some(hook) => Some(Serialize(Obj(Body(hook, sessionEnv, agentEnv, Payload(RawInput(stdin))))))
    case None => None
  }

  /** The daemon reads the posted text back as exactly the body the command built. */
  lemma PostParses(slug: string, stdin: string, sessionEnv: Option<string>, agentEnv: Option<string>)
    requires slug in HookNameMap
    ensures Parse(RunHook(slug, stdin, sessionEnv, agentEnv).value)
      == Some(Obj(Body(Named(HookNameMap[slug]), sessionEnv, agentEnv, Payload(RawInput(stdin)))))
  {
    ParseSerialize(Obj(Body(Named(HookNameMap[slug]), sessionEnv, agentEnv, Payload(RawInput(stdin)))));
  }

  /** Input that is not JSON still posts an event: the defaults alone. */
  lemma BrokenInputPostsDefaults(slug: string, stdin: string, sessionEnv: Option<string>, agentEnv: Option<string>)
    requires slug in HookNameMap && Parse(RawInput(stdin)).None?
    ensures Parse(RunHook(slug, stdin, sessionEnv, agentEnv).value)
      == Some(Obj(Defaults(Named(HookNameMap[slug]), sessionEnv, agentEnv)))
  {
    PostParses(slug, stdin, sessionEnv, agentEnv);
    assert Payload(RawInput(stdin)) == Obj(map[]);
    assert Spread(Obj(map[])) == map[];
    UnionEmpty(Defaults(Named(HookNameMap[slug]), sessionEnv, agentEnv));
  }

  /** A slug that finds an inherited method posts a body without `hook` (unless the payload
      brings one); the daemon then stores nothing for it. */
  lemma InheritedSlugIgnored(slug: string, stdin: string, sessionEnv: Option<string>, agentEnv: Option<string>,
                             freshId: string, now: int)
    requires slug in InheritedMethods && "hook" !in Spread(Payload(RawInput(stdin)))
    ensures RunHook(slug, stdin, sessionEnv, agentEnv).Some?
    ensures Accepted(RunHook(slug, stdin, sessionEnv, agentEnv).value, freshId, now).None?
  {
    var b := Body(InheritedMethod, sessionEnv, agentEnv, Payload(RawInput(stdin)));
    assert LookupHook(slug) == Some(InheritedMethod) by {
      InheritedNotNamed(slug);
    }
    NoNameIgnored(b, freshId, now);
  }

  /** `__proto__` posts a body whose `hook` is an empty object; the daemon stores nothing for it
      either. */
  lemma PrototypeSlugIgnored(stdin: string, sessionEnv: Option<string>, agentEnv: Option<string>,
                             freshId: string, now: int)
    requires "hook" !in Spread(Payload(RawInput(stdin)))
    ensures RunHook("__proto__", stdin, sessionEnv, agentEnv).Some?
    ensures Accepted(RunHook("__proto__", stdin, sessionEnv, agentEnv).value, freshId, now).None?
  {
    var b := Body(PrototypeObject, sessionEnv, agentEnv, Payload(RawInput(stdin)));
    assert LookupHook("__proto__") == Some(PrototypeObject) by {
      InheritedNotNamed("__proto__");
    }
    NoNameIgnored(b, freshId, now);
  }

  /** The inherited keys and the table's own slugs are apart. */
  lemma InheritedNotNamed(slug: string)
    requires slug in InheritedMethods || slug == "__proto__"
    ensures slug !in HookNameMap
    ensures slug == "__proto__" ==> slug !in InheritedMethods
  {
  }

  /** A body whose `hook` is missing or not a string yields no event. */
  lemma NoNameIgnored(b: Record, freshId: string, now: int)
    requires Field(b, "hook").None? || !Field(b, "hook").value.Str?
    ensures Accepted(Serialize(Obj(b)), freshId, now).None?
  {
    ParseSerialize(Obj(b));
    assert FieldsOf(Obj(b)) == b;
  }

  /** Spreading nothing over a map leaves it as it was. */
  lemma UnionEmpty(a: Record)
    ensures a + map[] == a
  {
  }

  /** A known slug whose payload brings no `hook` of its own becomes an event of that hook's
      arm, attributed to the agent the body names. */
  lemma PostIsAccepted(slug: string, stdin: string, sessionEnv: Option<string>, agentEnv: Option<string>,
                       freshId: string, now: int)
    requires slug in HookNameMap && "hook" !in Spread(Payload(RawInput(stdin)))
    ensures Accepted(RunHook(slug, stdin, sessionEnv, agentEnv).value, freshId, now)
      == Some(Arm(Body(Named(HookNameMap[slug]), sessionEnv, agentEnv, Payload(RawInput(stdin))),
                  AgentOf(Body(Named(HookNameMap[slug]), sessionEnv, agentEnv, Payload(RawInput(stdin)))),
                  freshId, now, HookNameMap[slug]))
  {
    var b := Body(Named(HookNameMap[slug]), sessionEnv, agentEnv, Payload(RawInput(stdin)));
    PostParses(slug, stdin, sessionEnv, agentEnv);
    HookNamesAreArms();
    assert HookNameMap[slug] in HookNameMap.Values;
    assert FieldsOf(Obj(b)) == b;
    NormalizeIsArm(b, AgentOf(b), freshId, now, HookNameMap[slug]);
  }

  /** Without an `agent_id` in the payload, the event is attributed to the agent named by the
      environment, or to the root agent. */
  lemma PostAgent(slug: string, stdin: string, sessionEnv: Option<string>, agentEnv: Option<string>)
    requires slug in HookNameMap && "agent_id" !in Spread(Payload(RawInput(stdin)))
    ensures AgentOf(Body(Named(HookNameMap[slug]), sessionEnv, agentEnv, Payload(RawInput(stdin))))
      == Str(agentEnv.GetOr("agent-0"))
  {
  }
}
