/** The `init` command: it merges the six hook registrations into the agent runtime's settings
    file, keeping every other setting and every hook it does not own. */
module Init {
  import opened Wrappers
  import opened Json
  import opened Codec
  import opened Normalizer
  import Hook

  /** The command line one registration runs. */
  function Command(bin: string, slug: string): string {
    bin + " hook " + slug
  }

  /** One registration without a matcher: `{hooks: [{type: 'command', command}]}`. */
  function Handler(bin: string, slug: string): Record {
    map["hooks" := Arr([Obj(map["type" := Str("command"), "command" := Str(Command(bin, slug))])])]
  }

  /** A registration for the tool hooks, which also match every tool. */
  function Matched(bin: string, slug: string): Record {
    map["matcher" := Str("*")] + Handler(bin, slug)
  }

  /** The hook registrations the command installs, keyed by hook name. */
  function HooksConfig(bin: string): Record {
    map["PreToolUse" := Arr([Obj(Matched(bin, "pre-tool-use"))]),
        "PostToolUse" := Arr([Obj(Matched(bin, "post-tool-use"))]),
        "Notification" := Arr([Obj(Handler(bin, "notification"))]),
        "Stop" := Arr([Obj(Handler(bin, "stop"))]),
        "PreCompact" := Arr([Obj(Handler(bin, "pre-compact"))]),
        "PostCompact" := Arr([Obj(Handler(bin, "post-compact"))])]
  }

  /** The whole configuration object `buildHooksConfig` returns. */
  function BuildHooksConfig(bin: string): Value {
    Obj(map["hooks" := Obj(HooksConfig(bin))])
  }

  /** The command installs a registration for exactly the hook names the daemon has arms for. */
  lemma ConfigKeys(bin: string)
    ensures HooksConfig(bin).Keys == HookArms
  {
  }

  /** The installed registrations agree with the `hook` command: the registration under each
      hook name runs the slug that the command maps back to that same name, and only the tool
      hooks carry a matcher. */
  lemma ConfigRunsHook(bin: string, slug: string)
    requires slug in Hook.HookNameMap
    ensures Hook.HookNameMap[slug] in HooksConfig(bin)
    ensures HooksConfig(bin)[Hook.HookNameMap[slug]]
      == Arr([Obj(if slug in {"pre-tool-use", "post-tool-use"} then Matched(bin, slug) else Handler(bin, slug))])
  {
    if slug == "pre-tool-use" {
    } else if slug == "post-tool-use" {
    } else if slug == "notification" {
    } else if slug == "stop" {
    } else if slug == "pre-compact" {
    } else {
      assert slug == "post-compact";
    }
  }

  /** The settings read before the merge: the parsed file, or an empty object when the file is
      missing or is not JSON. */
  function Existing(file: Option<string>): (v: Value)
    ensures file.Some? && Parse(file.value).Some? ==> v == Parse(file.value).value
    ensures file.None? || Parse(file.value).None? ==> v == Obj(map[])
  {
    if file.Some? && Parse(file.value).Some? then Parse(file.value).value else Obj(map[])
  }

  /** The hooks section after the merge: the existing section's entries with the six
      registrations written over them. */
  function MergedHooks(existing: Value, bin: string): Record {
    Spread(Coalesce(Member(existing, "hooks"), Obj(map[]))) + HooksConfig(bin)
  }

  /** The merged settings, or nothing when reading `hooks` off the parsed value throws (the
      file holds `null`). */
  function Merge(existing: Value, bin: string): (m: Option<Record>)
    ensures m.None? <==> existing == Null
  {
    if existing == Null then None
    else Some(Spread(existing) + map["hooks" := Obj(MergedHooks(existing, bin))])
  }

  /** What the command writes to the settings file, or nothing when it fails. */
  function RunInit(file: Option<string>, bin: string): (out: Option<string>)
    ensures out.Some? <==> Merge(Existing(file), bin).Some?
  {
    var m := Merge(Existing(file), bin);
    if m.Some? then Some(Serialize(Obj(m.value))) else None
  }

  /** Every setting other than `hooks` survives the merge unchanged. */
  lemma MergeKeepsSettings(existing: Value, bin: string, k: string)
    requires existing.Obj? && k in existing.fields && k != "hooks"
    ensures Merge(existing, bin).Some?
    ensures k in Merge(existing, bin).value && Merge(existing, bin).value[k] == existing.fields[k]
  {
  }

  /** Registrations under hook names the command does not own survive the merge. */
  lemma MergeKeepsForeignHooks(existing: Value, bin: string, name: string)
    requires existing.Obj? && "hooks" in existing.fields && existing.fields["hooks"].Obj?
    requires name in existing.fields["hooks"].fields && name !in HookArms
    ensures Merge(existing, bin).Some?
    ensures Member(Obj(Merge(existing, bin).value), "hooks") == Some(Obj(MergedHooks(existing, bin)))
    ensures name in MergedHooks(existing, bin)
    ensures MergedHooks(existing, bin)[name] == existing.fields["hooks"].fields[name]
  {
    ConfigKeys(bin);
  }

  /** The merged settings hold exactly the existing keys plus `hooks`, and the merged hooks
      section exactly the existing hook names plus the six the command owns. */
  lemma MergeKeys(existing: Value, bin: string)
    requires existing != Null
    ensures Merge(existing, bin).Some?
    ensures Merge(existing, bin).value.Keys == Spread(existing).Keys + {"hooks"}
    ensures MergedHooks(existing, bin).Keys
      == Spread(Coalesce(Member(existing, "hooks"), Obj(map[]))).Keys + HookArms
  {
    ConfigKeys(bin);
  }

  /** After the merge, each of the six hook names holds exactly the command's registration. */
  lemma MergeInstallsAll(existing: Value, bin: string, name: string)
    requires existing != Null && name in HookArms
    ensures Merge(existing, bin).Some?
    ensures Member(Obj(Merge(existing, bin).value), "hooks") == Some(Obj(MergedHooks(existing, bin)))
    ensures name in MergedHooks(existing, bin) && MergedHooks(existing, bin)[name] == HooksConfig(bin)[name]
  {
    ConfigKeys(bin);
  }

  /** With no settings file, or an unreadable one, the result is the configuration alone. */
  lemma FreshSettings(file: Option<string>, bin: string)
    requires file.None? || Parse(file.value).None?
    ensures Merge(Existing(file), bin) == Some(map["hooks" := Obj(HooksConfig(bin))])
  {
    assert Existing(file) == Obj(map[]);
    assert Member(Obj(map[]), "hooks") == None;
    assert Spread(Obj(map[])) == map[];
    assert MergedHooks(Obj(map[]), bin) == map[] + HooksConfig(bin) == HooksConfig(bin);
    assert map[] + map["hooks" := Obj(HooksConfig(bin))] == map["hooks" := Obj(HooksConfig(bin))];
  }

  /** Writing the same entries over a map a second time changes nothing. */
  lemma UnionAgain(a: Record, c: Record)
    ensures (a + c) + c == a + c
  {
  }

  /** Merging settings that already hold the registrations changes nothing. */
  lemma MergeIdempotent(existing: Value, bin: string)
    requires existing != Null
    ensures Merge(Obj(Merge(existing, bin).value), bin) == Merge(existing, bin)
  {
    var m := Merge(existing, bin).value;
    var h := MergedHooks(existing, bin);
    var own := Spread(Coalesce(Member(existing, "hooks"), Obj(map[])));
    assert h == own + HooksConfig(bin);
    assert m == Spread(existing) + map["hooks" := Obj(h)];
    assert Member(Obj(m), "hooks") == Some(Obj(h));
    assert MergedHooks(Obj(m), bin) == h + HooksConfig(bin);
    UnionAgain(own, HooksConfig(bin));
    UnionAgain(Spread(existing), map["hooks" := Obj(h)]);
  }

  /** Running the command a second time writes the same file again. */
  lemma RunInitIdempotent(file: Option<string>, bin: string)
    requires RunInit(file, bin).Some?
    ensures RunInit(RunInit(file, bin), bin) == RunInit(file, bin)
  {
    var m := Merge(Existing(file), bin).value;
    ParseSerialize(Obj(m));
    assert Existing(RunInit(file, bin)) == Obj(m);
    MergeIdempotent(Existing(file), bin);
  }
}
