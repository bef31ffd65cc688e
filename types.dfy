/** The canonical trace events and the session statistics record shared by the daemon, the
    command line and the browser (src/shared/types.ts). `Encode` gives the JSON object an event
    is on the wire and in the log; `Decode` recognises the objects that have the declared shape. */
module Types {
  import opened Wrappers
  import opened Json

  // ---------------------------------------------------------------- tool categories

  /** The closed set of tool categories. */
  datatype ToolType = Bash | File | Web | Task | Other

  const AllToolTypes: seq<ToolType> := [Bash, File, Web, Task, Other]

  function ToolTypeName(t: ToolType): string {
    match t
    case Bash => "bash"
    case File => "file"
    case Web => "web"
    case Task => "task"
    case Other => "other"
  }

  /** The category a name denotes; `None` for a string that is not one of the five. */
  function ToolTypeFromName(s: string): (o: Option<ToolType>)
    ensures o.Some? ==> ToolTypeName(o.value) == s
  {
    if s == "bash" then Some(Bash)
    else if s == "file" then Some(File)
    else if s == "web" then Some(Web)
    else if s == "task" then Some(Task)
    else if s == "other" then Some(Other)
    else None
  }

  /** There are exactly five categories, each named once, and every name reads back. */
  lemma ToolTypesClosed(t: ToolType)
    ensures t in AllToolTypes
    ensures |AllToolTypes| == 5
    ensures forall i, j :: 0 <= i < j < |AllToolTypes| ==>
      ToolTypeName(AllToolTypes[i]) != ToolTypeName(AllToolTypes[j])
    ensures ToolTypeFromName(ToolTypeName(t)) == Some(t)
  {
  }

  // ---------------------------------------------------------------- events

  datatype Level = Info | Warning | Error

  function LevelName(l: Level): string {
    match l
    case Info => "info"
    case Warning => "warning"
    case Error => "error"
  }

  function LevelFromName(s: string): (o: Option<Level>)
    ensures o.Some? ==> LevelName(o.value) == s
  {
    if s == "info" then Some(Info)
    else if s == "warning" then Some(Warning)
    else if s == "error" then Some(Error)
    else None
  }

  /** The fields every event carries. */
  datatype Base = Base(id: string, sessionId: string, agentId: string, timestamp: int)

  datatype CompactPhase = CompactStart | CompactEnd

  datatype TraceEvent =
    | ToolStart(base: Base, toolName: string, toolType: ToolType)
    | ToolEnd(base: Base, toolName: string, toolType: ToolType,
              durationMs: int, success: bool, outputSize: Option<int>)
    | Notification(base: Base, message: string, level: Level)
    | SessionEnd(base: Base, totalInputTokens: int, totalOutputTokens: int, model: string)
    | Compact(base: Base, phase: CompactPhase, tokensBefore: Option<int>, tokensAfter: Option<int>)
    | AgentSpawn(base: Base, parentAgentId: string, childAgentId: string)
    | AgentComplete(base: Base, parentAgentId: string, childAgentId: string)

  /** The `type` tag of an event. */
  function TypeName(e: TraceEvent): string {
    match e
    case ToolStart(_, _, _) => "tool_start"
    case ToolEnd(_, _, _, _, _, _) => "tool_end"
    case Notification(_, _, _) => "notification"
    case SessionEnd(_, _, _, _) => "session_end"
    case Compact(_, phase, _, _) => if phase == CompactStart then "compact_start" else "compact_end"
    case AgentSpawn(_, _, _) => "agent_spawn"
    case AgentComplete(_, _, _) => "agent_complete"
  }

  // ---------------------------------------------------------------- encoding

  function EncodeBase(b: Base, tag: string): Record {
    map["id" := Str(b.id), "sessionId" := Str(b.sessionId), "agentId" := Str(b.agentId),
        "timestamp" := Num(b.timestamp), "type" := Str(tag)]
  }

  /** An optional number is an absent key when it is not there. */
  function PutNum(r: Record, k: string, o: Option<int>): Record {
    if o.Some? then r[k := Num(o.value)] else r
  }

  /** The fields of an event beyond the common ones. */
  function Payload(e: TraceEvent): Record {
    match e
    case ToolStart(_, name, t) =>
      map["toolName" := Str(name), "toolType" := Str(ToolTypeName(t))]
    case ToolEnd(_, name, t, d, ok, size) =>
      PutNum(map["toolName" := Str(name), "toolType" := Str(ToolTypeName(t)),
                 "durationMs" := Num(d), "success" := Bool(ok)], "outputSize", size)
    case Notification(_, msg, l) =>
      map["message" := Str(msg), "level" := Str(LevelName(l))]
    case SessionEnd(_, i, o, m) =>
      map["totalInputTokens" := Num(i), "totalOutputTokens" := Num(o), "model" := Str(m)]
    case Compact(_, _, before, after) =>
      PutNum(PutNum(map[], "tokensBefore", before), "tokensAfter", after)
    case AgentSpawn(_, p, c) =>
      map["parentAgentId" := Str(p), "childAgentId" := Str(c)]
    case AgentComplete(_, p, c) =>
      map["parentAgentId" := Str(p), "childAgentId" := Str(c)]
  }

  /** The JSON object of an event: the common fields and the variant's own. */
  function Encode(e: TraceEvent): (r: Record)
    ensures Field(r, "id") == Some(Str(e.base.id))
    ensures Field(r, "sessionId") == Some(Str(e.base.sessionId))
    ensures Field(r, "agentId") == Some(Str(e.base.agentId))
    ensures Field(r, "timestamp") == Some(Num(e.base.timestamp))
    ensures Field(r, "type") == Some(Str(TypeName(e)))
  {
    Payload(e) + EncodeBase(e.base, TypeName(e))
  }

  // ---------------------------------------------------------------- decoding

  function GetStr(r: Record, k: string): (o: Option<string>)
    ensures o.Some? <==> k in r && r[k].Str?
  {
    if k in r && r[k].Str? then Some(r[k].s) else None
  }

  function GetNum(r: Record, k: string): (o: Option<int>)
    ensures o.Some? <==> k in r && r[k].Num?
  {
    if k in r && r[k].Num? then Some(r[k].n) else None
  }

  /** An optional number: `Some(None)` when the key is absent, `None` when it holds a non-number. */
  function GetOptNum(r: Record, k: string): Option<Option<int>> {
    if k !in r then Some(None) else if r[k].Num? then Some(Some(r[k].n)) else None
  }

  function DecodeBase(r: Record): Option<Base> {
    match (GetStr(r, "id"), GetStr(r, "sessionId"), GetStr(r, "agentId"), GetNum(r, "timestamp"))
    case (Some(id), Some(sid), Some(aid), Some(ts)) => Some(Base(id, sid, aid, ts))
    case _ => None
  }

  function DecodeTool(r: Record, b: Base, ended: bool): Option<TraceEvent> {
    match (GetStr(r, "toolName"), GetStr(r, "toolType"))
    case (Some(name), Some(tn)) =>
      (match ToolTypeFromName(tn)
       case None => None
       case Some(t) =>
         if !ended then Some(ToolStart(b, name, t))
         else if "success" in r && r["success"].Bool? then
           match (GetNum(r, "durationMs"), GetOptNum(r, "outputSize"))
           case (Some(d), Some(size)) => Some(ToolEnd(b, name, t, d, r["success"].b, size))
           case _ => None
         else None)
    case _ => None
  }

  function DecodeOther(r: Record, b: Base, tag: string): Option<TraceEvent> {
    if tag == "notification" then
      match (GetStr(r, "message"), GetStr(r, "level"))
      case (Some(msg), Some(ln)) =>
        (match LevelFromName(ln) case None => None case Some(l) => Some(Notification(b, msg, l)))
      case _ => None
    else if tag == "session_end" then
      match (GetNum(r, "totalInputTokens"), GetNum(r, "totalOutputTokens"), GetStr(r, "model"))
      case (Some(i), Some(o), Some(m)) => Some(SessionEnd(b, i, o, m))
      case _ => None
    else if tag == "compact_start" || tag == "compact_end" then
      match (GetOptNum(r, "tokensBefore"), GetOptNum(r, "tokensAfter"))
      case (Some(before), Some(after)) =>
        Some(Compact(b, if tag == "compact_start" then CompactStart else CompactEnd, before, after))
      case _ => None
    else if tag == "agent_spawn" || tag == "agent_complete" then
      match (GetStr(r, "parentAgentId"), GetStr(r, "childAgentId"))
      case (Some(p), Some(c)) =>
        Some(if tag == "agent_spawn" then AgentSpawn(b, p, c) else AgentComplete(b, p, c))
      case _ => None
    else None
  }

  /** The event a JSON object holds, when it has the declared shape (extra keys are ignored). */
  function Decode(r: Record): (o: Option<TraceEvent>)
    ensures o.Some? ==> Field(r, "type") == Some(Str(TypeName(o.value)))
  {
    match (DecodeBase(r), GetStr(r, "type"))
    case (Some(b), Some(tag)) =>
      if tag == "tool_start" then DecodeTool(r, b, false)
      else if tag == "tool_end" then DecodeTool(r, b, true)
      else DecodeOther(r, b, tag)
    case _ => None
  }

  lemma DecodeEncodeBase(e: TraceEvent)
    ensures DecodeBase(Encode(e)) == Some(e.base)
  {
  }

  lemma DecodeEncodeToolStart(e: TraceEvent)
    requires e.ToolStart?
    ensures Decode(Encode(e)) == Some(e)
  {
    DecodeEncodeBase(e);
    ToolTypesClosed(e.toolType);
  }

  /** The variant's own keys are not among the common ones, so `Encode` keeps them. */
  lemma PayloadKept(e: TraceEvent, k: string)
    requires k !in {"id", "sessionId", "agentId", "timestamp", "type"}
    ensures Field(Encode(e), k) == Field(Payload(e), k)
  {
  }

  lemma ToolEndFields(e: TraceEvent)
    requires e.ToolEnd?
    ensures DecodeTool(Encode(e), e.base, true) == Some(e)
  {
    ToolTypesClosed(e.toolType);
    var r := Encode(e);
    var p := Payload(e);
    assert p["toolName"] == Str(e.toolName) && p["toolType"] == Str(ToolTypeName(e.toolType));
    assert p["durationMs"] == Num(e.durationMs) && p["success"] == Bool(e.success);
    assert GetOptNum(p, "outputSize") == Some(e.outputSize);
    PayloadKept(e, "toolName");
    PayloadKept(e, "toolType");
    PayloadKept(e, "durationMs");
    PayloadKept(e, "success");
    PayloadKept(e, "outputSize");
  }

  lemma DecodeEncodeToolEnd(e: TraceEvent)
    requires e.ToolEnd?
    ensures Decode(Encode(e)) == Some(e)
  {
    DecodeEncodeBase(e);
    ToolEndFields(e);
  }

  lemma DecodeEncodeNotification(e: TraceEvent)
    requires e.Notification?
    ensures Decode(Encode(e)) == Some(e)
  {
    DecodeEncodeBase(e);
    assert LevelFromName(LevelName(e.level)) == Some(e.level);
  }

  lemma DecodeEncodeCompact(e: TraceEvent)
    requires e.Compact?
    ensures Decode(Encode(e)) == Some(e)
  {
    DecodeEncodeBase(e);
    var r := Encode(e);
    assert GetOptNum(r, "tokensBefore") == Some(e.tokensBefore);
    assert GetOptNum(r, "tokensAfter") == Some(e.tokensAfter);
  }

  lemma DecodeEncodeSessionEnd(e: TraceEvent)
    requires e.SessionEnd?
    ensures Decode(Encode(e)) == Some(e)
  {
    DecodeEncodeBase(e);
  }

  lemma DecodeEncodeAgent(e: TraceEvent)
    requires e.AgentSpawn? || e.AgentComplete?
    ensures Decode(Encode(e)) == Some(e)
  {
    DecodeEncodeBase(e);
  }

  /** Every event reads back from its JSON object. */
  lemma DecodeEncode(e: TraceEvent)
    ensures Decode(Encode(e)) == Some(e)
  {
    if e.ToolStart? {
      DecodeEncodeToolStart(e);
    } else if e.ToolEnd? {
      DecodeEncodeToolEnd(e);
    } else if e.Notification? {
      DecodeEncodeNotification(e);
    } else if e.Compact? {
      DecodeEncodeCompact(e);
    } else if e.SessionEnd? {
      DecodeEncodeSessionEnd(e);
    } else {
      DecodeEncodeAgent(e);
    }
  }

  // ---------------------------------------------------------------- session statistics

  /** Tool calls per category: a count for each of the five, so the record is total. */
  datatype ToolCounts = ToolCounts(bash: nat, file: nat, web: nat, task: nat, other: nat) {
    function Get(t: ToolType): nat {
      match t
      case Bash => bash
      case File => file
      case Web => web
      case Task => task
      case Other => other
    }

    function Inc(t: ToolType): (c: ToolCounts)
      ensures c.Get(t) == Get(t) + 1
      ensures forall u :: u != t ==> c.Get(u) == Get(u)
    {
      match t
      case Bash => this.(bash := bash + 1)
      case File => this.(file := file + 1)
      case Web => this.(web := web + 1)
      case Task => this.(task := task + 1)
      case Other => this.(other := other + 1)
    }

    function Sum(): nat {
      bash + file + web + task + other
    }
  }

  const NoCounts := ToolCounts(0, 0, 0, 0, 0)

  /** A `session_end`'s tokens and model are held as the JSON values the record carries (`None`
      where it has none): the declared types are number and string, but a payload the daemon
      accepts may hold others. */
  datatype SessionStats = SessionStats(
    sessionId: string,
    startTime: int,
    endTime: Option<int>,
    totalInputTokens: Option<Value>,
    totalOutputTokens: Option<Value>,
    toolCallCount: nat,
    toolCallsByType: ToolCounts,
    agentCount: nat,
    model: Option<Value>)

  function EncodeCounts(c: ToolCounts): Value {
    Obj(map["bash" := Num(c.bash), "file" := Num(c.file), "web" := Num(c.web),
            "task" := Num(c.task), "other" := Num(c.other)])
  }

  /** The JSON object of the statistics; an absent optional field is an absent key. */
  function EncodeStats(s: SessionStats): (v: Value)
    ensures v.Obj? && Member(v, "sessionId") == Some(Str(s.sessionId))
    ensures Member(v, "endTime").Some? <==> s.endTime.Some?
    ensures Member(v, "model") == s.model
    ensures Member(v, "toolCallsByType") == Some(EncodeCounts(s.toolCallsByType))
  {
    var m := map["sessionId" := Str(s.sessionId), "startTime" := Num(s.startTime),
                 "toolCallCount" := Num(s.toolCallCount), "toolCallsByType" := EncodeCounts(s.toolCallsByType),
                 "agentCount" := Num(s.agentCount)];
    Obj(Put(Put(Put(PutNum(m, "endTime", s.endTime), "totalInputTokens", s.totalInputTokens),
                          "totalOutputTokens", s.totalOutputTokens), "model", s.model))
  }
}
