# trace-viz event pipeline in Dafny

This project models the event pipeline of `trace-viz`, a local daemon that records what a coding
agent does, and proves properties of that model.

- **Hook command.** The agent runtime calls `trace-viz hook <slug>` with a JSON payload on
  standard input. The command posts one body to the daemon.
- **Daemon.** It normalizes each posted payload into a canonical trace event. It appends the
  event to an in-memory store, writes it as one line to a JSON-lines session log, and
  broadcasts it to every open websocket. A socket that opens first receives a snapshot of the
  store and its statistics.
- **Replay command.** It reads such a log back and re-posts its events in order. Its loop
  throws, and stops, after a `null` line that is followed by an event.
- **Init command.** It installs the six hook registrations into the runtime's settings.
- **Web client.** It keeps the events it has been sent. The topology panel folds them into a
  tree of agents.

Modules, one per source file, plus three that hold what those files share:

| module | file | what it holds |
|---|---|---|
| `Wrappers` | `wrappers.dfy` | `Option` |
| `Json` | `json.dfy` | JSON values and the JavaScript operations the sources apply to them: reading a property (`undefined` is an absent key), `??`, truthiness, object spread |
| `Codec` | `codec.dfy` | `JSON.stringify` and `JSON.parse` as one concrete text format, with a proved round trip and a proof that the text holds no newline |
| `Types` | `types.dfy` | the seven event variants, the tool categories, the session statistics, and the JSON shape of each with a proved decode/encode round trip |
| `Normalizer` | `normalizer.dfy` | `normalizeHookPayload`, arm by arm, over field maps |
| `Store` | `store.dfy` | the statistics as functions of the history, and class `EventStore` |
| `Logger` | `logger.dfy` | the log path, the line format, and class `SessionLogger` over a sink of written chunks |
| `Server` | `server.dfy` | route selection, the ingest path, and class `Daemon` (store, logger, open sockets, and every message each socket was sent) |
| `Text` | `text.dfy` | `split('\n')`, `join('\n')`, and line reading as `readline` does it |
| `Replay` | `replay.dfy` | `parseJSONL`, the replay wrapping, and the replay loop against a `Daemon` |
| `Hook` | `hook.dfy` | the slug table, including the keys every object inherits, and the posted body |
| `Init` | `init.dfy` | the hook configuration and the settings merge |
| `EventContext` | `event_context.dfy` | the client's message reducer, and class `Client` with its state |
| `Topology` | `topology.dfy` | the node-map loop and the links |

Ids from `randomUUID()`, clock readings from `Date.now()`, the home directory, environment
variables and file contents are all parameters.

The central result about the daemon is `Server.Daemon.Valid`, which every state-changing method
keeps. It says two things:

- the log holds one line per stored event, in order;
- each open socket has been sent a snapshot of the store as it stood when the socket opened,
  followed by one frame per event accepted since.

`EventContext.ClientSeesStore` closes the loop. A client that feeds its socket's messages
through the reducer ends with exactly the daemon's events: none duplicated, none missing.

That result needs one precondition: no stored event may have the type `snapshot`.

- The daemon does accept such an event. A replay payload forwards its `type` unchecked
  (`EventContext.SnapshotTaggedEventIsStored`).
- A client that receives such an event takes it for a snapshot and clears its list
  (`EventContext.SnapshotTaggedEventClears`).

Both halves are proved, so the precondition is what the source needs, not a gap in the proof.

## Model

| member | source | states |
|---|---|---|
| Json.Field | src/daemon/normalizer.ts:21 | reading a property of a record gives a value exactly when the key is present, and then that key's value; otherwise it is `undefined` |
| Json.Member | src/cli/commands/init.ts:30 | reading a property of any JSON value gives something only for an object that has the key |
| Json.Coalesce | src/daemon/normalizer.ts:21 | `a ?? d` is `d` when `a` is absent or `null`, and `a` otherwise |
| Json.Spread | src/cli/commands/hook.ts:24-29 | `{...v}` gives an object's own fields, a string's characters or an array's items under their index keys, and nothing for other values |
| Codec.Serialize | src/daemon/logger.ts:20 | `JSON.stringify` gives a non-empty text that begins with neither a closing bracket nor whitespace, so a reader can tell where a value starts |
| Codec.Parse | src/cli/commands/replay.ts:9 | `JSON.parse` fails on empty text; `None` is where the source's parse throws; what it reads is stated by the lemmas below |
| Codec.ParseSerialize | src/daemon/logger.ts:20 | parsing a serialized value gives back exactly that value |
| Codec.SerializeOneLine | src/daemon/logger.ts:20 | a serialized value contains no newline, so each log record is one line |
| Codec.EscapeReads | src/daemon/logger.ts:20 | every escape the writer emits (quote, backslash, `\b`, `\f`, `\n`, `\r`, `\t`, `\u00XX` for the other control characters) is read back as the character it stands for |
| Codec.EscapeControl | src/daemon/logger.ts:20 | a control character without a short escape is written as `\u00` and two lower-case hex digits |
| Codec.ParseAroundWs | src/cli/commands/init.ts:26 | whitespace before and after a value is skipped |
| Codec.LeadingZeroRefused | src/cli/commands/replay.ts:9 | a number with a leading zero, such as `01`, is not JSON |
| Codec.TabEscapeRead | src/cli/commands/hook.ts:22 | `\t` in a string literal reads as a tab |
| Codec.ParseFieldsRepeated | src/cli/commands/replay.ts:9 | when a key comes again later in an object, the later member's value is kept |
| Codec.DuplicateKeyLaterWins | src/cli/commands/replay.ts:9 | `{"k":v,"k":w}` reads as `{"k":w}`, whatever the key and the two values |
| Types.ToolTypesClosed | src/shared/types.ts:1 | there are exactly five tool categories, all distinct, and each one's name reads back as that category |
| Types.ToolTypeFromName | src/shared/types.ts:1 | a name read as a category is that category's name |
| Types.LevelFromName | src/shared/types.ts:28 | a name read as a notification level is that level's name |
| Types.Encode | src/shared/types.ts:3-8 | every variant's JSON carries `id`, `sessionId`, `agentId`, `timestamp` and its `type` tag |
| Types.Decode | src/shared/types.ts:56-63 | a record decodes only to the variant its `type` tag names |
| Types.DecodeEncode | src/shared/types.ts:3-63 | every event decodes back from its JSON exactly, whatever its variant |
| Types.DecodeEncodeToolStart | src/shared/types.ts:10-14 | a tool start, with its tool name and category, decodes back exactly |
| Types.DecodeEncodeToolEnd | src/shared/types.ts:16-23 | a tool end, with its duration, success flag and optional output size, decodes back exactly |
| Types.DecodeEncodeNotification | src/shared/types.ts:25-29 | a notification with its message and level decodes back exactly |
| Types.DecodeEncodeSessionEnd | src/shared/types.ts:31-36 | a session end with its token totals and model decodes back exactly |
| Types.DecodeEncodeCompact | src/shared/types.ts:38-42 | both compaction events share one shape whose two token counts are each optional, and decode back exactly |
| Types.DecodeEncodeAgent | src/shared/types.ts:44-54 | an agent spawn or completion, with parent and child ids, decodes back exactly |
| Types.ToolCounts.Inc | src/daemon/store.ts:21 | counting a tool end raises its own category by one and leaves the other four unchanged |
| Types.EncodeStats | src/shared/types.ts:65-75 | the statistics' JSON has the session id, an `endTime` exactly when one is set, the optional model, and a count for every category |
| Normalizer.ToolTypeOf | src/daemon/normalizer.ts:4-13 | the six file tools map to file, `Bash` to bash, the two web tools to web, `Task` to task, in each case exactly; every other name maps to other |
| Normalizer.HookOf | src/daemon/normalizer.ts:26 | a payload's hook is its `hook` field exactly when that field is a string |
| Normalizer.Prefix | src/daemon/normalizer.ts:31 | `slice(0, 6)` is a prefix of length six, or the whole text when it is shorter |
| Normalizer.Arm | src/daemon/normalizer.ts:19-24 | every arm's event has the fresh id, the current time, the agent given, and the payload's `session_id` or `'unknown'` |
| Normalizer.Normalize | src/daemon/normalizer.ts:15-68 | an event comes out exactly for one of the six hook names, or for a replay payload with a truthy `type`; it always has the fresh id and time, and outside replay also the given agent and session |
| Normalizer.NormalizeIsArm | src/daemon/normalizer.ts:26-58 | each of the six hook names selects its own arm |
| Normalizer.TaskSpawnsAgent | src/daemon/normalizer.ts:29-33 | a `Task` tool start becomes `agent_spawn`, never a tool start; the parent is the given agent, and the child is `tool_input.subagent_id` or `agent-` plus the first six characters of the fresh id |
| Normalizer.OtherToolStarts | src/daemon/normalizer.ts:34 | any other tool start becomes `tool_start` with its tool name and category |
| Normalizer.PostToolUseEnds | src/daemon/normalizer.ts:36-44 | a finished tool becomes `tool_end` with its name and category, and a duration that defaults to 0 |
| Normalizer.PostToolUseOutcome | src/daemon/normalizer.ts:42-43 | `success` holds exactly when the response has no truthy `error`; `outputSize` is present exactly when the output is a string, and is then its length |
| Normalizer.NotificationDefaults | src/daemon/normalizer.ts:46-47 | a notification's message defaults to the empty text, and its level is always `info` |
| Normalizer.StopDefaults | src/daemon/normalizer.ts:48-54 | a session end's token totals default to 0, and its model defaults to `'unknown'` |
| Normalizer.PreCompactCopies | src/daemon/normalizer.ts:55-56 | `compact_start` copies `tokens_before`, with no default |
| Normalizer.PostCompactCopies | src/daemon/normalizer.ts:57-58 | `compact_end` copies `tokens_after`, with no default |
| Normalizer.ReplayPassesThrough | src/daemon/normalizer.ts:59-62 | a replay payload with a truthy `type` comes out with all of its own fields, `hook` included, and only `id` and `timestamp` replaced |
| Normalizer.ReplayRestamps | src/daemon/normalizer.ts:62 | the replayed event is the payload re-stamped, whatever agent the daemon passed |
| Normalizer.ReplayNeedsType | src/daemon/normalizer.ts:63 | a replay payload without a truthy `type` gives no event |
| Normalizer.ArmNoHook | src/daemon/normalizer.ts:26-58 | no event of the six arms carries a `hook` field |
| Normalizer.UnknownHookIsDropped | src/daemon/normalizer.ts:65-66 | an unknown hook gives no event |
| Normalizer.ReadIsFileStart | src/daemon/normalizer.ts:5 | a `Read` tool start is a `tool_start` in the file category |
| Normalizer.SessionOfCoalesce | src/daemon/normalizer.ts:21 | the session defaulting agrees with reading the field as a string |
| Normalizer.ToolStartConforms | src/daemon/normalizer.ts:34 | with a string session, a non-`Task` tool start is exactly the JSON of the typed `tool_start` event |
| Normalizer.AgentSpawnConforms | src/daemon/normalizer.ts:29-32 | with a string session and child id, a `Task` tool start is exactly the JSON of the typed `agent_spawn` event |
| Store.ToolEnds | src/daemon/store.ts:18 | every event kept is a tool end from the history, every tool end of the history is kept, and there are no more of them than events |
| Store.ToolEndsCount | src/daemon/store.ts:18 | the filter keeps as many events as the history has tool ends |
| Store.CategoryOf | src/daemon/store.ts:21 | a tool end is counted under a category only when its `toolType` names that category |
| Store.FirstSessionEnd | src/daemon/store.ts:24 | there is none exactly when no event is a session end; otherwise it is the first one |
| Store.CountsAddUp | src/daemon/store.ts:19-22 | the per-category counts plus the tool ends without a category make the number of tool ends |
| Store.CountsPerCategory | src/daemon/store.ts:19-22 | the increment loop's count for a category is the number of tool ends in that category |
| Store.StatsMeaning | src/daemon/store.ts:17-36 | the statistics hold the fixed session id and start time, the number of tool ends in the history, the per-category counts, and the number of distinct agents; `endTime` is present exactly when a session end exists; without one, the tokens are 0 and there is no model |
| Store.CountsSumToTotal | src/daemon/store.ts:19-22 | when every tool end has one of the five categories, the per-category counts sum to the tool-call count |
| Store.StatsFromFirstSessionEnd | src/daemon/store.ts:24-34 | the token totals and model come from the first session end, and the end time is set |
| Store.AgentCountBounded | src/daemon/store.ts:23 | there are never more distinct agents than events |
| Store.EventStore.constructor | src/daemon/store.ts:4-7 | a new store is empty, with its session id and start time fixed |
| Store.EventStore.Add | src/daemon/store.ts:9-11 | the event is appended at the end and the earlier events are unchanged |
| Store.EventStore.GetAll | src/daemon/store.ts:13-15 | the copy equals the current history |
| Store.EventStore.GetStats | src/daemon/store.ts:17-36 | the loop's result is the statistics function of the history, session id and start time, and the history is untouched |
| Logger.LogPath | src/daemon/logger.ts:6-15 | the path is the sessions directory under the home directory, then the session id, then `.jsonl` |
| Logger.LogPathInjective | src/daemon/logger.ts:15 | two sessions never share a log file |
| Logger.LineShape | src/daemon/logger.ts:20 | a record is one line: newline-terminated, with no other newline |
| Logger.Lines | src/daemon/logger.ts:20 | the log of a history is one record per event, in order |
| Logger.SessionLogger.constructor | src/daemon/logger.ts:9-11 | a new logger has no sink |
| Logger.SessionLogger.Init | src/daemon/logger.ts:13-17 | init opens an empty sink on the session's path |
| Logger.SessionLogger.Write | src/daemon/logger.ts:19-21 | a write appends exactly one record after the earlier ones, and does nothing before init |
| Logger.SessionLogger.Close | src/daemon/logger.ts:23-26 | close ends the sink without changing what was written, and does nothing without a sink |
| Server.RouteOf | src/daemon/server.ts:30-62 | upgrade is tried first; `/health`, `/stats` and `/events` answer any method; `/event` ingests only for POST; the static path maps `/` to `/index.html`; everything else is not found |
| Server.GetEventIsNotFound | src/daemon/server.ts:38 | a GET of `/event` without a web build is not found |
| Server.AgentOf | src/daemon/server.ts:45 | the agent is the body's `agent_id`, or `'agent-0'` when that is absent or null |
| Server.FieldsOf | src/daemon/server.ts:41-46 | the normalizer sees an object's own fields, and no fields for any other JSON value |
| Server.Objects | src/daemon/server.ts:36 | the events route lists every stored event, in order |
| Server.TextParses | src/daemon/server.ts:20-23 | every frame a socket receives parses back to the value that was sent |
| Server.Accepted | src/daemon/server.ts:38-51 | an event is accepted only for a body that parses to something other than `null`, and is then the normalized payload for the body's agent |
| Server.Stored | src/daemon/server.ts:46-51 | one post stores at most one event |
| Server.StoredMeaning | src/daemon/server.ts:46-51 | a post stores nothing when the body is not JSON or is rejected, and otherwise stores exactly the accepted event |
| Server.Broadcasts | src/daemon/server.ts:50 | each stored event goes out as its own frame, in order |
| Server.JoinNow | src/daemon/server.ts:65-67 | a socket that has just received the snapshot is in step with the store |
| Server.JoinedAppend | src/daemon/server.ts:47-51 | storing an event and sending it keeps a socket in step with the store |
| Server.JoinedStreams | src/daemon/server.ts:47-51 | a socket in step has one snapshot of a prefix of the store, followed by exactly the remaining events |
| Server.NotJsonIsRefused | src/daemon/server.ts:39-44 | text that is not JSON does not parse, so it is refused with 400 |
| Server.Daemon.constructor | src/daemon/server.ts:13-18 | a new daemon has an empty store, a log opened on the session's path, and no sockets |
| Server.Daemon.Broadcast | src/daemon/server.ts:20-23 | one identical frame is sent to every open socket, and to no other |
| Server.Daemon.Ingest | src/daemon/server.ts:38-52 | 400 for a body that is not JSON, 500 for `null`, otherwise 200; the store and every open socket gain exactly the stored events; closed sockets get nothing; the log keeps mirroring the store |
| Server.Daemon.Accept | src/daemon/server.ts:47-51 | an accepted event is appended to the store, written to the log and sent to every open socket |
| Server.Daemon.Open | src/daemon/server.ts:65-68 | the socket is added and its only message is a snapshot of the store and of its statistics at that moment |
| Server.Daemon.Close | src/daemon/server.ts:69 | the socket is removed; nothing already sent changes |
| Server.Daemon.Fetch | src/daemon/server.ts:27-63 | each route answers as the table above says; every route but ingest leaves the store, log and sockets unchanged; ingest answers and changes the store and sockets exactly as `Server.Daemon.Ingest` states |
| Server.Daemon.SnapshotThenStream | src/daemon/server.ts:47-51 | every open socket has received one snapshot of a prefix of the store, then exactly the remaining events, with no duplicate and no gap |
| Text.SplitLines | src/cli/commands/replay.ts:6 | splitting gives at least one piece, and no piece contains a newline |
| Text.JoinSplit | src/cli/commands/hook.ts:19 | joining the pieces with newlines gives back the text |
| Text.SplitAfterLine | src/cli/commands/replay.ts:6 | a line followed by a newline splits off as its own piece, before the pieces of the rest |
| Text.UnifyBreaks | src/cli/commands/hook.ts:16-18 | every line end, `\n`, `\r\n` or a lone `\r`, becomes one `\n`, so no carriage return is left; text without a carriage return is unchanged |
| Text.ReadLines | src/cli/commands/hook.ts:16-18 | the lines read from input contain neither a newline nor a carriage return |
| Text.CarriageReturnLineFeed | src/cli/commands/hook.ts:16-18 | `\r\n` ends one line, exactly as `\n` does |
| Text.LoneCarriageReturn | src/cli/commands/hook.ts:16-18 | a `\r` not followed by `\n` ends a line, exactly as `\n` does |
| Text.ReadDropsFinalNewline | src/cli/commands/hook.ts:16-19 | input without carriage returns that ends with a newline is read back without it |
| Text.ReadKeepsLastLine | src/cli/commands/hook.ts:16-19 | input without carriage returns and without a final line end is read back whole |
| Replay.ParseLines | src/cli/commands/replay.ts:7-11 | the parsed values are no more than the non-empty lines that `filter(Boolean)` keeps, and each one is the parse of some line |
| Replay.EmptyLog | src/cli/commands/replay.ts:4-11 | an empty file gives no events |
| Replay.BrokenLineSkipped | src/cli/commands/replay.ts:8-11 | a line that does not parse is skipped, and the rest is read as if it were absent |
| Replay.LineThen | src/cli/commands/replay.ts:5-11 | a line in front of the rest of the file contributes its value, when it is non-empty JSON of any layout, before the values of the rest |
| Replay.LogLine | src/cli/commands/replay.ts:4-11 | a log record in front of any text is read as its event, before the rest |
| Replay.LogRoundTrip | src/cli/commands/replay.ts:4-11 | reading a session log gives back exactly the logged events, in order |
| Replay.ReplayPayloadFields | src/cli/commands/replay.ts:33 | the replay payload has a `hook` of `__replay__` unless the event had one, and keeps every field of the event |
| Replay.BodyParses | src/cli/commands/replay.ts:33 | a posted body parses back to the replay payload |
| Replay.PayloadReplays | src/cli/commands/replay.ts:33 | the payload of a logged event takes the normalizer's replay arm |
| Replay.NormalizedReplayable | src/cli/commands/replay.ts:33 | every event the daemon normalizes can be replayed |
| Replay.ReplayAccepted | src/cli/commands/replay.ts:33 | the daemon accepts a replayed event as its payload re-stamped |
| Replay.StoredObject | src/cli/commands/replay.ts:33 | posting a replayed event stores exactly that re-stamped payload |
| Replay.StoredAt | src/cli/commands/replay.ts:29-34 | the i-th post stores the i-th event re-stamped |
| Replay.Restamped | src/cli/commands/replay.ts:29-34 | the replayed history is each event's payload re-stamped with its own id and time, in file order |
| Replay.ReplayEvents | src/cli/commands/replay.ts:29-34 | posting the wrapped events stores them all, re-stamped, in order |
| Replay.ReplayLog | src/cli/commands/replay.ts:20-34 | replaying a session log makes the daemon store every logged event again, in order, each with `hook: "__replay__"` added when it had no `hook`, and with a fresh id and time |
| Replay.PostedFrom | src/cli/commands/replay.ts:29-39 | counting from position `i`, the loop posts up to and including the first `null` that is followed by a truthy event, and every event when there is none |
| Replay.PostedCount | src/cli/commands/replay.ts:29-39 | the loop posts every event, or stops right after the first `null` followed by a truthy event, whose `timestamp` read throws |
| Replay.NoNullPostsAll | src/cli/commands/replay.ts:29-39 | without a parsed `null`, every event is posted |
| Replay.NullThenEventStops | src/cli/commands/replay.ts:35-37 | a `null` followed by an event stops the loop after the `null` is posted |
| Replay.PostNext | src/cli/commands/replay.ts:30-34 | one round posts the next body, and the store then holds what the posts so far store, in order |
| Replay.PostAll | src/cli/commands/replay.ts:29-39 | the loop appends exactly what the posts of the first `PostedCount` events store, one by one and in order; it completes exactly when that count is all the events; the daemon stays valid |
| Replay.RunReplay | src/cli/commands/replay.ts:19-39 | replaying a file appends the stored results of its parsed events, in order, up to where the loop throws, and completes exactly when it does not throw |
| Hook.HookNamesAreArms | src/cli/commands/hook.ts:3-10 | the six slugs name exactly the six hooks the normalizer has arms for |
| Hook.HookNamesDistinct | src/cli/commands/hook.ts:3-10 | no two slugs name the same hook |
| Hook.LookupHook | src/cli/commands/hook.ts:12-14 | a slug finds its hook name in the table, an inherited method for the keys every object has, the prototype for `__proto__`, and nothing otherwise |
| Hook.HookValue | src/cli/commands/hook.ts:24-35 | `JSON.stringify` writes a hook name as a string, the prototype as an empty object, and drops a method |
| Hook.RawInput | src/cli/commands/hook.ts:16-19 | the raw input is the lines read, joined with newlines: no carriage return survives, and a final newline is dropped |
| Hook.Payload | src/cli/commands/hook.ts:21-22 | the payload is the parsed input, or an empty object when the input is not JSON |
| Hook.Body | src/cli/commands/hook.ts:24-35 | the body has `session_id` (default `'unknown'`), `agent_id` (default `'agent-0'`) and, unless the lookup found a method, `hook`; every payload field overrides them |
| Hook.RunHook | src/cli/commands/hook.ts:12-35 | something is posted exactly when the slug is one of the six, a method every object inherits, or `__proto__` |
| Hook.InheritedSlugIgnored | src/cli/commands/hook.ts:12-35 | a slug such as `constructor` still posts, but without `hook`, so the daemon stores nothing |
| Hook.PrototypeSlugIgnored | src/cli/commands/hook.ts:12-35 | `__proto__` posts a body whose `hook` is `{}`, and the daemon stores nothing |
| Hook.NoNameIgnored | src/daemon/normalizer.ts:26-67 | a body whose `hook` is missing or not a string yields no event |
| Hook.PostParses | src/cli/commands/hook.ts:35 | the daemon parses the posted text back as exactly the body built |
| Hook.BrokenInputPostsDefaults | src/cli/commands/hook.ts:21-29 | input that is not JSON still posts the default body |
| Hook.PostIsAccepted | src/cli/commands/hook.ts:24-35 | when the payload has no `hook` of its own, the daemon turns the post into the event of that hook's arm |
| Hook.PostAgent | src/cli/commands/hook.ts:27 | without `agent_id` in the payload, the event's agent comes from the environment, or is `agent-0` |
| Init.ConfigKeys | src/cli/commands/init.ts:12-19 | the configuration has exactly the six hook names |
| Init.ConfigRunsHook | src/cli/commands/init.ts:8-18 | the registration under each name runs `<bin> hook <slug>` as a `command`, for the slug that maps back to that name; only the two tool hooks match `*` |
| Init.Existing | src/cli/commands/init.ts:24-27 | a missing settings file, or one that is not JSON, is read as an empty object |
| Init.Merge | src/cli/commands/init.ts:30 | the merge fails exactly when the settings hold `null` |
| Init.RunInit | src/cli/commands/init.ts:23-31 | a file is written exactly when the merge succeeds |
| Init.MergeKeepsSettings | src/cli/commands/init.ts:30 | every top-level setting other than `hooks` survives unchanged |
| Init.MergeKeepsForeignHooks | src/cli/commands/init.ts:30 | a hook entry under a name the command does not own survives unchanged |
| Init.MergeInstallsAll | src/cli/commands/init.ts:30 | each of the six names ends up holding exactly the command's registration |
| Init.FreshSettings | src/cli/commands/init.ts:24-30 | without readable settings, the result is the configuration alone |
| Init.MergeKeys | src/cli/commands/init.ts:30 | the merged settings have exactly the existing keys plus `hooks`, and the merged hooks section exactly the existing hook names plus the six the command owns |
| Init.MergeIdempotent | src/cli/commands/init.ts:30 | merging a second time changes nothing |
| Init.RunInitIdempotent | src/cli/commands/init.ts:23-31 | running the command on its own output writes the same file again |
| EventContext.ListOf | src/web/src/contexts/EventContext.tsx:38 | a snapshot's event list is its `events` array |
| EventContext.Receive | src/web/src/contexts/EventContext.tsx:34-43 | a snapshot replaces both events and stats; any other message is appended to the events and becomes the latest, with the earlier events unchanged; a message that is not JSON, or is `null`, changes nothing |
| EventContext.ReceiveSnapshot | src/web/src/contexts/EventContext.tsx:37-39 | the daemon's snapshot frame sets the client's events to the store's and its stats to the snapshot's |
| EventContext.ReceiveEvent | src/web/src/contexts/EventContext.tsx:40-43 | an event frame whose type is not `snapshot` is appended and becomes the latest |
| EventContext.StreamApplied | src/web/src/contexts/EventContext.tsx:37-43 | a snapshot followed by the remaining events leaves the client with every event of the store, the snapshot's stats, and the last event as the latest |
| EventContext.ClientSeesStream | src/web/src/contexts/EventContext.tsx:34-43 | feeding that sequence of frames through the reducer, as text, gives the same result |
| EventContext.ClientSeesStore | src/web/src/contexts/EventContext.tsx:34-43 | a client that has read all its socket's messages shows exactly the daemon's events |
| EventContext.SnapshotTaggedEventIsStored | src/daemon/normalizer.ts:59-62 | a replay payload whose `type` is `snapshot` is accepted and stored with that type |
| EventContext.SnapshotTaggedEventClears | src/web/src/contexts/EventContext.tsx:37-39 | such an event, once broadcast, empties the client's event list |
| EventContext.Client.constructor | src/web/src/contexts/EventContext.tsx:16-19 | a new client has no events, no stats, no connection and no latest event |
| EventContext.Client.Mount | src/web/src/contexts/EventContext.tsx:21-31 | with an embedded snapshot, events and stats come from it and no socket is opened; otherwise a socket is opened and nothing else changes |
| EventContext.Client.OnOpen | src/web/src/contexts/EventContext.tsx:32 | opening sets connected and changes nothing else |
| EventContext.Client.OnClose | src/web/src/contexts/EventContext.tsx:33 | closing clears connected and changes nothing else |
| EventContext.Client.OnMessage | src/web/src/contexts/EventContext.tsx:34-43 | the client's state after a message is the reducer applied to its state before; the connection flag is unchanged |
| Topology.Apply | src/web/src/panels/Topology.tsx:30-42 | a spawn sets the child's node (replacing any) with its parent, active, 0 tokens; a completion marks a known child inactive; a session end sets a known agent's tokens to input plus output; only spawns add nodes; no other node and no other kind of event changes anything |
| Topology.BuildNodeMap | src/web/src/panels/Topology.tsx:27-42 | the loop that updates the map in place builds the same map as applying the events in order from the root alone |
| Topology.BuildWellFormed | src/web/src/panels/Topology.tsx:27-42 | the built map lists each key once, agrees with its entries, and always holds `agent-0` |
| Topology.NodesAreSpawned | src/web/src/panels/Topology.tsx:27-42 | the nodes are exactly `agent-0` and the children of spawn events |
| Topology.Nodes | src/web/src/panels/Topology.tsx:44 | the node list is the map's entries in key order |
| Topology.LinksOf | src/web/src/panels/Topology.tsx:45-47 | the links are exactly one per node with a non-empty parent present in the map, from parent to node, and no more of them than nodes |
| Topology.LinksAreEdges | src/web/src/panels/Topology.tsx:45-47 | a pair is a link exactly when the target is a node whose parent is the source, and the source is a non-empty node id |
| Topology.LinksAtMostNodes | src/web/src/panels/Topology.tsx:44-47 | there are never more links than nodes |

## Left out

- Bun plumbing is not modelled: `Bun.serve`, URL parsing, the websocket upgrade handshake and socket sends. A socket is a number with the sequence of messages it was sent. Each handler runs as one atomic step.
- The hook command's `fetch` and the replay command's `fetch` are not modelled as I/O. A post is the body text handed to `Server.Daemon.Ingest`.
- The replay throttle's timing is left out: the floating-point delay and `Bun.sleep` (src/cli/commands/replay.ts:37-38). Its `if (next)` test is modelled, because reading `events[i].timestamp` throws when the event is `null`; `Replay.PostedCount` is where the loop stops. A non-`null` event without a numeric timestamp only changes the delay.
- The usage check and `process.exit` at src/cli/commands/replay.ts:15-18 are left out, together with the console output.
- File system calls are left out: `mkdir`, the Bun writer, `flush`, and `readFile`/`writeFile` in init and replay. File contents are parameters. `Init.RunInit` returns the text it would write.
- Server.Daemon.Fetch: whether a static file exists is the parameter `files`, and the response body is the file's path rather than its contents.
- Logger.SessionLogger.Close: `flush` is not modelled separately. Close only marks the sink as ended.
- Codec.Parse: numbers are integers only, so a fraction or an exponent does not parse here, though `JSON.parse` reads it. A `\u` escape of a lone surrogate does not parse either; `JSON.parse` reads one into a UTF-16 string. Everything else follows JSON: whitespace between tokens, every escape, no leading zeros, no raw control characters in strings, and the later of two repeated keys wins.
- Codec.Serialize: an object's keys are written in sorted order, not in insertion order. Values, and so every round trip, are unaffected. A text compared character by character with the source's may differ in member order.
- Normalizer.PostToolUseOutcome: `outputSize` is the output's length in characters. The source's `output.length` counts UTF-16 code units, so a character outside the Basic Multilingual Plane, such as an emoji, counts 2 there and 1 here.
- Types.DecodeEncode: numbers are unbounded integers. JSON fractions, exponents, `NaN` and floating-point rounding are not modelled, and string lengths count characters rather than UTF-16 code units.
- Init.RunInit: the file is written as compact JSON with sorted keys. The source indents with two spaces and keeps insertion order, which changes the layout but not the value; either layout is read back. The settings path itself (`~/.claude/settings.json`) and the console messages are not modelled.
- Normalizer.ToolTypeOf: a `tool_name` that is not a string maps to `other` here. The source coerces it to a property key first, so `["Bash"]` is looked up as `Bash` and maps to `bash`.
- Normalizer.ToolTypeOf: a tool name that is a JavaScript prototype key, such as `constructor`, maps to `other` here. In the source, the lookup returns a function rather than a category.
- Store.CategoryOf: a `toolType` that is not one of the five category strings is counted in no category here. The source's increment coerces it to a property key: an array such as `["bash"]` is counted under `bash`, and any other key except `__proto__`, `undefined` included, gains a stray property holding `NaN`; `__proto__` gains nothing, because its setter ignores a value that is not an object.
- Store.AgentIds: agent ids are compared as values. `new Set` compares objects and arrays by identity, so two events whose `agentId` is the same object literal count as two agents in the source and as one here.
- Hook.RawInput: `readline` waits at most 100 ms for a `\n` after a `\r` before it ends the line at the `\r` alone. Here a `\r\n` pair is always one line end.
- Hook.LookupHook: the inherited keys are those of a plain `Object.prototype`. Properties a runtime or library adds to it are not modelled.
- Logger.LogPath: `path.join` normalizes the path (a trailing `/` on the home directory, `.` and `..` segments). Here the parts are concatenated. `Logger.LogPathInjective` relies on that; in the source it holds because session ids are UUIDs.
- EventContext.Receive: the source stores a snapshot's `events` as it is, even when it is not an array. The model stores an empty list instead. The same holds for `EventContext.Client.Mount`.
- EventContext.Client.OnMessage: the stats refetch after each event (src/web/src/contexts/EventContext.tsx:45-48) is network I/O and is not modelled. The stats change only with a snapshot.
- EventContext.ClientSeesStore: holds only when no stored event has the type `snapshot`. The source makes no such check. `EventContext.SnapshotTaggedEventIsStored` and `EventContext.SnapshotTaggedEventClears` show that such an event is stored and then wipes a client's list.
- Server.Daemon.SnapshotThenStream: states that the snapshot's statistics exist, not which they are. `Server.Daemon.Open` states that they are the store's statistics at that moment.
- Server.Daemon.Ingest: for a body that parses to `null`, only the 500 status is stated. The runtime's error text is not modelled.
- Store.EventStore.GetAll: a copy is a value here, so a later `Add` cannot reach it. Array aliasing is not modelled.
- Topology.BuildNodeMap: node objects are map entries updated by value. The nodes handed to the d3 simulation, and their mutation by it, are not modelled. The panel's rendering and force simulation (src/web/src/panels/Topology.tsx:49-119) are left out.
- Topology.Apply: works on typed events (`Types.TraceEvent`). A node's parent id is present but may be empty, which matches the source's truthiness test on links.
