/**
 * The ACP turn translator as a machine over values: what one `session/update`
 * notification, one usage report or one end-of-turn flush does to the translator
 * state, to the transcript entries sent and to the live stream deltas sent.
 *
 * `Machine` carries everything ever sent, so that a statement about a machine is
 * a statement about a whole run. TranslatorRuns proves such statements;
 * TranslatorHeap shows that the object-based translator computes this machine.
 */
module Transcript {
  import opened Wrappers

  // ---------- what arrives ----------

  datatype BlockKind = Text | Thinking

  /** `rawInput` as it comes off the wire: absent or null, a value without keys,
      a string (whose keys are its indices), or an object. */
  datatype RawInput = Missing | Keyless | Str(text: string) | Record(fields: map<string, string>)

  datatype RawOutput = RawOutput(output: Option<string>, metadataOutput: Option<string>, exit: Option<int>)

  /** Optional strings that the source tests for truthiness are "" when absent. */
  datatype Update =
    | Chunk(kind: BlockKind, text: string)
    | ToolCall(id: string, title: string, category: string, status: Option<string>, input: RawInput)
    | ToolUpdate(id: string, title: string, category: string, status: Option<string>, input: RawInput,
                 collected: Option<string>, rawOutput: Option<RawOutput>)
    | Other

  datatype Usage = Usage(input: int, output: int, cacheRead: int, cacheWrite: int)

  datatype PromptUsage = PromptUsage(input: Option<int>, output: Option<int>,
                                     cacheRead: Option<int>, cacheWrite: Option<int>)

  datatype Event = Apply(update: Update) | ReportUsage(report: PromptUsage) | Flush(now: int)

  // ---------- what is kept and what is sent ----------

  datatype Block = Block(kind: BlockKind, text: string)

  datatype PendingToolCall = PendingToolCall(
    name: string, input: RawInput, output: string, isError: bool, status: string,
    useUuid: nat, resultUuid: nat, useCommitted: bool, resultCommitted: bool)

  datatype Entry =
    | RunEntry(uuid: nat, content: seq<Block>, usage: Option<Usage>)
    | ToolUse(uuid: nat, id: string, name: string, input: RawInput, agent: string)
    | ToolResult(uuid: nat, id: string, output: string, isError: bool, agent: string)
    | TurnEnd(uuid: nat, durationMs: int)

  datatype Delta = MessageStart | BlockDelta(index: nat, kind: BlockKind, text: string) | MessageStop

  /** `order` lists the keys of `calls` in insertion order, the order in which a
      JavaScript Map is walked. Fresh UUIDs are drawn from the counter `nextUuid`. */
  datatype State = State(
    pending: seq<Block>, run: Option<nat>, lastText: Option<nat>, lastThinking: Option<nat>, streaming: bool,
    order: seq<string>, calls: map<string, PendingToolCall>,
    usage: Usage, turnStartedAt: int, agent: string, nextUuid: nat)

  datatype Machine = Machine(st: State, entries: seq<Entry>, deltas: seq<Delta>)

  const DEFAULT_AGENT := "acp"

  function Fresh(agent: string, now: int, nextUuid: nat): State {
    State([], None, None, None, false, [], map[], Usage(0, 0, 0, 0), now, agent, nextUuid)
  }

  function Start(agent: string, now: int): Machine {
    Machine(Fresh(agent, now, 0), [], [])
  }

  // ---------- small readings of the wire ----------

  /** `Object.keys(input).length`. */
  function KeyCount(input: RawInput): nat {
    match input
    case Str(text) => |text|
    case Record(fields) => |fields|
    case _ => 0
  }

  predicate LooksLikeToolName(title: string) {
    title != "" && '/' !in title && '.' !in title && ' ' !in title
  }

  function ResolveToolName(title: string, category: string): (name: string)
    ensures name != ""
  {
    if LooksLikeToolName(title) then title else if category != "" then category else "tool"
  }

  predicate Terminal(status: string) {
    status == "completed" || status == "failed" || status == "cancelled"
  }

  // ---------- the helpers the handlers share ----------

  function Emit(m: Machine, e: Entry): Machine {
    m.(entries := m.entries + [e])
  }

  function Stream(m: Machine, d: Delta): Machine {
    m.(deltas := m.deltas + [d])
  }

  function EnsureActiveRun(m: Machine): Machine {
    if m.st.run.Some? then m
    else
      Stream(m.(st := m.st.(run := Some(m.st.nextUuid), nextUuid := m.st.nextUuid + 1, streaming := true)),
             MessageStart)
  }

  /** The in-place append to the block at `i`, when there is one of the right kind. */
  function ExtendBlock(blocks: seq<Block>, i: nat, kind: BlockKind, text: string): seq<Block> {
    if i < |blocks| && blocks[i].kind == kind then blocks[i := Block(kind, blocks[i].text + text)] else blocks
  }

  function LastOf(s: State, kind: BlockKind): Option<nat> {
    if kind.Text? then s.lastText else s.lastThinking
  }

  function PushBlock(s: State, kind: BlockKind, text: string): State {
    var at := Some(|s.pending|);
    s.(pending := s.pending + [Block(kind, text)],
       lastText := if kind.Text? then at else None,
       lastThinking := if kind.Text? then None else at)
  }

  function HandleChunk(m: Machine, kind: BlockKind, text: string): Machine {
    if text == "" then m
    else
      var a := EnsureActiveRun(m);
      match LastOf(a.st, kind)
      case Some(i) =>
        Stream(a.(st := a.st.(pending := ExtendBlock(a.st.pending, i, kind, text))), BlockDelta(i, kind, text))
      case None =>
        Stream(a.(st := PushBlock(a.st, kind, text)), BlockDelta(|a.st.pending|, kind, text))
  }

  /** Emit the open run, if it has content. */
  function CloseRun(m: Machine, usage: Option<Usage>): Machine {
    if m.st.run.Some? && |m.st.pending| > 0
    then Emit(m, RunEntry(m.st.run.value, m.st.pending, usage)) else m
  }

  function StopStream(m: Machine): Machine {
    if m.st.streaming then Stream(m.(st := m.st.(streaming := false)), MessageStop) else m
  }

  function ResetRun(s: State): State {
    s.(run := None, pending := [], lastText := None, lastThinking := None)
  }

  function FlushActiveRun(m: Machine): Machine {
    var closed := StopStream(CloseRun(m, None));
    closed.(st := ResetRun(closed.st))
  }

  function SetCall(m: Machine, id: string, c: PendingToolCall): Machine {
    m.(st := m.st.(calls := m.st.calls[id := c]))
  }

  function CommitToolUse(m: Machine, id: string): Machine
    requires id in m.st.calls
  {
    var c := m.st.calls[id];
    if c.useCommitted then m
    else SetCall(Emit(m, ToolUse(c.useUuid, id, c.name, c.input, m.st.agent)), id, c.(useCommitted := true))
  }

  function CommitToolResult(m: Machine, id: string): Machine
    requires id in m.st.calls
  {
    var c := m.st.calls[id];
    if c.resultCommitted then m
    else SetCall(Emit(m, ToolResult(c.resultUuid, id, c.output, c.isError, m.st.agent)), id, c.(resultCommitted := true))
  }

  function AddCall(m: Machine, id: string, name: string, input: RawInput, status: Option<string>): Machine {
    var u := m.st.nextUuid;
    var c := PendingToolCall(name, input, "", false, status.GetOr("pending"), u, u + 1, false, false);
    m.(st := m.st.(order := m.st.order + [id], calls := m.st.calls[id := c], nextUuid := u + 2))
  }

  // ---------- tool notifications ----------

  /** `rawInput ?? {}` */
  function InitialInput(input: RawInput): RawInput {
    if input.Missing? then Record(map[]) else input
  }

  function HandleToolCall(m: Machine, u: Update): Machine
    requires u.ToolCall?
  {
    if u.id == "" || u.id in m.st.calls then m
    else
      var a := FlushActiveRun(
                 AddCall(m, u.id, ResolveToolName(u.title, u.category), InitialInput(u.input), u.status));
      if KeyCount(a.st.calls[u.id].input) > 0 then CommitToolUse(a, u.id) else a
  }

  /** What an update writes into the record of its tool call. */
  function Absorb(c: PendingToolCall, u: Update): PendingToolCall
    requires u.ToolUpdate?
  {
    var named := if c.useCommitted then c else c.(name := ResolveToolName(u.title, u.category));
    var filled := if u.input.Record? then named.(input := u.input) else named;
    var moved := if u.status.Some? && u.status.value != "" then filled.(status := u.status.value) else filled;
    var streamed := if u.collected.Some? && u.collected.value != "" then moved.(output := u.collected.value) else moved;
    match u.rawOutput
    case None => streamed
    case Some(raw) =>
      var out := if raw.output.Some? then raw.output.value else raw.metadataOutput.GetOr(streamed.output);
      streamed.(output := out,
                isError := streamed.isError || (raw.exit.Some? && raw.exit.value != 0))
  }

  function CommitUseAfterRun(m: Machine, id: string): (r: Machine)
    requires id in m.st.calls
    ensures id in r.st.calls
  {
    CommitToolUse(FlushActiveRun(m), id)
  }

  function Received(m: Machine, u: Update): (r: Machine)
    requires u.ToolUpdate?
    ensures u.id in r.st.calls
  {
    var a := if u.id in m.st.calls then m
             else AddCall(m, u.id, ResolveToolName(u.title, u.category), Record(map[]), u.status);
    SetCall(a, u.id, Absorb(a.st.calls[u.id], u))
  }

  function MarkFailed(m: Machine, id: string): (r: Machine)
    requires id in m.st.calls
    ensures id in r.st.calls
  {
    var c := m.st.calls[id];
    if c.status == "failed" || c.status == "cancelled" then SetCall(m, id, c.(isError := true)) else m
  }

  /** The tail of the update handler once the status is terminal. */
  function Finish(m: Machine, id: string): Machine
    requires id in m.st.calls
  {
    var marked := MarkFailed(m, id);
    CommitToolResult(if m.st.calls[id].useCommitted then marked else CommitUseAfterRun(marked, id), id)
  }

  /** The update handler up to the check for a terminal status. */
  function Midway(m: Machine, u: Update): (r: Machine)
    requires u.ToolUpdate?
    ensures u.id in r.st.calls
  {
    var a := Received(m, u);
    var c := a.st.calls[u.id];
    if !c.useCommitted && KeyCount(c.input) > 0 then CommitUseAfterRun(a, u.id) else a
  }

  function HandleToolUpdate(m: Machine, u: Update): Machine
    requires u.ToolUpdate?
  {
    if u.id == "" then m
    else
      var b := Midway(m, u);
      if Terminal(b.st.calls[u.id].status) then Finish(b, u.id) else b
  }

  function ApplyUpdate(m: Machine, u: Update): Machine {
    match u
    case Chunk(kind, text) => HandleChunk(m, kind, text)
    case ToolCall(_, _, _, _, _) => HandleToolCall(m, u)
    case ToolUpdate(_, _, _, _, _, _, _) => HandleToolUpdate(m, u)
    case Other => m
  }

  // ---------- usage and end of turn ----------

  function ApplyPromptUsage(m: Machine, p: PromptUsage): Machine {
    var u := m.st.usage;
    m.(st := m.st.(usage := Usage(p.input.GetOr(u.input), p.output.GetOr(u.output),
                                  p.cacheRead.GetOr(u.cacheRead), p.cacheWrite.GetOr(u.cacheWrite))))
  }

  /** One round of the end-of-turn loop over the tool calls. */
  function FlushTool(m: Machine, id: string): Machine
    requires id in m.st.calls
  {
    var c := m.st.calls[id];
    var a := if !c.useCommitted && KeyCount(c.input) > 0 then CommitUseAfterRun(m, id) else m;
    if !c.resultCommitted && Terminal(c.status)
    then CommitToolResult(if a.st.calls[id].useCommitted then a else CommitUseAfterRun(a, id), id)
    else a
  }

  function FlushTools(m: Machine, ids: seq<string>): Machine {
    if ids == [] then m
    else
      var before := FlushTools(m, ids[..|ids| - 1]);
      var id := ids[|ids| - 1];
      if id in before.st.calls then FlushTool(before, id) else before
  }

  function AttachedUsage(u: Usage): Option<Usage> {
    if u.input != 0 || u.output != 0 then Some(u) else None
  }

  function EndTurn(m: Machine, now: int): Machine {
    var m' := Emit(m, TurnEnd(m.st.nextUuid, now - m.st.turnStartedAt));
    m'.(st := Fresh(DEFAULT_AGENT, now, m.st.nextUuid + 1))
  }

  function FlushTurn(m: Machine, now: int): Machine {
    var a := FlushTools(m, m.st.order);
    EndTurn(StopStream(CloseRun(a, AttachedUsage(a.st.usage))), now)
  }

  // ---------- runs ----------

  function Step(m: Machine, e: Event): Machine {
    match e
    case Apply(u) => ApplyUpdate(m, u)
    case ReportUsage(p) => ApplyPromptUsage(m, p)
    case Flush(now) => FlushTurn(m, now)
  }

  function Run(m: Machine, trace: seq<Event>): Machine {
    if trace == [] then m else Step(Run(m, trace[..|trace| - 1]), trace[|trace| - 1])
  }
}
