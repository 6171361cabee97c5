/**
 * What the entries of a transcript say: the name and input of a use, the output
 * and error flag of a result, the usage on a run and the duration of a turn, each
 * in terms of the events that arrived.
 */
module TranslatorContents {
  import opened Wrappers
  import opened Transcript
  import opened TranscriptReading
  import opened TranslatorSteps
  import opened TranslatorRuns
  import opened TranslatorTheorems

  // ---------- what the events say ----------

  /** What an update says about the output of its tool: the raw output first, its
      metadata next, the streamed text last. */
  function OutputWord(u: Update): Option<string>
    requires u.ToolUpdate?
  {
    if u.rawOutput.Some? && u.rawOutput.value.output.Some? then u.rawOutput.value.output
    else if u.rawOutput.Some? && u.rawOutput.value.metadataOutput.Some? then u.rawOutput.value.metadataOutput
    else if u.collected.Some? && u.collected.value != "" then u.collected
    else None
  }

  predicate ExitFailed(u: Update)
    requires u.ToolUpdate?
  {
    u.rawOutput.Some? && u.rawOutput.value.exit.Some? && u.rawOutput.value.exit.value != 0
  }

  predicate Failing(t: Track) {
    t.Seen? && (t.status == "failed" || t.status == "cancelled")
  }

  predicate Updates(e: Event, id: string) {
    e.Apply? && e.update.ToolUpdate? && Concerns(e.update, id)
  }

  /** The last word of the turn about the output of an id. */
  function OutputIn(trace: seq<Event>, id: string): string {
    if trace == [] || trace[|trace| - 1].Flush? then ""
    else
      var before, e := trace[..|trace| - 1], trace[|trace| - 1];
      if Updates(e, id) then OutputWord(e.update).GetOr(OutputIn(before, id)) else OutputIn(before, id)
  }

  /** Has an update of the turn told of a failing exit, or left a failing status? */
  predicate FailedIn(trace: seq<Event>, id: string) {
    trace != [] && !trace[|trace| - 1].Flush? &&
    var before, e := trace[..|trace| - 1], trace[|trace| - 1];
    FailedIn(before, id) || (Updates(e, id) && (ExitFailed(e.update) || Failing(TrackOf(trace, id))))
  }

  /** The token counts last reported in the turn. */
  function UsageIn(trace: seq<Event>): Usage {
    if trace == [] || trace[|trace| - 1].Flush? then Usage(0, 0, 0, 0)
    else
      var u, e := UsageIn(trace[..|trace| - 1]), trace[|trace| - 1];
      if e.ReportUsage?
      then Usage(e.report.input.GetOr(u.input), e.report.output.GetOr(u.output),
                 e.report.cacheRead.GetOr(u.cacheRead), e.report.cacheWrite.GetOr(u.cacheWrite))
      else u
  }

  /** When the turn began: at the flush before it, or at the start. */
  function StartedIn(start: int, trace: seq<Event>): int {
    if trace == [] then start
    else if trace[|trace| - 1].Flush? then trace[|trace| - 1].now
    else StartedIn(start, trace[..|trace| - 1])
  }

  // ---------- entries against the records they were made from ----------

  predicate SameFacts(c: PendingToolCall, d: PendingToolCall) {
    c.name == d.name && c.input == d.input && c.output == d.output && c.isError == d.isError
  }

  /** The records still say what they said, and so does the turn. */
  predicate Same(s: State, t: State) {
    && s.usage == t.usage && s.turnStartedAt == t.turnStartedAt
    && forall id | id in s.calls :: id in t.calls && SameFacts(s.calls[id], t.calls[id])
  }

  predicate Says(e: Entry, calls: map<string, PendingToolCall>) {
    match e
    case ToolUse(_, id, name, input, _) => id in calls && name == calls[id].name && input == calls[id].input
    case ToolResult(_, id, output, isError, _) => id in calls && output == calls[id].output && isError == calls[id].isError
    case RunEntry(_, _, usage) => usage == None
    case TurnEnd(_, _) => false
  }

  predicate Adds(m: Machine, r: Machine) {
    m.entries <= r.entries && forall k :: |m.entries| <= k < |r.entries| ==> Says(r.entries[k], r.st.calls)
  }

  lemma AddsChain(a: Machine, b: Machine, c: Machine)
    requires Adds(a, b) && Adds(b, c) && Same(b.st, c.st)
    ensures Adds(a, c)
  {
    forall k | |a.entries| <= k < |c.entries| ensures Says(c.entries[k], c.st.calls) {
      if k < |b.entries| { assert c.entries[k] == b.entries[k] && Says(b.entries[k], b.st.calls); }
    }
  }

  predicate NoResults(m: Machine, r: Machine) {
    m.entries <= r.entries && forall k :: |m.entries| <= k < |r.entries| ==> !r.entries[k].ToolResult?
  }

  lemma FlushRunAdds(m: Machine)
    ensures var r := FlushActiveRun(m);
            Adds(m, r) && NoResults(m, r) && r.st.calls == m.st.calls && Same(m.st, r.st)
  {}

  lemma CommitUseAdds(m: Machine, id: string)
    requires id in m.st.calls && !m.st.calls[id].useCommitted
    ensures var r := CommitToolUse(m, id);
            && Adds(m, r) && NoResults(m, r) && Same(m.st, r.st) && r.st.calls.Keys == m.st.calls.Keys
            && r.entries != [] && r.entries[|r.entries| - 1].ToolUse?
  {}

  lemma UseAdds(m: Machine, id: string)
    requires id in m.st.calls && !m.st.calls[id].useCommitted
    ensures var r := CommitUseAfterRun(m, id);
            && Adds(m, r) && NoResults(m, r) && Same(m.st, r.st) && r.st.calls.Keys == m.st.calls.Keys
            && r.entries != [] && r.entries[|r.entries| - 1].ToolUse?
  {
    FlushRunAdds(m);
    var a := FlushActiveRun(m);
    hide FlushActiveRun, CommitToolUse;
    CommitUseAdds(a, id);
    AddsChain(m, a, CommitToolUse(a, id));
  }

  lemma ResultAdds(m: Machine, id: string)
    requires id in m.st.calls
    ensures var r := CommitToolResult(m, id);
            Adds(m, r) && Same(m.st, r.st)
            && (!m.st.calls[id].resultCommitted ==> r.entries != [] && r.entries[|r.entries| - 1].ToolResult?)
  {}

  lemma FinishAdds(m: Machine, id: string)
    requires id in m.st.calls
    ensures var marked, r := MarkFailed(m, id), Finish(m, id);
            Adds(marked, r) && Same(marked.st, r.st)
  {
    hide CommitUseAfterRun, CommitToolResult;
    var marked := MarkFailed(m, id);
    if m.st.calls[id].useCommitted {
      ResultAdds(marked, id);
    } else {
      UseAdds(marked, id);
      var b := CommitUseAfterRun(marked, id);
      ResultAdds(b, id);
      AddsChain(marked, b, CommitToolResult(b, id));
    }
  }

  predicate OthersKept(s: State, t: State, id: string) {
    && s.usage == t.usage && s.turnStartedAt == t.turnStartedAt
    && (forall i | i in s.calls && i != id :: i in t.calls && SameFacts(s.calls[i], t.calls[i]))
    && (forall i | i in t.calls && i != id :: i in s.calls)
  }

  lemma ReceivedKeepsOthers(m: Machine, u: Update)
    requires u.ToolUpdate?
    ensures Received(m, u).entries == m.entries && OthersKept(m.st, Received(m, u).st, u.id)
  {}

  lemma MidwayAdds(m: Machine, u: Update)
    requires u.ToolUpdate?
    ensures var a, b := Received(m, u), Midway(m, u);
            Adds(a, b) && NoResults(a, b) && Same(a.st, b.st) && b.st.calls.Keys == a.st.calls.Keys
  {
    hide CommitUseAfterRun, Received;
    var a := Received(m, u);
    if !a.st.calls[u.id].useCommitted && KeyCount(a.st.calls[u.id].input) > 0 { UseAdds(a, u.id); }
  }

  lemma MarkingAdds(a: Machine, b: Machine, id: string)
    requires Adds(a, b) && NoResults(a, b) && id in b.st.calls
    ensures Adds(a, MarkFailed(b, id)) && OthersKept(b.st, MarkFailed(b, id).st, id)
  {
    forall k | |a.entries| <= k < |b.entries| ensures Says(b.entries[k], MarkFailed(b, id).st.calls) {
      assert Says(b.entries[k], b.st.calls);
    }
  }

  lemma FinishKeepsCalls(m: Machine, id: string)
    requires id in m.st.calls
    ensures Finish(m, id).st.calls.Keys == m.st.calls.Keys
  {
    hide FlushActiveRun;
    FlushRunAdds(MarkFailed(m, id));
  }

  lemma KeptChain(a: State, b: State, c: State, id: string)
    requires OthersKept(a, b, id) && OthersKept(b, c, id)
    ensures OthersKept(a, c, id)
  {}

  lemma SameKeepsOthers(a: State, b: State, id: string)
    requires Same(a, b) && a.calls.Keys == b.calls.Keys
    ensures OthersKept(a, b, id)
  {}

  /** What an update adds says what the records say afterwards. */
  lemma ToolUpdateAdds(m: Machine, u: Update)
    requires u.ToolUpdate? && u.id != ""
    ensures Adds(m, HandleToolUpdate(m, u)) && OthersKept(m.st, HandleToolUpdate(m, u).st, u.id)
  {
    hide Received, Midway, MarkFailed, Finish, Same, OthersKept, Says, Adds, NoResults;
    var a, b := Received(m, u), Midway(m, u);
    ReceivedKeepsOthers(m, u);
    MidwayAdds(m, u);
    SameKeepsOthers(a.st, b.st, u.id);
    KeptChain(m.st, a.st, b.st, u.id);
    AddsFromSame(m, a, b);
    if Terminal(b.st.calls[u.id].status) {
      var marked, r := MarkFailed(b, u.id), Finish(b, u.id);
      MarkingAdds(a, b, u.id);
      FinishAdds(b, u.id);
      FinishKeepsCalls(b, u.id);
      MarkedKeys(b, u.id);
      SameKeepsOthers(marked.st, r.st, u.id);
      KeptChain(m.st, b.st, marked.st, u.id);
      KeptChain(m.st, marked.st, r.st, u.id);
      AddsChain(a, marked, r);
      AddsFromSame(m, a, r);
    }
  }

  lemma MarkedKeys(m: Machine, id: string)
    requires id in m.st.calls
    ensures MarkFailed(m, id).st.calls.Keys == m.st.calls.Keys
  {}

  lemma AddsFromSame(m: Machine, a: Machine, r: Machine)
    requires a.entries == m.entries && Adds(a, r)
    ensures Adds(m, r)
  {}

  /** What an update leaves in the record of its call. */
  lemma ToolUpdateRecords(m: Machine, u: Update)
    requires u.ToolUpdate? && u.id != ""
    ensures u.id in HandleToolUpdate(m, u).st.calls
    ensures var c := HandleToolUpdate(m, u).st.calls[u.id];
            var output := if u.id in m.st.calls then m.st.calls[u.id].output else "";
            var failed := u.id in m.st.calls && m.st.calls[u.id].isError;
            && c.output == OutputWord(u).GetOr(output)
            && c.isError == (failed || ExitFailed(u) || c.status == "failed" || c.status == "cancelled")
  {
    hide Received, Midway, CommitUseAfterRun, CommitToolResult;
    ReceivedRecords(m, u);
    MidwayAdds(m, u);
    MidwayStatus(m, u);
    var b := Midway(m, u);
    if Terminal(b.st.calls[u.id].status) {
      FinishAdds(b, u.id);
      FinishStatus(b, u.id);
    }
  }

  lemma ReceivedRecords(m: Machine, u: Update)
    requires u.ToolUpdate?
    ensures var c := Received(m, u).st.calls[u.id];
            var output := if u.id in m.st.calls then m.st.calls[u.id].output else "";
            var failed := u.id in m.st.calls && m.st.calls[u.id].isError;
            c.output == OutputWord(u).GetOr(output) && c.isError == (failed || ExitFailed(u))
  {}

  lemma MidwayStatus(m: Machine, u: Update)
    requires u.ToolUpdate?
    ensures Midway(m, u).st.calls[u.id].status == Received(m, u).st.calls[u.id].status
  {
    hide Received, FlushActiveRun;
    FlushRunAdds(Received(m, u));
  }

  lemma FinishStatus(m: Machine, id: string)
    requires id in m.st.calls
    ensures id in Finish(m, id).st.calls && Finish(m, id).st.calls[id].status == m.st.calls[id].status
  {
    hide FlushActiveRun;
    FlushRunAdds(MarkFailed(m, id));
  }

  lemma ToolCallAdds(m: Machine, u: Update)
    requires u.ToolCall? && u.id != "" && u.id !in m.st.calls
    ensures var r := HandleToolCall(m, u);
            && Adds(m, r) && OthersKept(m.st, r.st, u.id)
            && u.id in r.st.calls && r.st.calls[u.id].output == "" && !r.st.calls[u.id].isError
  {
    hide FlushActiveRun, CommitToolUse;
    var added := AddCall(m, u.id, ResolveToolName(u.title, u.category), InitialInput(u.input), u.status);
    FlushRunAdds(added);
    var a := FlushActiveRun(added);
    AddsFromSame(m, added, a);
    if KeyCount(a.st.calls[u.id].input) > 0 {
      CommitUseAdds(a, u.id);
      AddsChain(m, a, CommitToolUse(a, u.id));
    }
  }

  // ---------- the end of a turn ----------

  /** What was added, if anything, ends in a tool entry. */
  predicate EndsInTool(m: Machine, r: Machine) {
    m.entries <= r.entries
    && (|m.entries| < |r.entries| ==> !r.entries[|r.entries| - 1].RunEntry?)
  }

  lemma FlushToolAdds(m: Machine, id: string)
    requires id in m.st.calls
    ensures var r := FlushTool(m, id);
            Adds(m, r) && Same(m.st, r.st) && EndsInTool(m, r)
  {
    hide CommitUseAfterRun, CommitToolResult;
    var c := m.st.calls[id];
    if !c.useCommitted && KeyCount(c.input) > 0 { UseAdds(m, id); UseSticks(m, id); }
    var a := if !c.useCommitted && KeyCount(c.input) > 0 then CommitUseAfterRun(m, id) else m;
    if !c.resultCommitted && Terminal(c.status) {
      if !a.st.calls[id].useCommitted { UseAdds(a, id); UseSticks(a, id); }
      var b := if a.st.calls[id].useCommitted then a else CommitUseAfterRun(a, id);
      ResultAdds(b, id);
      AddsChain(m, a, b);
      AddsChain(m, b, CommitToolResult(b, id));
    }
  }

  lemma UseSticks(m: Machine, id: string)
    requires id in m.st.calls
    ensures var r := CommitUseAfterRun(m, id);
            r.st.calls[id].useCommitted && r.st.calls[id].resultCommitted == m.st.calls[id].resultCommitted
  {
    hide FlushActiveRun;
    FlushRunAdds(m);
  }

  lemma {:induction false} FlushToolsAdds(m: Machine, ids: seq<string>)
    ensures var r := FlushTools(m, ids);
            Adds(m, r) && Same(m.st, r.st) && EndsInTool(m, r)
  {
    hide FlushTool;
    if ids != [] {
      var before, id := FlushTools(m, ids[..|ids| - 1]), ids[|ids| - 1];
      FlushToolsAdds(m, ids[..|ids| - 1]);
      if id in before.st.calls {
        FlushToolAdds(before, id);
        AddsChain(m, before, FlushTool(before, id));
      }
    }
  }

  // ---------- runs ----------

  ghost predicate RecordedAt(m: Machine, trace: seq<Event>, id: string) {
    if id in m.st.calls
    then m.st.calls[id].output == OutputIn(trace, id) && m.st.calls[id].isError == FailedIn(trace, id)
    else OutputIn(trace, id) == "" && !FailedIn(trace, id)
  }

  ghost predicate Recorded(m: Machine, start: int, trace: seq<Event>) {
    && m.st.usage == UsageIn(trace) && m.st.turnStartedAt == StartedIn(start, trace)
    && forall id :: RecordedAt(m, trace, id)
  }

  lemma ReadsFacts(before: seq<Event>, e: Event, id: string)
    ensures var trace := before + [e];
            && OutputIn(trace, id) == (if e.Flush? then ""
                                       else if Updates(e, id) then OutputWord(e.update).GetOr(OutputIn(before, id))
                                       else OutputIn(before, id))
            && FailedIn(trace, id) == (!e.Flush? && (FailedIn(before, id)
                                       || (Updates(e, id) && (ExitFailed(e.update) || Failing(TrackOf(trace, id))))))
  {
    assert (before + [e])[..|before|] == before;
    hide TrackOf;
  }

  lemma ReadsTurn(start: int, before: seq<Event>, e: Event)
    ensures var trace := before + [e]; var u := UsageIn(before);
            && StartedIn(start, trace) == (if e.Flush? then e.now else StartedIn(start, before))
            && UsageIn(trace) == (match e
                                  case Flush(_) => Usage(0, 0, 0, 0)
                                  case ReportUsage(p) => Usage(p.input.GetOr(u.input), p.output.GetOr(u.output),
                                                               p.cacheRead.GetOr(u.cacheRead), p.cacheWrite.GetOr(u.cacheWrite))
                                  case Apply(_) => u)
  {
    assert (before + [e])[..|before|] == before;
  }

  lemma ChunkKeepsCalls(m: Machine, kind: BlockKind, text: string)
    ensures var r := HandleChunk(m, kind, text);
            r.st.calls == m.st.calls && r.st.usage == m.st.usage && r.st.turnStartedAt == m.st.turnStartedAt
            && r.entries == m.entries
  {}

  /** What one update keeps of the records, and adds to the transcript. */
  lemma UpdateAdds(m: Machine, u: Update)
    ensures var r := ApplyUpdate(m, u);
            && Adds(m, r) && r.st.usage == m.st.usage && r.st.turnStartedAt == m.st.turnStartedAt
            && (forall i | i in m.st.calls && !Updates(Apply(u), i) :: i in r.st.calls && SameFacts(m.st.calls[i], r.st.calls[i]))
            && (forall i | i in r.st.calls && i !in m.st.calls && !Updates(Apply(u), i) ::
                  r.st.calls[i].output == "" && !r.st.calls[i].isError)
  {
    hide HandleChunk, HandleToolUpdate;
    match u
    case Chunk(kind, text) => ChunkKeepsCalls(m, kind, text);
    case Other =>
    case ToolCall(id, _, _, _, _) =>
      if id != "" && id !in m.st.calls {
        ToolCallAdds(m, u);
        hide HandleToolCall;
      }
    case ToolUpdate(id, _, _, _, _, _, _) =>
      if id != "" { ToolUpdateAdds(m, u); } else { NoIdNoUpdate(m, u); }
  }

  lemma NoIdNoUpdate(m: Machine, u: Update)
    requires u.ToolUpdate? && u.id == ""
    ensures HandleToolUpdate(m, u) == m
  {}

  lemma UpdateRecordsAt(m: Machine, before: seq<Event>, u: Update, id: string)
    requires RecordedAt(m, before, id)
    requires CallTrack(ApplyUpdate(m, u).st, id) == TrackOf(before + [Apply(u)], id)
    ensures RecordedAt(ApplyUpdate(m, u), before + [Apply(u)], id)
  {
    hide ApplyUpdate, OutputIn, FailedIn, TrackOf, OutputWord, ExitFailed;
    ReadsFacts(before, Apply(u), id);
    if Updates(Apply(u), id) {
      UpdateIsHandled(m, u);
      ToolUpdateRecords(m, u);
    } else {
      UpdateAdds(m, u);
    }
  }

  lemma UpdateIsHandled(m: Machine, u: Update)
    requires u.ToolUpdate?
    ensures ApplyUpdate(m, u) == HandleToolUpdate(m, u)
  {}

  lemma FlushForgets(m: Machine, now: int)
    ensures var r := FlushTurn(m, now);
            r.st.calls == map[] && r.st.usage == Usage(0, 0, 0, 0) && r.st.turnStartedAt == now
  {
    hide FlushTools;
  }

  lemma StepRecords(m: Machine, start: int, before: seq<Event>, e: Event)
    requires Recorded(m, start, before) && Agrees(Step(m, e), before + [e])
    ensures Recorded(Step(m, e), start, before + [e])
  {
    hide ApplyUpdate, FlushTurn, OutputIn, FailedIn, TrackOf, UsageIn, StartedIn;
    ReadsTurn(start, before, e);
    match e
    case Apply(u) =>
      UpdateAdds(m, u);
      forall id ensures RecordedAt(Step(m, e), before + [e], id) { UpdateRecordsAt(m, before, u, id); }
    case ReportUsage(p) =>
      forall id ensures RecordedAt(Step(m, e), before + [e], id) {
        assert RecordedAt(m, before, id);
        ReadsFacts(before, e, id);
      }
    case Flush(now) =>
      FlushForgets(m, now);
      forall id ensures RecordedAt(Step(m, e), before + [e], id) { ReadsFacts(before, e, id); }
  }

  lemma NothingRecorded(agent: string, start: int)
    ensures Recorded(Start(agent, start), start, [])
  {}

  lemma {:induction false} RunIsRecorded(agent: string, start: int, trace: seq<Event>)
    ensures Recorded(Run(Start(agent, start), trace), start, trace)
  {
    hide Start, Step, Recorded, Agrees, Faithful;
    if trace == [] {
      NothingRecorded(agent, start);
    } else {
      var before, e := trace[..|trace| - 1], trace[|trace| - 1];
      assert trace == before + [e];
      RunIsRecorded(agent, start, before);
      RunIsFaithful(agent, start, trace);
      StepRecords(Run(Start(agent, start), before), start, before, e);
    }
  }

  // ---------- the theorem ----------

  /** What a tool entry made at some point must say, from the events up to there. */
  ghost predicate SaysWhatArrived(entry: Entry, trace: seq<Event>) {
    match entry
    case ToolUse(_, id, name, input, _) =>
      TrackOf(trace, id).Seen? && name == TrackOf(trace, id).name && input == TrackOf(trace, id).input
    case ToolResult(_, id, output, isError, _) => output == OutputIn(trace, id) && isError == FailedIn(trace, id)
    case RunEntry(_, _, _) => true
    case TurnEnd(_, _) => true
  }

  lemma SaysAgrees(entry: Entry, m: Machine, trace: seq<Event>)
    requires Says(entry, m.st.calls)
    requires forall id :: CallTrack(m.st, id) == TrackOf(trace, id) && RecordedAt(m, trace, id)
    ensures SaysWhatArrived(entry, trace)
  {
    hide TrackOf, OutputIn, FailedIn;
    if entry.ToolUse? || entry.ToolResult? {
      assert CallTrack(m.st, entry.id) == TrackOf(trace, entry.id) && RecordedAt(m, trace, entry.id);
    }
  }

  /** Every entry that an update adds: a use with the name and input on record, a
      result with the last word on output and the failures told of so far, a run
      without usage. */
  lemma UpdateSaysWhatArrived(agent: string, start: int, before: seq<Event>, u: Update, k: nat)
    requires |Run(Start(agent, start), before).entries| <= k < |Run(Start(agent, start), before + [Apply(u)]).entries|
    ensures var entry := Run(Start(agent, start), before + [Apply(u)]).entries[k];
            && SaysWhatArrived(entry, before + [Apply(u)])
            && !entry.TurnEnd? && (entry.RunEntry? ==> entry.usage == None)
  {
    hide Run, Start, ApplyUpdate, Faithful, RecordedAt, CallTrack, SaysWhatArrived, TrackOf;
    var trace := before + [Apply(u)];
    RunSnoc(Start(agent, start), before, Apply(u));
    var m, r := Run(Start(agent, start), before), Run(Start(agent, start), trace);
    UpdateAdds(m, u);
    RunIsFaithful(agent, start, trace);
    RunIsRecorded(agent, start, trace);
    SaysAgrees(r.entries[k], r, trace);
  }

  /** What a flush adds: tool entries for what the turn still owes, runs, at most
      one of them carrying the usage, and the closing entry. */
  lemma FlushAdds(m: Machine, now: int, k: nat)
    requires |m.entries| <= k < |FlushTurn(m, now).entries|
    ensures var r := FlushTurn(m, now);
            var last := |r.entries| - 1;
            && m.entries <= r.entries
            && (k == last <==> r.entries[k].TurnEnd?)
            && (k == last ==> r.entries[k].durationMs == now - m.st.turnStartedAt)
            && (r.entries[k].RunEntry? ==> r.entries[k].usage == if k == last - 1 then AttachedUsage(m.st.usage) else None)
            && (r.entries[k].ToolUse? || r.entries[k].ToolResult? ==> Says(r.entries[k], m.st.calls))
  {
    hide FlushTools;
    FlushToolsAdds(m, m.st.order);
    var a := FlushTools(m, m.st.order);
    if k < |a.entries| {
      assert Says(a.entries[k], a.st.calls);
      FlushToolsKeepsCalls(m, m.st.order);
    }
  }

  lemma {:induction false} FlushToolsKeepsCalls(m: Machine, ids: seq<string>)
    ensures FlushTools(m, ids).st.calls.Keys == m.st.calls.Keys
  {
    if ids != [] {
      hide FlushTool;
      var before, id := FlushTools(m, ids[..|ids| - 1]), ids[|ids| - 1];
      FlushToolsKeepsCalls(m, ids[..|ids| - 1]);
      if id in before.st.calls { FlushToolKeepsCalls(before, id); }
    }
  }

  lemma FlushToolKeepsCalls(m: Machine, id: string)
    requires id in m.st.calls
    ensures FlushTool(m, id).st.calls.Keys == m.st.calls.Keys
  {
    hide CommitUseAfterRun;
    CommitKeys(m, id);
    CommitKeys(CommitUseAfterRun(m, id), id);
  }

  lemma CommitKeys(m: Machine, id: string)
    requires id in m.st.calls
    ensures CommitUseAfterRun(m, id).st.calls.Keys == m.st.calls.Keys
  {
    hide FlushActiveRun;
    FlushRunAdds(m);
  }

  /** Every entry that a flush adds: tool entries as above, from the events before
      it; the usage last reported, on the closing run alone; and last of all the
      closing entry, with the time since the turn began. */
  lemma FlushSaysWhatArrived(agent: string, start: int, before: seq<Event>, now: int, k: nat)
    requires |Run(Start(agent, start), before).entries| <= k < |Run(Start(agent, start), before + [Flush(now)]).entries|
    ensures var entries := Run(Start(agent, start), before + [Flush(now)]).entries;
            var entry, last := entries[k], |entries| - 1;
            && SaysWhatArrived(entry, before)
            && (k == last <==> entry.TurnEnd?)
            && (k == last ==> entry.durationMs == now - StartedIn(start, before))
            && (entry.RunEntry? ==>
                  var usage := UsageIn(before);
                  entry.usage == if k == last - 1 && (usage.input != 0 || usage.output != 0) then Some(usage) else None)
  {
    hide Run, Start, FlushTurn, Faithful, RecordedAt, CallTrack, SaysWhatArrived, TrackOf, UsageIn, StartedIn;
    RunSnoc(Start(agent, start), before, Flush(now));
    var m := Run(Start(agent, start), before);
    FlushAdds(m, now, k);
    RunIsFaithful(agent, start, before);
    RunIsRecorded(agent, start, before);
    var entry := FlushTurn(m, now).entries[k];
    if entry.ToolUse? || entry.ToolResult? { SaysAgrees(entry, m, before); } else { SaysNothing(entry, before); }
  }

  lemma SaysNothing(entry: Entry, trace: seq<Event>)
    requires entry.RunEntry? || entry.TurnEnd?
    ensures SaysWhatArrived(entry, trace)
  {}

  /** A call announced as failed, with no update after it, gets its use and its result
      at the flush, but the result is not marked as an error: only updates set the
      mark. */
  lemma FailureTellsOnlyThroughUpdates(agent: string, start: int, now: int)
    ensures var call := Apply(ToolCall("t", "read", "", Some("failed"), Missing));
            var entries := Run(Start(agent, start), [call, Flush(now)]).entries;
            && Failing(TrackOf([call], "t"))
            && Marks(entries, "t") == [UseMark, ResultMark, EndMark]
            && forall k :: 0 <= k < |entries| && entries[k].ToolResult? ==> !entries[k].isError
  {
    var call := Apply(ToolCall("t", "read", "", Some("failed"), Missing));
    AnnouncedFailure();
    TurnMarksAreEventMarks([call], "t");
    hide TurnMarks, EventMarks;
    TurnIsSettled(agent, start, [], [call], now, "t");
    assert [] + [call] + [Flush(now)] == [call, Flush(now)] && [call] + [Flush(now)] == [call, Flush(now)];
    assert [] + [call] == [call];
    var m0, m1, m2 := Run(Start(agent, start), []), Run(Start(agent, start), [call]), Run(Start(agent, start), [call, Flush(now)]);
    assert Marks(m0.entries, "t") == [];
    RunSnoc(Start(agent, start), [call], Flush(now));
    forall k | 0 <= k < |m2.entries| && m2.entries[k].ToolResult? ensures !m2.entries[k].isError {
      NeverFailed(m2.entries[k].id);
      EntriesAreAppendedAndTagged(agent, start, [call], Flush(now));
      if k < |m1.entries| {
        UpdateSaysWhatArrived(agent, start, [], call.update, k);
      } else {
        FlushSaysWhatArrived(agent, start, [call], now, k);
      }
    }
  }

  lemma AnnouncedFailure()
    ensures var call := Apply(ToolCall("t", "read", "", Some("failed"), Missing));
            Failing(TrackOf([call], "t")) && OneTurn([call]) && TurnMarks([call], "t") == [UseMark, ResultMark]
  {
    var call := Apply(ToolCall("t", "read", "", Some("failed"), Missing));
    assert [call][..0] == [];
    assert TrackOf([call], "t") == TrackStep(Unseen, "t", call);
  }

  lemma NeverFailed(id: string)
    ensures !FailedIn([Apply(ToolCall("t", "read", "", Some("failed"), Missing))], id)
  {
    var call := Apply(ToolCall("t", "read", "", Some("failed"), Missing));
    assert [call][..0] == [];
  }
}
