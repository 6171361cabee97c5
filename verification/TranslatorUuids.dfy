/**
 * Entry identifiers are write-once: each is drawn when its run or its tool call
 * begins, kept until the entry is sent, and never used for another.
 */
module TranslatorUuids {
  import opened Wrappers
  import opened Transcript

  /** `uuid` is not on any entry sent. */
  predicate Unsent(entries: seq<Entry>, uuid: nat) {
    forall k :: 0 <= k < |entries| ==> entries[k].uuid != uuid
  }

  predicate AllDiffer(entries: seq<Entry>) {
    forall j, k :: 0 <= j < k < |entries| ==> entries[j].uuid != entries[k].uuid
  }

  /** Both identifiers of a call were drawn, and are unsent while they are owed. */
  predicate CallReserved(m: Machine, c: PendingToolCall) {
    && c.useUuid < m.st.nextUuid && c.resultUuid < m.st.nextUuid && c.useUuid != c.resultUuid
    && (!c.useCommitted ==> Unsent(m.entries, c.useUuid))
    && (!c.resultCommitted ==> Unsent(m.entries, c.resultUuid))
    && (m.st.run.Some? ==> m.st.run.value != c.useUuid && m.st.run.value != c.resultUuid)
  }

  predicate NothingShared(c: PendingToolCall, d: PendingToolCall) {
    c.useUuid != d.useUuid && c.useUuid != d.resultUuid && c.resultUuid != d.useUuid && c.resultUuid != d.resultUuid
  }

  ghost predicate Unique(m: Machine) {
    && AllDiffer(m.entries)
    && (forall k :: 0 <= k < |m.entries| ==> m.entries[k].uuid < m.st.nextUuid)
    && (m.st.run.Some? ==> m.st.run.value < m.st.nextUuid && Unsent(m.entries, m.st.run.value))
    && (forall i | i in m.st.calls :: CallReserved(m, m.st.calls[i]))
    && (forall i, j | i in m.st.calls && j in m.st.calls && i != j :: NothingShared(m.st.calls[i], m.st.calls[j]))
  }

  lemma FlushRunUnique(m: Machine)
    requires Unique(m)
    ensures Unique(FlushActiveRun(m)) && FlushActiveRun(m).st.calls == m.st.calls
  {}

  lemma UnsentSnoc(entries: seq<Entry>, e: Entry, uuid: nat)
    ensures Unsent(entries + [e], uuid) <==> Unsent(entries, uuid) && uuid != e.uuid
  {
    assert (entries + [e])[|entries|] == e;
    assert forall k :: 0 <= k < |entries| ==> (entries + [e])[k] == entries[k];
  }

  lemma DifferSnoc(entries: seq<Entry>, e: Entry)
    requires AllDiffer(entries) && Unsent(entries, e.uuid)
    ensures AllDiffer(entries + [e])
  {}

  /** Sending one entry of a call, with the identifier it still owes. */
  lemma SendUnique(m: Machine, id: string, e: Entry, c: PendingToolCall)
    requires Unique(m) && id in m.st.calls
    requires var d := m.st.calls[id];
             && c.useUuid == d.useUuid && c.resultUuid == d.resultUuid
             && ((e.uuid == d.useUuid && !d.useCommitted && c.useCommitted && c.resultCommitted == d.resultCommitted)
                 || (e.uuid == d.resultUuid && !d.resultCommitted && c.resultCommitted && c.useCommitted == d.useCommitted))
    ensures Unique(SetCall(Emit(m, e), id, c))
  {
    var d, r := m.st.calls[id], SetCall(Emit(m, e), id, c);
    assert CallReserved(m, d);
    DifferSnoc(m.entries, e);
    if m.st.run.Some? { UnsentSnoc(m.entries, e, m.st.run.value); }
    hide Unsent, AllDiffer;
    forall i | i in r.st.calls ensures CallReserved(r, r.st.calls[i]) {
      assert CallReserved(m, m.st.calls[i]);
      assert i != id ==> NothingShared(m.st.calls[i], d);
      UnsentSnoc(m.entries, e, m.st.calls[i].useUuid);
      UnsentSnoc(m.entries, e, m.st.calls[i].resultUuid);
    }
  }

  lemma UseUnique(m: Machine, id: string)
    requires Unique(m) && id in m.st.calls
    ensures Unique(CommitToolUse(m, id)) && CommitToolUse(m, id).st.calls.Keys == m.st.calls.Keys
  {
    hide Unique;
    var c := m.st.calls[id];
    if !c.useCommitted {
      SendUnique(m, id, ToolUse(c.useUuid, id, c.name, c.input, m.st.agent), c.(useCommitted := true));
    }
  }

  lemma ResultUnique(m: Machine, id: string)
    requires Unique(m) && id in m.st.calls
    ensures Unique(CommitToolResult(m, id)) && CommitToolResult(m, id).st.calls.Keys == m.st.calls.Keys
  {
    hide Unique;
    var c := m.st.calls[id];
    if !c.resultCommitted {
      SendUnique(m, id, ToolResult(c.resultUuid, id, c.output, c.isError, m.st.agent), c.(resultCommitted := true));
    }
  }

  lemma UseAfterRunUnique(m: Machine, id: string)
    requires Unique(m) && id in m.st.calls
    ensures Unique(CommitUseAfterRun(m, id)) && CommitUseAfterRun(m, id).st.calls.Keys == m.st.calls.Keys
  {
    hide Unique, FlushActiveRun, CommitToolUse;
    FlushRunUnique(m);
    UseUnique(FlushActiveRun(m), id);
  }

  lemma AddCallUnique(m: Machine, id: string, name: string, input: RawInput, status: Option<string>)
    requires Unique(m) && id !in m.st.calls
    ensures Unique(AddCall(m, id, name, input, status))
  {}

  /** Writing into a record leaves its identifiers and flags alone. */
  lemma SetUnique(m: Machine, id: string, c: PendingToolCall)
    requires Unique(m) && id in m.st.calls
    requires var d := m.st.calls[id];
             c.useUuid == d.useUuid && c.resultUuid == d.resultUuid
             && c.useCommitted == d.useCommitted && c.resultCommitted == d.resultCommitted
    ensures Unique(SetCall(m, id, c))
  {
    assert CallReserved(m, m.st.calls[id]);
  }

  lemma ChunkUnique(m: Machine, kind: BlockKind, text: string)
    requires Unique(m)
    ensures Unique(HandleChunk(m, kind, text))
  {}

  lemma ToolCallUnique(m: Machine, u: Update)
    requires Unique(m) && u.ToolCall?
    ensures Unique(HandleToolCall(m, u))
  {
    hide Unique, FlushActiveRun, CommitToolUse;
    if u.id != "" && u.id !in m.st.calls {
      AddCallUnique(m, u.id, ResolveToolName(u.title, u.category), InitialInput(u.input), u.status);
      var added := AddCall(m, u.id, ResolveToolName(u.title, u.category), InitialInput(u.input), u.status);
      FlushRunUnique(added);
      UseUnique(FlushActiveRun(added), u.id);
    }
  }

  lemma AbsorbKeepsIds(c: PendingToolCall, u: Update)
    requires u.ToolUpdate?
    ensures var d := Absorb(c, u);
            c.useUuid == d.useUuid && c.resultUuid == d.resultUuid
            && c.useCommitted == d.useCommitted && c.resultCommitted == d.resultCommitted
  {}

  lemma ReceivedUnique(m: Machine, u: Update)
    requires Unique(m) && u.ToolUpdate?
    ensures Unique(Received(m, u))
  {
    hide Unique, Absorb;
    if u.id !in m.st.calls {
      AddCallUnique(m, u.id, ResolveToolName(u.title, u.category), Record(map[]), u.status);
    }
    var a := if u.id in m.st.calls then m
             else AddCall(m, u.id, ResolveToolName(u.title, u.category), Record(map[]), u.status);
    AbsorbKeepsIds(a.st.calls[u.id], u);
    SetUnique(a, u.id, Absorb(a.st.calls[u.id], u));
  }

  lemma FinishUnique(m: Machine, id: string)
    requires Unique(m) && id in m.st.calls
    ensures Unique(Finish(m, id))
  {
    hide Unique, CommitUseAfterRun, CommitToolResult;
    var c := m.st.calls[id];
    SetUnique(m, id, c.(isError := true));
    var marked := MarkFailed(m, id);
    UseAfterRunUnique(marked, id);
    ResultUnique(if c.useCommitted then marked else CommitUseAfterRun(marked, id), id);
  }

  lemma ToolUpdateUnique(m: Machine, u: Update)
    requires Unique(m) && u.ToolUpdate?
    ensures Unique(HandleToolUpdate(m, u))
  {
    hide Unique, Received, Finish, CommitUseAfterRun;
    if u.id != "" {
      ReceivedUnique(m, u);
      UseAfterRunUnique(Received(m, u), u.id);
      FinishUnique(Midway(m, u), u.id);
    }
  }

  lemma FlushToolUnique(m: Machine, id: string)
    requires Unique(m) && id in m.st.calls
    ensures Unique(FlushTool(m, id))
  {
    hide Unique, CommitUseAfterRun, CommitToolResult;
    var c := m.st.calls[id];
    UseAfterRunUnique(m, id);
    var a := if !c.useCommitted && KeyCount(c.input) > 0 then CommitUseAfterRun(m, id) else m;
    UseAfterRunUnique(a, id);
    ResultUnique(if a.st.calls[id].useCommitted then a else CommitUseAfterRun(a, id), id);
  }

  lemma {:induction false} FlushToolsUnique(m: Machine, ids: seq<string>)
    requires Unique(m)
    ensures Unique(FlushTools(m, ids))
  {
    hide Unique, FlushTool;
    if ids != [] {
      var before, id := FlushTools(m, ids[..|ids| - 1]), ids[|ids| - 1];
      FlushToolsUnique(m, ids[..|ids| - 1]);
      if id in before.st.calls { FlushToolUnique(before, id); }
    }
  }

  lemma ClosingUnique(a: Machine, usage: Option<Usage>, now: int)
    requires Unique(a)
    ensures Unique(EndTurn(StopStream(CloseRun(a, usage)), now))
  {}

  lemma StepUnique(m: Machine, e: Event)
    requires Unique(m)
    ensures Unique(Step(m, e))
  {
    hide HandleChunk, HandleToolCall, HandleToolUpdate, FlushTools, CloseRun, EndTurn;
    match e {
      case Apply(u) =>
        hide Unique;
        match u {
          case Chunk(kind, text) => ChunkUnique(m, kind, text);
          case ToolCall(_, _, _, _, _) => ToolCallUnique(m, u);
          case ToolUpdate(_, _, _, _, _, _, _) => ToolUpdateUnique(m, u);
          case Other =>
        }
      case ReportUsage(_) =>
      case Flush(now) =>
        FlushToolsUnique(m, m.st.order);
        var a := FlushTools(m, m.st.order);
        ClosingUnique(a, AttachedUsage(a.st.usage), now);
    }
  }

  lemma {:induction false} RunIsUnique(agent: string, start: int, trace: seq<Event>)
    ensures Unique(Run(Start(agent, start), trace))
  {
    if trace != [] {
      hide Step, Unique;
      RunIsUnique(agent, start, trace[..|trace| - 1]);
      StepUnique(Run(Start(agent, start), trace[..|trace| - 1]), trace[|trace| - 1]);
    }
  }

  /** No two entries of a transcript ever share an identifier, over any number of
      turns, although those of a tool call are drawn long before they are used. */
  lemma EntriesHaveTheirOwnUuids(agent: string, start: int, trace: seq<Event>)
    ensures AllDiffer(Run(Start(agent, start), trace).entries)
  {
    hide Run, Start;
    RunIsUnique(agent, start, trace);
  }
}
