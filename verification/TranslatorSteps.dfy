/**
 * What one event does to a good translator machine, in terms of what is read off
 * the transcript and the live stream.
 */
module TranslatorSteps {
  import opened Wrappers
  import opened Collections
  import opened Transcript
  import opened TranscriptReading

  // ---------- one tool call id on its own ----------

  /** The history of one tool call id within a turn, told by its own events. */
  datatype Track = Unseen | Seen(name: string, input: RawInput, status: string, used: bool, resulted: bool)

  predicate Used(t: Track) { t.Seen? && t.used }

  predicate Resulted(t: Track) { t.Seen? && t.resulted }

  predicate Concerns(u: Update, id: string) {
    id != "" && (u.ToolCall? || u.ToolUpdate?) && u.id == id
  }

  function FirstSight(u: Update): (t: Track)
    requires u.ToolCall? || u.ToolUpdate?
    ensures t.Seen?
  {
    var input := if u.ToolCall? then InitialInput(u.input) else Record(map[]);
    Seen(ResolveToolName(u.title, u.category), input, u.status.GetOr("pending"), false, false)
  }

  /** A first `tool_call` is used as soon as it carries input; a repeated one is
      ignored; an update is used once there is input or a terminal status, and
      has its result once the status is terminal. */
  function TrackUpdate(t: Track, u: Update): Track
    requires u.ToolCall? || u.ToolUpdate?
  {
    if u.ToolCall? then
      if t.Seen? then t else Seen(FirstSight(u).name, FirstSight(u).input, FirstSight(u).status, KeyCount(InitialInput(u.input)) > 0, false)
    else
      var base := if t.Seen? then t else FirstSight(u);
      var name := if base.used then base.name else ResolveToolName(u.title, u.category);
      var input := if u.input.Record? then u.input else base.input;
      var status := if u.status.Some? && u.status.value != "" then u.status.value else base.status;
      Seen(name, input, status,
           base.used || KeyCount(input) > 0 || Terminal(status),
           base.resulted || Terminal(status))
  }

  function TrackStep(t: Track, id: string, e: Event): Track {
    if e.Flush? then Unseen
    else if e.Apply? && Concerns(e.update, id) then TrackUpdate(t, e.update)
    else t
  }

  /** What the end of the turn still owes this id. */
  function FinalMarks(t: Track): seq<Mark> {
    if t.Unseen? then []
    else
      var closing := !t.resulted && Terminal(t.status);
      (if !t.used && (KeyCount(t.input) > 0 || closing) then [UseMark] else [])
      + (if closing then [ResultMark] else [])
  }

  function NewMarks(t: Track, id: string, e: Event): seq<Mark> {
    if e.Flush? then FinalMarks(t) + [EndMark]
    else
      var t' := TrackStep(t, id, e);
      (if !Used(t) && Used(t') then [UseMark] else [])
      + (if !Resulted(t) && Resulted(t') then [ResultMark] else [])
  }

  function CallTrack(s: State, id: string): Track {
    if id in s.calls
    then
      var c := s.calls[id];
      Seen(c.name, c.input, c.status, c.useCommitted, c.resultCommitted)
    else Unseen
  }

  /** Does this tool notification end the open run? A tool not seen before does
      when announced by `tool_call`; otherwise committing a use does. */
  predicate EndsRun(t: Track, u: Update)
    requires u.ToolCall? || u.ToolUpdate?
  {
    (u.ToolCall? && t.Unseen?) || (!Used(t) && Used(TrackUpdate(t, u)))
  }

  // ---------- reading one step ----------

  function Cut(pending: seq<Block>): seq<seq<Block>> {
    if pending == [] then [] else [pending]
  }

  function Uses(ids: seq<string>): seq<Item> {
    seq(|ids|, i requires 0 <= i < |ids| => Use(ids[i]))
  }

  /** From `m` to `r` the open run was emitted (when `ends`) and then the uses
      `ids`, with nothing else between the text and the tool uses. */
  predicate Emits(m: Machine, r: Machine, ends: bool, ids: seq<string>) {
    && Good(r)
    && RunContents(r.entries) == RunContents(m.entries) + (if ends then Cut(m.st.pending) else [])
    && r.st.pending == (if ends then [] else m.st.pending)
    && Timeline(r.entries) + Flat(r.st.pending) == Timeline(m.entries) + Flat(m.st.pending) + Uses(ids)
  }

  predicate SameRun(a: State, b: State) {
    a.pending == b.pending && a.run == b.run && a.streaming == b.streaming
    && a.lastText == b.lastText && a.lastThinking == b.lastThinking
  }

  lemma Quiet(m: Machine, r: Machine)
    requires Good(m) && SameRun(m.st, r.st) && r.entries == m.entries && r.deltas == m.deltas
    ensures Emits(m, r, false, [])
  {
    assert Uses([]) == [];
  }

  lemma Chained(a: Machine, b: Machine, c: Machine, ends: bool, ids: seq<string>, more: bool, later: seq<string>)
    requires Emits(a, b, ends, ids) && Emits(b, c, more, later)
    ensures Emits(a, c, ends || more, ids + later)
  {
    hide Replay, RunContents, Timeline, Flat, OpenRun;
    assert Uses(ids + later) == Uses(ids) + Uses(later);
    Regroup(Timeline(a.entries) + Flat(a.st.pending), Uses(ids), Uses(later));
    if ends && more {
      assert RunContents(b.entries) + [] == RunContents(b.entries);
    }
  }

  // ---------- the helpers, run by run ----------

  lemma CloseEffect(m: Machine, usage: Option<Usage>)
    requires Good(m)
    ensures var r := StopStream(CloseRun(m, usage));
            && r.st == m.st.(streaming := false)
            && RunContents(r.entries) == RunContents(m.entries) + Cut(m.st.pending)
            && Timeline(r.entries) == Timeline(m.entries) + Flat(m.st.pending)
            && Replay(r.deltas) == Some(Live(RunContents(r.entries), None))
  {
    if m.st.pending != [] {
      Appended(m.entries, RunEntry(m.st.run.value, m.st.pending, usage));
      Streamed(m.deltas, MessageStop);
    }
  }

  lemma FlushRunEmits(m: Machine)
    requires Good(m)
    ensures Emits(m, FlushActiveRun(m), true, [])
  {
    CloseEffect(m, None);
    assert Uses([]) == [];
  }

  lemma CommitUseEmits(m: Machine, id: string)
    requires Good(m) && id in m.st.calls && !m.st.calls[id].useCommitted && m.st.pending == []
    ensures Emits(m, CommitToolUse(m, id), false, [id])
  {
    hide Replay, RunContents, Timeline;
    var c := m.st.calls[id];
    Appended(m.entries, ToolUse(c.useUuid, id, c.name, c.input, m.st.agent));
    assert Uses([id]) == [Use(id)];
  }

  lemma CommitAfterRunEmits(m: Machine, id: string)
    requires Good(m) && id in m.st.calls && !m.st.calls[id].useCommitted
    ensures Emits(m, CommitUseAfterRun(m, id), true, [id])
  {
    FlushRunEmits(m);
    var a := FlushActiveRun(m);
    CommitUseEmits(a, id);
    Chained(m, a, CommitToolUse(a, id), true, [], false, [id]);
    assert [] + [id] == [id];
  }

  lemma CommitResultEmits(m: Machine, id: string)
    requires Good(m) && id in m.st.calls
    ensures Emits(m, CommitToolResult(m, id), false, [])
  {
    hide Replay, RunContents, Timeline, Flat;
    var c := m.st.calls[id];
    Appended(m.entries, ToolResult(c.resultUuid, id, c.output, c.isError, m.st.agent));
    assert Uses([]) == [];
  }

  // ---------- the helpers, id by id ----------

  lemma FlushRunTracks(m: Machine, i: string)
    ensures var r := FlushActiveRun(m);
            && r.st.calls == m.st.calls && r.st.order == m.st.order
            && Marks(r.entries, i) == Marks(m.entries, i)
  {
    if m.st.run.Some? && |m.st.pending| > 0 {
      Appended(m.entries, RunEntry(m.st.run.value, m.st.pending, None));
    }
  }

  function AfterUse(t: Track, own: bool): Track
    requires own ==> t.Seen?
  {
    if own then t.(used := true) else t
  }

  function AfterResult(t: Track, own: bool): Track
    requires own ==> t.Seen?
  {
    if own then t.(resulted := true) else t
  }

  lemma CommitUseTracks(m: Machine, id: string, i: string)
    requires id in m.st.calls && !m.st.calls[id].useCommitted
    ensures var r := CommitUseAfterRun(m, id);
            && id in r.st.calls && r.st.order == m.st.order
            && CallTrack(r.st, i) == AfterUse(CallTrack(m.st, i), i == id)
            && Marks(r.entries, i) == Marks(m.entries, i) + (if i == id then [UseMark] else [])
  {
    FlushRunTracks(m, i);
    var a, c := FlushActiveRun(m), m.st.calls[id];
    Appended(a.entries, ToolUse(c.useUuid, id, c.name, c.input, a.st.agent));
  }

  lemma CommitResultTracks(m: Machine, id: string, i: string)
    requires id in m.st.calls
    ensures var r := CommitToolResult(m, id);
            var c := m.st.calls[id];
            && id in r.st.calls && r.st.order == m.st.order
            && CallTrack(r.st, i) == AfterResult(CallTrack(m.st, i), i == id)
            && Marks(r.entries, i)
               == Marks(m.entries, i) + (if i == id && !c.resultCommitted then [ResultMark] else [])
  {
    var c := m.st.calls[id];
    Appended(m.entries, ToolResult(c.resultUuid, id, c.output, c.isError, m.st.agent));
  }

  // ---------- chunks ----------

  /** The block a chunk goes into: the last one when its kind agrees, else a new one. */
  lemma ChunkExtends(m: Machine, kind: BlockKind, text: string)
    requires OpenRun(m.st) && text != ""
    ensures var r := HandleChunk(m, kind, text);
            && OpenRun(r.st) && r.st.streaming
            && r.st.pending == Extend(m.st.pending, Fragment(kind, text))
            && r.entries == m.entries && r.st.calls == m.st.calls && r.st.order == m.st.order
  {
    var a := EnsureActiveRun(m);
    match LastOf(a.st, kind)
    case Some(i) => assert ExtendBlock(m.st.pending, i, kind, text) == Extend(m.st.pending, Fragment(kind, text));
    case None =>
  }

  lemma StartMirrors(m: Machine)
    requires Good(m)
    ensures Replay(EnsureActiveRun(m).deltas) == Some(Live(RunContents(m.entries), Some(m.st.pending)))
  {
    if m.st.run.None? { Streamed(m.deltas, MessageStart); }
  }

  function BlockFor(pending: seq<Block>, kind: BlockKind): nat {
    if |pending| > 0 && pending[|pending| - 1].kind == kind then |pending| - 1 else |pending|
  }

  /** The one delta of a chunk does to a client's buffer what the chunk does to the blocks. */
  lemma DeltaExtends(groups: seq<seq<Block>>, pending: seq<Block>, kind: BlockKind, text: string)
    ensures Receive(Live(groups, Some(pending)), BlockDelta(BlockFor(pending, kind), kind, text))
         == Some(Live(groups, Some(Extend(pending, Fragment(kind, text)))))
  {
    var n := |pending|;
    if n > 0 && pending[n - 1].kind == kind {
      assert pending[n - 1 := Block(kind, pending[n - 1].text + text)] == Extend(pending, Fragment(kind, text));
    }
  }

  lemma ChunkMirrors(m: Machine, kind: BlockKind, text: string)
    requires Good(m) && text != ""
    ensures Mirrored(HandleChunk(m, kind, text))
  {
    ChunkExtends(m, kind, text);
    StartMirrors(m);
    DeltaExtends(RunContents(m.entries), m.st.pending, kind, text);
    var at := BlockFor(m.st.pending, kind);
    var a := EnsureActiveRun(m);
    Streamed(a.deltas, BlockDelta(at, kind, text));
    assert HandleChunk(m, kind, text).deltas == a.deltas + [BlockDelta(at, kind, text)];
  }

  lemma ChunkEffect(m: Machine, kind: BlockKind, text: string)
    requires Good(m)
    ensures var r := HandleChunk(m, kind, text);
            && Good(r)
            && r.entries == m.entries
            && r.st.pending == (if text == "" then m.st.pending else Extend(m.st.pending, Fragment(kind, text)))
            && r.st.calls == m.st.calls && r.st.order == m.st.order
  {
    if text != "" {
      ChunkExtends(m, kind, text);
      ChunkMirrors(m, kind, text);
    }
  }

  // ---------- tool notifications ----------

  /** The uses a notification commits for the id it is about. */
  function UsesNow(t: Track, u: Update): seq<string>
    requires u.ToolCall? || u.ToolUpdate?
  {
    if !Used(t) && Used(TrackUpdate(t, u)) then [u.id] else []
  }

  function Announced(m: Machine, u: Update): Machine
    requires u.ToolCall?
  {
    AddCall(m, u.id, ResolveToolName(u.title, u.category), InitialInput(u.input), u.status)
  }

  lemma ToolCallEmits(m: Machine, u: Update)
    requires Good(m) && u.ToolCall? && u.id != ""
    ensures var t := CallTrack(m.st, u.id);
            Emits(m, HandleToolCall(m, u), EndsRun(t, u), UsesNow(t, u))
  {
    hide Replay, RunContents, Timeline, Flat, FlushActiveRun, CommitToolUse;
    if u.id in m.st.calls {
      Quiet(m, m);
    } else {
      var added := Announced(m, u);
      Quiet(m, added);
      FlushRunTracks(added, u.id);
      if KeyCount(InitialInput(u.input)) > 0 {
        CommitAfterRunEmits(added, u.id);
      } else {
        FlushRunEmits(added);
      }
    }
  }

  lemma ToolCallTracks(m: Machine, u: Update, i: string)
    requires u.ToolCall? && u.id != ""
    ensures var r := HandleToolCall(m, u);
            var t := CallTrack(m.st, i);
            && CallTrack(r.st, i) == TrackStep(t, i, Apply(u))
            && Marks(r.entries, i) == Marks(m.entries, i) + NewMarks(t, i, Apply(u))
            && r.st.order == if u.id in m.st.calls then m.st.order else m.st.order + [u.id]
  {
    hide Marks;
    if u.id !in m.st.calls {
      var added := Announced(m, u);
      FlushRunTracks(added, i);
      if KeyCount(InitialInput(u.input)) > 0 {
        CommitUseTracks(added, u.id, i);
        assert HandleToolCall(m, u) == CommitUseAfterRun(added, u.id);
      }
    }
  }

  function MidwayTrack(t: Track, u: Update): (r: Track)
    requires u.ToolUpdate?
    ensures r.Seen?
  {
    var base := if t.Seen? then t else FirstSight(u);
    var done := TrackUpdate(t, u);
    Seen(done.name, done.input, done.status, base.used || KeyCount(done.input) > 0, base.resulted)
  }

  function EarlyMarks(t: Track, u: Update, own: bool): seq<Mark>
    requires u.ToolUpdate?
  {
    if own && !Used(t) && MidwayTrack(t, u).used then [UseMark] else []
  }

  lemma MidwayTracks(m: Machine, u: Update, i: string)
    requires u.ToolUpdate? && u.id != ""
    ensures var r := Midway(m, u);
            var t := CallTrack(m.st, i);
            && u.id in r.st.calls
            && r.st.order == (if u.id in m.st.calls then m.st.order else m.st.order + [u.id])
            && CallTrack(r.st, i) == (if i == u.id then MidwayTrack(t, u) else t)
            && Marks(r.entries, i) == Marks(m.entries, i) + EarlyMarks(t, u, i == u.id)
  {
    hide CommitUseAfterRun, Marks;
    var a := Received(m, u);
    var c := a.st.calls[u.id];
    if !c.useCommitted && KeyCount(c.input) > 0 {
      CommitUseTracks(a, u.id, i);
    }
  }

  lemma MidwayEmits(m: Machine, u: Update)
    requires Good(m) && u.ToolUpdate? && u.id != ""
    ensures var t := CallTrack(m.st, u.id);
            var early := !Used(t) && MidwayTrack(t, u).used;
            Emits(m, Midway(m, u), early, if early then [u.id] else [])
  {
    hide Replay, RunContents, Timeline, Flat, FlushActiveRun, CommitToolUse, CommitUseAfterRun;
    var a := Received(m, u);
    Quiet(m, a);
    var c := a.st.calls[u.id];
    if !c.useCommitted && KeyCount(c.input) > 0 {
      CommitAfterRunEmits(a, u.id);
    }
  }

  lemma FinishTracks(m: Machine, id: string, i: string)
    requires id in m.st.calls
    ensures var r := Finish(m, id);
            && r.st.order == m.st.order
            && CallTrack(r.st, i) == AfterResult(AfterUse(CallTrack(m.st, i), i == id), i == id)
  {
    hide CommitToolResult, CommitUseAfterRun, Marks;
    var marked := MarkFailed(m, id);
    var b := if m.st.calls[id].useCommitted then marked else CommitUseAfterRun(marked, id);
    assert Finish(m, id) == CommitToolResult(b, id);
    if !m.st.calls[id].useCommitted { CommitUseTracks(marked, id, i); }
    CommitResultTracks(b, id, i);
  }

  lemma FinishAddsMarks(m: Machine, id: string, i: string)
    requires id in m.st.calls
    ensures Marks(Finish(m, id).entries, i) == Marks(m.entries, i) + FinishMarks(CallTrack(m.st, i), i == id)
  {
    hide CommitToolResult, CommitUseAfterRun, Marks;
    var c := m.st.calls[id];
    var marked := MarkFailed(m, id);
    var b := if c.useCommitted then marked else CommitUseAfterRun(marked, id);
    assert Finish(m, id) == CommitToolResult(b, id);
    if !c.useCommitted { CommitUseTracks(marked, id, i); }
    CommitResultTracks(b, id, i);
    var first := if i == id && !c.useCommitted then [UseMark] else [];
    var second := if i == id && !c.resultCommitted then [ResultMark] else [];
    Regroup(Marks(m.entries, i), first, second);
    assert first + second == FinishMarks(CallTrack(m.st, i), i == id);
  }

  function FinishMarks(t: Track, own: bool): seq<Mark>
    requires own ==> t.Seen?
  {
    if !own then []
    else (if t.used then [] else [UseMark]) + (if t.resulted then [] else [ResultMark])
  }

  lemma FinishEmits(m: Machine, id: string)
    requires Good(m) && id in m.st.calls
    ensures var used := m.st.calls[id].useCommitted;
            Emits(m, Finish(m, id), !used, if used then [] else [id])
  {
    var used := m.st.calls[id].useCommitted;
    var marked := MarkFailed(m, id);
    Quiet(m, marked);
    var b := if used then marked else CommitUseAfterRun(marked, id);
    if !used { CommitAfterRunEmits(marked, id); }
    var ids := if used then [] else [id];
    assert Emits(m, b, !used, ids);
    CommitResultEmits(b, id);
    Chained(m, b, CommitToolResult(b, id), !used, ids, false, []);
    assert ids + [] == ids;
  }

  lemma ClosingTracks(b: Machine, t: Track, u: Update, i: string)
    requires u.ToolUpdate? && u.id != "" && u.id in b.st.calls
    requires Terminal(b.st.calls[u.id].status)
    requires CallTrack(b.st, i) == if i == u.id then MidwayTrack(t, u) else t
    ensures CallTrack(Finish(b, u.id).st, i) == TrackStep(t, i, Apply(u))
  {
    FinishTracks(b, u.id, i);
  }

  lemma MarksAddUp(t: Track, u: Update, i: string)
    requires u.ToolUpdate? && u.id != "" && (i == u.id ==> Terminal(MidwayTrack(t, u).status))
    ensures EarlyMarks(t, u, i == u.id) + FinishMarks(if i == u.id then MidwayTrack(t, u) else t, i == u.id)
         == NewMarks(t, i, Apply(u))
  {}

  lemma ToolUpdateTracks(m: Machine, u: Update, i: string)
    requires u.ToolUpdate? && u.id != ""
    ensures var r := HandleToolUpdate(m, u);
            && CallTrack(r.st, i) == TrackStep(CallTrack(m.st, i), i, Apply(u))
            && Marks(r.entries, i) == Marks(m.entries, i) + NewMarks(CallTrack(m.st, i), i, Apply(u))
            && r.st.order == if u.id in m.st.calls then m.st.order else m.st.order + [u.id]
  {
    var b, t := Midway(m, u), CallTrack(m.st, i);
    MidwayTracks(m, u, i);
    if Terminal(b.st.calls[u.id].status) {
      ClosingTracks(b, t, u, i);
      FinishTracks(b, u.id, i);
      FinishAddsMarks(b, u.id, i);
      MarksAddUp(t, u, i);
      Regroup(Marks(m.entries, i), EarlyMarks(t, u, i == u.id), FinishMarks(CallTrack(b.st, i), i == u.id));
    }
  }

  lemma ToolUpdateEmits(m: Machine, u: Update)
    requires Good(m) && u.ToolUpdate? && u.id != ""
    ensures var t := CallTrack(m.st, u.id);
            Emits(m, HandleToolUpdate(m, u), EndsRun(t, u), UsesNow(t, u))
  {
    MidwayTracks(m, u, u.id);
    MidwayEmits(m, u);
    var b := Midway(m, u);
    if Terminal(b.st.calls[u.id].status) {
      FinishEmits(b, u.id);
      if b.st.calls[u.id].useCommitted {
        var ids := UsesNow(CallTrack(m.st, u.id), u);
        Chained(m, b, Finish(b, u.id), EndsRun(CallTrack(m.st, u.id), u), ids, false, []);
        assert ids + [] == ids;
      }
    }
  }
}
