/**
 * What every run of the translator guarantees, whatever arrives and in whatever
 * order: the transcript holds the streamed text in merged runs, the live deltas
 * rebuild the same runs, and every tool call is paired with its result.
 */
module TranslatorRuns {
  import opened Wrappers
  import opened Collections
  import opened Transcript
  import opened TranscriptReading
  import opened TranslatorSteps

  // ---------- the end of a turn ----------

  predicate Distinct(ids: seq<string>) {
    forall i, j :: 0 <= i < j < |ids| ==> ids[i] != ids[j]
  }

  predicate Owed(t: Track) {
    FinalMarks(t) != [] && FinalMarks(t)[0] == UseMark
  }

  /** The ids, in order, whose use the end of the turn still has to commit. */
  function OwedUses(s: State, ids: seq<string>): seq<string> {
    if ids == [] then []
    else
      var id := ids[|ids| - 1];
      OwedUses(s, ids[..|ids| - 1]) + (if Owed(CallTrack(s, id)) then [id] else [])
  }

  /** `FlushTool` in two moves: the use still owed, then the result. */
  function FlushToolUse(m: Machine, id: string): (r: Machine)
    requires id in m.st.calls
    ensures id in r.st.calls
  {
    if Owed(CallTrack(m.st, id)) then CommitUseAfterRun(m, id) else m
  }

  predicate OwesResult(t: Track) {
    t.Seen? && !t.resulted && Terminal(t.status)
  }

  lemma FlushToolSplits(m: Machine, id: string)
    requires id in m.st.calls
    ensures FlushTool(m, id)
         == if OwesResult(CallTrack(m.st, id)) then CommitToolResult(FlushToolUse(m, id), id) else FlushToolUse(m, id)
  {
    if Owed(CallTrack(m.st, id)) { CommitUseTracks(m, id, id); }
    hide FlushActiveRun, CommitToolUse, CommitToolResult;
  }

  lemma FlushToolUseTracks(m: Machine, id: string, i: string)
    requires id in m.st.calls
    ensures var r := FlushToolUse(m, id);
            var t := CallTrack(m.st, id);
            && CallTrack(r.st, i) == AfterUse(CallTrack(m.st, i), i == id && Owed(t))
            && Marks(r.entries, i) == Marks(m.entries, i) + (if i == id && Owed(t) then [UseMark] else [])
  {
    if Owed(CallTrack(m.st, id)) { CommitUseTracks(m, id, i); }
  }

  lemma FlushToolTracks(m: Machine, id: string, i: string)
    requires id in m.st.calls
    ensures var r := FlushTool(m, id);
            && (i != id ==> CallTrack(r.st, i) == CallTrack(m.st, i))
            && (i in m.st.calls ==> i in r.st.calls)
            && Marks(r.entries, i) == Marks(m.entries, i) + (if i == id then FinalMarks(CallTrack(m.st, id)) else [])
  {
    hide FlushToolUse, FlushTool, CommitToolResult, Marks;
    FlushToolSplits(m, id);
    FlushToolUseTracks(m, id, i);
    FlushToolUseTracks(m, id, id);
    var t := CallTrack(m.st, id);
    var a := FlushToolUse(m, id);
    if OwesResult(t) { CommitResultTracks(a, id, i); }
    var use := if i == id && Owed(t) then [UseMark] else [];
    var result := if i == id && OwesResult(t) then [ResultMark] else [];
    Regroup(Marks(m.entries, i), use, result);
    assert use + result == if i == id then FinalMarks(t) else [];
    assert i in m.st.calls <==> CallTrack(m.st, i).Seen?;
  }

  lemma FlushToolEmits(m: Machine, id: string)
    requires Good(m) && id in m.st.calls
    ensures var owed := Owed(CallTrack(m.st, id));
            Emits(m, FlushTool(m, id), owed, if owed then [id] else [])
  {
    FlushToolSplits(m, id);
    var owed := Owed(CallTrack(m.st, id));
    var ids := if owed then [id] else [];
    var a := FlushToolUse(m, id);
    if owed { CommitAfterRunEmits(m, id); } else { Quiet(m, m); }
    if OwesResult(CallTrack(m.st, id)) {
      CommitResultEmits(a, id);
      Chained(m, a, CommitToolResult(a, id), owed, ids, false, []);
      assert ids + [] == ids;
    }
  }

  /** Flushing the tools `ids` of `m` left the id `i` as it is in `r`. */
  predicate Flushed(m: Machine, r: Machine, ids: seq<string>, i: string) {
    && (i !in ids ==> CallTrack(r.st, i) == CallTrack(m.st, i))
    && (i in m.st.calls ==> i in r.st.calls)
    && Marks(r.entries, i)
       == if i in ids then Marks(m.entries, i) + FinalMarks(CallTrack(m.st, i)) else Marks(m.entries, i)
  }

  lemma FlushedOneMore(m: Machine, before: Machine, rest: seq<string>, id: string, i: string)
    requires id !in rest && Flushed(m, before, rest, i) && Flushed(m, before, rest, id)
    ensures Flushed(m, if id in before.st.calls then FlushTool(before, id) else before, rest + [id], i)
  {
    hide Marks, FlushTool;
    if id in before.st.calls {
      hide FinalMarks;
      FlushToolTracks(before, id, i);
      if i != id { assert Marks(before.entries, i) + [] == Marks(before.entries, i); }
    } else {
      assert CallTrack(before.st, id) == Unseen;
      assert Marks(before.entries, i) + [] == Marks(before.entries, i);
    }
  }

  lemma {:induction false} FlushToolsTracks(m: Machine, ids: seq<string>, i: string)
    requires Distinct(ids)
    ensures Flushed(m, FlushTools(m, ids), ids, i)
  {
    hide Marks, FlushTool, FinalMarks, CallTrack;
    if ids != [] {
      hide Flushed;
      var rest, id := ids[..|ids| - 1], ids[|ids| - 1];
      FlushToolsTracks(m, rest, i);
      FlushToolsTracks(m, rest, id);
      assert id !in rest;
      assert ids == rest + [id];
      FlushedOneMore(m, FlushTools(m, rest), rest, id, i);
    }
  }

  lemma {:induction false} FlushToolsEmits(m: Machine, ids: seq<string>)
    requires Good(m) && Distinct(ids)
    ensures var uses := OwedUses(m.st, ids);
            Emits(m, FlushTools(m, ids), uses != [], uses)
  {
    if ids == [] {
      Quiet(m, m);
    } else {
      var rest, id := ids[..|ids| - 1], ids[|ids| - 1];
      FlushToolsEmits(m, rest);
      FlushToolsTracks(m, rest, id);
      var before := FlushTools(m, rest);
      assert id !in rest;
      var uses := OwedUses(m.st, rest);
      if id in before.st.calls {
        var owed := Owed(CallTrack(before.st, id));
        FlushToolEmits(before, id);
        Chained(m, before, FlushTool(before, id), uses != [], uses, owed, if owed then [id] else []);
      } else {
        assert uses + [] == uses;
      }
    }
  }

  lemma EndTurnReads(b: Machine, now: int)
    ensures var r := EndTurn(b, now);
            && RunContents(r.entries) == RunContents(b.entries)
            && Timeline(r.entries) == Timeline(b.entries)
            && r.deltas == b.deltas && r.st.pending == [] && OpenRun(r.st) && !r.st.streaming
  {
    hide RunContents, Timeline;
    Appended(b.entries, TurnEnd(b.st.nextUuid, now - b.st.turnStartedAt));
    assert Timeline(b.entries) + [] == Timeline(b.entries);
  }

  lemma NothingPending()
    ensures Uses([]) == [] && Flat([]) == []
  {}

  lemma EndTurnEmits(a: Machine, usage: Option<Usage>, now: int)
    requires Good(a)
    ensures Emits(a, EndTurn(StopStream(CloseRun(a, usage)), now), true, [])
  {
    hide EndTurn, StopStream, CloseRun, RunContents, Timeline, Flat, Uses, Replay, OpenRun;
    CloseEffect(a, usage);
    EndTurnReads(StopStream(CloseRun(a, usage)), now);
    NothingPending();
  }

  lemma FlushTurnEmits(m: Machine, now: int)
    requires Good(m) && Distinct(m.st.order)
    ensures Emits(m, FlushTurn(m, now), true, OwedUses(m.st, m.st.order))
  {
    hide FlushTools, OwedUses, Replay, RunContents, Timeline, Flat, CloseRun, StopStream, EndTurn;
    var uses := OwedUses(m.st, m.st.order);
    FlushToolsEmits(m, m.st.order);
    var a := FlushTools(m, m.st.order);
    EndTurnEmits(a, AttachedUsage(a.st.usage), now);
    Chained(m, a, FlushTurn(m, now), uses != [], uses, true, []);
    assert uses + [] == uses;
  }

  lemma FlushTurnTracks(m: Machine, now: int, i: string)
    requires Distinct(m.st.order)
    requires i in m.st.order <==> i in m.st.calls
    ensures CallTrack(FlushTurn(m, now).st, i) == Unseen
    ensures Marks(FlushTurn(m, now).entries, i)
         == Marks(m.entries, i) + NewMarks(CallTrack(m.st, i), i, Flush(now))
  {
    hide Marks, FlushTools, FlushTool, FinalMarks;
    FlushToolsTracks(m, m.st.order, i);
    var a := FlushTools(m, m.st.order);
    UnseenOwesNothing();
    assert Marks(m.entries, i) + [] == Marks(m.entries, i);
    ClosingMarks(a, AttachedUsage(a.st.usage), now, i);
    Regroup(Marks(m.entries, i), FinalMarks(CallTrack(m.st, i)), [EndMark]);
  }

  lemma UnseenOwesNothing()
    ensures FinalMarks(Unseen) == []
  {}

  lemma ClosingMarks(a: Machine, usage: Option<Usage>, now: int, i: string)
    ensures Marks(EndTurn(StopStream(CloseRun(a, usage)), now).entries, i) == Marks(a.entries, i) + [EndMark]
  {
    hide Marks, RunContents, Timeline;
    if a.st.run.Some? && |a.st.pending| > 0 {
      Appended(a.entries, RunEntry(a.st.run.value, a.st.pending, usage));
    }
    var b := StopStream(CloseRun(a, usage));
    Appended(b.entries, TurnEnd(b.st.nextUuid, now - b.st.turnStartedAt));
  }

  // ---------- references that read the trace alone ----------

  function TrackOf(trace: seq<Event>, id: string): Track {
    if trace == [] then Unseen else TrackStep(TrackOf(trace[..|trace| - 1], id), id, trace[|trace| - 1])
  }

  predicate IsTool(e: Event) {
    e.Apply? && (e.update.ToolCall? || e.update.ToolUpdate?) && e.update.id != ""
  }

  /** The tool call ids of the current turn in order of first sight. */
  function OrderOf(trace: seq<Event>): seq<string> {
    if trace == [] then []
    else
      var before, e := trace[..|trace| - 1], trace[|trace| - 1];
      if e.Flush? then []
      else if IsTool(e) && TrackOf(before, e.update.id).Unseen? then OrderOf(before) + [e.update.id]
      else OrderOf(before)
  }

  function OwedIn(trace: seq<Event>, ids: seq<string>): seq<string> {
    if ids == [] then []
    else
      var id := ids[|ids| - 1];
      OwedIn(trace, ids[..|ids| - 1]) + (if Owed(TrackOf(trace, id)) then [id] else [])
  }

  /** The characters and the committed tool uses, in the order in which the
      notifications that caused them arrived. */
  function Arrivals(trace: seq<Event>): seq<Item> {
    if trace == [] then []
    else
      var before, e := trace[..|trace| - 1], trace[|trace| - 1];
      Arrivals(before)
      + (if e.Flush? then Uses(OwedIn(before, OrderOf(before)))
         else if e.Apply? && e.update.Chunk? then Pieces(e.update.kind, e.update.text)
         else if IsTool(e) then Uses(UsesNow(TrackOf(before, e.update.id), e.update))
         else [])
  }

  /** Chunks between the points where a run ends. */
  datatype Segments = Segments(done: seq<seq<Fragment>>, open: seq<Fragment>)

  function CutHere(s: Segments): Segments {
    Segments(if s.open == [] then s.done else s.done + [s.open], [])
  }

  function SegmentsOf(trace: seq<Event>): Segments {
    if trace == [] then Segments([], [])
    else
      var before, e := trace[..|trace| - 1], trace[|trace| - 1];
      var s := SegmentsOf(before);
      if e.Flush? then CutHere(s)
      else if e.Apply? && e.update.Chunk? then
        if e.update.text == "" then s else s.(open := s.open + [Fragment(e.update.kind, e.update.text)])
      else if IsTool(e) && EndsRun(TrackOf(before, e.update.id), e.update) then CutHere(s)
      else s
  }

  function MergeAll(runs: seq<seq<Fragment>>): seq<seq<Block>> {
    if runs == [] then [] else MergeAll(runs[..|runs| - 1]) + [Merge(runs[|runs| - 1])]
  }

  function MarksIn(trace: seq<Event>, id: string): seq<Mark> {
    if trace == [] then []
    else
      var before, e := trace[..|trace| - 1], trace[|trace| - 1];
      MarksIn(before, id) + NewMarks(TrackOf(before, id), id, e)
  }

  // ---------- the run theorem ----------

  ghost predicate Agrees(m: Machine, trace: seq<Event>) {
    && m.st.order == OrderOf(trace)
    && Distinct(m.st.order)
    && (forall i :: CallTrack(m.st, i) == TrackOf(trace, i))
    && (forall i :: i in m.st.order <==> i in m.st.calls)
    && (forall i :: Marks(m.entries, i) == MarksIn(trace, i))
  }

  predicate Faithful(m: Machine, trace: seq<Event>) {
    && Good(m)
    && RunContents(m.entries) == MergeAll(SegmentsOf(trace).done)
    && m.st.pending == Merge(SegmentsOf(trace).open)
    && Timeline(m.entries) + Flat(m.st.pending) == Arrivals(trace)
  }

  lemma {:induction false} OwedAgrees(m: Machine, trace: seq<Event>, ids: seq<string>)
    requires forall i :: CallTrack(m.st, i) == TrackOf(trace, i)
    ensures OwedUses(m.st, ids) == OwedIn(trace, ids)
  {
    if ids != [] { OwedAgrees(m, trace, ids[..|ids| - 1]); }
  }

  lemma StepTracks(m: Machine, e: Event, i: string)
    requires Good(m)
    requires Distinct(m.st.order) && (i in m.st.order <==> i in m.st.calls)
    ensures var r := Step(m, e);
            && CallTrack(r.st, i) == TrackStep(CallTrack(m.st, i), i, e)
            && Marks(r.entries, i) == Marks(m.entries, i) + NewMarks(CallTrack(m.st, i), i, e)
  {
    hide FlushTurn, FlushActiveRun, CommitToolUse, Midway, Finish, Marks, Replay, RunContents;
    match e
    case Flush(now) => FlushTurnTracks(m, now, i);
    case ReportUsage(_) =>
    case Apply(u) =>
      match u {
        case Chunk(kind, text) => ChunkEffect(m, kind, text);
        case ToolCall(id, _, _, _, _) => if id != "" { ToolCallTracks(m, u, i); }
        case ToolUpdate(id, _, _, _, _, _, _) => if id != "" { ToolUpdateTracks(m, u, i); }
        case Other =>
      }
  }

  lemma StepOrder(m: Machine, e: Event)
    requires Good(m)
    ensures Step(m, e).st.order
         == if e.Flush? then []
            else if IsTool(e) && CallTrack(m.st, e.update.id).Unseen? then m.st.order + [e.update.id]
            else m.st.order
  {
    hide FlushActiveRun, CommitToolUse, Midway, Finish, Marks, Replay, RunContents;
    match e
    case Flush(_) =>
    case ReportUsage(_) =>
    case Apply(u) =>
      match u {
        case Chunk(kind, text) => ChunkEffect(m, kind, text);
        case ToolCall(id, _, _, _, _) => if id != "" { ToolCallTracks(m, u, id); }
        case ToolUpdate(id, _, _, _, _, _, _) => if id != "" { ToolUpdateTracks(m, u, id); }
        case Other =>
      }
  }

  lemma ReadsEvent(before: seq<Event>, e: Event, i: string)
    ensures var trace := before + [e];
            && TrackOf(trace, i) == TrackStep(TrackOf(before, i), i, e)
            && MarksIn(trace, i) == MarksIn(before, i) + NewMarks(TrackOf(before, i), i, e)
            && OrderOf(trace) == (if e.Flush? then []
                                  else if IsTool(e) && TrackOf(before, e.update.id).Unseen?
                                  then OrderOf(before) + [e.update.id]
                                  else OrderOf(before))
  {
    assert (before + [e])[..|before|] == before;
  }

  lemma StepAgreesAt(m: Machine, before: seq<Event>, e: Event, i: string)
    requires Good(m) && Agrees(m, before)
    ensures var r, trace := Step(m, e), before + [e];
            && CallTrack(r.st, i) == TrackOf(trace, i) && Marks(r.entries, i) == MarksIn(trace, i)
            && (i in r.st.order <==> i in r.st.calls)
            && r.st.order == OrderOf(trace)
  {
    hide Step, Marks, MarksIn, OrderOf, TrackOf, NewMarks, Replay, RunContents;
    StepTracks(m, e, i);
    StepOrder(m, e);
    ReadsEvent(before, e, i);
    assert i in m.st.calls <==> CallTrack(m.st, i).Seen?;
    var r := Step(m, e);
    assert i in r.st.calls <==> CallTrack(r.st, i).Seen?;
  }

  lemma StepAgrees(m: Machine, before: seq<Event>, e: Event)
    requires Good(m) && Agrees(m, before)
    ensures Agrees(Step(m, e), before + [e])
  {
    var r, trace := Step(m, e), before + [e];
    hide Step, Marks, MarksIn, OrderOf, TrackOf, CallTrack, Good;
    forall i
      ensures CallTrack(r.st, i) == TrackOf(trace, i) && Marks(r.entries, i) == MarksIn(trace, i)
      ensures i in r.st.order <==> i in r.st.calls
      ensures r.st.order == OrderOf(trace)
    {
      StepAgreesAt(m, before, e, i);
    }
    StepKeepsDistinct(m, before, e);
  }

  lemma StepKeepsDistinct(m: Machine, before: seq<Event>, e: Event)
    requires Good(m) && Agrees(m, before)
    ensures Distinct(Step(m, e).st.order)
    ensures Step(m, e).st.order == OrderOf(before + [e])
  {
    StepAgreesAt(m, before, e, "");
    StepOrder(m, e);
    if IsTool(e) { assert e.update.id in m.st.calls <==> CallTrack(m.st, e.update.id).Seen?; }
    hide Step, Marks, MarksIn, OrderOf, TrackOf, Good;
  }

  lemma ReadsTool(before: seq<Event>, e: Event)
    requires IsTool(e)
    ensures var trace := before + [e];
            var t, s := TrackOf(before, e.update.id), SegmentsOf(before);
            && Arrivals(trace) == Arrivals(before) + Uses(UsesNow(t, e.update))
            && SegmentsOf(trace) == (if EndsRun(t, e.update) then CutHere(s) else s)
  {
    assert (before + [e])[..|before|] == before;
  }

  lemma ReadsFlush(before: seq<Event>, now: int)
    ensures var trace := before + [Flush(now)];
            && Arrivals(trace) == Arrivals(before) + Uses(OwedIn(before, OrderOf(before)))
            && SegmentsOf(trace) == CutHere(SegmentsOf(before))
  {
    assert (before + [Flush(now)])[..|before|] == before;
  }

  lemma ReadsNothing(before: seq<Event>, e: Event)
    requires !e.Flush? && !IsTool(e) && !(e.Apply? && e.update.Chunk?)
    ensures Arrivals(before + [e]) == Arrivals(before) && SegmentsOf(before + [e]) == SegmentsOf(before)
  {
    assert (before + [e])[..|before|] == before;
  }

  lemma EmitsFaithful(m: Machine, r: Machine, before: seq<Event>, trace: seq<Event>, ends: bool, ids: seq<string>)
    requires Faithful(m, before) && Emits(m, r, ends, ids)
    requires Arrivals(trace) == Arrivals(before) + Uses(ids)
    requires SegmentsOf(trace) == if ends then CutHere(SegmentsOf(before)) else SegmentsOf(before)
    ensures Faithful(r, trace)
  {
    CutAgrees(m, SegmentsOf(before));
  }

  lemma FlushIsFaithful(m: Machine, before: seq<Event>, now: int)
    requires Faithful(m, before) && Agrees(m, before)
    ensures Faithful(FlushTurn(m, now), before + [Flush(now)])
  {
    FlushTurnEmits(m, now);
    OwedAgrees(m, before, m.st.order);
    ReadsFlush(before, now);
    EmitsFaithful(m, FlushTurn(m, now), before, before + [Flush(now)], true, OwedUses(m.st, m.st.order));
  }

  lemma ToolIsFaithful(m: Machine, before: seq<Event>, u: Update)
    requires IsTool(Apply(u))
    requires Faithful(m, before) && CallTrack(m.st, u.id) == TrackOf(before, u.id)
    ensures Faithful(ApplyUpdate(m, u), before + [Apply(u)])
  {
    var t := CallTrack(m.st, u.id);
    if u.ToolCall? { ToolCallEmits(m, u); } else { ToolUpdateEmits(m, u); }
    ReadsTool(before, Apply(u));
    EmitsFaithful(m, ApplyUpdate(m, u), before, before + [Apply(u)], EndsRun(t, u), UsesNow(t, u));
  }

  lemma StepEmits(m: Machine, before: seq<Event>, e: Event)
    requires Faithful(m, before) && Agrees(m, before)
    ensures Faithful(Step(m, e), before + [e])
  {
    if e.Flush? {
      FlushIsFaithful(m, before, e.now);
    } else if IsTool(e) {
      ToolIsFaithful(m, before, e.update);
    } else if e.Apply? && e.update.Chunk? {
      ChunkAgrees(m, before, e.update.kind, e.update.text);
    } else {
      ReadsNothing(before, e);
    }
  }

  lemma CutAgrees(m: Machine, s: Segments)
    requires RunContents(m.entries) == MergeAll(s.done) && m.st.pending == Merge(s.open)
    ensures RunContents(m.entries) + Cut(m.st.pending) == MergeAll(CutHere(s).done)
    ensures Merge(CutHere(s).open) == []
  {
    if s.open != [] {
      var n := |s.open|;
      assert Merge(s.open) == Extend(Merge(s.open[..n - 1]), s.open[n - 1]);
      assert (s.done + [s.open])[..|s.done|] == s.done;
    }
  }

  lemma ReadsChunk(before: seq<Event>, kind: BlockKind, text: string)
    ensures var trace := before + [Apply(Chunk(kind, text))];
            var s := SegmentsOf(before);
            && Arrivals(trace) == Arrivals(before) + Pieces(kind, text)
            && SegmentsOf(trace) == (if text == "" then s else Segments(s.done, s.open + [Fragment(kind, text)]))
  {
    var trace := before + [Apply(Chunk(kind, text))];
    assert trace[..|trace| - 1] == before;
  }

  lemma MergeSnoc(fs: seq<Fragment>, f: Fragment)
    ensures Merge(fs + [f]) == Extend(Merge(fs), f)
  {
    assert (fs + [f])[..|fs|] == fs;
  }

  lemma ChunkAgrees(m: Machine, before: seq<Event>, kind: BlockKind, text: string)
    requires Faithful(m, before)
    ensures Faithful(HandleChunk(m, kind, text), before + [Apply(Chunk(kind, text))])
  {
    ReadsChunk(before, kind, text);
    if text == "" {
      assert Pieces(kind, text) == [];
    } else {
      ChunkEffect(m, kind, text);
      var f := Fragment(kind, text);
      MergeSnoc(SegmentsOf(before).open, f);
      FlatExtend(m.st.pending, f);
      Regroup(Timeline(m.entries), Flat(m.st.pending), Pieces(kind, text));
    }
  }

  lemma StepIsFaithful(m: Machine, before: seq<Event>, e: Event, r: Machine, trace: seq<Event>)
    requires Faithful(m, before) && Agrees(m, before)
    requires r == Step(m, e) && trace == before + [e]
    ensures Faithful(r, trace) && Agrees(r, trace)
  {
    StepEmits(m, before, e);
    StepAgrees(m, before, e);
  }

  lemma StartIsFaithful(agent: string, start: int)
    ensures Faithful(Start(agent, start), []) && Agrees(Start(agent, start), [])
  {}

  /** After every run: the run entries are exactly the chunks between run ends,
      maximally merged; text and tool uses stand in the transcript in order of
      arrival; the live stream replays to the same runs; and what the transcript
      says about an id is what that id's own events say. */
  lemma {:induction false} RunIsFaithful(agent: string, start: int, trace: seq<Event>)
    ensures Faithful(Run(Start(agent, start), trace), trace)
    ensures Agrees(Run(Start(agent, start), trace), trace)
  {
    hide Start, Step, OpenRun, Replay, RunContents, Timeline, Flat, Merge, MergeAll, SegmentsOf, Arrivals;
    hide Distinct, Marks, MarksIn, CallTrack, TrackOf, OrderOf;
    if trace == [] {
      StartIsFaithful(agent, start);
    } else {
      var before, e := trace[..|trace| - 1], trace[|trace| - 1];
      RunIsFaithful(agent, start, before);
      var m := Start(agent, start);
      assert trace == before + [e];
      StepIsFaithful(Run(m, before), before, e, Run(m, trace), trace);
    }
  }

  lemma RunSnoc(m: Machine, before: seq<Event>, e: Event)
    ensures Run(m, before + [e]) == Step(Run(m, before), e)
  {
    assert (before + [e])[..|before|] == before;
  }
}
