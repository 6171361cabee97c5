/**
 * The guarantees of the turn translator, stated for every run and without
 * reference to the translator's own state.
 */
module TranslatorTheorems {
  import opened Wrappers
  import opened Collections
  import opened Transcript
  import opened TranscriptReading
  import opened TranslatorSteps
  import opened TranslatorRuns

  predicate EndsWithFlush(trace: seq<Event>) {
    trace != [] && trace[|trace| - 1].Flush?
  }

  // ---------- no chunk is lost ----------

  /** The non-empty chunks of a trace, in order of arrival. */
  function ChunksIn(trace: seq<Event>): seq<Fragment> {
    if trace == [] then [] else ChunksIn(trace[..|trace| - 1]) + ChunkOf(trace[|trace| - 1])
  }

  function ChunkOf(e: Event): seq<Fragment> {
    if e.Apply? && e.update.Chunk? && e.update.text != "" then [Fragment(e.update.kind, e.update.text)] else []
  }

  function AllFragments(runs: seq<seq<Fragment>>): seq<Fragment> {
    if runs == [] then [] else AllFragments(runs[..|runs| - 1]) + runs[|runs| - 1]
  }

  function FlatAll(contents: seq<seq<Block>>): seq<Item> {
    if contents == [] then [] else FlatAll(contents[..|contents| - 1]) + Flat(contents[|contents| - 1])
  }

  predicate AllNonempty(fs: seq<Fragment>) {
    forall i :: 0 <= i < |fs| ==> fs[i].text != ""
  }

  lemma AllFragmentsSnoc(runs: seq<seq<Fragment>>, run: seq<Fragment>)
    ensures AllFragments(runs + [run]) == AllFragments(runs) + run
  {
    assert (runs + [run])[..|runs|] == runs;
  }

  predicate GoodSegments(s: Segments) {
    AllNonempty(s.open) && forall k :: 0 <= k < |s.done| ==> s.done[k] != [] && AllNonempty(s.done[k])
  }

  lemma CutIsGood(s: Segments)
    requires GoodSegments(s)
    ensures GoodSegments(CutHere(s)) && CutHere(s).open == []
  {}

  lemma CutKeepsChunks(s: Segments)
    ensures AllFragments(CutHere(s).done) + CutHere(s).open == AllFragments(s.done) + s.open
  {
    hide AllFragments;
    AllFragmentsSnoc(s.done, s.open);
    assert (AllFragments(s.done) + s.open) + [] == AllFragments(s.done) + s.open;
  }

  lemma SegmentStep(before: seq<Event>, e: Event)
    ensures var s, s' := SegmentsOf(before), SegmentsOf(before + [e]);
            || (s' == CutHere(s) && ChunkOf(e) == [])
            || (s' == Segments(s.done, s.open + ChunkOf(e)) && !e.Flush?)
    ensures ChunksIn(before + [e]) == ChunksIn(before) + ChunkOf(e)
  {
    assert (before + [e])[..|before|] == before;
    hide EndsRun, TrackOf, CutHere;
    assert SegmentsOf(before).open + [] == SegmentsOf(before).open;
  }

  predicate KeepsChunks(trace: seq<Event>) {
    var s := SegmentsOf(trace);
    && AllFragments(s.done) + s.open == ChunksIn(trace)
    && GoodSegments(s)
    && (EndsWithFlush(trace) ==> s.open == [])
  }

  lemma OpenGrows(s: Segments, e: Event)
    requires GoodSegments(s)
    ensures GoodSegments(Segments(s.done, s.open + ChunkOf(e)))
    ensures AllFragments(s.done) + (s.open + ChunkOf(e)) == AllFragments(s.done) + s.open + ChunkOf(e)
  {
    hide AllFragments;
  }

  lemma KeepsChunksStep(before: seq<Event>, e: Event)
    requires KeepsChunks(before)
    ensures KeepsChunks(before + [e])
  {
    hide AllFragments, CutHere, SegmentsOf, ChunksIn, GoodSegments;
    SegmentStep(before, e);
    var s := SegmentsOf(before);
    CutIsGood(s);
    CutKeepsChunks(s);
    OpenGrows(s, e);
    assert ChunksIn(before) + [] == ChunksIn(before);
  }

  /** Cutting a trace into segments keeps every chunk, once and in order. */
  lemma {:induction false} SegmentsKeepChunks(trace: seq<Event>)
    ensures KeepsChunks(trace)
  {
    if trace != [] {
      hide AllFragments, SegmentsOf, ChunksIn, GoodSegments;
      SegmentsKeepChunks(trace[..|trace| - 1]);
      KeepsChunksStep(trace[..|trace| - 1], trace[|trace| - 1]);
      assert trace == trace[..|trace| - 1] + [trace[|trace| - 1]];
    }
  }

  lemma FragmentItemsSnoc(fs: seq<Fragment>, f: Fragment)
    ensures FragmentItems(fs + [f]) == FragmentItems(fs) + Pieces(f.kind, f.text)
  {
    assert (fs + [f])[..|fs|] == fs;
  }

  lemma NoFragments()
    ensures FragmentItems([]) == []
  {}

  lemma {:induction false} FragmentItemsJoin(a: seq<Fragment>, b: seq<Fragment>)
    ensures FragmentItems(a + b) == FragmentItems(a) + FragmentItems(b)
  {
    hide FragmentItems, Pieces;
    if b == [] {
      NoFragments();
      assert a + b == a;
    } else {
      var b', f := b[..|b| - 1], b[|b| - 1];
      FragmentItemsJoin(a, b');
      FragmentItemsSnoc(a + b', f);
      FragmentItemsSnoc(b', f);
      assert a + b == (a + b') + [f] && b == b' + [f];
      Regroup(FragmentItems(a), FragmentItems(b'), Pieces(f.kind, f.text));
    }
  }

  lemma MergeAllSnoc(rest: seq<seq<Fragment>>, run: seq<Fragment>)
    ensures MergeAll(rest + [run]) == MergeAll(rest) + [Merge(run)]
    ensures FlatAll(MergeAll(rest + [run])) == FlatAll(MergeAll(rest)) + Flat(Merge(run))
    ensures AllFragments(rest + [run]) == AllFragments(rest) + run
  {
    assert (rest + [run])[..|rest|] == rest;
    assert (MergeAll(rest) + [Merge(run)])[..|MergeAll(rest)|] == MergeAll(rest);
  }

  lemma {:induction false} MergeAllIsFaithful(runs: seq<seq<Fragment>>)
    requires forall k :: 0 <= k < |runs| ==> runs[k] != [] && AllNonempty(runs[k])
    ensures FlatAll(MergeAll(runs)) == FragmentItems(AllFragments(runs))
    ensures forall k :: 0 <= k < |MergeAll(runs)| ==> MergeAll(runs)[k] != [] && Maximal(MergeAll(runs)[k])
  {
    if runs != [] {
      hide MergeAll, FlatAll, AllFragments, FragmentItems, Flat, Merge, Maximal;
      var rest, run := runs[..|runs| - 1], runs[|runs| - 1];
      assert runs == rest + [run];
      MergeAllIsFaithful(rest);
      MergeIsFaithful(run);
      MergeAllSnoc(rest, run);
      FragmentItemsJoin(AllFragments(rest), run);
    }
  }

  /** A turn that has ended left nothing behind: the run entries hold exactly the
      non-empty chunks in order of arrival, each entry merged as far as it goes,
      and text and tool uses stand in order of arrival. */
  lemma TranscriptHoldsEveryChunk(agent: string, start: int, trace: seq<Event>)
    requires EndsWithFlush(trace)
    ensures var m := Run(Start(agent, start), trace);
            var contents := RunContents(m.entries);
            && contents == MergeAll(SegmentsOf(trace).done)
            && AllFragments(SegmentsOf(trace).done) == ChunksIn(trace)
            && FlatAll(contents) == FragmentItems(ChunksIn(trace))
            && (forall k :: 0 <= k < |contents| ==> contents[k] != [] && Maximal(contents[k]))
            && Timeline(m.entries) == Arrivals(trace)
  {
    hide Run, Start, RunContents, Timeline, Arrivals, SegmentsOf, MergeAll, ChunksIn, FlatAll;
    RunIsFaithful(agent, start, trace);
    SegmentsKeepChunks(trace);
    MergeAllIsFaithful(SegmentsOf(trace).done);
  }

  /** Folding the live deltas by index rebuilds the committed runs, one group for
      each run entry, at every moment of every run. */
  lemma StreamRebuildsTranscript(agent: string, start: int, trace: seq<Event>)
    ensures var m := Run(Start(agent, start), trace);
            && Replay(m.deltas).Some?
            && Replay(m.deltas).value.groups == RunContents(m.entries)
            && (EndsWithFlush(trace) ==> Replay(m.deltas).value.open.None?)
  {
    hide Start, RunContents, Timeline, Replay, Arrivals, SegmentsOf, Merge, MergeAll;
    RunIsFaithful(agent, start, trace);
  }

  // ---------- tool calls are paired ----------

  /** Reading the marks of one id: 0 before its use, 1 after its use, 2 after its
      result; a turn end starts over. None: a repeated use, a repeated result, or
      a result without its use. */
  function Phase(marks: seq<Mark>): Option<nat> {
    if marks == [] then Some(0)
    else
      match (Phase(marks[..|marks| - 1]), marks[|marks| - 1])
      case (Some(_), EndMark) => Some(0)
      case (Some(n), UseMark) => if n == 0 then Some(1) else None
      case (Some(n), ResultMark) => if n == 1 then Some(2) else None
      case (None, _) => None
  }

  function PhaseOf(t: Track): nat {
    if Resulted(t) then 2 else if Used(t) then 1 else 0
  }

  /** A result implies a use, and input implies a use. */
  predicate Settled(t: Track) {
    t.Seen? ==> (t.resulted ==> t.used) && (KeyCount(t.input) > 0 ==> t.used)
  }

  lemma PhaseSnoc(marks: seq<Mark>, x: Mark)
    ensures Phase(marks + [x])
         == match (Phase(marks), x) {
              case (Some(_), EndMark) => Some(0)
              case (Some(n), UseMark) => if n == 0 then Some(1) else None
              case (Some(n), ResultMark) => if n == 1 then Some(2) else None
              case (None, _) => None
            }
  {
    assert (marks + [x])[..|marks|] == marks;
  }

  lemma PhaseStep(marks: seq<Mark>, t: Track, id: string, e: Event)
    requires Settled(t) && Phase(marks) == Some(PhaseOf(t))
    ensures Phase(marks + NewMarks(t, id, e)) == Some(PhaseOf(TrackStep(t, id, e)))
  {
    hide Phase;
    var added := NewMarks(t, id, e);
    assert |added| <= 3;
    if |added| == 0 {
      assert marks + added == marks;
    } else {
      PhaseSnoc(marks, added[0]);
      if |added| == 1 {
        assert marks + added == marks + [added[0]];
      } else {
        PhaseSnoc(marks + [added[0]], added[1]);
        if |added| == 2 {
          assert marks + added == marks + [added[0]] + [added[1]];
        } else {
          PhaseSnoc(marks + [added[0]] + [added[1]], added[2]);
          assert marks + added == marks + [added[0]] + [added[1]] + [added[2]];
        }
      }
    }
  }

  lemma {:induction false} MarksHavePhase(trace: seq<Event>, id: string)
    ensures Settled(TrackOf(trace, id))
    ensures Phase(MarksIn(trace, id)) == Some(PhaseOf(TrackOf(trace, id)))
  {
    if trace != [] {
      MarksHavePhase(trace[..|trace| - 1], id);
      PhaseStep(MarksIn(trace[..|trace| - 1], id), TrackOf(trace[..|trace| - 1], id), id, trace[|trace| - 1]);
    }
  }

  /** Within a turn every tool call id gets at most one use and at most one
      result, and a result only after its use. */
  lemma ToolsArePaired(agent: string, start: int, trace: seq<Event>, id: string)
    ensures Phase(Marks(Run(Start(agent, start), trace).entries, id)).Some?
  {
    hide Run, Start, Marks, MarksIn, Phase;
    RunIsFaithful(agent, start, trace);
    MarksHavePhase(trace, id);
  }

  // ---------- what a whole turn commits ----------

  predicate OneTurn(turn: seq<Event>) {
    forall k :: 0 <= k < |turn| ==> !turn[k].Flush?
  }

  predicate About(turn: seq<Event>, k: nat, id: string)
    requires k < |turn|
  {
    turn[k].Apply? && Concerns(turn[k].update, id)
  }

  /** Every update counts, a `tool_call` only when it is the first word on its id. */
  predicate Accepted(turn: seq<Event>, k: nat, id: string)
    requires k < |turn|
  {
    About(turn, k, id)
    && (turn[k].update.ToolUpdate? || forall j :: 0 <= j < k ==> !About(turn, j, id))
  }

  predicate BringsInput(u: Update) {
    (u.ToolCall? || (u.ToolUpdate? && u.input.Record?)) && KeyCount(u.input) > 0
  }

  predicate InputAt(turn: seq<Event>, k: nat, id: string)
    requires k < |turn|
  {
    Accepted(turn, k, id) && BringsInput(turn[k].update)
  }

  function StatusIn(turn: seq<Event>, id: string): string {
    var t := TrackOf(turn, id);
    if t.Seen? then t.status else ""
  }

  predicate TerminalAt(turn: seq<Event>, k: nat, id: string)
    requires k < |turn|
  {
    About(turn, k, id) && turn[k].update.ToolUpdate? && Terminal(StatusIn(turn[..k + 1], id))
  }

  predicate CarriedInput(turn: seq<Event>, id: string) {
    exists k :: 0 <= k < |turn| && InputAt(turn, k, id)
  }

  predicate WentTerminal(turn: seq<Event>, id: string) {
    exists k :: 0 <= k < |turn| && TerminalAt(turn, k, id)
  }

  lemma CarriedSnoc(turn: seq<Event>, e: Event, id: string)
    ensures CarriedInput(turn + [e], id) <==> CarriedInput(turn, id) || InputAt(turn + [e], |turn|, id)
  {
    var longer := turn + [e];
    forall k | 0 <= k < |turn| ensures InputAt(longer, k, id) <==> InputAt(turn, k, id) {
      assert forall j :: 0 <= j <= k ==> longer[j] == turn[j];
      assert forall j :: 0 <= j <= k ==> (About(longer, j, id) <==> About(turn, j, id));
    }
    if CarriedInput(longer, id) {
      var k :| 0 <= k < |longer| && InputAt(longer, k, id);
      assert k < |turn| ==> InputAt(turn, k, id);
    }
    if CarriedInput(turn, id) {
      var k :| 0 <= k < |turn| && InputAt(turn, k, id);
      assert InputAt(longer, k, id);
    }
  }

  lemma TerminalSnoc(turn: seq<Event>, e: Event, id: string)
    ensures WentTerminal(turn + [e], id) <==> WentTerminal(turn, id) || TerminalAt(turn + [e], |turn|, id)
  {
    hide TrackOf, StatusIn;
    var longer := turn + [e];
    forall k | 0 <= k < |turn| ensures TerminalAt(longer, k, id) <==> TerminalAt(turn, k, id) {
      assert longer[..k + 1] == turn[..k + 1];
    }
    if WentTerminal(longer, id) {
      var k :| 0 <= k < |longer| && TerminalAt(longer, k, id);
      assert k < |turn| ==> TerminalAt(turn, k, id);
    }
    if WentTerminal(turn, id) {
      var k :| 0 <= k < |turn| && TerminalAt(turn, k, id);
      assert TerminalAt(longer, k, id);
    }
  }

  lemma SeenSnoc(turn: seq<Event>, e: Event, id: string)
    requires TrackOf(turn, id).Unseen? <==> forall j :: 0 <= j < |turn| ==> !About(turn, j, id)
    requires !e.Flush?
    ensures var longer := turn + [e];
            TrackOf(longer, id).Unseen? <==> forall j :: 0 <= j < |longer| ==> !About(longer, j, id)
  {
    var longer := turn + [e];
    assert longer[..|turn|] == turn;
    assert forall j :: 0 <= j < |turn| ==> (About(longer, j, id) <==> About(turn, j, id));
    assert TrackOf(longer, id) == TrackStep(TrackOf(turn, id), id, e);
    assert About(longer, |turn|, id) <==> e.Apply? && Concerns(e.update, id);
  }

  /** The record of an id at any point of a turn, in terms of the turn alone. */
  lemma {:induction false} TurnTrack(turn: seq<Event>, id: string)
    requires OneTurn(turn)
    ensures TrackOf(turn, id).Unseen? <==> forall j :: 0 <= j < |turn| ==> !About(turn, j, id)
    ensures Used(TrackOf(turn, id)) <==> CarriedInput(turn, id) || WentTerminal(turn, id)
    ensures Resulted(TrackOf(turn, id)) <==> WentTerminal(turn, id)
  {
    if turn != [] {
      var before, e := turn[..|turn| - 1], turn[|turn| - 1];
      assert turn == before + [e];
      TurnTrack(before, id);
      SeenSnoc(before, e, id);
      CarriedSnoc(before, e, id);
      TerminalSnoc(before, e, id);
      MarksHavePhase(before, id);
      assert turn[..|before| + 1] == turn;
      assert forall j :: 0 <= j < |before| ==> (About(turn, j, id) <==> About(before, j, id));
      TrackStepUses(TrackOf(before, id), id, e);
    }
  }

  lemma TrackStepUses(t: Track, id: string, e: Event)
    requires Settled(t) && !e.Flush?
    ensures var t' := TrackStep(t, id, e);
            var about := e.Apply? && Concerns(e.update, id);
            var terminal := about && e.update.ToolUpdate? && Terminal(t'.status);
            var input := about && (e.update.ToolUpdate? || t.Unseen?) && BringsInput(e.update);
            && (Used(t') <==> Used(t) || input || terminal)
            && (Resulted(t') <==> Resulted(t) || terminal)
  {}

  /** What the transcript says about an id once its turn is over: use and result
      if its status was terminal at one of its updates or at the end, only the use
      if it merely carried input, and nothing otherwise. */
  function TurnMarks(turn: seq<Event>, id: string): seq<Mark> {
    if WentTerminal(turn, id) || Terminal(StatusIn(turn, id)) then [UseMark, ResultMark]
    else if CarriedInput(turn, id) then [UseMark]
    else []
  }

  function MarksSoFar(t: Track): seq<Mark> {
    (if Used(t) then [UseMark] else []) + (if Resulted(t) then [ResultMark] else [])
  }

  lemma MarksGrow(t: Track, id: string, e: Event)
    requires Settled(t) && !e.Flush?
    ensures MarksSoFar(t) + NewMarks(t, id, e) == MarksSoFar(TrackStep(t, id, e))
  {}

  predicate WithinTurn(past: seq<Event>, turn: seq<Event>, id: string) {
    && TrackOf(past + turn, id) == TrackOf(turn, id)
    && MarksIn(past + turn, id) == MarksIn(past, id) + MarksSoFar(TrackOf(turn, id))
  }

  lemma TurnStarts(past: seq<Event>, id: string)
    requires past == [] || EndsWithFlush(past)
    ensures WithinTurn(past, [], id)
  {
    assert past + [] == past;
  }

  lemma WithinTurnStep(past: seq<Event>, before: seq<Event>, e: Event, id: string)
    requires WithinTurn(past, before, id) && !e.Flush?
    ensures WithinTurn(past, before + [e], id)
  {
    MarksHavePhase(before, id);
    hide TrackOf, TrackStep, MarksIn, NewMarks, MarksSoFar;
    assert past + (before + [e]) == (past + before) + [e];
    ReadsEvent(past + before, e, id);
    ReadsEvent(before, e, id);
    MarksGrow(TrackOf(before, id), id, e);
    Regroup(MarksIn(past, id), MarksSoFar(TrackOf(before, id)), NewMarks(TrackOf(before, id), id, e));
  }

  lemma {:induction false} MarksWithinTurn(past: seq<Event>, turn: seq<Event>, id: string)
    requires past == [] || EndsWithFlush(past)
    requires OneTurn(turn)
    ensures WithinTurn(past, turn, id)
  {
    hide WithinTurn, TrackOf, MarksIn, MarksSoFar;
    if turn == [] {
      TurnStarts(past, id);
    } else {
      MarksWithinTurn(past, turn[..|turn| - 1], id);
      WithinTurnStep(past, turn[..|turn| - 1], turn[|turn| - 1], id);
      assert turn == turn[..|turn| - 1] + [turn[|turn| - 1]];
    }
  }

  lemma FlushCompletes(turn: seq<Event>, id: string)
    requires OneTurn(turn)
    ensures MarksSoFar(TrackOf(turn, id)) + FinalMarks(TrackOf(turn, id)) == TurnMarks(turn, id)
  {
    hide TrackOf, CarriedInput, WentTerminal, MarksIn, Phase;
    TurnTrack(turn, id);
    MarksHavePhase(turn, id);
  }

  // ---------- the same by the events alone ----------

  /** Is the event at `k` the first word of the turn on this id? */
  predicate FirstWord(turn: seq<Event>, k: nat, id: string)
    requires k < |turn|
  {
    About(turn, k, id) && forall j :: 0 <= j < k ==> !About(turn, j, id)
  }

  /** The status in force: what the first word says, `pending` when it says nothing, and
      from then on what the last update said that said something. */
  function StatusNow(turn: seq<Event>, id: string): string {
    if turn == [] then ""
    else
      var n := |turn| - 1;
      var before := StatusNow(turn[..n], id);
      if !About(turn, n, id) then before
      else if FirstWord(turn, n, id) then turn[n].update.status.GetOr("pending")
      else if turn[n].update.ToolUpdate? && turn[n].update.status.Some? && turn[n].update.status.value != ""
      then turn[n].update.status.value
      else before
  }

  /** An update of the id after which the status in force is `status`. */
  predicate StatusAt(turn: seq<Event>, k: nat, id: string, status: string)
    requires k < |turn|
  {
    About(turn, k, id) && turn[k].update.ToolUpdate? && StatusNow(turn[..k + 1], id) == status
  }

  /** The status was in force at an update of the id, or is at the end. */
  predicate Reached(turn: seq<Event>, id: string, status: string) {
    StatusNow(turn, id) == status || exists k :: 0 <= k < |turn| && StatusAt(turn, k, id, status)
  }

  /** The event brings input with something in it: the first word whatever holds keys,
      an update an object that does. */
  predicate InputCame(turn: seq<Event>, k: nat, id: string)
    requires k < |turn|
  {
    About(turn, k, id) && (turn[k].update.ToolUpdate? || FirstWord(turn, k, id))
    && match turn[k].update.input
       case Record(fields) => fields != map[]
       case Str(text) => text != "" && turn[k].update.ToolCall?
       case _ => false
  }

  lemma StatusOfStep(t: Track, e: Event, id: string)
    requires e.Apply? && Concerns(e.update, id)
    ensures var s := TrackUpdate(t, e.update);
            s.status == if t.Unseen? then e.update.status.GetOr("pending")
                        else if e.update.ToolUpdate? && e.update.status.Some? && e.update.status.value != ""
                        then e.update.status.value else t.status
  {}

  lemma {:induction false} StatusAgrees(turn: seq<Event>, id: string)
    requires OneTurn(turn)
    ensures StatusIn(turn, id) == StatusNow(turn, id)
  {
    if turn != [] {
      var before, e := turn[..|turn| - 1], turn[|turn| - 1];
      StatusAgrees(before, id);
      TurnTrack(before, id);
      assert forall j :: 0 <= j < |before| ==> (About(turn, j, id) <==> About(before, j, id));
      assert TrackOf(turn, id) == TrackStep(TrackOf(before, id), id, e);
      if e.Apply? && Concerns(e.update, id) { StatusOfStep(TrackOf(before, id), e, id); }
    }
  }

  /** Every id gets from a turn what its events call for: use and result if one of the
      statuses "completed", "failed" and "cancelled" was reached, the use alone if input
      came without any of them, and nothing otherwise. No other status gives a result. */
  function EventMarks(turn: seq<Event>, id: string): seq<Mark> {
    if Reached(turn, id, "completed") || Reached(turn, id, "failed") || Reached(turn, id, "cancelled")
    then [UseMark, ResultMark]
    else if exists k :: 0 <= k < |turn| && InputCame(turn, k, id) then [UseMark]
    else []
  }

  lemma TerminalStatuses(status: string)
    ensures Terminal(status) <==> status == "completed" || status == "failed" || status == "cancelled"
  {}

  lemma KeysMeanContent(input: RawInput)
    ensures KeyCount(input) > 0 <==> (input.Record? && input.fields != map[]) || (input.Str? && input.text != "")
  {
    if input.Record? && input.fields != map[] {
      var key :| key in input.fields;
      assert key in input.fields.Keys;
    }
  }

  lemma TerminalAtReached(turn: seq<Event>, id: string)
    requires OneTurn(turn)
    ensures WentTerminal(turn, id) || Terminal(StatusIn(turn, id))
       <==> Reached(turn, id, "completed") || Reached(turn, id, "failed") || Reached(turn, id, "cancelled")
  {
    hide TrackOf, StatusNow, StatusIn, Terminal;
    StatusAgrees(turn, id);
    TerminalStatuses(StatusIn(turn, id));
    forall k | 0 <= k < |turn|
      ensures TerminalAt(turn, k, id) <==>
              StatusAt(turn, k, id, "completed") || StatusAt(turn, k, id, "failed") || StatusAt(turn, k, id, "cancelled")
    {
      StatusAgrees(turn[..k + 1], id);
      TerminalStatuses(StatusIn(turn[..k + 1], id));
    }
  }

  lemma CarriedCame(turn: seq<Event>, id: string)
    ensures CarriedInput(turn, id) <==> exists k :: 0 <= k < |turn| && InputCame(turn, k, id)
  {
    hide KeyCount;
    forall k | 0 <= k < |turn| ensures InputAt(turn, k, id) <==> InputCame(turn, k, id) {
      if About(turn, k, id) { KeysMeanContent(turn[k].update.input); }
    }
  }

  lemma TurnMarksAreEventMarks(turn: seq<Event>, id: string)
    requires OneTurn(turn)
    ensures TurnMarks(turn, id) == EventMarks(turn, id)
  {
    TerminalAtReached(turn, id);
    CarriedCame(turn, id);
    hide Reached, StatusIn, Terminal, CarriedInput, WentTerminal;
  }

  /** By the end of `flushTurn` every id has exactly the entries that the events of the
      turn call for. */
  lemma TurnIsSettled(agent: string, start: int, past: seq<Event>, turn: seq<Event>, now: int, id: string)
    requires past == [] || EndsWithFlush(past)
    requires OneTurn(turn)
    ensures Marks(Run(Start(agent, start), past + turn + [Flush(now)]).entries, id)
         == Marks(Run(Start(agent, start), past).entries, id) + EventMarks(turn, id) + [EndMark]
  {
    hide Run, Start, Marks, MarksIn, TurnMarks, FinalMarks, MarksSoFar, EventMarks;
    TurnMarksAreEventMarks(turn, id);
    RunIsFaithful(agent, start, past);
    RunIsFaithful(agent, start, past + turn + [Flush(now)]);
    MarksWithinTurn(past, turn, id);
    ReadsEvent(past + turn, Flush(now), id);
    FlushCompletes(turn, id);
    var t := TrackOf(turn, id);
    Regroup(MarksIn(past, id), MarksSoFar(t), FinalMarks(t) + [EndMark]);
    Regroup(MarksSoFar(t), FinalMarks(t), [EndMark]);
    Regroup(MarksIn(past, id), TurnMarks(turn, id), [EndMark]);
  }

  /** Input that arrives only in a repeated `tool_call` is ignored: a turn with
      nothing else of that id ends without an entry for it. */
  lemma RepeatedToolCallIsIgnored(agent: string, start: int, now: int)
    ensures var silent := Apply(ToolCall("t", "read", "", None, Missing));
            var again := Apply(ToolCall("t", "read", "", None, Record(map["path" := "x"])));
            && BringsInput(again.update)
            && Marks(Run(Start(agent, start), [silent, again, Flush(now)]).entries, "t") == [EndMark]
  {
    var silent := Apply(ToolCall("t", "read", "", None, Missing));
    var again := Apply(ToolCall("t", "read", "", None, Record(map["path" := "x"])));
    var turn := [silent, again];
    RepeatedCallOwesNothing();
    TurnMarksAreEventMarks(turn, "t");
    hide TurnMarks, EventMarks;
    TurnIsSettled(agent, start, [], turn, now, "t");
    assert [] + turn + [Flush(now)] == [silent, again, Flush(now)];
    assert Marks(Run(Start(agent, start), []).entries, "t") == [];
  }

  lemma RepeatedCallOwesNothing()
    ensures var silent := Apply(ToolCall("t", "read", "", None, Missing));
            var again := Apply(ToolCall("t", "read", "", None, Record(map["path" := "x"])));
            BringsInput(again.update) && TurnMarks([silent, again], "t") == [] && OneTurn([silent, again])
  {
    var silent := Apply(ToolCall("t", "read", "", None, Missing));
    var again := Apply(ToolCall("t", "read", "", None, Record(map["path" := "x"])));
    var turn := [silent, again];
    assert turn[..1] == [silent] && turn[..0] == [];
    assert About(turn, 0, "t");
    assert !Accepted(turn, 1, "t");
    assert [silent][..0] == [];
    assert TrackOf([silent], "t") == TrackStep(Unseen, "t", silent);
    assert TrackOf(turn, "t") == TrackStep(TrackOf([silent], "t"), "t", again);
  }

  // ---------- what a committed entry says ----------

  predicate Carries(e: Entry, agent: string) {
    (e.ToolUse? ==> e.agent == agent) && (e.ToolResult? ==> e.agent == agent)
  }

  /** Everything sent from `m` to `r` is appended, and tagged with the agent of `m`. */
  predicate Appends(m: Machine, r: Machine) {
    && m.entries <= r.entries
    && r.st.agent == m.st.agent
    && (forall k :: |m.entries| <= k < |r.entries| ==> Carries(r.entries[k], m.st.agent))
  }

  lemma AppendsChain(a: Machine, b: Machine, c: Machine)
    requires Appends(a, b) && Appends(b, c)
    ensures Appends(a, c)
  {}

  lemma UseAppends(m: Machine, id: string)
    requires id in m.st.calls
    ensures Appends(m, CommitUseAfterRun(m, id)) && Appends(m, FlushActiveRun(m))
  {}

  lemma ResultAppends(m: Machine, id: string)
    requires id in m.st.calls
    ensures Appends(m, CommitToolResult(m, id))
  {}

  lemma FinishAppends(m: Machine, id: string)
    requires id in m.st.calls
    ensures Appends(m, Finish(m, id))
  {
    hide CommitUseAfterRun, CommitToolResult;
    var marked := MarkFailed(m, id);
    var b := if m.st.calls[id].useCommitted then marked else CommitUseAfterRun(marked, id);
    UseAppends(marked, id);
    ResultAppends(b, id);
    AppendsChain(marked, b, CommitToolResult(b, id));
  }

  lemma UpdateAppends(m: Machine, u: Update)
    ensures Appends(m, ApplyUpdate(m, u))
  {
    match u {
      case Chunk(_, _) =>
      case Other =>
      case ToolCall(id, _, _, _, _) =>
        if id != "" && id !in m.st.calls {
          UseAppends(Announced(m, u), id);
          FlushRunTracks(Announced(m, u), id);
        }
      case ToolUpdate(id, _, _, _, _, _, _) =>
        if id != "" {
          hide CommitUseAfterRun, Finish;
          UseAppends(Received(m, u), id);
          FinishAppends(Midway(m, u), id);
          AppendsChain(m, Midway(m, u), Finish(Midway(m, u), id));
        }
    }
  }

  lemma FlushToolAppends(m: Machine, id: string)
    requires id in m.st.calls
    ensures Appends(m, FlushTool(m, id))
  {
    hide CommitUseAfterRun, CommitToolResult;
    FlushToolSplits(m, id);
    UseAppends(m, id);
    ResultAppends(FlushToolUse(m, id), id);
  }

  lemma {:induction false} FlushToolsAppends(m: Machine, ids: seq<string>)
    ensures Appends(m, FlushTools(m, ids))
  {
    if ids != [] {
      hide FlushTool;
      var before := FlushTools(m, ids[..|ids| - 1]);
      FlushToolsAppends(m, ids[..|ids| - 1]);
      if ids[|ids| - 1] in before.st.calls { FlushToolAppends(before, ids[|ids| - 1]); }
    }
  }

  /** The agent in force: the configured one until a turn ends, the default after,
      because the state is reset without it. */
  function AgentIn(agent: string, trace: seq<Event>): string {
    if exists k :: 0 <= k < |trace| && trace[k].Flush? then DEFAULT_AGENT else agent
  }

  /** Sent entries stay where they are, and the tool entries an event produces carry
      the configured agent exactly when no turn has ended before it, or the
      configured agent is the default one. */
  lemma EntriesAreAppendedAndTagged(agent: string, start: int, before: seq<Event>, e: Event)
    ensures var m := Run(Start(agent, start), before);
            var r := Run(Start(agent, start), before + [e]);
            && m.entries <= r.entries
            && (forall k :: |m.entries| <= k < |r.entries| ==> Carries(r.entries[k], AgentIn(agent, before)))
    ensures AgentIn(agent, before) == agent <==> OneTurn(before) || agent == DEFAULT_AGENT
  {
    assert (before + [e])[..|before|] == before;
    hide Run, Start, ApplyUpdate, FlushTools;
    RunAgent(agent, start, before);
    RunSnoc(Start(agent, start), before, e);
    var m := Run(Start(agent, start), before);
    match e
    case Apply(u) => UpdateAppends(m, u);
    case ReportUsage(_) =>
    case Flush(now) => FlushToolsAppends(m, m.st.order);
  }

  lemma {:induction false} RunAgent(agent: string, start: int, trace: seq<Event>)
    ensures Run(Start(agent, start), trace).st.agent == AgentIn(agent, trace)
  {
    if trace != [] {
      hide ApplyUpdate, FlushTools;
      var before, e := trace[..|trace| - 1], trace[|trace| - 1];
      RunAgent(agent, start, before);
      assert forall k :: 0 <= k < |before| ==> trace[k] == before[k];
      var m := Run(Start(agent, start), before);
      if e.Apply? { UpdateAppends(m, e.update); }
    }
  }

  /** The name in the transcript is the one resolved from the update that commits
      the use, not the one seen first: the earlier name survives exactly when the
      committing update resolves to it again. */
  lemma NameIsTakenFromTheCommittingUpdate(agent: string, start: int, before: seq<Event>, u: Update)
    requires u.ToolUpdate? && IsTool(Apply(u))
    requires !Used(TrackOf(before, u.id)) && Used(TrackOf(before + [Apply(u)], u.id))
    ensures TrackOf(before + [Apply(u)], u.id).name == ResolveToolName(u.title, u.category)
    ensures var m, r := Run(Start(agent, start), before), Run(Start(agent, start), before + [Apply(u)]);
            exists k :: |m.entries| <= k < |r.entries| && r.entries[k].ToolUse? && r.entries[k].id == u.id
                        && r.entries[k].name == ResolveToolName(u.title, u.category)
  {
    RunIsFaithful(agent, start, before);
    var m := Run(Start(agent, start), before);
    RunSnoc(Start(agent, start), before, Apply(u));
    ReadsEvent(before, Apply(u), u.id);
    hide Run, Start, Faithful, TrackOf;
    UpdateCommitsName(m, u);
  }

  /** Among the entries from `from` on there is a use of `id` under this name. */
  predicate SaysName(m: Machine, from: nat, id: string, name: string) {
    exists k :: from <= k < |m.entries| && m.entries[k].ToolUse? && m.entries[k].id == id && m.entries[k].name == name
  }

  lemma UseSaysName(m: Machine, id: string)
    requires id in m.st.calls && !m.st.calls[id].useCommitted
    ensures SaysName(CommitUseAfterRun(m, id), |m.entries|, id, m.st.calls[id].name)
  {
    var r := CommitUseAfterRun(m, id);
    var last := r.entries[|r.entries| - 1];
    assert last.ToolUse? && last.id == id;
  }

  lemma SaysNameStays(m: Machine, r: Machine, from: nat, id: string, name: string)
    requires SaysName(m, from, id, name) && m.entries <= r.entries
    ensures SaysName(r, from, id, name)
  {
    var k :| from <= k < |m.entries| && m.entries[k].ToolUse? && m.entries[k].id == id && m.entries[k].name == name;
    assert r.entries[k] == m.entries[k];
  }

  lemma ReceivedEntries(m: Machine, u: Update)
    requires u.ToolUpdate?
    ensures Received(m, u).entries == m.entries
  {}

  lemma UpdateCommitsName(m: Machine, u: Update)
    requires u.ToolUpdate? && u.id != ""
    requires !Used(CallTrack(m.st, u.id)) && Used(TrackUpdate(CallTrack(m.st, u.id), u))
    ensures SaysName(HandleToolUpdate(m, u), |m.entries|, u.id, ResolveToolName(u.title, u.category))
  {
    hide CommitUseAfterRun, CommitToolResult, SaysName;
    var name := ResolveToolName(u.title, u.category);
    var a, b := Received(m, u), Midway(m, u);
    ReceivedEntries(m, u);
    assert a.st.calls[u.id].name == name && !a.st.calls[u.id].useCommitted;
    UseSaysName(a, u.id);
    MidwayTracks(m, u, u.id);
    if Terminal(b.st.calls[u.id].status) {
      if b.st.calls[u.id].useCommitted {
        FinishAppends(b, u.id);
        SaysNameStays(b, Finish(b, u.id), |m.entries|, u.id, name);
      } else {
        var marked := MarkFailed(b, u.id);
        UseSaysName(marked, u.id);
        var c := CommitUseAfterRun(marked, u.id);
        ResultAppends(c, u.id);
        SaysNameStays(c, CommitToolResult(c, u.id), |m.entries|, u.id, name);
      }
    }
  }

  // ---------- differences, at concrete inputs ----------

  predicate Idle(s: State) {
    OpenRun(s) && s.pending == [] && s.order == [] && s.calls == map[]
  }

  lemma StartIsIdle(agent: string, start: int)
    ensures Idle(Start(agent, start).st)
  {}

  /** The first call of an idle translator. */
  lemma FirstCall(m: Machine, u: Update)
    requires Idle(m.st) && u.ToolCall? && u.id != ""
    ensures var r := ApplyUpdate(m, u);
            var input := InitialInput(u.input);
            var name := ResolveToolName(u.title, u.category);
            && OpenRun(r.st) && r.st.pending == [] && r.st.order == [u.id] && r.st.agent == m.st.agent
            && u.id in r.st.calls && r.st.calls[u.id].input == input && r.st.calls[u.id].status == u.status.GetOr("pending")
            && r.st.calls[u.id].useCommitted == (KeyCount(input) > 0) && !r.st.calls[u.id].resultCommitted
            && r.entries == m.entries + if KeyCount(input) > 0
                                        then [ToolUse(m.st.nextUuid, u.id, name, input, m.st.agent)] else []
  {}

  lemma FlushOfUsedCall(m: Machine, id: string, now: int)
    requires OpenRun(m.st) && m.st.pending == [] && m.st.order == [id] && id in m.st.calls
    requires m.st.calls[id].useCommitted && !Terminal(m.st.calls[id].status)
    ensures var r := FlushTurn(m, now);
            Idle(r.st) && r.st.agent == DEFAULT_AGENT && |r.entries| == |m.entries| + 1 && m.entries <= r.entries
  {
    assert [id][..0] == [];
    assert FlushTools(m, []) == m;
    assert FlushTools(m, [id]) == FlushTool(m, id) == m;
  }

  /** The agent tag is lost: a tool of the first turn carries the configured agent,
      the same tool in the second turn the default one. */
  lemma AgentTagIsLost(start: int, now: int)
    ensures var call := Apply(ToolCall("t", "read", "", None, Record(map["path" := "x"])));
            var entries := Run(Start("codex", start), [call, Flush(now), call]).entries;
            && |entries| == 3 && entries[0].ToolUse? && entries[2].ToolUse?
            && entries[0].agent == "codex" && entries[2].agent == "acp"
  {
    var call := Apply(ToolCall("t", "read", "", None, Record(map["path" := "x"])));
    var m0 := Start("codex", start);
    var m1, m2 := Run(m0, [call]), Run(m0, [call, Flush(now)]);
    ThreeSteps(m0, call, Flush(now), call);
    hide Run, ApplyUpdate, FlushTurn;
    StartIsIdle("codex", start);
    assert "path" in map["path" := "x"] && |map["path" := "x"]| > 0;
    FirstCall(m0, call.update);
    FlushOfUsedCall(m1, "t", now);
    FirstCall(m2, call.update);
  }

  lemma ThreeSteps(m: Machine, a: Event, b: Event, c: Event)
    ensures Run(m, [a]) == Step(m, a) && Run(m, [a, b]) == Step(Run(m, [a]), b)
    ensures Run(m, [a, b, c]) == Step(Run(m, [a, b]), c)
  {
    hide Step;
    assert [a][..0] == [] && [a, b][..1] == [a] && [a, b, c][..2] == [a, b];
  }

  /** The update that brings the input of the one open call. */
  lemma InputArrives(m: Machine, u: Update)
    requires OpenRun(m.st) && m.st.pending == [] && u.ToolUpdate? && u.id != "" && u.id in m.st.calls
    requires !m.st.calls[u.id].useCommitted && !Terminal(m.st.calls[u.id].status)
    requires u.input.Record? && KeyCount(u.input) > 0 && u.status.None?
    ensures var r := ApplyUpdate(m, u);
            r.entries == m.entries + [ToolUse(m.st.calls[u.id].useUuid, u.id, ResolveToolName(u.title, u.category), u.input, m.st.agent)]
  {
    var a := Received(m, u);
    assert FlushActiveRun(a).entries == m.entries;
  }

  /** A title names the tool when it is not empty and holds no slash, dot or space;
      otherwise the category does, and without one the tool is just a `tool`. */
  lemma ToolNamesExactly(title: string, category: string)
    ensures var names := title != "" && forall k :: 0 <= k < |title| ==> title[k] != '/' && title[k] != '.' && title[k] != ' ';
            ResolveToolName(title, category) == if names then title else if category != "" then category else "tool"
  {
    if '/' in title || '.' in title || ' ' in title {
      var k :| 0 <= k < |title| && (title[k] == '/' || title[k] == '.' || title[k] == ' ');
    }
  }

  lemma NamesOfTitles()
    ensures ResolveToolName("read", "") == "read" && ResolveToolName("src/a.ts", "") == "tool"
  {
    assert LooksLikeToolName("read");
    assert "src/a.ts"[3] == '/';
    assert !LooksLikeToolName("src/a.ts");
  }

  /** The name at first sight does not last: a call announced as `read` is committed
      under the generic name, because the update that brings its input has a title
      that looks like a description and no category. */
  lemma AnnouncedNameIsReplaced(agent: string, start: int)
    ensures var input := Record(map["path" := "src/a.ts"]);
            var call := Apply(ToolCall("t", "read", "", None, Missing));
            var update := Apply(ToolUpdate("t", "src/a.ts", "", None, input, None, None));
            var entries := Run(Start(agent, start), [call, update]).entries;
            && ResolveToolName(call.update.title, call.update.category) == "read"
            && |entries| == 1 && entries[0].ToolUse? && entries[0].id == "t" && entries[0].name == "tool"
  {
    var input := Record(map["path" := "src/a.ts"]);
    var call := Apply(ToolCall("t", "read", "", None, Missing));
    var update := Apply(ToolUpdate("t", "src/a.ts", "", None, input, None, None));
    hide Run, ApplyUpdate, ResolveToolName;
    NamesOfTitles();
    var m0 := Start(agent, start);
    ThreeSteps(m0, call, update, update);
    StartIsIdle(agent, start);
    assert "path" in input.fields && |input.fields| > 0;
    FirstCall(m0, call.update);
    InputArrives(Run(m0, [call]), update.update);
  }
}
