/**
 * Turn analytics: hook events accumulate per conversation, a stop makes them a
 * turn, and turns wait in a batch queue until they are written.
 */
module Analytics {
  import opened Wrappers

  // ---------- retries ----------

  predicate IsEdit(tool: string) {
    tool in ["Edit", "MultiEdit", "Write", "NotebookEdit"]
  }

  predicate IsBash(tool: string) {
    tool == "Bash"
  }

  /** The tools that edit files, by name. */
  predicate Edits(tool: string) {
    tool == "Edit" || tool == "MultiEdit" || tool == "Write" || tool == "NotebookEdit"
  }

  lemma ToolsByName()
    ensures forall t :: (IsEdit(t) <==> Edits(t)) && (IsBash(t) <==> t == "Bash")
  {}

  /** An edit whose previous edit is at `i`, with a Bash between the two. */
  ghost predicate RetryPair(tools: seq<string>, i: nat, j: nat) {
    && i < j < |tools| && Edits(tools[i]) && Edits(tools[j])
    && (forall k :: i < k < j ==> !Edits(tools[k]))
    && (exists k :: i < k < j && tools[k] == "Bash")
  }

  ghost predicate RetriesAt(tools: seq<string>, j: nat) {
    exists i: nat :: RetryPair(tools, i, j)
  }

  /** The edits that retry the edit before them. */
  ghost function Retries(tools: seq<string>): set<nat> {
    set j: nat | j < |tools| && RetriesAt(tools, j)
  }

  ghost predicate EditSeen(tools: seq<string>) {
    exists i :: 0 <= i < |tools| && IsEdit(tools[i])
  }

  /** The last edit has been followed by a Bash. */
  ghost predicate BashSinceEdit(tools: seq<string>) {
    exists i, k :: 0 <= i < k < |tools| && IsEdit(tools[i]) && IsBash(tools[k])
                   && forall m :: i < m < |tools| ==> !IsEdit(tools[m])
  }

  lemma EditSeenSnoc(tools: seq<string>, tool: string)
    ensures EditSeen(tools + [tool]) <==> EditSeen(tools) || IsEdit(tool)
  {
    hide IsEdit;
    var more := tools + [tool];
    assert more[|tools|] == tool;
    if EditSeen(tools) {
      var i :| 0 <= i < |tools| && IsEdit(tools[i]);
      assert IsEdit(more[i]);
    }
  }

  lemma {:induction false} LastEdit(tools: seq<string>) returns (i: nat)
    requires EditSeen(tools)
    ensures i < |tools| && IsEdit(tools[i]) && forall m :: i < m < |tools| ==> !IsEdit(tools[m])
  {
    hide IsEdit;
    i := |tools| - 1;
    if !IsEdit(tools[i]) {
      var before := tools[..i];
      var w :| 0 <= w < |tools| && IsEdit(tools[w]);
      assert IsEdit(before[w]);
      i := LastEdit(before);
    }
  }

  lemma BashSinceEditGrows(tools: seq<string>, tool: string)
    requires !IsEdit(tool) && (BashSinceEdit(tools) || (IsBash(tool) && EditSeen(tools)))
    ensures BashSinceEdit(tools + [tool])
  {
    hide IsEdit, IsBash;
    var more, n := tools + [tool], |tools|;
    assert more[n] == tool;
    assert forall k :: 0 <= k < n ==> more[k] == tools[k];
    if BashSinceEdit(tools) {
      var i, k :| 0 <= i < k < n && IsEdit(tools[i]) && IsBash(tools[k]) && forall m :: i < m < n ==> !IsEdit(tools[m]);
      assert IsEdit(more[i]) && IsBash(more[k]);
    } else {
      var i := LastEdit(tools);
      assert IsEdit(more[i]) && IsBash(more[n]);
    }
  }

  lemma BashSinceEditSnoc(tools: seq<string>, tool: string)
    ensures BashSinceEdit(tools + [tool])
       <==> !IsEdit(tool) && (BashSinceEdit(tools) || (IsBash(tool) && EditSeen(tools)))
  {
    hide IsEdit, IsBash;
    var more, n := tools + [tool], |tools|;
    assert more[n] == tool;
    if !IsEdit(tool) && (BashSinceEdit(tools) || (IsBash(tool) && EditSeen(tools))) {
      BashSinceEditGrows(tools, tool);
    }
    if BashSinceEdit(more) {
      var i, k :| 0 <= i < k < |more| && IsEdit(more[i]) && IsBash(more[k]) && forall m :: i < m < |more| ==> !IsEdit(more[m]);
      assert forall k :: 0 <= k < n ==> more[k] == tools[k];
      assert IsEdit(tools[i]);
      if k < n { assert IsBash(tools[k]); }
    }
  }

  lemma RetrySnoc(tools: seq<string>, tool: string)
    ensures RetriesAt(tools + [tool], |tools|) <==> IsEdit(tool) && BashSinceEdit(tools)
  {
    hide IsEdit, IsBash, Edits;
    ToolsByName();
    var more, n := tools + [tool], |tools|;
    assert more[n] == tool;
    assert forall k :: 0 <= k < n ==> more[k] == tools[k];
    if IsEdit(tool) && BashSinceEdit(tools) {
      var i, k :| 0 <= i < k < n && IsEdit(tools[i]) && IsBash(tools[k]) && forall m :: i < m < n ==> !IsEdit(tools[m]);
      assert IsBash(more[k]);
      assert RetryPair(more, i, n);
    }
    if i: nat :| RetryPair(more, i, n) {
      var k :| i < k < n && IsBash(more[k]);
      assert IsEdit(tools[i]) && IsBash(tools[k]);
    }
  }

  lemma EarlierRetriesStay(tools: seq<string>, tool: string, j: nat)
    requires j < |tools|
    ensures RetriesAt(tools + [tool], j) <==> RetriesAt(tools, j)
  {
    hide Edits;
    var more := tools + [tool];
    forall i: nat ensures RetryPair(more, i, j) <==> RetryPair(tools, i, j) {
      assert forall k :: 0 <= k < |tools| ==> more[k] == tools[k];
    }
  }

  lemma RetriesSnoc(tools: seq<string>, tool: string)
    ensures |Retries(tools + [tool])| == |Retries(tools)| + if IsEdit(tool) && BashSinceEdit(tools) then 1 else 0
  {
    hide IsEdit, IsBash, RetriesAt, BashSinceEdit;
    RetrySnoc(tools, tool);
    forall j: nat | j < |tools| ensures j in Retries(tools + [tool]) <==> j in Retries(tools) {
      EarlierRetriesStay(tools, tool, j);
    }
    assert Retries(tools + [tool])
        == Retries(tools) + if IsEdit(tool) && BashSinceEdit(tools) then {|tools|} else {};
  }

  /** One pass with two flags counts the edits that retry the edit before them. */
  method CountRetries(tools: seq<string>) returns (retries: nat)
    ensures retries == |Retries(tools)|
  {
    hide IsEdit, IsBash, Retries, EditSeen, BashSinceEdit;
    NothingSeen();
    retries := 0;
    var sawEditBeforeBash, sawBashAfterEdit := false, false;
    assert tools[..0] == [];
    for n := 0 to |tools|
      invariant retries == |Retries(tools[..n])|
      invariant sawEditBeforeBash == EditSeen(tools[..n]) && sawBashAfterEdit == BashSinceEdit(tools[..n])
    {
      var tool := tools[n];
      RetriesSnoc(tools[..n], tool);
      EditSeenSnoc(tools[..n], tool);
      BashSinceEditSnoc(tools[..n], tool);
      EditIsNotBash(tool);
      assert tools[..n + 1] == tools[..n] + [tool];
      if IsEdit(tool) {
        if sawBashAfterEdit { retries := retries + 1; }
        sawEditBeforeBash := true;
        sawBashAfterEdit := false;
      }
      if IsBash(tool) && sawEditBeforeBash {
        sawBashAfterEdit := true;
      }
    }
    assert tools[..|tools|] == tools;
  }

  lemma NothingSeen()
    ensures Retries([]) == {} && !EditSeen([]) && !BashSinceEdit([])
  {
  }

  lemma EditIsNotBash(tool: string)
    ensures !(IsEdit(tool) && IsBash(tool))
  {
  }

  // ---------- one conversation ----------

  datatype ToolUse = ToolUse(toolName: string, success: bool)

  datatype Acc = Acc(tools: seq<ToolUse>, promptSnippet: string)

  datatype Turn = Turn(conversation: string, tools: seq<string>, retryCount: nat, oneShot: bool, hadError: bool,
                       promptSnippet: string)

  /** `Prompt` carries the snippet that is kept of it, and `Stop` whether the lookup of
      the project succeeds: it throws on a malformed URI, and the turn is lost. */
  datatype Hook =
    | Prompt(snippet: string)
    | PreTool(tool: string)
    | ToolFailed(tool: string)
    | Stop(failed: bool, found: bool)
    | Other

  function Names(tools: seq<ToolUse>): (names: seq<string>)
    ensures |names| == |tools| && forall k :: 0 <= k < |tools| ==> names[k] == tools[k].toolName
  {
    seq(|tools|, k requires 0 <= k < |tools| => tools[k].toolName)
  }

  /** The last successful use of a tool, marked failed. */
  function MarkLastFailed(tools: seq<ToolUse>, tool: string): seq<ToolUse> {
    if tools == [] then []
    else
      var n := |tools| - 1;
      if tools[n] == ToolUse(tool, true) then tools[n := ToolUse(tool, false)]
      else MarkLastFailed(tools[..n], tool) + [tools[n]]
  }

  /** The use at `i` is the last one of that tool not marked yet. */
  predicate LastSuccess(tools: seq<ToolUse>, tool: string, i: nat) {
    && i < |tools| && tools[i].toolName == tool && tools[i].success
    && forall k :: i < k < |tools| ==> tools[k].toolName != tool || !tools[k].success
  }

  /** A failure marks the last successful use of its tool and leaves every other; with
      no such use it marks nothing. */
  lemma {:induction false} MarksTheLast(tools: seq<ToolUse>, tool: string)
    ensures forall i: nat :: LastSuccess(tools, tool, i) ==> MarkLastFailed(tools, tool) == tools[i := ToolUse(tool, false)]
    ensures (forall i: nat :: !LastSuccess(tools, tool, i)) ==> MarkLastFailed(tools, tool) == tools
  {
    if tools != [] {
      var n := |tools| - 1;
      var before := tools[..n];
      MarksTheLast(before, tool);
      assert tools == before + [tools[n]];
      forall i: nat | i < n && tools[n] != ToolUse(tool, true)
        ensures LastSuccess(tools, tool, i) <==> LastSuccess(before, tool, i)
      {
        LastSuccessSnoc(before, tools[n], tool, i);
      }
      if tools[n] == ToolUse(tool, true) {
        assert LastSuccess(tools, tool, n);
        assert forall i: nat :: LastSuccess(tools, tool, i) ==> i == n;
      } else {
        assert !LastSuccess(tools, tool, n);
        forall i: nat | LastSuccess(tools, tool, i) ensures MarkLastFailed(tools, tool) == tools[i := ToolUse(tool, false)] {
          assert i < n && LastSuccess(before, tool, i);
          assert before[i := ToolUse(tool, false)] + [tools[n]] == tools[i := ToolUse(tool, false)];
        }
        if i: nat :| LastSuccess(before, tool, i) { assert LastSuccess(tools, tool, i); }
      }
    }
  }

  lemma LastSuccessSnoc(before: seq<ToolUse>, u: ToolUse, tool: string, i: nat)
    requires i < |before| && u != ToolUse(tool, true)
    ensures LastSuccess(before + [u], tool, i) <==> LastSuccess(before, tool, i)
  {
    var tools := before + [u];
    assert forall k :: 0 <= k < |before| ==> tools[k] == before[k];
    assert tools[|before|] == u;
  }

  lemma {:induction false} MarkingKeepsNames(tools: seq<ToolUse>, tool: string)
    ensures Names(MarkLastFailed(tools, tool)) == Names(tools)
  {
    if tools != [] {
      var n := |tools| - 1;
      MarkingKeepsNames(tools[..n], tool);
      assert Names(tools) == Names(tools[..n]) + [tools[n].toolName];
    }
  }

  /** What a hook event leaves in the accumulator of its conversation. */
  function AccAfter(acc: Option<Acc>, h: Hook): Option<Acc> {
    match h
    case Prompt(snippet) => Some(Acc([], snippet))
    case PreTool(tool) => if acc.None? then None else Some(acc.value.(tools := acc.value.tools + [ToolUse(tool, true)]))
    case ToolFailed(tool) => if acc.None? then None else Some(acc.value.(tools := MarkLastFailed(acc.value.tools, tool)))
    case Stop(_, _) => None
    case Other => acc
  }

  /** The turn that a stop makes of the accumulator, if it holds anything and the
      project is found. */
  ghost function TurnOf(conversation: string, acc: Option<Acc>, h: Hook): Option<Turn> {
    if !h.Stop? || !h.found || acc.None? || (acc.value.tools == [] && acc.value.promptSnippet == "") then None
    else
      var names := Names(acc.value.tools);
      var retries := |Retries(names)|;
      Some(Turn(conversation, names, retries, (exists t :: t in names && IsEdit(t)) && retries == 0 && !h.failed,
                h.failed, acc.value.promptSnippet))
  }

  /** What a conversation sees: its hooks, and its being cleared. */
  datatype Own = Hooked(h: Hook) | Cleared

  function OwnAcc(events: seq<Own>): Option<Acc> {
    if events == [] then None
    else
      match events[|events| - 1]
      case Hooked(h) => AccAfter(OwnAcc(events[..|events| - 1]), h)
      case Cleared => None
  }

  /** The turns of a conversation, from its own events alone. */
  ghost function OwnTurns(conversation: string, events: seq<Own>): seq<Turn> {
    if events == [] then []
    else
      var before, e := events[..|events| - 1], events[|events| - 1];
      OwnTurns(conversation, before)
      + if e.Hooked? then Listed(TurnOf(conversation, OwnAcc(before), e.h)) else []
  }

  function Listed<T>(x: Option<T>): seq<T> {
    if x.Some? then [x.value] else []
  }

  /** The tools used, in order. */
  function ToolsUsed(events: seq<Own>): seq<string> {
    if events == [] then []
    else
      var e := events[|events| - 1];
      ToolsUsed(events[..|events| - 1]) + if e.Hooked? && e.h.PreTool? then [e.h.tool] else []
  }

  /** The prompt that opened the turn still running is at `p`. */
  predicate OpenedAt(events: seq<Own>, p: nat) {
    && p < |events| && events[p].Hooked? && events[p].h.Prompt?
    && forall k :: p < k < |events| ==> events[k].Hooked? && !events[k].h.Prompt? && !events[k].h.Stop?
  }

  lemma OpenedSnoc(events: seq<Own>, e: Own, p: nat)
    ensures OpenedAt(events + [e], p)
       <==> (p == |events| && e.Hooked? && e.h.Prompt?)
            || (OpenedAt(events, p) && e.Hooked? && !e.h.Prompt? && !e.h.Stop?)
  {
    var more := events + [e];
    assert more[|events|] == e;
    assert forall k :: 0 <= k < |events| ==> more[k] == events[k];
  }

  /** The accumulator holds exactly the running turn: the prompt that opened it and
      the tools used since, whatever was marked failed meanwhile. */
  lemma {:induction false} AccumulatorHoldsRunningTurn(events: seq<Own>, p: nat)
    ensures OpenedAt(events, p) ==>
              OwnAcc(events).Some? && OwnAcc(events).value.promptSnippet == events[p].h.snippet
              && Names(OwnAcc(events).value.tools) == ToolsUsed(events[p + 1..])
    ensures OwnAcc(events).Some? <==> exists q: nat :: OpenedAt(events, q)
  {
    if events != [] {
      var before, e := events[..|events| - 1], events[|events| - 1];
      assert events == before + [e];
      AccumulatorHoldsRunningTurn(before, p);
      OpenedSnoc(before, e, p);
      forall q: nat { OpenedSnoc(before, e, q); }
      if OpenedAt(before, p) && OpenedAt(events, p) { RunningTurnGrows(before, e, p); }
      if e.Hooked? && e.h.Prompt? { assert OpenedAt(events, |before|); }
      if q: nat :| OpenedAt(before, q) {
        if e.Hooked? && !e.h.Prompt? && !e.h.Stop? { assert OpenedAt(events, q); }
      }
    }
  }

  lemma RunningTurnGrows(before: seq<Own>, e: Own, p: nat)
    requires OpenedAt(before, p) && e.Hooked? && !e.h.Prompt? && !e.h.Stop?
    requires OwnAcc(before).Some? && Names(OwnAcc(before).value.tools) == ToolsUsed(before[p + 1..])
    ensures var r := AccAfter(OwnAcc(before), e.h);
            r.Some? && r.value.promptSnippet == OwnAcc(before).value.promptSnippet
            && Names(r.value.tools) == ToolsUsed((before + [e])[p + 1..])
  {
    hide OwnAcc, MarkLastFailed;
    var tools := OwnAcc(before).value.tools;
    assert (before + [e])[p + 1..] == before[p + 1..] + [e];
    assert (before[p + 1..] + [e])[..|before[p + 1..]|] == before[p + 1..];
    if e.h.ToolFailed? { MarkingKeepsNames(tools, e.h.tool); }
    if e.h.PreTool? { assert Names(tools + [ToolUse(e.h.tool, true)]) == Names(tools) + [e.h.tool]; }
  }

  // ---------- all conversations, and the queue ----------

  const FLUSH_BATCH_SIZE := 50

  /** A flushed batch, and whether its transaction went through. */
  datatype Batch = Batch(turns: seq<Turn>, written: bool)

  datatype Store = Store(accs: map<string, Acc>, queue: seq<Turn>, batches: seq<Batch>, enqueued: seq<Turn>)

  const EMPTY := Store(map[], [], [], [])

  /** A failed transaction drops its batch. */
  function Flush(s: Store, ok: bool): Store {
    if s.queue == [] then s else s.(queue := [], batches := s.batches + [Batch(s.queue, ok)])
  }

  function Enqueue(s: Store, turn: Turn, ok: bool): Store {
    var r := s.(queue := s.queue + [turn], enqueued := s.enqueued + [turn]);
    if |r.queue| >= FLUSH_BATCH_SIZE then Flush(r, ok) else r
  }

  function AccOf(accs: map<string, Acc>, c: string): Option<Acc> {
    if c in accs then Some(accs[c]) else None
  }

  function WithAcc(accs: map<string, Acc>, c: string, acc: Option<Acc>): map<string, Acc> {
    if acc.Some? then accs[c := acc.value] else accs - {c}
  }

  /** `ok` is what a transaction would come to, should this event flush. */
  datatype Event = HookEvent(conversation: string, h: Hook, ok: bool) | Clear(conversation: string) | FlushTick(ok: bool)

  ghost function Record(s: Store, c: string, h: Hook, ok: bool): Store {
    var acc := AccOf(s.accs, c);
    var kept := s.(accs := WithAcc(s.accs, c, AccAfter(acc, h)));
    var turn := TurnOf(c, acc, h);
    if turn.Some? then Enqueue(kept, turn.value, ok) else kept
  }

  ghost function Step(s: Store, e: Event): Store {
    match e
    case HookEvent(c, h, ok) => Record(s, c, h, ok)
    case Clear(c) => s.(accs := s.accs - {c})
    case FlushTick(ok) => Flush(s, ok)
  }

  ghost function Run(trace: seq<Event>): Store {
    if trace == [] then EMPTY else Step(Run(trace[..|trace| - 1]), trace[|trace| - 1])
  }

  /** The events that concern a conversation. */
  function OwnEvents(trace: seq<Event>, c: string): seq<Own> {
    if trace == [] then []
    else
      OwnEvents(trace[..|trace| - 1], c)
      + match trace[|trace| - 1]
        case HookEvent(d, h, _) => if c == d then [Hooked(h)] else []
        case Clear(d) => if c == d then [Cleared] else []
        case FlushTick(_) => []
  }

  /** The turns of one conversation among all. */
  function Of(turns: seq<Turn>, c: string): seq<Turn> {
    if turns == [] then []
    else
      var t := turns[|turns| - 1];
      Of(turns[..|turns| - 1], c) + if t.conversation == c then [t] else []
  }

  lemma OfSnoc(turns: seq<Turn>, t: Turn, c: string)
    ensures Of(turns + [t], c) == Of(turns, c) + if t.conversation == c then [t] else []
  {
    assert (turns + [t])[..|turns|] == turns;
  }

  lemma OwnSnoc(c: string, events: seq<Own>, e: Own)
    ensures OwnAcc(events + [e]) == if e.Hooked? then AccAfter(OwnAcc(events), e.h) else None
    ensures OwnTurns(c, events + [e])
         == OwnTurns(c, events) + if e.Hooked? then Listed(TurnOf(c, OwnAcc(events), e.h)) else []
  {
    assert (events + [e])[..|events|] == events;
  }

  /** A stop makes one turn of the prompt that opened it and the tools used since,
      unless there was neither or the project cannot be looked up; without an open
      prompt it makes none. */
  lemma StopMakesTheTurn(c: string, events: seq<Own>, p: nat, failed: bool, found: bool)
    ensures OpenedAt(events, p) ==>
              var tools, snippet := ToolsUsed(events[p + 1..]), events[p].h.snippet;
              OwnTurns(c, events + [Hooked(Stop(failed, found))])
              == OwnTurns(c, events)
                 + if !found || (tools == [] && snippet == "") then []
                   else [Turn(c, tools, |Retries(tools)|,
                              (exists t :: t in tools && Edits(t)) && Retries(tools) == {} && !failed, failed, snippet)]
    ensures (forall q: nat :: !OpenedAt(events, q)) ==>
              OwnTurns(c, events + [Hooked(Stop(failed, found))]) == OwnTurns(c, events)
  {
    hide OwnAcc, OwnTurns, ToolsUsed, OpenedAt, Retries, IsEdit, Edits;
    ToolsByName();
    OwnSnoc(c, events, Hooked(Stop(failed, found)));
    AccumulatorHoldsRunningTurn(events, p);
    assert OwnTurns(c, events) + [] == OwnTurns(c, events);
  }

  /** A turn whose project cannot be looked up is lost: the accumulator is gone before
      the lookup throws, and a second stop finds nothing. */
  lemma FailedLookupLosesTheTurn(c: string, tool: string, failed: bool)
    ensures var events := [Hooked(Prompt("p")), Hooked(PreTool(tool)), Hooked(Stop(failed, false)), Hooked(Stop(failed, true))];
            OwnTurns(c, events) == []
  {
    var e0, e1 := Hooked(Prompt("p")), Hooked(PreTool(tool));
    var e2, e3 := Hooked(Stop(failed, false)), Hooked(Stop(failed, true));
    assert [e0, e1, e2, e3] == [] + [e0] + [e1] + [e2] + [e3];
    hide OwnTurns, OwnAcc;
    NothingYet(c);
    OwnSnoc(c, [], e0);
    OwnSnoc(c, [] + [e0], e1);
    OwnSnoc(c, [] + [e0] + [e1], e2);
    OwnSnoc(c, [] + [e0] + [e1] + [e2], e3);
  }

  /** A conversation is served by its own events alone. */
  ghost predicate Follows(s: Store, c: string, own: seq<Own>) {
    AccOf(s.accs, c) == OwnAcc(own) && Of(s.enqueued, c) == OwnTurns(c, own)
  }

  lemma RecordFollows(s: Store, c: string, h: Hook, ok: bool, own: seq<Own>)
    requires Follows(s, c, own)
    ensures Follows(Record(s, c, h, ok), c, own + [Hooked(h)])
  {
    hide OwnAcc, OwnTurns, Of, AccAfter, TurnOf;
    OwnSnoc(c, own, Hooked(h));
    var turn := TurnOf(c, AccOf(s.accs, c), h);
    if turn.Some? {
      OfSnoc(s.enqueued, turn.value, c);
      TurnIsOwn(c, AccOf(s.accs, c), h);
    } else {
      assert OwnTurns(c, own) + [] == OwnTurns(c, own);
    }
  }

  lemma TurnIsOwn(c: string, acc: Option<Acc>, h: Hook)
    requires TurnOf(c, acc, h).Some?
    ensures TurnOf(c, acc, h).value.conversation == c
  {
  }

  lemma RecordLeavesOthers(s: Store, c: string, h: Hook, ok: bool, other: string)
    requires other != c
    ensures AccOf(Record(s, c, h, ok).accs, other) == AccOf(s.accs, other)
    ensures Of(Record(s, c, h, ok).enqueued, other) == Of(s.enqueued, other)
  {
    hide Of, AccAfter, TurnOf;
    var turn := TurnOf(c, AccOf(s.accs, c), h);
    if turn.Some? {
      OfSnoc(s.enqueued, turn.value, other);
      TurnIsOwn(c, AccOf(s.accs, c), h);
      assert Of(s.enqueued, other) + [] == Of(s.enqueued, other);
    }
  }

  /** For any interleaving of conversations, clears and flushes, the turns queued for
      one conversation are those of its own events alone. */
  lemma {:induction false} ConversationsDoNotMix(trace: seq<Event>, c: string)
    ensures Follows(Run(trace), c, OwnEvents(trace, c))
  {
    hide Record, OwnAcc, OwnTurns, Of;
    if trace == [] {
      NothingYet(c);
    } else {
      var before, e := trace[..|trace| - 1], trace[|trace| - 1];
      ConversationsDoNotMix(before, c);
      var s, own := Run(before), OwnEvents(before, c);
      assert own + [] == own;
      match e
      case HookEvent(d, h, ok) =>
        if c == d { RecordFollows(s, c, h, ok, own); } else { RecordLeavesOthers(s, d, h, ok, c); }
      case Clear(d) => if c == d { OwnSnoc(c, own, Cleared); assert OwnTurns(c, own) + [] == OwnTurns(c, own); }
      case FlushTick(_) =>
    }
  }

  lemma NothingYet(c: string)
    ensures Follows(EMPTY, c, [])
  {
  }

  // ---------- the queue ----------

  function Batched(batches: seq<Batch>): seq<Turn> {
    if batches == [] then [] else Batched(batches[..|batches| - 1]) + batches[|batches| - 1].turns
  }

  /** What reached the database. */
  function Written(batches: seq<Batch>): seq<Turn> {
    if batches == [] then []
    else
      var b := batches[|batches| - 1];
      Written(batches[..|batches| - 1]) + if b.written then b.turns else []
  }

  predicate AllWritten(batches: seq<Batch>) {
    forall k :: 0 <= k < |batches| ==> batches[k].written
  }

  /** As much is written as was batched exactly when every transaction went through. */
  lemma {:induction false} WrittenExactly(batches: seq<Batch>)
    requires forall k :: 0 <= k < |batches| ==> batches[k].turns != []
    ensures |Written(batches)| <= |Batched(batches)|
    ensures AllWritten(batches) ==> Written(batches) == Batched(batches)
    ensures |Written(batches)| == |Batched(batches)| ==> AllWritten(batches)
  {
    if batches != [] {
      var before, b := batches[..|batches| - 1], batches[|batches| - 1];
      WrittenExactly(before);
      assert b.turns != [];
      if |Written(batches)| == |Batched(batches)| {
        assert b.written && AllWritten(before);
      }
    }
  }

  ghost predicate QueueGood(s: Store) {
    && Batched(s.batches) + s.queue == s.enqueued && |s.queue| < FLUSH_BATCH_SIZE
    && forall k :: 0 <= k < |s.batches| ==> 0 < |s.batches[k].turns| <= FLUSH_BATCH_SIZE
  }

  lemma FlushKeepsQueue(s: Store, ok: bool)
    requires Batched(s.batches) + s.queue == s.enqueued && |s.queue| <= FLUSH_BATCH_SIZE
    requires forall k :: 0 <= k < |s.batches| ==> 0 < |s.batches[k].turns| <= FLUSH_BATCH_SIZE
    ensures QueueGood(Flush(s, ok))
  {
    if s.queue != [] {
      var batches := s.batches + [Batch(s.queue, ok)];
      assert batches[..|s.batches|] == s.batches;
      assert Batched(batches) == Batched(s.batches) + s.queue;
    }
  }

  lemma StepKeepsQueue(s: Store, e: Event)
    requires QueueGood(s)
    ensures QueueGood(Step(s, e))
  {
    hide Batched, TurnOf, AccAfter, Flush;
    match e
    case HookEvent(c, h, ok) =>
      var turn := TurnOf(c, AccOf(s.accs, c), h);
      if turn.Some? {
        var kept := s.(accs := WithAcc(s.accs, c, AccAfter(AccOf(s.accs, c), h)));
        var r := kept.(queue := kept.queue + [turn.value], enqueued := kept.enqueued + [turn.value]);
        assert Batched(s.batches) + (s.queue + [turn.value]) == (Batched(s.batches) + s.queue) + [turn.value];
        if |r.queue| >= FLUSH_BATCH_SIZE { FlushKeepsQueue(r, ok); }
      }
    case Clear(_) =>
    case FlushTick(ok) => FlushKeepsQueue(s, ok);
  }

  /** A turn that finds forty-nine waiting takes all of them along in one batch, any
      other waits; and the interval flush leaves nothing waiting. */
  lemma FiftiethFlushes(trace: seq<Event>, e: Event) returns (added: seq<Turn>)
    ensures var s, after := Run(trace), Run(trace + [e]);
            && |added| <= 1 && after.enqueued == s.enqueued + added
            && if !e.Clear? && ((e.FlushTick? && s.queue != []) || (added != [] && |s.queue| == 49))
               then after.queue == [] && after.batches == s.batches + [Batch(s.queue + added, e.ok)]
               else after.queue == s.queue + added && after.batches == s.batches
  {
    hide AccAfter, TurnOf, Batched;
    QueueIsInOrder(trace);
    assert (trace + [e])[..|trace|] == trace;
    var s := Run(trace);
    added := if e.HookEvent? then Listed(TurnOf(e.conversation, AccOf(s.accs, e.conversation), e.h)) else [];
    assert s.queue + [] == s.queue && s.enqueued + [] == s.enqueued;
  }

  /** Turns are batched in the order of enqueueing, none lost or repeated on the way;
      fewer than fifty wait; and what was written and what waits are exactly what was
      enqueued if and only if no transaction has failed. */
  lemma {:induction false} QueueIsInOrder(trace: seq<Event>)
    ensures var s := Run(trace);
            && QueueGood(s) && |s.queue| < 50
            && (AllWritten(s.batches) <==> Written(s.batches) + s.queue == s.enqueued)
  {
    hide Step;
    if trace != [] {
      QueueIsInOrder(trace[..|trace| - 1]);
      StepKeepsQueue(Run(trace[..|trace| - 1]), trace[|trace| - 1]);
    }
    var s := Run(trace);
    WrittenExactly(s.batches);
    if Written(s.batches) + s.queue == s.enqueued {
      assert |Written(s.batches)| + |s.queue| == |s.enqueued| == |Batched(s.batches)| + |s.queue|;
    }
  }

  // ---------- the module state as an object ----------

  class AnalyticsStore {
    var accs: map<string, Acc>
    var queue: seq<Turn>
    ghost var batches: seq<Batch>
    ghost var enqueued: seq<Turn>

    ghost function View(): Store
      reads this
    {
      Store(accs, queue, batches, enqueued)
    }

    constructor ()
      ensures View() == EMPTY
    {
      accs, queue, batches, enqueued := map[], [], [], [];
    }

    /** `ok` says whether the transaction goes through; if not the batch is gone. */
    method FlushBatch(ok: bool)
      modifies this`queue, this`batches
      ensures View() == Flush(old(View()), ok)
    {
      if queue == [] { return; }
      var batch := queue;
      queue := [];
      batches := batches + [Batch(batch, ok)];
    }

    method EnqueueTurn(turn: Turn, ok: bool)
      modifies this`queue, this`batches, this`enqueued
      ensures View() == Enqueue(old(View()), turn, ok)
    {
      queue := queue + [turn];
      enqueued := enqueued + [turn];
      if |queue| >= FLUSH_BATCH_SIZE { FlushBatch(ok); }
    }

    static method MarkFailed(tools: seq<ToolUse>, tool: string) returns (marked: seq<ToolUse>)
      ensures marked == MarkLastFailed(tools, tool)
    {
      marked := tools;
      var i := |tools|;
      assert tools[..i] == tools && MarkLastFailed(tools, tool) + [] == MarkLastFailed(tools, tool);
      while i > 0
        invariant 0 <= i <= |tools|
        invariant MarkLastFailed(tools, tool) == MarkLastFailed(tools[..i], tool) + tools[i..]
      {
        i := i - 1;
        assert tools[..i + 1][..i] == tools[..i];
        if tools[i].toolName == tool && tools[i].success {
          marked := tools[i := ToolUse(tool, false)];
          assert marked == tools[..i + 1][i := ToolUse(tool, false)] + tools[i + 1..];
          return;
        }
        assert [tools[i]] + tools[i + 1..] == tools[i..];
      }
      assert tools[..0] == [] && tools[0..] == tools;
    }

    method RecordHookEvent(c: string, h: Hook, ok: bool)
      modifies this
      ensures View() == Record(old(View()), c, h, ok)
    {
      hide MarkLastFailed;
      match h {
        case Prompt(snippet) =>
          accs := accs[c := Acc([], snippet)];
        case PreTool(tool) =>
          if c in accs {
            accs := accs[c := accs[c].(tools := accs[c].tools + [ToolUse(tool, true)])];
          } else {
            assert accs - {c} == accs;
          }
        case ToolFailed(tool) =>
          if c in accs {
            var marked := MarkFailed(accs[c].tools, tool);
            accs := accs[c := accs[c].(tools := marked)];
          } else {
            assert accs - {c} == accs;
          }
        case Stop(failed, found) =>
          if c !in accs {
            assert accs - {c} == accs;
            return;
          }
          var acc := accs[c];
          accs := accs - {c};
          if acc.tools == [] && acc.promptSnippet == "" { return; }
          var names := Names(acc.tools);
          var retryCount := CountRetries(names);
          var hasEdits := exists t :: t in names && IsEdit(t);
          if !found { return; }
          EnqueueTurn(Turn(c, names, retryCount, hasEdits && retryCount == 0 && !failed, failed, acc.promptSnippet), ok);
        case Other =>
          if c in accs { assert accs[c := accs[c]] == accs; } else { assert accs - {c} == accs; }
      }
    }

    method ClearConversation(c: string)
      modifies this`accs
      ensures View() == Step(old(View()), Clear(c))
    {
      accs := accs - {c};
    }
  }
}
