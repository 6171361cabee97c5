/**
 * The translator as the object it is: chunks are appended in place to blocks of an
 * array, and that array is handed out inside an entry and then replaced. Every
 * method computes the machine of module Transcript, and an entry that has been
 * handed out reads for ever as it did when it was sent.
 */
module TranslatorHeap {
  import opened Wrappers
  import opened Transcript

  /** A content block; its text grows in place while the run is open. */
  class TextBlock {
    const kind: BlockKind
    var text: string

    constructor (kind: BlockKind, text: string)
      ensures this.kind == kind && this.text == text
    {
      this.kind, this.text := kind, text;
    }
  }

  /** A JavaScript array of blocks. */
  class BlockList {
    var items: seq<TextBlock>

    constructor ()
      ensures items == []
    {
      items := [];
    }

    /** Walking the array now yields these values. */
    ghost predicate ReadsAs(blocks: seq<Block>)
      reads this, items
    {
      |blocks| == |items|
      && forall i :: 0 <= i < |items| ==> items[i].kind == blocks[i].kind && items[i].text == blocks[i].text
    }
  }

  /** A run entry shares the array of blocks; the other entries hold values. */
  datatype SentEntry = SentRun(uuid: nat, content: BlockList, usage: Option<Usage>) | SentValue(entry: Entry)

  /** What `applyUpdate` and `flushTurn` return. */
  class Output {
    var entries: seq<SentEntry>
    var streamDeltas: seq<Delta>

    constructor ()
      ensures entries == [] && streamDeltas == []
    {
      entries, streamDeltas := [], [];
    }
  }

  class Translator {
    var pendingBlocks: BlockList
    var activeRunUuid: Option<nat>
    var lastTextBlockIdx: Option<nat>
    var lastThinkingBlockIdx: Option<nat>
    var streamRunActive: bool
    var toolOrder: seq<string>
    var toolCalls: map<string, PendingToolCall>
    var usage: Usage
    var turnStartedAt: int
    var acpAgent: string
    var nextUuid: nat

    /** The values of the pending blocks. */
    ghost var blocks: seq<Block>
    /** Everything sent so far: the entries as objects, the entries as they read
        when they were sent, and the deltas. */
    ghost var sent: seq<SentEntry>
    ghost var recorded: seq<Entry>
    ghost var streamed: seq<Delta>
    /** The histories as they were when the current call began. */
    ghost var sentBefore: seq<SentEntry>
    ghost var streamedBefore: seq<Delta>
    /** Every array and block that has been handed out. */
    ghost var frozen: set<object>

    /** The objects this translator still writes to, besides itself. */
    ghost function Owned(): set<object>
      reads this`pendingBlocks, pendingBlocks
    {
      {pendingBlocks} + (set o: object | o in pendingBlocks.items)
    }

    /** A sent entry still reads as recorded, from frozen objects only. */
    static ghost predicate Kept(e: SentEntry, value: Entry, frozen: set<object>)
      reads frozen
    {
      match e
      case SentRun(uuid, content, usage) =>
        && value.RunEntry? && value.uuid == uuid && value.usage == usage
        && content in frozen && (forall b | b in content.items :: b in frozen)
        && content.ReadsAs(value.content)
      case SentValue(entry) => value == entry
    }

    ghost predicate AllKept()
      reads this`sent, this`recorded, this`frozen, frozen
    {
      |sent| == |recorded| && forall k :: 0 <= k < |sent| ==> Kept(sent[k], recorded[k], frozen)
    }

    ghost predicate PendingRead()
      reads this`pendingBlocks, this`blocks, pendingBlocks, pendingBlocks.items
    {
      && (forall i, j :: 0 <= i < j < |pendingBlocks.items| ==> pendingBlocks.items[i] != pendingBlocks.items[j])
      && pendingBlocks.ReadsAs(blocks)
    }

    ghost predicate Separate()
      reads this`pendingBlocks, this`frozen, pendingBlocks
    {
      this !in frozen && this !in Owned() && Owned() !! frozen
    }

    ghost predicate Valid()
      reads this, pendingBlocks, pendingBlocks.items, frozen
    {
      Separate() && PendingRead() && AllKept()
    }

    ghost function View(): Machine
      reads this
    {
      Machine(State(blocks, activeRunUuid, lastTextBlockIdx, lastThinkingBlockIdx, streamRunActive,
                    toolOrder, toolCalls, usage, turnStartedAt, acpAgent, nextUuid),
              recorded, streamed)
    }

    constructor (agent: string, now: int)
      ensures Valid() && fresh(Owned()) && frozen == {}
      ensures View() == Start(agent, now)
    {
      pendingBlocks := new BlockList();
      activeRunUuid, lastTextBlockIdx, lastThinkingBlockIdx, streamRunActive := None, None, None, false;
      toolOrder, toolCalls := [], map[];
      usage, turnStartedAt, acpAgent, nextUuid := Usage(0, 0, 0, 0), now, agent, 0;
      blocks, sent, recorded, streamed, frozen := [], [], [], [], {};
      sentBefore, streamedBefore := [], [];
    }

    /** `out` is not one of our objects, and holds what was sent since the call began. */
    ghost predicate Collects(out: Output)
      reads this, pendingBlocks, out
    {
      && out !in frozen && out !in Owned()
      && sent == sentBefore + out.entries
      && streamed == streamedBefore + out.streamDeltas
    }

    /** What a call may have done to the objects: those it owns are old or new, and
        nothing frozen was let go. */
    twostate predicate Grew()
      reads this, pendingBlocks
    {
      fresh(Owned() - old(Owned())) && old(frozen) <= frozen
      && sentBefore == old(sentBefore) && streamedBefore == old(streamedBefore)
    }

    method PushDelta(d: Delta, out: Output)
      requires Valid() && Collects(out)
      modifies this`streamed, out`streamDeltas
      ensures Valid() && Collects(out) && Grew()
      ensures View() == Stream(old(View()), d)
    {
      out.streamDeltas := out.streamDeltas + [d];
      streamed := streamed + [d];
    }

    method PushValue(e: Entry, out: Output)
      requires Valid() && Collects(out)
      modifies this`sent, this`recorded, out`entries
      ensures Valid() && Collects(out) && Grew()
      ensures View() == Emit(old(View()), e)
    {
      out.entries := out.entries + [SentValue(e)];
      sent, recorded := sent + [SentValue(e)], recorded + [e];
    }

    method EnsureActiveRun(out: Output)
      requires Valid() && Collects(out)
      modifies this`activeRunUuid, this`nextUuid, this`streamRunActive, this`streamed, out`streamDeltas
      ensures Valid() && Collects(out) && Grew()
      ensures View() == Transcript.EnsureActiveRun(old(View()))
    {
      hide AllKept, PendingRead;
      if activeRunUuid.None? {
        activeRunUuid := Some(nextUuid);
        nextUuid := nextUuid + 1;
        streamRunActive := true;
        out.streamDeltas, streamed := out.streamDeltas + [MessageStart], streamed + [MessageStart];
      }
    }

    /** `block.text += text`, where the source finds a block of the right kind. */
    method ExtendInPlace(idx: nat, kind: BlockKind, text: string)
      requires Valid()
      modifies this`blocks, pendingBlocks.items
      ensures Valid()
      ensures blocks == ExtendBlock(old(blocks), idx, kind, text)
    {
      if idx < |pendingBlocks.items| {
        var block := pendingBlocks.items[idx];
        if block.kind == kind {
          assert block as object in Owned();
          block.text := block.text + text;
          blocks := blocks[idx := Block(kind, blocks[idx].text + text)];
        }
      }
    }

    method AppendBlock(kind: BlockKind, text: string)
      requires Valid()
      modifies this`blocks, pendingBlocks
      ensures Valid() && fresh(Owned() - old(Owned()))
      ensures blocks == old(blocks) + [Block(kind, text)] && |blocks| == |pendingBlocks.items|
    {
      hide AllKept;
      var block := new TextBlock(kind, text);
      assert block !in pendingBlocks.items;
      pendingBlocks.items := pendingBlocks.items + [block];
      blocks := blocks + [Block(kind, text)];
    }

    method PushNewBlock(kind: BlockKind, text: string)
      requires Valid()
      modifies this`blocks, this`lastTextBlockIdx, this`lastThinkingBlockIdx, pendingBlocks
      ensures Valid() && fresh(Owned() - old(Owned()))
      ensures View() == old(View()).(st := PushBlock(old(View()).st, kind, text))
    {
      AppendBlock(kind, text);
      hide AllKept, PendingRead;
      var at := Some(|pendingBlocks.items| - 1);
      if kind.Text? {
        lastTextBlockIdx, lastThinkingBlockIdx := at, None;
      } else {
        lastThinkingBlockIdx, lastTextBlockIdx := at, None;
      }
    }

    /** The two chunk handlers. */
    method HandleChunk(kind: BlockKind, text: string, out: Output)
      requires Valid() && Collects(out)
      modifies this, out, pendingBlocks, pendingBlocks.items
      ensures Valid() && Collects(out) && Grew()
      ensures View() == Transcript.HandleChunk(old(View()), kind, text)
    {
      hide AllKept, PendingRead;
      if text == "" { return; }
      EnsureActiveRun(out);
      var idx := if kind.Text? then lastTextBlockIdx else lastThinkingBlockIdx;
      if idx.Some? {
        ExtendInPlace(idx.value, kind, text);
      } else {
        PushNewBlock(kind, text);
      }
      var live := if kind.Text? then lastTextBlockIdx else lastThinkingBlockIdx;
      PushDelta(BlockDelta(live.GetOr(0), kind, text), out);
    }

    /** `state.pendingBlocks = []`: a new array, the old one is left alone. */
    method RenewBlocks()
      requires this !in frozen && AllKept()
      modifies this`pendingBlocks, this`blocks
      ensures Valid() && fresh(Owned()) && blocks == []
    {
      pendingBlocks := new BlockList();
      blocks := [];
    }

    /** Record that the pending array is handed out in an entry: with its blocks it
        is frozen, and still reads as the pending blocks did. */
    ghost method Freeze(uuid: nat, attached: Option<Usage>)
      requires Valid()
      modifies this`sent, this`recorded, this`frozen
      ensures AllKept() && frozen == old(frozen) + Owned()
      ensures sent == old(sent) + [SentRun(uuid, pendingBlocks, attached)]
      ensures recorded == old(recorded) + [RunEntry(uuid, blocks, attached)]
    {
      forall k | 0 <= k < |sent| ensures Kept(sent[k], recorded[k], frozen + Owned()) {
        assert Kept(sent[k], recorded[k], frozen);
      }
      assert Kept(SentRun(uuid, pendingBlocks, attached), RunEntry(uuid, blocks, attached), frozen + Owned());
      sent := sent + [SentRun(uuid, pendingBlocks, attached)];
      recorded := recorded + [RunEntry(uuid, blocks, attached)];
      frozen := frozen + Owned();
    }

    /** Hand the pending array out in an entry, when there is a run with content,
        and start a new array. */
    method HandOver(attached: Option<Usage>, out: Output)
      requires Valid() && Collects(out)
      modifies this`pendingBlocks, this`blocks, this`sent, this`recorded, this`frozen, out`entries
      ensures Valid() && Collects(out) && Grew() && fresh(pendingBlocks)
      ensures View() == (var m := CloseRun(old(View()), attached); m.(st := m.st.(pending := [])))
    {
      assert |pendingBlocks.items| == |blocks|;
      hide AllKept, PendingRead;
      if activeRunUuid.Some? && |pendingBlocks.items| > 0 {
        out.entries := out.entries + [SentRun(activeRunUuid.value, pendingBlocks, attached)];
        Freeze(activeRunUuid.value, attached);
      }
      RenewBlocks();
    }

    method StopStream(out: Output)
      requires Valid() && Collects(out)
      modifies this`streamRunActive, this`streamed, out`streamDeltas
      ensures Valid() && Collects(out) && Grew()
      ensures View() == Transcript.StopStream(old(View()))
    {
      hide AllKept, PendingRead;
      if streamRunActive {
        out.streamDeltas, streamed := out.streamDeltas + [MessageStop], streamed + [MessageStop];
        streamRunActive := false;
      }
    }

    method FlushActiveRun(out: Output)
      requires Valid() && Collects(out)
      modifies this, out
      ensures Valid() && Collects(out) && Grew() && fresh(pendingBlocks)
      ensures View() == Transcript.FlushActiveRun(old(View()))
    {
      hide PendingRead, AllKept;
      HandOver(None, out);
      StopStream(out);
      ResetRunFields();
    }

    method ResetRunFields()
      requires Valid()
      modifies this`activeRunUuid, this`lastTextBlockIdx, this`lastThinkingBlockIdx
      ensures Valid()
      ensures View() == old(View()).(st := old(View()).st.(run := None, lastText := None, lastThinking := None))
    {
      hide AllKept, PendingRead;
      activeRunUuid := None;
      lastTextBlockIdx := None;
      lastThinkingBlockIdx := None;
    }

    method CommitToolUse(id: string, out: Output)
      requires Valid() && Collects(out) && id in toolCalls
      modifies this`toolCalls, this`sent, this`recorded, out`entries
      ensures Valid() && Collects(out) && Grew()
      ensures View() == Transcript.CommitToolUse(old(View()), id)
    {
      hide AllKept, PendingRead;
      var pending := toolCalls[id];
      if pending.useCommitted { return; }
      PushValue(ToolUse(pending.useUuid, id, pending.name, pending.input, acpAgent), out);
      toolCalls := toolCalls[id := pending.(useCommitted := true)];
    }

    method CommitToolResult(id: string, out: Output)
      requires Valid() && Collects(out) && id in toolCalls
      modifies this`toolCalls, this`sent, this`recorded, out`entries
      ensures Valid() && Collects(out) && Grew()
      ensures View() == Transcript.CommitToolResult(old(View()), id)
    {
      hide AllKept, PendingRead;
      var pending := toolCalls[id];
      if pending.resultCommitted { return; }
      PushValue(ToolResult(pending.resultUuid, id, pending.output, pending.isError, acpAgent), out);
      toolCalls := toolCalls[id := pending.(resultCommitted := true)];
    }

    method CommitUseAfterRun(id: string, out: Output)
      requires Valid() && Collects(out) && id in toolCalls
      modifies this, out
      ensures Valid() && Collects(out) && Grew()
      ensures View() == Transcript.CommitUseAfterRun(old(View()), id)
    {
      hide AllKept, PendingRead, Transcript.FlushActiveRun, Transcript.CommitToolUse;
      ghost var m := View();
      FlushActiveRun(out);
      FlushKeepsCalls(m);
      CommitToolUse(id, out);
    }

    lemma FlushKeepsCalls(m: Machine)
      ensures Transcript.FlushActiveRun(m).st.calls == m.st.calls
    {}

    /** `state.toolCalls.set(id, ...)` with two reserved UUIDs. */
    method AddCall(id: string, name: string, input: RawInput, status: Option<string>)
      requires Valid()
      modifies this`toolCalls, this`toolOrder, this`nextUuid
      ensures Valid()
      ensures View() == Transcript.AddCall(old(View()), id, name, input, status)
    {
      hide AllKept, PendingRead;
      var pending := PendingToolCall(name, input, "", false, status.GetOr("pending"), nextUuid, nextUuid + 1, false, false);
      toolCalls := toolCalls[id := pending];
      toolOrder := toolOrder + [id];
      nextUuid := nextUuid + 2;
    }

    method HandleToolCall(u: Update, out: Output)
      requires Valid() && Collects(out) && u.ToolCall?
      modifies this, out
      ensures Valid() && Collects(out) && Grew()
      ensures View() == Transcript.HandleToolCall(old(View()), u)
    {
      hide AllKept, PendingRead, Transcript.FlushActiveRun, Transcript.CommitToolUse;
      if u.id == "" || u.id in toolCalls { return; }
      AddCall(u.id, ResolveToolName(u.title, u.category), InitialInput(u.input), u.status);
      FlushKeepsCalls(View());
      FlushActiveRun(out);
      if KeyCount(toolCalls[u.id].input) > 0 {
        CommitToolUse(u.id, out);
      }
    }

    /** Write an update into the record of its call, created on the fly if need be. */
    method Receive(u: Update)
      requires Valid() && u.ToolUpdate?
      modifies this`toolCalls, this`toolOrder, this`nextUuid
      ensures Valid() && u.id in toolCalls
      ensures View() == Received(old(View()), u)
    {
      hide AllKept, PendingRead, Absorb;
      if u.id !in toolCalls {
        AddCall(u.id, ResolveToolName(u.title, u.category), Record(map[]), u.status);
      }
      toolCalls := toolCalls[u.id := Absorb(toolCalls[u.id], u)];
    }

    method Finish(id: string, out: Output)
      requires Valid() && Collects(out) && id in toolCalls
      modifies this, out
      ensures Valid() && Collects(out) && Grew()
      ensures View() == Transcript.Finish(old(View()), id)
    {
      hide AllKept, PendingRead, Transcript.CommitToolResult, Transcript.CommitUseAfterRun;
      var used := toolCalls[id].useCommitted;
      if toolCalls[id].status == "failed" || toolCalls[id].status == "cancelled" {
        toolCalls := toolCalls[id := toolCalls[id].(isError := true)];
      }
      if !used {
        CommitUseAfterRun(id, out);
      }
      CommitToolResult(id, out);
    }

    method HandleToolCallUpdate(u: Update, out: Output)
      requires Valid() && Collects(out) && u.ToolUpdate?
      modifies this, out
      ensures Valid() && Collects(out) && Grew()
      ensures View() == HandleToolUpdate(old(View()), u)
    {
      hide AllKept, PendingRead, Received, Transcript.Finish, Transcript.CommitUseAfterRun;
      if u.id == "" { return; }
      Receive(u);
      var pending := toolCalls[u.id];
      if !pending.useCommitted && KeyCount(pending.input) > 0 {
        CommitUseAfterRun(u.id, out);
      }
      if Terminal(toolCalls[u.id].status) {
        Finish(u.id, out);
      }
    }

    /** The histories that the call starting now is measured against. */
    method Begin() returns (out: Output)
      requires Valid()
      modifies this`sentBefore, this`streamedBefore
      ensures Valid() && Collects(out) && fresh(out)
      ensures sentBefore == sent && streamedBefore == streamed
      ensures View() == old(View())
    {
      hide AllKept, PendingRead;
      out := new Output();
      sentBefore, streamedBefore := sent, streamed;
    }

    /** One notification. What is returned is what was newly sent, and every entry
        sent before still reads as recorded. */
    method ApplyUpdate(u: Update) returns (out: Output)
      requires Valid()
      modifies this, pendingBlocks, pendingBlocks.items
      ensures Valid() && fresh(out)
      ensures sent == old(sent) + out.entries && streamed == old(streamed) + out.streamDeltas
      ensures old(frozen) <= frozen && forall o | o in old(frozen) :: unchanged(o)
      ensures View() == Transcript.ApplyUpdate(old(View()), u)
    {
      hide AllKept, PendingRead, Transcript.HandleChunk, Transcript.HandleToolCall, HandleToolUpdate;
      out := Begin();
      match u
      case Chunk(kind, text) => HandleChunk(kind, text, out);
      case ToolCall(_, _, _, _, _) => HandleToolCall(u, out);
      case ToolUpdate(_, _, _, _, _, _, _) => HandleToolCallUpdate(u, out);
      case Other =>
    }

    method ApplyPromptUsage(p: PromptUsage)
      requires Valid()
      modifies this`usage
      ensures Valid()
      ensures View() == Transcript.ApplyPromptUsage(old(View()), p)
    {
      hide AllKept, PendingRead;
      usage := Usage(p.input.GetOr(usage.input), p.output.GetOr(usage.output),
                     p.cacheRead.GetOr(usage.cacheRead), p.cacheWrite.GetOr(usage.cacheWrite));
    }

    method FlushTool(id: string, out: Output)
      requires Valid() && Collects(out) && id in toolCalls
      modifies this, out
      ensures Valid() && Collects(out) && Grew()
      ensures View() == Transcript.FlushTool(old(View()), id)
    {
      hide AllKept, PendingRead, Transcript.CommitToolResult, Transcript.CommitUseAfterRun;
      var pending := toolCalls[id];
      if !pending.useCommitted && KeyCount(pending.input) > 0 {
        CommitUseAfterRun(id, out);
      }
      if !pending.resultCommitted && Terminal(pending.status) {
        if !toolCalls[id].useCommitted {
          CommitUseAfterRun(id, out);
        }
        CommitToolResult(id, out);
      }
    }

    /** The loop of `flushTurn` over the tool calls, in insertion order. */
    method FlushTools(out: Output)
      requires Valid() && Collects(out)
      modifies this, out
      ensures Valid() && Collects(out) && Grew()
      ensures View() == Transcript.FlushTools(old(View()), old(toolOrder))
    {
      hide AllKept, PendingRead, Transcript.FlushTool;
      var order := toolOrder;
      for i := 0 to |order|
        invariant Valid() && Collects(out) && Grew()
        invariant View() == Transcript.FlushTools(old(View()), order[..i])
      {
        assert order[..i + 1][..i] == order[..i];
        if order[i] in toolCalls {
          FlushTool(order[i], out);
        }
      }
      assert order[..|order|] == order;
    }

    /** The turn's part of `Object.assign(state, createTranslatorState())`. */
    method ResetTurn(now: int)
      requires Valid()
      modifies this`toolOrder, this`toolCalls, this`usage, this`turnStartedAt, this`acpAgent
      ensures Valid()
      ensures View() == old(View()).(st := old(View()).st.(order := [], calls := map[], usage := Usage(0, 0, 0, 0),
                                                           turnStartedAt := now, agent := DEFAULT_AGENT))
    {
      hide AllKept, PendingRead;
      toolOrder, toolCalls := [], map[];
      usage, turnStartedAt, acpAgent := Usage(0, 0, 0, 0), now, DEFAULT_AGENT;
    }

    /** Send the closing entry and reset for the next turn. */
    method EndTurn(now: int, out: Output)
      requires Valid() && Collects(out) && blocks == [] && !streamRunActive
      modifies this, out
      ensures Valid() && Collects(out) && Grew()
      ensures View() == Transcript.EndTurn(old(View()), now)
    {
      hide AllKept, PendingRead;
      PushValue(TurnEnd(nextUuid, now - turnStartedAt), out);
      nextUuid := nextUuid + 1;
      ResetRunFields();
      ResetTurn(now);
    }

    /** Close the open run with the turn's usage, and the stream with it. */
    method CloseLastRun(out: Output)
      requires Valid() && Collects(out)
      modifies this, out
      ensures Valid() && Collects(out) && Grew() && fresh(pendingBlocks) && blocks == [] && !streamRunActive
      ensures View() == (var a := old(View());
                         var b := Transcript.StopStream(CloseRun(a, AttachedUsage(a.st.usage)));
                         b.(st := b.st.(pending := [])))
    {
      hide AllKept, PendingRead;
      HandOver(AttachedUsage(usage), out);
      StopStream(out);
    }

    /** The end of a turn. Again, no entry sent before is touched. */
    method FlushTurn(now: int) returns (out: Output)
      requires Valid()
      modifies this, pendingBlocks, pendingBlocks.items
      ensures Valid() && fresh(out)
      ensures sent == old(sent) + out.entries && streamed == old(streamed) + out.streamDeltas
      ensures old(frozen) <= frozen && forall o | o in old(frozen) :: unchanged(o)
      ensures View() == Transcript.FlushTurn(old(View()), now)
    {
      hide AllKept, PendingRead, Transcript.FlushTools, Transcript.StopStream, CloseRun;
      out := Begin();
      FlushTools(out);
      CloseLastRun(out);
      EndTurn(now, out);
    }
  }
}
