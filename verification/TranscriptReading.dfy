/**
 * How a transcript and a live stream are read: the runs, the timeline of text and
 * tool uses, the marks of one tool call, the client that folds deltas by index,
 * and the one maximally merged form of a text.
 */
module TranscriptReading {
  import opened Wrappers
  import opened Transcript

  // ---------- reading a transcript ----------

  /** The block lists of the run entries, oldest first. */
  function RunContents(entries: seq<Entry>): seq<seq<Block>> {
    if entries == [] then []
    else
      var e := entries[|entries| - 1];
      RunContents(entries[..|entries| - 1]) + (if e.RunEntry? then [e.content] else [])
  }

  /** One character of text or thinking, or one tool use. */
  datatype Item = Piece(kind: BlockKind, c: char) | Use(id: string)

  function Pieces(kind: BlockKind, text: string): seq<Item> {
    seq(|text|, i requires 0 <= i < |text| => Piece(kind, text[i]))
  }

  function Flat(blocks: seq<Block>): seq<Item> {
    if blocks == [] then []
    else
      var b := blocks[|blocks| - 1];
      Flat(blocks[..|blocks| - 1]) + Pieces(b.kind, b.text)
  }

  function ItemsOf(e: Entry): seq<Item> {
    match e
    case RunEntry(_, content, _) => Flat(content)
    case ToolUse(_, id, _, _, _) => [Use(id)]
    case _ => []
  }

  /** The text and the tool uses of a transcript, in transcript order. */
  function Timeline(entries: seq<Entry>): seq<Item> {
    if entries == [] then [] else Timeline(entries[..|entries| - 1]) + ItemsOf(entries[|entries| - 1])
  }

  datatype Mark = UseMark | ResultMark | EndMark

  function MarksOf(e: Entry, id: string): seq<Mark> {
    match e
    case ToolUse(_, i, _, _, _) => if i == id then [UseMark] else []
    case ToolResult(_, i, _, _, _) => if i == id then [ResultMark] else []
    case TurnEnd(_, _) => [EndMark]
    case RunEntry(_, _, _) => []
  }

  /** What a transcript says about one tool call id. */
  function Marks(entries: seq<Entry>, id: string): seq<Mark> {
    if entries == [] then [] else Marks(entries[..|entries| - 1], id) + MarksOf(entries[|entries| - 1], id)
  }

  lemma Appended(entries: seq<Entry>, e: Entry)
    ensures RunContents(entries + [e])
         == if e.RunEntry? then RunContents(entries) + [e.content] else RunContents(entries)
    ensures Timeline(entries + [e]) == Timeline(entries) + ItemsOf(e)
    ensures forall id :: Marks(entries + [e], id) == Marks(entries, id) + MarksOf(e, id)
  {
    assert (entries + [e])[..|entries|] == entries;
  }

  // ---------- reading the live stream ----------

  /** A client's buffers: the finished groups and the group being streamed. */
  datatype Live = Live(groups: seq<seq<Block>>, open: Option<seq<Block>>)

  /** One delta, applied by index; None when the stream is not well bracketed. */
  function Receive(live: Live, d: Delta): Option<Live> {
    match d
    case MessageStart => if live.open.None? then Some(live.(open := Some([]))) else None
    case MessageStop =>
      if live.open.Some? then Some(Live(live.groups + [live.open.value], None)) else None
    case BlockDelta(i, kind, text) =>
      if live.open.None? then None
      else
        var bs := live.open.value;
        if i == |bs| then Some(live.(open := Some(bs + [Block(kind, text)])))
        else if i < |bs| && bs[i].kind == kind
        then Some(live.(open := Some(bs[i := Block(kind, bs[i].text + text)])))
        else None
  }

  function Replay(deltas: seq<Delta>): Option<Live> {
    if deltas == [] then Some(Live([], None))
    else
      var before := Replay(deltas[..|deltas| - 1]);
      if before.Some? then Receive(before.value, deltas[|deltas| - 1]) else None
  }

  lemma Streamed(deltas: seq<Delta>, d: Delta)
    ensures Replay(deltas + [d])
         == (var before := Replay(deltas); if before.Some? then Receive(before.value, d) else None)
  {
    assert (deltas + [d])[..|deltas|] == deltas;
  }

  // ---------- the invariant ----------

  /** The run pointers agree with the pending blocks: the active UUID, the stream
      flag and the presence of blocks go together, and the one live block index
      names the last block. */
  predicate OpenRun(s: State) {
    if s.pending == []
    then s.run.None? && !s.streaming && s.lastText.None? && s.lastThinking.None?
    else
      var last := |s.pending| - 1;
      && s.run.Some? && s.streaming
      && s.lastText == (if s.pending[last].kind.Text? then Some(last) else None)
      && s.lastThinking == (if s.pending[last].kind.Thinking? then Some(last) else None)
  }

  /** Folding the deltas rebuilds the committed runs and the open one. */
  predicate Mirrored(m: Machine) {
    Replay(m.deltas)
    == Some(Live(RunContents(m.entries), if m.st.streaming then Some(m.st.pending) else None))
  }

  predicate Good(m: Machine) {
    OpenRun(m.st) && Mirrored(m)
  }

  // ---------- merging ----------

  datatype Fragment = Fragment(kind: BlockKind, text: string)

  /** Adding a fragment to a list of blocks: into the last block when the kinds
      agree, as a new block when they do not. */
  function Extend(blocks: seq<Block>, f: Fragment): seq<Block> {
    var n := |blocks|;
    if n > 0 && blocks[n - 1].kind == f.kind
    then blocks[..n - 1] + [Block(f.kind, blocks[n - 1].text + f.text)]
    else blocks + [Block(f.kind, f.text)]
  }

  function Merge(fs: seq<Fragment>): seq<Block> {
    if fs == [] then [] else Extend(Merge(fs[..|fs| - 1]), fs[|fs| - 1])
  }

  function FragmentItems(fs: seq<Fragment>): seq<Item> {
    if fs == [] then []
    else
      var f := fs[|fs| - 1];
      FragmentItems(fs[..|fs| - 1]) + Pieces(f.kind, f.text)
  }

  /** No empty block, and no two neighbours of the same kind. */
  predicate Maximal(blocks: seq<Block>) {
    && (forall i :: 0 <= i < |blocks| ==> blocks[i].text != "")
    && (forall i :: 0 < i < |blocks| ==> blocks[i - 1].kind != blocks[i].kind)
  }

  lemma PiecesJoin(kind: BlockKind, a: string, b: string)
    ensures Pieces(kind, a + b) == Pieces(kind, a) + Pieces(kind, b)
  {}

  lemma FlatSnoc(blocks: seq<Block>, b: Block)
    ensures Flat(blocks + [b]) == Flat(blocks) + Pieces(b.kind, b.text)
  {
    assert (blocks + [b])[..|blocks|] == blocks;
  }

  lemma FlatExtend(blocks: seq<Block>, f: Fragment)
    ensures Flat(Extend(blocks, f)) == Flat(blocks) + Pieces(f.kind, f.text)
  {
    var n := |blocks|;
    if n > 0 && blocks[n - 1].kind == f.kind {
      FlatSnoc(blocks[..n - 1], Block(f.kind, blocks[n - 1].text + f.text));
      PiecesJoin(f.kind, blocks[n - 1].text, f.text);
    } else {
      FlatSnoc(blocks, Block(f.kind, f.text));
    }
  }

  lemma ExtendKeepsMaximal(blocks: seq<Block>, f: Fragment)
    requires Maximal(blocks) && f.text != ""
    ensures Maximal(Extend(blocks, f)) && Extend(blocks, f) != []
  {}

  /** Merging keeps every character, in order, and leaves nothing to merge. */
  lemma {:induction false} MergeIsFaithful(fs: seq<Fragment>)
    requires forall i :: 0 <= i < |fs| ==> fs[i].text != ""
    ensures Flat(Merge(fs)) == FragmentItems(fs)
    ensures Maximal(Merge(fs))
    ensures fs != [] ==> Merge(fs) != []
  {
    if fs != [] {
      var shorter, f := fs[..|fs| - 1], fs[|fs| - 1];
      assert f.text != "";
      MergeIsFaithful(shorter);
      FlatExtend(Merge(shorter), f);
      ExtendKeepsMaximal(Merge(shorter), f);
    }
  }

  lemma FlatNonempty(blocks: seq<Block>)
    requires Maximal(blocks) && blocks != []
    ensures Flat(blocks) != []
  {}

  lemma LastPiece(blocks: seq<Block>, k: nat)
    requires Maximal(blocks) && blocks != []
    requires k < |blocks[|blocks| - 1].text|
    ensures |Flat(blocks)| > k
    ensures Flat(blocks)[|Flat(blocks)| - 1 - k].Piece?
    ensures Flat(blocks)[|Flat(blocks)| - 1 - k].kind == blocks[|blocks| - 1].kind
  {}

  /** The piece just before the last block, when there is one, is of the other kind. */
  lemma BeforeLastBlock(blocks: seq<Block>)
    requires Maximal(blocks) && |blocks| >= 2
    ensures var n := |blocks[|blocks| - 1].text|;
            && |Flat(blocks)| > n && Flat(blocks)[|Flat(blocks)| - 1 - n].Piece?
            && Flat(blocks)[|Flat(blocks)| - 1 - n].kind != blocks[|blocks| - 1].kind
  {
    LastPiece(blocks[..|blocks| - 1], 0);
  }

  lemma LastBlocksAgree(a: seq<Block>, b: seq<Block>)
    requires Maximal(a) && Maximal(b) && a != [] && b != [] && Flat(a) == Flat(b)
    ensures |a[|a| - 1].text| >= |b[|b| - 1].text|
    ensures a[|a| - 1].kind == b[|b| - 1].kind
  {
    LastPiece(a, 0);
    LastPiece(b, 0);
    var n := |a[|a| - 1].text|;
    if n < |b[|b| - 1].text| {
      LastPiece(b, n);
      if |a| >= 2 {
        BeforeLastBlock(a);
      } else {
        assert a[..|a| - 1] == [];
      }
    }
  }

  /** There is only one way to cut a text into maximal same-kind blocks, so
      "these characters, maximally merged" describes a run entry completely. */
  lemma {:induction false} MergedFormIsUnique(a: seq<Block>, b: seq<Block>)
    requires Maximal(a) && Maximal(b) && Flat(a) == Flat(b)
    ensures a == b
  {
    if a == [] {
      if b != [] { FlatNonempty(b); }
    } else if b == [] {
      FlatNonempty(a);
    } else {
      LastBlocksAgree(a, b);
      LastBlocksAgree(b, a);
      var x, y := a[|a| - 1], b[|b| - 1];
      var a', b' := a[..|a| - 1], b[..|b| - 1];
      assert Flat(a) == Flat(a') + Pieces(x.kind, x.text);
      assert Flat(b) == Flat(b') + Pieces(y.kind, y.text);
      assert |Flat(a')| == |Flat(b')|;
      assert Flat(a') == Flat(a)[..|Flat(a')|] == Flat(b)[..|Flat(b')|] == Flat(b');
      assert Pieces(x.kind, x.text) == Flat(a)[|Flat(a')|..] == Pieces(y.kind, y.text);
      forall i | 0 <= i < |x.text| ensures x.text[i] == y.text[i] {
        assert Pieces(x.kind, x.text)[i] == Pieces(y.kind, y.text)[i];
      }
      assert x.text == y.text;
      MergedFormIsUnique(a', b');
      assert a == a' + [x] && b == b' + [y];
    }
  }
}
