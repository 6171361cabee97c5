/**
 * Guests in a room: the tier gate judges each write against the baseline of the room,
 * and what it accepts becomes the newest write, of which the room sees a wire copy.
 *
 * The room keeps scenes as text. `parse` is what JSON parsing makes of a text, and
 * `strip` removes the embedded files of a stored one, which leaves its elements alone.
 */
module CanvasGuests {
  import opened Wrappers
  import opened CanvasRoom
  import opened CanvasSanitize
  import opened CanvasTier

  type Parser = string -> Scene

  /** What the gate reads off a text. */
  function Sign(parse: Parser, text: string): Signing {
    BaseSignature(parse(text))
  }

  ghost predicate StripKeepsElements(parse: Parser, strip: string -> string) {
    forall text :: Sign(parse, strip(text)) == Sign(parse, text)
  }

  /** The newest scene of a canvas that has been written to. */
  ghost function NewestScene(b: Broker, canvas: string): string
    requires Newest(b.written, canvas).Some?
  {
    b.written[Newest(b.written, canvas).value].scene
  }

  /** What the gate measures against agrees with the newest scene. */
  ghost predicate BaseAgrees(parse: Parser, strip: string -> string, b: Broker, canvas: string) {
    Newest(b.written, canvas).Some?
    && Sign(parse, BaselineScene(b, strip, canvas)) == Sign(parse, NewestScene(b, canvas))
  }

  /** A comment guest's write that the gate accepts: it is the sanitized proposal. */
  ghost predicate CommentWrite(parse: Parser, strip: string -> string, b: Broker, w: Write) {
    exists next :: Enforced(parse(BaselineScene(b, strip, w.canvas)), next, Comment) == Accepted(parse(w.scene))
  }

  /** The broadcast copy signs as the scene does: no base image was dropped from it. */
  predicate WireKeepsBase(parse: Parser, w: Write) {
    Sign(parse, w.wire) == Sign(parse, w.scene)
  }

  /** An accepted comment write signs as the baseline of the room, whatever that is. */
  lemma CommentSignsAsBaseline(parse: Parser, strip: string -> string, b: Broker, w: Write)
    requires CommentWrite(parse, strip, b, w)
    ensures Sign(parse, w.scene) == Sign(parse, BaselineScene(b, strip, w.canvas))
    ensures Sign(parse, w.scene).Signed?
  {
    hide Signature, Base, Sanitized, BaselineScene;
  }

  /** A comment write keeps the signature of the newest scene if and only if the
      baseline agreed with that scene before the write. */
  lemma CommentKeepsNewestExactly(parse: Parser, strip: string -> string, b: Broker, w: Write)
    requires Newest(b.written, w.canvas).Some? && CommentWrite(parse, strip, b, w)
    ensures Sign(parse, w.scene) == Sign(parse, NewestScene(b, w.canvas)) <==> BaseAgrees(parse, strip, b, w.canvas)
  {
    hide BaseSignature, BaselineScene, CommentWrite;
    CommentSignsAsBaseline(parse, strip, b, w);
  }

  // ---------- when the baseline agrees ----------

  /** In a room with a live scene the baseline agrees exactly when the broadcast copy
      of the newest write lost nothing of the base. Without one, it agrees when nothing
      is pending, and otherwise exactly when what was saved last (or was there before)
      signs as the newest scene does. */
  lemma BaselineAgreesExactly(parse: Parser, strip: string -> string, disk0: map<string, string>, trace: seq<Event>,
                              canvas: string)
    requires StripKeepsElements(parse, strip)
    requires Newest(Run(disk0, trace).written, canvas).Some?
    ensures var b := Run(disk0, trace);
            var newest := b.written[Newest(b.written, canvas).value];
            BaseAgrees(parse, strip, b, canvas) <==>
              if canvas in b.latestScene then WireKeepsBase(parse, newest)
              else canvas !in b.timers
                   || Sign(parse, if canvas in b.disk then b.disk[canvas] else BLANK_SCENE) == Sign(parse, newest.scene)
  {
    hide BaseSignature, Newest, LastSaved;
    RunIsGood(disk0, trace);
    assert CanvasGood(disk0, Run(disk0, trace), canvas);
  }

  // ---------- runs ----------

  /** Does the event write to the canvas? */
  predicate WritesTo(b: Broker, e: Event, canvas: string) {
    (e.Put? && e.w.canvas == canvas)
    || (e.Delta? && e.w.canvas == canvas && e.allowed && Member(b, canvas, e.peer))
  }

  /** What the event writes to the canvas, if anything, is an accepted comment whose
      broadcast copy kept the base. */
  ghost predicate GuestEvent(parse: Parser, strip: string -> string, b: Broker, e: Event, canvas: string) {
    WritesTo(b, e, canvas) ==> CommentWrite(parse, strip, b, e.w) && WireKeepsBase(parse, e.w)
  }

  /** Does the event drop a live scene whose persist is pending? */
  predicate ForgetsUnsaved(b: Broker, e: Event, canvas: string) {
    Empties(b, e, canvas) && canvas in b.latestScene && canvas in b.timers
  }

  lemma WrittenCanvas(b: Broker, e: Event, canvas: string)
    requires WritesTo(b, e, canvas)
    ensures var r := Step(b, e);
            && canvas in r.latestScene && r.latestScene[canvas] == e.w.wire && r.written == b.written + [e.w]
            && e.w.canvas == canvas
  {}

  predicate SameOnDisk(b: Broker, r: Broker, canvas: string) {
    (canvas in r.disk <==> canvas in b.disk) && (canvas in b.disk ==> r.disk[canvas] == b.disk[canvas])
  }

  /** An event that writes nothing to the canvas leaves its baseline alone, unless it
      drops the live scene or saves under a cold one. */
  lemma UnwrittenCanvas(b: Broker, e: Event, canvas: string)
    requires !WritesTo(b, e, canvas) && TimersMatch(b)
    ensures var r := Step(b, e);
            && Newest(r.written, canvas) == Newest(b.written, canvas) && b.written <= r.written
            && (canvas in r.latestScene ==> canvas in b.latestScene && r.latestScene[canvas] == b.latestScene[canvas])
            && (canvas in b.latestScene && canvas !in r.latestScene ==> Empties(b, e, canvas))
            && (canvas in r.timers || canvas !in b.timers ==> SameOnDisk(b, r, canvas))
            && (e.LeaveRoom? ==> r.timers == b.timers)
  {
    hide Newest, ApplySceneWrite, FireTimer, TimersMatch;
    match e
    case JoinRoom(_, _) =>
    case LeaveRoom(_, _) =>
    case Fire(token) => FireOnCanvas(b, token, canvas);
    case Delta(peer, allowed, w) =>
      if Member(b, w.canvas, peer) && allowed { WriteElsewhere(b, b, w, Debounced, canvas); }
    case Put(w) =>
      var saved := Save(b, w.canvas, w.scene, |b.written|);
      SameTimers(b, saved);
      WriteElsewhere(b, saved, w, AlreadySaved, canvas);
  }

  lemma FireOnCanvas(b: Broker, token: nat, canvas: string)
    requires TimersMatch(b)
    ensures var r := FireTimer(b, token);
            && r.written == b.written && r.latestScene == b.latestScene && r.rooms == b.rooms
            && (canvas in r.timers || canvas !in b.timers ==> SameOnDisk(b, r, canvas))
  {}

  lemma WriteElsewhere(b: Broker, saved: Broker, w: Write, mode: PersistMode, canvas: string)
    requires w.canvas != canvas && TimersMatch(b) && TimersMatch(saved)
    requires saved.timers == b.timers && saved.written == b.written && saved.latestScene == b.latestScene
    requires SameOnDisk(b, saved, canvas)
    ensures var r := ApplySceneWrite(saved, w, mode);
            && Newest(r.written, canvas) == Newest(b.written, canvas) && b.written <= r.written
            && (canvas in r.latestScene <==> canvas in b.latestScene)
            && (canvas in b.latestScene ==> r.latestScene[canvas] == b.latestScene[canvas])
            && SameOnDisk(b, r, canvas)
  {
    hide Newest, ApplySceneWrite, TimersMatch;
    NewestSnoc(b.written, w, canvas);
    Published(saved, w, mode);
  }

  lemma ColdAndSettled(parse: Parser, strip: string -> string, disk0: map<string, string>, b: Broker, canvas: string)
    requires StripKeepsElements(parse, strip) && Good(disk0, b)
    requires canvas !in b.latestScene && canvas !in b.timers && Newest(b.written, canvas).Some?
    ensures BaseAgrees(parse, strip, b, canvas)
  {
    hide BaseSignature, Newest, LastSaved;
    assert CanvasGood(disk0, b, canvas);
  }

  /** One event of a room whose baseline agrees with its newest scene. */
  lemma GuestStep(parse: Parser, strip: string -> string, disk0: map<string, string>, b: Broker, e: Event, canvas: string)
    requires StripKeepsElements(parse, strip) && Good(disk0, b) && BaseAgrees(parse, strip, b, canvas)
    requires GuestEvent(parse, strip, b, e, canvas) && !ForgetsUnsaved(b, e, canvas)
    ensures BaseAgrees(parse, strip, Step(b, e), canvas)
    ensures Sign(parse, NewestScene(Step(b, e), canvas)) == Sign(parse, NewestScene(b, canvas))
  {
    hide BaseSignature, Newest, Good, Step, CommentWrite, CanvasGood;
    var r := Step(b, e);
    StepKeepsGood(disk0, b, e);
    if WritesTo(b, e, canvas) {
      WrittenCanvas(b, e, canvas);
      NewestSnoc(b.written, e.w, canvas);
      CommentSignsAsBaseline(parse, strip, b, e.w);
    } else {
      assert TimersMatch(b) by { GoodTimers(disk0, b); }
      UnwrittenCanvas(b, e, canvas);
      if canvas !in r.latestScene && canvas !in r.timers {
        ColdAndSettled(parse, strip, disk0, r, canvas);
      }
    }
  }

  lemma GoodTimers(disk0: map<string, string>, b: Broker)
    requires Good(disk0, b)
    ensures TimersMatch(b)
  {}

  ghost predicate GuestRun(parse: Parser, strip: string -> string, disk0: map<string, string>,
                           past: seq<Event>, future: seq<Event>, canvas: string)
  {
    forall k :: 0 <= k < |future| ==>
      GuestEvent(parse, strip, Run(disk0, past + future[..k]), future[k], canvas)
      && !ForgetsUnsaved(Run(disk0, past + future[..k]), future[k], canvas)
  }

  /** Over any run in which the canvas is written to by comment guests only, through
      the socket or the HTTP route, with other canvases, timers, joins and leaves in any
      order: as long as no live scene is dropped with its persist pending and no
      broadcast copy loses a base element, the signature of the newest scene never
      changes, and the gate goes on measuring against it. */
  lemma {:induction false} GuestsKeepNewest(parse: Parser, strip: string -> string, disk0: map<string, string>,
                                            past: seq<Event>, future: seq<Event>, canvas: string)
    requires StripKeepsElements(parse, strip) && BaseAgrees(parse, strip, Run(disk0, past), canvas)
    requires GuestRun(parse, strip, disk0, past, future, canvas)
    ensures var b, r := Run(disk0, past), Run(disk0, past + future);
            BaseAgrees(parse, strip, r, canvas)
            && Sign(parse, NewestScene(r, canvas)) == Sign(parse, NewestScene(b, canvas))
  {
    hide BaseAgrees, Run, Step, GuestEvent, ForgetsUnsaved, Sign;
    if future == [] {
      assert past + future == past;
    } else {
      var before, e := future[..|future| - 1], future[|future| - 1];
      assert forall k :: 0 <= k < |before| ==> before[..k] == future[..k];
      GuestsKeepNewest(parse, strip, disk0, past, before, canvas);
      assert past + future == (past + before) + [e];
      RunSnoc(disk0, past + before, e);
      RunIsGood(disk0, past + before);
      assert future[..|before|] == before;
      AgreesHasNewest(parse, strip, Run(disk0, past), canvas);
      GuestStep(parse, strip, disk0, Run(disk0, past + before), e, canvas);
      AgreesHasNewest(parse, strip, Run(disk0, past + before), canvas);
    }
  }

  lemma AgreesHasNewest(parse: Parser, strip: string -> string, b: Broker, canvas: string)
    requires BaseAgrees(parse, strip, b, canvas)
    ensures Newest(b.written, canvas).Some?
  {}

  /** The same in pairs: with plain ids the (id, version) pairs of the newest base are
      the same as before, as a multiset. */
  lemma GuestsKeepNewestPairs(parse: Parser, strip: string -> string, disk0: map<string, string>,
                              past: seq<Event>, future: seq<Event>, canvas: string)
    requires StripKeepsElements(parse, strip) && BaseAgrees(parse, strip, Run(disk0, past), canvas)
    requires GuestRun(parse, strip, disk0, past, future, canvas)
    requires Newest(Run(disk0, past + future).written, canvas).Some?
    requires Sign(parse, NewestScene(Run(disk0, past), canvas)).Signed?
    requires PlainScene(parse(NewestScene(Run(disk0, past), canvas)))
    requires PlainScene(parse(NewestScene(Run(disk0, past + future), canvas)))
    ensures multiset(Base(Elements(parse(NewestScene(Run(disk0, past + future), canvas)))))
         == multiset(Base(Elements(parse(NewestScene(Run(disk0, past), canvas)))))
  {
    GuestsKeepNewest(parse, strip, disk0, past, future, canvas);
    var before := parse(NewestScene(Run(disk0, past), canvas));
    var after := parse(NewestScene(Run(disk0, past + future), canvas));
    hide Run, NewestScene, Signature, Base, BaseAgrees, GuestRun;
    SignatureIsMultisetEquality(Base(Elements(after)), Base(Elements(before)));
  }

  // ---------- the exact condition ----------

  /** Any base drawn plainly: a scene with these pairs and nothing else. */
  function Redrawn(pairs: seq<Pair>): seq<Element> {
    seq(|pairs|, k requires 0 <= k < |pairs| => Object(pairs[k].id, pairs[k].version, None, NoLink, false))
  }

  lemma {:induction false} RedrawnBase(pairs: seq<Pair>)
    ensures Base(Redrawn(pairs)) == pairs && Clean(Redrawn(pairs)) && NullElement !in Redrawn(pairs)
  {
    hide Base;
    if pairs == [] {
      NoBase();
    } else {
      var before, p := pairs[..|pairs| - 1], pairs[|pairs| - 1];
      RedrawnBase(before);
      var e := Object(p.id, p.version, None, NoLink, false);
      assert Redrawn(pairs) == Redrawn(before) + [e];
      BaseSnoc(Redrawn(before), e);
      assert pairs == before + [p];
    }
  }

  function RedrawnScene(pairs: seq<Pair>): Scene {
    Document(Some(Redrawn(pairs)), "")
  }

  lemma RedrawnIsClean(pairs: seq<Pair>)
    ensures var next := RedrawnScene(pairs);
            && Sanitized(next) == Some(next) && NullElement !in Elements(next) && Base(Elements(next)) == pairs
  {
    RedrawnBase(pairs);
    CleanIsKept(Redrawn(pairs));
    hide Base, Cleaned, Redrawn;
  }

  /** The baseline redrawn is a comment write that the gate accepts. */
  lemma BaselineCanBeRedrawn(prev: Scene)
    requires BaseSignature(prev).Signed?
    ensures var next := RedrawnScene(Base(Elements(prev)));
            Enforced(prev, next, Comment) == Accepted(next) && BaseSignature(next) == BaseSignature(prev)
  {
    hide Base, Signature, Sanitized, Elements, Redrawn;
    RedrawnIsClean(Base(Elements(prev)));
  }

  /** JSON text gives back the document it was made of. */
  ghost predicate Prints(parse: Parser, text: Scene -> string) {
    forall scene: Scene :: scene.Document? ==> parse(text(scene)) == scene
  }

  /** In any state, every comment write that the gate can accept keeps the signature of
      the newest scene if and only if the baseline agrees with that scene, or cannot be
      read at all. */
  lemma GateGuardsNewestExactly(parse: Parser, text: Scene -> string, strip: string -> string, b: Broker, canvas: string)
    requires Prints(parse, text) && Newest(b.written, canvas).Some?
    ensures (forall w: Write :: w.canvas == canvas && CommentWrite(parse, strip, b, w) ==>
               Sign(parse, w.scene) == Sign(parse, NewestScene(b, canvas)))
       <==> BaseAgrees(parse, strip, b, canvas) || !Sign(parse, BaselineScene(b, strip, canvas)).Signed?
  {
    hide BaseSignature, BaselineScene, CommentWrite, NewestScene, Enforced;
    var baseline := parse(BaselineScene(b, strip, canvas));
    if BaseAgrees(parse, strip, b, canvas) || !BaseSignature(baseline).Signed? {
      forall w: Write | w.canvas == canvas && CommentWrite(parse, strip, b, w)
        ensures Sign(parse, w.scene) == Sign(parse, NewestScene(b, canvas))
      {
        CommentSignsAsBaseline(parse, strip, b, w);
      }
    } else {
      var next := RedrawnScene(Base(Elements(baseline)));
      BaselineCanBeRedrawn(baseline);
      var w := Write(canvas, text(next), text(next));
      AcceptedIsCommentWrite(parse, strip, b, w, next);
      assert Sign(parse, w.scene) == Sign(parse, BaselineScene(b, strip, canvas));
    }
  }

  lemma AcceptedIsCommentWrite(parse: Parser, strip: string -> string, b: Broker, w: Write, next: Scene)
    requires Enforced(parse(BaselineScene(b, strip, w.canvas)), next, Comment) == Accepted(parse(w.scene))
    ensures CommentWrite(parse, strip, b, w)
  {}

  // ---------- where it fails ----------

  lemma BlankAndDrawnDiffer(p: Pair, kind: Option<string>)
    requires !Forbidden(kind)
    ensures var blank := Document(Some([]), "");
            && BaseSignature(Drawn(p, kind)) != BaseSignature(blank)
            && Enforced(blank, blank, Comment) == Accepted(blank)
  {
    DrawnBase(p, kind);
    NoBase();
    SingleSignature(p);
    EmptySignature([]);
    EmptySignature([p]);
    CleanIsKept([]);
    hide Signature, Base, Cleaned, Drawn;
  }

  /** The broker once the owner has joined a new room and drawn. */
  function Drew(w: Write): Broker {
    Broker(map["c" := {"o"}], map["c" := w.wire], map["c" := 0], map[0 := Fuse("c", w.scene, 0)], 1, map[], [w], [])
  }

  /** The same when the owner has left and a guest has joined. */
  function LeftToGuest(w: Write): Broker {
    Drew(w).(rooms := map["c" := {"g"}], latestScene := map[])
  }

  lemma FirstToJoin(b: Broker, canvas: string, peer: string)
    requires canvas !in b.rooms
    ensures Join(b, canvas, peer) == b.(rooms := b.rooms[canvas := {peer}])
  {
    assert {} + {peer} == {peer};
  }

  lemma OwnerDraws(w: Write)
    requires w.canvas == "c"
    ensures Run(map[], [JoinRoom("c", "o"), Delta("o", true, w)]) == Drew(w)
  {
    var e0, e1 := JoinRoom("c", "o"), Delta("o", true, w);
    assert [e0][..0] == [] && [e0, e1][..1] == [e0];
    FirstToJoin(Start(map[]), "c", "o");
    assert Run(map[], []) == Start(map[]);
    var b := Run(map[], [e0]);
    assert b == Broker(map["c" := {"o"}], map[], map[], map[], 0, map[], [], []);
    assert CancelPersist(b, "c") == b;
  }

  lemma GuestFollows(w: Write)
    requires w.canvas == "c"
    ensures Run(map[], [JoinRoom("c", "o"), Delta("o", true, w), LeaveRoom("c", "o"), JoinRoom("c", "g")]) == LeftToGuest(w)
  {
    var e0, e1, e2, e3 := JoinRoom("c", "o"), Delta("o", true, w), LeaveRoom("c", "o"), JoinRoom("c", "g");
    OwnerDraws(w);
    assert [e0, e1] + [e2] == [e0, e1, e2] && [e0, e1, e2] + [e3] == [e0, e1, e2, e3];
    RunSnoc(map[], [e0, e1], e2);
    RunSnoc(map[], [e0, e1, e2], e3);
    hide Run;
    var left := RemovePeer(Drew(w), "c", "o");
    assert {"o"} - {"o"} == {};
    assert Drew(w).rooms - {"c"} == map[] && Drew(w).latestScene - {"c"} == map[];
    assert left == Drew(w).(rooms := map[], latestScene := map[]);
    FirstToJoin(left, "c", "g");
  }

  lemma OneWriteIsNewest(b: Broker, w: Write)
    requires b.written == [w]
    ensures Newest(b.written, w.canvas) == Some(0) && NewestScene(b, w.canvas) == w.scene
  {
    NewestSnoc([], w, w.canvas);
    assert [] + [w] == [w];
  }

  /** A base image whose bytes were never uploaded is dropped from the broadcast copy:
      the guest, who never saw it, may write a scene without it. */
  lemma DroppedImageIsLost(parse: Parser, strip: string -> string)
    requires parse("full") == Drawn(Pair("i", "1"), Some("image")) && parse("lean") == Document(Some([]), "")
    ensures var b := Run(map[], [JoinRoom("c", "o"), Delta("o", true, Write("c", "full", "lean"))]);
            var w := Write("c", "lean", "lean");
            && Newest(b.written, "c").Some? && NewestScene(b, "c") == "full"
            && CommentWrite(parse, strip, b, w) && Sign(parse, w.scene) != Sign(parse, NewestScene(b, "c"))
  {
    hide Run, Enforced, BaseSignature, Newest, NewestScene, CommentWrite, Drawn;
    var drawing := Write("c", "full", "lean");
    OwnerDraws(drawing);
    OneWriteIsNewest(Drew(drawing), drawing);
    BlankAndDrawnDiffer(Pair("i", "1"), Some("image"));
    AcceptedIsCommentWrite(parse, strip, Drew(drawing), Write("c", "lean", "lean"), Document(Some([]), ""));
  }

  lemma GuestComments(w: Write, comment: Write)
    requires comment.canvas == "c"
    ensures var r := SceneDelta(LeftToGuest(w), "g", true, comment);
            r.fuses == map[1 := Fuse("c", comment.scene, 1)] && r.disk == map[]
  {
    assert CancelPersist(LeftToGuest(w), "c").fuses == map[];
  }

  /** The owner draws and leaves; before the timer fires a guest joins and comments on
      the blank scene, and the drawing is gone: its persist is cancelled by the write. */
  lemma UnsavedDrawingIsLost(parse: Parser, strip: string -> string)
    requires parse("new") == Drawn(Pair("a", "1"), None) && parse(BLANK_SCENE) == Document(Some([]), "")
    ensures var drawing, comment := Write("c", "new", "new"), Write("c", BLANK_SCENE, BLANK_SCENE);
            var b := Run(map[], [JoinRoom("c", "o"), Delta("o", true, drawing), LeaveRoom("c", "o"), JoinRoom("c", "g")]);
            var r := SceneDelta(b, "g", true, comment);
            && Newest(b.written, "c").Some? && NewestScene(b, "c") == "new" && CommentWrite(parse, strip, b, comment)
            && Sign(parse, comment.scene) != Sign(parse, NewestScene(b, "c"))
            && r.fuses == map[1 := Fuse("c", BLANK_SCENE, 1)] && r.disk == map[]
  {
    hide Run, Enforced, BaseSignature, Newest, NewestScene, CommentWrite, Drawn, SceneDelta;
    var drawing, comment := Write("c", "new", "new"), Write("c", BLANK_SCENE, BLANK_SCENE);
    GuestFollows(drawing);
    OneWriteIsNewest(LeftToGuest(drawing), drawing);
    GuestComments(drawing, comment);
    BlankAndDrawnDiffer(Pair("a", "1"), None);
    AcceptedIsCommentWrite(parse, strip, LeftToGuest(drawing), comment, Document(Some([]), ""));
  }
}
