/**
 * Canvas scene writes: live rooms, the write-behind timers and the disk.
 *
 * Timers are tokens. `timers` is what the program remembers; `fuses` is what the
 * event loop still has armed. Every accepted scene write is numbered by its place
 * in `written`, so that "an older scene" has a meaning.
 */
module CanvasRoom {
  import opened Wrappers

  /** An accepted scene, and the lean copy that was broadcast for it. */
  datatype Write = Write(canvas: string, scene: string, wire: string)

  /** An armed timeout: it will save `scene`, which was write number `write`. */
  datatype Fuse = Fuse(canvas: string, scene: string, write: nat)

  datatype Saved = Saved(canvas: string, write: nat)

  datatype Broker = Broker(
    rooms: map<string, set<string>>, latestScene: map<string, string>,
    timers: map<string, nat>, fuses: map<nat, Fuse>, nextToken: nat,
    disk: map<string, string>,
    written: seq<Write>, saves: seq<Saved>)

  function Start(disk: map<string, string>): Broker {
    Broker(map[], map[], map[], map[], 0, disk, [], [])
  }

  // ---------- the operations ----------

  function CancelPersist(b: Broker, canvas: string): Broker {
    if canvas !in b.timers then b
    else b.(fuses := b.fuses - {b.timers[canvas]}, timers := b.timers - {canvas})
  }

  function SchedulePersist(b: Broker, canvas: string, scene: string, write: nat): Broker {
    b.(timers := b.timers[canvas := b.nextToken],
       fuses := b.fuses[b.nextToken := Fuse(canvas, scene, write)],
       nextToken := b.nextToken + 1)
  }

  function Save(b: Broker, canvas: string, scene: string, write: nat): Broker {
    b.(disk := b.disk[canvas := scene], saves := b.saves + [Saved(canvas, write)])
  }

  datatype PersistMode = Debounced | AlreadySaved

  function ApplySceneWrite(b: Broker, w: Write, mode: PersistMode): Broker {
    var cancelled := CancelPersist(b, w.canvas);
    var armed := if mode.Debounced? then SchedulePersist(cancelled, w.canvas, w.scene, |b.written|) else cancelled;
    armed.(latestScene := armed.latestScene[w.canvas := w.wire], written := armed.written + [w])
  }

  predicate Member(b: Broker, canvas: string, peer: string) {
    canvas in b.rooms && peer in b.rooms[canvas]
  }

  /** A scene delta over the socket; one from a stranger to the room is dropped, and
      so is one that the tier gate does not allow. */
  function SceneDelta(b: Broker, peer: string, allowed: bool, w: Write): Broker {
    if Member(b, w.canvas, peer) && allowed then ApplySceneWrite(b, w, Debounced) else b
  }

  /** The HTTP route: durable first, then published. */
  function PutScene(b: Broker, w: Write): Broker {
    ApplySceneWrite(Save(b, w.canvas, w.scene, |b.written|), w, AlreadySaved)
  }

  function FireTimer(b: Broker, token: nat): Broker {
    if token !in b.fuses then b
    else
      var f := b.fuses[token];
      Save(b.(fuses := b.fuses - {token}, timers := b.timers - {f.canvas}), f.canvas, f.scene, f.write)
  }

  function Join(b: Broker, canvas: string, peer: string): Broker {
    b.(rooms := b.rooms[canvas := (if canvas in b.rooms then b.rooms[canvas] else {}) + {peer}])
  }

  /** The last peer out takes the live scene with it. */
  function RemovePeer(b: Broker, canvas: string, peer: string): Broker {
    if !Member(b, canvas, peer) then b
    else
      var left := b.rooms[canvas] - {peer};
      if left == {} then b.(rooms := b.rooms - {canvas}, latestScene := b.latestScene - {canvas})
      else b.(rooms := b.rooms[canvas := left])
  }

  const BLANK_SCENE := "{\"type\":\"excalidraw\",\"elements\":[],\"appState\":{}}"

  /** The scene a tier check measures against. */
  function BaselineScene(b: Broker, strip: string -> string, canvas: string): string {
    if canvas in b.latestScene then b.latestScene[canvas] else StoredScene(b.disk, strip, canvas)
  }

  function StoredScene(disk: map<string, string>, strip: string -> string, canvas: string): string {
    if canvas in disk then strip(disk[canvas]) else BLANK_SCENE
  }

  datatype Event =
    | JoinRoom(canvas: string, peer: string)
    | LeaveRoom(canvas: string, peer: string)
    | Delta(peer: string, allowed: bool, w: Write)
    | Put(w: Write)
    | Fire(token: nat)

  function Step(b: Broker, e: Event): Broker {
    match e
    case JoinRoom(canvas, peer) => Join(b, canvas, peer)
    case LeaveRoom(canvas, peer) => RemovePeer(b, canvas, peer)
    case Delta(peer, allowed, w) => SceneDelta(b, peer, allowed, w)
    case Put(w) => PutScene(b, w)
    case Fire(token) => FireTimer(b, token)
  }

  function Run(disk: map<string, string>, trace: seq<Event>): Broker {
    if trace == [] then Start(disk) else Step(Run(disk, trace[..|trace| - 1]), trace[|trace| - 1])
  }

  // ---------- the newest write, and the newest save ----------

  /** The number of the newest write to a canvas. */
  function Newest(written: seq<Write>, canvas: string): (r: Option<nat>)
    ensures r.Some? ==> r.value < |written| && written[r.value].canvas == canvas
    ensures forall k :: 0 <= k < |written| && written[k].canvas == canvas ==> r.Some? && k <= r.value
  {
    if written == [] then None
    else if written[|written| - 1].canvas == canvas then Some(|written| - 1)
    else Newest(written[..|written| - 1], canvas)
  }

  /** The number of the write that the newest save of a canvas put on disk. */
  function LastSaved(saves: seq<Saved>, canvas: string): (r: Option<nat>)
    ensures r.Some? ==> Saved(canvas, r.value) in saves
  {
    if saves == [] then None
    else if saves[|saves| - 1].canvas == canvas then Some(saves[|saves| - 1].write)
    else LastSaved(saves[..|saves| - 1], canvas)
  }

  lemma NewestSnoc(written: seq<Write>, w: Write, canvas: string)
    ensures Newest(written + [w], canvas) == if w.canvas == canvas then Some(|written|) else Newest(written, canvas)
  {
    assert (written + [w])[..|written|] == written;
  }

  lemma LastSavedSnoc(saves: seq<Saved>, s: Saved, canvas: string)
    ensures LastSaved(saves + [s], canvas) == if s.canvas == canvas then Some(s.write) else LastSaved(saves, canvas)
  {
    assert (saves + [s])[..|saves|] == saves;
  }

  // ---------- the invariant ----------

  /** Program memory and event loop agree: one armed timeout per canvas. */
  ghost predicate TimersMatch(b: Broker) {
    && (forall c | c in b.timers :: b.timers[c] in b.fuses && b.fuses[b.timers[c]].canvas == c)
    && (forall t | t in b.fuses :: t < b.nextToken && b.fuses[t].canvas in b.timers
                                   && b.timers[b.fuses[t].canvas] == t)
  }

  /** Saves of a canvas go strictly forward in write number. */
  ghost predicate Forward(saves: seq<Saved>, canvas: string) {
    forall i, j :: 0 <= i < j < |saves| && saves[i].canvas == saves[j].canvas == canvas
                   ==> saves[i].write < saves[j].write
  }

  /** Every save of the canvas is of a write below `bound`. */
  ghost predicate SavedBelow(saves: seq<Saved>, canvas: string, bound: nat) {
    forall i :: 0 <= i < |saves| && saves[i].canvas == canvas ==> saves[i].write < bound
  }

  /** A pending persist holds the newest scene, which no save has reached yet. */
  ghost predicate PendingIsNewest(b: Broker, canvas: string)
    requires TimersMatch(b)
  {
    canvas in b.timers ==>
      var f, newest := b.fuses[b.timers[canvas]], Newest(b.written, canvas);
      newest == Some(f.write) && f.scene == b.written[f.write].scene && SavedBelow(b.saves, canvas, f.write)
  }

  /** The disk holds what was saved last, which is the newest when nothing is pending. */
  ghost predicate DiskIsSaved(disk0: map<string, string>, b: Broker, canvas: string) {
    && (canvas !in b.timers ==> LastSaved(b.saves, canvas) == Newest(b.written, canvas))
    && match LastSaved(b.saves, canvas)
       case Some(k) => k < |b.written| && canvas in b.disk && b.disk[canvas] == b.written[k].scene
       case None => (canvas in b.disk <==> canvas in disk0) && (canvas in disk0 ==> b.disk[canvas] == disk0[canvas])
  }

  /** A live scene is the broadcast copy of the newest write. */
  ghost predicate LiveIsNewest(b: Broker, canvas: string) {
    canvas in b.latestScene ==>
      Newest(b.written, canvas).Some? && b.latestScene[canvas] == b.written[Newest(b.written, canvas).value].wire
  }

  ghost predicate CanvasGood(disk0: map<string, string>, b: Broker, canvas: string)
    requires TimersMatch(b)
  {
    && PendingIsNewest(b, canvas) && DiskIsSaved(disk0, b, canvas) && LiveIsNewest(b, canvas)
    && Forward(b.saves, canvas) && SavedBelow(b.saves, canvas, |b.written|)
  }

  ghost predicate Good(disk0: map<string, string>, b: Broker) {
    TimersMatch(b) && forall c :: CanvasGood(disk0, b, c)
  }

  // ---------- what every step keeps ----------

  lemma SaveGoesForward(saves: seq<Saved>, s: Saved, canvas: string)
    requires Forward(saves, canvas) && SavedBelow(saves, s.canvas, s.write)
    ensures Forward(saves + [s], canvas)
  {
  }

  lemma WriteMatchesTimers(b: Broker, w: Write, mode: PersistMode)
    requires TimersMatch(b)
    ensures TimersMatch(ApplySceneWrite(b, w, mode))
    ensures w.canvas in ApplySceneWrite(b, w, mode).timers <==> mode.Debounced?
  {
    hide TimersMatch;
    CancelMatchesTimers(b, w.canvas);
    var cancelled := CancelPersist(b, w.canvas);
    if mode.Debounced? {
      ArmMatchesTimers(cancelled, w.canvas, w.scene, |b.written|);
      SameTimers(SchedulePersist(cancelled, w.canvas, w.scene, |b.written|), ApplySceneWrite(b, w, mode));
    } else {
      SameTimers(cancelled, ApplySceneWrite(b, w, mode));
    }
  }

  lemma SameTimers(b: Broker, r: Broker)
    requires TimersMatch(b) && r.timers == b.timers && r.fuses == b.fuses && r.nextToken == b.nextToken
    ensures TimersMatch(r)
  {
  }

  lemma CancelMatchesTimers(b: Broker, canvas: string)
    requires TimersMatch(b)
    ensures TimersMatch(CancelPersist(b, canvas)) && canvas !in CancelPersist(b, canvas).timers
  {
  }

  lemma ArmMatchesTimers(b: Broker, canvas: string, scene: string, write: nat)
    requires TimersMatch(b) && canvas !in b.timers
    ensures TimersMatch(SchedulePersist(b, canvas, scene, write))
  {
  }

  lemma Published(b: Broker, w: Write, mode: PersistMode)
    ensures var r := ApplySceneWrite(b, w, mode);
            && r.latestScene == b.latestScene[w.canvas := w.wire] && r.written == b.written + [w]
            && r.saves == b.saves && r.disk == b.disk && r.rooms == b.rooms
  {
  }

  /** A step that concerns another canvas. */
  ghost predicate Untouched(b: Broker, r: Broker, canvas: string)
    requires TimersMatch(b) && TimersMatch(r)
  {
    && (canvas in r.timers <==> canvas in b.timers)
    && (canvas in b.timers ==> r.fuses[r.timers[canvas]] == b.fuses[b.timers[canvas]])
    && (canvas in r.disk <==> canvas in b.disk) && (canvas in b.disk ==> r.disk[canvas] == b.disk[canvas])
    && (canvas in r.latestScene ==> canvas in b.latestScene && r.latestScene[canvas] == b.latestScene[canvas])
    && b.written <= r.written && Newest(r.written, canvas) == Newest(b.written, canvas)
    && LastSaved(r.saves, canvas) == LastSaved(b.saves, canvas)
    && (r.saves == b.saves || exists s: Saved :: s.canvas != canvas && r.saves == b.saves + [s])
  }

  lemma UntouchedStaysGood(disk0: map<string, string>, b: Broker, r: Broker, canvas: string)
    requires TimersMatch(b) && TimersMatch(r) && Untouched(b, r, canvas) && CanvasGood(disk0, b, canvas)
    ensures CanvasGood(disk0, r, canvas)
  {
    hide Newest, LastSaved, TimersMatch;
  }

  lemma WrittenCanvasIsGood(disk0: map<string, string>, b: Broker, w: Write)
    requires TimersMatch(b) && TimersMatch(ApplySceneWrite(b, w, Debounced)) && CanvasGood(disk0, b, w.canvas)
    ensures CanvasGood(disk0, ApplySceneWrite(b, w, Debounced), w.canvas)
  {
    NewestSnoc(b.written, w, w.canvas);
    hide Newest, LastSaved, TimersMatch;
  }

  lemma WriteLeavesOthers(b: Broker, w: Write, mode: PersistMode, canvas: string)
    requires TimersMatch(b) && TimersMatch(ApplySceneWrite(b, w, mode)) && canvas != w.canvas
    ensures Untouched(b, ApplySceneWrite(b, w, mode), canvas)
  {
    hide Newest, LastSaved, TimersMatch, ApplySceneWrite;
    NewestSnoc(b.written, w, canvas);
    Published(b, w, mode);
    WriteLeavesOtherTimers(b, w, mode, canvas);
  }

  lemma WriteLeavesOtherTimers(b: Broker, w: Write, mode: PersistMode, canvas: string)
    requires TimersMatch(b) && canvas != w.canvas
    ensures var r := ApplySceneWrite(b, w, mode);
            && (canvas in r.timers <==> canvas in b.timers)
            && (canvas in b.timers ==> r.timers[canvas] == b.timers[canvas] && r.timers[canvas] in r.fuses
                                       && r.fuses[r.timers[canvas]] == b.fuses[b.timers[canvas]])
  {
  }

  lemma WriteKeepsGood(disk0: map<string, string>, b: Broker, w: Write)
    requires Good(disk0, b)
    ensures Good(disk0, ApplySceneWrite(b, w, Debounced))
  {
    hide Newest, LastSaved, CanvasGood, TimersMatch, Untouched, ApplySceneWrite;
    var r := ApplySceneWrite(b, w, Debounced);
    WriteMatchesTimers(b, w, Debounced);
    forall c ensures CanvasGood(disk0, r, c) {
      assert CanvasGood(disk0, b, c);
      if c == w.canvas {
        WrittenCanvasIsGood(disk0, b, w);
      } else {
        WriteLeavesOthers(b, w, Debounced, c);
        UntouchedStaysGood(disk0, b, r, c);
      }
    }
  }

  lemma SaveLeavesOthers(b: Broker, canvas: string, scene: string, write: nat, other: string)
    requires TimersMatch(b) && other != canvas
    ensures TimersMatch(Save(b, canvas, scene, write)) && Untouched(b, Save(b, canvas, scene, write), other)
  {
    LastSavedSnoc(b.saves, Saved(canvas, write), other);
    hide Newest, LastSaved;
  }

  lemma SaveFields(b: Broker, canvas: string, scene: string, write: nat)
    ensures var r := Save(b, canvas, scene, write);
            && r.timers == b.timers && r.fuses == b.fuses && r.nextToken == b.nextToken && r.written == b.written
  {
  }

  lemma PutCanvasIsGood(disk0: map<string, string>, b: Broker, w: Write)
    requires TimersMatch(b) && TimersMatch(PutScene(b, w)) && CanvasGood(disk0, b, w.canvas)
    requires w.canvas !in PutScene(b, w).timers
    ensures CanvasGood(disk0, PutScene(b, w), w.canvas)
  {
    hide Newest, LastSaved, TimersMatch, ApplySceneWrite;
    Published(Save(b, w.canvas, w.scene, |b.written|), w, AlreadySaved);
    NewestSnoc(b.written, w, w.canvas);
    LastSavedSnoc(b.saves, Saved(w.canvas, |b.written|), w.canvas);
    SaveGoesForward(b.saves, Saved(w.canvas, |b.written|), w.canvas);
  }

  lemma PutKeepsGood(disk0: map<string, string>, b: Broker, w: Write)
    requires Good(disk0, b)
    ensures Good(disk0, PutScene(b, w))
  {
    hide Newest, LastSaved, CanvasGood, TimersMatch, Untouched, ApplySceneWrite, Save;
    var saved := Save(b, w.canvas, w.scene, |b.written|);
    var r := PutScene(b, w);
    SaveFields(b, w.canvas, w.scene, |b.written|);
    SameTimers(b, saved);
    WriteMatchesTimers(saved, w, AlreadySaved);
    forall c ensures CanvasGood(disk0, r, c) {
      assert CanvasGood(disk0, b, c);
      if c == w.canvas {
        PutCanvasIsGood(disk0, b, w);
      } else {
        SaveLeavesOthers(b, w.canvas, w.scene, |b.written|, c);
        UntouchedStaysGood(disk0, b, saved, c);
        WriteLeavesOthers(saved, w, AlreadySaved, c);
        UntouchedStaysGood(disk0, saved, r, c);
      }
    }
  }

  lemma FiredCanvasIsGood(disk0: map<string, string>, b: Broker, token: nat)
    requires TimersMatch(b) && token in b.fuses && CanvasGood(disk0, b, b.fuses[token].canvas)
    ensures TimersMatch(FireTimer(b, token)) && CanvasGood(disk0, FireTimer(b, token), b.fuses[token].canvas)
  {
    var f := b.fuses[token];
    LastSavedSnoc(b.saves, Saved(f.canvas, f.write), f.canvas);
    SaveGoesForward(b.saves, Saved(f.canvas, f.write), f.canvas);
    hide Newest, LastSaved;
  }

  lemma FireLeavesOthers(b: Broker, token: nat, canvas: string)
    requires TimersMatch(b) && token in b.fuses && canvas != b.fuses[token].canvas
    requires TimersMatch(FireTimer(b, token))
    ensures Untouched(b, FireTimer(b, token), canvas)
  {
    var f := b.fuses[token];
    LastSavedSnoc(b.saves, Saved(f.canvas, f.write), canvas);
    hide Newest, LastSaved;
  }

  lemma FireKeepsGood(disk0: map<string, string>, b: Broker, token: nat)
    requires Good(disk0, b)
    ensures Good(disk0, FireTimer(b, token))
  {
    hide Newest, LastSaved, CanvasGood, TimersMatch, Untouched;
    if token in b.fuses {
      var r := FireTimer(b, token);
      assert CanvasGood(disk0, b, b.fuses[token].canvas);
      FiredCanvasIsGood(disk0, b, token);
      forall c ensures CanvasGood(disk0, r, c) {
        assert CanvasGood(disk0, b, c);
        if c != b.fuses[token].canvas {
          FireLeavesOthers(b, token, c);
          UntouchedStaysGood(disk0, b, r, c);
        }
      }
    }
  }

  lemma MembershipKeepsGood(disk0: map<string, string>, b: Broker, r: Broker)
    requires Good(disk0, b)
    requires r.(rooms := b.rooms, latestScene := b.latestScene) == b
    requires forall c | c in r.latestScene :: c in b.latestScene && r.latestScene[c] == b.latestScene[c]
    ensures Good(disk0, r)
  {
    hide Newest, LastSaved;
    forall c ensures CanvasGood(disk0, r, c) {
      assert CanvasGood(disk0, b, c);
    }
  }

  lemma StepKeepsGood(disk0: map<string, string>, b: Broker, e: Event)
    requires Good(disk0, b)
    ensures Good(disk0, Step(b, e))
  {
    hide Good;
    match e
    case JoinRoom(canvas, peer) => MembershipKeepsGood(disk0, b, Join(b, canvas, peer));
    case LeaveRoom(canvas, peer) => MembershipKeepsGood(disk0, b, RemovePeer(b, canvas, peer));
    case Delta(_, _, w) => WriteKeepsGood(disk0, b, w);
    case Put(w) => PutKeepsGood(disk0, b, w);
    case Fire(token) => FireKeepsGood(disk0, b, token);
  }

  /** The invariant holds after every interleaving of joins, leaves, deltas, saves
      and timer firings, over any number of canvases. */
  lemma {:induction false} RunIsGood(disk0: map<string, string>, trace: seq<Event>)
    ensures Good(disk0, Run(disk0, trace))
  {
    if trace != [] {
      RunIsGood(disk0, trace[..|trace| - 1]);
      StepKeepsGood(disk0, Run(disk0, trace[..|trace| - 1]), trace[|trace| - 1]);
    }
  }

  // ---------- what it means ----------

  /** At most one persist is pending per canvas, and it holds the newest scene. */
  lemma OnePersistPerCanvas(disk0: map<string, string>, trace: seq<Event>, t: nat, u: nat)
    requires t in Run(disk0, trace).fuses && u in Run(disk0, trace).fuses
    requires Run(disk0, trace).fuses[t].canvas == Run(disk0, trace).fuses[u].canvas
    ensures t == u
    ensures var b := Run(disk0, trace); var f := b.fuses[t];
            Newest(b.written, f.canvas) == Some(f.write) && b.written[f.write].scene == f.scene
  {
    RunIsGood(disk0, trace);
    assert CanvasGood(disk0, Run(disk0, trace), Run(disk0, trace).fuses[t].canvas);
  }

  /** The disk is never overwritten by an older scene: the saves of a canvas go
      strictly forward, and the disk holds the last of them. */
  lemma DiskOnlyMovesForward(disk0: map<string, string>, trace: seq<Event>, canvas: string)
    ensures var b := Run(disk0, trace);
            && (forall i, j :: 0 <= i < j < |b.saves| && b.saves[i].canvas == b.saves[j].canvas == canvas
                               ==> b.saves[i].write < b.saves[j].write < |b.written|)
            && match LastSaved(b.saves, canvas)
               case Some(k) => k < |b.written| && canvas in b.disk && b.disk[canvas] == b.written[k].scene
               case None => (canvas in b.disk <==> canvas in disk0)
                            && (canvas in disk0 ==> b.disk[canvas] == disk0[canvas])
  {
    RunIsGood(disk0, trace);
    assert CanvasGood(disk0, Run(disk0, trace), canvas);
  }

  /** The newest write has reached the disk exactly when nothing is pending. */
  lemma DiskIsNewestWhenSettled(disk0: map<string, string>, trace: seq<Event>, canvas: string)
    ensures var b := Run(disk0, trace);
            LastSaved(b.saves, canvas) == Newest(b.written, canvas) <==> canvas !in b.timers
  {
    RunIsGood(disk0, trace);
    var b := Run(disk0, trace);
    assert CanvasGood(disk0, b, canvas);
    if canvas in b.timers && LastSaved(b.saves, canvas).Some? {
      var s := Saved(canvas, LastSaved(b.saves, canvas).value);
      var i :| 0 <= i < |b.saves| && b.saves[i] == s;
    }
  }

  // ---------- what a firing achieves ----------

  /** The newest write of the canvas is what the disk holds, and no save is owed. */
  ghost predicate NewestOnDisk(b: Broker, canvas: string) {
    canvas !in b.timers
    && match Newest(b.written, canvas)
       case Some(k) => canvas in b.disk && b.disk[canvas] == b.written[k].scene && LastSaved(b.saves, canvas) == Some(k)
       case None => LastSaved(b.saves, canvas) == None
  }

  lemma NothingPendingIsOnDisk(disk0: map<string, string>, b: Broker, canvas: string)
    requires Good(disk0, b) && canvas !in b.timers
    ensures NewestOnDisk(b, canvas)
  {
    hide Newest, LastSaved;
    assert CanvasGood(disk0, b, canvas);
  }

  /** A firing timer puts the newest scene of its canvas on disk, and after it nothing
      is pending for that canvas; no other canvas is touched. */
  lemma FiringSaves(disk0: map<string, string>, trace: seq<Event>, token: nat)
    requires token in Run(disk0, trace).fuses
    ensures var b, r := Run(disk0, trace), Run(disk0, trace + [Fire(token)]);
            var canvas := b.fuses[token].canvas;
            && NewestOnDisk(r, canvas) && Newest(r.written, canvas).Some? && r.written == b.written
            && r.fuses == b.fuses - {token} && r.timers == b.timers - {canvas}
            && r.saves == b.saves + [Saved(canvas, Newest(b.written, canvas).value)]
            && (forall c | c in b.disk && c != canvas :: c in r.disk && r.disk[c] == b.disk[c])
  {
    RunIsGood(disk0, trace);
    RunIsGood(disk0, trace + [Fire(token)]);
    RunSnoc(disk0, trace, Fire(token));
    hide Newest, LastSaved, Run;
    var b, r := Run(disk0, trace), Run(disk0, trace + [Fire(token)]);
    assert CanvasGood(disk0, b, b.fuses[token].canvas);
    NothingPendingIsOnDisk(disk0, r, b.fuses[token].canvas);
  }

  /** The firings of some timers, one after the other. */
  function Firings(tokens: seq<nat>): seq<Event> {
    seq(|tokens|, k requires 0 <= k < |tokens| => Fire(tokens[k]))
  }

  lemma {:induction false} FiringsLeave(disk0: map<string, string>, trace: seq<Event>, tokens: seq<nat>)
    ensures var b, r := Run(disk0, trace), Run(disk0, trace + Firings(tokens));
            r.written == b.written && forall t | t in r.fuses :: t in b.fuses && t !in tokens
  {
    if tokens == [] {
      assert trace + Firings(tokens) == trace;
    } else {
      var before, last := tokens[..|tokens| - 1], tokens[|tokens| - 1];
      FiringsLeave(disk0, trace, before);
      hide Run, Newest;
      assert trace + Firings(tokens) == (trace + Firings(before)) + [Fire(last)];
      RunSnoc(disk0, trace + Firings(before), Fire(last));
      hide Firings;
      assert tokens == before + [last];
    }
  }

  /** When every armed timer has fired, in any order, the newest write of every canvas
      is on disk. */
  lemma AllFiredIsAllSaved(disk0: map<string, string>, trace: seq<Event>, tokens: seq<nat>, canvas: string)
    requires forall t | t in Run(disk0, trace).fuses :: t in tokens
    ensures var r := Run(disk0, trace + Firings(tokens));
            r.fuses == map[] && r.written == Run(disk0, trace).written && NewestOnDisk(r, canvas)
  {
    hide Newest, LastSaved, Firings, Run;
    FiringsLeave(disk0, trace, tokens);
    RunIsGood(disk0, trace + Firings(tokens));
    var r := Run(disk0, trace + Firings(tokens));
    assert canvas !in r.timers;
    NothingPendingIsOnDisk(disk0, r, canvas);
  }

  // ---------- who is in a room ----------

  /** The last of a peer's joins and leaves of a room, if any, was a join. */
  predicate Present(trace: seq<Event>, canvas: string, peer: string) {
    trace != [] &&
    match trace[|trace| - 1]
    case JoinRoom(c, p) => (c == canvas && p == peer) || Present(trace[..|trace| - 1], canvas, peer)
    case LeaveRoom(c, p) => !(c == canvas && p == peer) && Present(trace[..|trace| - 1], canvas, peer)
    case _ => Present(trace[..|trace| - 1], canvas, peer)
  }

  lemma StepKeepsRooms(b: Broker, e: Event)
    requires !e.JoinRoom? && !e.LeaveRoom?
    ensures Step(b, e).rooms == b.rooms
  {}

  lemma LeaveRemovesOne(b: Broker, canvas: string, peer: string, other: string)
    requires canvas in b.rooms ==> b.rooms[canvas] != {}
    ensures var r := RemovePeer(b, canvas, peer);
            && (Member(r, canvas, other) <==> Member(b, canvas, other) && other != peer)
            && (canvas in r.rooms ==> r.rooms[canvas] != {})
            && (forall c | c != canvas :: (c in r.rooms <==> c in b.rooms) && (c in b.rooms ==> r.rooms[c] == b.rooms[c]))
  {
    if Member(b, canvas, peer) {
      var left := b.rooms[canvas] - {peer};
      assert other in left <==> other in b.rooms[canvas] && other != peer;
    }
  }

  /** Over any run a peer is in a room exactly when it joined and has not left since,
      whoever else comes and goes; and a room is there exactly when somebody is in it. */
  lemma {:induction false} MembersExactly(disk0: map<string, string>, trace: seq<Event>, canvas: string, peer: string)
    ensures var b := Run(disk0, trace);
            (canvas in b.rooms && peer in b.rooms[canvas]) <==> Present(trace, canvas, peer)
    ensures forall c | c in Run(disk0, trace).rooms :: Run(disk0, trace).rooms[c] != {}
  {
    if trace != [] {
      var before, e := trace[..|trace| - 1], trace[|trace| - 1];
      MembersExactly(disk0, before, canvas, peer);
      var b := Run(disk0, before);
      match e
      case JoinRoom(_, _) =>
      case LeaveRoom(c, p) => LeaveRemovesOne(b, c, p, peer);
      case _ => StepKeepsRooms(b, e);
    }
  }

  /** The writes that the events came to: those over HTTP, and the allowed deltas of
      peers present. */
  function Accepted(trace: seq<Event>): seq<Write> {
    if trace == [] then []
    else
      var before := trace[..|trace| - 1];
      Accepted(before)
      + match trace[|trace| - 1]
        case Put(w) => [w]
        case Delta(peer, allowed, w) => if allowed && Present(before, w.canvas, peer) then [w] else []
        case _ => []
  }

  lemma StepWrites(b: Broker, e: Event)
    ensures Step(b, e).written
         == b.written + match e
                        case Put(w) => [w]
                        case Delta(peer, allowed, w) =>
                          if allowed && w.canvas in b.rooms && peer in b.rooms[w.canvas] then [w] else []
                        case _ => []
  {}

  /** Over any run the scenes written are exactly the accepted ones, in order. */
  lemma {:induction false} WritesAreTheAccepted(disk0: map<string, string>, trace: seq<Event>)
    ensures Run(disk0, trace).written == Accepted(trace)
  {
    hide Step, Present;
    if trace != [] {
      var before, e := trace[..|trace| - 1], trace[|trace| - 1];
      WritesAreTheAccepted(disk0, before);
      StepWrites(Run(disk0, before), e);
      if e.Delta? { MembersExactly(disk0, before, e.w.canvas, e.peer); }
    }
  }

  /** A write over HTTP is on disk at once with nothing pending; an accepted delta waits
      under a timeout of its own and leaves the disk alone; both are what the room sees
      next. A delta that is not accepted changes nothing. */
  lemma WritesLand(disk0: map<string, string>, trace: seq<Event>, e: Event)
    requires e.Put? || e.Delta?
    ensures var b, r, w := Run(disk0, trace), Run(disk0, trace + [e]), e.w;
            if e.Delta? && !(e.allowed && Present(trace, w.canvas, e.peer)) then r == b
            else
              && w.canvas in r.latestScene && r.latestScene[w.canvas] == w.wire
              && if e.Put? then w.canvas !in r.timers && r.disk == b.disk[w.canvas := w.scene]
                 else
                   && w.canvas in r.timers && r.timers[w.canvas] in r.fuses && r.timers[w.canvas] !in b.fuses
                   && r.fuses[r.timers[w.canvas]] == Fuse(w.canvas, w.scene, |b.written|) && r.disk == b.disk
  {
    RunSnoc(disk0, trace, e);
    RunIsGood(disk0, trace);
    if e.Delta? { MembersExactly(disk0, trace, e.w.canvas, e.peer); }
    hide Run, Present, Newest, LastSaved;
  }

  /** The last peer out takes the room and its live scene along. */
  lemma EmptyingDropsScene(b: Broker, canvas: string, peer: string)
    requires canvas in b.rooms && b.rooms[canvas] == {peer}
    ensures var r := Step(b, LeaveRoom(canvas, peer));
            canvas !in r.rooms && canvas !in r.latestScene && r.disk == b.disk && r.fuses == b.fuses
  {
    assert b.rooms[canvas] - {peer} == {};
  }

  // ---------- the baseline of a tier check ----------

  /** Does this event empty the room of the canvas? */
  predicate Empties(b: Broker, e: Event, canvas: string) {
    e.LeaveRoom? && e.canvas == canvas && Member(b, canvas, e.peer) && b.rooms[canvas] == {e.peer}
  }

  ghost predicate NeverEmptied(disk0: map<string, string>, past: seq<Event>, future: seq<Event>, canvas: string) {
    forall k :: 0 <= k < |future| ==> !Empties(Run(disk0, past + future[..k]), future[k], canvas)
  }

  lemma LiveSceneStays(b: Broker, e: Event, canvas: string)
    requires canvas in b.latestScene && !Empties(b, e, canvas)
    ensures canvas in Step(b, e).latestScene
  {
  }

  lemma RunSnoc(disk0: map<string, string>, trace: seq<Event>, e: Event)
    ensures Run(disk0, trace + [e]) == Step(Run(disk0, trace), e)
  {
    assert (trace + [e])[..|trace|] == trace;
  }

  lemma {:induction false} LiveSceneStaysAlong(disk0: map<string, string>, past: seq<Event>, future: seq<Event>, canvas: string)
    requires canvas in Run(disk0, past).latestScene
    requires NeverEmptied(disk0, past, future, canvas)
    ensures canvas in Run(disk0, past + future).latestScene
  {
    hide Run, Step, Empties;
    if future == [] {
      assert past + future == past;
    } else {
      var before, e := future[..|future| - 1], future[|future| - 1];
      assert forall k :: 0 <= k < |before| ==> before[..k] == future[..k];
      LiveSceneStaysAlong(disk0, past, before, canvas);
      assert past + future == (past + before) + [e];
      RunSnoc(disk0, past + before, e);
      assert !Empties(Run(disk0, past + future[..|before|]), future[|before|], canvas);
      LiveSceneStays(Run(disk0, past + before), e, canvas);
    }
  }

  /** As long as the room is not emptied, the baseline is the copy that was broadcast
      for the newest write, wherever the disk lags. */
  lemma BaselineIsLastBroadcast(disk0: map<string, string>, past: seq<Event>, future: seq<Event>,
                                canvas: string, strip: string -> string)
    requires canvas in Run(disk0, past).latestScene
    requires NeverEmptied(disk0, past, future, canvas)
    ensures var b := Run(disk0, past + future);
            Newest(b.written, canvas).Some?
            && BaselineScene(b, strip, canvas) == b.written[Newest(b.written, canvas).value].wire
  {
    LiveSceneStaysAlong(disk0, past, future, canvas);
    RunIsGood(disk0, past + future);
    assert CanvasGood(disk0, Run(disk0, past + future), canvas);
  }

  /** Without a live scene the baseline is the last saved scene, stripped; that is
      the newest write exactly when nothing is pending. */
  lemma ColdBaseline(disk0: map<string, string>, trace: seq<Event>, canvas: string, strip: string -> string)
    requires canvas !in Run(disk0, trace).latestScene
    ensures var b := Run(disk0, trace);
            match LastSaved(b.saves, canvas)
            case Some(k) => k < |b.written| && BaselineScene(b, strip, canvas) == strip(b.written[k].scene)
            case None => BaselineScene(b, strip, canvas)
                         == if canvas in disk0 then strip(disk0[canvas])
                            else "{\"type\":\"excalidraw\",\"elements\":[],\"appState\":{}}"
    ensures var b := Run(disk0, trace);
            LastSaved(b.saves, canvas) == Newest(b.written, canvas) <==> canvas !in b.timers
  {
    DiskOnlyMovesForward(disk0, trace, canvas);
    DiskIsNewestWhenSettled(disk0, trace, canvas);
  }

  /** The documentation says the room, the baseline and the disk can never disagree.
      They can: draw, leave, and until the timer fires the baseline is the old disk. */
  lemma EmptiedRoomForgetsNewestScene(strip: string -> string)
    ensures var trace := [JoinRoom("c", "p"), Delta("p", true, Write("c", "new", "new")), LeaveRoom("c", "p")];
            var b := Run(map[], trace);
            b.written == [Write("c", "new", "new")] && BaselineScene(b, strip, "c") == BLANK_SCENE
  {
    var e0, e1, e2 := JoinRoom("c", "p"), Delta("p", true, Write("c", "new", "new")), LeaveRoom("c", "p");
    assert [e0][..0] == [] && [e0, e1][..1] == [e0] && [e0, e1, e2][..2] == [e0, e1];
    assert Run(map[], [e0]).rooms["c"] == {"p"};
    assert Run(map[], [e0, e1]).rooms["c"] == {"p"};
    assert {"p"} - {"p"} == {};
  }

  // ---------- the module state as an object ----------

  class CanvasBroker {
    var rooms: map<string, set<string>>
    var latestScene: map<string, string>
    var timers: map<string, nat>
    /** The timeouts that the event loop has armed, and its token counter. */
    var fuses: map<nat, Fuse>
    var nextToken: nat
    var disk: map<string, string>
    const strip: string -> string
    ghost const disk0: map<string, string>
    var writes: nat
    ghost var written: seq<Write>
    ghost var saves: seq<Saved>

    ghost function View(): Broker
      reads this
    {
      Broker(rooms, latestScene, timers, fuses, nextToken, disk, written, saves)
    }

    ghost predicate Valid()
      reads this
    {
      Good(disk0, View()) && writes == |written|
    }

    constructor (disk: map<string, string>, strip: string -> string)
      ensures Valid() && View() == Start(disk) && this.strip == strip
    {
      this.disk, disk0, this.strip := disk, disk, strip;
      rooms, latestScene, timers, fuses, nextToken, writes := map[], map[], map[], map[], 0, 0;
      written, saves := [], [];
    }

    method CancelPendingPersist(canvas: string)
      modifies this`timers, this`fuses
      ensures View() == CancelPersist(old(View()), canvas)
    {
      if canvas in timers {
        fuses := fuses - {timers[canvas]};
        timers := timers - {canvas};
      }
    }

    /** Arms a timeout and remembers its token in place of any other. */
    method ScheduleIdleWrite(canvas: string, scene: string, write: nat)
      modifies this`timers, this`fuses, this`nextToken
      ensures View() == SchedulePersist(old(View()), canvas, scene, write)
    {
      fuses := fuses[nextToken := Fuse(canvas, scene, write)];
      timers := timers[canvas := nextToken];
      nextToken := nextToken + 1;
    }

    method SaveCanvasScene(canvas: string, scene: string, write: nat)
      modifies this`disk, this`saves
      ensures View() == Save(old(View()), canvas, scene, write)
    {
      disk := disk[canvas := scene];
      saves := saves + [Saved(canvas, write)];
    }

    /** The chokepoint. Cancelling comes first: a timer armed by an earlier write
        still holds that write's scene. */
    method PublishWrite(w: Write, mode: PersistMode)
      requires writes == |written|
      modifies this
      ensures View() == ApplySceneWrite(old(View()), w, mode) && writes == |written|
    {
      CancelPendingPersist(w.canvas);
      if mode.Debounced? {
        ScheduleIdleWrite(w.canvas, w.scene, writes);
      }
      latestScene := latestScene[w.canvas := w.wire];
      written := written + [w];
      writes := writes + 1;
    }

    method HandleDelta(peer: string, allowed: bool, w: Write)
      requires Valid()
      modifies this
      ensures Valid() && View() == SceneDelta(old(View()), peer, allowed, w)
    {
      StepKeepsGood(disk0, View(), Delta(peer, allowed, w));
      hide Good;
      if w.canvas !in rooms || peer !in rooms[w.canvas] { return; }
      if allowed {
        PublishWrite(w, Debounced);
      }
    }

    method HandlePut(w: Write)
      requires Valid()
      modifies this
      ensures Valid() && View() == PutScene(old(View()), w)
    {
      StepKeepsGood(disk0, View(), Put(w));
      hide Good;
      SaveCanvasScene(w.canvas, w.scene, writes);
      PublishWrite(w, AlreadySaved);
    }

    /** The callback of an armed timeout. */
    method OnTimer(token: nat)
      requires Valid() && token in fuses
      modifies this
      ensures Valid() && View() == FireTimer(old(View()), token)
    {
      StepKeepsGood(disk0, View(), Fire(token));
      hide Good;
      var f := fuses[token];
      fuses := fuses - {token};
      timers := timers - {f.canvas};
      SaveCanvasScene(f.canvas, f.scene, f.write);
    }

    method AddPeer(canvas: string, peer: string)
      requires Valid()
      modifies this`rooms
      ensures Valid() && View() == Join(old(View()), canvas, peer)
    {
      StepKeepsGood(disk0, View(), JoinRoom(canvas, peer));
      hide Good;
      var room := if canvas in rooms then rooms[canvas] else {};
      rooms := rooms[canvas := room + {peer}];
    }

    method DropPeer(canvas: string, peer: string) returns (wasMember: bool)
      requires Valid()
      modifies this`rooms, this`latestScene
      ensures Valid() && View() == RemovePeer(old(View()), canvas, peer)
      ensures wasMember == old(Member(View(), canvas, peer))
    {
      StepKeepsGood(disk0, View(), LeaveRoom(canvas, peer));
      hide Good;
      wasMember := canvas in rooms && peer in rooms[canvas];
      if wasMember {
        rooms := rooms[canvas := rooms[canvas] - {peer}];
        if rooms[canvas] == {} {
          assert rooms - {canvas} == old(rooms) - {canvas};
          rooms := rooms - {canvas};
          latestScene := latestScene - {canvas};
        }
      }
    }

    method Baseline(canvas: string) returns (scene: string)
      ensures scene == BaselineScene(View(), strip, canvas)
    {
      if canvas in latestScene { return latestScene[canvas]; }
      return if canvas in disk then strip(disk[canvas]) else BLANK_SCENE;
    }
  }
}
