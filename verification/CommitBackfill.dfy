/**
 * The worker pool of the commit backfill: asynchronous workers drain one shared
 * cursor and count outcomes in one shared tally.
 *
 * A worker runs from one `await` to the next without interruption, so a step is a
 * worker at the loop head taking the next payload (or finding none), the response
 * to its request coming in, or the body of an error response having been read. Any
 * interleaving of such steps is a run. A payload slot may be empty, which the loop
 * skips without posting.
 *
 * The body of an error response is read for the log only, while at most three
 * failures have been counted; but the read is inside the `try` whose `catch` counts
 * a failure, so a body that cannot be read counts its payload a second time.
 */
module CommitBackfill {
  datatype Outcome = Inserted | Duplicate | Failed

  /** What a request comes to: a status, or an exception. */
  datatype Answer = Status(code: int) | Thrown

  function Classify(a: Answer): Outcome {
    if a == Status(202) then Inserted else if a == Status(200) then Duplicate else Failed
  }

  datatype Tally = Tally(inserted: nat, duplicate: nat, failed: nat)

  function Count(t: Tally, o: Outcome): Tally {
    match o
    case Inserted => t.(inserted := t.inserted + 1)
    case Duplicate => t.(duplicate := t.duplicate + 1)
    case Failed => t.(failed := t.failed + 1)
  }

  const LOGGED_FAILURES := 3

  /** Between awaits a worker is at the loop head, waiting for a response, waiting for
      the body of an error response, or done. */
  datatype Worker = AtHead | Posting(payload: nat) | Reading(payload: nat) | Done

  /** `full[i]` says whether slot `i` holds a payload; `posted` are the slots posted
      so far, `answers` what came back for them, and `bodies` which error bodies could be
      read, each in order. */
  datatype Pool = Pool(full: seq<bool>, cursor: nat, workers: seq<Worker>, tally: Tally,
                       posted: seq<nat>, answers: seq<Answer>, bodies: seq<bool>)

  function Size(concurrency: int, n: nat): nat {
    var least := if concurrency <= n then concurrency else n;
    if least >= 1 then least else 1
  }

  function Heads(n: nat): (workers: seq<Worker>)
    ensures |workers| == n && forall w :: 0 <= w < n ==> workers[w] == AtHead
  {
    seq(n, _ => AtHead)
  }

  function Start(full: seq<bool>, concurrency: int): Pool {
    Pool(full, 0, Heads(Size(concurrency, |full|)), Tally(0, 0, 0), [], [], [])
  }

  datatype Event = Take(worker: nat) | Answered(worker: nat, answer: Answer) | BodyRead(worker: nat, readable: bool)

  /** The first slot from `cursor` on that holds a payload, or the end. */
  function NextFull(full: seq<bool>, cursor: nat): (next: nat)
    requires cursor <= |full|
    ensures cursor <= next <= |full| && (next < |full| ==> full[next])
    decreases |full| - cursor
  {
    if cursor == |full| || full[cursor] then cursor else NextFull(full, cursor + 1)
  }

  /** A worker at the loop head runs to its next await: it skips empty slots, then
      posts the payload it took, or leaves. */
  function TakeNext(p: Pool, w: nat): Pool
    requires w < |p.workers|
  {
    if p.cursor >= |p.full| then p.(workers := p.workers[w := Done])
    else
      var next := NextFull(p.full, p.cursor);
      if next == |p.full| then p.(cursor := next, workers := p.workers[w := Done])
      else p.(cursor := next + 1, workers := p.workers[w := Posting(next)], posted := p.posted + [next])
  }

  predicate Enabled(p: Pool, e: Event) {
    e.worker < |p.workers|
    && match e
       case Take(w) => p.workers[w].AtHead?
       case Answered(w, _) => p.workers[w].Posting?
       case BodyRead(w, _) => p.workers[w].Reading?
  }

  /** A response is counted at once; one that is neither 202 nor 200 has its body read
      as long as few failures have been counted. */
  function Receive(p: Pool, w: nat, answer: Answer): Pool
    requires w < |p.workers| && p.workers[w].Posting?
  {
    var tally := Count(p.tally, Classify(answer));
    var logged := answer.Status? && Classify(answer).Failed? && tally.failed <= LOGGED_FAILURES;
    p.(workers := p.workers[w := if logged then Reading(p.workers[w].payload) else AtHead],
       tally := tally, answers := p.answers + [answer])
  }

  function FinishRead(p: Pool, w: nat, readable: bool): Pool
    requires w < |p.workers|
  {
    p.(workers := p.workers[w := AtHead],
       tally := if readable then p.tally else Count(p.tally, Failed),
       bodies := p.bodies + [readable])
  }

  function Step(p: Pool, e: Event): Pool {
    if !Enabled(p, e) then p
    else
      match e
      case Take(w) => TakeNext(p, w)
      case Answered(w, answer) => Receive(p, w, answer)
      case BodyRead(w, readable) => FinishRead(p, w, readable)
  }

  function Run(full: seq<bool>, concurrency: int, trace: seq<Event>): Pool {
    if trace == [] then Start(full, concurrency)
    else Step(Run(full, concurrency, trace[..|trace| - 1]), trace[|trace| - 1])
  }

  predicate Finished(p: Pool) {
    forall w :: 0 <= w < |p.workers| ==> p.workers[w].Done?
  }

  // ---------- counting ----------

  /** The full slots, in order. */
  function FullSlots(full: seq<bool>): (slots: seq<nat>)
    ensures forall k :: 0 <= k < |slots| ==> slots[k] < |full| && full[slots[k]]
  {
    if full == [] then []
    else
      var before := FullSlots(full[..|full| - 1]);
      if full[|full| - 1] then before + [|full| - 1] else before
  }

  datatype Stage = Head | Post | Read

  predicate In(x: Worker, s: Stage) {
    match s
    case Head => x.AtHead?
    case Post => x.Posting?
    case Read => x.Reading?
  }

  function One(b: bool): nat {
    if b then 1 else 0
  }

  /** How many workers are in a stage. */
  function Number(workers: seq<Worker>, s: Stage): nat {
    if workers == [] then 0
    else Number(workers[..|workers| - 1], s) + One(In(workers[|workers| - 1], s))
  }

  function InFlight(workers: seq<Worker>): nat {
    Number(workers, Post) + Number(workers, Read)
  }

  lemma {:induction false} NumberUpdate(workers: seq<Worker>, w: nat, x: Worker, s: Stage)
    requires w < |workers|
    ensures Number(workers[w := x], s) + One(In(workers[w], s)) == Number(workers, s) + One(In(x, s))
  {
    hide In, One;
    var n := |workers| - 1;
    if w < n {
      NumberUpdate(workers[..n], w, x, s);
      assert workers[w := x][..n] == workers[..n][w := x];
    } else {
      assert workers[w := x][..n] == workers[..n];
    }
  }

  lemma {:induction false} FlightBounded(workers: seq<Worker>)
    ensures InFlight(workers) + Number(workers, Head) <= |workers|
    ensures (forall w :: 0 <= w < |workers| ==> workers[w].Done?) ==> InFlight(workers) == 0 && Number(workers, Head) == 0
  {
    if workers != [] { FlightBounded(workers[..|workers| - 1]); }
  }

  lemma {:induction false} AllAtHeadFirst(workers: seq<Worker>)
    requires forall w :: 0 <= w < |workers| ==> workers[w] == AtHead
    ensures InFlight(workers) == 0 && Number(workers, Head) == |workers|
  {
    if workers != [] { AllAtHeadFirst(workers[..|workers| - 1]); }
  }

  /** How many responses came with this status. */
  function Got(answers: seq<Answer>, code: int): nat {
    multiset(answers)[Status(code)]
  }

  /** The error bodies that could not be read. */
  function Unread(bodies: seq<bool>): nat {
    multiset(bodies)[false]
  }

  // ---------- the invariant ----------

  predicate HasSlot(x: Worker) {
    x.Posting? || x.Reading?
  }

  /** Exactly the full slots before the cursor have been posted, once each and in
      order; every post waits for its response or is answered; a worker in flight has
      its own slot; a worker leaves only when nothing is left. */
  ghost predicate SlotsGood(p: Pool) {
    && p.cursor <= |p.full|
    && p.posted == FullSlots(p.full[..p.cursor])
    && |p.answers| + Number(p.workers, Post) == |p.posted|
    && (forall w :: 0 <= w < |p.workers| && HasSlot(p.workers[w]) ==> p.workers[w].payload in p.posted)
    && (forall v, w :: 0 <= v < w < |p.workers| && HasSlot(p.workers[v]) && HasSlot(p.workers[w])
                       ==> p.workers[v].payload != p.workers[w].payload)
    && (forall w :: 0 <= w < |p.workers| && p.workers[w].Done? ==> p.cursor == |p.full|)
  }

  /** The tally counts the answers, and each unreadable error body once more as a
      failure; every body read, or being read, belongs to one of the first three
      failures. */
  ghost predicate TallyGood(p: Pool) {
    && p.tally.inserted == Got(p.answers, 202) && p.tally.duplicate == Got(p.answers, 200)
    && p.tally.failed == |p.answers| - Got(p.answers, 202) - Got(p.answers, 200) + Unread(p.bodies)
    && |p.bodies| + Number(p.workers, Read) <= p.tally.failed
    && |p.bodies| + Number(p.workers, Read) <= LOGGED_FAILURES
  }

  ghost predicate Good(p: Pool) {
    SlotsGood(p) && TallyGood(p)
  }

  lemma SlotsSnoc(full: seq<bool>, cursor: nat)
    requires cursor < |full|
    ensures FullSlots(full[..cursor + 1]) == FullSlots(full[..cursor]) + if full[cursor] then [cursor] else []
  {
    assert full[..cursor + 1][..cursor] == full[..cursor];
  }

  lemma {:induction false} SkippedSlots(full: seq<bool>, cursor: nat)
    requires cursor <= |full|
    ensures FullSlots(full[..NextFull(full, cursor)]) == FullSlots(full[..cursor])
    decreases |full| - cursor
  {
    hide FullSlots;
    if cursor < |full| && !full[cursor] {
      SlotsSnoc(full, cursor);
      SkippedSlots(full, cursor + 1);
    }
  }

  lemma {:induction false} SlotsIncrease(full: seq<bool>)
    ensures forall i, j :: 0 <= i < j < |FullSlots(full)| ==> FullSlots(full)[i] < FullSlots(full)[j]
    ensures forall i :: 0 <= i < |full| && full[i] ==> i in FullSlots(full)
  {
    if full != [] {
      var n := |full| - 1;
      SlotsIncrease(full[..n]);
      forall i | 0 <= i < |full| && full[i] ensures i in FullSlots(full) {
        if i < n { assert full[..n][i]; assert i in FullSlots(full[..n]); }
      }
    }
  }

  lemma TakeKeepsGood(p: Pool, w: nat)
    requires Good(p) && w < |p.workers| && p.workers[w].AtHead?
    ensures Good(TakeNext(p, w)) && TakeNext(p, w).full == p.full && |TakeNext(p, w).workers| == |p.workers|
  {
    hide FullSlots, Number, Got, Unread, NextFull;
    var r := TakeNext(p, w);
    NumberUpdate(p.workers, w, r.workers[w], Post);
    NumberUpdate(p.workers, w, r.workers[w], Read);
    SkippedSlots(p.full, p.cursor);
    var next := NextFull(p.full, p.cursor);
    assert r.workers[w] == if next == |p.full| then Done else Posting(next);
    if next < |p.full| {
      SlotsSnoc(p.full, next);
      assert next !in p.posted;
    }
  }

  lemma OneMore(answers: seq<Answer>, x: Answer, code: int)
    ensures Got(answers + [x], code) == Got(answers, code) + One(x == Status(code))
  {}

  lemma OneMoreBody(bodies: seq<bool>, readable: bool)
    ensures Unread(bodies + [readable]) == Unread(bodies) + One(!readable)
  {}

  lemma AnswerKeepsGood(p: Pool, w: nat, answer: Answer)
    requires Good(p) && w < |p.workers| && p.workers[w].Posting?
    ensures Good(Receive(p, w, answer))
  {
    hide FullSlots, Number, Got, Unread;
    var r := Receive(p, w, answer);
    NumberUpdate(p.workers, w, r.workers[w], Post);
    NumberUpdate(p.workers, w, r.workers[w], Read);
    OneMore(p.answers, answer, 202);
    OneMore(p.answers, answer, 200);
  }

  lemma ReadKeepsGood(p: Pool, w: nat, readable: bool)
    requires Good(p) && w < |p.workers| && p.workers[w].Reading?
    ensures Good(FinishRead(p, w, readable))
  {
    hide FullSlots, Number, Got, Unread;
    NumberUpdate(p.workers, w, AtHead, Post);
    NumberUpdate(p.workers, w, AtHead, Read);
    OneMoreBody(p.bodies, readable);
  }

  lemma StepKeepsGood(p: Pool, e: Event)
    requires Good(p)
    ensures Good(Step(p, e)) && Step(p, e).full == p.full && |Step(p, e).workers| == |p.workers|
  {
    hide Good;
    if Enabled(p, e) {
      match e
      case Take(w) => TakeKeepsGood(p, w);
      case Answered(w, answer) => AnswerKeepsGood(p, w, answer);
      case BodyRead(w, readable) => ReadKeepsGood(p, w, readable);
    }
  }

  lemma StartIsGood(full: seq<bool>, concurrency: int)
    ensures Good(Start(full, concurrency))
  {
    hide Number;
    AllAtHeadFirst(Heads(Size(concurrency, |full|)));
  }

  lemma {:induction false} RunIsGood(full: seq<bool>, concurrency: int, trace: seq<Event>)
    ensures var p := Run(full, concurrency, trace);
            Good(p) && p.full == full && |p.workers| == Size(concurrency, |full|)
  {
    hide Good, Step;
    if trace == [] {
      StartIsGood(full, concurrency);
    } else {
      RunIsGood(full, concurrency, trace[..|trace| - 1]);
      StepKeepsGood(Run(full, concurrency, trace[..|trace| - 1]), trace[|trace| - 1]);
    }
  }

  // ---------- what it means ----------

  lemma UnreadBounded(bodies: seq<bool>)
    ensures Unread(bodies) <= |bodies|
    ensures Unread(bodies) == 0 <==> false !in bodies
  {
    assert |multiset(bodies)| == |bodies|;
    assert multiset{false}[false := Unread(bodies)] <= multiset(bodies);
    assert false in multiset(bodies) <==> false in bodies;
  }

  /** In every interleaving no slot is posted twice, none is posted that holds no
      payload, and at most as many as asked for, or as there are payloads, are in
      flight, or one. */
  lemma PostsAreDistinctAndBounded(full: seq<bool>, concurrency: int, trace: seq<Event>)
    ensures var p := Run(full, concurrency, trace);
            && (forall i, j :: 0 <= i < j < |p.posted| ==> p.posted[i] < p.posted[j])
            && (forall i :: 0 <= i < |p.posted| ==> p.posted[i] < |full| && full[p.posted[i]])
            && (InFlight(p.workers) <= 1 || InFlight(p.workers) <= concurrency)
            && (InFlight(p.workers) <= 1 || InFlight(p.workers) <= |full|)
            && |p.workers| >= 1 && (concurrency >= 1 && |full| >= concurrency ==> |p.workers| == concurrency)
            && (|full| >= 1 && concurrency >= |full| ==> |p.workers| == |full|)
  {
    hide Number, Got, Unread;
    RunIsGood(full, concurrency, trace);
    var p := Run(full, concurrency, trace);
    SlotsIncrease(full[..p.cursor]);
    FlightBounded(p.workers);
  }

  /** The responses and exceptions that came in, by the events. */
  function AnswersIn(full: seq<bool>, concurrency: int, trace: seq<Event>): seq<Answer> {
    if trace == [] then []
    else
      var before, e := trace[..|trace| - 1], trace[|trace| - 1];
      AnswersIn(full, concurrency, before)
      + if e.Answered? && Enabled(Run(full, concurrency, before), e) then [e.answer] else []
  }

  /** Which error bodies could be read, by the events. */
  function BodiesIn(full: seq<bool>, concurrency: int, trace: seq<Event>): seq<bool> {
    if trace == [] then []
    else
      var before, e := trace[..|trace| - 1], trace[|trace| - 1];
      BodiesIn(full, concurrency, before)
      + if e.BodyRead? && Enabled(Run(full, concurrency, before), e) then [e.readable] else []
  }

  lemma {:induction false} HistoriesAreOfEvents(full: seq<bool>, concurrency: int, trace: seq<Event>)
    ensures Run(full, concurrency, trace).answers == AnswersIn(full, concurrency, trace)
    ensures Run(full, concurrency, trace).bodies == BodiesIn(full, concurrency, trace)
  {
    if trace != [] {
      HistoriesAreOfEvents(full, concurrency, trace[..|trace| - 1]);
    }
  }

  /** In every interleaving the tally counts the 202s as inserted, the 200s as
      duplicates, and as failures all other responses, the exceptions and each unreadable
      error body once more, of which there are at most three. */
  lemma TallyCountsAnswers(full: seq<bool>, concurrency: int, trace: seq<Event>)
    ensures var p := Run(full, concurrency, trace);
            var answers, bodies := AnswersIn(full, concurrency, trace), BodiesIn(full, concurrency, trace);
            var written, known := multiset(answers)[Status(202)], multiset(answers)[Status(200)];
            && p.tally.inserted == written && p.tally.duplicate == known
            && p.tally.failed == |answers| - written - known + multiset(bodies)[false]
            && |answers| + Number(p.workers, Post) == |p.posted|
            && multiset(bodies)[false] <= 3
  {
    hide Number, FullSlots, Run, AnswersIn, BodiesIn;
    RunIsGood(full, concurrency, trace);
    HistoriesAreOfEvents(full, concurrency, trace);
    UnreadBounded(BodiesIn(full, concurrency, trace));
  }

  /** When every worker is done, each payload has been posted exactly once. The tally
      then adds up to the number of payloads plus that of the unreadable error bodies:
      to the payloads exactly when every error body that was read could be read, and
      to at most three more. */
  lemma CompletionPostsEverything(full: seq<bool>, concurrency: int, trace: seq<Event>)
    requires Finished(Run(full, concurrency, trace))
    ensures var p, bodies := Run(full, concurrency, trace), BodiesIn(full, concurrency, trace);
            var sum := p.tally.inserted + p.tally.duplicate + p.tally.failed;
            && p.posted == FullSlots(full) && (forall i :: 0 <= i < |full| && full[i] ==> i in p.posted)
            && |AnswersIn(full, concurrency, trace)| == |FullSlots(full)|
            && sum == |FullSlots(full)| + multiset(bodies)[false]
            && (sum == |FullSlots(full)| <==> false !in bodies)
            && |FullSlots(full)| <= sum <= |FullSlots(full)| + 3
  {
    hide Number, FullSlots, AnswersIn, BodiesIn;
    RunIsGood(full, concurrency, trace);
    TallyCountsAnswers(full, concurrency, trace);
    var p := Run(full, concurrency, trace);
    assert p.workers[0].Done?;
    assert full[..|full|] == full;
    SlotsIncrease(full);
    FlightBounded(p.workers);
    UnreadBounded(BodiesIn(full, concurrency, trace));
  }

  /** The body of a response is read exactly when its status is neither 202 nor 200 and
      at most two failures were counted before it; the worker waits for it meanwhile. */
  lemma ErrorBodiesAreReadExactly(p: Pool, w: nat, answer: Answer)
    requires Enabled(p, Answered(w, answer))
    ensures var r := Step(p, Answered(w, answer));
            r.workers[w] == if answer.Status? && answer.code != 202 && answer.code != 200 && p.tally.failed <= 2
                            then Reading(p.workers[w].payload) else AtHead
  {}

  /** One payload, one error response whose body cannot be read: two failures. */
  lemma UnreadableBodyCountsTwice()
    ensures var trace := [Take(0), Answered(0, Status(500)), BodyRead(0, false), Take(0)];
            var p := Run([true], 1, trace);
            Finished(p) && p.tally == Tally(0, 0, 2) && |FullSlots([true])| == 1
  {
    var e0, e1, e2, e3 := Take(0), Answered(0, Status(500)), BodyRead(0, false), Take(0);
    assert [e0][..0] == [] && [e0, e1][..1] == [e0] && [e0, e1, e2][..2] == [e0, e1];
    assert [e0, e1, e2, e3][..3] == [e0, e1, e2];
    assert Run([true], 1, [e0]).workers == [Posting(0)];
    assert Run([true], 1, [e0, e1]).workers == [Reading(0)];
    assert Run([true], 1, [e0, e1, e2]).workers == [AtHead];
    assert Run([true], 1, [e0, e1, e2, e3]).workers == [Done];
    assert [true][..0] == [];
    assert FullSlots([true]) == FullSlots([]) + [0];
  }

  /** What every effective step takes from. */
  function Remaining(p: Pool): int {
    2 * (|p.full| - p.cursor) + Number(p.workers, Head) + 2 * InFlight(p.workers)
    + LOGGED_FAILURES - |p.bodies| - Number(p.workers, Read)
  }

  lemma StepsUseUp(p: Pool, e: Event)
    requires Good(p) && Enabled(p, e)
    ensures Remaining(Step(p, e)) < Remaining(p)
  {
    hide Number, FullSlots, Got, Unread;
    var r := Step(p, e);
    NumberUpdate(p.workers, e.worker, r.workers[e.worker], Head);
    NumberUpdate(p.workers, e.worker, r.workers[e.worker], Post);
    NumberUpdate(p.workers, e.worker, r.workers[e.worker], Read);
  }

  lemma RemainingNonNegative(p: Pool)
    requires Good(p)
    ensures Remaining(p) >= 0
  {
    hide Number;
  }

  /** Effective steps: those that find their worker ready for them. */
  ghost predicate AllEnabled(full: seq<bool>, concurrency: int, trace: seq<Event>) {
    forall k :: 0 <= k < |trace| ==> Enabled(Run(full, concurrency, trace[..k]), trace[k])
  }

  lemma {:induction false} RunsUseUp(full: seq<bool>, concurrency: int, trace: seq<Event>)
    requires AllEnabled(full, concurrency, trace)
    ensures |trace| + Remaining(Run(full, concurrency, trace)) <= 2 * |full| + Size(concurrency, |full|) + LOGGED_FAILURES
  {
    hide Good, Enabled, Step, Remaining;
    if trace == [] {
      StartRemaining(full, concurrency);
    } else {
      var before, e := trace[..|trace| - 1], trace[|trace| - 1];
      assert forall k :: 0 <= k < |before| ==> before[..k] == trace[..k];
      assert Enabled(Run(full, concurrency, trace[..|before|]), trace[|before|]);
      RunsUseUp(full, concurrency, before);
      RunIsGood(full, concurrency, before);
      StepsUseUp(Run(full, concurrency, before), e);
    }
  }

  lemma StartRemaining(full: seq<bool>, concurrency: int)
    ensures Remaining(Start(full, concurrency)) == 2 * |full| + Size(concurrency, |full|) + LOGGED_FAILURES
  {
    hide Number;
    AllAtHeadFirst(Heads(Size(concurrency, |full|)));
    FlightBounded(Heads(Size(concurrency, |full|)));
  }

  /** The pool never deadlocks, and it always finishes: while a worker is not done some
      step is possible, and no run takes more than two steps per slot, one per worker
      and three for error bodies. */
  lemma PoolAlwaysFinishes(full: seq<bool>, concurrency: int, trace: seq<Event>)
    requires AllEnabled(full, concurrency, trace)
    ensures |trace| <= 2 * |full| + Size(concurrency, |full|) + LOGGED_FAILURES
    ensures var p := Run(full, concurrency, trace);
            Finished(p) <==> forall e :: !Enabled(p, e)
  {
    hide Number, Remaining, Good;
    RunsUseUp(full, concurrency, trace);
    RunIsGood(full, concurrency, trace);
    var p := Run(full, concurrency, trace);
    RemainingNonNegative(p);
    if !Finished(p) {
      var w: nat :| w < |p.workers| && !p.workers[w].Done?;
      assert Enabled(p, Take(w)) || Enabled(p, Answered(w, Thrown)) || Enabled(p, BodyRead(w, true));
    }
  }

  // ---------- the pool as an object ----------

  class Backfill {
    const full: seq<bool>
    var cursor: nat
    var workers: seq<Worker>
    var inserted: nat
    var duplicate: nat
    var failed: nat
    ghost var posted: seq<nat>
    ghost var answers: seq<Answer>
    ghost var bodies: seq<bool>

    ghost function View(): Pool
      reads this
    {
      Pool(full, cursor, workers, Tally(inserted, duplicate, failed), posted, answers, bodies)
    }

    ghost predicate Valid()
      reads this
    {
      Good(View())
    }

    constructor (full: seq<bool>, concurrency: int)
      ensures Valid() && View() == Start(full, concurrency)
    {
      this.full := full;
      cursor, workers := 0, Heads(Size(concurrency, |full|));
      inserted, duplicate, failed := 0, 0, 0;
      posted, answers, bodies := [], [], [];
      new;
      StartIsGood(full, concurrency);
    }

    /** A worker's loop, up to its next await. */
    method Work(w: nat)
      requires Valid() && Enabled(View(), Take(w))
      modifies this`cursor, this`workers, this`posted
      ensures Valid() && View() == TakeNext(old(View()), w)
    {
      StepKeepsGood(View(), Take(w));
      ghost var next := NextFull(full, cursor);
      assert cursor <= |full|;
      hide Good;
      while cursor < |full|
        invariant cursor <= |full| && next == NextFull(full, cursor) && workers == old(workers) && posted == old(posted)
        decreases |full| - cursor
      {
        var payload := cursor;
        cursor := cursor + 1;
        if full[payload] {
          workers := workers[w := Posting(payload)];
          posted := posted + [payload];
          return;
        }
      }
      workers := workers[w := Done];
    }

    /** The response to a worker's request, or the exception it ended in. */
    method OnAnswer(w: nat, answer: Answer)
      requires Valid() && Enabled(View(), Answered(w, answer))
      modifies this`workers, this`inserted, this`duplicate, this`failed, this`answers
      ensures Valid() && View() == Receive(old(View()), w, answer)
    {
      hide SlotsGood, TallyGood;
      StepKeepsGood(View(), Answered(w, answer));
      var next := AtHead;
      match answer {
        case Status(code) =>
          if code == 202 {
            inserted := inserted + 1;
          } else if code == 200 {
            duplicate := duplicate + 1;
          } else {
            failed := failed + 1;
            if failed <= LOGGED_FAILURES { next := Reading(workers[w].payload); }
          }
        case Thrown => failed := failed + 1;
      }
      workers := workers[w := next];
      answers := answers + [answer];
    }

    /** The body of an error response, or the exception from reading it, which is
        caught where the exceptions of the request are. */
    method OnBody(w: nat, readable: bool)
      requires Valid() && Enabled(View(), BodyRead(w, readable))
      modifies this`workers, this`failed, this`bodies
      ensures Valid() && View() == FinishRead(old(View()), w, readable)
    {
      hide SlotsGood, TallyGood;
      StepKeepsGood(View(), BodyRead(w, readable));
      if !readable { failed := failed + 1; }
      workers := workers[w := AtHead];
      bodies := bodies + [readable];
    }
  }
}
