/**
 * The fill-slots policy: admit queued tasks while there are free slots and room,
 * leave the denied ones queued, park when nothing runs, starve when the window is
 * over. One fill runs at fixed readings and a fixed clock.
 */
module CapacityAdmission {
  import opened Wrappers
  import opened Collections
  import opened CapacityMath
  import opened CapacityLedger

  datatype Item = Item(id: string, estimateTokens: Option<real>)

  /** What one fill does not change. A task whose id is in `spawns` gets that
      conversation; the spawn of any other task fails, and its reservation is
      settled again before the dispatch returns. */
  datatype Fill = Fill(env: Env, candidates: seq<string>, runId: string, concurrency: int, spawns: map<string, string>)

  datatype Outcome = Outcome(res: Reservations, inflight: map<string, string>,
                             dispatched: seq<Item>, kept: seq<Item>, wake: Option<real>)

  function TaskRef(runId: string, taskId: string): string {
    runId + ":" + taskId
  }

  function Estimate(cfg: Config, item: Item): real {
    item.estimateTokens.GetOr(cfg.defaultEstimateTokens)
  }

  function Wake(f: Fill): Option<real> {
    LeastReset(f.env.oracle, Profiles(f.candidates))
  }

  ghost predicate Fits(f: Fill, res: Reservations, item: Item) {
    Admits(f.env, res, f.candidates, Estimate(f.env.cfg, item))
  }

  /** The ledger once an admitted task has been dispatched. */
  ghost function Booked(f: Fill, res: Reservations, item: Item): Reservations {
    var ref := TaskRef(f.runId, item.id);
    var reserved := Reserved(f.env, res, f.candidates, Estimate(f.env.cfg, item), ref);
    if item.id in f.spawns then reserved else reserved - {ref}
  }

  function Launched(f: Fill, inflight: map<string, string>, item: Item): map<string, string> {
    if item.id in f.spawns then inflight[item.id := f.spawns[item.id]] else inflight
  }

  /** The admission loop over what is left of the queue. */
  ghost function AdmitQueue(f: Fill, res: Reservations, inflight: map<string, string>, queue: seq<Item>): Outcome
    decreases |queue|
  {
    if |inflight| >= f.concurrency || queue == [] then Outcome(res, inflight, [], queue, None)
    else
      var item := queue[0];
      if Fits(f, res, item) then
        var o := AdmitQueue(f, Booked(f, res, item), Launched(f, inflight, item), queue[1..]);
        o.(dispatched := [item] + o.dispatched)
      else
        var o := AdmitQueue(f, res, inflight, queue[1..]);
        o.(kept := [item] + o.kept, wake := Wake(f))
  }

  lemma FirstFits(f: Fill, res: Reservations, inflight: map<string, string>, queue: seq<Item>)
    requires |inflight| < f.concurrency && queue != [] && Fits(f, res, queue[0])
    ensures var rest := AdmitQueue(f, Booked(f, res, queue[0]), Launched(f, inflight, queue[0]), queue[1..]);
            AdmitQueue(f, res, inflight, queue) == rest.(dispatched := [queue[0]] + rest.dispatched)
  {}

  lemma FirstDenied(f: Fill, res: Reservations, inflight: map<string, string>, queue: seq<Item>)
    requires |inflight| < f.concurrency && queue != [] && !Fits(f, res, queue[0])
    ensures var rest := AdmitQueue(f, res, inflight, queue[1..]);
            AdmitQueue(f, res, inflight, queue) == rest.(kept := [queue[0]] + rest.kept, wake := Wake(f))
  {}

  lemma NothingToOffer(f: Fill, res: Reservations, inflight: map<string, string>, queue: seq<Item>)
    requires |inflight| >= f.concurrency || queue == []
    ensures AdmitQueue(f, res, inflight, queue) == Outcome(res, inflight, [], queue, None)
  {}

  // ---------- conservation ----------

  /** `src` is `a` and `b` riffled together, each in its own order. */
  ghost predicate Riffle<T(!new)>(a: seq<T>, b: seq<T>, src: seq<T>) {
    if src == [] then a == [] && b == []
    else (a != [] && a[0] == src[0] && Riffle(a[1..], b, src[1..]))
         || (b != [] && b[0] == src[0] && Riffle(a, b[1..], src[1..]))
  }

  lemma {:induction false} RiffleAll<T(!new)>(src: seq<T>)
    ensures Riffle([], src, src)
  {
    if src != [] { RiffleAll(src[1..]); }
  }

  lemma {:induction false} RiffleKeepsAll<T(!new)>(a: seq<T>, b: seq<T>, src: seq<T>)
    requires Riffle(a, b, src)
    ensures multiset(a) + multiset(b) == multiset(src)
  {
    if src != [] {
      assert src == [src[0]] + src[1..];
      if a != [] && a[0] == src[0] && Riffle(a[1..], b, src[1..]) {
        RiffleKeepsAll(a[1..], b, src[1..]);
        assert a == [a[0]] + a[1..];
      } else {
        RiffleKeepsAll(a, b[1..], src[1..]);
        assert b == [b[0]] + b[1..];
      }
    }
  }

  /** Every queued task is dispatched or still queued, once, and both keep the
      order of the queue. */
  lemma {:induction false} FillConservesTasks(f: Fill, res: Reservations, inflight: map<string, string>, queue: seq<Item>)
    ensures var o := AdmitQueue(f, res, inflight, queue);
            && Riffle(o.dispatched, o.kept, queue)
            && multiset(o.dispatched) + multiset(o.kept) == multiset(queue)
    decreases |queue|
  {
    var o := AdmitQueue(f, res, inflight, queue);
    if |inflight| >= f.concurrency || queue == [] {
      RiffleAll(queue);
    } else if Fits(f, res, queue[0]) {
      FillConservesTasks(f, Booked(f, res, queue[0]), Launched(f, inflight, queue[0]), queue[1..]);
      assert o.dispatched[1..] == AdmitQueue(f, Booked(f, res, queue[0]), Launched(f, inflight, queue[0]), queue[1..]).dispatched;
    } else {
      FillConservesTasks(f, res, inflight, queue[1..]);
      assert o.kept[1..] == AdmitQueue(f, res, inflight, queue[1..]).kept;
    }
    RiffleKeepsAll(o.dispatched, o.kept, queue);
  }

  /** Some task of `tasks` has this id, and its spawn succeeds. */
  predicate Spawned(f: Fill, tasks: seq<Item>, id: string) {
    id in f.spawns && exists k :: 0 <= k < |tasks| && tasks[k].id == id
  }

  lemma SpawnedHead(f: Fill, item: Item, tasks: seq<Item>, id: string)
    ensures Spawned(f, [item] + tasks, id) <==> (id in f.spawns && item.id == id) || Spawned(f, tasks, id)
  {
    if Spawned(f, tasks, id) {
      var k :| 0 <= k < |tasks| && tasks[k].id == id;
      assert ([item] + tasks)[k + 1].id == id;
    }
    assert ([item] + tasks)[0] == item;
  }

  /** In-flight grows by exactly the dispatched tasks that spawned. */
  lemma {:induction false} FillLaunchesDispatched(f: Fill, res: Reservations, inflight: map<string, string>,
                                                  queue: seq<Item>, id: string)
    ensures var o := AdmitQueue(f, res, inflight, queue);
            id in o.inflight <==> id in inflight || Spawned(f, o.dispatched, id)
    decreases |queue|
  {
    if |inflight| < f.concurrency && queue != [] {
      var item := queue[0];
      if Fits(f, res, item) {
        FillLaunchesDispatched(f, Booked(f, res, item), Launched(f, inflight, item), queue[1..], id);
        hide Fits, Booked;
        SpawnedHead(f, item, AdmitQueue(f, Booked(f, res, item), Launched(f, inflight, item), queue[1..]).dispatched, id);
      } else {
        FillLaunchesDispatched(f, res, inflight, queue[1..], id);
      }
    }
  }

  lemma LaunchAddsOne(f: Fill, inflight: map<string, string>, item: Item)
    ensures |Launched(f, inflight, item)| <= |inflight| + 1
  {
    assert Launched(f, inflight, item).Keys <= inflight.Keys + {item.id};
    SubsetSize(Launched(f, inflight, item).Keys, inflight.Keys + {item.id});
  }

  /** In-flight never exceeds the concurrency limit, unless it did before. */
  lemma {:induction false} FillBoundsInflight(f: Fill, res: Reservations, inflight: map<string, string>, queue: seq<Item>)
    ensures var o := AdmitQueue(f, res, inflight, queue);
            |o.inflight| <= |inflight| || |o.inflight| <= f.concurrency
    decreases |queue|
  {
    if |inflight| < f.concurrency && queue != [] {
      hide Fits, Booked, Launched;
      var item := queue[0];
      if Fits(f, res, item) {
        LaunchAddsOne(f, inflight, item);
        FillBoundsInflight(f, Booked(f, res, item), Launched(f, inflight, item), queue[1..]);
      } else {
        FillBoundsInflight(f, res, inflight, queue[1..]);
      }
    }
  }

  // ---------- reservations ----------

  ghost predicate FreshRefs(f: Fill, res: Reservations, queue: seq<Item>) {
    && (forall i, j :: 0 <= i < j < |queue| ==> queue[i].id != queue[j].id)
    && (forall i :: 0 <= i < |queue| ==> TaskRef(f.runId, queue[i].id) !in res)
  }

  lemma TaskRefsDiffer(runId: string, a: string, b: string)
    ensures TaskRef(runId, a) == TaskRef(runId, b) <==> a == b
  {
    assert TaskRef(runId, a)[|runId| + 1..] == a;
    assert TaskRef(runId, b)[|runId| + 1..] == b;
  }

  lemma FreshTail(f: Fill, res: Reservations, queue: seq<Item>)
    requires queue != [] && FreshRefs(f, res, queue)
    ensures FreshRefs(f, res, queue[1..]) && FreshRefs(f, Booked(f, res, queue[0]), queue[1..])
  {
    forall i | 0 <= i < |queue[1..]| ensures TaskRef(f.runId, queue[1..][i].id) !in Booked(f, res, queue[0]) {
      TaskRefsDiffer(f.runId, queue[0].id, queue[i + 1].id);
    }
  }

  lemma BookedAddsOne(f: Fill, res: Reservations, item: Item)
    requires TaskRef(f.runId, item.id) !in res
    ensures var res', ref := Booked(f, res, item), TaskRef(f.runId, item.id);
            && res'.Keys == res.Keys + (if item.id in f.spawns then {ref} else {})
            && (forall r | r in res :: r in res' && res'[r] == res[r])
            && (item.id in f.spawns ==> res'[ref].estimateTokens == Estimate(f.env.cfg, item))
  {}

  /** Every task in `tasks` that spawned holds a reservation for its own estimate. */
  ghost predicate HoldsOwn(f: Fill, res: Reservations, tasks: seq<Item>) {
    forall k :: 0 <= k < |tasks| && tasks[k].id in f.spawns ==>
      var ref := f.runId + ":" + tasks[k].id;
      ref in res && res[ref].estimateTokens == Need(f, tasks[k])
  }

  /** The new reservations are exactly those of the dispatched tasks that spawned. */
  lemma {:induction false} FillReservesDispatched(f: Fill, res: Reservations, inflight: map<string, string>,
                                                  queue: seq<Item>, ref: string)
    requires FreshRefs(f, res, queue)
    ensures var o := AdmitQueue(f, res, inflight, queue);
            ref in o.res <==> ref in res || exists id :: f.runId + ":" + id == ref && Spawned(f, o.dispatched, id)
    decreases |queue|
  {
    if |inflight| < f.concurrency && queue != [] {
      hide AdmitQueue, Fits, Launched;
      var item := queue[0];
      FreshTail(f, res, queue);
      if Fits(f, res, item) {
        BookedAddsOne(f, res, item);
        FirstFits(f, res, inflight, queue);
        hide Booked, TaskRef, FreshRefs;
        FillReservesDispatched(f, Booked(f, res, item), Launched(f, inflight, item), queue[1..], ref);
        var o := AdmitQueue(f, Booked(f, res, item), Launched(f, inflight, item), queue[1..]);
        hide Spawned;
        forall id ensures Spawned(f, [item] + o.dispatched, id) <==> (id in f.spawns && item.id == id) || Spawned(f, o.dispatched, id) {
          SpawnedHead(f, item, o.dispatched, id);
        }
      } else {
        FirstDenied(f, res, inflight, queue);
        FillReservesDispatched(f, res, inflight, queue[1..], ref);
      }
    }
  }

  /** Reservations made before the fill are untouched, and every dispatched task
      that spawned holds one for its own estimate. */
  lemma {:induction false} FillKeepsReservations(f: Fill, res: Reservations, inflight: map<string, string>, queue: seq<Item>)
    requires FreshRefs(f, res, queue)
    ensures var o := AdmitQueue(f, res, inflight, queue);
            && (forall ref | ref in res :: ref in o.res && o.res[ref] == res[ref])
            && HoldsOwn(f, o.res, o.dispatched)
    decreases |queue|
  {
    if |inflight| < f.concurrency && queue != [] {
      hide AdmitQueue, Fits, Launched;
      var item := queue[0];
      FreshTail(f, res, queue);
      if Fits(f, res, item) {
        BookedAddsOne(f, res, item);
        FirstFits(f, res, inflight, queue);
        hide Booked, TaskRef, FreshRefs;
        var res' := Booked(f, res, item);
        FillKeepsReservations(f, res', Launched(f, inflight, item), queue[1..]);
        assert item.id in f.spawns ==> TaskRef(f.runId, item.id) in res';
      } else {
        FirstDenied(f, res, inflight, queue);
        FillKeepsReservations(f, res, inflight, queue[1..]);
      }
    }
  }

  // ---------- greedy maximality ----------

  ghost predicate GoodEstimates(f: Fill, queue: seq<Item>) {
    forall i :: 0 <= i < |queue| ==> Estimate(f.env.cfg, queue[i]) >= 0.0
  }

  /** More outstanding on every profile: nothing that did not fit before fits now. */
  lemma DenialStands(f: Fill, res: Reservations, res': Reservations, item: Item)
    requires forall p: string :: Outstanding(res, p) <= Outstanding(res', p)
    requires !Fits(f, res, item)
    ensures !Fits(f, res', item)
  {
    var value := (p: string) => Available(f.env, res, p);
    var value' := (p: string) => Available(f.env, res', p);
    var ps := Profiles(f.candidates);
    BestIsFirstMaximum(value, ps);
    BestIsFirstMaximum(value', ps);
    var best' := Emptiest(f.env, res', f.candidates);
    var j :| 0 <= j < |ps| && ps[j] == best';
    assert value(ps[j]) <= value(Best(value, ps));
    assert Outstanding(res, best') <= Outstanding(res', best');
    assert value'(best') <= value(best');
  }

  lemma BookingRaises(f: Fill, res: Reservations, item: Item)
    requires TaskRef(f.runId, item.id) !in res && Estimate(f.env.cfg, item) >= 0.0
    ensures forall p: string :: Outstanding(res, p) <= Outstanding(Booked(f, res, item), p)
  {
    var ref := TaskRef(f.runId, item.id);
    var r := Reservation(Emptiest(f.env, res, f.candidates), Estimate(f.env.cfg, item));
    assert res - {ref} == res && res[ref := r] - {ref} == res;
    forall p: string ensures Outstanding(res, p) <= Outstanding(Booked(f, res, item), p) {
      OutstandingWith(res, ref, r, p);
    }
  }

  /** Available capacity only falls during a fill. */
  lemma {:induction false} FillRaisesOutstanding(f: Fill, res: Reservations, inflight: map<string, string>, queue: seq<Item>)
    requires FreshRefs(f, res, queue) && GoodEstimates(f, queue)
    ensures forall p: string :: Outstanding(res, p) <= Outstanding(AdmitQueue(f, res, inflight, queue).res, p)
    decreases |queue|
  {
    if |inflight| < f.concurrency && queue != [] {
      var item := queue[0];
      FreshTail(f, res, queue);
      if Fits(f, res, item) {
        BookingRaises(f, res, item);
        FillRaisesOutstanding(f, Booked(f, res, item), Launched(f, inflight, item), queue[1..]);
      } else {
        FillRaisesOutstanding(f, res, inflight, queue[1..]);
      }
    }
  }

  /** When a fill ends with free slots, no task left queued fits on any candidate,
      given the reservations at the end. */
  lemma {:induction false} FillIsMaximal(f: Fill, res: Reservations, inflight: map<string, string>, queue: seq<Item>)
    requires FreshRefs(f, res, queue) && GoodEstimates(f, queue)
    ensures var o := AdmitQueue(f, res, inflight, queue);
            |o.inflight| < f.concurrency ==>
              forall k :: 0 <= k < |o.kept| ==> !Fits(f, o.res, o.kept[k])
    decreases |queue|
  {
    if |inflight| < f.concurrency && queue != [] {
      var item := queue[0];
      FreshTail(f, res, queue);
      if Fits(f, res, item) {
        FillIsMaximal(f, Booked(f, res, item), Launched(f, inflight, item), queue[1..]);
      } else {
        FillIsMaximal(f, res, inflight, queue[1..]);
        FillRaisesOutstanding(f, res, inflight, queue[1..]);
        DenialStands(f, res, AdmitQueue(f, res, inflight, queue[1..]).res, item);
      }
    }
  }

  /** What a task asks for: its own estimate, or the default one. */
  function Need(f: Fill, item: Item): real {
    match item.estimateTokens
    case Some(tokens) => tokens
    case None => f.env.cfg.defaultEstimateTokens
  }

  /** The same in terms of the gate: with free slots left, no candidate covers what any
      queued task needs. */
  lemma NothingQueuedFits(f: Fill, res: Reservations, inflight: map<string, string>, queue: seq<Item>, k: nat, p: string)
    requires FreshRefs(f, res, queue) && GoodEstimates(f, queue) && NonNegative(res)
    requires var o := AdmitQueue(f, res, inflight, queue);
             k < |o.kept| && |o.inflight| < f.concurrency
             && Need(f, o.kept[k]) > 0.0
    requires Candidate(f.candidates, p)
    ensures var o := AdmitQueue(f, res, inflight, queue);
            !Covers(f.env, o.res, p, Need(f, o.kept[k]))
  {
    FillIsMaximal(f, res, inflight, queue);
    FillKeepsNonNegative(f, res, inflight, queue);
    var o := AdmitQueue(f, res, inflight, queue);
    AdmitsExactly(f.env, o.res, f.candidates, Estimate(f.env.cfg, o.kept[k]));
  }

  lemma {:induction false} FillKeepsNonNegative(f: Fill, res: Reservations, inflight: map<string, string>, queue: seq<Item>)
    requires NonNegative(res) && GoodEstimates(f, queue)
    ensures NonNegative(AdmitQueue(f, res, inflight, queue).res)
    decreases |queue|
  {
    if |inflight| < f.concurrency && queue != [] {
      if Fits(f, res, queue[0]) {
        hide Emptiest;
        FillKeepsNonNegative(f, Booked(f, res, queue[0]), Launched(f, inflight, queue[0]), queue[1..]);
      } else {
        FillKeepsNonNegative(f, res, inflight, queue[1..]);
      }
    }
  }

  /** A fill never overshoots the gate, whether or not its spawns succeed. */
  lemma {:induction false} FillNeverOvershoots(f: Fill, res: Reservations, inflight: map<string, string>, queue: seq<Item>)
    requires NoOvershoot(f.env, res) && GoodEstimates(f, queue)
    ensures NoOvershoot(f.env, AdmitQueue(f, res, inflight, queue).res)
    decreases |queue|
  {
    if |inflight| < f.concurrency && queue != [] {
      var item := queue[0];
      if Fits(f, res, item) {
        hide NoOvershoot, Admits;
        var ref := TaskRef(f.runId, item.id);
        AdmissionKeepsGate(f.env, res, f.candidates, Estimate(f.env.cfg, item), ref);
        SettlingKeepsGate(f.env, Reserved(f.env, res, f.candidates, Estimate(f.env.cfg, item), ref), ref);
        FillNeverOvershoots(f, Booked(f, res, item), Launched(f, inflight, item), queue[1..]);
      } else {
        FillNeverOvershoots(f, res, inflight, queue[1..]);
      }
    }
  }

  // ---------- the end of the window ----------

  /** One starve decision for each task, in order. */
  ghost function StarveDecisions(env: Env, candidates: seq<string>, res: Reservations, items: seq<Item>): seq<Decision> {
    if items == [] then []
    else
      var item := items[|items| - 1];
      StarveDecisions(env, candidates, res, items[..|items| - 1])
      + [Starved(env, res, candidates, Estimate(env.cfg, item))]
  }

  lemma NothingStarves(env: Env, candidates: seq<string>, res: Reservations, decisions: seq<Decision>)
    ensures decisions + StarveDecisions(env, candidates, res, []) == decisions
  {}

  // ---------- the run ----------

  class AdmissionRun {
    const runId: string
    const candidateProfiles: seq<string>
    const windowEndMs: Option<real>
    const concurrency: int
    var pending: seq<Item>
    var inflight: map<string, string>
    var sleepUntilMs: Option<real>
    /** Cards stamped SKIPPED(capacity), and tasks handed to the dispatcher. */
    var starved: seq<Item>
    var dispatched: seq<Item>

    constructor (runId: string, candidateProfiles: seq<string>, windowEndMs: Option<real>, concurrency: int, pending: seq<Item>)
      ensures this.pending == pending && inflight == map[] && sleepUntilMs == None && starved == [] && dispatched == []
      ensures this.runId == runId && this.candidateProfiles == candidateProfiles
      ensures this.windowEndMs == windowEndMs && this.concurrency == concurrency
    {
      this.runId, this.candidateProfiles, this.windowEndMs, this.concurrency := runId, candidateProfiles, windowEndMs, concurrency;
      this.pending, inflight, sleepUntilMs := pending, map[], None;
      starved, dispatched := [], [];
    }

    function EnvAt(ledger: Ledger, now: real): Env {
      Env(ledger.cfg, ledger.oracle, now, windowEndMs)
    }

    function FillAt(ledger: Ledger, now: real, spawns: map<string, string>): Fill {
      Fill(EnvAt(ledger, now), candidateProfiles, runId, concurrency, spawns)
    }

    /** Spawn a worker; when that fails its reservation is released at once. */
    method Dispatch(ledger: Ledger, item: Item, spawns: map<string, string>)
      modifies this`inflight, this`dispatched, ledger
      ensures inflight == (if item.id in spawns then old(inflight)[item.id := spawns[item.id]] else old(inflight))
      ensures ledger.reservations == (if item.id in spawns then old(ledger.reservations)
                                      else old(ledger.reservations) - {TaskRef(runId, item.id)})
      ensures dispatched == old(dispatched) + [item]
    {
      dispatched := dispatched + [item];
      if item.id in spawns {
        inflight := inflight[item.id := spawns[item.id]];
      } else {
        ledger.SettleTask(TaskRef(runId, item.id), None);
      }
    }

    /** Offer the task at `i` to the ledger: splice and dispatch it, or leave it queued. */
    method Offer(ledger: Ledger, i: nat, now: real, spawns: map<string, string>) returns (r: AdmitResult)
      requires i < |pending| && |inflight| < concurrency
      modifies this`pending, this`inflight, this`dispatched, ledger
      ensures var f := FillAt(ledger, now, spawns);
              var item := old(pending)[i];
              var start := AdmitQueue(f, old(ledger.reservations), old(inflight), old(pending)[i..]);
              var o := AdmitQueue(f, ledger.reservations, inflight, old(pending)[i + 1..]);
              if r.Admitted? then
                && start == o.(dispatched := [item] + o.dispatched)
                && pending == old(pending)[..i] + old(pending)[i + 1..]
                && dispatched == old(dispatched) + [item]
              else
                && start == o.(kept := [item] + o.kept, wake := Wake(f))
                && r.sleepUntil == Wake(f)
                && pending == old(pending) && inflight == old(inflight) && dispatched == old(dispatched)
    {
      hide AdmitQueue, Admits, Emptiest, LeastReset;
      ghost var f := FillAt(ledger, now, spawns);
      ghost var queue := pending[i..];
      var item := pending[i];
      assert queue[0] == item && queue[1..] == pending[i + 1..];
      var estimate := item.estimateTokens.GetOr(ledger.cfg.defaultEstimateTokens);
      ghost var res := ledger.reservations;
      r := ledger.AdmitBest(candidateProfiles, estimate, TaskRef(runId, item.id), now, windowEndMs);
      if r.Admitted? {
        FirstFits(f, res, inflight, queue);
        pending := pending[..i] + pending[i + 1..];
        Dispatch(ledger, item, spawns);
      } else {
        FirstDenied(f, res, inflight, queue);
      }
    }

    method AdmitAvailable(ledger: Ledger, now: real, spawns: map<string, string>) returns (earliestWake: Option<real>)
      modifies this`pending, this`inflight, this`dispatched, ledger
      ensures var o := AdmitQueue(FillAt(ledger, now, spawns), old(ledger.reservations), old(inflight), old(pending));
              && ledger.reservations == o.res && inflight == o.inflight && pending == o.kept
              && dispatched == old(dispatched) + o.dispatched && earliestWake == o.wake
    {
      hide AdmitQueue, Wake, Fits, Booked, Launched;
      ghost var f := FillAt(ledger, now, spawns);
      ghost var start := AdmitQueue(f, ledger.reservations, inflight, pending);
      ghost var done: seq<Item> := [];
      earliestWake := None;
      var i := 0;
      assert pending[0..] == pending;
      while |inflight| < concurrency && i < |pending|
        invariant 0 <= i <= |pending| && dispatched == old(dispatched) + done
        invariant var o := AdmitQueue(f, ledger.reservations, inflight, pending[i..]);
                  start == Outcome(o.res, o.inflight, done + o.dispatched, pending[..i] + o.kept,
                                   if i > 0 then Wake(f) else o.wake)
        invariant earliestWake == if i > 0 then Wake(f) else None
        decreases |pending| - i
      {
        ghost var before := pending;
        var r := Offer(ledger, i, now, spawns);
        ghost var o := AdmitQueue(f, ledger.reservations, inflight, before[i + 1..]);
        if r.Admitted? {
          assert pending[i..] == before[i + 1..] && pending[..i] == before[..i];
          Regroup(done, [before[i]], o.dispatched);
          Regroup(old(dispatched), done, [before[i]]);
          done := done + [before[i]];
        } else {
          if r.sleepUntil.Some? && (earliestWake.None? || r.sleepUntil.value < earliestWake.value) {
            earliestWake := r.sleepUntil;
          }
          Regroup(pending[..i], [before[i]], o.kept);
          assert pending[..i + 1] == pending[..i] + [before[i]];
          i := i + 1;
        }
      }
      NothingToOffer(f, ledger.reservations, inflight, pending[i..]);
      assert pending[..i] + pending[i..] == pending && done + [] == done;
    }

    /** Starve the whole queue: each task once, in order, with its decision. */
    method StarveAll(ledger: Ledger, now: real)
      modifies this`pending, this`starved, ledger`decisions
      ensures pending == [] && starved == old(starved) + old(pending)
      ensures ledger.decisions == old(ledger.decisions)
                                  + StarveDecisions(EnvAt(ledger, now), candidateProfiles, ledger.reservations, old(pending))
    {
      ghost var env := EnvAt(ledger, now);
      var items := pending;
      pending := [];
      for k := 0 to |items|
        invariant starved == old(starved) + items[..k] && pending == []
        invariant ledger.decisions == old(ledger.decisions) + StarveDecisions(env, candidateProfiles, ledger.reservations, items[..k])
      {
        assert items[..k + 1][..k] == items[..k];
        var estimate := items[k].estimateTokens.GetOr(ledger.cfg.defaultEstimateTokens);
        ledger.StarveTask(candidateProfiles, estimate, now, windowEndMs);
        starved := starved + [items[k]];
      }
      assert items[..|items|] == items;
    }

    /** One fill. Past the window the queue is starved once nothing runs; a parked
        run waits; otherwise the queue is admitted, and the run parks only with
        nothing in flight, until the least known reset of its candidates. */
    method FillSlots(ledger: Ledger, now: real, spawns: map<string, string>)
      modifies this, ledger
      ensures var closed := windowEndMs.Some? && now >= windowEndMs.value;
              var parked := old(sleepUntilMs).Some? && now < old(sleepUntilMs).value;
              if closed then
                var starves := |old(inflight)| == 0;
                && pending == (if starves then [] else old(pending))
                && starved == (if starves then old(starved) + old(pending) else old(starved))
                && ledger.decisions
                   == (if starves then old(ledger.decisions)
                                       + StarveDecisions(EnvAt(ledger, now), candidateProfiles, ledger.reservations, old(pending))
                       else old(ledger.decisions))
                && ledger.reservations == old(ledger.reservations)
                && inflight == old(inflight) && sleepUntilMs == old(sleepUntilMs) && dispatched == old(dispatched)
              else if parked then
                && pending == old(pending) && starved == old(starved) && ledger.reservations == old(ledger.reservations)
                && inflight == old(inflight) && sleepUntilMs == old(sleepUntilMs) && dispatched == old(dispatched)
              else
                var o := AdmitQueue(FillAt(ledger, now, spawns), old(ledger.reservations), old(inflight), old(pending));
                && ledger.reservations == o.res && inflight == o.inflight && pending == o.kept
                && dispatched == old(dispatched) + o.dispatched && starved == old(starved)
                && sleepUntilMs == (if |o.inflight| == 0 && o.kept != [] then o.wake else None)
    {
      hide AdmitQueue, FillAt, EnvAt, StarveDecisions;
      if windowEndMs.Some? && now >= windowEndMs.value {
        if |pending| == 0 { NothingStarves(EnvAt(ledger, now), candidateProfiles, ledger.reservations, ledger.decisions); }
        if |inflight| == 0 && |pending| > 0 {
          StarveAll(ledger, now);
        }
        return;
      }
      if sleepUntilMs.Some? && now < sleepUntilMs.value { return; }
      sleepUntilMs := None;
      var earliestWake := AdmitAvailable(ledger, now, spawns);
      if |inflight| == 0 && |pending| > 0 && earliestWake.Some? {
        sleepUntilMs := earliestWake;
      }
    }
  }

  /** A park time is the least known reset of the candidates; with nothing in
      flight and tasks left over, there is one exactly when some candidate has a
      reset clock and there was a slot to fill. */
  lemma {:induction false} WakeIsLeastReset(f: Fill, res: Reservations, inflight: map<string, string>, queue: seq<Item>)
    ensures var o := AdmitQueue(f, res, inflight, queue);
            var least := LeastReset(f.env.oracle, if f.candidates == [] then ["default"] else f.candidates);
            && (o.wake.Some? ==> o.wake == least)
            && (o.kept != [] && |o.inflight| < f.concurrency ==> o.wake == least)
            && (|inflight| >= f.concurrency || o.kept == [] ==> o.wake == None)
    decreases |queue|
  {
    if |inflight| < f.concurrency && queue != [] {
      if Fits(f, res, queue[0]) {
        WakeIsLeastReset(f, Booked(f, res, queue[0]), Launched(f, inflight, queue[0]), queue[1..]);
      } else {
        WakeIsLeastReset(f, res, inflight, queue[1..]);
      }
    }
  }
}
