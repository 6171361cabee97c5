/**
 * The reservation ledger: what is outstanding per profile, admission against the
 * emptiest candidate, and the guarantee that parallel admissions never together
 * overshoot the gate.
 */
module CapacityLedger {
  import opened Wrappers
  import opened CapacityMath

  datatype Reservation = Reservation(profile: string, estimateTokens: real)

  type Reservations = map<string, Reservation>

  // ---------- outstanding tokens ----------

  function Share(r: Reservation, profile: string): real {
    if r.profile == profile then r.estimateTokens else 0.0
  }

  /** The sum of the estimates reserved against a profile. */
  ghost function Outstanding(res: Reservations, profile: string): real
    decreases |res|
  {
    if res == map[] then 0.0
    else
      var ref :| ref in res;
      Share(res[ref], profile) + Outstanding(res - {ref}, profile)
  }

  /** The sum does not depend on the order of summation. */
  lemma {:induction false} OutstandingWithout(res: Reservations, ref: string, profile: string)
    requires ref in res
    ensures Outstanding(res, profile) == Share(res[ref], profile) + Outstanding(res - {ref}, profile)
    decreases |res|
  {
    var first :| first in res && Outstanding(res, profile) == Share(res[first], profile) + Outstanding(res - {first}, profile);
    if first != ref {
      OutstandingWithout(res - {first}, ref, profile);
      OutstandingWithout(res - {ref}, first, profile);
      assert res - {first} - {ref} == res - {ref} - {first};
    }
  }

  lemma OutstandingWith(res: Reservations, ref: string, r: Reservation, profile: string)
    ensures Outstanding(res[ref := r], profile) == Share(r, profile) + Outstanding(res - {ref}, profile)
  {
    OutstandingWithout(res[ref := r], ref, profile);
    assert res[ref := r] - {ref} == res - {ref};
  }

  /** Nothing is outstanding on an empty ledger, and a new reservation adds its estimate
      to its own profile and nothing to any other. */
  lemma OutstandingAddsUp(res: Reservations, ref: string, profile: string, estimate: real, other: string)
    requires ref !in res
    ensures Outstanding(map[], other) == 0.0
    ensures Outstanding(res[ref := Reservation(profile, estimate)], other)
         == Outstanding(res, other) + if other == profile then estimate else 0.0
  {
    OutstandingWith(res, ref, Reservation(profile, estimate), other);
    assert res - {ref} == res;
  }

  ghost predicate NonNegative(res: Reservations) {
    forall ref | ref in res :: res[ref].estimateTokens >= 0.0
  }

  lemma {:induction false} OutstandingNonNegative(res: Reservations, profile: string)
    requires NonNegative(res)
    ensures Outstanding(res, profile) >= 0.0
    decreases |res|
  {
    if res != map[] {
      var ref :| ref in res;
      OutstandingWithout(res, ref, profile);
      OutstandingNonNegative(res - {ref}, profile);
    }
  }

  /** Dropping a reservation never raises what is outstanding. */
  lemma OutstandingFalls(res: Reservations, ref: string, profile: string)
    requires NonNegative(res)
    ensures Outstanding(res - {ref}, profile) <= Outstanding(res, profile)
  {
    if ref in res {
      OutstandingWithout(res, ref, profile);
    } else {
      assert res - {ref} == res;
    }
  }

  // ---------- admission as a function of the ledger ----------

  /** What stays fixed while a run is filled: the configuration, the readings, the
      clock and the end of the window. */
  datatype Env = Env(cfg: Config, oracle: Oracle, now: real, windowEndMs: Option<real>)

  ghost function Available(env: Env, res: Reservations, profile: string): real {
    AvailableTokens(env.cfg, env.oracle, profile, Outstanding(res, profile), env.now, env.windowEndMs)
  }

  ghost function Emptiest(env: Env, res: Reservations, candidates: seq<string>): string {
    Best((p: string) => Available(env, res, p), Profiles(candidates))
  }

  ghost predicate Admits(env: Env, res: Reservations, candidates: seq<string>, estimate: real) {
    Available(env, res, Emptiest(env, res, candidates)) >= estimate
  }

  ghost function Reserved(env: Env, res: Reservations, candidates: seq<string>, estimate: real, ref: string): Reservations {
    res[ref := Reservation(Emptiest(env, res, candidates), estimate)]
  }

  /** What is outstanding on the profile, reserved as floor, and needed besides. */
  ghost function Load(env: Env, res: Reservations, profile: string, need: real): real {
    Outstanding(res, profile)
    + env.cfg.windowTokenBudget * FloorFraction(env.cfg.floor, env.now, env.windowEndMs) + need
  }

  /** With that load on top of what is used, the profile stays at or below the gate. */
  ghost predicate Covers(env: Env, res: Reservations, profile: string, need: real) {
    BelowGate(env.cfg, env.oracle, profile, Load(env, res, profile, need))
  }

  /** A task with a positive estimate is admitted exactly when some candidate covers it,
      and then on such a candidate. */
  lemma AdmitsExactly(env: Env, res: Reservations, candidates: seq<string>, estimate: real)
    requires estimate > 0.0 && NonNegative(res)
    ensures Admits(env, res, candidates, estimate) <==>
            exists p :: Candidate(candidates, p) && Covers(env, res, p, estimate)
    ensures Admits(env, res, candidates, estimate) ==>
            var best := Emptiest(env, res, candidates);
            Candidate(candidates, best) && Covers(env, res, best, estimate)
  {
    var value := (p: string) => Available(env, res, p);
    var ps := Profiles(candidates);
    ProfilesAreCandidates(candidates);
    BestIsFirstMaximum(value, ps);
    var best := Emptiest(env, res, candidates);
    assert best in ps;
    CoversExactly(env, res, best, estimate);
    forall p | Candidate(candidates, p) && Covers(env, res, p, estimate)
      ensures Admits(env, res, candidates, estimate)
    {
      CoversExactly(env, res, p, estimate);
      var j :| 0 <= j < |ps| && ps[j] == p;
      assert value(ps[j]) <= value(best);
    }
  }

  lemma CoversExactly(env: Env, res: Reservations, profile: string, estimate: real)
    requires estimate > 0.0 && NonNegative(res)
    ensures Covers(env, res, profile, estimate) <==> Available(env, res, profile) >= estimate
  {
    OutstandingNonNegative(res, profile);
    hide FloorFraction, HeadroomTokens, BelowGate;
    RoomIsGateDistance(env.cfg, env.oracle, profile, Outstanding(res, profile), env.now, env.windowEndMs, estimate);
  }

  /** A zero estimate is let through even where telemetry is unreadable, because
      available capacity is clamped at zero: failing closed needs a positive one. */
  lemma ZeroEstimateAlwaysAdmits(env: Env, res: Reservations, candidates: seq<string>, estimate: real)
    ensures estimate <= 0.0 ==> Admits(env, res, candidates, estimate)
    ensures NonNegative(res) && (forall p | Candidate(candidates, p) :: p !in env.oracle) ==>
              (Admits(env, res, candidates, estimate) <==> estimate <= 0.0)
  {
    if NonNegative(res) && estimate > 0.0 && (forall p | Candidate(candidates, p) :: p !in env.oracle) {
      AdmitsExactly(env, res, candidates, estimate);
    }
  }

  // ---------- no collective overshoot ----------

  /** A profile either has nothing outstanding, or what is used, outstanding and
      reserved as floor together stays at or below the gate. */
  ghost predicate WithinGate(env: Env, res: Reservations, profile: string) {
    Outstanding(res, profile) == 0.0 || Covers(env, res, profile, 0.0)
  }

  ghost predicate NoOvershoot(env: Env, res: Reservations) {
    NonNegative(res) && forall p: string :: WithinGate(env, res, p)
  }

  lemma LessIsCovered(env: Env, res: Reservations, res': Reservations, profile: string, need: real, need': real)
    requires Covers(env, res, profile, need)
    requires Outstanding(res', profile) + need' <= Outstanding(res, profile) + need
    ensures Covers(env, res', profile, need')
  {
    hide Outstanding, FloorFraction;
    assert Load(env, res', profile, need') <= Load(env, res, profile, need);
    hide BelowGate, Load;
    LessIsBelowGate(env.cfg, env.oracle, profile, Load(env, res, profile, need), Load(env, res', profile, need'));
  }

  lemma LessStaysWithinGate(env: Env, res: Reservations, res': Reservations, profile: string)
    requires WithinGate(env, res, profile)
    requires 0.0 <= Outstanding(res', profile) <= Outstanding(res, profile)
    ensures WithinGate(env, res', profile)
  {
    hide Outstanding, Covers;
    if Outstanding(res, profile) != 0.0 { LessIsCovered(env, res, res', profile, 0.0, 0.0); }
  }

  /** The profile a positive estimate lands on has room for it. */
  lemma AdmittedProfileWithinGate(env: Env, res: Reservations, candidates: seq<string>, estimate: real, ref: string)
    requires NonNegative(res) && estimate > 0.0 && Admits(env, res, candidates, estimate)
    ensures WithinGate(env, Reserved(env, res, candidates, estimate, ref), Emptiest(env, res, candidates))
  {
    var best := Emptiest(env, res, candidates);
    var r := Reservation(best, estimate);
    AdmitsExactly(env, res, candidates, estimate);
    hide Emptiest, Admits, Outstanding, Covers;
    OutstandingWith(res, ref, r, best);
    OutstandingFalls(res, ref, best);
    LessIsCovered(env, res, res[ref := r], best, estimate, 0.0);
  }

  lemma AdmissionWithinGate(env: Env, res: Reservations, candidates: seq<string>, estimate: real, ref: string, p: string)
    requires NoOvershoot(env, res) && estimate >= 0.0 && Admits(env, res, candidates, estimate)
    ensures WithinGate(env, Reserved(env, res, candidates, estimate, ref), p)
  {
    var best := Emptiest(env, res, candidates);
    var r := Reservation(best, estimate);
    if p == best && estimate > 0.0 {
      AdmittedProfileWithinGate(env, res, candidates, estimate, ref);
    } else {
      assert WithinGate(env, res, p);
      hide Emptiest, Admits, Outstanding, WithinGate;
      OutstandingWith(res, ref, r, p);
      OutstandingFalls(res, ref, p);
      OutstandingNonNegative(res - {ref}, p);
      LessStaysWithinGate(env, res, res[ref := r], p);
    }
  }

  lemma AdmissionKeepsGate(env: Env, res: Reservations, candidates: seq<string>, estimate: real, ref: string)
    requires NoOvershoot(env, res) && estimate >= 0.0 && Admits(env, res, candidates, estimate)
    ensures NoOvershoot(env, Reserved(env, res, candidates, estimate, ref))
  {
    hide WithinGate, Admits, Emptiest;
    forall p: string ensures WithinGate(env, Reserved(env, res, candidates, estimate, ref), p) {
      AdmissionWithinGate(env, res, candidates, estimate, ref, p);
    }
  }

  lemma SettlingKeepsGate(env: Env, res: Reservations, ref: string)
    requires NoOvershoot(env, res)
    ensures NoOvershoot(env, res - {ref})
  {
    forall p: string ensures WithinGate(env, res - {ref}, p) {
      OutstandingFalls(res, ref, p);
      OutstandingNonNegative(res - {ref}, p);
      LessStaysWithinGate(env, res, res - {ref}, p);
    }
  }

  datatype Op = Ask(candidates: seq<string>, estimate: real, ref: string) | Settle(ref: string)

  ghost function Perform(env: Env, res: Reservations, op: Op): Reservations {
    match op
    case Ask(candidates, estimate, ref) =>
      if Admits(env, res, candidates, estimate) then Reserved(env, res, candidates, estimate, ref) else res
    case Settle(ref) => res - {ref}
  }

  ghost function PerformAll(env: Env, ops: seq<Op>): Reservations {
    if ops == [] then map[] else Perform(env, PerformAll(env, ops[..|ops| - 1]), ops[|ops| - 1])
  }

  /** From an empty ledger, no mix of admissions and settlements overshoots the
      gate on any profile. */
  lemma {:induction false} NeverOvershoots(env: Env, ops: seq<Op>)
    requires forall k :: 0 <= k < |ops| && ops[k].Ask? ==> ops[k].estimate >= 0.0
    ensures NoOvershoot(env, PerformAll(env, ops))
  {
    if ops != [] {
      var before, op := ops[..|ops| - 1], ops[|ops| - 1];
      NeverOvershoots(env, before);
      var res := PerformAll(env, before);
      match op
      case Ask(candidates, estimate, ref) =>
        if Admits(env, res, candidates, estimate) { AdmissionKeepsGate(env, res, candidates, estimate, ref); }
      case Settle(ref) => SettlingKeepsGate(env, res, ref);
    }
  }

  // ---------- the ledger as an object ----------

  datatype Verdict = Reserve | Deny | Settled | Starve

  /** The numbers of a structured decision, before rounding; its id, its time, the task
      it is about and its prose are left out. */
  datatype Decision = Decision(verdict: Verdict, profile: string, estimateTokens: real,
                               headroomTokens: Option<real>, outstandingTokens: Option<real>, floorTokens: Option<real>,
                               availableTokens: Option<real>, fiveHourPct: Option<real>, sleepUntil: Option<real>)

  /** What a decision about admitting against a profile has to say of it. */
  ghost function Judged(verdict: Verdict, env: Env, res: Reservations, profile: string, estimate: real,
                        sleepUntil: Option<real>): Decision {
    Decision(verdict, profile, estimate,
             Some(HeadroomTokens(env.cfg, env.oracle, profile)), Some(Outstanding(res, profile)),
             Some(FloorTokens(env.cfg, env.now, env.windowEndMs)), Some(Available(env, res, profile)),
             FiveHourPct(env.oracle, profile), sleepUntil)
  }

  /** What starving a task records: headroom and outstanding tokens are not in it. */
  ghost function Starved(env: Env, res: Reservations, candidates: seq<string>, estimate: real): Decision {
    var best := Emptiest(env, res, candidates);
    Judged(Starve, env, res, best, estimate, None).(headroomTokens := None, outstandingTokens := None)
  }

  /** The numbers of a decision add up: what is available is headroom less outstanding
      less floor, clamped at zero; and a reservation was covered by it. */
  predicate Balanced(d: Decision) {
    d.headroomTokens.Some? && d.outstandingTokens.Some? && d.floorTokens.Some? && d.availableTokens.Some?
    && d.availableTokens.value == Max(0.0, d.headroomTokens.value - d.outstandingTokens.value - d.floorTokens.value)
    && (d.verdict.Reserve? ==> d.estimateTokens <= d.availableTokens.value)
    && (d.verdict.Deny? ==> d.availableTokens.value < d.estimateTokens)
  }

  lemma JudgementsBalance(verdict: Verdict, env: Env, res: Reservations, candidates: seq<string>, estimate: real,
                          sleepUntil: Option<real>)
    requires verdict.Reserve? || verdict.Deny?
    requires verdict.Reserve? <==> Admits(env, res, candidates, estimate)
    ensures Balanced(Judged(verdict, env, res, Emptiest(env, res, candidates), estimate, sleepUntil))
  {}

  datatype AdmitResult = Admitted(profile: string) | Denied(sleepUntil: Option<real>)

  class Ledger {
    const cfg: Config
    const oracle: Oracle
    var reservations: Reservations
    /** What has been emitted. */
    var decisions: seq<Decision>

    constructor (cfg: Config, oracle: Oracle)
      ensures this.cfg == cfg && this.oracle == oracle && reservations == map[] && decisions == []
    {
      this.cfg, this.oracle := cfg, oracle;
      reservations, decisions := map[], [];
    }

    method OutstandingTokens(profile: string) returns (sum: real)
      ensures sum == Outstanding(reservations, profile)
    {
      sum := 0.0;
      var rest := reservations;
      while rest != map[]
        invariant sum + Outstanding(rest, profile) == Outstanding(reservations, profile)
        decreases |rest|
      {
        var ref :| ref in rest;
        OutstandingWithout(rest, ref, profile);
        if rest[ref].profile == profile {
          sum := sum + rest[ref].estimateTokens;
        }
        rest := rest - {ref};
      }
    }

    /** Choose the emptiest candidate by the oracle and what is outstanding. */
    method BestFor(candidates: seq<string>, now: real, windowEndMs: Option<real>) returns (profile: string, avail: real)
      ensures var env := Env(cfg, oracle, now, windowEndMs);
              profile == Emptiest(env, reservations, candidates) && avail == Available(env, reservations, profile)
    {
      ghost var env := Env(cfg, oracle, now, windowEndMs);
      ghost var res := reservations;
      ghost var value := (p: string) => Available(env, res, p);
      var profiles := Profiles(candidates);
      profile := profiles[0];
      var outstanding := OutstandingTokens(profile);
      avail := AvailableTokens(cfg, oracle, profile, outstanding, now, windowEndMs);
      assert profiles[..1] == [profiles[0]];
      for i := 1 to |profiles|
        invariant profile == Best(value, profiles[..i]) && avail == value(profile)
      {
        assert profiles[..i + 1][..i] == profiles[..i];
        outstanding := OutstandingTokens(profiles[i]);
        var a := AvailableTokens(cfg, oracle, profiles[i], outstanding, now, windowEndMs);
        if a > avail {
          profile, avail := profiles[i], a;
        }
      }
      assert profiles[..|profiles|] == profiles;
    }

    /** Reserve against the emptiest candidate when the estimate fits; otherwise
        change nothing and say when headroom recovers. */
    method AdmitBest(candidates: seq<string>, estimateTokens: real, taskRef: string, now: real, windowEndMs: Option<real>)
      returns (r: AdmitResult)
      modifies this
      ensures var env := Env(cfg, oracle, now, windowEndMs);
              var res := old(reservations);
              && r == (if Admits(env, res, candidates, estimateTokens) then Admitted(Emptiest(env, res, candidates))
                       else Denied(LeastReset(oracle, Profiles(candidates))))
              && reservations == Perform(env, res, Ask(candidates, estimateTokens, taskRef))
      ensures var env := Env(cfg, oracle, now, windowEndMs);
              var best := Emptiest(env, old(reservations), candidates);
              var verdict := if r.Admitted? then Reserve else Deny;
              var sleepUntil := if r.Admitted? then None else r.sleepUntil;
              var d := Judged(verdict, env, old(reservations), best, estimateTokens, sleepUntil);
              decisions == old(decisions) + [d] && Balanced(d)
    {
      ghost var env := Env(cfg, oracle, now, windowEndMs);
      var profile, avail := BestFor(candidates, now, windowEndMs);
      var floor := FloorTokens(cfg, now, windowEndMs);
      var outstanding := OutstandingTokens(profile);
      var headroom := HeadroomTokens(cfg, oracle, profile);
      ghost var res := reservations;
      if avail >= estimateTokens {
        JudgementsBalance(Reserve, env, res, candidates, estimateTokens, None);
        Book(profile, estimateTokens, taskRef, Some(headroom), Some(outstanding), Some(floor), Some(avail),
             FiveHourPct(oracle, profile));
        r := Admitted(profile);
      } else {
        var sleepUntil := ComputeSleep(oracle, Profiles(candidates));
        JudgementsBalance(Deny, env, res, candidates, estimateTokens, sleepUntil);
        decisions := decisions + [Decision(Deny, profile, estimateTokens, Some(headroom), Some(outstanding), Some(floor),
                                           Some(avail), FiveHourPct(oracle, profile), sleepUntil)];
        r := Denied(sleepUntil);
      }
    }

    /** `reserveInternal`, with the numbers it was told, if any. */
    method Book(profile: string, estimateTokens: real, taskRef: string, headroom: Option<real>, outstanding: Option<real>,
                floor: Option<real>, available: Option<real>, fiveHourPct: Option<real>)
      modifies this
      ensures reservations == old(reservations)[taskRef := Reservation(profile, estimateTokens)]
      ensures decisions == old(decisions) + [Decision(Reserve, profile, estimateTokens, headroom, outstanding, floor,
                                                      available, fiveHourPct, None)]
    {
      reservations := reservations[taskRef := Reservation(profile, estimateTokens)];
      decisions := decisions + [Decision(Reserve, profile, estimateTokens, headroom, outstanding, floor,
                                         available, fiveHourPct, None)];
    }

    /** Release a reservation; an unknown reference changes nothing. */
    method SettleTask(taskRef: string, actualTokens: Option<real>)
      modifies this
      ensures reservations == old(reservations) - {taskRef}
      ensures if taskRef in old(reservations)
              then var r := old(reservations)[taskRef];
                   decisions == old(decisions)
                                + [Decision(Settled, r.profile, actualTokens.GetOr(r.estimateTokens),
                                            None, None, None, None, None, None)]
              else decisions == old(decisions)
    {
      if taskRef !in reservations {
        assert reservations - {taskRef} == reservations;
        return;
      }
      var r := reservations[taskRef];
      reservations := reservations - {taskRef};
      decisions := decisions + [Decision(Settled, r.profile, actualTokens.GetOr(r.estimateTokens),
                                         None, None, None, None, None, None)];
    }

    /** Record that the window never admitted a task. */
    method StarveTask(candidates: seq<string>, estimateTokens: real, now: real, windowEndMs: Option<real>)
      modifies this`decisions
      ensures decisions == old(decisions)
                           + [Starved(Env(cfg, oracle, now, windowEndMs), reservations, candidates, estimateTokens)]
      ensures var d := decisions[|old(decisions)|];
              d.verdict == Starve && d.headroomTokens == d.outstandingTokens == d.sleepUntil == None
    {
      var profile, avail := BestFor(candidates, now, windowEndMs);
      var floor := FloorTokens(cfg, now, windowEndMs);
      decisions := decisions + [Decision(Starve, profile, estimateTokens, None, None, Some(floor), Some(avail),
                                         FiveHourPct(oracle, profile), None)];
    }
  }
}
