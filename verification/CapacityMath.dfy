/**
 * The arithmetic of capacity admission: the reserved floor that ramps up towards
 * the end of the run window, the headroom before the interactive gate, and the
 * choice of the emptiest profile.
 */
module CapacityMath {
  import opened Wrappers

  /** A JavaScript number as far as this arithmetic tells numbers apart. */
  datatype Num = Finite(value: real) | PosInfinity | NegInfinity | NotANumber

  datatype FloorConfig = FloorConfig(baseFloorFraction: Num, morningRampMultiplier: Num, rampHours: Num)

  /** The configurations whose ramp has a length. */
  type Tuned = cfg: FloorConfig | cfg.rampHours.Finite? witness FloorConfig(Finite(0.1), Finite(2.0), Finite(2.0))

  /** Token budgets count tokens, so they are not negative. */
  type Tokens = t: real | t >= 0.0 witness 0.0

  datatype Config = Config(windowTokenBudget: Tokens, defaultEstimateTokens: real, floor: Tuned)

  datatype Reading = Reading(fiveHourPct: Num, resetAtMs: Option<real>)

  /** The fresh readings; a profile without one is unreadable. */
  type Oracle = map<string, Reading>

  const HOUR_MS := 3600000.0
  const GATE_FIVE_HOUR_PCT := 75.0
  const MAX_FLOOR := 0.95

  function Min(a: real, b: real): real { if a <= b then a else b }

  function Max(a: real, b: real): real { if a >= b then a else b }

  // ---------- the floor ----------

  function ClampFraction(f: Num): real {
    if !f.Finite? || f.value <= 0.0 then 0.0 else Min(MAX_FLOOR, f.value)
  }

  /** `base * multiplier` for a base that is not negative. */
  function Scale(base: real, multiplier: Num): Num {
    match multiplier
    case Finite(v) => Finite(base * v)
    case NotANumber => NotANumber
    case _ => if base == 0.0 then NotANumber else multiplier
  }

  /** `multiplier <= 1`, false for NaN. */
  predicate AtMostOne(multiplier: Num) {
    multiplier.NegInfinity? || (multiplier.Finite? && multiplier.value <= 1.0)
  }

  function Base(cfg: FloorConfig): real { ClampFraction(cfg.baseFloorFraction) }

  function Peak(cfg: FloorConfig): real { ClampFraction(Scale(Base(cfg), cfg.morningRampMultiplier)) }

  /** `hours <= 0`, false for NaN. */
  predicate AtMostZero(hours: Num) {
    hours.NegInfinity? || (hours.Finite? && hours.value <= 0.0)
  }

  predicate RampDisabled(cfg: FloorConfig, windowEndMs: Option<real>) {
    windowEndMs.None? || AtMostZero(cfg.rampHours) || AtMostOne(cfg.morningRampMultiplier)
  }

  /** The floor as the source computes it. A ramp of infinite or NaN length never
      starts by either comparison, and inside it the progress is infinity over
      infinity, which is NaN. */
  function Floor(cfg: FloorConfig, now: real, windowEndMs: Option<real>): Num {
    if RampDisabled(cfg, windowEndMs) then Finite(Base(cfg))
    else if cfg.rampHours.Finite? then Finite(FloorFraction(cfg, now, windowEndMs))
    else if windowEndMs.value - now <= 0.0 then Finite(Peak(cfg))
    else NotANumber
  }

  function FloorFraction(cfg: Tuned, now: real, windowEndMs: Option<real>): real {
    if RampDisabled(cfg, windowEndMs) then Base(cfg)
    else
      var rampMs := cfg.rampHours.value * HOUR_MS;
      var msLeft := windowEndMs.value - now;
      if msLeft >= rampMs then Base(cfg)
      else if msLeft <= 0.0 then Peak(cfg)
      else Base(cfg) + (Peak(cfg) - Base(cfg)) * ((rampMs - msLeft) / rampMs)
  }

  /** The ramp does go up: it is off, or its multiplier is a finite number, or
      there is nothing to multiply. */
  predicate RampsUp(cfg: FloorConfig, windowEndMs: Option<real>) {
    RampDisabled(cfg, windowEndMs) || cfg.morningRampMultiplier.Finite? || Base(cfg) == 0.0
  }

  lemma PeakIsAboveBase(cfg: FloorConfig, windowEndMs: Option<real>)
    requires RampsUp(cfg, windowEndMs) && !RampDisabled(cfg, windowEndMs)
    ensures 0.0 <= Base(cfg) <= Peak(cfg) <= MAX_FLOOR
  {
    if cfg.morningRampMultiplier.Finite? {
      var b, v := Base(cfg), cfg.morningRampMultiplier.value;
      MulGrows(b, 1.0, v);
      assert b * v >= b;
      assert Peak(cfg) == ClampFraction(Finite(b * v));
      assert v > 1.0 && b <= MAX_FLOOR;
      assert b == 0.0 || (b * v > 0.0 && Peak(cfg) == Min(MAX_FLOOR, b * v));
    }
  }

  lemma MulGrows(a: real, x: real, y: real)
    requires a >= 0.0 && x <= y
    ensures a * x <= a * y
  {}

  lemma DivGrows(x: real, y: real, d: real)
    requires d > 0.0 && x <= y
    ensures x / d <= y / d
  {}

  /** With a ramp of finite length the floor is a fraction of at most 0.95. */
  lemma FloorIsAFraction(cfg: Tuned, now: real, windowEndMs: Option<real>)
    ensures 0.0 <= FloorFraction(cfg, now, windowEndMs) <= MAX_FLOOR
  {
    if !RampDisabled(cfg, windowEndMs) {
      var rampMs := cfg.rampHours.value * HOUR_MS;
      var msLeft := windowEndMs.value - now;
      if 0.0 < msLeft < rampMs {
        Interpolates(Base(cfg), Peak(cfg), rampMs, msLeft);
      }
    }
  }

  /** A point of the ramp lies between its ends, whichever end is higher. */
  lemma Interpolates(base: real, peak: real, rampMs: real, msLeft: real)
    requires 0.0 < msLeft < rampMs
    ensures var f := base + (peak - base) * ((rampMs - msLeft) / rampMs);
            Min(base, peak) <= f <= Max(base, peak)
  {
    var p := (rampMs - msLeft) / rampMs;
    DivGrows(0.0, rampMs - msLeft, rampMs);
    DivGrows(rampMs - msLeft, rampMs, rampMs);
    assert 0.0 <= p <= 1.0;
    if peak >= base {
      MulGrows(peak - base, 0.0, p);
      MulGrows(peak - base, p, 1.0);
    } else {
      MulGrows(base - peak, 0.0, p);
      MulGrows(base - peak, p, 1.0);
      assert (peak - base) * p == -((base - peak) * p);
    }
  }

  /** Neither infinite nor NaN, and between 0 and 0.95. */
  predicate IsFraction(f: Num) {
    f.Finite? && 0.0 <= f.value <= MAX_FLOOR
  }

  /** Whatever the configuration, the floor is a fraction at all times if and only if
      the ramp is off or has a finite length. */
  lemma FloorIsAFractionExactly(cfg: FloorConfig, windowEndMs: Option<real>)
    ensures (forall now: real :: IsFraction(Floor(cfg, now, windowEndMs)))
       <==> RampDisabled(cfg, windowEndMs) || cfg.rampHours.Finite?
  {
    if !RampDisabled(cfg, windowEndMs) && !cfg.rampHours.Finite? {
      assert !IsFraction(Floor(cfg, windowEndMs.value - 1.0, windowEndMs));
    } else if cfg.rampHours.Finite? {
      forall now: real ensures IsFraction(Floor(cfg, now, windowEndMs)) { FloorIsAFraction(cfg, now, windowEndMs); }
    }
  }

  /** The floor lies between the clamped base and the ramped peak. */
  lemma FloorBounds(cfg: Tuned, now: real, windowEndMs: Option<real>)
    requires RampsUp(cfg, windowEndMs)
    ensures Base(cfg) <= FloorFraction(cfg, now, windowEndMs)
    ensures !RampDisabled(cfg, windowEndMs) ==> FloorFraction(cfg, now, windowEndMs) <= Peak(cfg)
  {
    if !RampDisabled(cfg, windowEndMs) {
      PeakIsAboveBase(cfg, windowEndMs);
      var rampMs := cfg.rampHours.value * HOUR_MS;
      var msLeft := windowEndMs.value - now;
      if 0.0 < msLeft < rampMs {
        Interpolates(Base(cfg), Peak(cfg), rampMs, msLeft);
      }
    }
  }

  /** Across all three regions of the ramp the floor never falls as time advances. */
  lemma FloorNeverFalls(cfg: Tuned, earlier: real, later: real, windowEndMs: Option<real>)
    requires RampsUp(cfg, windowEndMs) && earlier <= later
    ensures FloorFraction(cfg, earlier, windowEndMs) <= FloorFraction(cfg, later, windowEndMs)
  {
    FloorBounds(cfg, earlier, windowEndMs);
    FloorBounds(cfg, later, windowEndMs);
    if !RampDisabled(cfg, windowEndMs) {
      PeakIsAboveBase(cfg, windowEndMs);
      var rampMs := cfg.rampHours.value * HOUR_MS;
      var left1, left2 := windowEndMs.value - earlier, windowEndMs.value - later;
      if left1 < rampMs && left2 > 0.0 {
        DivGrows(rampMs - left1, rampMs - left2, rampMs);
        MulGrows(Peak(cfg) - Base(cfg), (rampMs - left1) / rampMs, (rampMs - left2) / rampMs);
      }
    }
  }

  /** `a <= b`, false for NaN. */
  predicate AtMost(a: Num, b: Num) {
    a.Finite? && b.Finite? && a.value <= b.value
  }

  ghost predicate NeverFalls(cfg: FloorConfig, windowEndMs: Option<real>) {
    forall s: real, t: real | s <= t :: AtMost(Floor(cfg, s, windowEndMs), Floor(cfg, t, windowEndMs))
  }

  /** The floor is stingier towards morning exactly when the ramp is off, or has a
      finite length and goes up: an infinite or NaN multiplier clamps the peak to zero
      and the floor collapses at the end of the window, and with an infinite or NaN
      length the floor is no number at all. */
  lemma FloorNeverFallsExactly(cfg: FloorConfig, windowEndMs: Option<real>)
    ensures NeverFalls(cfg, windowEndMs)
       <==> RampDisabled(cfg, windowEndMs) || (cfg.rampHours.Finite? && RampsUp(cfg, windowEndMs))
  {
    if RampDisabled(cfg, windowEndMs) {
    } else if !cfg.rampHours.Finite? {
      var before := windowEndMs.value - 1.0;
      assert before <= before && !AtMost(Floor(cfg, before, windowEndMs), Floor(cfg, before, windowEndMs));
    } else if RampsUp(cfg, windowEndMs) {
      forall s: real, t: real | s <= t
        ensures AtMost(Floor(cfg, s, windowEndMs), Floor(cfg, t, windowEndMs))
      {
        FloorNeverFalls(cfg, s, t, windowEndMs);
      }
    } else {
      var end := windowEndMs.value;
      var start := end - cfg.rampHours.value * HOUR_MS;
      assert start <= end;
      assert Floor(cfg, start, windowEndMs) == Finite(Base(cfg)) && Base(cfg) > 0.0;
      assert Floor(cfg, end, windowEndMs) == Finite(Peak(cfg)) && Peak(cfg) == 0.0;
    }
  }

  /** An endless ramp: before the end of the window the floor is not a number. */
  lemma EndlessRampHasNoFloor(end: real)
    ensures Floor(FloorConfig(Finite(0.5), Finite(2.0), PosInfinity), end - 1.0, Some(end)) == NotANumber
  {
    assert !RampDisabled(FloorConfig(Finite(0.5), Finite(2.0), PosInfinity), Some(end));
  }

  // ---------- the ramp in numbers ----------

  /** The base is the configured fraction, never negative and at most 0.95; one that is
      no finite number reserves nothing. */
  lemma BaseIsClamped(cfg: FloorConfig)
    ensures Base(cfg) == match cfg.baseFloorFraction
                         case Finite(v) => if v <= 0.0 then 0.0 else if v < 0.95 then v else 0.95
                         case _ => 0.0
  {}

  /** Without a window, with no ramp hours or with a multiplier of at most one the floor
      is flat. */
  lemma FloorIsFlatWithoutRamp(cfg: FloorConfig, now: real, windowEndMs: Option<real>)
    requires windowEndMs.None? || (cfg.rampHours.Finite? && cfg.rampHours.value <= 0.0)
             || (cfg.morningRampMultiplier.Finite? && cfg.morningRampMultiplier.value <= 1.0)
    ensures Floor(cfg, now, windowEndMs) == Finite(Base(cfg))
  {}

  /** Otherwise it is the base until the ramp hours begin, then grows in proportion to
      the time of them that has passed, and holds base times multiplier, at most 0.95,
      from the end of the window on. `passed` is that proportion. */
  lemma FloorRampsLinearly(b: real, m: real, hours: real, end: real, now: real, passed: real)
    requires 0.0 <= b <= 0.95 && m > 1.0 && hours > 0.0
    requires 0.0 <= passed <= 1.0
    ensures var cfg := FloorConfig(Finite(b), Finite(m), Finite(hours));
            var peak := if b * m < 0.95 then b * m else 0.95;
            && (now <= end - hours * 3600000.0 ==> Floor(cfg, now, Some(end)) == Finite(b))
            && (now >= end ==> Floor(cfg, now, Some(end)) == Finite(peak))
            && Floor(cfg, end - (1.0 - passed) * (hours * 3600000.0), Some(end)) == Finite(b + (peak - b) * passed)
  {
    var cfg := FloorConfig(Finite(b), Finite(m), Finite(hours));
    var peak := if b * m < 0.95 then b * m else 0.95;
    MulGrows(b, 0.0, m);
    assert Base(cfg) == b;
    assert Scale(b, Finite(m)) == Finite(b * m) && b * m >= 0.0;
    assert Peak(cfg) == ClampFraction(Finite(b * m)) == peak;
    var rampMs := hours * 3600000.0;
    hide ClampFraction, Scale, Base, Peak;
    var msLeft := (1.0 - passed) * rampMs;
    Proportion(rampMs, passed);
    assert end - (end - msLeft) == msLeft;
  }

  lemma Proportion(rampMs: real, passed: real)
    requires rampMs > 0.0 && 0.0 <= passed <= 1.0
    ensures (rampMs - (1.0 - passed) * rampMs) / rampMs == passed
    ensures (1.0 - passed) * rampMs >= rampMs <==> passed == 0.0
    ensures (1.0 - passed) * rampMs <= 0.0 <==> passed == 1.0
  {
    assert rampMs - (1.0 - passed) * rampMs == passed * rampMs;
  }

  /** An infinite multiplier: half the budget is reserved until the ramp starts, and
      nothing at the end of the window. */
  lemma FloorCollapses(end: real)
    ensures var cfg := FloorConfig(Finite(0.5), PosInfinity, Finite(2.0));
            && Floor(cfg, end - 2.0 * HOUR_MS, Some(end)) == Finite(0.5)
            && Floor(cfg, end, Some(end)) == Finite(0.0)
  {
    var cfg := FloorConfig(Finite(0.5), PosInfinity, Finite(2.0));
    assert Base(cfg) == 0.5 && Peak(cfg) == 0.0 && cfg.rampHours.value * HOUR_MS == 2.0 * HOUR_MS;
  }

  // ---------- headroom ----------

  function ClampPct(p: Num): real {
    if p.Finite? then Max(0.0, Min(100.0, p.value)) else 100.0
  }

  /** Headroom before the gate; nothing when telemetry is unreadable. */
  function HeadroomTokens(cfg: Config, oracle: Oracle, profile: string): real {
    if profile in oracle
    then cfg.windowTokenBudget * Max(0.0, GATE_FIVE_HOUR_PCT - ClampPct(oracle[profile].fiveHourPct)) / 100.0
    else 0.0
  }

  /** The fresh percentage that goes with it, when there is one. */
  function FiveHourPct(oracle: Oracle, profile: string): Option<real> {
    if profile in oracle then Some(ClampPct(oracle[profile].fiveHourPct)) else None
  }

  function FloorTokens(cfg: Config, now: real, windowEndMs: Option<real>): real {
    cfg.windowTokenBudget * FloorFraction(cfg.floor, now, windowEndMs)
  }

  /** Headroom less what is outstanding less the floor, before clamping at zero. */
  function Room(cfg: Config, oracle: Oracle, profile: string, outstanding: real, now: real, end: Option<real>): real {
    HeadroomTokens(cfg, oracle, profile) - outstanding - FloorTokens(cfg, now, end)
  }

  function AvailableTokens(cfg: Config, oracle: Oracle, profile: string, outstanding: real, now: real, end: Option<real>): real {
    Max(0.0, Room(cfg, oracle, profile, outstanding, now, end))
  }

  lemma FloorTokensNonnegative(cfg: Config, now: real, end: Option<real>)
    ensures FloorTokens(cfg, now, end) >= 0.0
  {
    FloorIsAFraction(cfg.floor, now, end);
    MulGrows(cfg.windowTokenBudget, 0.0, FloorFraction(cfg.floor, now, end));
  }

  /** At fixed readings and reservations, available tokens never rise with time. */
  lemma AvailableNeverRises(cfg: Config, oracle: Oracle, profile: string, outstanding: real,
                            earlier: real, later: real, end: Option<real>)
    requires earlier <= later && RampsUp(cfg.floor, end)
    ensures AvailableTokens(cfg, oracle, profile, outstanding, later, end)
         <= AvailableTokens(cfg, oracle, profile, outstanding, earlier, end)
  {
    hide FloorFraction, HeadroomTokens, RampsUp;
    FloorNeverFalls(cfg.floor, earlier, later, end);
    MulGrows(cfg.windowTokenBudget, FloorFraction(cfg.floor, earlier, end), FloorFraction(cfg.floor, later, end));
  }

  // ---------- what the gate means ----------

  /** The percentage read for the profile, as tokens of the budget, and `load` more stay
      at or below 75 percent of the budget. A profile without a reading, or with one
      that is no finite number, is never below the gate. */
  predicate BelowGate(cfg: Config, oracle: Oracle, profile: string, load: real) {
    profile in oracle && oracle[profile].fiveHourPct.Finite?
    && cfg.windowTokenBudget * Max(0.0, oracle[profile].fiveHourPct.value) / 100.0 + load
       <= cfg.windowTokenBudget * 75.0 / 100.0
  }

  lemma LessIsBelowGate(cfg: Config, oracle: Oracle, profile: string, more: real, less: real)
    requires less <= more && BelowGate(cfg, oracle, profile, more)
    ensures BelowGate(cfg, oracle, profile, less)
  {}

  /** Headroom is the distance of the reading from 75 percent, in tokens: nothing when
      it is past that, or missing, or no finite number. */
  lemma HeadroomIsGateDistance(cfg: Config, oracle: Oracle, profile: string)
    ensures HeadroomTokens(cfg, oracle, profile)
         == if profile in oracle && oracle[profile].fiveHourPct.Finite? && oracle[profile].fiveHourPct.value < 75.0
            then cfg.windowTokenBudget * (75.0 - Max(0.0, oracle[profile].fiveHourPct.value)) / 100.0
            else 0.0
  {}

  /** The recorded percentage is the reading between 0 and 100; one that is no finite
      number counts as fully used. */
  lemma PercentageIsClamped(oracle: Oracle, profile: string)
    ensures FiveHourPct(oracle, profile)
         == if profile !in oracle then None
            else match oracle[profile].fiveHourPct
                 case Finite(v) => Some(if v < 0.0 then 0.0 else if v > 100.0 then 100.0 else v)
                 case _ => Some(100.0)
  {}

  /** There is room for a positive need exactly when used, outstanding, floor and need
      together stay at or below the gate. */
  lemma RoomIsGateDistance(cfg: Config, oracle: Oracle, profile: string, outstanding: real, now: real, end: Option<real>,
                           need: real)
    requires need > 0.0 && outstanding >= 0.0
    ensures Room(cfg, oracle, profile, outstanding, now, end) >= need
       <==> BelowGate(cfg, oracle, profile, outstanding + cfg.windowTokenBudget * FloorFraction(cfg.floor, now, end) + need)
  {
    hide HeadroomTokens, FloorFraction;
    FloorTokensNonnegative(cfg, now, end);
    HeadroomIsGateDistance(cfg, oracle, profile);
    if profile in oracle && oracle[profile].fiveHourPct.Finite? {
      var used := Max(0.0, oracle[profile].fiveHourPct.value);
      GateSplits(cfg.windowTokenBudget, used);
    }
  }

  lemma GateSplits(budget: Tokens, used: real)
    ensures budget * (75.0 - used) / 100.0 == budget * 75.0 / 100.0 - budget * used / 100.0
    ensures used >= 75.0 ==> budget * used / 100.0 >= budget * 75.0 / 100.0
  {
    if used >= 75.0 { MulGrows(budget, 75.0, used); }
  }

  // ---------- choosing a profile ----------

  const DEFAULT_PROFILE := "default"

  function Profiles(candidates: seq<string>): (ps: seq<string>)
    ensures ps != []
  {
    if candidates == [] then [DEFAULT_PROFILE] else candidates
  }

  /** A profile that may be chosen: one of those named, or the default when none is. */
  predicate Candidate(candidates: seq<string>, profile: string) {
    profile in candidates || (candidates == [] && profile == "default")
  }

  lemma ProfilesAreCandidates(candidates: seq<string>)
    ensures forall p :: p in Profiles(candidates) <==> Candidate(candidates, p)
    ensures candidates != [] ==> Profiles(candidates) == candidates
  {}

  /** The first of the profiles with the largest value. */
  function Best(value: string -> real, profiles: seq<string>): string
    requires profiles != []
  {
    var n := |profiles|;
    if n == 1 then profiles[0]
    else
      var before := Best(value, profiles[..n - 1]);
      if value(profiles[n - 1]) > value(before) then profiles[n - 1] else before
  }

  /** `Best` is an argmax that prefers the earliest of equals. */
  lemma {:induction false} BestIsFirstMaximum(value: string -> real, profiles: seq<string>)
    requires profiles != []
    ensures forall j :: 0 <= j < |profiles| ==> value(profiles[j]) <= value(Best(value, profiles))
    ensures exists i :: 0 <= i < |profiles| && profiles[i] == Best(value, profiles)
                        && forall j :: 0 <= j < i ==> value(profiles[j]) < value(profiles[i])
  {
    var n := |profiles|;
    if n == 1 {
      assert profiles[0] == Best(value, profiles);
    } else {
      BestIsFirstMaximum(value, profiles[..n - 1]);
      var rest := profiles[..n - 1];
      var before := Best(value, rest);
      var i :| 0 <= i < |rest| && rest[i] == before && forall j :: 0 <= j < i ==> value(rest[j]) < value(rest[i]);
      forall j | 0 <= j < n - 1 ensures value(profiles[j]) <= value(before) {
        assert rest[j] == profiles[j];
      }
      if value(profiles[n - 1]) > value(before) {
        assert profiles[n - 1] == Best(value, profiles);
      } else {
        assert profiles[i] == Best(value, profiles);
        forall j | 0 <= j < i ensures value(profiles[j]) < value(profiles[i]) {
          assert rest[j] == profiles[j];
        }
      }
    }
  }

  // ---------- the computed wake time ----------

  function ResetOf(oracle: Oracle, profile: string): Option<real> {
    if profile in oracle then oracle[profile].resetAtMs else None
  }

  function Earlier(a: Option<real>, b: Option<real>): Option<real> {
    if a.None? then b else if b.Some? && b.value < a.value then b else a
  }

  function LeastReset(oracle: Oracle, profiles: seq<string>): Option<real> {
    if profiles == [] then None
    else Earlier(LeastReset(oracle, profiles[..|profiles| - 1]), ResetOf(oracle, profiles[|profiles| - 1]))
  }

  /** The profile has a reading with a reset clock. */
  predicate HasReset(oracle: Oracle, profile: string) {
    profile in oracle && oracle[profile].resetAtMs.Some?
  }

  /** The wake time is the least known reset, and there is none exactly when no
      candidate has a reset clock. */
  lemma {:induction false} LeastResetIsLeast(oracle: Oracle, profiles: seq<string>)
    ensures LeastReset(oracle, profiles).None? <==> forall j :: 0 <= j < |profiles| ==> !HasReset(oracle, profiles[j])
    ensures LeastReset(oracle, profiles).Some? ==>
            && (exists i :: 0 <= i < |profiles| && HasReset(oracle, profiles[i])
                            && oracle[profiles[i]].resetAtMs == LeastReset(oracle, profiles))
            && (forall j :: 0 <= j < |profiles| && HasReset(oracle, profiles[j]) ==>
                  LeastReset(oracle, profiles).value <= oracle[profiles[j]].resetAtMs.value)
  {
    if profiles != [] {
      var n := |profiles|;
      var rest := profiles[..n - 1];
      LeastResetIsLeast(oracle, rest);
      assert forall j :: 0 <= j < n - 1 ==> profiles[j] == rest[j];
      if LeastReset(oracle, profiles).Some? {
        if LeastReset(oracle, rest) == LeastReset(oracle, profiles) {
          var i :| 0 <= i < n - 1 && HasReset(oracle, rest[i]) && oracle[rest[i]].resetAtMs == LeastReset(oracle, rest);
          assert HasReset(oracle, profiles[i]);
        } else {
          assert HasReset(oracle, profiles[n - 1]);
        }
      }
    }
  }

  method ComputeSleep(oracle: Oracle, candidates: seq<string>) returns (earliest: Option<real>)
    ensures earliest == LeastReset(oracle, candidates)
  {
    earliest := None;
    for i := 0 to |candidates|
      invariant earliest == LeastReset(oracle, candidates[..i])
    {
      assert candidates[..i + 1][..i] == candidates[..i];
      var reset := ResetOf(oracle, candidates[i]);
      if reset.Some? && (earliest.None? || reset.value < earliest.value) {
        earliest := reset;
      }
    }
    assert candidates[..|candidates|] == candidates;
  }
}
