/**
 * The multicopter attitude controller's throttle-versus-attitude mix state
 * and the compiled-in defaults of its three body-rate PID controllers.
 *
 * The mix is a blend ratio: low values favour the pilot's or autopilot's
 * throttle, high values favour attitude control when the motors saturate.
 * The controller keeps a current mix and a desired mix; the current mix is
 * slewed toward the desired one elsewhere, except that setting a mix value
 * snaps both at once.
 */
module AttitudeControl {

  // ---------------------------------------------------------------------
  // Rate-PID defaults
  // ---------------------------------------------------------------------

  /** Default gains, limits and filter cutoffs of one rate PID controller. */
  datatype PidDefaults = PidDefaults(
    p: real,
    i: real,
    d: real,
    ff: real,
    imax: real,
    filtTHz: real,   // target filter cutoff
    filtEHz: real,   // error filter cutoff, 0 means no filter
    filtDHz: real,   // derivative filter cutoff
    srmax: real,     // slew-rate limit, 0 means no limit
    srtau: real)     // slew-rate limiter time constant

  datatype Axis = Roll | Pitch | Yaw

  // Build-time defaults; a board definition may override each of them.
  const RateRollPitchP: real := 0.135
  const RateRollPitchI: real := 0.135
  const RateRollPitchD: real := 0.0036
  const RateRollPitchImax: real := 0.5
  const RateFiltHz: real := 20.0
  const RateYawP: real := 0.180
  const RateYawI: real := 0.018
  const RateYawD: real := 0.0
  const RateYawImax: real := 0.5
  const RateYawFiltHz: real := 2.5

  /** The default initialiser of the rate PID controller of one axis. */
  function RateDefaults(axis: Axis): (pid: PidDefaults)
    ensures pid.ff == 0.0 && pid.srmax == 0.0 && pid.srtau == 1.0
    ensures pid.imax == 0.5
    ensures pid.filtTHz == pid.filtDHz == RateFiltHz
    ensures pid.filtEHz > 0.0 <==> axis == Yaw
    ensures pid.p > 0.0 && pid.i > 0.0 && pid.d >= 0.0
  {
    match axis
    case Roll =>
      PidDefaults(RateRollPitchP, RateRollPitchI, RateRollPitchD, 0.0, RateRollPitchImax,
                  RateFiltHz, 0.0, RateFiltHz, 0.0, 1.0)
    case Pitch =>
      PidDefaults(RateRollPitchP, RateRollPitchI, RateRollPitchD, 0.0, RateRollPitchImax,
                  RateFiltHz, 0.0, RateFiltHz, 0.0, 1.0)
    case Yaw =>
      PidDefaults(RateYawP, RateYawI, RateYawD, 0.0, RateYawImax,
                  RateFiltHz, RateYawFiltHz, RateFiltHz, 0.0, 1.0)
  }

  /** Roll and pitch start from identical defaults; yaw differs in P, I and D
      and alone filters its error input (at 2.5 Hz). */
  lemma RollPitchShareDefaultsYawDiffers()
    ensures RateDefaults(Roll) == RateDefaults(Pitch)
    ensures RateDefaults(Roll).p == 0.135 && RateDefaults(Roll).i == 0.135
    ensures RateDefaults(Roll).d == 0.0036 && RateDefaults(Roll).filtEHz == 0.0
    ensures RateDefaults(Yaw).p == 0.180 && RateDefaults(Yaw).i == 0.018 && RateDefaults(Yaw).d == 0.0
    ensures RateDefaults(Yaw).filtEHz == 2.5
    ensures forall a: Axis :: a != Yaw ==> RateDefaults(a) != RateDefaults(Yaw)
  {
  }

  // ---------------------------------------------------------------------
  // Throttle mix: abstract state and its transitions
  // ---------------------------------------------------------------------

  /** Current mix, desired mix and the three mix presets (landing, manual
      throttle, active flight). */
  datatype MixState = MixState(mix: real, mixDesired: real, mixMin: real, mixMan: real, mixMax: real)

  /** Aim the mix at the landing preset. */
  function MixToMin(s: MixState): MixState
  {
    s.(mixDesired := s.mixMin)
  }

  /** Aim the mix at the manual-throttle preset. */
  function MixToMan(s: MixState): MixState
  {
    s.(mixDesired := s.mixMan)
  }

  /** Set both current and desired mix, bypassing the slew. */
  function MixToValue(s: MixState, value: real): MixState
  {
    s.(mixDesired := value, mix := value)
  }

  /** The mix is close to the landing preset: attitude control is deprioritised. */
  predicate NearMin(s: MixState)
  {
    s.mix < 1.25 * s.mixMin
  }

  /** The three presets of a state. */
  function Presets(s: MixState): (real, real, real)
  {
    (s.mixMin, s.mixMan, s.mixMax)
  }

  /** Aiming at a preset retargets only the desired mix; the current mix and
      the presets stay as they were. */
  lemma PresetTargetsKeepCurrentMix(s: MixState)
    ensures MixToMin(s).mixDesired == s.mixMin && MixToMin(s).mix == s.mix
    ensures MixToMan(s).mixDesired == s.mixMan && MixToMan(s).mix == s.mix
    ensures Presets(MixToMin(s)) == Presets(s) && Presets(MixToMan(s)) == Presets(s)
  {
  }

  /** Setting a value leaves the mix steady at that value, keeps the presets,
      and doing it twice is the same as doing it once. */
  lemma MixToValueSnaps(s: MixState, value: real)
    ensures MixToValue(s, value).mix == MixToValue(s, value).mixDesired == value
    ensures Presets(MixToValue(s, value)) == Presets(s)
    ensures MixToValue(MixToValue(s, value), value) == MixToValue(s, value)
  {
  }

  /** After setting a value, the near-minimum test depends on that value alone. */
  lemma NearMinAfterValue(s: MixState, value: real)
    ensures NearMin(MixToValue(s, value)) <==> value < 1.25 * s.mixMin
  {
  }

  // ---------------------------------------------------------------------
  // Sequences of mix commands
  // ---------------------------------------------------------------------

  /** One call of a mix setter. */
  datatype MixCommand = ToMin | ToMan | ToValue(value: real)

  function Step(s: MixState, c: MixCommand): MixState
  {
    match c
    case ToMin => MixToMin(s)
    case ToMan => MixToMan(s)
    case ToValue(v) => MixToValue(s, v)
  }

  /** The state after the commands, applied first to last. */
  function Run(s: MixState, cmds: seq<MixCommand>): MixState
    decreases |cmds|
  {
    if cmds == [] then s else Run(Step(s, cmds[0]), cmds[1..])
  }

  /** The value of the last value-setting command, or `initial` if there is none. */
  function LastValue(cmds: seq<MixCommand>, initial: real): real
    decreases |cmds|
  {
    if cmds == [] then initial
    else if cmds[|cmds| - 1].ToValue? then cmds[|cmds| - 1].value
    else LastValue(cmds[..|cmds| - 1], initial)
  }

  /** Running a sequence extended by one command is one more step. */
  lemma {:induction false} RunSnoc(s: MixState, cmds: seq<MixCommand>, c: MixCommand)
    ensures Run(s, cmds + [c]) == Step(Run(s, cmds), c)
    decreases |cmds|
  {
    if cmds == [] {
      assert [c][1..] == [];
    } else {
      assert (cmds + [c])[1..] == cmds[1..] + [c];
      RunSnoc(Step(s, cmds[0]), cmds[1..], c);
    }
  }

  /** No mix setter changes a preset, whatever the order of calls. */
  lemma {:induction false} RunKeepsPresets(s: MixState, cmds: seq<MixCommand>)
    ensures Presets(Run(s, cmds)) == Presets(s)
    decreases |cmds|
  {
    if cmds != [] {
      RunKeepsPresets(Step(s, cmds[0]), cmds[1..]);
    }
  }

  /** Among the setters, only setting a value moves the current mix: after any
      sequence of calls it is the last value set, or the initial mix. */
  lemma {:induction false} RunMixIsLastValue(s: MixState, cmds: seq<MixCommand>)
    ensures Run(s, cmds).mix == LastValue(cmds, s.mix)
    decreases |cmds|
  {
    if cmds != [] {
      var n := |cmds| - 1;
      assert cmds == cmds[..n] + [cmds[n]];
      RunSnoc(s, cmds[..n], cmds[n]);
      RunMixIsLastValue(s, cmds[..n]);
    }
  }

  /** A sequence of calls ending in a value-setting call leaves the mix steady
      (current equals desired), and the near-minimum test then reads that value. */
  lemma {:induction false} RunEndingInValueIsSteady(s: MixState, cmds: seq<MixCommand>, value: real)
    ensures Run(s, cmds + [ToValue(value)]).mix == Run(s, cmds + [ToValue(value)]).mixDesired == value
    ensures NearMin(Run(s, cmds + [ToValue(value)])) <==> value < 1.25 * s.mixMin
  {
    RunSnoc(s, cmds, ToValue(value));
    RunKeepsPresets(s, cmds);
  }

  // ---------------------------------------------------------------------
  // The controller object
  // ---------------------------------------------------------------------

  /** The mix-related fields of the multicopter attitude controller. The
      current and desired mix belong to the shared attitude-controller base;
      the three presets are tunable parameters. */
  class AttitudeControlMulti {
    var throttleRpyMix: real
    var throttleRpyMixDesired: real
    var thrMixMan: real
    var thrMixMin: real
    var thrMixMax: real

    ghost function Model(): MixState
      reads this
    {
      MixState(throttleRpyMix, throttleRpyMixDesired, thrMixMin, thrMixMan, thrMixMax)
    }

    /** The base class and the parameter store supply the initial values. */
    constructor (mix: real, mixDesired: real, mixMin: real, mixMan: real, mixMax: real)
      ensures Model() == MixState(mix, mixDesired, mixMin, mixMan, mixMax)
    {
      throttleRpyMix := mix;
      throttleRpyMixDesired := mixDesired;
      thrMixMin := mixMin;
      thrMixMan := mixMan;
      thrMixMax := mixMax;
    }

    method SetThrottleMixMin()
      modifies this`throttleRpyMixDesired
      ensures throttleRpyMixDesired == thrMixMin
      ensures Model() == MixToMin(old(Model()))
    {
      throttleRpyMixDesired := thrMixMin;
    }

    method SetThrottleMixMan()
      modifies this`throttleRpyMixDesired
      ensures throttleRpyMixDesired == thrMixMan
      ensures Model() == MixToMan(old(Model()))
    {
      throttleRpyMixDesired := thrMixMan;
    }

    method SetThrottleMixValue(value: real)
      modifies this`throttleRpyMix, this`throttleRpyMixDesired
      ensures throttleRpyMix == throttleRpyMixDesired == value
      ensures Model() == MixToValue(old(Model()), value)
    {
      throttleRpyMix := value;
      throttleRpyMixDesired := throttleRpyMix;
    }

    /** The current mix; a read that changes nothing. */
    method GetThrottleMix() returns (r: real)
      ensures r == Model().mix
    {
      r := throttleRpyMix;
    }

    /** Whether the current mix is below 1.25 times the landing preset; a read
        that changes nothing. */
    method IsThrottleMixMin() returns (b: bool)
      ensures b <==> throttleRpyMix < 1.25 * thrMixMin
      ensures b == NearMin(Model())
    {
      b := throttleRpyMix < 1.25 * thrMixMin;
    }
  }
}
