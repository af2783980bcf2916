/**
 Model of SickLDMRS::update_config, the reconfiguration step.

 The step validates the requested configuration and stores it as the
 current one whatever happens next. It then looks up the LD-MRS device. With
 no device it warns and stops. With a device it sends both angles in one
 call, then runs the frequency switch. That switch has no break statements,
 so control falls from the matching arm through every later arm, down to the
 default arm's error line.

 The step is a pure function from the stored configuration, the request and
 the device lookup's result to the new stored configuration and the trace of
 device calls and log lines. Device calls are assumed to succeed, since the
 step ignores their results.
 */
module Reconfiguration {
  import opened DriverConfig

  datatype Option<T> = None | Some(value: T)

  /** The LD-MRS device handle the device manager hands out; opaque here. */
  datatype Device = Device(deviceId: nat)

  /** One observable effect of the step: a log line or a call on the device. */
  datatype Effect =
    | AngleWarning
    | NoConnectionWarning
    | SetScanAngles(start: real, end: real)
    | SetScanFrequency(hz: real)
    | UnknownFrequencyError(selector: ScanFrequency)

  /** The configuration the step stores and the effects it produces, in order. */
  datatype Outcome = Outcome(config: Config, trace: seq<Effect>)

  predicate IsDeviceCall(e: Effect) {
    e.SetScanAngles? || e.SetScanFrequency?
  }

  /** The physical frequency, in Hz, each enumerator names; none for any other value. */
  function Frequency(f: ScanFrequency): (r: Option<real>)
    ensures r.Some? <==> !f.Unlisted?
    ensures r.Some? ==> r.value in {12.5, 25.0, 50.0}
  {
    match f
    case ScanFreq1250 => Some(12.5)
    case ScanFreq2500 => Some(25.0)
    case ScanFreq5000 => Some(50.0)
    case Unlisted(_) => None
  }

  // ---------------------------------------------------------------------------
  // The frequency switch as written

  /** The arms of the frequency switch in source order; the last is the default arm. */
  function SwitchArms(f: ScanFrequency): seq<Effect> {
    [SetScanFrequency(12.5), SetScanFrequency(25.0), SetScanFrequency(50.0), UnknownFrequencyError(f)]
  }

  /** Where control enters the switch: the arm under the matching case label, else the default arm. */
  function EntryArm(f: ScanFrequency): nat {
    match f
    case ScanFreq1250 => 0
    case ScanFreq2500 => 1
    case ScanFreq5000 => 2
    case Unlisted(_) => 3
  }

  /**
   The switch as written: control enters at the matching arm and, with no
   break, runs every arm after it. The matching arm's frequency is sent first,
   the 50 Hz arm is always the last frequency sent, and the error line closes
   every path, matched or not.
   */
  function FallThroughTrace(f: ScanFrequency): (r: seq<Effect>)
    ensures |r| >= 1 && r[|r| - 1] == UnknownFrequencyError(f)
    ensures forall i :: 0 <= i < |r| - 1 ==> r[i].SetScanFrequency?
    ensures Frequency(f).None? ==> r == [UnknownFrequencyError(f)]
    ensures Frequency(f).Some? ==> |r| >= 2 && r[0] == SetScanFrequency(Frequency(f).value)
    ensures Frequency(f).Some? ==> r[|r| - 2] == SetScanFrequency(50.0)
  {
    SwitchArms(f)[EntryArm(f)..]
  }

  /** The frequency calls of each selector, spelled out. */
  lemma FallThroughTraces(n: int)
    ensures FallThroughTrace(ScanFreq1250)
         == [SetScanFrequency(12.5), SetScanFrequency(25.0), SetScanFrequency(50.0), UnknownFrequencyError(ScanFreq1250)]
    ensures FallThroughTrace(ScanFreq2500)
         == [SetScanFrequency(25.0), SetScanFrequency(50.0), UnknownFrequencyError(ScanFreq2500)]
    ensures FallThroughTrace(ScanFreq5000)
         == [SetScanFrequency(50.0), UnknownFrequencyError(ScanFreq5000)]
    ensures FallThroughTrace(Unlisted(n)) == [UnknownFrequencyError(Unlisted(n))]
  {
  }

  // ---------------------------------------------------------------------------
  // The step as written

  /** The warning validation logs, if any. */
  function ValidationLog(ch: Checked): seq<Effect> {
    if ch.warned then [AngleWarning] else []
  }

  /**
   update_config as written. The stored configuration is the validated
   request whether or not a device is found. Without a device the trace holds
   no device call and ends with the missing-connection warning. With one,
   exactly one angle call carries the validated angles, follows only the
   validation warning, and precedes every frequency call; the trace always
   ends with the unknown-frequency error line.
   */
  function UpdateConfig(current: Config, request: Config, ldmrs: Option<Device>): (r: Outcome)
    ensures r.config == Validate(request).config
    ensures |r.trace| >= 1
    ensures r.trace[0] == AngleWarning <==> !StrictWindow(request)
    ensures ldmrs.None? ==> forall i :: 0 <= i < |r.trace| ==> !IsDeviceCall(r.trace[i])
    ensures ldmrs.None? ==> r.trace[|r.trace| - 1] == NoConnectionWarning
    ensures ldmrs.None? ==> |r.trace| == |ValidationLog(Validate(request))| + 1
    ensures ldmrs.Some? ==>
              var k := |ValidationLog(Validate(request))|;
              && |r.trace| >= k + 2
              && r.trace[k + 1..] == FallThroughTrace(r.config.scanFrequency)
              && r.trace[k] == SetScanAngles(r.config.startAngle, r.config.endAngle)
              && (forall i :: 0 <= i < |r.trace| && i != k ==> !r.trace[i].SetScanAngles?)
              && (forall i :: 0 <= i <= k ==> !r.trace[i].SetScanFrequency?)
              && r.trace[|r.trace| - 1] == UnknownFrequencyError(r.config.scanFrequency)
  {
    var checked := Validate(request);
    var c := checked.config;
    match ldmrs
    case None =>
      Outcome(c, ValidationLog(checked) + [NoConnectionWarning])
    case Some(_) =>
      Outcome(c, ValidationLog(checked) + [SetScanAngles(c.startAngle, c.endAngle)]
                 + FallThroughTrace(c.scanFrequency))
  }

  /** The stored configuration depends on the request alone: not on the old one, not on the device. */
  lemma StoredConfigIgnoresDevice(current: Config, current': Config, request: Config,
                                  ldmrs: Option<Device>, ldmrs': Option<Device>)
    ensures UpdateConfig(current, request, ldmrs).config == UpdateConfig(current', request, ldmrs').config
  {
  }

  /**
   Re-applying the stored configuration reproduces the step exactly: the same
   stored configuration and the same trace, including the angle warning when
   the first request was snapped, since the snapped window still fails the test.
   */
  lemma UpdateConfigRepeatable(current: Config, request: Config, ldmrs: Option<Device>)
    ensures var r := UpdateConfig(current, request, ldmrs);
            UpdateConfig(r.config, r.config, ldmrs) == r
  {
    var r := UpdateConfig(current, request, ldmrs);
    assert Validate(r.config) == Validate(request);
  }

  /** A request with the window the wrong way round while no device is connected. */
  lemma NoDeviceScenario(current: Config)
    ensures UpdateConfig(current, Config(1.0, 2.0, "ldmrs", ScanFreq2500), None)
         == Outcome(Config(2.0, 2.0, "ldmrs", ScanFreq2500), [AngleWarning, NoConnectionWarning])
  {
  }

  // ---------------------------------------------------------------------------
  // What the trace leaves on the device

  /** The device settings the step can change. */
  datatype DeviceState = DeviceState(startAngle: real, endAngle: real, frequency: real)

  /** The device after one effect: calls change its settings, log lines do not. */
  function Perform(s: DeviceState, e: Effect): DeviceState {
    match e
    case SetScanAngles(a, b) => s.(startAngle := a, endAngle := b)
    case SetScanFrequency(hz) => s.(frequency := hz)
    case _ => s
  }

  /** The device after every effect of a trace, in order. */
  function Run(s: DeviceState, t: seq<Effect>): DeviceState
    decreases |t|
  {
    if t == [] then s else Run(Perform(s, t[0]), t[1..])
  }

  /** Running two traces one after the other is running their concatenation. */
  lemma {:induction false} RunAppend(s: DeviceState, a: seq<Effect>, b: seq<Effect>)
    ensures Run(s, a + b) == Run(Run(s, a), b)
    decreases |a|
  {
    if a == [] {
      assert a + b == b;
    } else {
      assert (a + b)[0] == a[0];
      assert (a + b)[1..] == a[1..] + b;
      RunAppend(Perform(s, a[0]), a[1..], b);
    }
  }

  /** A trace without device calls leaves the device as it was. */
  lemma {:induction false} RunWithoutCalls(s: DeviceState, t: seq<Effect>)
    requires forall i :: 0 <= i < |t| ==> !IsDeviceCall(t[i])
    ensures Run(s, t) == s
    decreases |t|
  {
    if t != [] {
      assert !IsDeviceCall(t[0]);
      RunWithoutCalls(Perform(s, t[0]), t[1..]);
    }
  }

  /** What the as-written frequency arms leave on the device. */
  lemma FallThroughEffect(s: DeviceState, f: ScanFrequency)
    ensures Run(s, FallThroughTrace(f)) == s.(frequency := if Frequency(f).Some? then 50.0 else s.frequency)
  {
  }

  /**
   Assuming each call takes effect: with a device, the step leaves the
   validated angles on it and, for every
   listed selector, 50 Hz, whatever the selector asked for; an unlisted
   selector leaves the frequency as it was. Without a device nothing changes.
   */
  lemma UpdateConfigDeviceState(current: Config, request: Config, ldmrs: Option<Device>, s: DeviceState)
    ensures var r := UpdateConfig(current, request, ldmrs);
            var f := r.config.scanFrequency;
            Run(s, r.trace)
              == if ldmrs.None? then s
                 else DeviceState(r.config.startAngle, r.config.endAngle,
                                  if Frequency(f).Some? then 50.0 else s.frequency)
  {
    var r := UpdateConfig(current, request, ldmrs);
    var c := r.config;
    var w := ValidationLog(Validate(request));
    RunWithoutCalls(s, w);
    if ldmrs.None? {
      RunWithoutCalls(s, r.trace);
    } else {
      var angles := SetScanAngles(c.startAngle, c.endAngle);
      assert r.trace == (w + [angles]) + FallThroughTrace(c.scanFrequency);
      RunAppend(s, w + [angles], FallThroughTrace(c.scanFrequency));
      RunAppend(s, w, [angles]);
      FallThroughEffect(Perform(s, angles), c.scanFrequency);
    }
  }

  /**
   The fall-through in action, assuming each call takes effect: a connected
   device asked for 12.5 Hz ends up
   at 50 Hz, after being sent three frequencies and with the unknown-frequency
   error logged.
   */
  lemma FallThroughCounterexample(s: DeviceState)
    ensures var request := Config(0.5, -0.5, "ldmrs", ScanFreq1250);
            var r := UpdateConfig(request, request, Some(Device(1)));
            && r.trace == [SetScanAngles(0.5, -0.5), SetScanFrequency(12.5), SetScanFrequency(25.0),
                           SetScanFrequency(50.0), UnknownFrequencyError(ScanFreq1250)]
            && Run(s, r.trace).frequency == 50.0 != Frequency(ScanFreq1250).value
  {
    var request := Config(0.5, -0.5, "ldmrs", ScanFreq1250);
    UpdateConfigDeviceState(request, request, Some(Device(1)), s);
  }

  // ---------------------------------------------------------------------------
  // The step as evidently intended

  /**
   The frequency switch with a break after every arm: exactly one effect,
   which is the one frequency call the selector names, or the error line for
   an unlisted selector and only then.
   */
  function IntendedFrequencyTrace(f: ScanFrequency): (r: seq<Effect>)
    ensures |r| == 1
    ensures r[0].SetScanFrequency? <==> Frequency(f).Some?
    ensures r[0].SetScanFrequency? ==> r[0].hz == Frequency(f).value
    ensures r[0].UnknownFrequencyError? <==> f.Unlisted?
  {
    match Frequency(f)
    case Some(hz) => [SetScanFrequency(hz)]
    case None => [UnknownFrequencyError(f)]
  }

  /** Breaking after every arm keeps exactly the arm control enters. */
  lemma IntendedIsEntryArm(f: ScanFrequency)
    ensures IntendedFrequencyTrace(f) == [FallThroughTrace(f)[0]]
  {
  }

  /**
   update_config with a strict validator and a switch that breaks. The
   stored configuration is the margin-validated request; a connected device
   is sent one angle call and then one frequency call, or the error line for
   an unlisted selector.
   */
  function UpdateConfigIntended(current: Config, request: Config, ldmrs: Option<Device>, margin: real): (r: Outcome)
    requires margin > 0.0
    ensures r.config == ValidateWithMargin(request, margin).config
    ensures StrictWindow(r.config)
    ensures |r.trace| == |ValidationLog(ValidateWithMargin(request, margin))| + (if ldmrs.Some? then 2 else 1)
    ensures r.trace[0] == AngleWarning <==> !StrictWindow(request)
    ensures ldmrs.None? ==> forall i :: 0 <= i < |r.trace| ==> !IsDeviceCall(r.trace[i])
    ensures ldmrs.None? ==> |r.trace| >= 1 && r.trace[|r.trace| - 1] == NoConnectionWarning
    ensures ldmrs.Some? ==>
              && |r.trace| >= 2
              && (forall i :: 0 <= i < |r.trace| - 2 ==> !IsDeviceCall(r.trace[i]))
              && r.trace[|r.trace| - 2] == SetScanAngles(r.config.startAngle, r.config.endAngle)
              && r.trace[|r.trace| - 1] == IntendedFrequencyTrace(r.config.scanFrequency)[0]
  {
    var checked := ValidateWithMargin(request, margin);
    var c := checked.config;
    match ldmrs
    case None =>
      Outcome(c, ValidationLog(checked) + [NoConnectionWarning])
    case Some(_) =>
      Outcome(c, ValidationLog(checked) + [SetScanAngles(c.startAngle, c.endAngle)]
                 + IntendedFrequencyTrace(c.scanFrequency))
  }

  /**
   Assuming each call takes effect: with a device, the intended step leaves
   a strict window on it and the
   frequency the selector names; an unlisted selector leaves the frequency as
   it was.
   */
  lemma UpdateConfigIntendedDeviceState(current: Config, request: Config, ldmrs: Option<Device>,
                                        margin: real, s: DeviceState)
    requires margin > 0.0
    requires ldmrs.Some?
    ensures var r := UpdateConfigIntended(current, request, ldmrs, margin);
            var f := r.config.scanFrequency;
            var d := Run(s, r.trace);
            && d.startAngle > d.endAngle
            && d.frequency == (if Frequency(f).Some? then Frequency(f).value else s.frequency)
  {
    var r := UpdateConfigIntended(current, request, ldmrs, margin);
    var c := r.config;
    var w := ValidationLog(ValidateWithMargin(request, margin));
    var angles := SetScanAngles(c.startAngle, c.endAngle);
    var tail := IntendedFrequencyTrace(c.scanFrequency);
    assert r.trace == (w + [angles]) + tail;
    RunWithoutCalls(s, w);
    RunAppend(s, w + [angles], tail);
    RunAppend(s, w, [angles]);
  }
}
