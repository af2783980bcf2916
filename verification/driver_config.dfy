/**
 Model of the driver configuration and of SickLDMRS::validate_config.

 The scanner's angle convention decreases across the sweep, so a usable
 window has its start angle above its end angle. Validation never rejects a
 request: when the start angle is not above the end angle it warns and moves
 the start angle onto the end angle. Angles are only compared and copied, so
 they are real numbers here.
 */
module DriverConfig {

  /**
   The scan frequency enumeration of the driver configuration. The three
   enumerators name 12.5, 25 and 50 Hz; any other integer the configuration
   may hold is Unlisted. The value of Unlisted is taken to be none of the
   three enumerators' values: in the source such a value would select that
   enumerator's case.
   */
  datatype ScanFrequency = ScanFreq1250 | ScanFreq2500 | ScanFreq5000 | Unlisted(value: int)

  /** The fields of the driver configuration the application reads. */
  datatype Config = Config(startAngle: real, endAngle: real, frameId: string, scanFrequency: ScanFrequency)

  /** A validated configuration and whether validation logged its warning. */
  datatype Checked = Checked(config: Config, warned: bool)

  /** The window invariant the device expects: the start angle strictly above the end angle. */
  predicate StrictWindow(c: Config) {
    c.startAngle > c.endAngle
  }

  /** Only the start angle may differ between two configurations. */
  predicate SameButStart(c: Config, d: Config) {
    c.endAngle == d.endAngle && c.frameId == d.frameId && c.scanFrequency == d.scanFrequency
  }

  /**
   validate_config as written: a start angle at or below the end angle is
   snapped onto the end angle, with one warning; otherwise nothing changes.
   */
  function Validate(c: Config): (r: Checked)
    ensures r.config.startAngle >= r.config.endAngle
    ensures SameButStart(c, r.config)
    ensures r.warned <==> !StrictWindow(c)
    ensures !r.warned ==> r.config == c
    ensures r.warned ==> r.config.startAngle == c.endAngle
  {
    if c.startAngle <= c.endAngle then
      Checked(c.(startAngle := c.endAngle), true)
    else
      Checked(c, false)
  }

  /** Validating a validated configuration leaves it as it is. */
  lemma ValidateIdempotent(c: Config)
    ensures Validate(Validate(c).config).config == Validate(c).config
  {
  }

  /**
   The snap lands exactly on the end angle, which the validator's own test
   still rejects: the corrected window is not strict, and validating it again
   logs the warning again.
   */
  lemma SnapLeavesEquality(c: Config)
    requires !StrictWindow(c)
    ensures !StrictWindow(Validate(c).config)
    ensures Validate(c).config.startAngle == Validate(c).config.endAngle
    ensures Validate(Validate(c).config).warned
  {
  }

  /** A concrete request on which the as-written validator leaves a non-strict window. */
  lemma SnapCounterexample()
    ensures var c := Config(1.0, 2.0, "ldmrs", ScanFreq2500);
            Validate(c).config.startAngle == 2.0 && !StrictWindow(Validate(c).config)
  {
  }

  /**
   Validation with a positive margin: a start angle at or below the end angle
   is placed the margin above the end angle, so every result is a strict
   window. The margin stands for the device's angular resolution.
   */
  function ValidateWithMargin(c: Config, margin: real): (r: Checked)
    requires margin > 0.0
    ensures StrictWindow(r.config)
    ensures SameButStart(c, r.config)
    ensures r.warned <==> !StrictWindow(c)
    ensures !r.warned ==> r.config == c
  {
    if c.startAngle <= c.endAngle then
      Checked(c.(startAngle := c.endAngle + margin), true)
    else
      Checked(c, false)
  }

  /** With a margin, validating a validated configuration neither changes it nor warns. */
  lemma ValidateWithMarginSettles(c: Config, margin: real)
    requires margin > 0.0
    ensures var d := ValidateWithMargin(c, margin).config;
            ValidateWithMargin(d, margin) == Checked(d, false)
  {
  }

  /** Both validators agree on every request that already has a strict window. */
  lemma ValidatorsAgreeOnStrict(c: Config, margin: real)
    requires margin > 0.0
    requires StrictWindow(c)
    ensures Validate(c) == ValidateWithMargin(c, margin) == Checked(c, false)
  {
  }
}
