# SICK LD-MRS application core in Dafny

This project models `SickLDMRS`, the application class of the SICK LD-MRS
ROS driver (`src/sick_ldmrs800001s01.cpp`). The device manager calls into it
in two ways, and the model covers both:

- **Data dispatch** (`setData`). Every payload the manager delivers is
  classified by its datatype tag into one of seven known kinds or the default
  "(unknown)" case. A summary label is built from counts that depend on the
  kind, and the source id is read. One summary line is logged. A scan first
  logs one start-timestamp line per scanner head. Module `Payloads`,
  file `payloads.dfy`.
- **Configuration validation** (`validate_config`). The scanner's angles
  decrease across the sweep, so a usable window has its start angle above its
  end angle. A request whose start angle is at or below its end angle gets a
  warning, and its start angle is moved onto the end angle. Module
  `DriverConfig`, file `driver_config.dfy`.
- **Reconfiguration** (`update_config`). The step validates the request and
  stores it as the current configuration. It then looks up the LD-MRS device.
  With no device it warns and returns. With a device it sends both angles in
  one call, then runs the frequency switch. That switch has no `break`, so
  every arm after the matching one runs too, down to the default arm's
  "Unknown scan frequency" error. Module `Reconfiguration`, file
  `reconfiguration.dfy`.

The model is functional. A payload is a datatype with one constructor per
kind plus `Unknown`, and the dispatch returns its log as a sequence of events.
The reconfiguration step is a pure function from (stored configuration,
request, device lookup result) to (new stored configuration, trace). The trace
holds device calls and log lines in the order they happen. A small device
state machine (`Run`) reads a trace and gives the angles and frequency it
leaves on the device. That lets the model state what the fall-through
actually does to the scanner.

The model follows the code as written:

- Validation moves the start angle onto the end angle, with no margin.
- Both angles go to the device in one call.
- The frequency switch falls through.
- An unlisted selector is only logged.
- Device-call results are ignored; the model treats every call as taking effect.

The corrected behaviour is modelled separately, under "Findings".

Angles are `real`, because the code only compares and copies them.
Frequencies are the literals 12.5, 25.0 and 50.0 Hz.

## Model

| member | source | states |
|---|---|---|
| `Payloads.Classify` | src/sick_ldmrs800001s01.cpp:77-116 | Total over every payload. The "(unknown)" label comes back exactly for a tag outside the seven known ones. Each known kind's label carries that kind's count as the source prints it: points for a scan, objects, cases, case results, or measurement entries. A field set's label carries its field count and its exact valid-field count, which is no larger. A message's label carries its text. |
| `Payloads.ClassifySeparatesCases` | src/sick_ldmrs800001s01.cpp:77-116 | Two payloads get the same label word exactly when they fall into the same case of the switch. So each of the seven kinds has its own label, and every other tag shares the default one. |
| `Payloads.ValidFieldCount` | src/sick_ldmrs800001s01.cpp:99-100 | The valid-field count is at most the field count. It equals the field count exactly when every field is valid, and it is zero exactly when none is. |
| `Payloads.SetData` | src/sick_ldmrs800001s01.cpp:79-120 | A scan with k scanner heads logs exactly k start-time events, in scanner order, and then one summary event. Any other payload logs just the summary event. The summary is always the last event and the only one of its kind, and it carries the label and the source id. |
| `DriverConfig.Validate` | src/sick_ldmrs800001s01.cpp:123-130 | The result always has start >= end. The warning is logged exactly when the input had start <= end, and then start is set equal to end. Otherwise the config is returned unchanged. The end angle, frame id and scan frequency are never changed. |
| `DriverConfig.ValidateIdempotent` | src/sick_ldmrs800001s01.cpp:125-129 | Validating an already validated configuration does not change it. |
| `DriverConfig.SnapLeavesEquality` | src/sick_ldmrs800001s01.cpp:125-128 | After a correction the window is not strict: start equals end. Validating it again logs the warning again. |
| `DriverConfig.SnapCounterexample` | src/sick_ldmrs800001s01.cpp:125-128 | The request (start 1.0, end 2.0) is corrected to start 2.0 = end. That is not a strict window. |
| `DriverConfig.ValidateWithMargin` | src/sick_ldmrs800001s01.cpp:125-128 | The corrected validator, given a positive margin. Every result has start > end. Other fields are unchanged. It warns exactly when the input was not strict, and it is the identity otherwise. |
| `DriverConfig.ValidateWithMarginSettles` | src/sick_ldmrs800001s01.cpp:125-129 | With a margin, a validated configuration passes validation again without change and without a warning. |
| `DriverConfig.ValidatorsAgreeOnStrict` | src/sick_ldmrs800001s01.cpp:125-129 | On a request that is already strict, both validators return it unchanged and do not warn. |
| `Reconfiguration.Frequency` | src/sick_ldmrs800001s01.cpp:157-162 | The pairing of case labels and frequency literals: exactly the three listed selectors name a frequency, and it is one of 12.5, 25 or 50 Hz. |
| `Reconfiguration.FallThroughTrace` | src/sick_ldmrs800001s01.cpp:155-165 | Every path ends with the unknown-frequency error. Everything before that error is a frequency call. An unlisted selector makes no call. A listed selector first sends its own frequency, and the last frequency it sends is 50 Hz. |
| `Reconfiguration.FallThroughTraces` | src/sick_ldmrs800001s01.cpp:155-165 | 1250 sends 12.5, 25 and 50 Hz. 2500 sends 25 and 50 Hz. 5000 sends 50 Hz. Any other value sends nothing. Each ends with the error line. |
| `Reconfiguration.UpdateConfig` | src/sick_ldmrs800001s01.cpp:132-166 | The stored config is the validated request. The trace starts with the angle warning exactly when the request was not strict. With no device there is no device call, and the trace ends with the missing-connection warning. The no-device trace holds only the optional angle warning and that warning. With a device there is exactly one angle call. It carries the validated angles and comes right after any validation warning. Everything after it is exactly the fall-through frequency trace for the stored selector, ending with the unknown-frequency error. |
| `Reconfiguration.StoredConfigIgnoresDevice` | src/sick_ldmrs800001s01.cpp:134-148 | The stored config does not depend on the previously stored config or on whether a device was found. |
| `Reconfiguration.UpdateConfigRepeatable` | src/sick_ldmrs800001s01.cpp:134-165 | Applying the stored config again gives the same stored config and the same trace. This includes the angle warning, because a snapped window fails the test again. |
| `Reconfiguration.NoDeviceScenario` | src/sick_ldmrs800001s01.cpp:134-148 | With no device, the request (start 1.0, end 2.0, 25 Hz) is stored as start 2.0 = end. The trace is the angle warning followed by the missing-connection warning. |
| `Reconfiguration.FallThroughEffect` | src/sick_ldmrs800001s01.cpp:155-165 | The frequency arms leave the device at 50 Hz for every listed selector. An unlisted selector leaves the frequency unchanged. |
| `Reconfiguration.UpdateConfigDeviceState` | src/sick_ldmrs800001s01.cpp:150-165 | With a device, the step leaves the validated angles on it, and 50 Hz for every listed selector. Without a device, the device state is unchanged. |
| `Reconfiguration.FallThroughCounterexample` | src/sick_ldmrs800001s01.cpp:155-165 | A device asked for 12.5 Hz is sent 12.5, 25 and 50 Hz, the error is logged, and the device ends at 50 Hz instead of 12.5 Hz. |
| `Reconfiguration.IntendedFrequencyTrace` | src/sick_ldmrs800001s01.cpp:155-165 | The corrected switch produces exactly one effect. It is a frequency call with the selector's own frequency exactly when the selector is listed. It is the error line exactly when the selector is unlisted. |
| `Reconfiguration.IntendedIsEntryArm` | src/sick_ldmrs800001s01.cpp:155-165 | The corrected switch keeps only the arm that control enters in the as-written switch. |
| `Reconfiguration.UpdateConfigIntended` | src/sick_ldmrs800001s01.cpp:132-165 | The corrected step stores the margin-validated request, which is a strict window. The trace starts with the angle warning exactly when the request was not strict. With no device it makes no device call, and the trace is that optional warning followed by the missing-connection warning. With a device the trace is the optional warning, one angle call carrying the stored angles, and then the single corrected frequency effect. The unknown-frequency error therefore appears only when a device is present and the selector is unlisted. |
| `Reconfiguration.UpdateConfigIntendedDeviceState` | src/sick_ldmrs800001s01.cpp:150-165 | With a device, the corrected step leaves a strict window on it. It also leaves the selector's own frequency, or the old frequency for an unlisted selector. |

## Left out

- `main` (process start-up, manager construction, adding the device, spinning): bootstrap, not logic.
- The constructor's registration of `update_config` with the dynamic_reconfigure server: framework plumbing. The `level` argument of `update_config` is unused and is not modelled.
- Text formatting. This covers `::toString`, `Time::toString` and `Msg::toString`, the exact log strings, and the four `std::cout` lines that print the stored configuration. Labels and log lines are structured values.
- `Manager::getFirstDeviceByType` and the cast to the LD-MRS class: their result is the `Option<Device>` parameter. `setScanAngles` and `setScanFrequency` are trace entries that are assumed to succeed, because the code ignores their results.
- `Fields::getNumberOfValidFields`: its validity test is in a library that is not part of this model. A field carries a validity flag, and the model counts the flagged fields.
- The numeric values of the scan-frequency enumerators are defined in the driver's dynamic_reconfigure description, which is not part of this model. They are modelled as three named values plus `Unlisted(value)`, where `value` is taken to be none of the three enumerators' values.
- The end-angle-before-start-angle ordering mentioned in a comment at lines 150-152: the code never does it, and the device interface it calls takes both angles at once.
- Floating point: angles are `real` and are only compared and copied. Frequencies are exact constants.
- Concurrency between data delivery and reconfiguration: the code has no synchronisation to model.

## Findings

| source | as written | input that shows it | evidently intended | confidence | as-written member | corrected member |
|---|---|---|---|---|---|---|
| src/sick_ldmrs800001s01.cpp:155-165 | The frequency `switch` has no `break`. Control falls from the matching arm through every later arm and into `default`. | A connected device and selector 1250: 12.5, 25 and 50 Hz are sent, "Unknown scan frequency" is logged, and the device ends at 50 Hz. | One frequency call per listed selector, and the error only for an unlisted one. | high, not executed | `Reconfiguration.FallThroughCounterexample` | `Reconfiguration.UpdateConfigIntended` |
| src/sick_ldmrs800001s01.cpp:125-128 | The warning says the start angle must be greater than the end angle, but the correction sets it equal. The comment's planned `- 2 * ticks2rad` would even put it below the end angle. | Start 1.0 and end 2.0 become start 2.0 = end. Validating again warns again. | A start angle strictly above the end angle, by a positive margin. | medium, not executed | `DriverConfig.SnapCounterexample` | `DriverConfig.ValidateWithMargin` |
