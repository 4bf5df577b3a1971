# VentiladorCtrl: the enclosure fan and vent-actuator controller

This project models `VentiladorCtrl`, the thermal actuation controller of an
environmental-monitoring node. The controller drives a 12 V fan and a linear
actuator that closes a vent door, based on the enclosure temperature, with
hysteresis:

- A reading at or above `temp_on` (default 27.0 °C) while the fan is off turns
  the fan ON. The vent opens (actuator line LOW) and any pending actuator
  release is cancelled.
- A reading at or below `temp_off` (default 26.0 °C) while the fan is on turns
  the fan OFF. The actuator line goes HIGH to close the vent, and a one-shot
  release is started. When it goes off (after `PULSO_ACTUADOR_S` = 15 s), it
  drops the actuator again.
- Every other reading, and a missing reading, changes nothing.
- Each transition calls the optional state-change callback with the new fan
  state.
- `cleanup` cancels the release and drives both lines LOW.

Files:

- `optional.dfy`: module `Optional`, the `Option` type for a reading that may
  be missing.
- `ventilador_spec.dfy`: module `VentiladorSpec`, the controller as a value.
  - `Ctrl` is one snapshot of everything the controller owns or drives: the
    fan and actuator flags, the held timer reference, the set of pending
    releases, both line levels, and the callback and what it was told.
  - It has one function per operation, and `Run` for a sequence of events.
  - The properties are proved here, in the functions' contracts and in lemmas.
- `ventilador.dfy`: module `Ventilador`, the class `VentiladorCtrl`. It has the
  same fields, updated in place by methods named after the source's methods.
  - Each method is proved to perform the transition the matching function of
    `VentiladorSpec` defines.
  - The constructors, `ControlByTemperature`, `TurnFanOn`, `TurnFanOff`,
    `FireRelease` and `Cleanup` are proved to keep the invariant `Valid()`.
    `CancelReleaseTimer` keeps it when it holds on entry; `TurnFanOn` calls it
    halfway through its update, when it does not hold yet.
  - `ResetActuator` is the release callback and does not keep `Valid()` on its
    own: it drops the reference but cannot end the timer it runs on.
    `FireRelease`, its only caller, first removes that release from `pending`.
  - `CheckThresholdOnOff` replays the unit test.

Timers are modelled by identity. `timer` is the controller's reference
(`_timer_actuador`). `pending` is the set of releases that have started and
have neither been cancelled nor gone off. The OFF transition overwrites the
reference without cancelling the old one. So "at most one pending release" is
not built into the model: it is proved from the invariant `Inv`. `Inv` says
that the fan and the actuator are never both on, that a pending release is
always the held one, and that while one is pending the fan is off and the
actuator is engaged.

Three facts about the code shape the model:

- The controller has no CPU-temperature evaluation.
- The constructor does not check that `temp_on > temp_off`.
- The OFF transition does not cancel a held release before scheduling a new
  one.

The lemma `DegenerateBandChatters` shows what an unchecked band allows.

## Model

| member | source | states |
|---|---|---|
| VentiladorSpec.Init | src/control/ventilador.py:57-69 | construction starts with the fan off, the actuator relaxed, no release pending, both lines LOW, and the invariant, line agreement and notification consistency all holding |
| VentiladorSpec.Control | src/control/ventilador.py:73-87 | a missing reading changes no flag, line, timer or notification; the fan flag changes if and only if the reading triggers ON or OFF; a reading that triggers neither changes nothing at all; the invariant is kept, so at most one release is pending |
| VentiladorSpec.ControlTurnsOn | src/control/ventilador.py:90-101 | from fan off, a reading >= temp_on gives: fan on, actuator off, no release pending or held, fan HIGH, actuator LOW, and `true` notified if a callback is attached |
| VentiladorSpec.ControlTurnsOff | src/control/ventilador.py:103-117 | from fan on, a reading <= temp_off gives: fan off, actuator engaged, exactly one release pending (the new, held one), fan LOW, actuator HIGH, and `false` notified if a callback is attached |
| VentiladorSpec.ControlNotifiesOnlyOnTransition | src/control/ventilador.py:100-113 | with a callback attached, a notification is sent exactly when the fan state changes, and it carries the new state |
| VentiladorSpec.ControlRepeatIsIdempotent | src/control/ventilador.py:82-87 | with temp_off < temp_on, evaluating the same reading twice has the effect of evaluating it once |
| VentiladorSpec.DegenerateBandChatters | src/control/ventilador.py:44-55 | the band is not checked at construction: with temp_on 26.0 and temp_off 27.0, repeating the reading 26.5 turns the fan on and then off |
| VentiladorSpec.FireReleasesActuator | src/control/ventilador.py:119-123 | a pending release going off clears the actuator flag, drives its line LOW and leaves no timer held or pending; the fan flag, fan line and notifications are unchanged |
| VentiladorSpec.CancelTimerIdempotent | src/control/ventilador.py:126-129 | cancelling with no timer held changes nothing, cancelling twice equals cancelling once, and afterwards no timer is held |
| VentiladorSpec.ResetActuatorIdempotent | src/control/ventilador.py:119-123 | releasing an already released actuator is a no-op, and after a release the actuator is off |
| VentiladorSpec.FanOffKeepsEarlierReleases | src/control/ventilador.py:115-117 | the OFF transition adds a new pending release and cancels none of the earlier ones |
| VentiladorSpec.OffThenOnCancelsRelease | src/control/ventilador.py:95-97 | an OFF transition followed at once by an ON-triggering reading leaves no release pending, the actuator released and its line LOW |
| VentiladorSpec.CleanupForcesLow | src/control/ventilador.py:132-140 | cleanup leaves no release pending or held and both lines LOW, and keeps the fan and actuator flags |
| VentiladorSpec.AtMostOnePending | src/control/ventilador.py:108-117 | under the invariant at most one release is pending, while one is the fan is off and the actuator is engaged, and the fan and actuator are never both on |
| VentiladorSpec.StepPreservesInv | src/control/ventilador.py:73-140 | every reading, release firing and cleanup preserves the invariant |
| VentiladorSpec.RunPreservesInv | src/control/ventilador.py:73-140 | every sequence of events keeps the invariant, so there is never more than one pending release and the fan and actuator are never both on |
| VentiladorSpec.StepKeepsPinsAgree | src/control/ventilador.py:90-123 | readings and release firings keep each line HIGH exactly when its flag is set |
| VentiladorSpec.RunKeepsPinsAgree | src/control/ventilador.py:90-123 | any sequence of events without a cleanup keeps the lines in agreement with the flags |
| VentiladorSpec.DeadBandRunIsNoop | src/control/ventilador.py:82-87 | any number of readings strictly inside the band change nothing |
| VentiladorSpec.StepKeepsNotifyConsistent | src/control/ventilador.py:100-113 | with a callback attached, each event keeps the notifications alternating, with the latest equal to the fan state |
| VentiladorSpec.RunNotificationsAlternate | src/control/ventilador.py:100-113 | with a callback attached, the notifications of any run alternate, and the latest is the current fan state |
| VentiladorSpec.RunWithoutCallbackIsSilent | src/control/ventilador.py:69-113 | with no callback attached, no run sends any notification |
| VentiladorSpec.DefaultBandOnThenOff | src/tests/test_ventilador.py:4-15 | with the default band, 28.0 turns the fan on from construction, and 25.0 then turns it off |
| VentiladorSpec.DefaultBandScenario | src/control/ventilador.py:73-123 | readings 28.0, 25.0, 26.5 give ON, then OFF with release 0 pending, then nothing; the callback is told true then false, and the actuator stays engaged until release 0 goes off |
| Ventilador.VentiladorCtrl.constructor | src/control/ventilador.py:44-71 | the thresholds and lines are stored as given, and the state is the initial one |
| Ventilador.VentiladorCtrl.Default | src/control/ventilador.py:35-60 | construction with lines 18 and 22 and the band 27.0 / 26.0 |
| Ventilador.VentiladorCtrl.ControlByTemperature | src/control/ventilador.py:73-87 | performs `VentiladorSpec.Control`, keeps the invariant, leaves at most one release pending, changes the fan exactly on a triggering reading, and does nothing on a missing reading |
| Ventilador.VentiladorCtrl.TurnFanOn | src/control/ventilador.py:90-101 | performs `FanOn`: fan on and HIGH, actuator off and LOW, nothing pending |
| Ventilador.VentiladorCtrl.TurnFanOff | src/control/ventilador.py:103-117 | performs `FanOff`: fan off and LOW, actuator on and HIGH, exactly the new release pending and held |
| Ventilador.VentiladorCtrl.ResetActuator | src/control/ventilador.py:119-124 | performs the release callback: actuator off and LOW, reference dropped |
| Ventilador.VentiladorCtrl.FireRelease | src/control/ventilador.py:115-123 | a pending release going off: actuator off and LOW, nothing pending, fan untouched, invariant kept |
| Ventilador.VentiladorCtrl.CancelReleaseTimer | src/control/ventilador.py:126-129 | performs `CancelTimer`: no timer held afterwards, nothing changed when none was held, and the invariant kept when it held before |
| Ventilador.VentiladorCtrl.Cleanup | src/control/ventilador.py:132-141 | nothing pending, both lines LOW, flags unchanged, invariant kept |
| Ventilador.CheckThresholdOnOff | src/tests/test_ventilador.py:4-15 | a default-built controller starts off; 28.0 turns it on, and 25.0 turns it off |

## Left out

- Ventilador.VentiladorCtrl.TurnFanOff: requires the fan to be on. Its only
  caller, the OFF branch of `controlar_por_temperatura`, guarantees this. If it
  ran with a release held, that release would be orphaned.
  `FanOffKeepsEarlierReleases` states what happens then.
- Time: the 15 s delay before a release goes off is not modelled. A release
  goes off whenever a `ReleaseFires` event, or a `FireRelease` call, names a
  pending one.
- Concurrency: the background timer thread is not modelled. Neither is the race
  between `cancel()` and a timer that is already going off. Each event is taken
  as atomic.
- GPIO availability: the `GPIO_DISPONIBLE` branch only decides whether the
  physical output is written. The model always records the line levels, as if
  the real and simulated backends were the same. `GPIO.setmode` and
  `GPIO.setup` are not modelled.
- Logging calls are not modelled.
- Callback exceptions: the model assumes the callback returns normally. In
  the OFF transition the callback runs after the lines and flags are set but
  before the release timer is created and started. If it raised, the fan would
  be off and the actuator HIGH with no release scheduled. The actuator would
  then stay energised until the next ON transition or `cleanup`. In the ON
  transition the callback runs last, so the state would already be complete.
- The callback itself is external code. The model only records which values
  it was called with.
- Temperatures are exact reals. Floating-point rounding is not modelled, and
  neither is NaN. With NaN every comparison is false, so a NaN reading would
  act like a dead-band reading.
- Processor-temperature control: `controlar_por_temperatura_cpu`, called from
  the main loop, does not exist in the controller, whose documentation says
  CPU control was removed.
- Sensor acquisition, derived indices, CSV export, telemetry publishing, git
  helpers, logging setup and the main loop are I/O and process glue around the
  controller. They are not part of this model.
