/**
 * VentiladorCtrl: the fan and vent-actuator controller as an object whose
 * methods update its fields in place.  Each method is proved to make the
 * transition that module VentiladorSpec defines; every entry point keeps the
 * invariant Valid().
 */
module Ventilador {
  import opened Optional
  import opened VentiladorSpec

  /** Default BCM line of the fan. */
  const DefaultFanLine: int := 18
  /** Default BCM line that closes the vent. */
  const DefaultActuatorLine: int := 22

  class VentiladorCtrl {
    const fanLine: int
    const actuatorLine: int
    const tempOn: real
    const tempOff: real

    var fanOn: bool
    var actuatorOn: bool
    /** The held release timer, if any. */
    var timer: Option<TimerId>
    /** Identity for the next timer this controller starts. */
    var nextTimer: TimerId
    /** Releases started and neither cancelled nor fired (the background timers). */
    ghost var pending: set<TimerId>
    /** Levels last written to the fan and actuator lines. */
    var fanPin: Level
    var actuatorPin: Level
    /** Whether a state-change callback is attached; callers assign it. */
    var hasCallback: bool
    /** What the callback has been told, oldest first. */
    ghost var notified: seq<bool>

    ghost function Snapshot(): Ctrl
      reads this
    {
      Ctrl(fanOn, actuatorOn, timer, pending, nextTimer, fanPin, actuatorPin, hasCallback, notified)
    }

    ghost function BandOf(): Band {
      Band(tempOn, tempOff)
    }

    ghost predicate Valid()
      reads this
    {
      Inv(Snapshot())
    }

    /** Construction: thresholds recorded as given (the band is not checked),
        fan off, actuator relaxed, no timer, both lines LOW, no callback. */
    constructor (fanLine: int, actuatorLine: int, tempOn: real, tempOff: real)
      ensures Valid() && PinsAgree(Snapshot())
      ensures Snapshot() == Init()
      ensures this.fanLine == fanLine && this.actuatorLine == actuatorLine
      ensures this.tempOn == tempOn && this.tempOff == tempOff
    {
      this.fanLine := fanLine;
      this.actuatorLine := actuatorLine;
      this.tempOn := tempOn;
      this.tempOff := tempOff;
      fanOn := false;
      actuatorOn := false;
      timer := None;
      nextTimer := 0;
      pending := {};
      fanPin := Low;
      actuatorPin := Low;
      hasCallback := false;
      notified := [];
    }

    /** Construction with the default lines and the default 27.0 / 26.0 band. */
    constructor Default()
      ensures Valid() && Snapshot() == Init()
      ensures fanLine == DefaultFanLine && actuatorLine == DefaultActuatorLine
      ensures BandOf() == Band(DefaultTempOn, DefaultTempOff)
    {
      fanLine := DefaultFanLine;
      actuatorLine := DefaultActuatorLine;
      tempOn := DefaultTempOn;
      tempOff := DefaultTempOff;
      fanOn := false;
      actuatorOn := false;
      timer := None;
      nextTimer := 0;
      pending := {};
      fanPin := Low;
      actuatorPin := Low;
      hasCallback := false;
      notified := [];
    }

    /** One control cycle: no reading does nothing; otherwise the ON test,
        then the OFF test, at most one of which runs. */
    method ControlByTemperature(t: Option<real>)
      requires Valid()
      modifies this
      ensures Valid()
      ensures Snapshot() == Control(BandOf(), old(Snapshot()), t)
      ensures t.None? ==> Snapshot() == old(Snapshot())
      ensures old(fanOn) != fanOn <==> t.Some? && Triggers(BandOf(), old(Snapshot()), t.value)
      ensures |pending| <= 1
    {
      StepPreservesInv(BandOf(), Snapshot(), Reading(t));
      if t.None? {
        return;
      }
      var x := t.value;
      if x >= tempOn && !fanOn {
        TurnFanOn();
      } else if x <= tempOff && fanOn {
        TurnFanOff();
      }
      AtMostOnePending(Snapshot());
    }

    /** ON transition: fan HIGH, actuator LOW, flags updated, held release cancelled, callback told `true`. */
    method TurnFanOn()
      requires Valid()
      modifies this
      ensures Valid()
      ensures Snapshot() == FanOn(old(Snapshot()))
      ensures fanOn && !actuatorOn && timer == None && pending == {}
      ensures fanPin == High && actuatorPin == Low
    {
      fanPin := High;
      actuatorPin := Low;
      fanOn := true;
      actuatorOn := false;
      CancelReleaseTimer();
      if hasCallback {
        notified := notified + [true];
      }
    }

    /** OFF transition: fan LOW, actuator HIGH, flags updated, callback told
        `false`, and a new release started and held. */
    method TurnFanOff()
      requires Valid() && fanOn
      modifies this
      ensures Valid()
      ensures Snapshot() == FanOff(old(Snapshot()))
      ensures !fanOn && actuatorOn && timer == Some(old(nextTimer)) && pending == {old(nextTimer)}
      ensures fanPin == Low && actuatorPin == High
    {
      fanPin := Low;
      actuatorPin := High;
      fanOn := false;
      actuatorOn := true;
      if hasCallback {
        notified := notified + [false];
      }
      timer := Some(nextTimer);
      pending := pending + {nextTimer};
      nextTimer := nextTimer + 1;
    }

    /** The release callback: actuator LOW, flag cleared, reference dropped. */
    method ResetActuator()
      modifies this
      ensures Snapshot() == VentiladorSpec.ResetActuator(old(Snapshot()))
    {
      actuatorPin := Low;
      actuatorOn := false;
      timer := None;
    }

    /** Pending release `id` goes off and runs the release callback. */
    method FireRelease(id: TimerId)
      requires Valid() && id in pending
      modifies this
      ensures Valid()
      ensures Snapshot() == Fire(old(Snapshot()), id)
      ensures !actuatorOn && actuatorPin == Low && timer == None && pending == {}
      ensures fanOn == old(fanOn) && fanPin == old(fanPin)
    {
      pending := pending - {id};
      ResetActuator();
    }

    /** Cancels the held release, if any; with none held, changes nothing. */
    method CancelReleaseTimer()
      modifies this
      ensures Snapshot() == CancelTimer(old(Snapshot()))
      ensures timer == None
      ensures old(timer) == None ==> Snapshot() == old(Snapshot())
      ensures old(Valid()) ==> Valid()
    {
      if timer.Some? {
        pending := pending - {timer.value};
        timer := None;
      }
    }

    /** Shutdown: cancel the held release, drive both lines LOW; the flags stay. */
    method Cleanup()
      requires Valid()
      modifies this
      ensures Valid()
      ensures Snapshot() == VentiladorSpec.Cleanup(old(Snapshot()))
      ensures timer == None && pending == {} && fanPin == Low && actuatorPin == Low
      ensures fanOn == old(fanOn) && actuatorOn == old(actuatorOn)
    {
      CancelReleaseTimer();
      fanPin := Low;
      actuatorPin := Low;
    }
  }

  /**
   * The unit test of the controller: built with the defaults it starts off,
   * 28.0 turns it on and 25.0 turns it off.
   */
  method CheckThresholdOnOff() returns (initial: bool, afterWarm: bool, afterCool: bool)
    ensures !initial && afterWarm && !afterCool
  {
    var v := new VentiladorCtrl.Default();
    initial := v.fanOn;
    v.ControlByTemperature(Some(28.0));
    afterWarm := v.fanOn;
    v.ControlByTemperature(Some(25.0));
    afterCool := v.fanOn;
  }
}
