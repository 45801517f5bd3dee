/** The heater controller: every few seconds it reads the temperature
    sensor, switches the heater on exactly when heat is needed and no
    shutoff is suppressing it, and logs the state whenever something worth
    logging changed.

    The clock, the sensor and the shutoff object's answers are inputs; the
    calls made on the heater driver and on the state logger are recorded,
    in order, as the controller's call log. */
module Controller {

  datatype Option<T> = None | Some(value: T)

  const TempCheckIntervalSecs: real := 5.0
  const HeatPseudoTemp: int := 23

  /** A call the controller makes on a collaborator. */
  datatype Call =
    | HeaterEnable(on: bool)
    | LogState(pseudoTemp: int, currentTemp: real, desiredTemp: Option<real>, heatState: Option<bool>)

  /** A shutoff request held by the controller. Whether it is past or inside
      its suppression period is the shutoff's own business, asked at each
      check; the model only tells one request from another. */
  datatype Shutoff = Shutoff(id: nat)

  /** What one temperature check learns from outside: the sensor's humidity
      and temperature, and what the shutoff held at that moment (if any)
      answers to "beyond your suppression period?" and "in it?". */
  datatype Observation = Observation(
    humidity: real,
    temp: real,
    beyondSuppression: bool,
    inSuppression: bool)

  /** The controller's fields, plus the calls it has made so far. */
  datatype ControllerState = ControllerState(
    desiredTemp: real,
    currentTemp: Option<real>,
    currentHumidity: Option<real>,
    previousTemp: Option<real>,
    desiredTempChanged: bool,
    heaterIsOn: bool,
    shutoff: Option<Shutoff>,
    nextTempReadTime: real,
    calls: seq<Call>)

  // ---------------------------------------------------------------------
  // The specification of each operation on values

  /** A controller constructed at monotonic time `now`. */
  function Started(desiredTemp: real, now: real): ControllerState
  {
    ControllerState(desiredTemp, None, None, None, true, false, None, now, [])
  }

  /** A held shutoff that is past its suppression period is dropped. */
  function ExpireShutoff(shutoff: Option<Shutoff>, beyondSuppression: bool): Option<Shutoff>
  {
    if shutoff.Some? && beyondSuppression then None else shutoff
  }

  predicate HeaterShouldBeOn(desiredTemp: real, currentTemp: real, shutoff: Option<Shutoff>, inSuppression: bool)
  {
    desiredTemp - currentTemp > 0.0 && !(shutoff.Some? && inSuppression)
  }

  /** The state after one temperature check (_manage_temperature). */
  function Checked(s: ControllerState, obs: Observation): ControllerState
  {
    var shutoff := ExpireShutoff(s.shutoff, obs.beyondSuppression);
    var on := HeaterShouldBeOn(s.desiredTemp, obs.temp, shutoff, obs.inSuppression);
    var changing := on != s.heaterIsOn;
    var logs := Some(obs.temp) != s.previousTemp || changing || s.desiredTempChanged;
    var enabled := if changing then s.calls + [HeaterEnable(on)] else s.calls;
    var logged :=
      if logs then
        enabled + [LogState(HeatPseudoTemp, obs.temp,
                            if s.desiredTempChanged then Some(s.desiredTemp) else None,
                            if changing then Some(on) else None)]
      else enabled;
    s.(currentHumidity := Some(obs.humidity),
       currentTemp := Some(obs.temp),
       heaterIsOn := on,
       shutoff := if changing && on then None else shutoff,
       previousTemp := if logs then Some(obs.temp) else s.previousTemp,
       desiredTempChanged := if logs then false else s.desiredTempChanged,
       calls := logged)
  }

  /** The state after `update` at monotonic time `now`. */
  function Updated(s: ControllerState, now: real, obs: Observation): ControllerState
  {
    if now >= s.nextTempReadTime then Checked(s, obs).(nextTempReadTime := now + TempCheckIntervalSecs)
    else s
  }

  /** The state after `set_desired_temp` at monotonic time `now`. */
  function WithDesiredTemp(s: ControllerState, temperature: real, now: real): ControllerState
  {
    s.(desiredTemp := temperature, nextTempReadTime := now, desiredTempChanged := true)
  }

  // ---------------------------------------------------------------------
  // Views of the call log

  /** The values passed to heater.enable, in order. */
  function EnableCalls(calls: seq<Call>): seq<bool>
  {
    if calls == [] then []
    else
      var last := calls[|calls| - 1];
      EnableCalls(calls[..|calls| - 1]) + (if last.HeaterEnable? then [last.on] else [])
  }

  /** How many times log_state was called. */
  function LogCount(calls: seq<Call>): nat
  {
    if calls == [] then 0
    else LogCount(calls[..|calls| - 1]) + (if calls[|calls| - 1].LogState? then 1 else 0)
  }

  /** heater.enable is never called with the value it was last given: the
      calls alternate on, off, on, ... and heater_is_on is the last value
      passed (false before the first call). */
  ghost predicate HeaterTracksCalls(s: ControllerState)
  {
    var en := EnableCalls(s.calls);
    (forall k :: 0 <= k < |en| ==> en[k] == (k % 2 == 0)) && (s.heaterIsOn <==> |en| % 2 == 1)
  }

  // ---------------------------------------------------------------------
  // Properties

  /** A new controller has the heater off, no shutoff, a pending setpoint
      report, and its first check due at once. */
  lemma StartedState(desiredTemp: real, now: real)
    ensures var s := Started(desiredTemp, now);
      !s.heaterIsOn && s.desiredTempChanged && s.shutoff == None &&
      s.nextTempReadTime == now && s.calls == [] && HeaterTracksCalls(s)
  {
  }

  /** After a check the heater is on exactly when heat is needed and no
      shutoff that is not past its suppression period is in it. */
  lemma CheckHeaterRule(s: ControllerState, obs: Observation)
    ensures Checked(s, obs).heaterIsOn <==>
      s.desiredTemp > obs.temp &&
      !(s.shutoff.Some? && !obs.beyondSuppression && obs.inSuppression)
  {
  }

  /** A check never introduces a shutoff: it keeps the one held unless that
      one is past its suppression period or the heater is being switched on. */
  lemma CheckShutoff(s: ControllerState, obs: Observation)
    ensures var t := Checked(s, obs);
      (t.shutoff.Some? <==>
        s.shutoff.Some? && !obs.beyondSuppression && !(t.heaterIsOn && !s.heaterIsOn)) &&
      (t.shutoff.Some? ==> t.shutoff == s.shutoff)
  {
  }

  lemma AppendCall(calls: seq<Call>, c: Call)
    ensures EnableCalls(calls + [c]) == EnableCalls(calls) + if c.HeaterEnable? then [c.on] else []
    ensures LogCount(calls + [c]) == LogCount(calls) + if c.LogState? then 1 else 0
  {
    assert (calls + [c])[..|calls|] == calls;
  }

  /** A check calls heater.enable once, with the new state, exactly when the
      heater state changes, and not at all otherwise. */
  lemma CheckEnablesOnlyOnChange(s: ControllerState, obs: Observation)
    ensures var t := Checked(s, obs);
      EnableCalls(t.calls) == EnableCalls(s.calls) + if t.heaterIsOn != s.heaterIsOn then [t.heaterIsOn] else []
  {
    var t := Checked(s, obs);
    var mid := if t.heaterIsOn != s.heaterIsOn then s.calls + [HeaterEnable(t.heaterIsOn)] else s.calls;
    if t.heaterIsOn != s.heaterIsOn {
      AppendCall(s.calls, HeaterEnable(t.heaterIsOn));
    }
    if t.calls != mid {
      AppendCall(mid, t.calls[|t.calls| - 1]);
      assert t.calls == mid + [t.calls[|t.calls| - 1]];
    }
  }

  /** A check calls log_state once exactly when the temperature differs from
      the last one logged, the heater state changes, or the setpoint changed
      since the last log; the call reports the pseudo temperature, the
      reading, the setpoint only if it changed and the heater state only if
      it changed. Afterwards no setpoint change is pending and the reading is
      the last one logged. */
  lemma CheckLogsOnlyOnChange(s: ControllerState, obs: Observation)
    ensures var t := Checked(s, obs);
      var logs := Some(obs.temp) != s.previousTemp || t.heaterIsOn != s.heaterIsOn || s.desiredTempChanged;
      LogCount(t.calls) == LogCount(s.calls) + (if logs then 1 else 0) &&
      (logs ==>
        t.calls[|t.calls| - 1] ==
          LogState(HeatPseudoTemp, obs.temp,
                   if s.desiredTempChanged then Some(s.desiredTemp) else None,
                   if t.heaterIsOn != s.heaterIsOn then Some(t.heaterIsOn) else None)) &&
      !t.desiredTempChanged && t.previousTemp == Some(obs.temp)
  {
    var t := Checked(s, obs);
    var mid := if t.heaterIsOn != s.heaterIsOn then s.calls + [HeaterEnable(t.heaterIsOn)] else s.calls;
    if t.heaterIsOn != s.heaterIsOn {
      AppendCall(s.calls, HeaterEnable(t.heaterIsOn));
    }
    if t.calls != mid {
      AppendCall(mid, t.calls[|t.calls| - 1]);
      assert t.calls == mid + [t.calls[|t.calls| - 1]];
    }
  }

  /** Checks keep heater_is_on in step with the heater driver. */
  lemma CheckTracksHeater(s: ControllerState, obs: Observation)
    requires HeaterTracksCalls(s)
    ensures HeaterTracksCalls(Checked(s, obs))
  {
    var t := Checked(s, obs);
    CheckEnablesOnlyOnChange(s, obs);
    var en := EnableCalls(s.calls);
    if t.heaterIsOn != s.heaterIsOn {
      var more := en + [t.heaterIsOn];
      assert EnableCalls(t.calls) == more;
      forall k | 0 <= k < |more|
        ensures more[k] == (k % 2 == 0)
      {
        if k < |en| {
          assert more[k] == en[k];
        }
      }
    } else {
      assert EnableCalls(t.calls) == en;
    }
  }

  /** A second check with the same reading and shutoff answers (the shutoff
      not newly expiring) changes nothing at all: no heater call, no log. */
  lemma RepeatedCheckIsQuiet(s: ControllerState, obs: Observation)
    ensures Checked(Checked(s, obs), obs.(beyondSuppression := false)) == Checked(s, obs)
  {
    CheckLogsOnlyOnChange(s, obs);
  }

  /** `update` runs a check exactly when the next read time has come, and then
      schedules the following one five seconds on; before that it changes
      nothing. */
  lemma UpdateSchedule(s: ControllerState, now: real, obs: Observation)
    ensures now < s.nextTempReadTime ==> Updated(s, now, obs) == s
    ensures now >= s.nextTempReadTime ==>
      Updated(s, now, obs).nextTempReadTime == now + 5.0 &&
      Updated(s, now, obs).calls == Checked(s, obs).calls &&
      Updated(s, now, obs).heaterIsOn == Checked(s, obs).heaterIsOn
  {
  }

  /** Changing the setpoint makes the very next update, at any later
      monotonic time, run a check that logs the new setpoint. */
  lemma SetpointChangeIsLoggedNext(s: ControllerState, temperature: real, now: real, later: real, obs: Observation)
    requires now <= later
    ensures var t := Updated(WithDesiredTemp(s, temperature, now), later, obs);
      LogCount(t.calls) == LogCount(s.calls) + 1 &&
      t.calls[|t.calls| - 1].desiredTemp == Some(temperature) &&
      t.nextTempReadTime == later + TempCheckIntervalSecs
  {
    CheckLogsOnlyOnChange(WithDesiredTemp(s, temperature, now), obs);
  }

  /** The first update at or after construction time runs a check, and that
      check logs the initial setpoint. */
  lemma FirstUpdateLogsSetpoint(desiredTemp: real, start: real, now: real, obs: Observation)
    requires start <= now
    ensures var t := Updated(Started(desiredTemp, start), now, obs);
      LogCount(t.calls) == 1 && t.calls[|t.calls| - 1].desiredTemp == Some(desiredTemp)
  {
    CheckLogsOnlyOnChange(Started(desiredTemp, start), obs);
  }

  // ---------------------------------------------------------------------
  // The controller object

  class ThermoController {
    var desiredTemp: real
    var currentTemp: Option<real>
    var currentHumidity: Option<real>
    var previousTemp: Option<real>
    var desiredTempChanged: bool
    var heaterIsOn: bool
    var shutoff: Option<Shutoff>
    var nextTempReadTime: real
    var calls: seq<Call>   // heater.enable and log_state calls, in order

    function Snapshot(): ControllerState
      reads this
    {
      ControllerState(desiredTemp, currentTemp, currentHumidity, previousTemp,
                      desiredTempChanged, heaterIsOn, shutoff, nextTempReadTime, calls)
    }

    ghost predicate Valid()
      reads this
    {
      HeaterTracksCalls(Snapshot())
    }

    constructor (desiredTemp: real, now: real)
      ensures Valid() && Snapshot() == Started(desiredTemp, now)
    {
      this.desiredTemp := desiredTemp;
      currentTemp := None;
      currentHumidity := None;
      previousTemp := None;
      desiredTempChanged := true;
      heaterIsOn := false;
      shutoff := None;
      nextTempReadTime := now;
      calls := [];
    }

    method Update(now: real, obs: Observation)
      requires Valid()
      modifies this
      ensures Valid() && Snapshot() == Updated(old(Snapshot()), now, obs)
    {
      var timeNow := now;
      if timeNow >= nextTempReadTime {
        ManageTemperature(obs);
        nextTempReadTime := timeNow + TempCheckIntervalSecs;
      }
    }

    method SetDesiredTemp(temperature: real, now: real)
      requires Valid()
      modifies this
      ensures Valid() && Snapshot() == WithDesiredTemp(old(Snapshot()), temperature, now)
    {
      desiredTemp := temperature;
      nextTempReadTime := now;
      desiredTempChanged := true;
    }

    method ChangeDesiredTemp(amount: real, now: real)
      requires Valid()
      modifies this
      ensures Valid() && Snapshot() == WithDesiredTemp(old(Snapshot()), old(desiredTemp) + amount, now)
    {
      SetDesiredTemp(desiredTemp + amount, now);
    }

    method ManageTemperature(obs: Observation)
      requires Valid()
      modifies this
      ensures Valid() && Snapshot() == Checked(old(Snapshot()), obs)
    {
      ghost var before := Snapshot();
      if shutoff.Some? && obs.beyondSuppression {
        shutoff := None;
      }
      currentHumidity, currentTemp := Some(obs.humidity), Some(obs.temp);
      var degreesOfHeatNeeded := desiredTemp - obs.temp;
      var heaterShouldBeOn := degreesOfHeatNeeded > 0.0 && !(shutoff.Some? && obs.inSuppression);
      var heaterStateChanging := heaterShouldBeOn != heaterIsOn;

      if heaterStateChanging {
        ChangeHeaterState(heaterShouldBeOn, degreesOfHeatNeeded);
      }
      assert calls == if heaterStateChanging then before.calls + [HeaterEnable(heaterShouldBeOn)] else before.calls;

      if currentTemp != previousTemp || heaterStateChanging || desiredTempChanged {
        previousTemp := currentTemp;
        var dt := if desiredTempChanged then Some(desiredTemp) else None;
        var hs := if heaterStateChanging then Some(heaterShouldBeOn) else None;
        calls := calls + [LogState(HeatPseudoTemp, obs.temp, dt, hs)];
        desiredTempChanged := false;
      }
      assert Snapshot() == Checked(before, obs);
      CheckTracksHeater(before, obs);
    }

    method ChangeHeaterState(heaterShouldBeOn: bool, degreesOfHeatNeeded: real)
      modifies this
      ensures heaterIsOn == heaterShouldBeOn
      ensures shutoff == if heaterShouldBeOn then None else old(shutoff)
      ensures calls == old(calls) + [HeaterEnable(heaterShouldBeOn)]
      ensures desiredTemp == old(desiredTemp) && currentTemp == old(currentTemp)
      ensures currentHumidity == old(currentHumidity) && previousTemp == old(previousTemp)
      ensures desiredTempChanged == old(desiredTempChanged) && nextTempReadTime == old(nextTempReadTime)
    {
      if heaterShouldBeOn {
        heaterIsOn := true;
        shutoff := None;
      } else {
        heaterIsOn := false;
      }
      calls := calls + [HeaterEnable(heaterShouldBeOn)];
    }
  }
}
