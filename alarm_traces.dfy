/**
  Sequences of calls to the security service: what the repository holds after
  them and the alarm statuses written along the way, and the properties that
  relate several calls.
 */
module AlarmTraces {
  import opened AlarmRules

  /** Every call of the sequence is applicable in the state the calls before it leave. */
  predicate Runs(st: ServiceState, evs: seq<Event>)
    decreases |evs|
  {
    evs == [] || (Applicable(st, evs[0]) && Runs(Step(st, evs[0]).state, evs[1..]))
  }

  datatype Trace = Trace(state: ServiceState, writes: seq<AlarmStatus>)

  /**
    The calls applied in order: the final state and every alarm status written.
    Each call writes at most once, and the alarm status the repository holds is
    always the last one written (or the initial one when nothing was written).
   */
  function Replay(st: ServiceState, evs: seq<Event>): (r: Trace)
    requires Runs(st, evs)
    ensures |r.writes| <= |evs|
    ensures r.state.alarm == if r.writes == [] then st.alarm else r.writes[|r.writes| - 1]
    decreases |evs|
  {
    if evs == [] then Trace(st, [])
    else
      var o := Step(st, evs[0]);
      var t := Replay(o.state, evs[1..]);
      Trace(t.state, Emit(o.write) + t.writes)
  }

  /** A call that only changes the sensor or listener collections. */
  predicate Bookkeeping(ev: Event)
  {
    ev.AddSensor? || ev.RemoveSensor? || ev.AddStatusListener? || ev.RemoveStatusListener?
  }

  /** While the system is disarmed the alarm is off. */
  predicate DisarmedIsQuiet(st: ServiceState)
  {
    st.arming == Disarmed ==> st.alarm == NoAlarm
  }

  /** Every call keeps a disarmed system quiet. */
  lemma StepKeepsDisarmedQuiet(st: ServiceState, ev: Event)
    requires Applicable(st, ev) && DisarmedIsQuiet(st)
    ensures DisarmedIsQuiet(Step(st, ev).state)
  {
  }

  /** Any sequence of calls keeps a disarmed system quiet. */
  lemma {:induction false} ReplayKeepsDisarmedQuiet(st: ServiceState, evs: seq<Event>)
    requires Runs(st, evs) && DisarmedIsQuiet(st)
    ensures DisarmedIsQuiet(Replay(st, evs).state)
    decreases |evs|
  {
    if evs != [] {
      StepKeepsDisarmedQuiet(st, evs[0]);
      ReplayKeepsDisarmedQuiet(Step(st, evs[0]).state, evs[1..]);
    }
  }

  /** Once in full alarm, no sequence of sensor changes writes anything or leaves ALARM. */
  lemma {:induction false} AlarmStickyUnderSensorChanges(st: ServiceState, evs: seq<Event>)
    requires Runs(st, evs) && st.alarm == Alarm
    requires forall i :: 0 <= i < |evs| ==> evs[i].ChangeSensorActivationStatus?
    ensures Replay(st, evs).state.alarm == Alarm
    ensures Replay(st, evs).writes == []
    decreases |evs|
  {
    if evs != [] {
      AlarmStickyUnderSensorChanges(Step(st, evs[0]).state, evs[1..]);
    }
  }

  /** Adding and removing sensors and listeners never touches the arming or alarm status. */
  lemma {:induction false} BookkeepingLeavesStatus(st: ServiceState, evs: seq<Event>)
    requires forall i :: 0 <= i < |evs| ==> Bookkeeping(evs[i])
    ensures Runs(st, evs)
    ensures Replay(st, evs).writes == []
    ensures Replay(st, evs).state.arming == st.arming && Replay(st, evs).state.alarm == st.alarm
    decreases |evs|
  {
    if evs != [] {
      BookkeepingLeavesStatus(Step(st, evs[0]).state, evs[1..]);
    }
  }

  /** Two calls in a row: the state the second leaves and the writes of both, in order. */
  lemma ReplayPair(st: ServiceState, a: Event, b: Event)
    requires Applicable(st, a) && Applicable(Step(st, a).state, b)
    ensures Runs(st, [a, b])
    ensures Replay(st, [a, b])
      == Trace(Step(Step(st, a).state, b).state, Emit(Step(st, a).write) + Emit(Step(Step(st, a).state, b).write))
  {
    var st1 := Step(st, a).state;
    assert [a, b][1..] == [b];
    assert [b][1..] == [];
    assert Runs(st1, [b]);
    assert Replay(st1, [b]) == Trace(Step(st1, b).state, Emit(Step(st1, b).write) + []);
  }

  /** Adding a sensor that was not managed and removing it again restores the state. */
  lemma AddThenRemoveSensor(st: ServiceState, s: Sensor, active: bool)
    requires s !in st.sensors
    ensures Runs(st, [AddSensor(s, active), RemoveSensor(s)])
    ensures Replay(st, [AddSensor(s, active), RemoveSensor(s)]) == Trace(st, [])
  {
    ReplayPair(st, AddSensor(s, active), RemoveSensor(s));
    assert st.sensors[s := active] - {s} == st.sensors;
  }

  /**
    Adding a sensor that is already managed changes nothing, so removing it
    afterwards only drops that sensor; neither call writes.
   */
  lemma ReaddThenRemoveSensor(st: ServiceState, s: Sensor, active: bool)
    requires s in st.sensors
    ensures Runs(st, [AddSensor(s, active), RemoveSensor(s)])
    ensures Replay(st, [AddSensor(s, active), RemoveSensor(s)]) == Trace(st.(sensors := st.sensors - {s}), [])
  {
    ReplayPair(st, AddSensor(s, active), RemoveSensor(s));
  }

  /** Registering a listener that was not registered and removing it again restores the state. */
  lemma AddThenRemoveListener(st: ServiceState, l: Listener)
    requires l !in st.listeners
    ensures Runs(st, [AddStatusListener(l), RemoveStatusListener(l)])
    ensures Replay(st, [AddStatusListener(l), RemoveStatusListener(l)]) == Trace(st, [])
  {
    ReplayPair(st, AddStatusListener(l), RemoveStatusListener(l));
    assert st.listeners + {l} - {l} == st.listeners;
  }

  /** Arming home and then seeing a cat writes the alarm status exactly once, and that write is ALARM. */
  lemma ArmHomeThenCatWritesAlarmOnce(st: ServiceState)
    ensures Runs(st, [SetArmingStatus(ArmedHome), ProcessImage(true)])
    ensures Replay(st, [SetArmingStatus(ArmedHome), ProcessImage(true)]).writes == [Alarm]
  {
    ReplayPair(st, SetArmingStatus(ArmedHome), ProcessImage(true));
  }

  /**
    Arming (home or away) leaves every sensor inactive, so a frame without a
    cat that follows writes NO_ALARM exactly once.
   */
  lemma ArmThenNoCatWritesNoAlarmOnce(st: ServiceState, status: ArmingStatus)
    requires status != Disarmed
    ensures Runs(st, [SetArmingStatus(status), ProcessImage(false)])
    ensures Replay(st, [SetArmingStatus(status), ProcessImage(false)]).writes == [NoAlarm]
    ensures Replay(st, [SetArmingStatus(status), ProcessImage(false)]).state.sensors.Keys == st.sensors.Keys
  {
    ReplayPair(st, SetArmingStatus(status), ProcessImage(false));
  }

  /**
    With every sensor inactive, deactivating one of them writes nothing and a
    frame without a cat then writes NO_ALARM exactly once.
   */
  lemma DeactivateThenNoCatWritesNoAlarmOnce(st: ServiceState, s: Sensor)
    requires s in st.sensors
    requires forall x :: x in st.sensors ==> !st.sensors[x]
    ensures Runs(st, [ChangeSensorActivationStatus(s, false), ProcessImage(false)])
    ensures Replay(st, [ChangeSensorActivationStatus(s, false), ProcessImage(false)]).writes == [NoAlarm]
  {
    assert st.sensors[s := false] == st.sensors;
    ReplayPair(st, ChangeSensorActivationStatus(s, false), ProcessImage(false));
  }
}
