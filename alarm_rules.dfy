/**
  The decision rules of the catpoint security service, free of storage.

  The service keeps an arming status, an alarm status and a collection of
  sensors, each with an `active` flag. Every public operation of the service
  is one `Event`; `Step` says what the repository holds after the event and
  which alarm status, if any, the service wrote to the repository for it.
 */
module AlarmRules {

  datatype Option<T> = None | Some(value: T)

  datatype ArmingStatus = Disarmed | ArmedHome | ArmedAway

  datatype AlarmStatus = NoAlarm | PendingAlarm | Alarm

  datatype SensorType = Door | Window | Motion

  /** A sensor's identity: two sensors with the same name and type are the same sensor. */
  datatype Sensor = Sensor(name: string, sensorType: SensorType)

  /** The managed sensors, each mapped to its `active` flag. */
  type SensorMap = map<Sensor, bool>

  /** A registered status listener, known only by its identity. */
  type Listener = nat

  /** The state the repository holds for the service. */
  datatype ServiceState = ServiceState(
    arming: ArmingStatus,
    alarm: AlarmStatus,
    sensors: SensorMap,
    listeners: set<Listener>)

  predicate AnyActive(sensors: SensorMap)
  {
    exists s :: s in sensors && sensors[s]
  }

  /** The sensor collection after arming: the same sensors, every one inactive. */
  function AllInactive(sensors: SensorMap): (r: SensorMap)
    ensures r.Keys == sensors.Keys
    ensures forall s :: s in r ==> !r[s]
    ensures !AnyActive(r)
  {
    map s | s in sensors :: false
  }

  /**
    The alarm status that changing a sensor's activation writes, or None when
    it writes nothing. `anyActiveAfter` tells whether some managed sensor is
    still active once the sensor's own flag has been updated.
   */
  function SensorAlarmWrite(arming: ArmingStatus, alarm: AlarmStatus, wasActive: bool, nowActive: bool,
                            anyActiveAfter: bool): (w: Option<AlarmStatus>)
    // while armed, an activation advances the alarm by one step
    ensures arming != Disarmed && nowActive && alarm == NoAlarm ==> w == Some(PendingAlarm)
    ensures arming != Disarmed && nowActive && alarm == PendingAlarm ==> w == Some(Alarm)
    // a pending alarm is cleared exactly when its last active sensor goes inactive
    ensures w == Some(NoAlarm) <==> wasActive && !nowActive && alarm == PendingAlarm && !anyActiveAfter
    // a full alarm is not touched by sensor events
    ensures alarm == Alarm ==> w == None
    // deactivating a sensor that is already inactive writes nothing
    ensures !wasActive && !nowActive ==> w == None
    // a sensor never raises the alarm of a disarmed system
    ensures arming == Disarmed ==> w != Some(PendingAlarm) && w != Some(Alarm)
    // deactivation never raises, and every write is a change of status
    ensures !nowActive ==> w == None || w == Some(NoAlarm)
    ensures w.Some? ==> w.value != alarm
  {
    if alarm == Alarm then None
    else if nowActive then
      if arming == Disarmed then None
      else if alarm == NoAlarm then Some(PendingAlarm)
      else Some(Alarm)
    else if wasActive && alarm == PendingAlarm && !anyActiveAfter then Some(NoAlarm)
    else None
  }

  /**
    The alarm status that processing a camera frame writes, or None, given the
    classifier's verdict and whether any managed sensor is active.
   */
  function ImageAlarmWrite(arming: ArmingStatus, catDetected: bool, anyActive: bool): (w: Option<AlarmStatus>)
    ensures w == Some(Alarm) <==> catDetected && arming == ArmedHome
    ensures w == Some(NoAlarm) <==> !catDetected && !anyActive
    ensures w != Some(PendingAlarm)
  {
    if catDetected then
      if arming == ArmedHome then Some(Alarm) else None
    else if !anyActive then Some(NoAlarm)
    else None
  }

  /** The writes an operation makes, as a log: none or exactly one. */
  function Emit(w: Option<AlarmStatus>): seq<AlarmStatus>
  {
    if w.Some? then [w.value] else []
  }

  /** The alarm status the repository holds after a write, or no write. */
  function After(alarm: AlarmStatus, w: Option<AlarmStatus>): AlarmStatus
  {
    if w.Some? then w.value else alarm
  }

  /** The public operations of the service, one value per call. */
  datatype Event =
    | AddSensor(sensor: Sensor, active: bool)
    | RemoveSensor(sensor: Sensor)
    | AddStatusListener(listener: Listener)
    | RemoveStatusListener(listener: Listener)
    | SetArmingStatus(status: ArmingStatus)
    | ChangeSensorActivationStatus(sensor: Sensor, active: bool)
    | ProcessImage(catDetected: bool)

  /** A sensor's activation may only be changed for a managed sensor. */
  predicate Applicable(st: ServiceState, ev: Event)
  {
    ev.ChangeSensorActivationStatus? ==> ev.sensor in st.sensors
  }

  datatype Outcome = Outcome(state: ServiceState, write: Option<AlarmStatus>)

  /** One call of the service: the new repository state and the alarm status written, if any. */
  function Step(st: ServiceState, ev: Event): Outcome
    requires Applicable(st, ev)
  {
    match ev
    case AddSensor(s, a) =>
      Outcome(st.(sensors := if s in st.sensors then st.sensors else st.sensors[s := a]), None)
    case RemoveSensor(s) =>
      Outcome(st.(sensors := st.sensors - {s}), None)
    case AddStatusListener(l) =>
      Outcome(st.(listeners := st.listeners + {l}), None)
    case RemoveStatusListener(l) =>
      Outcome(st.(listeners := st.listeners - {l}), None)
    case SetArmingStatus(status) =>
      if status == Disarmed then
        Outcome(st.(arming := status, alarm := NoAlarm), Some(NoAlarm))
      else
        Outcome(st.(arming := status, sensors := AllInactive(st.sensors)), None)
    case ChangeSensorActivationStatus(s, a) =>
      var sensors' := st.sensors[s := a];
      var w := SensorAlarmWrite(st.arming, st.alarm, st.sensors[s], a, AnyActive(sensors'));
      Outcome(st.(alarm := After(st.alarm, w), sensors := sensors'), w)
    case ProcessImage(cat) =>
      var w := ImageAlarmWrite(st.arming, cat, AnyActive(st.sensors));
      Outcome(st.(alarm := After(st.alarm, w)), w)
  }
}
