/**
  The security service as the object it is: the repository's arming status,
  alarm status, sensors and the registered listeners are fields that each
  operation updates in place. The ghost log `alarmWrites` records, oldest
  first, every alarm status the service has written to the repository, so
  that "written exactly once" and "never written" can be stated per call.
 */
module Security {
  import opened AlarmRules

  /** Whether some sensor of the collection is active, by a pass over the collection. */
  method HasActiveSensor(sensors: SensorMap) returns (found: bool)
    ensures found <==> AnyActive(sensors)
  {
    found := false;
    var pending := sensors.Keys;
    while pending != {} && !found
      invariant pending <= sensors.Keys
      invariant found <==> exists s :: s in sensors && s !in pending && sensors[s]
      decreases pending
    {
      var s :| s in pending;
      found := sensors[s];
      pending := pending - {s};
    }
  }

  class SecurityService {
    var arming: ArmingStatus
    var alarm: AlarmStatus
    var sensors: SensorMap
    var listeners: set<Listener>
    ghost var alarmWrites: seq<AlarmStatus>

    ghost function State(): ServiceState
      reads this
    {
      ServiceState(arming, alarm, sensors, listeners)
    }

    /** A service over a repository that already holds these statuses and sensors. */
    constructor (arming0: ArmingStatus, alarm0: AlarmStatus, sensors0: SensorMap)
      ensures State() == ServiceState(arming0, alarm0, sensors0, {})
      ensures alarmWrites == []
    {
      arming, alarm, sensors, listeners := arming0, alarm0, sensors0, {};
      alarmWrites := [];
    }

    /** Writes an alarm status to the repository. */
    method SetAlarmStatus(status: AlarmStatus)
      modifies this
      ensures alarm == status && alarmWrites == old(alarmWrites) + [status]
      ensures arming == old(arming) && sensors == old(sensors) && listeners == old(listeners)
    {
      alarm := status;
      alarmWrites := alarmWrites + [status];
    }

    method AddSensor(sensor: Sensor, active: bool)
      modifies this
      ensures sensor in sensors && sensors.Keys == old(sensors).Keys + {sensor}
      ensures sensor in old(sensors) ==> sensors == old(sensors)
      ensures sensor !in old(sensors) ==> sensors == old(sensors)[sensor := active]
      ensures arming == old(arming) && alarm == old(alarm) && listeners == old(listeners)
      ensures alarmWrites == old(alarmWrites)
      ensures State() == Step(old(State()), Event.AddSensor(sensor, active)).state
    {
      if sensor !in sensors {
        sensors := sensors[sensor := active];
      }
    }

    method RemoveSensor(sensor: Sensor)
      modifies this
      ensures sensors == old(sensors) - {sensor}
      ensures arming == old(arming) && alarm == old(alarm) && listeners == old(listeners)
      ensures alarmWrites == old(alarmWrites)
      ensures State() == Step(old(State()), Event.RemoveSensor(sensor)).state
    {
      sensors := sensors - {sensor};
    }

    method AddStatusListener(listener: Listener)
      modifies this
      ensures listeners == old(listeners) + {listener}
      ensures arming == old(arming) && alarm == old(alarm) && sensors == old(sensors)
      ensures alarmWrites == old(alarmWrites)
      ensures State() == Step(old(State()), Event.AddStatusListener(listener)).state
    {
      listeners := listeners + {listener};
    }

    method RemoveStatusListener(listener: Listener)
      modifies this
      ensures listeners == old(listeners) - {listener}
      ensures arming == old(arming) && alarm == old(alarm) && sensors == old(sensors)
      ensures alarmWrites == old(alarmWrites)
      ensures State() == Step(old(State()), Event.RemoveStatusListener(listener)).state
    {
      listeners := listeners - {listener};
    }

    /**
      Disarming forces the alarm off with one write; arming resets every
      managed sensor to inactive and writes no alarm status.
     */
    method SetArmingStatus(status: ArmingStatus)
      modifies this
      ensures arming == status && listeners == old(listeners)
      ensures status == Disarmed ==>
        alarm == NoAlarm && alarmWrites == old(alarmWrites) + [NoAlarm] && sensors == old(sensors)
      ensures status != Disarmed ==>
        alarm == old(alarm) && alarmWrites == old(alarmWrites)
        && sensors.Keys == old(sensors).Keys && !AnyActive(sensors)
      ensures State() == Step(old(State()), Event.SetArmingStatus(status)).state
      ensures alarmWrites == old(alarmWrites) + Emit(Step(old(State()), Event.SetArmingStatus(status)).write)
    {
      arming := status;
      if status == Disarmed {
        SetAlarmStatus(NoAlarm);
      } else {
        var pending := sensors.Keys;
        while pending != {}
          invariant pending <= sensors.Keys == old(sensors).Keys
          invariant forall s :: s in sensors ==> sensors[s] == (s in pending && old(sensors)[s])
          invariant arming == status && alarm == old(alarm) && listeners == old(listeners)
          invariant alarmWrites == old(alarmWrites)
          decreases pending
        {
          var s :| s in pending;
          sensors := sensors[s := false];
          pending := pending - {s};
        }
        assert sensors == AllInactive(old(sensors));
      }
    }

    /**
      Sets a managed sensor's flag and moves the alarm status by the sensor
      transition rules, writing it at most once.
     */
    method ChangeSensorActivationStatus(sensor: Sensor, active: bool)
      requires sensor in sensors
      modifies this
      ensures sensors == old(sensors)[sensor := active]
      ensures arming == old(arming) && listeners == old(listeners)
      ensures old(arming) != Disarmed && active && old(alarm) == NoAlarm ==>
        alarm == PendingAlarm && alarmWrites == old(alarmWrites) + [PendingAlarm]
      ensures old(arming) != Disarmed && active && old(alarm) == PendingAlarm ==>
        alarm == Alarm && alarmWrites == old(alarmWrites) + [Alarm]
      ensures old(sensors)[sensor] && !active && old(alarm) == PendingAlarm && !AnyActive(sensors) ==>
        alarm == NoAlarm && alarmWrites == old(alarmWrites) + [NoAlarm]
      ensures old(sensors)[sensor] && !active && old(alarm) == PendingAlarm && AnyActive(sensors) ==>
        alarm == PendingAlarm && alarmWrites == old(alarmWrites)
      ensures old(alarm) == Alarm ==> alarm == Alarm && alarmWrites == old(alarmWrites)
      ensures !old(sensors)[sensor] && !active ==> alarm == old(alarm) && alarmWrites == old(alarmWrites)
      ensures State() == Step(old(State()), Event.ChangeSensorActivationStatus(sensor, active)).state
      ensures alarmWrites ==
        old(alarmWrites) + Emit(Step(old(State()), Event.ChangeSensorActivationStatus(sensor, active)).write)
    {
      var wasActive := sensors[sensor];
      sensors := sensors[sensor := active];
      if alarm != Alarm {
        if active {
          if arming != Disarmed {
            if alarm == NoAlarm {
              SetAlarmStatus(PendingAlarm);
            } else {
              SetAlarmStatus(Alarm);
            }
          }
        } else if wasActive && alarm == PendingAlarm {
          var any := HasActiveSensor(sensors);
          if !any {
            SetAlarmStatus(NoAlarm);
          }
        }
      }
    }

    /**
      Acts on the classifier's verdict for a camera frame: a cat while armed
      home raises the alarm; no cat clears it when no sensor is active.
     */
    method ProcessImage(catDetected: bool)
      modifies this
      ensures arming == old(arming) && sensors == old(sensors) && listeners == old(listeners)
      ensures catDetected && arming == ArmedHome ==> alarm == Alarm && alarmWrites == old(alarmWrites) + [Alarm]
      ensures !catDetected && !AnyActive(sensors) ==> alarm == NoAlarm && alarmWrites == old(alarmWrites) + [NoAlarm]
      ensures !catDetected && AnyActive(sensors) ==> alarm == old(alarm) && alarmWrites == old(alarmWrites)
      ensures catDetected && arming != ArmedHome ==> alarm == old(alarm) && alarmWrites == old(alarmWrites)
      ensures State() == Step(old(State()), Event.ProcessImage(catDetected)).state
      ensures alarmWrites == old(alarmWrites) + Emit(Step(old(State()), Event.ProcessImage(catDetected)).write)
    {
      if catDetected {
        if arming == ArmedHome {
          SetAlarmStatus(Alarm);
        }
      } else {
        var any := HasActiveSensor(sensors);
        if !any {
          SetAlarmStatus(NoAlarm);
        }
      }
    }
  }
}
