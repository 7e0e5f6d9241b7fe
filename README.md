# Catpoint security service: the alarm state machine

This project models the core of the catpoint home-security simulator. That core is
`SecurityService` (package `com.udacity.catpoint.security.service`). The service
keeps the following in its repository:

- an arming status: DISARMED, ARMED_HOME or ARMED_AWAY;
- an alarm status: NO_ALARM, PENDING_ALARM or ALARM;
- the managed sensors, each with an `active` flag.

It also holds a set of status listeners. It computes alarm-status transitions
from three kinds of input: sensor activation changes, arming changes, and the
verdict of an image classifier on a camera frame.

`SecurityService.java` is not part of this model's sources. The transition
rules come from its JUnit test `SecurityServiceTest.java`. Where the test leaves a
branch open, the model makes its own choice. Those choices are listed under
"Decisions on behaviour the test does not pin down" below.

Files:

- `alarm_rules.dfy` (module `AlarmRules`): the data model and the pure decision
  rules.
  - `SensorAlarmWrite`, `ImageAlarmWrite` and `AllInactive` each give what one
    operation writes.
  - `Step` gives one call of the service as a value: the new repository state
    plus the alarm status written, if any.
- `security_service.dfy` (module `Security`): the service as a class whose fields
  are the repository state.
  - Each public operation is a method that updates those fields in place.
  - The ghost field `alarmWrites` logs every `setAlarmStatus` call. Each method
    says exactly what it appends to that log: the "written exactly once" and
    "never written" checks of the test.
  - Each method also states that its effect is `Step` of the old state.
  - Arming resets the sensors with a loop over the sensor collection.
  - "Is any sensor active" is a loop (`HasActiveSensor`).
- `alarm_traces.dfy` (module `AlarmTraces`): sequences of calls (`Replay`) and
  the properties that involve more than one call.

The getters `getSensors`, `getAlarmStatus` and `getArmingStatus` are reads of
the class's fields.

## Model

| member | source | states |
|---|---|---|
| AlarmRules.SensorAlarmWrite | Security/src/test/java/com/udacity/catpoint/security/application/SecurityServiceTest.java:46-96 | While not disarmed, an activation moves NO_ALARM to PENDING_ALARM and PENDING_ALARM to ALARM, even for a sensor that was already active. A sensor change writes NO_ALARM if and only if an active sensor goes inactive under PENDING_ALARM and no sensor stays active. ALARM is never written over. Deactivating an inactive sensor writes nothing. Deactivation never raises the alarm, and a disarmed system is never raised. Every write changes the status. |
| AlarmRules.ImageAlarmWrite | Security/src/test/java/com/udacity/catpoint/security/application/SecurityServiceTest.java:98-114 | A frame writes ALARM exactly when a cat is seen while armed home. It writes NO_ALARM exactly when no cat is seen and no sensor is active. It never writes PENDING_ALARM. A cat while not armed home writing nothing is this model's choice; see the decisions below. |
| AlarmRules.AllInactive | Security/src/test/java/com/udacity/catpoint/security/application/SecurityServiceTest.java:122-128 | Arming keeps the same sensors and leaves every one of them inactive. |
| Security.HasActiveSensor | Security/src/test/java/com/udacity/catpoint/security/application/SecurityServiceTest.java:63-68 | The pass over the sensors returns true exactly when some managed sensor is active. |
| Security.SecurityService.constructor | Security/src/test/java/com/udacity/catpoint/security/application/SecurityServiceTest.java:39-44 | A new service sees the repository's statuses and sensors as they are, has no listeners, and has written nothing. |
| Security.SecurityService.SetAlarmStatus | Security/src/test/java/com/udacity/catpoint/security/application/SecurityServiceTest.java:49-51 | A write stores the alarm status and appends it to the write log. Nothing else changes. |
| Security.SecurityService.AddSensor | Security/src/test/java/com/udacity/catpoint/security/application/SecurityServiceTest.java:154-158 | The sensor becomes managed. A sensor that was already managed keeps its flag. No status changes and nothing is written. |
| Security.SecurityService.RemoveSensor | Security/src/test/java/com/udacity/catpoint/security/application/SecurityServiceTest.java:154-158 | The sensor is no longer managed. No status changes and nothing is written. |
| Security.SecurityService.AddStatusListener | Security/src/test/java/com/udacity/catpoint/security/application/SecurityServiceTest.java:148-152 | The listener set gains the listener. Nothing else changes. |
| Security.SecurityService.RemoveStatusListener | Security/src/test/java/com/udacity/catpoint/security/application/SecurityServiceTest.java:148-152 | The listener set loses the listener. Nothing else changes. |
| Security.SecurityService.SetArmingStatus | Security/src/test/java/com/udacity/catpoint/security/application/SecurityServiceTest.java:116-128 | The arming status is stored. Disarming writes NO_ALARM exactly once, whatever the alarm was. Arming home or away writes nothing and leaves the same sensors, all inactive. |
| Security.SecurityService.ChangeSensorActivationStatus | Security/src/test/java/com/udacity/catpoint/security/application/SecurityServiceTest.java:46-96 | The sensor's flag becomes the new value. The test's cases hold: PENDING_ALARM is written exactly once from NO_ALARM while armed; ALARM is written from PENDING_ALARM while armed; NO_ALARM is written when the last active sensor goes inactive while pending, and nothing is written when another sensor stays active; nothing is written under ALARM; nothing is written when an inactive sensor is deactivated. |
| Security.SecurityService.ProcessImage | Security/src/test/java/com/udacity/catpoint/security/application/SecurityServiceTest.java:98-114 | A cat while armed home writes ALARM exactly once. No cat with no active sensor writes NO_ALARM exactly once. No cat with an active sensor, or a cat while not armed home, writes nothing; the latter is this model's choice, see the decisions below. Sensors and arming are untouched. |
| AlarmTraces.Replay | Security/src/test/java/com/udacity/catpoint/security/application/SecurityServiceTest.java:172-178 | A sequence of calls writes at most one alarm status per call. The repository's alarm status is always the last status written, or the initial one if nothing was written. |
| AlarmTraces.StepKeepsDisarmedQuiet | Security/src/test/java/com/udacity/catpoint/security/application/SecurityServiceTest.java:116-120 | No single call breaks "disarmed implies NO_ALARM". |
| AlarmTraces.ReplayKeepsDisarmedQuiet | Security/src/test/java/com/udacity/catpoint/security/application/SecurityServiceTest.java:116-120 | Once disarming has set NO_ALARM, the system stays in NO_ALARM for as long as it stays disarmed, whatever calls follow. |
| AlarmTraces.AlarmStickyUnderSensorChanges | Security/src/test/java/com/udacity/catpoint/security/application/SecurityServiceTest.java:70-77 | From ALARM, any sequence of sensor changes writes nothing and leaves ALARM. |
| AlarmTraces.BookkeepingLeavesStatus | Security/src/test/java/com/udacity/catpoint/security/application/SecurityServiceTest.java:39-44 | Adding and removing sensors and listeners, in any number and order, never writes an alarm status and never changes arming or alarm status. The test relies on this: every write count includes the `addSensor` call in its setup. |
| AlarmTraces.AddThenRemoveSensor | Security/src/test/java/com/udacity/catpoint/security/application/SecurityServiceTest.java:154-158 | Adding an unmanaged sensor and then removing it restores the state exactly and writes nothing. |
| AlarmTraces.ReaddThenRemoveSensor | Security/src/test/java/com/udacity/catpoint/security/application/SecurityServiceTest.java:154-158 | Re-adding the sensor that setup already added (line 43) changes nothing. Removing it then leaves the other sensors and both statuses as they were, and neither call writes. |
| AlarmTraces.AddThenRemoveListener | Security/src/test/java/com/udacity/catpoint/security/application/SecurityServiceTest.java:148-152 | Registering an unregistered listener and then removing it restores the state exactly and writes nothing. |
| AlarmTraces.ArmHomeThenCatWritesAlarmOnce | Security/src/test/java/com/udacity/catpoint/security/application/SecurityServiceTest.java:130-138 | Arming home and then processing a frame with a cat writes exactly one alarm status in total, and it is ALARM. |
| AlarmTraces.ArmThenNoCatWritesNoAlarmOnce | Security/src/test/java/com/udacity/catpoint/security/application/SecurityServiceTest.java:180-188 | Combines the arming reset checked at lines 180-188 with the no-cat frame checked at lines 107-114. After arming home or away, a frame without a cat writes NO_ALARM exactly once, because arming left every sensor inactive. The sensors stay the same. |
| AlarmTraces.DeactivateThenNoCatWritesNoAlarmOnce | Security/src/test/java/com/udacity/catpoint/security/application/SecurityServiceTest.java:172-178 | With every sensor inactive, deactivating one writes nothing. A frame without a cat then writes NO_ALARM exactly once. |

Decisions on behaviour the test does not pin down:

- The arming and alarm statuses are total enumerations. Several tests leave the
  repository's getters unstubbed, so the service reads `null`. The model's
  activation guard is "arming status is not DISARMED".
- Activating a sensor while disarmed writes nothing. This is the model's own
  choice. The test at SecurityServiceTest.java:198-204 makes this call without
  checking the outcome. So the model lets no sensor of a disarmed system raise
  the alarm.
- A frame with a cat while the system is not armed home writes nothing. This is
  the model's own choice too. The tests at SecurityServiceTest.java:130-138 and
  206-212 arm home and then process a cat frame. They require exactly one alarm
  write in total, but they leave the repository's `getArmingStatus` unstubbed, so
  the service there reads `null` rather than ARMED_HOME. The model reads the
  arming status that the earlier arming call stored. So in these scenarios it
  writes ALARM once, for the cat frame, and nothing when arming. The tests do not
  show what the service does with a cat while disarmed or armed away.
- Activating a sensor that is already active, with NO_ALARM while armed, writes
  PENDING_ALARM, the same as any activation from NO_ALARM.
- Deactivating an active sensor while the alarm is NO_ALARM writes nothing.
- Adding a sensor that is already managed leaves the collection unchanged. A
  sensor's identity is its name and type.

## Left out

- Image classification (`FakeImageService.imageContainsCat`, the image type and
  the float confidence threshold): `ProcessImage` takes the classifier's verdict
  as a `bool`.
- Persistence in `PretendDatabaseSecurityRepositoryImpl`: the repository is the
  fields of the class. The per-sensor `updateSensor` writes are not logged; only
  the resulting flags are modelled.
- Listener callbacks: only the set of registered listeners is modelled. The
  callbacks themselves are not: the alarm-status notification that goes with
  each write, and the cat-detection and sensor-change notifications. The GUI and
  the `main` wiring are out of scope.
- Security.SecurityService.ChangeSensorActivationStatus: requires the sensor to
  be managed, because the service's behaviour on a sensor outside the collection
  is unspecified.
- Mockito-only tests: SecurityServiceTest.java:141-146, 166-170 and 190-196 call
  the mock repository directly. SecurityServiceTest.java:160-164 only checks that
  the calls do not throw. None of them says anything about the service beyond
  what is modelled.
- Aliasing: the test changes a sensor's flag through its own reference
  (`sensor.setActive`). In the model this is a state whose sensor map already
  holds that flag.
