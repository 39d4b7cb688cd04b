# Body ECU: model and proofs

The repository is the software of a vehicle body ECU: a microcontroller with door lock, lights, ignition,
speed simulation and diagnostics, and a vehicle computer that carries its state to a dashboard in the cloud
and commands back. This project models

* the microcontroller as one state machine (`BodyEcu`), with a step for every entry point: start button, crank
  timer, door button, converter tick, SOME/IP methods, bus signals, diagnostic requests, faults, shutdown. Each
  controller is also a class that writes pins, bus and events in place; its methods are proved to do what the
  step does (`DoorLock`, `Lighting`, `SpeedSimulator`, `Diagnostics`, `EcuDevices`). What holds in every reachable
  state and over whole runs is in `EcuInvariants`, `DoorSafety`, `DrivingOff`, `IgnitionSafety`, `EventTraces` and
  `UdsHistory`; `WholeRuns` lifts exact conditions for steps to runs;
* the laws of its behaviour seen from outside, in the numbers and bytes of the interfaces: what each input of any run
  does to speed, lock, mode and lights (`SpeedLaw`, `DoorLaw`, `ModeLaw`, `LightLaw`) and what callers and testers are
  told (`ReplyLaw`, `UdsLaw`);
* the speed filter, whose exact settling time is proved in `SpeedSettling`, over reachable states in `SettlingRuns`;
* the deferral of SOME/IP events between receive thread and publishers, one step per locked section
  (`SomeIpDeferral`), with what then is on the wire (`WireContents`) and in which order (`EventOrder`,
  `OvertakingRuns`) and for whom (`RequestLaw`);
* the way of the state to the dashboard, with a re-encoding at each hop (`KuksaBridge`, `BridgeLaw`,
  `CloudGateway`, `CompanionApp`, `LateSubscriber`, `StatePipeline`, `DashboardMirror`, `Draining`, `StaleUpdates`,
  `DashboardVin`, `LockFlag`), and of commands back (`RemoteCommands`);
* the two together: ECU, publisher and receive threads, and the hops to the dashboard, each interleaved freely
  (`MirrorOverWire`, `FieldTrust`);
* NATS subject matching and the VIN in subjects (`NatsSubjects`, `CloudSubjects`);
* DoIP framing (`DoIp`), the answers over a connection (`DoIpAnswers`) and the ECU behind it (`EcuOverDoIp`,
  `TesterView`);
* the order of starting and stopping components (`Lifecycle`), the indices of the CAN gateway (`CanGateway`),
  and the signal bus with callbacks that publish themselves (`SignalCascade`, `DoorCommandCascade`).

A run is a sequence of steps from power-on; "in every reachable state" means after every run. Wiring is a parameter:
pins, order of observers and providers, and the table of SOME/IP methods, in which the last registration of a method
wins. So the theorems hold for every platform's wiring unless they name a condition on it.

## What the proofs found

* Wire order: a publisher thread can send a younger event before an older one that was deferred, even its own
  (`EventOrder.WireOrder`, `EventOrder.ThreadOrder`). So a field of the dashboard can be trusted, over all runs of
  threads and hops, iff no publisher thread raises its events (`FieldTrust.TrustedIffNoPublisher`).
* Stale republishing: `publishCurrentState` reads the broker and then publishes. On the main thread and in the VIN
  callback of the command line it does so without the mutex under which signals are delivered, so an older value can
  overtake a newer one and stay on the dashboard (`StaleUpdates.Overtaken`). Inside the VIN signal's callback
  the mutex is held and it cannot happen (`DashboardMirror.OrderlyUndisturbed`).
* A VIN with a dot makes every state message and command miss its subscription (`CloudSubjects.SubscriptionRoutes`).
* The bridge maps door state Error to a lock flag of true, while the local bus says false: the two agree iff the door
  is not in Error (`LockFlag.FlagAgreesIffSound`).
* A moving car need not be locked (`DrivingOff.MovingUnlocked`); it is, over a run, iff the lock does not fail at speed
  and no tick takes an unlocked car above 5 km/h (`DrivingOff.MovingLocked`).
* With a CAN interface the POSIX platform hands the light method to the CAN gateway
  (`platforms/posix/src/app.cpp:99-106`), whose registration at level 3 replaces the lighting controller's: there the
  app's light commands switch nothing (`RemoteCommands.LightsObeyIffNotTakenOver`).
* `app/src/main.cpp:187` puts the lock on pin 2, which is by default the brake light's; pins agree with states iff
  they are disjoint (`EventTraces.PinsAgreeIffDisjoint`).
* Settling takes exactly 360 ticks in the worst case, in exact reals, over all filter states and over all states the
  ECU reaches (`SpeedSettling.SettlingTime`, `SettlingRuns.ReachableSettlingTime`); the unit tests use 300.
* A mode request during cranking separates the driver from the mode (`IgnitionSafety.StepIgnition`).
* `transitionToLevel(255)` never ends (`Lifecycle.LevelLoopEnds`).

Where documents and code disagree the model follows the code: `libs/body/vehicle-mode/README.md:17-22` lacks two
edges of the mode graph (Accessory to Crank, Crank to Accessory), and `.specs/prd.md:136` asks for speed zero
where the door lock accepts up to 5 km/h.

## Idealisations

* The speed filter computes in exact reals. Floats on the bus and on the wire are 32-bit images (IEEE 754-2019,
  section 3.4), infinities and NaN included; both zeros stand for 0.
* Modes are bytes, as the setter casts whatever it is sent.
* Hops between the programs are lossless and keep order per field: SOME/IP to a client known from the start, one
  broker stream per signal path, NATS per subscription. Across fields anything may interleave.
* A timer start may fail; a pending timer fires at most once.

## Model

| member | source | states |
|---|---|---|
| DashboardMirror.DashboardMirrors | libs/platform/cloud-gateway/src/CloudGatewayClient.cpp:75-139 | In every run without a disturbing step, passing on all that is in flight (SOME/IP, broker streams, NATS) would make each dashboard field show the ECU's state, and nothing if there has been no event; once drained, it does show it |
| DashboardMirror.StepMirrors | libs/platform/cloud-gateway/src/CloudGatewayClient.cpp:109-139 | A step keeps that iff it does not disturb: iff it neither loses the newest value because the VIN has a dot nor pushes a stale value with nothing newer waiting |
| DashboardMirror.OrderlyUndisturbed | platforms/autosd/main.cpp:164-181 | Runs in which no VIN has a dot and the state is republished only under the broker client's mutex have no disturbing step |
| DashboardMirror.LastEventTells | libs/adapters/autosd/src/SomeIpKuksaBridge.cpp:57-110 | The last event of each field, re-encoded by bridge, gateway and app, decodes to the controller's present state: lock flag (true in Error too), mode, whole speed, light bits |
| DashboardMirror.PublishReaches | libs/platform/cloud-gateway/src/CloudGatewayClient.cpp:172-179 | A value published for a field lands in that field's own subscription of the app and no other, and nowhere if the VIN has a dot |
| StatePipeline.BridgeRoutes | platforms/autosd/main.cpp:53-112 | With the vehicle computer's seven mappings, an event reaches a field's signal path iff it is that field's event, with the value of that mapping's data type |
| DashboardMirror.StepFlows | libs/platform/cloud-gateway/src/CloudGatewayClient.cpp:109-139 | For whatever events the ECU has sent: a step behind it keeps every lane in order iff it does not disturb |
| StaleUpdates.HopMirrors | libs/platform/cloud-gateway/src/CloudGatewayClient.cpp:109-139 | With nothing between ECU and bridge, a step behind it leaves every field heading for the truth iff it does not disturb; so a disturbance is visible |
| StaleUpdates.Overtaken | platforms/autosd/main.cpp:178-181 | Where the light method is the controller's, a reachable run in which the republishing main thread is overtaken by a newer light event and pushes the old state: all lights are off, the dashboard is heading for light 0 on, and nothing is left between ECU and bridge |
| DashboardVin.VinsAlwaysKnown | services/companion-app/app.py:98-117 | In every run, disturbed or not, the VIN on the dashboard is one the gateway has had or the app's default, and every state message in flight was published under a dot-free one of those |
| EventGrowth.StepGrows | libs/adapters/system/src/SomeIpSystem.cpp:199-227 | Every step of the ECU appends to the events raised and takes none back |
| KuksaBridge.SomeIpKuksaBridge.OnSomeIpEvent | libs/adapters/autosd/src/SomeIpKuksaBridge.cpp:57-110 | Publishes exactly what the first mapping for the event makes of its payload, and nothing for an empty or too short one |
| KuksaBridge.SomeIpKuksaBridge.OnSignalChanged | libs/adapters/autosd/src/SomeIpKuksaBridge.cpp:112-146 | Sends one request: two packed bytes, or the true or the false method; with an empty payload for a value of another type |
| KuksaBridge.MaskBits | libs/adapters/autosd/src/SomeIpKuksaBridge.cpp:82-89 | Bit i of the mask is set iff the payload has a byte i and it is not 0 |
| KuksaBridge.ReadInt32 | libs/adapters/autosd/src/SomeIpKuksaBridge.cpp:97-105 | The loop that shifts bytes in from the right, 32 bits kept, read as two's complement |
| KuksaBridge.BigEndianLastFour | libs/adapters/autosd/src/SomeIpKuksaBridge.cpp:99-102 | What that loop computes: the last four bytes of a payload of any length, high byte first |
| KuksaBridge.ReadMask | libs/adapters/autosd/src/SomeIpKuksaBridge.cpp:82-89 | The accumulated bit mask, read as a 32-bit two's complement number |
| KuksaBridge.ReadText | libs/adapters/autosd/src/SomeIpKuksaBridge.cpp:90-96 | The text before the first zero byte |
| BridgeLaw.FirstDecides | libs/adapters/autosd/src/SomeIpKuksaBridge.cpp:57-110 | The first mapping that listens to an event decides path and value; the value says of the payload what its data type promises, and is missing for an empty payload or a float of less than four bytes |
| BridgeLaw.MeaningMeans | libs/adapters/autosd/src/SomeIpKuksaBridge.cpp:64-108 | Those promises: last byte not 0; first four bytes as a float image; text up to the first zero byte; bit i for byte i not 0 of the first 32; the last four bytes in two's complement |
| BridgeLaw.CommandAsks | libs/adapters/autosd/src/SomeIpKuksaBridge.cpp:112-146 | A bool names the method and its byte, a number under a packed mapping its low two bytes, any other value the method without payload |
| CloudGateway.CloudGatewayClient.PublishCurrentState | libs/platform/cloud-gateway/src/CloudGatewayClient.cpp:109-139 | Publishes what the broker holds of lock, mode, speed and lights, in this order; nothing when not connected |
| LateSubscriber.CatchesUp | libs/platform/cloud-gateway/src/CloudGatewayClient.cpp:109-139 | What is republished under a dot-free VIN, received through the app's four subscriptions: each field shows what the broker holds of it, and gets one message iff it holds a value of the field's type |
| LateSubscriber.CatchUp | libs/platform/cloud-gateway/src/CloudGatewayClient.cpp:109-139 | Gateway and app objects together: a new app shows exactly what the broker holds; nothing if the gateway is not connected or the VIN has a dot |
| CloudGateway.CloudGatewayClient.UpdateVin | libs/platform/cloud-gateway/src/CloudGatewayClient.cpp:141-154 | An empty or unchanged VIN does nothing; a new one is announced under its own subject, then the current state under the new subjects |
| CloudGateway.CloudGatewayClient.OnLockStateChanged | libs/platform/cloud-gateway/src/CloudGatewayClient.cpp:172-179 | One byte for a bool, nothing for any other type |
| CompanionApp.VehicleState.OnVehicleSpeed | services/companion-app/app.py:147-153 | Only the speed changes, to the first four bytes' float rounded to a tenth; a short message changes nothing but perhaps the VIN |
| CompanionApp.VehicleState.OnLockState | services/companion-app/app.py:119-127 | Only the lock flag changes, to whether the first byte is not 0; an empty message changes nothing but perhaps the VIN |
| CompanionApp.NearestTenth | services/companion-app/app.py:147-153 | The speed shown is the nearest tenth, the even one of two equally near |
| CompanionApp.FirstBytesCount | services/companion-app/app.py:119-160 | Bytes beyond the first, or for a speed the first four, make no difference |
| RemoteCommands.LockMessage | libs/platform/cloud-gateway/src/CloudGatewayClient.cpp:163-170 | A lock message of any content arrives at the ECU as one lock or unlock request, by its first byte; an empty one as none; the lights handler is not called |
| RemoteCommands.LightMessage | libs/platform/cloud-gateway/src/CloudGatewayClient.cpp:52-61 | The two bytes of a light message survive packing into one number and unpacking; shorter messages ask for nothing |
| RemoteCommands.RemoteLock | libs/body/door-lock/src/DoorLockController.cpp:71-93 | After any run, a lock command sent by the app leaves the door as asked iff it was so, or it has not failed, the speed is at most 5 km/h and the door was not last reported open; provided the door methods are the controller's |
| RemoteCommands.RemoteLight | libs/body/lighting/src/LightingController.cpp:34-46 | A light command sent by the app switches that light and no other, and the light bits the dashboard is heading for say so; provided the light method is the controller's |
| RemoteCommands.LightsObeyIffNotTakenOver | libs/platform/can-gateway/src/CanGateway.cpp:17-27 | With the controllers' methods registered first and the CAN gateway's later, the app's light commands are obeyed in every state iff none of the later ones is the light method |
| RemoteCommands.HandlerIsLast | libs/adapters/system/src/SomeIpSystem.cpp:187-191 | A method is answered by the handler registered last for it, and by an error iff none has been |
| RemoteCommands.OnlyFalseUnlocks | libs/adapters/autosd/src/SomeIpKuksaBridge.cpp:127-145 | A lock command signal of any value becomes exactly one request to the door, to unlock iff it reaches the bridge as false (by evaluation) |
| RemoteCommands.CloudPublishesBools | libs/platform/cloud-gateway/src/CloudGatewayClient.cpp:163-170 | What the gateway publishes as a lock command is always a bool and survives the broker: false iff the first byte is 0 (by evaluation) |
| NatsSubjects.SubjectMatchesPattern | libs/adapters/autosd/src/NatsCloudTransportAdapter.cpp:8-31 | The matcher with tokeniser, loop and shortcut answers whether the pattern, up to its first `>`, covers the subject token by token: for all strings, so the shortcut never changes the answer |
| NatsSubjects.MatchTokens | libs/adapters/autosd/src/NatsCloudTransportAdapter.cpp:23-30 | The index loop decides that relation for all token lists |
| NatsSubjects.Tokenize | libs/adapters/autosd/src/NatsCloudTransportAdapter.cpp:12-18 | Splits at dots and drops a trailing empty token |
| NatsSubjects.MatchesIsCoverage | libs/adapters/autosd/src/NatsCloudTransportAdapter.cpp:23-30 | For patterns with `>` only last, matching is the declarative relation: `*` one token, a final `>` one or more |
| NatsSubjects.CoverageIffTailLast | libs/adapters/autosd/src/NatsCloudTransportAdapter.cpp:26-26 | The loop is exact for all subjects iff `>` occurs at the end of the pattern only |
| NatsSubjects.JoinSplit | libs/adapters/autosd/src/NatsCloudTransportAdapter.cpp:12-18 | Splitting at dots gives back the parts that were joined |
| CloudSubjects.SubscriptionRoutes | libs/platform/cloud-gateway/src/CloudGatewayClient.cpp:14-61 | A subject built for a VIN meets a wildcard subscription iff it is its own and the VIN has no dot |
| CloudSubjects.VinRecovered | services/companion-app/app.py:98-107 | The app recovers the VIN from the subject iff it is dot-free and not `*`, or was already known |
| CloudSubjects.NatsTransport.DispatchMessage | libs/adapters/autosd/src/NatsCloudTransportAdapter.cpp:202-216 | Calls the callbacks of exactly the matching patterns, each once |
| CloudSubjects.CommandDispatch | libs/adapters/autosd/src/NatsCloudTransportAdapter.cpp:202-216 | A command reaches exactly one gateway handler, its own; other subjects and dotted VINs reach none |
| EcuInvariants.AlwaysConsistent | libs/body/speed-simulator/src/SpeedSimulator.cpp:51-145 | In every reachable state, for any wiring: speed shown, last sent and on the bus agree, are a multiple of 5 and 0 outside Run, the filter is in 0..4095, the simulator knows the mode, replayed events give the controllers' states, disjoint pins show lights and lock |
| DoorLaw.EnteringRunLocks | libs/body/door-lock/src/DoorLockController.cpp:101-106 | For any order of observers, a step into Run leaves the door locked iff it was locked, or unlocked and not last reported open |
| DoorLaw.LockObeys | libs/body/door-lock/src/DoorLockController.cpp:51-146 | The lock after any input of any run: it does what is asked by button, call, command signal, diagnostic control or shutdown, and locks when Run is entered, iff it has not failed, the speed is at most 5 km/h and the door was not last reported open (true); a fault makes it fail; nothing else moves it |
| DoorLaw.FreeIsSafe | libs/body/door-lock/src/DoorLockController.cpp:51-69 | In every reachable state the controller's check passes iff the speed shown is at most 5 km/h and the last door position published, if any, was not true |
| DoorLaw.OpenDoorHoldsLock | libs/body/door-lock/src/DoorLockController.cpp:61-66 | Over any run after the door was reported open and until the next report, the lock stays as it is, unless it fails |
| DoorLaw.LockPinDriven | libs/body/door-lock/src/DoorLockController.cpp:71-93 | Whoever asks, the lock pin is driven to the new state when the lock moves, high for locked, and no pin otherwise |
| DoorSafety.StepDoor | libs/body/door-lock/src/DoorLockController.cpp:51-146 | Through every entry point the lock moves only between Locked and Unlocked and only when the bus says it is safe; only a fault leads into Error |
| DoorSafety.DoorFrozen | libs/body/door-lock/src/DoorLockController.cpp:51-93 | Along any run in which it stays unsafe the lock does not change, except into Error by a fault |
| DoorSafety.ErrorAbsorbs | libs/body/door-lock/src/DoorLockController.cpp:71-99 | A failed door stays failed over any run |
| DrivingOff.StepExposes | libs/body/speed-simulator/src/SpeedSimulator.cpp:85-139 | In a consistent state, a step keeps `above 5 km/h implies locked` iff it is neither a fault of the lock above 5 km/h nor a tick in Run, with the door not locked, whose override is 7.5 km/h or more or whose filtered reading scales to as much |
| DrivingOff.MovingLocked | libs/body/door-lock/src/DoorLockController.cpp:51-69 | Over runs from power-on: a car above 5 km/h is locked after every step iff no step of the run is of that kind |
| DrivingOff.MovingUnlocked | libs/body/door-lock/src/DoorLockController.cpp:83-93 | It happens: started with the button, unlocked in Run and driven off with two ticks at full throttle, the car moves at 10 km/h with its door unlocked and no longer lockable |
| IgnitionSafety.AlwaysCrankTimed | libs/body/ignition/src/IgnitionController.cpp:32-57 | In every reachable state cranking holds iff exactly one crank timer is pending |
| IgnitionSafety.StepIgnition | libs/body/ignition/src/IgnitionController.cpp:32-75 | A step keeps `cranking iff mode is Crank` iff it is not an accepted mode request into or out of Crank |
| IgnitionSafety.AlignedUnlessDiverted | libs/body/vehicle-mode/src/VehicleModeManager.cpp:64-77 | Over runs from power-on: cranking means mode Crank, and the reverse, after every step iff no step of the run is such a request |
| IgnitionSafety.DivertedCrank | libs/body/vehicle-mode/src/VehicleModeManager.cpp:45-50 | One such request breaks it, wherever the mode setter is the manager's |
| IgnitionSafety.PressLeavesRun | libs/body/ignition/src/IgnitionController.cpp:59-69 | A press in Run leaves it, for Accessory, iff the speed is 0 and the driver is not cranking |
| ModeLaw.ModeFollows | libs/body/ignition/src/IgnitionController.cpp:24-75 | Mode and cranking after any input of any run: boot, press with and without a free timer, crank timer, setter call and shutdown, each by mode, cranking and speed |
| ModeLaw.EightEdges | libs/body/vehicle-mode/src/VehicleModeManager.cpp:37-53 | Two modes follow each other in the mode events of some run iff they are one of the eight pairs 0-1, 1-0, 1-2, 1-3, 2-1, 2-3, 3-1, 3-2, where the setter is the manager's |
| ModeLaw.WayToOff | libs/body/vehicle-mode/src/VehicleModeManager.cpp:37-53 | From every reachable state two calls of the setter, for Accessory and for Off, lead to Off |
| ModeLaw.ToldInOrder | libs/body/vehicle-mode/src/VehicleModeManager.cpp:22-31 | A change of mode is told by its own event first, then by what each observer raises on it, in the order of their registration |
| LightLaw.LightsFollow | libs/body/lighting/src/LightingController.cpp:34-59 | The lights after any input of any run: the one asked for by call or diagnostic control changes alone, all go off at shutdown and, where lighting observes modes, on entering Off; the pins show them where the four differ |
| LightLaw.PinDriven | libs/body/lighting/src/LightingController.cpp:34-46 | Asked for, a light's pin is driven even if the light does not change, and no other pin is, in any wiring |
| LightLaw.SwitchingOff | libs/body/lighting/src/LightingController.cpp:52-59 | However the car is left, two setter calls end in Off with all lights off, where lighting observes modes |
| ReplyLaw.CallAnswered | libs/adapters/system/src/SomeIpSystem.cpp:249-271 | Every method call of every run is answered in these bytes: lights, lock state, mode and speed as they are; code 0 for a setter iff the light exists, the lock or mode is then as asked, the payload long enough; the CAN gateway at once; 0x81 with code 5 for anything else |
| ReplyLaw.CommandAnswered | libs/body/door-lock/src/DoorLockController.cpp:134-146 | A bool on the command signal is answered on the bus by 0 iff the lock is then as asked, else by 1; other values are not answered and move nothing |
| EventTraces.EventsDetermineState | libs/body/door-lock/src/DoorLockController.cpp:173-184 | Over any run: door events chain from Unlocked and each tells a change, unless the door has failed; mode events walk the mode graph from Off without repeating; consecutive speed events and consecutive light events differ; and the last events equal the controllers' fields |
| EventTraces.PinsAgreeIffDisjoint | libs/body/lighting/src/LightingController.cpp:34-46 | Where the light method is the controller's, the pins show lights and lock in all reachable states iff lock and lights use four different pins |
| LockFlag.LocalSignal | libs/body/door-lock/src/DoorLockController.cpp:173-184 | In a consistent state the ECU's own bus carries the lock signal iff there has been a door event, and then it says locked iff the door is Locked |
| LockFlag.FlagAgreesIffSound | libs/adapters/autosd/src/SomeIpKuksaBridge.cpp:65-69 | In every undisturbed run the lock flag the dashboard is heading for and the ECU's own bus exist together, and agree iff the door is not in Error |
| LockFlag.FaultShowsLocked | libs/body/door-lock/src/DoorLockController.cpp:95-99 | A reachable case: after a fault the dashboard is heading for locked while the bus says not locked (by evaluation) |
| SpeedSettling.SettlingTime | libs/body/speed-simulator/src/SpeedSimulator.cpp:104-125 | After n constant readings the speed shown is the reading's own, for every reading and every filter state in range, iff n >= 360 |
| SettlingRuns.ReachableSettlingTime | libs/body/speed-simulator/src/SpeedSimulator.cpp:104-125 | The same from every state the ECU reaches in Run without override, where the simulator is told of modes: n constant readings settle all of them iff n >= 360; full throttle for 180 ticks and then reading 563 needs them all |
| SpeedSettling.AtMost41Events | libs/body/speed-simulator/src/SpeedSimulator.cpp:117-139 | A constant reading, however long, raises at most 41 speed events |
| SpeedSettling.FilterError | libs/body/speed-simulator/src/SpeedSimulator.cpp:117-118 | After n ticks the filter is off by 0.97^n of the first error |
| SpeedSettling.Gaps | libs/body/speed-simulator/src/SpeedSimulator.cpp:120-125 | No reading lies on a rounding boundary; only readings far from one end of the range come within a sixteenth of one |
| SpeedSettling.OwnSpeed | libs/body/speed-simulator/src/SpeedSimulator.cpp:109-125 | A reading's own speed: 0 below 200, 200 km/h above 3895, otherwise (16 raw + 819) / 1638 steps of 5 km/h; this is the speed the two settling times and the count of events speak of |
| SpeedLaw.TickShows | libs/body/speed-simulator/src/SpeedSimulator.cpp:69-145 | Every tick of every run in Run: the speed last set if one is in force, else the filter after moving 3 per cent of the way to the pedal, to the nearest multiple of 5 km/h; a failed reading changes nothing; outside Run the speed is 0 |
| SpeedLaw.OnlyTicksMove | libs/body/speed-simulator/src/SpeedSimulator.cpp:51-67 | No other input changes the speed, except that it is 0 outside Run |
| SpeedLaw.OverrideIsSetSpeed | libs/body/speed-simulator/src/SpeedSimulator.cpp:156-178 | The override in force is the value of the last accepted call of the speed setter in the run, at most 200 km/h; negative numbers and NaN end it |
| Float32.ImageRoundTrip | libs/body/speed-simulator/src/SpeedSimulator.cpp:191-198 | Every whole number below 2^24 survives the trip through its 32-bit image |
| Float32.SerializeRoundTrip | libs/body/speed-simulator/src/SpeedSimulator.cpp:180-198 | Writing an image in four bytes and reading it back is the identity, in both directions |
| Float32.ImagesOrdered | libs/body/speed-simulator/src/SpeedSimulator.cpp:180-198 | Images below infinity stand for numbers in the same order |
| Float32.SignAndLimits | libs/body/speed-simulator/src/SpeedSimulator.cpp:180-198 | The highest bit is the sign; the images above are the infinities and NaN |
| UdsHistory.SessionIsLastAccepted | libs/platform/diagnostics/src/UdsServiceHandler.cpp:45-65 | Over any run the session is the one named by the last accepted request of service 0x10 |
| UdsHistory.DiagnosticsHarmless | libs/platform/diagnostics/src/UdsServiceHandler.cpp:91-95 | Outside the extended session no request, and in it none but 0x2F, changes anything but the session |
| UdsHistory.ReadRoute | libs/platform/diagnostics/src/UdsServiceHandler.cpp:67-89 | A data identifier reaches its own provider, whatever the order of providers |
| UdsHistory.ControlRoute | libs/platform/diagnostics/src/UdsServiceHandler.cpp:101-113 | A control reaches its own provider only, whatever the order of providers |
| UdsHistory.ControlLight | libs/body/lighting/src/LightingController.cpp:72-79 | 0x2F on the lights is answered positively iff session, provider, length and light number are right, and a refusal changes nothing |
| UdsHistory.ControlReadBack | libs/body/lighting/src/LightingController.cpp:61-79 | After a positive 0x2F on a light, 0x22 reads back its new value and the others unchanged |
| UdsLaw.RequestAnswered | libs/platform/diagnostics/src/UdsServiceHandler.cpp:25-138 | Every diagnostic request of every run gets the bytes ISO 14229-1 has for it: which service, length, session, identifier and provider lead to which positive response or to which of 0x11, 0x12, 0x22 and 0x31; a lock control is positive iff the lock is then as asked |
| UdsLaw.StoreOfRun | libs/platform/diagnostics/src/DtcStore.cpp:5-17 | Over any run the ECU's trouble codes are those stored since the last clear, in order of first storing, with their last status |
| Diagnostics.StoreHistory | libs/platform/diagnostics/src/DtcStore.cpp:5-17 | After any history the codes are distinct, in order of first storing since the last clear, with the status last written |
| Diagnostics.ReportReadBack | libs/platform/diagnostics/src/UdsServiceHandler.cpp:116-134 | Reading the report in records of four bytes gives the store, codes cut to 24 bits |
| Diagnostics.ReportFaithful | libs/platform/diagnostics/src/UdsServiceHandler.cpp:125-131 | It gives exactly the store iff all codes are below 2^24 |
| DoorLock.DoorLockController.Lock | libs/body/door-lock/src/DoorLockController.cpp:71-81 | State, pin, event, signal and result together are those of the lock transition |
| DoorLock.DoorLockController.Unlock | libs/body/door-lock/src/DoorLockController.cpp:83-93 | Likewise for unlocking |
| DoorLock.DoorLockController.SetError | libs/body/door-lock/src/DoorLockController.cpp:95-99 | Error, told in an event and as not locked on the bus |
| DoorLock.DoorLockController.SafetyHolds | libs/body/door-lock/src/DoorLockController.cpp:51-69 | True iff the bus shows no speed above 5 and no open door; absent or oddly typed signals do not count |
| DoorLock.DoorLockController.OnCommandSignal | libs/body/door-lock/src/DoorLockController.cpp:134-146 | A bool locks or unlocks and is answered on the bus; other values do nothing |
| Lighting.LightingController.SetLightState | libs/body/lighting/src/LightingController.cpp:34-46 | The pin is driven always, an event raised only on a change, unknown lights refused |
| Lighting.LightingController.OnModeChanged | libs/body/lighting/src/LightingController.cpp:52-59 | Off switches the three lights off in turn; other modes do nothing |
| SpeedSimulator.Simulator.OnTimerTick | libs/body/speed-simulator/src/SpeedSimulator.cpp:69-145 | One tick: outside Run back to 0, override, failed reading held, or filter, quantise and clamp; event on change, bus always |
| SpeedSimulator.Simulator.OnModeChanged | libs/body/speed-simulator/src/SpeedSimulator.cpp:51-67 | Leaving Run shows 0 at once, in an event only if it is news |
| SpeedSimulator.Simulator.HandleSetSpeed | libs/body/speed-simulator/src/SpeedSimulator.cpp:156-178 | Sets or clears the override; short payloads are refused |
| EcuDevices.VehicleModeManager.Change | libs/body/vehicle-mode/src/VehicleModeManager.cpp:22-31 | Refused off the graph; a change is announced and passed to every observer in order |
| EcuDevices.IgnitionController.OnButtonPress | libs/body/ignition/src/IgnitionController.cpp:32-75 | Cranking with its timer, the way back if no timer is free, and leaving Run at a standstill |
| EcuDevices.IgnitionController.OnCrankTimer | libs/body/ignition/src/IgnitionController.cpp:45-49 | Run is tried and cranking is over either way |
| EcuDevices.UdsServiceHandler.HandleRequest | libs/platform/diagnostics/src/UdsServiceHandler.cpp:25-43 | Session, providers' state and response of one request are those of the ECU step |
| EcuDevices.BodyEcuDevice.Dispatch | libs/adapters/system/src/SomeIpSystem.cpp:249-271 | A method call changes the composed objects as the ECU step says, with its response, by the handler registered last; unregistered methods get an error |
| EcuDevices.MethodTable.RegisterMethod | libs/adapters/system/src/SomeIpSystem.cpp:187-191 | The table of handlers keeps finding what a scan of the registrations from the last one finds |
| EcuDevices.BodyEcuDevice.CommandSignalPublished | libs/adapters/linux/src/InProcessSignalBus.cpp:5-20 | Publishing a command signal stores it and calls the door controller once |
| Diagnostics.DtcStore.Store | libs/platform/diagnostics/src/DtcStore.cpp:5-13 | Overwrites the status of a known code in place, appends an unknown one |
| SomeIpDeferral.Deferral | libs/adapters/system/src/SomeIpSystem.cpp:297-309 | Under any interleaving with any publishers: not dispatching means nothing pending, and the deferred events are in raise order |
| SomeIpDeferral.DeferredUnder | libs/adapters/system/src/SomeIpSystem.cpp:297-328 | The events sent after a request's response were raised while that request was being handled |
| SomeIpDeferral.OneFate | libs/adapters/system/src/SomeIpSystem.cpp:211-226 | Every event raised is in exactly one of: the deferred line, sent directly, between the two sections of sendEvent |
| RequestLaw.ClientsKnown | libs/adapters/system/src/SomeIpSystem.cpp:282-285 | Over all runs the clients known are those that have sent something and not lost their connection since |
| RequestLaw.DirectReaches | libs/adapters/system/src/SomeIpSystem.cpp:219-225 | A direct event goes out at once to exactly the clients known then |
| RequestLaw.FlushReaches | libs/adapters/system/src/SomeIpSystem.cpp:318-328 | After a response every deferred event is to go to exactly the clients known then |
| RequestLaw.FlushAt | libs/adapters/system/src/SomeIpSystem.cpp:323-328 | Position by position: event by event, and each to the clients in their order |
| RequestLaw.EachAskerAnswered | libs/adapters/system/src/SomeIpSystem.cpp:297-316 | Over all runs requests are answered in the order received, each once and to its own sender, and all of them when the receive thread rests |
| WireContents.DirectOnWire | libs/adapters/system/src/SomeIpSystem.cpp:219-225 | The direct messages on the wire are, event by event, one to each client then known, none known twice |
| WireContents.FlushedOnWire | libs/adapters/system/src/SomeIpSystem.cpp:313-328 | When the receive thread rests, its messages are, request by request, the response and then the events deferred under it in raise order, one to each client of the snapshot, none in it twice |
| WireContents.NeverTwice | libs/adapters/system/src/SomeIpSystem.cpp:199-227 | In every reachable state no event has been put on the wire twice for a client |
| EventOrder.WireOrder | libs/adapters/system/src/SomeIpSystem.cpp:297-328 | Events reach the wire in raise order in all runs iff only the receive thread raises events |
| EventOrder.ThreadOrder | libs/adapters/system/src/SomeIpSystem.cpp:297-328 | The events of a set of threads keep their raise order on the wire in all runs iff no publisher is in the set: the receive thread's always do, a publisher's not even among themselves |
| EventOrder.NewestLastIffNone | libs/adapters/system/src/SomeIpSystem.cpp:304-328 | At rest, a client known throughout has been told the newest event of a set of threads last, in all runs, iff no publisher is in the set; so the last event of a field is the newest iff only the receive thread raises it |
| EventOrder.EventOvertaken | libs/adapters/system/src/SomeIpSystem.cpp:304-328 | The run in which a publisher's second event overtakes its first, deferred one |
| OvertakingRuns.Overtaken | libs/adapters/system/src/SomeIpSystem.cpp:304-328 | The same after any number of events in order: for every k a reachable state at rest in which the wire carries k events of a publisher in order and then its next two swapped |
| MirrorOverWire.HearsNewestLast | libs/adapters/system/src/SomeIpSystem.cpp:304-328 | At rest, the last event of a field that a client known throughout has heard is the last the ECU raised, if no publisher is among the threads that raise that field's events |
| MirrorOverWire.HeadingFromHeard | libs/adapters/autosd/src/SomeIpKuksaBridge.cpp:57-110 | Whatever events reach the bridge, in whatever order: after any undisturbed run of the hops behind it, each field of the dashboard is heading for what the last of its events shows |
| MirrorOverWire.TrustedIfNone | libs/adapters/system/src/SomeIpSystem.cpp:297-328 | Then the dashboard is heading for the controller's field: for all runs of the ECU, carried by all runs of the SOME/IP threads and on by all undisturbed runs of the hops behind |
| FieldTrust.TrustedIffNoPublisher | libs/adapters/system/src/SomeIpSystem.cpp:297-328 | For each field that the ECU can change and any set of threads raising its events: the dashboard is heading for the controller's state in all runs of ECU, SOME/IP threads and undisturbed hops iff no publisher is in that set |
| Draining.AllArrives | libs/platform/cloud-gateway/src/CloudGatewayClient.cpp:75-139 | From every state, steps behind the ECU alone (pushes of what is fetched, the end of a VIN callback, bridging, delivery, reception) lead to one with nothing in flight, the ECU unchanged |
| Draining.DashboardCatchesUp | libs/platform/cloud-gateway/src/CloudGatewayClient.cpp:75-139 | Every orderly run, with no thread outside the mutex about to push, can be continued by such steps so that the dashboard shows the ECU's state in every field |
| SomeIpDeferral.SomeIpSystem.SendEventFirst | libs/adapters/system/src/SomeIpSystem.cpp:212-218 | The first locked section: deferred iff dispatching |
| SomeIpDeferral.SomeIpSystem.FlushDeferred | libs/adapters/system/src/SomeIpSystem.cpp:323-328 | Each deferred event to each client of the snapshot, event by event |
| SomeIpDeferral.InsertMembers | libs/adapters/system/src/SomeIpSystem.cpp:282-285 | The set of known clients gains the sender and stays ordered |
| DoIp.DoIpTransport.HandleConnection | libs/adapters/system/src/DoIpTransport.cpp:139-222 | Output, tester address and handler state depend on the concatenated input alone, not on how recv cuts it |
| DoIp.Socket.ReadExact | libs/adapters/system/src/DoIpTransport.cpp:214-222 | Fills the buffer with the next bytes of the stream, or fails iff it ends before |
| DoIp.ParseAllEncoded | libs/platform/diagnostics/include/diagnostics/DoIpProtocol.h:42-64 | A concatenation of encoded frames parses back to exactly those frames, whatever follows (ISO 13400-2:2019, generic header) |
| DoIp.EncodeParsed | libs/adapters/system/src/DoIpTransport.cpp:142-160 | Encoding the parsed frames gives back the bytes consumed |
| DoIp.ServeInOrder | libs/adapters/system/src/DoIpTransport.cpp:178-198 | For every handler and input, every acknowledgement sent is followed at once by the reply to the same tester, and no reply comes without one |
| DoIp.ServeWellFormed | libs/platform/diagnostics/include/diagnostics/DoIpProtocol.h:92-103 | All frames sent fit their length fields iff every reply made along the connection is shorter than 2^32 - 4 bytes |
| DoIp.HonestLength | libs/platform/diagnostics/include/diagnostics/DoIpProtocol.h:42-64 | A frame's encoded length field is its payload's length iff the payload is shorter than 2^32 bytes |
| DoIp.ServeEncoded | libs/adapters/system/src/DoIpTransport.cpp:164-210 | Input that starts with encoded frames is answered frame by frame, none skipped, and then as what follows them |
| DoIpAnswers.ServeTranscript | libs/adapters/system/src/DoIpTransport.cpp:142-210 | Whatever bytes come in, all frames sent: per routing request, diagnostic message and alive check received the answer to it, in order, a refusal at the end iff the frames are followed by a header of another version, and the tester and handler state left |
| DoIpAnswers.ExchangedAt | libs/adapters/system/src/DoIpTransport.cpp:178-198 | The k-th acknowledgement and reply answer the k-th diagnostic message received: its addresses swapped and code 0; 0E 80, its source address and the k-th reply of the handler |
| EcuOverDoIp.ConnectionIsRun | libs/adapters/system/src/DoIpTransport.cpp:178-198 | Whatever bytes a tester sends, the ECU has made a run of the requests framed in them |
| EcuOverDoIp.ConnectionConsistent | libs/adapters/system/src/DoIpTransport.cpp:139-212 | So a connection ends in a consistent state, in the session last accepted |
| EcuOverDoIp.DefaultConnectionHarmless | libs/platform/diagnostics/src/UdsServiceHandler.cpp:91-95 | A stream that never asks for the extended session leaves the ECU untouched |
| TesterView.TesterTold | libs/adapters/system/src/DoIpTransport.cpp:178-198 | A tester's bytes to bytes, after any run: the k-th diagnostic message it gets goes to the sender of its k-th request and carries the response that UdsLaw has for this request between the ECU's states before and after it |
| EcuOverDoIp.EcuWellFormed | libs/platform/diagnostics/src/UdsServiceHandler.cpp:116-134 | For the ECU's own handler: whatever a tester sends, all frames it gets fit their length fields, iff VIN, serial number and trouble codes at the opening of the connection do |
| Lifecycle.StableSortCorrect | libs/platform/lifecycle/src/LifecycleManager.cpp:14-17 | The sort orders by level, keeps all entries, and keeps registration order within a level |
| Lifecycle.LifecycleManager.TransitionToLevel | libs/platform/lifecycle/src/LifecycleManager.cpp:13-34 | The calls made are the start trace of the entries as registered, despite the sort, for every level below 255 |
| Lifecycle.LifecycleManager.ShutdownAll | libs/platform/lifecycle/src/LifecycleManager.cpp:36-49 | The stop trace of the level reached, once; nothing if not running |
| Lifecycle.Mirror | libs/platform/lifecycle/src/LifecycleManager.cpp:19-45 | Inits and runs name the same components in the same order; shutdown is the exact reverse |
| Lifecycle.StartedOncePerRegistration | libs/platform/lifecycle/src/LifecycleManager.cpp:19-30 | A component is initialised once per registration at levels 1 to L, and otherwise never |
| Lifecycle.PhasesInOrder | libs/platform/lifecycle/src/LifecycleManager.cpp:19-30 | All of a level's inits come before its runs, and these before the next level; also for components registered at several levels |
| Lifecycle.StartedInOrder | libs/platform/lifecycle/src/LifecycleManager.cpp:19-30 | Every registration at levels 1 to L is initialised and run at its own level, after all of lower levels and, within a level, in order of registration |
| Lifecycle.LevelLoopEnds | libs/platform/lifecycle/src/LifecycleManager.cpp:19-19 | The byte counter passes the limit iff the limit is below 255 |
| Lifecycle.StartAndStop | libs/platform/lifecycle/src/LifecycleManager.cpp:13-49 | One start and one shutdown stop exactly what was initialised, in reverse |
| CanGateway.Gateway.BuildIndices | libs/platform/can-gateway/src/CanGateway.cpp:68-79 | For every key both indices give what a scan of the mappings gives |
| CanGateway.MessageMappingIsLast | libs/platform/can-gateway/src/CanGateway.cpp:71-74 | The scan chooses a mapping iff it is one to CAN with this service and method and no later one is; none iff none is |
| CanGateway.FrameMappingIsLast | libs/platform/can-gateway/src/CanGateway.cpp:75-77 | The scan chooses a mapping iff it is one from CAN with this identifier and no later one is; none iff none is |
| CanGateway.KeysDistinct | libs/platform/can-gateway/include/can_gateway/CanGateway.h:34-36 | The packed service and method key is injective |
| CanGateway.Gateway.OnSomeIpMessage | libs/platform/can-gateway/src/CanGateway.cpp:49-57 | Sends the frame of the chosen mapping, or nothing; running or stopped |
| CanGateway.Gateway.OnCanFrame | libs/platform/can-gateway/src/CanGateway.cpp:59-66 | Raises the event of the chosen mapping, or nothing |
| CanGateway.SomeIpToCanFrame | libs/platform/can-gateway/src/MessageTranslator.cpp:7-16 | Identifier, clamped length, and each byte of the buffer: the payload's as far as it fits, else 0 |
| CanGateway.PayloadRoundTrip | libs/platform/can-gateway/src/MessageTranslator.cpp:7-22 | A payload through a frame arrives cut or zero-padded to min(dlc, 64), unchanged iff it has that length |
| CanGateway.FrameRoundTrip | libs/platform/can-gateway/src/MessageTranslator.cpp:7-22 | A frame through a payload is the same frame iff dlc <= 64 and its tail is zero |
| SignalCascade.PublishEffect | libs/adapters/linux/src/InProcessSignalBus.cpp:5-20 | If signals can be ranked so that callbacks publish below the paths they are subscribed to, every publish returns, leaves its value in place, calls each subscriber of the path once in order, and touches no other path of the same or a higher rank |
| SignalCascade.InProcessSignalBus.PublishSignal | libs/adapters/linux/src/InProcessSignalBus.cpp:5-20 | Store, snapshot and callback loop, with publishes and subscriptions made inside callbacks, do what that cascade says |
| DoorCommandCascade.DoorRanked | libs/body/door-lock/src/DoorLockController.cpp:40-48 | The door lock's wiring can be so ranked |
| DoorCommandCascade.CommandCascade | libs/body/door-lock/src/DoorLockController.cpp:134-146 | A command on the bus, with the publications made inside the callback, does what the ECU's command step does, and calls the door once |

## Left out

- DashboardMirror.DashboardMirrors: assumes that each field's SOME/IP events reach the bridge in the order they are raised; `FieldTrust.TrustedIffNoPublisher` says exactly for which fields that may be assumed.
- Lifecycle.LifecycleManager.TransitionToLevel: requires a level below 255, because the source's loop does not end at 255.
- SomeIpDeferral.Deferral: like the other results on deferral, covers the time before shutdown, which clears the pending list.
- SpeedSettling.SettlingTime: proved of exact real arithmetic; rounding errors of single-precision arithmetic are not modelled.
- CanGateway.Gateway.BuildIndices: an index entry is a position; in the source it is a pointer that a later `addMapping` may leave dangling until the next start.
- SignalCascade.PublishEffect: a callback publishes a bounded number of times, each publication a function of its own state, the store and the value; concurrent publishers are not modelled.
- KuksaBridge.ReadMask: bytes beyond the 32nd are ignored; in the source the shift is undefined there.
- DoIp.DoIpTransport.HandleConnection: the connection is running, a diagnostic handler is set, and every send succeeds; the accept loop and unsolicited `sendResponse` are not modelled.
- Resolving a subject and publishing under it are one step; in the source the VIN may change in between, which affects only the subject.
- Controllers built without a signal bus, for which the source skips publishing and safety checks.
- Sockets, gRPC, nats.c, systemd, Zephyr and SocketCAN drivers, console, buttons and converter: their input are steps, their output traces.
- SOME/IP service discovery, subscription to event groups, and the start-up registration of bridge and gateway callbacks.
- Failed connections and failed publishes of broker and NATS adapters.
- The app's event and log lists, its Flask routes (among them clearing the state) and HTML, and the command line.
- VIN texts are passed on as characters; UTF-8 decoding in the app is not modelled.
- Loading of YAML and generation of constants: service and method numbers are those of `config/services.yaml`.
- ReplyLaw.CallAnswered: speaks of what the dispatcher returns; on the way out the receive thread sets the type of every answer to 0x80, so that an unknown method is told by its code 5 alone.
- Timer slot pools, the DoCAN transport, and all printing.
- Methods registered by components other than the controllers and the CAN gateway, such as the reading of the VIN.
- Concurrent calls into the vehicle mode manager, which its header rules out.
