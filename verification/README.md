# Steering-interface state machine: a Dafny model

This project models the table-driven finite-state-machine engine of the
CANbus steering interface and the concrete steering-interface machine built
on it. It proves, among other things, the engine's bounds and ordering rules,
the machine's transition tables and guard behaviour, and that the drain loop
never returns when Stop is entered before the stop message is confirmed.

- `state_machine.dfy` (module `Fsm`): the engine. An immutable `Engine`
  record holds MAX_STATES, the current state and the one pending-transition
  slot: one target, one "generated" flag and one payload. There is no queue,
  so a second internal event overwrites the first. A `Machine` pairs the
  engine with the concrete machine's own fields. A state-map row
  (`StateAction`) holds the payload type its handler declares and the handler
  itself. The handler is a function from the fields, the new current state and
  the narrowed payload to an `Effect`: the new fields plus the internal events
  the handler raised, in order. `Step` is one iteration of the drain loop.
  `Drain` is the loop, bounded by fuel. The four assertions that a value can
  fail (state count, state-map length, target bound, payload type) become a
  `Failure(Fatal)`; the null-row assertion is under "Left out". In a functional model `getCurrentState` cannot
  change anything; its contract states the bound.
- `sm_steering_interface.dfy` (module `SteeringInterface`): the five states
  Idle=0, Clearance=1, Activation=2, Working=3 and Stop=4, with
  ST_MAX_STATES=5. It has the four per-event tables, the entry handlers, the
  guards and the constructor. The guards are constant functions in the code:
  activation true, working true, stop false, in debug mode and out of it. A
  `GuardSource` lets lemmas also force other guard values, to reach the
  failing branches. `AsWritten` is the code's own behaviour.
- `can_frame.dfy` (module `CanFrame`): the text `send_canframe` builds, and
  a parser for it, used to prove that the text determines the identifier and
  the bytes.
- `example.dfy` (module `Example`): the two ingress callbacks of the demo
  and the demo's message sequences.

The machine is not guaranteed to stop. Stop with `m_msg_sent == false`
re-enters Stop, and nothing inside the drain loop sets the flag. Out of debug
mode the gateway state stays 0, so reaching Working chains to Stop. The model
proves both outcomes for every amount of fuel.

`stop()` from Clearance, Activation or Working does not come to rest in Stop.
With `m_msg_sent == false`, `ST_stop` raises Stop again
(src/sm_steering_interface.cpp:159-160), so `stop()` never returns. With the
flag already true, the same call ends in Idle with the flag cleared
(src/sm_steering_interface.cpp:161-164). The model proves both
(`StopFromEngagedState`, `StopRequestFromWorking`).

## Model

| member | source | states |
|---|---|---|
| Fsm.SentinelsAboveStates | src/state_machine.h:84 | EVENT_IGNORED is 0xFE and CANNOT_HAPPEN is the next value; no state of a valid engine equals either |
| Fsm.Create | src/state_machine.cpp:10-16 | construction succeeds exactly when max_states < EVENT_IGNORED. The initial state (unchecked, so a precondition) becomes current. The slot is left with target 0xFE, the flag raised and no payload |
| Fsm.CreateInStateZero | src/state_machine.h:86 | without an initial state the machine starts in state 0 |
| Fsm.CurrentState | src/state_machine.h:89 | the accessor returns the current state, which is below MAX_STATES whenever the engine invariant holds |
| Fsm.InvokeInternalEvent | src/state_machine.cpp:38-45 | the slot is overwritten: the flag is raised and the target recorded. A null payload becomes a base EventData. The current state and MAX_STATES are untouched |
| Fsm.LastWriteWins | src/state_machine.h:97-100 | a second write to the single slot erases the first completely |
| Fsm.RaiseAllKeepsLast | src/state_machine.cpp:38-45 | after a handler raises several internal events only the last is pending; after none the slot is as the iteration left it |
| Fsm.Narrow | src/state_machine.h:66-67 | the cast succeeds on any non-null payload for NoEventData (a typedef of the base class) and only on the derived class otherwise; on success it yields the same payload |
| Fsm.InvokeStateAction | src/state_machine.h:53-71 | a failed narrowing is fatal; otherwise the bound handler is invoked once, with the narrowed payload |
| Fsm.Step | src/state_machine.cpp:59-81 | a target not below MAX_STATES is fatal. After an iteration the current state is the target, which is below MAX_STATES. A disarmed slot then still names the current state |
| Fsm.StepOrdering | src/state_machine.cpp:68-81 | the payload is taken, the flag lowered and the current state switched before dispatch. The handler of the target's row sees the target as current state and its fields are kept. The loop is re-armed exactly when the handler raised an event, and then for the last one |
| Fsm.Drain | src/state_machine.cpp:55-86 | if the loop stops normally no transition is pending and MAX_STATES is unchanged. If it ran at all, the current state is the last dispatched target, below MAX_STATES |
| Fsm.DrainFuelMonotone | src/state_machine.cpp:59 | once the loop has stopped within some number of iterations, allowing more changes nothing |
| Fsm.StateEngine | src/sm_steering_interface.h:97-101 | the engine reaches the map through the virtual `getStateMap()`, which asserts its length is ST_MAX_STATES; a map of another length is fatal, and a normal return leaves nothing pending |
| Fsm.InvokeExternalEvent | src/state_machine.cpp:20-34 | EVENT_IGNORED changes nothing and runs no handler. Any other target is drained before returning. Afterwards nothing is pending, the current state is the last dispatched target and the engine invariant is kept |
| Fsm.OutOfRangeTargetIsFatal | src/state_machine.cpp:62 | an external target at or above MAX_STATES, CANNOT_HAPPEN included, fails the bound assertion before any handler runs |
| Fsm.ConstructorSlotIsOverwritten | src/state_machine.cpp:13-14 | the slot left by the constructor never reaches the loop: the first event overwrites all of it |
| SteeringInterface.New | src/sm_steering_interface.cpp:15-27 | a fresh machine is in Idle with the invariant holding, gateway state 0, angle control, no message sent and debug mode off; 5 < EVENT_IGNORED |
| SteeringInterface.GuardsOf | src/sm_steering_interface.cpp:168-212 | the code's guards are activation true, working true, stop false, whatever the debug mode |
| SteeringInterface.StIdle | src/sm_steering_interface.cpp:78-82 | entering Idle changes no field and raises no event |
| SteeringInterface.StClearance | src/sm_steering_interface.cpp:84-102 | entering Clearance keeps the fields; it raises nothing exactly when the activation guards pass, otherwise one event to Stop |
| SteeringInterface.EnterUnderActivationGuard | src/sm_steering_interface.cpp:84-124 | the guard shared by `ST_clearance` and `ST_activation` (`StClearance`, `StActivation`, identical handlers in the code): Clearance and Activation keep the fields and raise nothing exactly when the activation guards pass; otherwise they raise one internal event, to Stop |
| SteeringInterface.StWorking | src/sm_steering_interface.cpp:126-151 | debug mode injects gateway state 2. Working stays without an event exactly when the guards fail, or pass with gateway state 2 or 3. Otherwise it raises one event, to Stop |
| SteeringInterface.StStop | src/sm_steering_interface.cpp:153-165 | with the flag false Stop re-raises Stop and keeps the fields; with it true it clears the flag and raises Idle |
| SteeringInterface.GetStateMap | src/sm_steering_interface.h:97-101 | the map has ST_MAX_STATES rows, and only the Working row declares the derived payload type |
| SteeringInterface.RowRunsHandler | src/sm_steering_interface.h:98 | row i runs the entry handler of state i, and every row chains at most once, with a null payload, to Stop or Idle |
| SteeringInterface.SetValueTarget | src/sm_steering_interface.cpp:34-40 | setValue is effective exactly in Activation and Working, and then targets Working |
| SteeringInterface.StopTarget | src/sm_steering_interface.cpp:45-51 | stop is effective exactly in Clearance, Activation and Working, and then targets Stop |
| SteeringInterface.SendClearanceTarget | src/sm_steering_interface.cpp:56-62 | sendClearance is effective exactly in Idle, and then targets Clearance |
| SteeringInterface.ActivateTarget | src/sm_steering_interface.cpp:67-73 | activate is effective exactly in Clearance, and then targets Activation |
| SteeringInterface.SetValue | src/sm_steering_interface.cpp:31-42 | where the table ignores setValue nothing changes; a normal return leaves nothing pending and keeps the invariant |
| SteeringInterface.Stop | src/sm_steering_interface.cpp:44-53 | where the table ignores stop nothing changes; a normal return leaves nothing pending and keeps the invariant |
| SteeringInterface.SendClearance | src/sm_steering_interface.cpp:55-64 | where the table ignores sendClearance nothing changes; a normal return leaves nothing pending and keeps the invariant |
| SteeringInterface.Activate | src/sm_steering_interface.cpp:66-75 | where the table ignores activate nothing changes; a normal return leaves nothing pending and keeps the invariant |
| SteeringInterface.StopEntryRetries | src/sm_steering_interface.cpp:159-160 | entering Stop with the flag false leaves the machine in Stop with the flag still false and Stop pending again |
| SteeringInterface.StopWithoutMessageNeverReturns | src/sm_steering_interface.cpp:159-160 | hence the drain loop does not stop within any number of iterations |
| SteeringInterface.StopWithMessageReachesIdle | src/sm_steering_interface.cpp:161-164 | entering Stop with the flag true ends, after exactly two iterations, at rest in Idle with the flag cleared |
| SteeringInterface.EnterStop | src/sm_steering_interface.cpp:153-165 | entering Stop either never returns (flag false) or returns in Idle with the flag cleared (flag true) |
| SteeringInterface.StopFromEngagedState | src/sm_steering_interface.cpp:44-53 | stop() from Clearance, Activation or Working never returns with the flag false. With the flag preset true it ends in Idle with the flag false |
| SteeringInterface.EnterGuardedState | src/sm_steering_interface.cpp:84-124 | entering Clearance or Activation returns there when the guards pass. Otherwise the same call is redirected to Stop, with Stop's outcome |
| SteeringInterface.SendClearanceFromIdle | src/sm_steering_interface.cpp:55-64 | sendClearance() from Idle reaches Clearance when the activation guards pass. It is redirected to Stop in the same call when they fail |
| SteeringInterface.ActivateFromClearance | src/sm_steering_interface.cpp:66-75 | activate() from Clearance reaches Activation when the activation guards pass. It is redirected to Stop in the same call when they fail |
| SteeringInterface.EnterWorking | src/sm_steering_interface.cpp:126-151 | entering Working with a non-derived payload is fatal. It stays in Working when the guards fail or the gateway state is 2 or 3. Otherwise it is redirected to Stop |
| SteeringInterface.SetValueWithoutDataIsFatal | src/sm_steering_interface.h:90-91 | setValue(nullptr) in Activation or Working fails the payload check of Working |
| SteeringInterface.SetValueFromEngagedState | src/sm_steering_interface.cpp:127-142 | with the code's guards, setValue(data) keeps Working when the gateway state is 2 or 3, always in debug mode. Out of debug mode with another gateway state and no message sent, it never returns |
| SteeringInterface.WorkingGuardFailureStaysWorking | src/sm_steering_interface.cpp:143-150 | a failing working guard leaves the machine in Working with no redirect to Stop |
| SteeringInterface.WellTypedDrainNeverAborts | src/sm_steering_interface.h:81-94 | a pending slot that holds a payload, names a state and carries the derived payload when it targets Working never makes the drain fail. Handlers chain only to Stop and Idle, which accept every payload |
| SteeringInterface.OnlyNullSetValueAborts | src/sm_steering_interface.h:81-94 | stop(), sendClearance(), activate() and setValue with a payload never fail an assertion |
| CanFrame.Hex02 | src/sm_steering_interface.cpp:218 | `%02X` output is at least two digits and has no leading zero beyond the padding |
| CanFrame.ByteHex | src/sm_steering_interface.cpp:222 | a byte prints as exactly its two digits, high nibble first |
| CanFrame.IdDigits | src/sm_steering_interface.cpp:217-218 | a 16-bit identifier prints as two to four digits |
| CanFrame.SendCanFrame | src/sm_steering_interface.cpp:214-226 | the loop builds "0x", the identifier's digits, "#" and two digits for each of the first dlc bytes, in order; a negative dlc formats none |
| CanFrame.CanFrameRoundTrip | src/sm_steering_interface.cpp:218-224 | reading the frame text back gives the identifier and exactly the first dlc bytes |
| CanFrame.CanFrameShape | src/sm_steering_interface.cpp:218-224 | the text starts with "0x", the identifier has 2 to 4 digits followed by "#", and its length is 3 + digits + 2 per byte |
| Example.CbActivationRequest | src/example.cpp:22-38 | message 0 is stop() in every state; message 1 is sendClearance() in Idle and activate() in Clearance. Message 1 outside Idle and Clearance, or any other message, changes nothing. The callback never fails an assertion |
| Example.ActivationRequestAdvances | src/example.cpp:28-36 | with the code's guards, message 1 moves Idle to Clearance and Clearance to Activation |
| Example.AngleRequestData | src/example.cpp:41-43 | the payload's magnitude is non-negative and its sign flag is set exactly for a negative angle. The angle is recovered from the two |
| Example.AnglePayloadExamples | src/example.cpp:42-43 | -0.5 gives (0.5, negative) and 0.5 gives (0.5, positive) |
| Example.CbSteeringAngleRequest | src/example.cpp:40-45 | the angle callback is setValue with the angle's derived payload, so it never fails an assertion; outside Activation and Working it changes nothing |
| Example.AngleRequestEngages | src/example.cpp:40-45 | with the code's guards, an angle in Activation or Working rests in Working with gateway state 2 in debug mode; out of debug mode, with gateway state 0 and the stop message unsent, it never returns |
| Example.DebugInstance | src/example.cpp:53 | the demo instance is a fresh machine in Idle with debug mode on |
| Example.DebugDemoReachesWorking | src/example.cpp:53 | in debug mode, messages 1, 1 and an angle already bring Idle to rest in Working with gateway state 2, and another angle keeps it there |
| Example.NonDebugDemoNeverReturns | src/sm_steering_interface.cpp:131-141 | out of debug mode the gateway state stays 0, so the same sequence's angle request chains Working to Stop and never returns |
| Example.StopRequestFromWorking | src/example.cpp:24-27 | message 0 in Working never returns with the flag false. With the flag preset true it ends in Idle with the flag cleared |

## Left out

- Fsm.Drain: the loop runs at most `fuel` iterations, and `None` means it
  had not stopped by then. Actual non-termination is stated by lemmas that
  hold for every fuel (`StopWithoutMessageNeverReturns`,
  `NonDebugDemoNeverReturns`).
- `assert(state != nullptr)` in the drain loop (src/state_machine.cpp:80): a
  state-map row is a value here and cannot be null, so that assertion has no
  `Fatal` case.
- Example.AngleRequestData: the angle is a mathematical real. Single-precision
  rounding, NaN and negative zero are not modelled.
- Console output and the debug prefix: logging with no effect on state.
- `shared_ptr`, `enable_shared_from_this` and the pointer casts: ownership
  mechanics. The machine is passed to handlers explicitly. Only the checked
  narrowing is kept.
- The "software lock" TODOs around the engine: concurrency that the code
  does not implement.
- The control-mode branches and the "dummy code" bodies of the handlers:
  they have no observable behaviour. `m_control_mode` is kept as a field.
- The transmission of the CAN frame, ROS listeners and heartbeats: the code
  has them only as comments. `SendCanFrame` returns the text it builds.
- `main` and the global `si_test`: process wiring. `DebugInstance` is the
  instance `main` prepares.
- A handler that calls `invokeExternalEvent` re-entrantly: no handler of this
  machine does, so `Effect` records internal events only.
