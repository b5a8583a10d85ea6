/** The steering-interface machine (src/sm_steering_interface.h,
  src/sm_steering_interface.cpp): five states, one transition table per
  external event, guarded entry handlers, and the one-shot `m_msg_sent` flag
  of the Stop state.

  The guards are constant functions in the code. They are reached through a
  `GuardSource`, so that the lemmas can also speak about the branches a
  failing guard would take (`Forced`); `AsWritten` is the code's behaviour.
 */
module SteeringInterface {
  import opened Wrappers
  import opened Fsm

  const ST_IDLE: uint8 := 0
  const ST_CLEARANCE: uint8 := 1
  const ST_ACTIVATION: uint8 := 2
  const ST_WORKING: uint8 := 3
  const ST_STOP: uint8 := 4
  const ST_MAX_STATES: uint8 := 5

  datatype ControlMode = CtAngle | CtTorque

  /** The derived payload class: the requested magnitude and its sign flag. */
  datatype SteeringInterfaceData = SteeringInterfaceData(request: real, requestSign: bool)

  type Payload = EventData<SteeringInterfaceData>

  /** The machine's own fields. `gatewaySIState` and `msgSent` are public:
      the environment may change them between two external calls. */
  datatype Fields = Fields(
    controlMode: ControlMode,
    gatewaySIState: uint8,
    gatewayClearanceSI: bool,
    msgSent: bool,
    isDebugMode: bool,
    driverSeatbelt: int)

  type SteeringInterface = Machine<Fields, SteeringInterfaceData>

  type SteeringEffect = Effect<Fields, SteeringInterfaceData>

  /** The engine invariant, for this machine's five states. */
  predicate Inv(si: SteeringInterface) {
    si.engine.maxStates == ST_MAX_STATES && Valid(si.engine)
  }

  /** The constructor: an engine over ST_MAX_STATES states starting in Idle,
      and the field initialisers of `SteeringInterface()`. */
  function New(): (si: SteeringInterface)
    ensures Inv(si) && CurrentState(si.engine) == ST_IDLE
    ensures ST_MAX_STATES < EVENT_IGNORED
    ensures si.ctx.gatewaySIState == 0 && si.ctx.controlMode == CtAngle
    ensures !si.ctx.msgSent && !si.ctx.isDebugMode && !si.ctx.gatewayClearanceSI
  {
    var e := CreateInStateZero<SteeringInterfaceData>(ST_MAX_STATES).value;
    Machine(e, Fields(CtAngle, 0, false, false, false, 2))
  }

  // ---------------------------------------------------------------- guards

  datatype Guards = Guards(activationRequirementsOK: bool, workingReqOK: bool, hasStopConditions: bool)

  /** Where the guard values come from: the code's own guard functions, or
      values imposed from outside to reach the failing branches. */
  datatype GuardSource = AsWritten | Forced(guards: Guards)

  function IsActivationRequirementsOK(f: Fields): bool {
    if f.isDebugMode then true else true
  }

  function IsWorkingReqOK(f: Fields): bool {
    if f.isDebugMode then true else true
  }

  function HasStopConditions(f: Fields): bool {
    if f.isDebugMode then false else false
  }

  /** The code's guards are constants, in debug mode and out of it. */
  function GuardsOf(src: GuardSource, f: Fields): (g: Guards)
    ensures src.AsWritten? ==> g == Guards(true, true, false)
    ensures src.Forced? ==> g == src.guards
  {
    match src
    case AsWritten => Guards(IsActivationRequirementsOK(f), IsWorkingReqOK(f), HasStopConditions(f))
    case Forced(g) => g
  }

  predicate ActivationGuardsPass(g: Guards) {
    g.activationRequirementsOK && !g.hasStopConditions
  }

  predicate WorkingGuardsPass(g: Guards) {
    g.workingReqOK && !g.hasStopConditions
  }

  // -------------------------------------------------------------- handlers

  /** Every handler raises at most one internal event, with a null payload,
      towards Stop or Idle. */
  predicate ChainsToSafeState(e: SteeringEffect) {
    |e.raised| <= 1
    && (|e.raised| == 1 ==>
          e.raised[0].data.None? && (e.raised[0].target == ST_STOP || e.raised[0].target == ST_IDLE))
  }

  /** `ST_idle`: does nothing. */
  function StIdle(f: Fields, current: uint8, data: Payload): (e: SteeringEffect)
    ensures ChainsToSafeState(e) && e.raised == [] && e.ctx == f
  {
    Effect(f, [])
  }

  /** The guard shared by `ST_clearance` and `ST_activation`: stay if the
      activation requirements hold and no stop condition does, otherwise
      chain to Stop. The control-mode branches have no observable effect. */
  function EnterUnderActivationGuard(src: GuardSource, f: Fields): (e: SteeringEffect)
    ensures ChainsToSafeState(e) && e.ctx == f
    ensures |e.raised| == 0 <==> ActivationGuardsPass(GuardsOf(src, f))
    ensures |e.raised| == 1 ==> e.raised[0].target == ST_STOP
  {
    if ActivationGuardsPass(GuardsOf(src, f)) then Effect(f, [])
    else Effect(f, [InternalEvent(ST_STOP, None)])
  }

  /** `ST_clearance`: the shared activation guard. */
  function StClearance(src: GuardSource, f: Fields, current: uint8, data: Payload): (e: SteeringEffect)
    ensures ChainsToSafeState(e) && e.ctx == f
    ensures e.raised == [] <==> ActivationGuardsPass(GuardsOf(src, f))
    ensures e.raised != [] ==> e.raised == [InternalEvent(ST_STOP, None)]
  {
    EnterUnderActivationGuard(src, f)
  }

  /** `ST_activation`: the shared activation guard. */
  function StActivation(src: GuardSource, f: Fields, current: uint8, data: Payload): (e: SteeringEffect)
    ensures ChainsToSafeState(e) && e.ctx == f
    ensures e.raised == [] <==> ActivationGuardsPass(GuardsOf(src, f))
    ensures e.raised != [] ==> e.raised == [InternalEvent(ST_STOP, None)]
  {
    EnterUnderActivationGuard(src, f)
  }

  /** The fields `ST_working` continues with: debug mode injects gateway state 2. */
  function WorkingFields(f: Fields): (f1: Fields)
    ensures f1.isDebugMode ==> f1.gatewaySIState == 2
    ensures f1.(gatewaySIState := f.gatewaySIState) == f
  {
    if f.isDebugMode then f.(gatewaySIState := 2) else f
  }

  /** Whether `ST_working` stays in Working without a chained event: the
      guards fail (no redirect, unlike Clearance and Activation), or they pass
      and the gateway reports state 2 or 3. */
  predicate WorkingStays(src: GuardSource, f: Fields) {
    var f1 := WorkingFields(f);
    !WorkingGuardsPass(GuardsOf(src, f1)) || f1.gatewaySIState == 2 || f1.gatewaySIState == 3
  }

  /** `ST_working`. */
  function StWorking(src: GuardSource, f: Fields, current: uint8, data: Payload): (e: SteeringEffect)
    ensures ChainsToSafeState(e) && e.ctx == WorkingFields(f)
    ensures |e.raised| == 0 <==> WorkingStays(src, f)
    ensures |e.raised| == 1 ==> e.raised[0].target == ST_STOP
  {
    var f1 := WorkingFields(f);
    if WorkingGuardsPass(GuardsOf(src, f1)) then
      if f1.gatewaySIState == 2 then Effect(f1, [])
      else if f1.gatewaySIState == 3 then Effect(f1, [])
      else Effect(f1, [InternalEvent(ST_STOP, None)])
    else
      Effect(f1, [])
  }

  /** `ST_stop`: until the stop message is marked sent, re-enter Stop;
      once it is, clear the mark and go to Idle. */
  function StStop(f: Fields, current: uint8, data: Payload): (e: SteeringEffect)
    ensures ChainsToSafeState(e) && |e.raised| == 1
    ensures !f.msgSent ==> e.ctx == f && e.raised[0].target == ST_STOP
    ensures f.msgSent ==> e.ctx == f.(msgSent := false) && e.raised[0].target == ST_IDLE
  {
    if f.msgSent == false then Effect(f, [InternalEvent(ST_STOP, None)])
    else Effect(f.(msgSent := false), [InternalEvent(ST_IDLE, None)])
  }

  /** `getStateMap`: row i is the handler of state i; only Working declares
      the derived payload type. */
  function GetStateMap(src: GuardSource): (rows: StateMap<Fields, SteeringInterfaceData>)
    ensures |rows| == ST_MAX_STATES
    ensures forall i | 0 <= i < |rows| :: rows[i].takes == (if i == ST_WORKING as int then DerivedData else NoEventData)
  {
    [ StateAction(NoEventData, (f, s, d) => StIdle(f, s, d)),
      StateAction(NoEventData, (f, s, d) => StClearance(src, f, s, d)),
      StateAction(NoEventData, (f, s, d) => StActivation(src, f, s, d)),
      StateAction(DerivedData, (f, s, d) => StWorking(src, f, s, d)),
      StateAction(NoEventData, (f, s, d) => StStop(f, s, d)) ]
  }

  /** The row for state i runs that state's entry handler, and no row chains
      anywhere but Stop or Idle. */
  lemma RowRunsHandler(src: GuardSource, i: uint8, f: Fields, d: Payload)
    requires i < ST_MAX_STATES
    ensures var e := GetStateMap(src)[i].handler(f, i, d);
      && ChainsToSafeState(e)
      && (i == ST_IDLE ==> e == StIdle(f, i, d))
      && (i == ST_CLEARANCE ==> e == StClearance(src, f, i, d))
      && (i == ST_ACTIVATION ==> e == StActivation(src, f, i, d))
      && (i == ST_WORKING ==> e == StWorking(src, f, i, d))
      && (i == ST_STOP ==> e == StStop(f, i, d))
  {
    var rows := GetStateMap(src);
    if i == ST_IDLE {
      assert rows[i].handler(f, i, d) == StIdle(f, i, d);
    } else if i == ST_CLEARANCE {
      assert rows[i].handler(f, i, d) == StClearance(src, f, i, d);
    } else if i == ST_ACTIVATION {
      assert rows[i].handler(f, i, d) == StActivation(src, f, i, d);
    } else if i == ST_WORKING {
      assert rows[i].handler(f, i, d) == StWorking(src, f, i, d);
    } else {
      assert rows[i].handler(f, i, d) == StStop(f, i, d);
    }
  }

  // ------------------------------------------------------ transition tables

  const SET_VALUE_TRANSITIONS: seq<uint8> := [EVENT_IGNORED, EVENT_IGNORED, ST_WORKING, ST_WORKING, EVENT_IGNORED]
  const STOP_TRANSITIONS: seq<uint8> := [EVENT_IGNORED, ST_STOP, ST_STOP, ST_STOP, EVENT_IGNORED]
  const SEND_CLEARANCE_TRANSITIONS: seq<uint8> := [ST_CLEARANCE, EVENT_IGNORED, EVENT_IGNORED, EVENT_IGNORED, EVENT_IGNORED]
  const ACTIVATE_TRANSITIONS: seq<uint8> := [EVENT_IGNORED, ST_ACTIVATION, EVENT_IGNORED, EVENT_IGNORED, EVENT_IGNORED]

  /** `setValue` leads to Working from Activation and Working only. */
  function SetValueTarget(current: uint8): (t: uint8)
    requires current < ST_MAX_STATES
    ensures t != EVENT_IGNORED <==> current == ST_ACTIVATION || current == ST_WORKING
    ensures t != EVENT_IGNORED ==> t == ST_WORKING
  {
    SET_VALUE_TRANSITIONS[current]
  }

  /** `stop` leads to Stop from Clearance, Activation and Working; it is
      ignored in Idle and in Stop. */
  function StopTarget(current: uint8): (t: uint8)
    requires current < ST_MAX_STATES
    ensures t != EVENT_IGNORED <==> current == ST_CLEARANCE || current == ST_ACTIVATION || current == ST_WORKING
    ensures t != EVENT_IGNORED ==> t == ST_STOP
  {
    STOP_TRANSITIONS[current]
  }

  /** `sendClearance` leads from Idle to Clearance and is otherwise ignored. */
  function SendClearanceTarget(current: uint8): (t: uint8)
    requires current < ST_MAX_STATES
    ensures t != EVENT_IGNORED <==> current == ST_IDLE
    ensures t != EVENT_IGNORED ==> t == ST_CLEARANCE
  {
    SEND_CLEARANCE_TRANSITIONS[current]
  }

  /** `activate` leads from Clearance to Activation and is otherwise ignored. */
  function ActivateTarget(current: uint8): (t: uint8)
    requires current < ST_MAX_STATES
    ensures t != EVENT_IGNORED <==> current == ST_CLEARANCE
    ensures t != EVENT_IGNORED ==> t == ST_ACTIVATION
  {
    ACTIVATE_TRANSITIONS[current]
  }

  // ------------------------------------------------------- external events

  /** A `SteeringInterfaceDataPtr` argument: null, or a derived payload object. */
  function PayloadOf(data: Option<SteeringInterfaceData>): (p: Option<Payload>)
    ensures p.Some? <==> data.Some?
    ensures p.Some? ==> p.value == Derived(data.value)
  {
    match data
    case None => None
    case Some(d) => Some(Derived(d))
  }

  /** A run that returned normally. */
  predicate Returned(r: Option<Result<SteeringInterface, Fatal>>) {
    r.Some? && r.value.Success?
  }

  /** No transition pending after a normal return, and the invariant kept. */
  predicate Settled(si: SteeringInterface) {
    Inv(si) && !si.engine.generated && si.engine.current == si.engine.newState
  }

  /** The machine at rest in `state` with the given fields. */
  function AtRest(state: uint8, f: Fields): SteeringInterface {
    Machine(Engine(ST_MAX_STATES, state, state, false, None), f)
  }

  /** `setValue(data)`. */
  function SetValue(src: GuardSource, si: SteeringInterface, data: Option<SteeringInterfaceData>, fuel: nat): (r: Option<Result<SteeringInterface, Fatal>>)
    requires Inv(si)
    ensures SetValueTarget(si.engine.current) == EVENT_IGNORED ==> r == Some(Success(si))
    ensures SetValueTarget(si.engine.current) != EVENT_IGNORED && Returned(r) ==> Settled(r.value.value)
  {
    InvokeExternalEvent(si, GetStateMap(src), SetValueTarget(si.engine.current), PayloadOf(data), fuel)
  }

  /** `stop()`. */
  function Stop(src: GuardSource, si: SteeringInterface, fuel: nat): (r: Option<Result<SteeringInterface, Fatal>>)
    requires Inv(si)
    ensures StopTarget(si.engine.current) == EVENT_IGNORED ==> r == Some(Success(si))
    ensures StopTarget(si.engine.current) != EVENT_IGNORED && Returned(r) ==> Settled(r.value.value)
  {
    InvokeExternalEvent(si, GetStateMap(src), StopTarget(si.engine.current), None, fuel)
  }

  /** `sendClearance()`. */
  function SendClearance(src: GuardSource, si: SteeringInterface, fuel: nat): (r: Option<Result<SteeringInterface, Fatal>>)
    requires Inv(si)
    ensures SendClearanceTarget(si.engine.current) == EVENT_IGNORED ==> r == Some(Success(si))
    ensures SendClearanceTarget(si.engine.current) != EVENT_IGNORED && Returned(r) ==> Settled(r.value.value)
  {
    InvokeExternalEvent(si, GetStateMap(src), SendClearanceTarget(si.engine.current), None, fuel)
  }

  /** `activate()`. */
  function Activate(src: GuardSource, si: SteeringInterface, fuel: nat): (r: Option<Result<SteeringInterface, Fatal>>)
    requires Inv(si)
    ensures ActivateTarget(si.engine.current) == EVENT_IGNORED ==> r == Some(Success(si))
    ensures ActivateTarget(si.engine.current) != EVENT_IGNORED && Returned(r) ==> Settled(r.value.value)
  {
    InvokeExternalEvent(si, GetStateMap(src), ActivateTarget(si.engine.current), None, fuel)
  }

  /** The machine right after `invokeInternalEvent(target, data)`. */
  function Armed(si: SteeringInterface, target: uint8, data: Option<Payload>): (m: SteeringInterface)
    ensures m.engine.generated && m.engine.newState == target && m.engine.eventData.Some?
    ensures Inv(si) ==> Inv(m)
  {
    Machine(InvokeInternalEvent(si.engine, target, data), si.ctx)
  }

  // ------------------------------------------------------------- the Stop loop

  /** A pending entry into Stop whose payload is present. */
  predicate StopPending(si: SteeringInterface) {
    Inv(si) && si.engine.generated && si.engine.newState == ST_STOP && si.engine.eventData.Some?
  }

  /** Entering Stop while the message is not marked sent leaves the machine in
      Stop, with the flag still false and Stop pending again. */
  lemma StopEntryRetries(src: GuardSource, si: SteeringInterface)
    requires StopPending(si) && !si.ctx.msgSent
    ensures var r := Step(si, GetStateMap(src));
      && r.Success?
      && r.value.ctx == si.ctx
      && r.value.engine == Engine(ST_MAX_STATES, ST_STOP, ST_STOP, true, Some(BaseEventData))
      && StopPending(r.value) && !r.value.ctx.msgSent
  {
    RowRunsHandler(src, ST_STOP, si.ctx, si.engine.eventData.value);
    StepOrdering(si, GetStateMap(src));
  }

  /** Hence the drain loop never ends: no fuel is enough. */
  lemma {:induction false} StopWithoutMessageNeverReturns(src: GuardSource, si: SteeringInterface, fuel: nat)
    requires StopPending(si) && !si.ctx.msgSent
    ensures Drain(si, GetStateMap(src), fuel) == None
    decreases fuel
  {
    if fuel > 0 {
      StopEntryRetries(src, si);
      var next := Step(si, GetStateMap(src)).value;
      StopWithoutMessageNeverReturns(src, next, fuel - 1);
    }
  }

  /** Entering Stop with the message marked sent clears the mark and returns
      in Idle after two iterations. */
  lemma StopWithMessageReachesIdle(src: GuardSource, si: SteeringInterface, fuel: nat)
    requires StopPending(si) && si.ctx.msgSent
    ensures fuel >= 2 ==> Drain(si, GetStateMap(src), fuel) == Some(Success(AtRest(ST_IDLE, si.ctx.(msgSent := false))))
    ensures fuel < 2 ==> Drain(si, GetStateMap(src), fuel) == None
  {
    var rows := GetStateMap(src);
    RowRunsHandler(src, ST_STOP, si.ctx, si.engine.eventData.value);
    StepOrdering(si, rows);
    var next := Step(si, rows).value;
    assert next.engine == Engine(ST_MAX_STATES, ST_STOP, ST_IDLE, true, Some(BaseEventData));
    RowRunsHandler(src, ST_IDLE, next.ctx, BaseEventData);
    StepOrdering(next, rows);
    var last := Step(next, rows).value;
    assert last == AtRest(ST_IDLE, si.ctx.(msgSent := false));
  }

  /** Entering Stop: never returns while the message is not marked sent,
      otherwise ends in Idle with the mark cleared and nothing else changed. */
  lemma EnterStop(src: GuardSource, si: SteeringInterface, fuel: nat)
    requires StopPending(si)
    ensures !si.ctx.msgSent ==> Drain(si, GetStateMap(src), fuel) == None
    ensures si.ctx.msgSent && fuel >= 2 ==>
      Drain(si, GetStateMap(src), fuel) == Some(Success(AtRest(ST_IDLE, si.ctx.(msgSent := false))))
  {
    if si.ctx.msgSent {
      StopWithMessageReachesIdle(src, si, fuel);
    } else {
      StopWithoutMessageNeverReturns(src, si, fuel);
    }
  }

  /** `stop()` from Clearance, Activation or Working: with the message not
      marked sent the call never returns; with it marked sent the call returns
      in Idle with the mark cleared. */
  lemma StopFromEngagedState(src: GuardSource, si: SteeringInterface, fuel: nat)
    requires Inv(si)
    requires si.engine.current == ST_CLEARANCE || si.engine.current == ST_ACTIVATION || si.engine.current == ST_WORKING
    ensures !si.ctx.msgSent ==> Stop(src, si, fuel) == None
    ensures si.ctx.msgSent && fuel >= 2 ==> Stop(src, si, fuel) == Some(Success(AtRest(ST_IDLE, si.ctx.(msgSent := false))))
  {
    EnterStop(src, Armed(si, ST_STOP, None), fuel);
  }

  // ------------------------------------------- Clearance and Activation entry

  /** Entering Clearance or Activation: if the activation guards pass the
      machine stays there and returns; otherwise it is redirected to Stop
      within the same call, with the outcome of entering Stop. */
  lemma EnterGuardedState(src: GuardSource, si: SteeringInterface, fuel: nat)
    requires Inv(si) && si.engine.generated && si.engine.eventData.Some?
    requires si.engine.newState == ST_CLEARANCE || si.engine.newState == ST_ACTIVATION
    ensures ActivationGuardsPass(GuardsOf(src, si.ctx)) && fuel >= 1 ==>
      Drain(si, GetStateMap(src), fuel) == Some(Success(AtRest(si.engine.newState, si.ctx)))
    ensures !ActivationGuardsPass(GuardsOf(src, si.ctx)) && !si.ctx.msgSent ==>
      Drain(si, GetStateMap(src), fuel) == None
    ensures !ActivationGuardsPass(GuardsOf(src, si.ctx)) && si.ctx.msgSent && fuel >= 3 ==>
      Drain(si, GetStateMap(src), fuel) == Some(Success(AtRest(ST_IDLE, si.ctx.(msgSent := false))))
  {
    var rows := GetStateMap(src);
    RowRunsHandler(src, si.engine.newState, si.ctx, si.engine.eventData.value);
    StepOrdering(si, rows);
    if fuel > 0 && !ActivationGuardsPass(GuardsOf(src, si.ctx)) {
      var next := Step(si, rows).value;
      EnterStop(src, next, fuel - 1);
    }
  }

  /** `sendClearance()` from Idle reaches Clearance when the activation guards
      pass, and is redirected to Stop in the same call when they fail. */
  lemma SendClearanceFromIdle(src: GuardSource, si: SteeringInterface, fuel: nat)
    requires Inv(si) && si.engine.current == ST_IDLE
    ensures ActivationGuardsPass(GuardsOf(src, si.ctx)) && fuel >= 1 ==>
      SendClearance(src, si, fuel) == Some(Success(AtRest(ST_CLEARANCE, si.ctx)))
    ensures !ActivationGuardsPass(GuardsOf(src, si.ctx)) && !si.ctx.msgSent ==>
      SendClearance(src, si, fuel) == None
    ensures !ActivationGuardsPass(GuardsOf(src, si.ctx)) && si.ctx.msgSent && fuel >= 3 ==>
      SendClearance(src, si, fuel) == Some(Success(AtRest(ST_IDLE, si.ctx.(msgSent := false))))
  {
    EnterGuardedState(src, Armed(si, ST_CLEARANCE, None), fuel);
  }

  /** `activate()` from Clearance reaches Activation when the activation
      guards pass, and is redirected to Stop in the same call when they fail. */
  lemma ActivateFromClearance(src: GuardSource, si: SteeringInterface, fuel: nat)
    requires Inv(si) && si.engine.current == ST_CLEARANCE
    ensures ActivationGuardsPass(GuardsOf(src, si.ctx)) && fuel >= 1 ==>
      Activate(src, si, fuel) == Some(Success(AtRest(ST_ACTIVATION, si.ctx)))
    ensures !ActivationGuardsPass(GuardsOf(src, si.ctx)) && !si.ctx.msgSent ==>
      Activate(src, si, fuel) == None
    ensures !ActivationGuardsPass(GuardsOf(src, si.ctx)) && si.ctx.msgSent && fuel >= 3 ==>
      Activate(src, si, fuel) == Some(Success(AtRest(ST_IDLE, si.ctx.(msgSent := false))))
  {
    EnterGuardedState(src, Armed(si, ST_ACTIVATION, None), fuel);
  }

  // ------------------------------------------------------------ Working entry

  /** Entering Working: a payload that is not a `SteeringInterfaceData` stops
      the machine; otherwise it stays in Working (with debug mode's gateway
      state injected) unless the guards pass while the gateway state is
      neither 2 nor 3, in which case it is redirected to Stop. */
  lemma EnterWorking(src: GuardSource, si: SteeringInterface, fuel: nat)
    requires Inv(si) && si.engine.generated && si.engine.eventData.Some?
    requires si.engine.newState == ST_WORKING
    ensures !si.engine.eventData.value.Derived? && fuel >= 1 ==>
      Drain(si, GetStateMap(src), fuel) == Some(Failure(PayloadMismatch(ST_WORKING)))
    ensures si.engine.eventData.value.Derived? && WorkingStays(src, si.ctx) && fuel >= 1 ==>
      Drain(si, GetStateMap(src), fuel) == Some(Success(AtRest(ST_WORKING, WorkingFields(si.ctx))))
    ensures si.engine.eventData.value.Derived? && !WorkingStays(src, si.ctx) && !si.ctx.msgSent ==>
      Drain(si, GetStateMap(src), fuel) == None
    ensures si.engine.eventData.value.Derived? && !WorkingStays(src, si.ctx) && si.ctx.msgSent && fuel >= 3 ==>
      Drain(si, GetStateMap(src), fuel) == Some(Success(AtRest(ST_IDLE, WorkingFields(si.ctx).(msgSent := false))))
  {
    var rows := GetStateMap(src);
    RowRunsHandler(src, ST_WORKING, si.ctx, si.engine.eventData.value);
    StepOrdering(si, rows);
    if fuel > 0 && si.engine.eventData.value.Derived? && !WorkingStays(src, si.ctx) {
      var next := Step(si, rows).value;
      EnterStop(src, next, fuel - 1);
    }
  }

  /** `setValue(nullptr)` in Activation or Working: the null payload becomes a
      base `EventData`, which the Working handler rejects. */
  lemma SetValueWithoutDataIsFatal(src: GuardSource, si: SteeringInterface, fuel: nat)
    requires Inv(si) && (si.engine.current == ST_ACTIVATION || si.engine.current == ST_WORKING)
    requires fuel >= 1
    ensures SetValue(src, si, None, fuel) == Some(Failure(PayloadMismatch(ST_WORKING)))
  {
    EnterWorking(src, Armed(si, ST_WORKING, None), fuel);
  }

  /** `setValue(data)` in Activation or Working, with the code's constant
      guards: it stays in Working when the gateway state (after the debug
      injection) is 2 or 3, and is redirected to Stop otherwise. */
  lemma SetValueFromEngagedState(si: SteeringInterface, d: SteeringInterfaceData, fuel: nat)
    requires Inv(si) && (si.engine.current == ST_ACTIVATION || si.engine.current == ST_WORKING)
    ensures var f1 := WorkingFields(si.ctx);
      (f1.gatewaySIState == 2 || f1.gatewaySIState == 3) && fuel >= 1 ==>
        SetValue(AsWritten, si, Some(d), fuel) == Some(Success(AtRest(ST_WORKING, f1)))
    ensures si.ctx.isDebugMode && fuel >= 1 ==>
      SetValue(AsWritten, si, Some(d), fuel) == Some(Success(AtRest(ST_WORKING, si.ctx.(gatewaySIState := 2))))
    ensures !si.ctx.isDebugMode && si.ctx.gatewaySIState != 2 && si.ctx.gatewaySIState != 3 && !si.ctx.msgSent ==>
      SetValue(AsWritten, si, Some(d), fuel) == None
  {
    EnterWorking(AsWritten, Armed(si, ST_WORKING, Some(Derived(d))), fuel);
  }

  /** Working's guard failure keeps the machine in Working with no redirect. */
  lemma WorkingGuardFailureStaysWorking(g: Guards, si: SteeringInterface, d: SteeringInterfaceData, fuel: nat)
    requires Inv(si) && (si.engine.current == ST_ACTIVATION || si.engine.current == ST_WORKING)
    requires !WorkingGuardsPass(g) && fuel >= 1
    ensures SetValue(Forced(g), si, Some(d), fuel) == Some(Success(AtRest(ST_WORKING, WorkingFields(si.ctx))))
  {
    EnterWorking(Forced(g), Armed(si, ST_WORKING, Some(Derived(d))), fuel);
  }

  // ----------------------------------------------------- payload well-typing

  /** Whatever is pending has a payload, names a real state, and is a
      `SteeringInterfaceData` when it targets Working. */
  predicate SlotWellTyped(si: SteeringInterface) {
    Inv(si)
    && (si.engine.generated ==>
          && si.engine.eventData.Some?
          && si.engine.newState < ST_MAX_STATES
          && (si.engine.newState == ST_WORKING ==> si.engine.eventData.value.Derived?))
  }

  /** A well-typed slot stays well-typed and never aborts the drain: every
      handler chains only to Stop or Idle, which accept any payload. */
  lemma {:induction false} WellTypedDrainNeverAborts(src: GuardSource, si: SteeringInterface, fuel: nat)
    requires SlotWellTyped(si)
    ensures var r := Drain(si, GetStateMap(src), fuel);
      r.Some? ==> r.value.Success?
    decreases fuel
  {
    if si.engine.generated && fuel > 0 {
      var rows := GetStateMap(src);
      var t := si.engine.newState;
      RowRunsHandler(src, t, si.ctx, si.engine.eventData.value);
      StepOrdering(si, rows);
      var next := Step(si, rows).value;
      WellTypedDrainNeverAborts(src, next, fuel - 1);
    }
  }

  /** `stop()`, `sendClearance()` and `activate()` never abort, and neither does
      `setValue` with a payload: only `setValue(nullptr)` can. */
  lemma OnlyNullSetValueAborts(src: GuardSource, si: SteeringInterface, d: SteeringInterfaceData, fuel: nat)
    requires Inv(si)
    ensures var r := Stop(src, si, fuel); r.Some? ==> r.value.Success?
    ensures var r := SendClearance(src, si, fuel); r.Some? ==> r.value.Success?
    ensures var r := Activate(src, si, fuel); r.Some? ==> r.value.Success?
    ensures var r := SetValue(src, si, Some(d), fuel); r.Some? ==> r.value.Success?
  {
    var c := si.engine.current;
    if StopTarget(c) != EVENT_IGNORED {
      WellTypedDrainNeverAborts(src, Armed(si, StopTarget(c), None), fuel);
    }
    if SendClearanceTarget(c) != EVENT_IGNORED {
      WellTypedDrainNeverAborts(src, Armed(si, SendClearanceTarget(c), None), fuel);
    }
    if ActivateTarget(c) != EVENT_IGNORED {
      WellTypedDrainNeverAborts(src, Armed(si, ActivateTarget(c), None), fuel);
    }
    if SetValueTarget(c) != EVENT_IGNORED {
      WellTypedDrainNeverAborts(src, Armed(si, SetValueTarget(c), Some(Derived(d))), fuel);
    }
  }
}
