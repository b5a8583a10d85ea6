/** The table-driven state machine engine (src/state_machine.h, src/state_machine.cpp).

  The engine owns a current state and ONE pending-transition slot (target,
  "generated" flag, payload). An external event fills the slot and drains it;
  each drain iteration consumes the slot, switches the current state and only
  then runs the entry handler of the new state, which may refill the slot
  (an internal event) and so re-arm the loop.

  The engine is modelled functionally: a `Machine` pairs the engine record
  with the concrete machine's own fields (`ctx`), a handler maps the fields,
  the new current state and the narrowed payload to an `Effect` (new fields
  plus the internal events it raised, in call order), and the drain loop is
  a fuel-bounded function because nothing in the engine guarantees that it
  stops.
 */
module Fsm {
  import opened Wrappers

  /** `uint8_t`: the width of state identifiers and of transition-table entries. */
  type uint8 = x: int | 0 <= x < 0x100

  /** Reserved target meaning "this event has no effect in the current state". */
  const EVENT_IGNORED: uint8 := 0xFE
  /** The next enumerator after EVENT_IGNORED; also never a real state. */
  const CANNOT_HAPPEN: uint8 := 0xFF

  /** A payload object: an instance of the base class `EventData` (what a
      null payload is replaced by) or of the machine's derived payload class. */
  datatype EventData<D> = BaseEventData | Derived(value: D)

  /** The `Data` parameter of a `StateAction`: `NoEventData`, which is a
      typedef of the base class and so accepts every payload object, or the
      machine's derived payload class. */
  datatype DataType = NoEventData | DerivedData

  /** The failed assertions of the engine and of a concrete machine. */
  datatype Fatal =
    | MaxStatesTooLarge(maxStates: uint8)
    | StateMapSizeMismatch(rows: nat)
    | StateOutOfRange(state: uint8)
    | PayloadMismatch(state: uint8)

  /** One call of `invokeInternalEvent` made by a handler; `None` is a null payload. */
  datatype InternalEvent<D> = InternalEvent(target: uint8, data: Option<EventData<D>>)

  /** What a state handler did: the machine's fields afterwards and the
      internal events it raised, in the order it raised them. */
  datatype Effect<C, D> = Effect(ctx: C, raised: seq<InternalEvent<D>>)

  /** A state-map row: the payload type the handler declares and the handler,
      which sees the machine's fields, the (already switched) current state
      and the narrowed payload. */
  datatype StateAction<!C, !D> = StateAction(takes: DataType, handler: (C, uint8, EventData<D>) -> Effect<C, D>)

  type StateMap<!C, !D> = seq<StateAction<C, D>>

  /** The engine's fields: MAX_STATES, the current state and the single
      pending-transition slot (`newState`, `generated`, `eventData`). */
  datatype Engine<D> = Engine(
    maxStates: uint8,
    current: uint8,
    newState: uint8,
    generated: bool,
    eventData: Option<EventData<D>>)

  /** An engine together with the concrete machine's own fields. */
  datatype Machine<C, D> = Machine(engine: Engine<D>, ctx: C)

  /** The engine invariant: MAX_STATES is below the sentinels and the current
      state is a real state. */
  predicate Valid<D>(e: Engine<D>) {
    e.maxStates < EVENT_IGNORED && e.current < e.maxStates
  }

  /** Both sentinels lie above every state of every constructible engine. */
  lemma SentinelsAboveStates<D>(e: Engine<D>, s: uint8)
    requires Valid(e) && s < e.maxStates
    ensures s != EVENT_IGNORED && s != CANNOT_HAPPEN
    ensures EVENT_IGNORED == 0xFE && CANNOT_HAPPEN == EVENT_IGNORED + 1
  {
  }

  /** The constructor. It asserts `maxStates < EVENT_IGNORED`; it does not
      check the initial state, so that is the caller's obligation. It leaves
      `m_new_state` at EVENT_IGNORED and, because 0xFE converts to `true`,
      the generated flag raised with a null payload. */
  function Create<D>(maxStates: uint8, initialState: uint8): (r: Result<Engine<D>, Fatal>)
    requires initialState < maxStates
    ensures r.Success? <==> maxStates < EVENT_IGNORED
    ensures r.Failure? ==> r.error == MaxStatesTooLarge(maxStates)
    ensures r.Success? ==> Valid(r.value) && r.value.maxStates == maxStates && r.value.current == initialState
    ensures r.Success? ==> r.value.newState == EVENT_IGNORED && r.value.generated && r.value.eventData.None?
  {
    if maxStates < EVENT_IGNORED then
      Success(Engine(maxStates, initialState, EVENT_IGNORED, EVENT_IGNORED != 0, None))
    else
      Failure(MaxStatesTooLarge(maxStates))
  }

  /** The constructor with its default argument: the initial state is 0. */
  function CreateInStateZero<D>(maxStates: uint8): (r: Result<Engine<D>, Fatal>)
    requires 0 < maxStates
    ensures r.Success? <==> maxStates < EVENT_IGNORED
    ensures r.Success? ==> Valid(r.value) && r.value.current == 0
  {
    Create(maxStates, 0)
  }

  /** `getCurrentState`: reads the current state and returns nothing else. */
  function CurrentState<D>(e: Engine<D>): (s: uint8)
    ensures Valid(e) ==> s < e.maxStates
  {
    e.current
  }

  /** `invokeInternalEvent`: unconditionally overwrites the pending slot; a null
      payload becomes a fresh base `EventData`. */
  function InvokeInternalEvent<D>(e: Engine<D>, newState: uint8, data: Option<EventData<D>>): (r: Engine<D>)
    ensures r.generated && r.newState == newState
    ensures r.eventData == (if data.Some? then data else Some(BaseEventData))
    ensures r.maxStates == e.maxStates && r.current == e.current
  {
    var payload := if data == None then Some(BaseEventData) else data;
    e.(eventData := payload, generated := true, newState := newState)
  }

  /** The slot holds one transition: whatever it held before is lost, so the
      last write wins. */
  lemma LastWriteWins<D>(e: Engine<D>, a: uint8, p: Option<EventData<D>>, b: uint8, q: Option<EventData<D>>)
    ensures InvokeInternalEvent(InvokeInternalEvent(e, a, p), b, q) == InvokeInternalEvent(e, b, q)
  {
  }

  /** Applies the internal events a handler raised, in the order raised. */
  function RaiseAll<D>(e: Engine<D>, events: seq<InternalEvent<D>>): (r: Engine<D>)
    ensures r.maxStates == e.maxStates && r.current == e.current
    ensures |events| > 0 ==> r.generated
    decreases |events|
  {
    if |events| == 0 then e
    else RaiseAll(InvokeInternalEvent(e, events[0].target, events[0].data), events[1..])
  }

  /** A handler that raised several internal events leaves only the last one
      pending; one that raised none leaves the slot as it found it. */
  lemma {:induction false} RaiseAllKeepsLast<D>(e: Engine<D>, events: seq<InternalEvent<D>>)
    ensures |events| == 0 ==> RaiseAll(e, events) == e
    ensures |events| > 0 ==>
      RaiseAll(e, events) == InvokeInternalEvent(e, events[|events| - 1].target, events[|events| - 1].data)
    decreases |events|
  {
    if |events| > 1 {
      var e1 := InvokeInternalEvent(e, events[0].target, events[0].data);
      RaiseAllKeepsLast(e1, events[1..]);
      assert events[1..][|events[1..]| - 1] == events[|events| - 1];
      LastWriteWins(e, events[0].target, events[0].data, events[|events| - 1].target, events[|events| - 1].data);
    }
  }

  /** `dynamic_pointer_cast` to the declared payload type: the same object when
      its class matches, null otherwise (a null payload stays null). */
  function Narrow<D>(takes: DataType, data: Option<EventData<D>>): (r: Option<EventData<D>>)
    ensures r.Some? ==> r == data
    ensures takes == NoEventData ==> (r.Some? <==> data.Some?)
    ensures takes == DerivedData ==> (r.Some? <==> data.Some? && data.value.Derived?)
  {
    match data
    case None => None
    case Some(p) =>
      if takes == NoEventData || p.Derived? then data else None
  }

  /** `StateAction::invokeStateAction`: narrows the payload, stops on a
      mismatch, and otherwise calls the bound handler exactly once with the
      narrowed payload. */
  function InvokeStateAction<C, D>(action: StateAction<C, D>, ctx: C, state: uint8, data: Option<EventData<D>>): (r: Result<Effect<C, D>, Fatal>)
    ensures r.Failure? <==> Narrow(action.takes, data).None?
    ensures r.Failure? ==> r.error == PayloadMismatch(state)
    ensures r.Success? ==> data.Some? && r.value == action.handler(ctx, state, data.value)
  {
    match Narrow(action.takes, data)
    case None => Failure(PayloadMismatch(state))
    case Some(p) => Success(action.handler(ctx, state, p))
  }

  /** One iteration of the drain loop of `StateEngine`: check the target, take
      the payload, lower the flag, switch the current state, and only then
      dispatch to the target's row of the state map. */
  function Step<C, D>(m: Machine<C, D>, rows: StateMap<C, D>): (r: Result<Machine<C, D>, Fatal>)
    requires m.engine.generated
    requires |rows| == m.engine.maxStates
    ensures m.engine.newState >= m.engine.maxStates ==> r == Failure(StateOutOfRange(m.engine.newState))
    ensures r.Success? ==> r.value.engine.current == m.engine.newState < m.engine.maxStates
    ensures r.Success? ==> r.value.engine.maxStates == m.engine.maxStates
    ensures r.Success? && !r.value.engine.generated ==> r.value.engine.newState == r.value.engine.current
  {
    var target := m.engine.newState;
    if target >= m.engine.maxStates then
      Failure(StateOutOfRange(target))
    else
      var taken := m.engine.eventData;
      var consumed := m.engine.(eventData := None, generated := false, current := target);
      match InvokeStateAction(rows[target], m.ctx, target, taken)
      case Failure(err) => Failure(err)
      case Success(effect) => Success(Machine(RaiseAll(consumed, effect.raised), effect.ctx))
  }

  /** The ordering rule of one iteration. The handler of the target row runs
      once, is shown the target as the current state, and its fields become
      the machine's. If it raised no internal event the loop is disarmed, the
      payload released and the target stays recorded; if it raised some, the
      loop is re-armed for the last of them. A payload of the wrong type stops
      the machine. */
  lemma StepOrdering<C, D>(m: Machine<C, D>, rows: StateMap<C, D>)
    requires m.engine.generated && |rows| == m.engine.maxStates
    requires m.engine.newState < m.engine.maxStates
    ensures var t := m.engine.newState;
      Narrow(rows[t].takes, m.engine.eventData).None? <==> Step(m, rows) == Failure(PayloadMismatch(t))
    ensures var t := m.engine.newState;
      Narrow(rows[t].takes, m.engine.eventData).Some? ==>
        var effect := rows[t].handler(m.ctx, t, m.engine.eventData.value);
        var r := Step(m, rows);
        && r.Success?
        && r.value.ctx == effect.ctx
        && r.value.engine.current == t
        && (r.value.engine.generated <==> |effect.raised| > 0)
        && (|effect.raised| == 0 ==> r.value.engine.newState == t && r.value.engine.eventData.None?)
        && (|effect.raised| > 0 ==>
              var last := effect.raised[|effect.raised| - 1];
              r.value.engine.newState == last.target
              && r.value.engine.eventData == (if last.data.Some? then last.data else Some(BaseEventData)))
  {
    var t := m.engine.newState;
    var consumed := m.engine.(eventData := None, generated := false, current := t);
    if Narrow(rows[t].takes, m.engine.eventData).Some? {
      var effect := rows[t].handler(m.ctx, t, m.engine.eventData.value);
      RaiseAllKeepsLast(consumed, effect.raised);
    }
  }

  /** The `while (m_event_generated)` loop of `StateEngine`, given `fuel`
      iterations. `None` means the loop was still running when the fuel ran
      out; `Some(Failure(_))` is a failed assertion. */
  function Drain<C, D>(m: Machine<C, D>, rows: StateMap<C, D>, fuel: nat): (r: Option<Result<Machine<C, D>, Fatal>>)
    requires |rows| == m.engine.maxStates
    ensures !m.engine.generated ==> r == Some(Success(m))
    ensures r.Some? && r.value.Success? ==>
      var out := r.value.value.engine;
      && !out.generated
      && out.maxStates == m.engine.maxStates
      && (m.engine.generated ==> out.current == out.newState < out.maxStates)
    decreases fuel
  {
    if !m.engine.generated then Some(Success(m))
    else if fuel == 0 then None
    else
      match Step(m, rows)
      case Failure(err) => Some(Failure(err))
      case Success(next) => Drain(next, rows, fuel - 1)
  }

  /** Once the loop has stopped with some fuel, more fuel changes nothing. */
  lemma {:induction false} DrainFuelMonotone<C, D>(m: Machine<C, D>, rows: StateMap<C, D>, fuel: nat, more: nat)
    requires |rows| == m.engine.maxStates
    requires fuel <= more
    requires Drain(m, rows, fuel).Some?
    ensures Drain(m, rows, more) == Drain(m, rows, fuel)
    decreases fuel
  {
    if m.engine.generated {
      match Step(m, rows)
      case Failure(_) =>
      case Success(next) =>
        DrainFuelMonotone(next, rows, fuel - 1, more - 1);
    }
  }

  /** `StateEngine()`: fetches the state map through the virtual
      `getStateMap()` and drains. The concrete map asserts that its length is
      its machine's state count; with the engine built over that count, a
      length other than MAX_STATES is that assertion failing. */
  function StateEngine<C, D>(m: Machine<C, D>, rows: StateMap<C, D>, fuel: nat): (r: Option<Result<Machine<C, D>, Fatal>>)
    ensures |rows| != m.engine.maxStates ==> r == Some(Failure(StateMapSizeMismatch(|rows|)))
    ensures r.Some? && r.value.Success? ==> !r.value.value.engine.generated
  {
    if |rows| != m.engine.maxStates then Some(Failure(StateMapSizeMismatch(|rows|)))
    else Drain(m, rows, fuel)
  }

  /** `invokeExternalEvent`: EVENT_IGNORED does nothing at all; any other target
      is recorded as an internal event and drained before returning. When it
      returns, no transition is pending, the engine invariant still holds and
      the current state is the last target dispatched. */
  function InvokeExternalEvent<C, D>(m: Machine<C, D>, rows: StateMap<C, D>, newState: uint8, data: Option<EventData<D>>, fuel: nat): (r: Option<Result<Machine<C, D>, Fatal>>)
    ensures newState == EVENT_IGNORED ==> r == Some(Success(m))
    ensures newState != EVENT_IGNORED && r.Some? && r.value.Success? ==>
      var out := r.value.value;
      && !out.engine.generated
      && out.engine.maxStates == m.engine.maxStates
      && out.engine.current == out.engine.newState < out.engine.maxStates
      && (Valid(m.engine) ==> Valid(out.engine))
  {
    if newState == EVENT_IGNORED then Some(Success(m))
    else StateEngine(Machine(InvokeInternalEvent(m.engine, newState, data), m.ctx), rows, fuel)
  }

  /** A target outside the state map (CANNOT_HAPPEN among them) stops the machine on
      the first iteration, before any handler runs. */
  lemma OutOfRangeTargetIsFatal<C, D>(m: Machine<C, D>, rows: StateMap<C, D>, newState: uint8, data: Option<EventData<D>>, fuel: nat)
    requires |rows| == m.engine.maxStates && Valid(m.engine)
    requires newState != EVENT_IGNORED && newState >= m.engine.maxStates
    requires fuel > 0
    ensures InvokeExternalEvent(m, rows, newState, data, fuel) == Some(Failure(StateOutOfRange(newState)))
  {
    var armed := Machine(InvokeInternalEvent(m.engine, newState, data), m.ctx);
    assert Step(armed, rows) == Failure(StateOutOfRange(newState));
  }

  /** The slot left by the constructor (target EVENT_IGNORED, flag raised) never
      reaches the loop: the external event overwrites all of it first. */
  lemma ConstructorSlotIsOverwritten<D>(maxStates: uint8, initialState: uint8, newState: uint8, data: Option<EventData<D>>)
    requires initialState < maxStates < EVENT_IGNORED
    ensures var e := Create<D>(maxStates, initialState).value;
      InvokeInternalEvent(e, newState, data)
        == Engine(maxStates, initialState, newState, true, if data.Some? then data else Some(BaseEventData))
  {
  }
}
