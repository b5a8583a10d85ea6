/** The command ingress of the demo (src/example.cpp): a discrete activation
  request code selects one external event, and a signed steering angle
  becomes a `SteeringInterfaceData` payload for `setValue`.

  The process-wide instance of the demo is an explicit argument here, and
  `main`'s only effect, switching debug mode on, is `DebugInstance`.
 */
module Example {
  import opened Wrappers
  import opened Fsm
  import opened SteeringInterface

  /** `cb_si_activationrequest`: 0 stops; 1 sends clearance from Idle and
      activates from Clearance; anything else does nothing. */
  function CbActivationRequest(src: GuardSource, si: SteeringInterface, msg: uint8, fuel: nat): (r: Option<Result<SteeringInterface, Fatal>>)
    requires Inv(si)
    ensures msg == 0 ==> r == Stop(src, si, fuel)
    ensures msg == 1 && si.engine.current == ST_IDLE ==> r == SendClearance(src, si, fuel)
    ensures msg == 1 && si.engine.current == ST_CLEARANCE ==> r == Activate(src, si, fuel)
    ensures msg != 0 && (msg != 1 || (si.engine.current != ST_IDLE && si.engine.current != ST_CLEARANCE)) ==>
      r == Some(Success(si))
    ensures Returned(r) ==> Inv(r.value.value)
    ensures r.Some? ==> r.value.Success?
  {
    var d := SteeringInterfaceData(0.0, false);
    OnlyNullSetValueAborts(src, si, d, fuel);
    if msg == 0 then Stop(src, si, fuel)
    else if msg == 1 then
      if si.engine.current == ST_IDLE then SendClearance(src, si, fuel)
      else if si.engine.current == ST_CLEARANCE then Activate(src, si, fuel)
      else Some(Success(si))
    else Some(Success(si))
  }

  /** The payload built from an angle: its magnitude and whether it is
      negative. The angle can be read back from the two. */
  function AngleRequestData(msg: real): (d: SteeringInterfaceData)
    ensures d.request >= 0.0
    ensures d.requestSign <==> msg < 0.0
    ensures (if d.requestSign then -d.request else d.request) == msg
  {
    SteeringInterfaceData(if msg < 0.0 then -msg else msg, msg < 0.0)
  }

  /** `cb_si_steeringanglerequest`: setValue with the angle's
      `SteeringInterfaceData` payload, which can never fail the payload check
      of Working. */
  function CbSteeringAngleRequest(src: GuardSource, si: SteeringInterface, msg: real, fuel: nat): (r: Option<Result<SteeringInterface, Fatal>>)
    requires Inv(si)
    ensures r == SetValue(src, si, Some(AngleRequestData(msg)), fuel)
    ensures r.Some? ==> r.value.Success?
    ensures Returned(r) ==> Inv(r.value.value)
    ensures si.engine.current != ST_ACTIVATION && si.engine.current != ST_WORKING ==> r == Some(Success(si))
  {
    OnlyNullSetValueAborts(src, si, AngleRequestData(msg), fuel);
    SetValue(src, si, Some(AngleRequestData(msg)), fuel)
  }

  /** The activation-request callback in the machine's two ready states, with
      the code's guards: 1 moves Idle to Clearance and Clearance to Activation. */
  lemma ActivationRequestAdvances(si: SteeringInterface, fuel: nat)
    requires Inv(si) && fuel >= 1
    ensures si.engine.current == ST_IDLE ==>
      CbActivationRequest(AsWritten, si, 1, fuel) == Some(Success(AtRest(ST_CLEARANCE, si.ctx)))
    ensures si.engine.current == ST_CLEARANCE ==>
      CbActivationRequest(AsWritten, si, 1, fuel) == Some(Success(AtRest(ST_ACTIVATION, si.ctx)))
  {
    if si.engine.current == ST_IDLE {
      SendClearanceFromIdle(AsWritten, si, fuel);
    } else if si.engine.current == ST_CLEARANCE {
      ActivateFromClearance(AsWritten, si, fuel);
    }
  }

  /** The angle callback in Activation and Working, with the code's guards: in
      debug mode it rests in Working with gateway state 2; out of it, with a
      gateway state other than 2 or 3 and the stop message unsent, it never
      returns. */
  lemma AngleRequestEngages(si: SteeringInterface, msg: real, fuel: nat)
    requires Inv(si) && (si.engine.current == ST_ACTIVATION || si.engine.current == ST_WORKING)
    ensures si.ctx.isDebugMode && fuel >= 1 ==>
      CbSteeringAngleRequest(AsWritten, si, msg, fuel) == Some(Success(AtRest(ST_WORKING, si.ctx.(gatewaySIState := 2))))
    ensures !si.ctx.isDebugMode && si.ctx.gatewaySIState != 2 && si.ctx.gatewaySIState != 3 && !si.ctx.msgSent ==>
      CbSteeringAngleRequest(AsWritten, si, msg, fuel) == None
  {
    SetValueFromEngagedState(si, AngleRequestData(msg), fuel);
  }

  /** The payload of -0.5 is (0.5, negative) and that of 0.5 is (0.5, positive). */
  lemma AnglePayloadExamples()
    ensures AngleRequestData(-0.5) == SteeringInterfaceData(0.5, true)
    ensures AngleRequestData(0.5) == SteeringInterfaceData(0.5, false)
  {
  }

  // ----------------------------------------------------------- demo scripts

  datatype Message = ActivationRequest(code: uint8) | SteeringAngleRequest(angle: real)

  function Deliver(src: GuardSource, si: SteeringInterface, msg: Message, fuel: nat): (r: Option<Result<SteeringInterface, Fatal>>)
    requires Inv(si)
    ensures Returned(r) ==> Inv(r.value.value)
  {
    match msg
    case ActivationRequest(code) => CbActivationRequest(src, si, code, fuel)
    case SteeringAngleRequest(angle) => CbSteeringAngleRequest(src, si, angle, fuel)
  }

  /** Delivers the messages in order, each external call with `fuel` iterations. */
  function RunScript(src: GuardSource, si: SteeringInterface, msgs: seq<Message>, fuel: nat): (r: Option<Result<SteeringInterface, Fatal>>)
    requires Inv(si)
    decreases |msgs|
  {
    if |msgs| == 0 then Some(Success(si))
    else
      match Deliver(src, si, msgs[0], fuel)
      case None => None
      case Some(Failure(err)) => Some(Failure(err))
      case Some(Success(next)) => RunScript(src, next, msgs[1..], fuel)
  }

  /** The demo's instance: constructed, then put in debug mode by `main`. */
  function DebugInstance(): (si: SteeringInterface)
    ensures Inv(si) && si.engine.current == ST_IDLE && si.ctx.isDebugMode
  {
    var si := New();
    si.(ctx := si.ctx.(isDebugMode := true))
  }

  /** In debug mode, 1, 1 and an angle take the machine from Idle through
      Clearance and Activation to Working, and a further angle keeps it there. */
  lemma DebugDemoReachesWorking(fuel: nat)
    requires fuel >= 1
    ensures var f := DebugInstance().ctx;
      RunScript(AsWritten, DebugInstance(),
        [ActivationRequest(1), ActivationRequest(1), SteeringAngleRequest(-0.5)], fuel)
      == Some(Success(AtRest(ST_WORKING, f.(gatewaySIState := 2))))
    ensures var f := DebugInstance().ctx;
      RunScript(AsWritten, DebugInstance(),
        [ActivationRequest(1), ActivationRequest(1), SteeringAngleRequest(-0.5), SteeringAngleRequest(0.5)], fuel)
      == Some(Success(AtRest(ST_WORKING, f.(gatewaySIState := 2))))
  {
    var si0 := DebugInstance();
    var f := si0.ctx;
    var msgs := [ActivationRequest(1), ActivationRequest(1), SteeringAngleRequest(-0.5), SteeringAngleRequest(0.5)];
    ActivationRequestAdvances(si0, fuel);
    var si1 := AtRest(ST_CLEARANCE, f);
    ActivationRequestAdvances(si1, fuel);
    var si2 := AtRest(ST_ACTIVATION, f);
    SetValueFromEngagedState(si2, AngleRequestData(-0.5), fuel);
    var si3 := AtRest(ST_WORKING, f.(gatewaySIState := 2));
    SetValueFromEngagedState(si3, AngleRequestData(0.5), fuel);
    assert si3.ctx.(gatewaySIState := 2) == si3.ctx;
    assert msgs[1..][1..][1..][1..] == [];
    var prefix := msgs[..3];
    assert prefix[1..][1..][1..] == [];
    calc {
      RunScript(AsWritten, si0, prefix, fuel);
      RunScript(AsWritten, si1, prefix[1..], fuel);
      RunScript(AsWritten, si2, prefix[1..][1..], fuel);
      RunScript(AsWritten, si3, prefix[1..][1..][1..], fuel);
      Some(Success(si3));
    }
    calc {
      RunScript(AsWritten, si0, msgs, fuel);
      RunScript(AsWritten, si1, msgs[1..], fuel);
      RunScript(AsWritten, si2, msgs[1..][1..], fuel);
      RunScript(AsWritten, si3, msgs[1..][1..][1..], fuel);
      RunScript(AsWritten, si3, msgs[1..][1..][1..][1..], fuel);
      Some(Success(si3));
    }
  }

  /** Out of debug mode the gateway state stays 0, so the first angle in
      Activation redirects to Stop, where the unsent stop message keeps the
      call from ever returning. */
  lemma NonDebugDemoNeverReturns(fuel: nat)
    ensures RunScript(AsWritten, New(),
        [ActivationRequest(1), ActivationRequest(1), SteeringAngleRequest(-0.5)], fuel) == None
  {
    var si0 := New();
    var f := si0.ctx;
    var msgs := [ActivationRequest(1), ActivationRequest(1), SteeringAngleRequest(-0.5)];
    SetValueFromEngagedState(AtRest(ST_ACTIVATION, f), AngleRequestData(-0.5), fuel);
    if fuel >= 1 {
      ActivationRequestAdvances(si0, fuel);
      ActivationRequestAdvances(AtRest(ST_CLEARANCE, f), fuel);
      calc {
        RunScript(AsWritten, si0, msgs, fuel);
        RunScript(AsWritten, AtRest(ST_CLEARANCE, f), msgs[1..], fuel);
        RunScript(AsWritten, AtRest(ST_ACTIVATION, f), msgs[1..][1..], fuel);
        None;
      }
    } else {
      SendClearanceFromIdle(AsWritten, si0, fuel);
      assert Deliver(AsWritten, si0, msgs[0], fuel) == None by {
        assert Stop(AsWritten, si0, fuel) == Some(Success(si0));
      }
    }
  }

  /** A stop request from Working: it never returns while the stop message is
      unconfirmed, and with the confirmation preset it returns in Idle with
      the confirmation consumed. */
  lemma StopRequestFromWorking(si: SteeringInterface, fuel: nat)
    requires Inv(si) && si.engine.current == ST_WORKING
    ensures !si.ctx.msgSent ==> CbActivationRequest(AsWritten, si, 0, fuel) == None
    ensures si.ctx.msgSent && fuel >= 2 ==>
      CbActivationRequest(AsWritten, si, 0, fuel) == Some(Success(AtRest(ST_IDLE, si.ctx.(msgSent := false))))
  {
    StopFromEngagedState(AsWritten, si, fuel);
  }
}
