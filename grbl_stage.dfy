/** The XY stage of the Grbl adapter. It keeps no position of its own:
    moves are sent to the parent hub as `G00` commands in millimetres, the
    position is read back from the hub's status, and the stage remembers
    which coordinate mode (absolute `G90` or relative `G91`) it last
    selected so that a mode command is sent only when the mode changes.

    The parent hub is seen through `GrblHub`: whether it exists and has a
    port, and its axis parameters (steps per millimetre). The codes the hub
    returns for the requests the stage makes of it are given by `codes`. */
module GrblXYStage {
  import opened Common

  /** The coordinate mode last selected on the controller. */
  datatype MoveMode = Move | MoveRel | Home

  /** A request the stage makes of its hub. `LinearMove` is the rapid move
      `G00X<x>Y<y>` with both values in millimetres. */
  datatype HubRequest =
    | Command(text: string)
    | LinearMove(xMm: real, yMm: real)
    | CommandProperty(value: string)
    | Sync(axis: int, step: real)

  /** The parent hub as the stage sees it. */
  datatype GrblHub = GrblHub(portAvailable: bool, parameters: seq<real>)

  /** The hub's answer to `GetStatus`: its code and machine X and Y in mm. */
  datatype StatusRead = StatusRead(code: int, x: real, y: real)

  /** A move request, in micrometres. */
  datatype Motion = Absolute(xUm: real, yUm: real) | Relative(dxUm: real, dyUm: real)

  const AbsoluteCommand: string := "G90"
  const RelativeCommand: string := "G91"
  const HomeCommand: string := "$H"

  /** There is a hub and its port is set. */
  predicate Usable(parent: Option<GrblHub>) {
    parent.Some? && parent.value.portAvailable
  }

  function ModeOf(m: Motion): MoveMode {
    if m.Absolute? then Move else MoveRel
  }

  /** The command that selects the coordinate mode of a motion. */
  function ModeCommand(m: Motion): HubRequest {
    if m.Absolute? then Command(AbsoluteCommand) else Command(RelativeCommand)
  }

  function MoveRequest(m: Motion): HubRequest {
    match m
    case Absolute(x, y) => LinearMove(x / 1000.0, y / 1000.0)
    case Relative(dx, dy) => LinearMove(dx / 1000.0, dy / 1000.0)
  }

  /** What one move sends when the controller is in mode `last`. */
  function MotionRequests(last: MoveMode, m: Motion): seq<HubRequest> {
    (if last != ModeOf(m) then [ModeCommand(m)] else []) + [MoveRequest(m)]
  }

  predicate IsSwitch(r: HubRequest) {
    r == Command(AbsoluteCommand) || r == Command(RelativeCommand)
  }

  /** Number of mode commands among `rs`. */
  function Switches(rs: seq<HubRequest>): nat
    decreases |rs|
  {
    if rs == [] then 0 else Switches(rs[..|rs| - 1]) + (if IsSwitch(rs[|rs| - 1]) then 1 else 0)
  }

  /** Number of moves among `rs`. */
  function Moves(rs: seq<HubRequest>): nat
    decreases |rs|
  {
    if rs == [] then 0 else Moves(rs[..|rs| - 1]) + (if rs[|rs| - 1].LinearMove? then 1 else 0)
  }

  /** The mode after the moves `ms`, starting in `last`. */
  function ModeAfter(last: MoveMode, ms: seq<Motion>): MoveMode {
    if ms == [] then last else ModeOf(ms[|ms| - 1])
  }

  /** Everything a stage sends for the moves `ms` made one after another,
      starting in mode `last`. */
  function Replay(last: MoveMode, ms: seq<Motion>): seq<HubRequest>
    decreases |ms|
  {
    if ms == [] then []
    else
      var init := ms[..|ms| - 1];
      Replay(last, init) + MotionRequests(ModeAfter(last, init), ms[|ms| - 1])
  }

  /** How many of the moves `ms` need a different mode from the one in force
      before them. */
  function Changes(last: MoveMode, ms: seq<Motion>): nat
    decreases |ms|
  {
    if ms == [] then 0
    else
      var init := ms[..|ms| - 1];
      Changes(last, init) + (if ModeAfter(last, init) != ModeOf(ms[|ms| - 1]) then 1 else 0)
  }

  lemma {:induction false} SwitchesAppend(a: seq<HubRequest>, b: seq<HubRequest>)
    ensures Switches(a + b) == Switches(a) + Switches(b)
    ensures Moves(a + b) == Moves(a) + Moves(b)
    decreases |b|
  {
    if b != [] {
      var b' := b[..|b| - 1];
      assert (a + b)[..|a + b| - 1] == a + b';
      assert (a + b)[|a + b| - 1] == b[|b| - 1];
      SwitchesAppend(a, b');
    } else {
      assert a + b == a;
    }
  }

  /** A mode command is sent exactly once per change of mode, and every move
      is sent exactly once. */
  lemma {:induction false} SwitchesMatchChanges(last: MoveMode, ms: seq<Motion>)
    ensures Switches(Replay(last, ms)) == Changes(last, ms)
    ensures Moves(Replay(last, ms)) == |ms|
    decreases |ms|
  {
    if ms != [] {
      var init := ms[..|ms| - 1];
      var m := ms[|ms| - 1];
      SwitchesMatchChanges(last, init);
      SwitchesAppend(Replay(last, init), MotionRequests(ModeAfter(last, init), m));
      RequestsOfOneMove(ModeAfter(last, init), m);
    }
  }

  /** One move sends one mode command when the mode changes, and one move. */
  lemma RequestsOfOneMove(last: MoveMode, m: Motion)
    ensures Switches(MotionRequests(last, m)) == if last != ModeOf(m) then 1 else 0
    ensures Moves(MotionRequests(last, m)) == 1
  {
    var rs := MotionRequests(last, m);
    var mv := MoveRequest(m);
    assert mv.LinearMove? && !IsSwitch(mv);
    if last != ModeOf(m) {
      var c := ModeCommand(m);
      assert rs == [c, mv] && IsSwitch(c) && !c.LinearMove?;
      assert rs[..1] == [c];
      assert Switches([c]) == 1 && Moves([c]) == 0 by {
        assert [c][..0] == [];
      }
    } else {
      assert rs == [mv];
      assert rs[..0] == [];
    }
  }

  /** A run of moves in one mode sends at most one mode command: exactly one
      when the run is not empty and the controller was in another mode. */
  lemma {:induction false} SameModeRun(last: MoveMode, ms: seq<Motion>, mode: MoveMode)
    requires forall i :: 0 <= i < |ms| ==> ModeOf(ms[i]) == mode
    ensures Switches(Replay(last, ms)) == if ms != [] && last != mode then 1 else 0
    decreases |ms|
  {
    SwitchesMatchChanges(last, ms);
    if ms != [] {
      var init := ms[..|ms| - 1];
      SameModeRun(last, init, mode);
      SwitchesMatchChanges(last, init);
    }
  }

  /** `GetStepSizeXUm` (axis 0) and `GetStepSizeYUm` (axis 1): micrometres
      per step, from the hub's steps per millimetre; without a usable hub
      the error code itself comes back as the value. */
  function StepSizeUm(parent: Option<GrblHub>, axis: nat): (r: real)
    requires axis < 2
    requires Usable(parent) ==> axis < |parent.value.parameters| && parent.value.parameters[axis] != 0.0
    ensures !Usable(parent) ==> r == ERR_NO_PORT_SET as real
    ensures Usable(parent) ==> r * parent.value.parameters[axis] == 1000.0
  {
    if !Usable(parent) then ERR_NO_PORT_SET as real else 1000.0 / parent.value.parameters[axis]
  }

  /** The stage needs the X and Y parameters when it has a usable hub. */
  predicate HasStepParameters(parent: Option<GrblHub>) {
    Usable(parent) ==>
      |parent.value.parameters| >= 2 && parent.value.parameters[0] != 0.0 && parent.value.parameters[1] != 0.0
  }

  class Stage {
    /** Not set by the constructor, so any mode at first. */
    var lastMode: MoveMode
    var home: bool
    var syncStep: real
    var moveTimeoutMs: real
    var initialized: bool
    var hasCommandThread: bool
    /** Every command, move, `Command` property setting and sync step sent
        to the hub, in order; status reads are not recorded. */
    var sent: seq<HubRequest>
    /** The travel limits, which the adapter takes from outside its own
        sources. */
    const xAxisMaxSteps: int
    const yAxisMaxSteps: int
    const stepSizeUm: real

    constructor (xAxisMaxSteps: int, yAxisMaxSteps: int, stepSizeUm: real)
      ensures !initialized && hasCommandThread && sent == []
      ensures this.xAxisMaxSteps == xAxisMaxSteps && this.yAxisMaxSteps == yAxisMaxSteps
      ensures this.stepSizeUm == stepSizeUm
    {
      this.xAxisMaxSteps, this.yAxisMaxSteps, this.stepSizeUm := xAxisMaxSteps, yAxisMaxSteps, stepSizeUm;
      initialized, hasCommandThread, sent := false, true, [];
    }

    /** `Initialize`: needs a usable hub; initialized exactly when the host's
        property refresh `updateCode` succeeds. */
    method Initialize(parent: Option<GrblHub>, updateCode: int) returns (ret: int)
      modifies this`initialized
      ensures !Usable(parent) ==> ret == ERR_NO_PORT_SET && initialized == old(initialized)
      ensures Usable(parent) ==>
        ret == updateCode && initialized == (if updateCode == DEVICE_OK then true else old(initialized))
    {
      if !Usable(parent) {
        return ERR_NO_PORT_SET;
      }
      ret := updateCode;
      if ret != DEVICE_OK {
        return;
      }
      initialized := true;
    }

    /** `Shutdown`: stops and drops the command thread and clears the
        initialized flag; always succeeds, so it can be repeated. */
    method Shutdown() returns (ret: int)
      modifies this`initialized, this`hasCommandThread
      ensures ret == DEVICE_OK && !initialized && !hasCommandThread
    {
      hasCommandThread := false;
      if initialized {
        initialized := false;
      }
      ret := DEVICE_OK;
    }

    method Busy() returns (b: bool)
      ensures !b
    {
      b := false;
    }

    /** `SetPositionUm`: an absolute move; `G90` goes first unless the last
        mode was already absolute. The mode is recorded whatever the `G90`
        returned, and the move's own code is returned. */
    method SetPositionUm(parent: Option<GrblHub>, x: real, y: real, codes: HubRequest -> int) returns (ret: int)
      modifies this`lastMode, this`sent
      ensures !Usable(parent) ==> ret == ERR_NO_PORT_SET && lastMode == old(lastMode) && sent == old(sent)
      ensures Usable(parent) ==>
        && sent == old(sent) + MotionRequests(old(lastMode), Absolute(x, y))
        && lastMode == Move
        && ret == codes(LinearMove(x / 1000.0, y / 1000.0))
    {
      if !Usable(parent) {
        return ERR_NO_PORT_SET;
      }
      var errCode := DEVICE_ERR;
      if lastMode != Move {
        sent := sent + [Command(AbsoluteCommand)];
        errCode := codes(Command(AbsoluteCommand));
        lastMode := Move;
      }
      var move := LinearMove(x / 1000.0, y / 1000.0);
      sent := sent + [move];
      errCode := codes(move);
      ret := errCode;
    }

    /** `SetRelativePositionUm`: the same with `G91` and the relative mode. */
    method SetRelativePositionUm(parent: Option<GrblHub>, dx: real, dy: real, codes: HubRequest -> int) returns (ret: int)
      modifies this`lastMode, this`sent
      ensures !Usable(parent) ==> ret == ERR_NO_PORT_SET && lastMode == old(lastMode) && sent == old(sent)
      ensures Usable(parent) ==>
        && sent == old(sent) + MotionRequests(old(lastMode), Relative(dx, dy))
        && lastMode == MoveRel
        && ret == codes(LinearMove(dx / 1000.0, dy / 1000.0))
    {
      if !Usable(parent) {
        return ERR_NO_PORT_SET;
      }
      var errCode := DEVICE_ERR;
      if lastMode != MoveRel {
        sent := sent + [Command(RelativeCommand)];
        errCode := codes(Command(RelativeCommand));
        lastMode := MoveRel;
      }
      var move := LinearMove(dx / 1000.0, dy / 1000.0);
      sent := sent + [move];
      errCode := codes(move);
      ret := errCode;
    }

    /** `SetPositionSteps`: scales each axis by its step size and makes the
        absolute move; the move's outcome is dropped and the call succeeds. */
    method SetPositionSteps(parent: Option<GrblHub>, x: int, y: int, codes: HubRequest -> int) returns (ret: int)
      requires HasStepParameters(parent)
      modifies this`lastMode, this`sent
      ensures ret == DEVICE_OK
      ensures !Usable(parent) ==> lastMode == old(lastMode) && sent == old(sent)
      ensures Usable(parent) ==>
        var p := parent.value.parameters;
        && sent == old(sent) + MotionRequests(old(lastMode), Absolute(x as real * 1000.0 / p[0], y as real * 1000.0 / p[1]))
        && lastMode == Move
    {
      if Usable(parent) {
        var p := parent.value.parameters;
        ScaleByStep(x as real, p[0]);
        ScaleByStep(y as real, p[1]);
        assert x as real * StepSizeUm(parent, 0) == x as real * 1000.0 / p[0];
        assert y as real * StepSizeUm(parent, 1) == y as real * 1000.0 / p[1];
      }
      var moved := SetPositionUm(parent, x as real * StepSizeUm(parent, 0), y as real * StepSizeUm(parent, 1), codes);
      ret := DEVICE_OK;
    }

    /** `SetRelativePositionSteps`: the same for a relative move. */
    method SetRelativePositionSteps(parent: Option<GrblHub>, dx: int, dy: int, codes: HubRequest -> int) returns (ret: int)
      requires HasStepParameters(parent)
      modifies this`lastMode, this`sent
      ensures ret == DEVICE_OK
      ensures !Usable(parent) ==> lastMode == old(lastMode) && sent == old(sent)
      ensures Usable(parent) ==>
        var p := parent.value.parameters;
        && sent == old(sent) + MotionRequests(old(lastMode), Relative(dx as real * 1000.0 / p[0], dy as real * 1000.0 / p[1]))
        && lastMode == MoveRel
    {
      if Usable(parent) {
        var p := parent.value.parameters;
        ScaleByStep(dx as real, p[0]);
        ScaleByStep(dy as real, p[1]);
        assert dx as real * StepSizeUm(parent, 0) == dx as real * 1000.0 / p[0];
        assert dy as real * StepSizeUm(parent, 1) == dy as real * 1000.0 / p[1];
      }
      var moved := SetRelativePositionUm(parent, dx as real * StepSizeUm(parent, 0), dy as real * StepSizeUm(parent, 1), codes);
      ret := DEVICE_OK;
    }

    /** `GetPositionSteps`: reads the hub's status and converts machine
        millimetres to steps, truncating; both axes use the X parameter.
        `x0` and `y0` are the caller's variables, kept on every error. */
    method GetPositionSteps(parent: Option<GrblHub>, status: StatusRead, x0: int, y0: int) returns (ret: int, x: int, y: int)
      requires Usable(parent) ==> |parent.value.parameters| >= 1 && parent.value.parameters[0] != 0.0
      ensures !Usable(parent) ==> ret == ERR_NO_PORT_SET && x == x0 && y == y0
      ensures Usable(parent) && status.code != DEVICE_OK ==> ret == status.code && x == x0 && y == y0
      ensures Usable(parent) && status.code == DEVICE_OK ==>
        ret == DEVICE_OK && x == ReportedSteps(parent, status.x) && y == ReportedSteps(parent, status.y)
    {
      x, y := x0, y0;
      if !Usable(parent) {
        return ERR_NO_PORT_SET, x, y;
      }
      ret := status.code;
      if ret != DEVICE_OK {
        return;
      }
      var step := StepSizeUm(parent, 0);
      PerStep(status.x, step, parent.value.parameters[0]);
      PerStep(status.y, step, parent.value.parameters[0]);
      x := Trunc(status.x * 1000.0 / step);
      y := Trunc(status.y * 1000.0 / step);
      ret := DEVICE_OK;
    }

    /** `Home`: sets the hub's `Command` property to `$H`; the stage is
        homed when that succeeds. */
    method Home(parent: Option<GrblHub>, code: int) returns (ret: int)
      modifies this`home, this`sent
      ensures !Usable(parent) ==> ret == ERR_NO_PORT_SET && home == old(home) && sent == old(sent)
      ensures Usable(parent) ==>
        sent == old(sent) + [CommandProperty(HomeCommand)] && ret == code && home == (if code == DEVICE_OK then true else old(home))
    {
      if !Usable(parent) {
        return ERR_NO_PORT_SET;
      }
      sent := sent + [CommandProperty(HomeCommand)];
      ret := code;
      if ret != DEVICE_OK {
        return;
      }
      home := true;
      ret := DEVICE_OK;
    }

    /** `GetLimitsUm`: the travel from zero to the step limits, scaled by
        the step size. */
    method GetLimitsUm() returns (ret: int, xMin: real, xMax: real, yMin: real, yMax: real)
      ensures ret == DEVICE_OK && xMin == 0.0 && yMin == 0.0
      ensures xMax == xAxisMaxSteps as real * stepSizeUm && yMax == yAxisMaxSteps as real * stepSizeUm
    {
      xMin, yMin := 0.0, 0.0;
      xMax := xAxisMaxSteps as real * stepSizeUm;
      yMax := yAxisMaxSteps as real * stepSizeUm;
      ret := DEVICE_OK;
    }

    /** `GetStepLimits`: from zero to the axis step limits. */
    method GetStepLimits() returns (ret: int, xMin: int, xMax: int, yMin: int, yMax: int)
      ensures ret == DEVICE_OK && xMin == 0 && yMin == 0
      ensures xMax == xAxisMaxSteps && yMax == yAxisMaxSteps
    {
      xMin, yMin := 0, 0;
      xMax, yMax := xAxisMaxSteps, yAxisMaxSteps;
      ret := DEVICE_OK;
    }

    /** `OnSyncStep`: shows the sync step; setting it needs a usable hub,
        records the value and passes it on for axis 0, returning the hub's
        code. */
    method OnSyncStep(act: ActionType, parent: Option<GrblHub>, value: real, syncCode: int) returns (ret: int, shown: real)
      modifies this`syncStep, this`sent
      ensures act == BeforeGet ==> ret == DEVICE_OK && shown == syncStep && unchanged(this)
      ensures act == OtherAction ==> ret == DEVICE_OK && shown == value && unchanged(this)
      ensures act == AfterSet && !Usable(parent) ==> ret == ERR_NO_PORT_SET && unchanged(this)
      ensures act == AfterSet && Usable(parent) ==>
        syncStep == value && sent == old(sent) + [Sync(0, value)] && ret == syncCode
    {
      shown := value;
      if act == BeforeGet {
        shown := syncStep;
      } else if act == AfterSet {
        if !Usable(parent) {
          return ERR_NO_PORT_SET, shown;
        }
        syncStep := value;
        sent := sent + [Sync(0, syncStep)];
        ret := syncCode;
        if ret != DEVICE_OK {
          return;
        }
      }
      ret := DEVICE_OK;
    }

    /** `OnMoveTimeout`: shows or sets the move timeout. */
    method OnMoveTimeout(act: ActionType, value: real) returns (ret: int, shown: real)
      modifies this`moveTimeoutMs
      ensures ret == DEVICE_OK
      ensures act == BeforeGet ==> shown == moveTimeoutMs && moveTimeoutMs == old(moveTimeoutMs)
      ensures act == AfterSet ==> shown == value && moveTimeoutMs == value
      ensures act == OtherAction ==> shown == value && moveTimeoutMs == old(moveTimeoutMs)
    {
      shown := value;
      if act == BeforeGet {
        shown := moveTimeoutMs;
      } else if act == AfterSet {
        moveTimeoutMs := value;
      }
      ret := DEVICE_OK;
    }

    /** `OnAcceleration`: the acceleration property reads and writes the
        move timeout as well. */
    method OnAcceleration(act: ActionType, value: real) returns (ret: int, shown: real)
      modifies this`moveTimeoutMs
      ensures ret == DEVICE_OK
      ensures act == BeforeGet ==> shown == moveTimeoutMs && moveTimeoutMs == old(moveTimeoutMs)
      ensures act == AfterSet ==> shown == value && moveTimeoutMs == value
      ensures act == OtherAction ==> shown == value && moveTimeoutMs == old(moveTimeoutMs)
    {
      shown := value;
      if act == BeforeGet {
        shown := moveTimeoutMs;
      } else if act == AfterSet {
        moveTimeoutMs := value;
      }
      ret := DEVICE_OK;
    }
  }

  /** The steps `GetPositionSteps` reports for a machine coordinate of `mm`
      millimetres, on either axis: `mm` times the X parameter, truncated
      toward zero. */
  function ReportedSteps(parent: Option<GrblHub>, mm: real): (n: int)
    requires Usable(parent) && |parent.value.parameters| >= 1
    ensures 0.0 <= mm * parent.value.parameters[0] ==>
      n as real <= mm * parent.value.parameters[0] < n as real + 1.0
    ensures mm * parent.value.parameters[0] < 0.0 ==>
      n as real - 1.0 < mm * parent.value.parameters[0] <= n as real
  {
    Trunc(mm * parent.value.parameters[0])
  }

  /** `GetPositionSteps` converts Y with the X parameter: with 100 steps
      per millimetre on X and 200 on Y, a Y of 1 mm is reported as 100 steps
      rather than the 200 the Y parameter gives. */
  lemma YReadWithXStep()
    ensures
      var parent := Some(GrblHub(true, [100.0, 200.0]));
      && ReportedSteps(parent, 1.0) == 100
      && ReportedSteps(parent, 1.0) != Trunc(1.0 * parent.value.parameters[1])
  {
    TruncOfWhole(100);
    TruncOfWhole(200);
  }

  /** Dividing by a step size of `1000/perMm` micrometres is multiplying by
      `perMm`. */
  lemma PerStep(mm: real, step: real, perMm: real)
    requires step * perMm == 1000.0
    ensures step != 0.0 && mm * 1000.0 / step == mm * perMm
  {
    assert mm * 1000.0 == (mm * perMm) * step;
  }

  /** Steps times the step size is steps times 1000 over the parameter. */
  lemma ScaleByStep(n: real, perMm: real)
    requires perMm != 0.0
    ensures n * (1000.0 / perMm) == n * 1000.0 / perMm
  {
  }
}
