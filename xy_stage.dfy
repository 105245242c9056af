/** The TinyG hub's XY stage. It does not talk to the controller: it keeps
    the position in micrometres, converts to and from steps with a fixed step
    size, and after each move reports itself busy for as long as the move
    would take at its nominal velocity.

    The clock reading `now` (milliseconds), the Euclidean length `norm` of a
    displacement and the code returned by the host's position-changed
    callback are parameters. */
module SimXYStage {
  import opened Common

  class XYStage {
    const stepSizeUm: real
    /** Used as micrometres per millisecond by the busy window, although the
        source documents it in micrometres per second. */
    const velocity: real
    const lowerLimitUm: real
    const upperLimitUm: real
    var posXUm: real
    var posYUm: real
    /** The busy window of the last move, if there was one. */
    var timer: Option<Timer>
    var initialized: bool
    /** Every position announced to the host, in order. */
    var announced: seq<(real, real)>

    /** The fixed configuration set by the constructor. */
    predicate Valid() {
      stepSizeUm == 0.025 && velocity == 10.0 && lowerLimitUm == 0.0 && upperLimitUm == 20000.0
    }

    constructor ()
      ensures Valid()
      ensures posXUm == 0.0 && posYUm == 0.0 && timer == None && !initialized && announced == []
    {
      stepSizeUm, velocity, lowerLimitUm, upperLimitUm := 0.025, 10.0, 0.0, 20000.0;
      posXUm, posYUm, timer, initialized, announced := 0.0, 0.0, None, false, [];
    }

    /** Whether a move is still under way at `now`. */
    predicate Moving(now: real)
      reads this`timer
    {
      timer.Some? && !timer.value.Expired(now)
    }

    /** `Busy`: false without a timer or once it has expired, true otherwise. */
    method Busy(now: real) returns (b: bool)
      ensures b <==> timer.Some? && now - timer.value.startMs <= timer.value.intervalMs as real
    {
      if timer == None {
        return false;
      }
      if timer.value.Expired(now) {
        return false;
      }
      b := true;
    }

    /** `SetPositionSteps`: refused while a move is under way; otherwise the
        position becomes the steps times the step size, a new busy window as
        long as the distance over the velocity starts, and the new position is
        announced. The announcement's code is returned, and the position stays
        even when it fails. */
    method SetPositionSteps(x: int, y: int, now: real, norm: (real, real) -> real, notifyCode: int) returns (ret: int)
      requires Valid()
      modifies this`posXUm, this`posYUm, this`timer, this`announced
      ensures old(Moving(now)) ==> ret == ERR_STAGE_MOVING && unchanged(this)
      ensures !old(Moving(now)) ==>
        && posXUm == x as real * stepSizeUm && posYUm == y as real * stepSizeUm
        && timer == Some(Timer(now, Trunc(norm(posXUm - old(posXUm), posYUm - old(posYUm)) / velocity)))
        && announced == old(announced) + [(posXUm, posYUm)]
        && ret == notifyCode
      ensures !old(Moving(now)) ==> StepsOf(posXUm) == x && StepsOf(posYUm) == y
    {
      if timer != None {
        if !timer.value.Expired(now) {
          return ERR_STAGE_MOVING;
        }
      }
      var newPosX := x as real * stepSizeUm;
      var newPosY := y as real * stepSizeUm;
      var distance := norm(newPosX - posXUm, newPosY - posYUm);
      timer := Some(Timer(now, Trunc(distance / velocity)));
      posXUm, posYUm := newPosX, newPosY;
      StepsRoundTrip(x);
      StepsRoundTrip(y);
      announced := announced + [(posXUm, posYUm)];
      ret := notifyCode;
      if ret != DEVICE_OK {
        return;
      }
      ret := DEVICE_OK;
    }

    /** Steps at a position: the position over the step size, truncated. */
    function StepsOf(um: real): int
      requires Valid()
    {
      Trunc(um / stepSizeUm)
    }

    /** Whole steps survive the conversion to micrometres and back. */
    lemma StepsRoundTrip(k: int)
      requires Valid()
      ensures StepsOf(k as real * stepSizeUm) == k
    {
      assert k as real * stepSizeUm / stepSizeUm == k as real;
      TruncOfWhole(k);
    }

    /** `GetPositionSteps`: the whole number of steps in each coordinate,
        rounded toward zero. */
    method GetPositionSteps() returns (ret: int, x: int, y: int)
      requires Valid()
      ensures ret == DEVICE_OK
      ensures x == StepsOf(posXUm) && y == StepsOf(posYUm)
      ensures 0.0 <= posXUm ==> x as real * stepSizeUm <= posXUm < (x + 1) as real * stepSizeUm
      ensures 0.0 <= posYUm ==> y as real * stepSizeUm <= posYUm < (y + 1) as real * stepSizeUm
    {
      x := Trunc(posXUm / stepSizeUm);
      y := Trunc(posYUm / stepSizeUm);
      ret := DEVICE_OK;
    }

    /** `SetRelativePositionSteps`: an absolute move to the current step
        position plus the offsets. */
    method SetRelativePositionSteps(dx: int, dy: int, now: real, norm: (real, real) -> real, notifyCode: int)
      returns (ret: int)
      requires Valid()
      modifies this`posXUm, this`posYUm, this`timer, this`announced
      ensures old(Moving(now)) ==> ret == ERR_STAGE_MOVING && unchanged(this)
      ensures !old(Moving(now)) ==>
        var x, y := old(StepsOf(posXUm)) + dx, old(StepsOf(posYUm)) + dy;
        && posXUm == x as real * stepSizeUm && posYUm == y as real * stepSizeUm
        && timer == Some(Timer(now, Trunc(norm(posXUm - old(posXUm), posYUm - old(posYUm)) / velocity)))
        && announced == old(announced) + [(posXUm, posYUm)]
        && ret == notifyCode
        && StepsOf(posXUm) == x && StepsOf(posYUm) == y
    {
      var _, xSteps, ySteps := GetPositionSteps();
      ret := SetPositionSteps(xSteps + dx, ySteps + dy, now, norm, notifyCode);
    }

    /** `Initialize`: nothing to do when already initialized; otherwise the
        name and description properties are created and the properties
        refreshed, stopping at the first failure, and the stage is
        initialized when all three succeed. */
    method Initialize(nameCode: int, descriptionCode: int, updateCode: int) returns (ret: int)
      modifies this`initialized
      ensures old(initialized) ==> ret == DEVICE_OK && initialized
      ensures !old(initialized) ==>
        && ret == (if nameCode != DEVICE_OK then nameCode
                   else if descriptionCode != DEVICE_OK then descriptionCode
                   else updateCode)
        && initialized == (ret == DEVICE_OK)
    {
      if initialized {
        return DEVICE_OK;
      }
      ret := nameCode;
      if ret != DEVICE_OK {
        return;
      }
      ret := descriptionCode;
      if ret != DEVICE_OK {
        return;
      }
      ret := updateCode;
      if ret != DEVICE_OK {
        return;
      }
      initialized := true;
      ret := DEVICE_OK;
    }

    /** `Shutdown`: clears the initialized flag; always succeeds, so it can
        be repeated. */
    method Shutdown() returns (ret: int)
      modifies this`initialized
      ensures ret == DEVICE_OK && !initialized
    {
      if initialized {
        initialized := false;
      }
      ret := DEVICE_OK;
    }

    /** `GetLimitsUm`: the same travel on both axes. */
    method GetLimitsUm() returns (ret: int, xMin: real, xMax: real, yMin: real, yMax: real)
      requires Valid()
      ensures ret == DEVICE_OK && xMin == yMin == 0.0 && xMax == yMax == 20000.0
    {
      ret, xMin, xMax, yMin, yMax := DEVICE_OK, lowerLimitUm, upperLimitUm, lowerLimitUm, upperLimitUm;
    }

    /** `GetStepLimits` is not supported. */
    method GetStepLimits() returns (ret: int)
      ensures ret == DEVICE_UNSUPPORTED_COMMAND
    {
      ret := DEVICE_UNSUPPORTED_COMMAND;
    }

    /** `GetStepSize`, `GetStepSizeXUm` and `GetStepSizeYUm`. */
    method GetStepSizeUm() returns (s: real)
      requires Valid()
      ensures s == 0.025
    {
      s := stepSizeUm;
    }
  }
}
