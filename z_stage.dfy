/** The Z stage (focus drive) of the TinyG hub. Positions in micrometres
    are converted to whole steps of 5 µm by adding half a step and
    truncating; a move is refused while the busy window of the previous one
    is open.

    What the drive does with an accepted move, and the step count it reports
    back, come from outside the model: `driveCode` is the code of an
    accepted move, `moveMs` the length of its busy window and `reading` the
    answer of the step query. */
module ZDrive {
  import opened Common

  /** The answer of the step query: its code and the step count. */
  datatype StepsRead = StepsRead(code: int, steps: int)

  /** `(long)(pos / step + 0.5)`: measured in steps, the step nearest to
      `pos`, halves rounded up, for every position from half a step below
      zero upward. Further below, the truncation goes toward zero, so the
      result is at least half a step above the position. */
  function StepsFor(pos: real, step: real): (n: int)
    requires step > 0.0
    ensures -0.5 <= pos / step ==> n as real - 0.5 <= pos / step < n as real + 0.5
    ensures pos / step < -0.5 ==> pos / step + 0.5 <= n as real < pos / step + 1.5
  {
    Trunc(pos / step + 0.5)
  }

  /** A whole number of steps converts back to itself exactly when it is not
      negative; a negative one comes back one step higher. */
  lemma {:induction false} WholeStepsRoundTrip(k: int, step: real)
    requires step > 0.0
    ensures StepsFor(k as real * step, step) == k <==> k >= 0
    ensures k < 0 ==> StepsFor(k as real * step, step) == k + 1
  {
    assert k as real * step / step == k as real;
  }

  class ZStage {
    const stepSizeUm: real
    var initialized: bool
    /** The busy window of the last accepted move. The constructor does not
        set it, so it is arbitrary at first. */
    var timer: Option<Timer>
    /** Every step target the stage has accepted, in order. */
    var requested: seq<int>

    predicate Valid() {
      stepSizeUm == 5.0
    }

    constructor ()
      ensures Valid() && !initialized && requested == []
    {
      stepSizeUm := 5.0;
      initialized := false;
      requested := [];
    }

    predicate Moving(now: real)
      reads this`timer
    {
      timer.Some? && !timer.value.Expired(now)
    }

    /** `Initialize`: the hub must be initialized; then the name, description
        and position properties are created and the properties refreshed,
        stopping at the first failure; the stage is initialized when all of
        them succeed. */
    method Initialize(hubInitialized: bool, nameCode: int, descriptionCode: int, positionCode: int, updateCode: int)
      returns (ret: int)
      modifies this`initialized
      ensures !hubInitialized ==> ret == ERR_SCOPE_NOT_ACTIVE && initialized == old(initialized)
      ensures hubInitialized ==>
        && ret == (if nameCode != DEVICE_OK then nameCode
                   else if descriptionCode != DEVICE_OK then descriptionCode
                   else if positionCode != DEVICE_OK then positionCode
                   else updateCode)
        && initialized == (if ret == DEVICE_OK then true else old(initialized))
    {
      if !hubInitialized {
        return ERR_SCOPE_NOT_ACTIVE;
      }
      ret := nameCode;
      if ret != DEVICE_OK {
        return;
      }
      ret := descriptionCode;
      if ret != DEVICE_OK {
        return;
      }
      ret := positionCode;
      if ret != DEVICE_OK {
        return;
      }
      ret := updateCode;
      if ret != DEVICE_OK {
        return;
      }
      initialized := true;
      ret := DEVICE_OK;
    }

    method Shutdown() returns (ret: int)
      modifies this`initialized
      ensures ret == DEVICE_OK && !initialized
    {
      initialized := false;
      ret := DEVICE_OK;
    }

    /** `Busy` never reports a move under way. */
    method Busy() returns (b: bool)
      ensures !b
    {
      b := false;
    }

    /** `SetPositionSteps`: refused while the previous move's window is
        open; otherwise the target is accepted, a new window starts and the
        drive's code is returned. */
    method SetPositionSteps(steps: int, now: real, moveMs: int, driveCode: int) returns (ret: int)
      modifies this`timer, this`requested
      ensures old(Moving(now)) ==> ret == ERR_STAGE_MOVING && unchanged(this)
      ensures !old(Moving(now)) ==>
        ret == driveCode && timer == Some(Timer(now, moveMs)) && requested == old(requested) + [steps]
    {
      if timer != None {
        if !timer.value.Expired(now) {
          return ERR_STAGE_MOVING;
        }
      }
      timer := Some(Timer(now, moveMs));
      requested := requested + [steps];
      ret := driveCode;
    }

    /** `SetPositionUm`: moves to the step found by `StepsFor` and passes
        the move's code on. */
    method SetPositionUm(pos: real, now: real, moveMs: int, driveCode: int) returns (ret: int)
      requires Valid()
      modifies this`timer, this`requested
      ensures old(Moving(now)) ==> ret == ERR_STAGE_MOVING && unchanged(this)
      ensures !old(Moving(now)) ==>
        ret == driveCode && timer == Some(Timer(now, moveMs))
        && requested == old(requested) + [StepsFor(pos, stepSizeUm)]
    {
      var steps := Trunc(pos / stepSizeUm + 0.5);
      ret := SetPositionSteps(steps, now, moveMs, driveCode);
      if ret != DEVICE_OK {
        return;
      }
      ret := DEVICE_OK;
    }

    /** `GetPositionUm`: the reported step count times the step size, or the
        query's error with the caller's `pos0` kept. */
    method GetPositionUm(pos0: real, reading: StepsRead) returns (ret: int, pos: real)
      requires Valid()
      ensures reading.code != DEVICE_OK ==> ret == reading.code && pos == pos0
      ensures reading.code == DEVICE_OK ==> ret == DEVICE_OK && pos == reading.steps as real * 5.0
      ensures reading.code == DEVICE_OK && reading.steps >= 0 ==> StepsFor(pos, stepSizeUm) == reading.steps
    {
      pos := pos0;
      ret := reading.code;
      if ret != DEVICE_OK {
        return;
      }
      pos := reading.steps as real * stepSizeUm;
      WholeStepsRoundTrip(reading.steps, stepSizeUm);
      ret := DEVICE_OK;
    }

    /** `OnPosition`: reading the property shows the stage position, setting
        it moves the stage; an error from either is returned and, on a read,
        the shown value is left as it was. */
    method OnPosition(act: ActionType, value: real, reading: StepsRead, now: real, moveMs: int, driveCode: int)
      returns (ret: int, shown: real)
      requires Valid()
      modifies this`timer, this`requested
      ensures act == BeforeGet ==> unchanged(this)
      ensures act == BeforeGet && reading.code != DEVICE_OK ==> ret == reading.code && shown == value
      ensures act == BeforeGet && reading.code == DEVICE_OK ==>
        ret == DEVICE_OK && shown == reading.steps as real * stepSizeUm
      ensures act == AfterSet && old(Moving(now)) ==> shown == value && ret == ERR_STAGE_MOVING && unchanged(this)
      ensures act == AfterSet && !old(Moving(now)) ==>
        shown == value && ret == driveCode && timer == Some(Timer(now, moveMs))
        && requested == old(requested) + [StepsFor(value, stepSizeUm)]
      ensures act == OtherAction ==> ret == DEVICE_OK && shown == value && unchanged(this)
    {
      shown := value;
      if act == BeforeGet {
        var pos;
        ret, pos := GetPositionUm(value, reading);
        if ret != DEVICE_OK {
          return;
        }
        shown := pos;
      } else if act == AfterSet {
        ret := SetPositionUm(value, now, moveMs, driveCode);
        if ret != DEVICE_OK {
          return;
        }
      }
      ret := DEVICE_OK;
    }
  }
}
