# Shapeoko TinyG / Grbl stage adapter — Dafny model

This project models the host side of a Micro-Manager device adapter for a
Shapeoko CNC machine driven by a TinyG or Grbl controller over a serial
port. The model has four parts:

- **The TinyG hub** (`hub.dfy`, module `TinyGHub`; helpers in `text.dfy`
  and `status.dfy`). This is the command engine `SendCommand`. It checks
  that a port is set, purges the port, and chooses an answer timeout from
  the command text:
  - 300 ms by default;
  - 60 s for the homing command `G28.2 X0 Y0`;
  - 10 s for the reset byte 0x18 and for `$sr` before the read.

  The engine then writes the command and classifies the reply. The hub
  also holds:
  - the `$sr` status parser, which fills the machine coordinates `MPos`
    and publishes the machine state;
  - the controller-version query;
  - the `Port` and `Command` properties;
  - the port-name check of device detection;
  - the initialization sequence.
- **The Grbl XY stage** (`grbl_stage.dfy`, module `GrblXYStage`). It sends
  `G00` moves in millimetres through its parent hub. It tracks the
  coordinate mode it last selected, so that `G90` or `G91` is sent only
  when the mode changes. It also converts steps with the hub's
  steps-per-millimetre parameters, homes the stage with `$H`, and forwards
  the sync step.
- **The simulated XY stage of the TinyG hub** (`xy_stage.dfy`, module
  `SimXYStage`). It caches the position in micrometres and converts steps
  with a 0.025 µm step. After each move it reports itself busy for a
  window as long as the distance over the velocity.
- **The Z stage** (`z_stage.dfy`, module `ZDrive`). It rounds a position in
  micrometres to whole 5 µm steps, refuses a move while the previous one's
  window is open, and dispatches its `Position` property to the get and
  set paths.

`common.dfy` holds the shared pieces:
- Micro-Manager's return codes;
- the property-action kinds;
- the busy-window timer;
- the C++ cast of a floating-point value to `long`, which truncates
  toward zero.

**The serial port and other unseen code are parameters.** One command
exchange is an `Exchange` value: the code of the write, the code of the
read and the line read. The hub records in `log` every purge,
answer-timeout setting, port setting, write and read it asks for, so
contracts can say which timeouts were set and which commands were written.
The following also come in as parameters:
- the host's string-to-number conversion (`parse`);
- the clock (`now`) and the length of a displacement (`norm`);
- the codes of host callbacks such as property refreshes and
  position-changed notifications;
- the Grbl parent hub, whose class is not part of this model.

Two places where the code departs from its evident intent are modelled as
written, and a lemma makes each consequence explicit:
- The Z stage's `(long)(pos / step + 0.5)` is the nearest step only from
  half a step below zero upward. A whole negative number of steps comes
  back one step higher (`ZDrive.WholeStepsRoundTrip`).
- The Grbl stage's `GetPositionSteps` converts Y with the X step size. With
  100 steps/mm on X and 200 on Y, a Y of 1 mm reads as 100 steps, not 200
  (`GrblXYStage.YReadWithXStep`).

## Model

| member | source | states |
|---|---|---|
| Common.Trunc | shapeoko_tinyg2/XYStage.cpp:125-126 | `(long)` of a double rounds toward zero: the result is within one unit of the value, on the zero side |
| Text.Pieces | shapeoko_tinyg2/ShapeokoTinyG.cpp:439-453 | the getline pieces of a string; there are none exactly when the string is empty |
| Text.Split | shapeoko_tinyg2/ShapeokoTinyG.cpp:439-453 | the getline loop of `split` collects exactly the pieces `Pieces` describes |
| Text.PiecesExcludeDelimiter | shapeoko_tinyg2/ShapeokoTinyG.cpp:439-453 | no piece of `split` contains the delimiter |
| Text.JoinPieces | shapeoko_tinyg2/ShapeokoTinyG.cpp:439-453 | joining the pieces with the delimiter gives the string back when it does not end with the delimiter; when it does, only that final delimiter is lost |
| Text.Tokens | shapeoko_tinyg2/ShapeokoTinyG.cpp:482 | tokenizing on the line breaks yields non-empty tokens, none of which contains a line break |
| Text.TokensSplitAt | shapeoko_tinyg2/ShapeokoTinyG.cpp:482 | a delimiter splits the tokens: those of the text before it, followed by those of the text after it |
| Text.TokensOfRun | shapeoko_tinyg2/ShapeokoTinyG.cpp:482 | a non-empty text without delimiters is exactly one token, itself; with `TokensSplitAt` this makes the tokens the maximal non-delimiter runs, in order |
| StatusReport.Value | shapeoko_tinyg2/ShapeokoTinyG.cpp:488 | `substr(21, 10)` gives at most ten characters, and at least one when the line is longer than 21 |
| StatusReport.ApplyLine | shapeoko_tinyg2/ShapeokoTinyG.cpp:483-504 | one line changes coordinate k only when it starts with the k-th axis label, and then to that line's reading |
| StatusReport.CoordinateIsLastReading | shapeoko_tinyg2/ShapeokoTinyG.cpp:483-504 | after a report, each coordinate is the reading of the last line carrying its label, or its old value when no line does |
| StatusReport.StateIsLastValue | shapeoko_tinyg2/ShapeokoTinyG.cpp:519-522 | the published machine state is the value of the last `Machine state:` line, or the previous one |
| TinyGHub.Classify | shapeoko_tinyg2/ShapeokoTinyG.cpp:296-322 | a command is a reset iff its first byte is 0x18, a status request iff it starts with `$sr`, and homing iff it is exactly `G28.2 X0 Y0` |
| TinyGHub.ExchangeTimeouts | shapeoko_tinyg2/ShapeokoTinyG.cpp:292-341 | an exchange purges first, writes once and reads at most once, after the write; the write happens under a 60000 ms timeout for homing and 300 ms otherwise; a read happens iff the write succeeded, under 10000 ms for reset and `$sr` and under the write timeout otherwise |
| TinyGHub.Outcome | shapeoko_tinyg2/ShapeokoTinyG.cpp:284-366 | no port gives 108 and a failed write gives its code; a reset succeeds whatever the read did and keeps the reply string; `$sr` passes the answer through; another command needs a non-empty answer; the reply string changes only on success, to the answer |
| TinyGHub.VersionToken | shapeoko_tinyg2/ShapeokoTinyG.cpp:200-202 | the version is the second line-break token of the reply, non-empty and without line breaks |
| TinyGHub.PortNameUsable | shapeoko_tinyg2/ShapeokoTinyG.cpp:380-387 | a port name is probed iff it is non-empty and is neither "undefined" nor "unknown" ignoring case |
| TinyGHub.Hub.constructor | shapeoko_tinyg2/ShapeokoTinyG.cpp:80-87 | a new hub is neither initialized nor busy, with no port name, no command result, no version and no port requests; port availability and `MPos` are left unset, as in the source |
| TinyGHub.Hub.Shutdown | shapeoko_tinyg2/ShapeokoTinyG.h:76 | shutting down clears the initialized flag and succeeds |
| TinyGHub.Hub.Busy | shapeoko_tinyg2/ShapeokoTinyG.h:78 | reports the busy flag |
| TinyGHub.Hub.SetAnswerTimeoutMs | shapeoko_tinyg2/ShapeokoTinyG.cpp:431-437 | without a port: 108 and no port request; otherwise the timeout is set and OK returned |
| TinyGHub.Hub.SendCommand | shapeoko_tinyg2/ShapeokoTinyG.cpp:284-366 | returns the code and reply that `Outcome` gives; the port sees exactly the exchange's requests, or nothing without a port |
| TinyGHub.Hub.OnPort | shapeoko_tinyg2/ShapeokoTinyG.cpp:247-260 | a read shows the port; a write sets the port and marks it available |
| TinyGHub.Hub.OnCommand | shapeoko_tinyg2/ShapeokoTinyG.cpp:262-282 | setting the text already shown sends nothing and succeeds; otherwise it is sent, and the reply is shown on success, or "Error!" with DEVICE_ERR on failure |
| TinyGHub.Hub.GetControllerVersion | shapeoko_tinyg2/ShapeokoTinyG.cpp:185-207 | sends `$fv` and returns its code; on success the version is the reply's second line, otherwise empty |
| TinyGHub.Hub.ReadCoordinate | shapeoko_tinyg2/ShapeokoTinyG.cpp:488-491 | the first space-separated piece of the value, converted, is the line's reading |
| TinyGHub.Hub.GetStatus | shapeoko_tinyg2/ShapeokoTinyG.cpp:467-530 | sends `$sr`; on success `MPos` and the state are what the report's lines make them; on failure its error is returned and neither changes |
| TinyGHub.Hub.Initialize | shapeoko_tinyg2/ShapeokoTinyG.cpp:89-180 | runs refresh, version, verbose, `G90`, status and refresh in order and stops at the first failure, returning its code; after each failing step the port has seen exactly the exchanges up to that step and none after; once `$sr` succeeds, `MPos` and the state are what the report makes them; the hub is initialized when everything succeeds, and a failure leaves the initialized flag as it was |
| GrblXYStage.RequestsOfOneMove | shapeoko_tinyg/MyShapeokoTinyg.cpp:236-244 | one move sends one mode command exactly when the mode changes, and one linear move |
| GrblXYStage.SwitchesMatchChanges | shapeoko_tinyg/MyShapeokoTinyg.cpp:230-271 | over any series of moves, the mode commands sent equal the number of mode changes, and every move is sent once |
| GrblXYStage.SameModeRun | shapeoko_tinyg/MyShapeokoTinyg.cpp:236-240 | consecutive moves in one mode send at most one mode command: exactly one when the controller was in another mode |
| GrblXYStage.StepSizeUm | shapeoko_tinyg/MyShapeokoTinyg.cpp:166-182 | the step size times the axis parameter is 1000; without a usable hub the value is 108 |
| GrblXYStage.Stage.constructor | shapeoko_tinyg/MyShapeokoTinyg.cpp:43-69 | a new stage is not initialized, has a command thread and has sent nothing; its mode is arbitrary |
| GrblXYStage.Stage.Initialize | shapeoko_tinyg/MyShapeokoTinyg.cpp:85-141 | no usable hub gives 108; otherwise the refresh's code is returned and the stage is initialized on success |
| GrblXYStage.Stage.Shutdown | shapeoko_tinyg/MyShapeokoTinyg.cpp:143-159 | drops the command thread, clears the initialized flag and succeeds |
| GrblXYStage.Stage.Busy | shapeoko_tinyg/MyShapeokoTinyg.cpp:161-164 | never busy |
| GrblXYStage.Stage.SetPositionUm | shapeoko_tinyg/MyShapeokoTinyg.cpp:230-250 | no usable hub: 108 and nothing sent; otherwise `G90` goes out iff the last mode was not absolute, then the move in mm; the mode becomes absolute and the move's code is returned whatever `G90` returned |
| GrblXYStage.Stage.SetRelativePositionUm | shapeoko_tinyg/MyShapeokoTinyg.cpp:251-271 | the same for `G91` and the relative mode |
| GrblXYStage.Stage.SetPositionSteps | shapeoko_tinyg/MyShapeokoTinyg.cpp:184-191 | moves absolutely to steps × 1000 / parameter per axis and always returns OK |
| GrblXYStage.Stage.SetRelativePositionSteps | shapeoko_tinyg/MyShapeokoTinyg.cpp:193-197 | moves relatively by steps × 1000 / parameter per axis and always returns OK |
| GrblXYStage.Stage.GetPositionSteps | shapeoko_tinyg/MyShapeokoTinyg.cpp:213-229 | no usable hub or a status error leaves x and y untouched and returns the error; on success each is `ReportedSteps` of its machine mm: times the X parameter, truncated toward zero |
| GrblXYStage.ReportedSteps | shapeoko_tinyg/MyShapeokoTinyg.cpp:223-224 | the reported steps of an axis lie within one step of its mm times the X parameter, on the zero side |
| GrblXYStage.YReadWithXStep | shapeoko_tinyg/MyShapeokoTinyg.cpp:223-224 | with X and Y parameters 100 and 200, a Y of 1 mm is reported as 100 steps, not the 200 the Y parameter gives |
| GrblXYStage.Stage.Home | shapeoko_tinyg/MyShapeokoTinyg.cpp:278-295 | no usable hub: 108 and nothing sent; otherwise `$H` goes to the hub's `Command` property, with its code returned; the stage is marked homed on success, and a failure leaves the homed flag as it was |
| GrblXYStage.Stage.GetLimitsUm | shapeoko_tinyg/MyShapeokoTinyg.cpp:320-328 | the limits run from 0 to the step limits times the step size |
| GrblXYStage.Stage.GetStepLimits | shapeoko_tinyg/MyShapeokoTinyg.cpp:330-338 | the step limits run from 0 to the axis maxima |
| GrblXYStage.Stage.OnSyncStep | shapeoko_tinyg/MyShapeokoTinyg.cpp:398-421 | a read shows the sync step; a write needs a usable hub (else 108, nothing changed), stores the value, passes it on for axis 0 and returns the hub's code |
| GrblXYStage.Stage.OnMoveTimeout | shapeoko_tinyg/MyShapeokoTinyg.cpp:382-394 | reads or sets the move timeout |
| GrblXYStage.Stage.OnAcceleration | shapeoko_tinyg/MyShapeokoTinyg.cpp:364-377 | the acceleration property reads and sets the move timeout too |
| SimXYStage.XYStage.constructor | shapeoko_tinyg2/XYStage.cpp:8-19 | step 0.025 µm, position (0, 0), velocity 10, limits 0..20000, no timer, not initialized |
| SimXYStage.XYStage.Busy | shapeoko_tinyg2/XYStage.cpp:87-97 | busy iff a timer exists and has not expired |
| SimXYStage.XYStage.SetPositionSteps | shapeoko_tinyg2/XYStage.cpp:99-121 | while busy: ERR_STAGE_MOVING and nothing changes; otherwise the position is steps × step size, a timer of trunc(distance / velocity) starts, the position is announced, and the callback's code is returned with the position kept; reading the steps back gives the requested ones |
| SimXYStage.XYStage.StepsRoundTrip | shapeoko_tinyg2/XYStage.cpp:114-126 | whole steps converted to µm and back are unchanged |
| SimXYStage.XYStage.GetPositionSteps | shapeoko_tinyg2/XYStage.cpp:123-128 | each axis gives the whole steps in its position, truncated, so that the position lies within one step above them |
| SimXYStage.XYStage.SetRelativePositionSteps | shapeoko_tinyg2/XYStage.cpp:130-136 | the same as an absolute move to the current steps plus the offsets |
| SimXYStage.XYStage.Initialize | shapeoko_tinyg2/XYStage.cpp:41-76 | already initialized: OK with nothing done; otherwise the first failing setup code, and the stage, not initialized before, becomes initialized iff all succeed |
| SimXYStage.XYStage.Shutdown | shapeoko_tinyg2/XYStage.cpp:78-85 | clears the initialized flag and succeeds, so repeating it is harmless |
| SimXYStage.XYStage.GetLimitsUm | shapeoko_tinyg2/XYStage.h:42-47 | both axes run from 0 to 20000 µm |
| SimXYStage.XYStage.GetStepLimits | shapeoko_tinyg2/XYStage.h:49-50 | not supported |
| SimXYStage.XYStage.GetStepSizeUm | shapeoko_tinyg2/XYStage.h:51-52 | the step size is 0.025 µm on both axes |
| ZDrive.StepsFor | shapeoko_tinyg2/ZStage.cpp:92 | nearest step with halves rounded up from half a step below zero upward; further below, at least half a step above the target |
| ZDrive.WholeStepsRoundTrip | shapeoko_tinyg2/ZStage.cpp:92-106 | whole steps in µm convert back to themselves iff they are not negative; negative ones come back one step higher |
| ZDrive.ZStage.constructor | shapeoko_tinyg2/ZStage.cpp:23-32 | step size 5 µm, not initialized |
| ZDrive.ZStage.Initialize | shapeoko_tinyg2/ZStage.cpp:44-76 | hub not initialized: ERR_SCOPE_NOT_ACTIVE and no change; otherwise the first failing setup code; initialized on success, and a failure leaves the initialized flag as it was |
| ZDrive.ZStage.Shutdown | shapeoko_tinyg2/ZStage.cpp:78-83 | clears the initialized flag and succeeds |
| ZDrive.ZStage.Busy | shapeoko_tinyg2/ZStage.cpp:85-88 | never busy |
| ZDrive.ZStage.SetPositionSteps | shapeoko_tinyg2/ZStage.cpp:114-122 | while the last window is open: ERR_STAGE_MOVING and nothing changes; otherwise the target is accepted and a new window starts |
| ZDrive.ZStage.SetPositionUm | shapeoko_tinyg2/ZStage.cpp:90-98 | requests `StepsFor(pos)` steps and returns that request's code |
| ZDrive.ZStage.GetPositionUm | shapeoko_tinyg2/ZStage.cpp:100-109 | steps × 5 µm on success, which converts back to the same non-negative steps; on error that error, with the position untouched |
| ZDrive.ZStage.OnPosition | shapeoko_tinyg2/ZStage.cpp:218-238 | a read shows the stage position and a write moves the stage; either error is returned |

## Left out

- Serial I/O is an oracle per exchange: purging, writing, reading and port settings are recorded as requests, not performed. The 600 ms and 2000 ms sleeps are left out.
- Locks and the Grbl stage's command thread are left out; the thread is only a flag. The hub's lock guard at shapeoko_tinyg2/ShapeokoTinyG.cpp:291 is a temporary that is released at once, so the exchange is not serialized in the source either.
- The rest of device detection is left out: opening the port, its settings and the probing status request. Only the port-name check is modelled.
- Module registration, device names, property creation and the version property handler are host wiring. Property creation and refresh appear only as the codes they return.
- TinyGHub.Hub.GetStatus: "Status" is recorded as the published value, although the hub never creates that property: `SetProperty("Status", …)` fails inside the device, `GetStatus` discards that code, and the host never sees the value.
- The `version = ""` at shapeoko_tinyg2/ShapeokoTinyG.cpp:158 names no declared variable and is not modelled.
- `CDeviceUtils::Tokenize` is not part of this model. `Text.Tokens` is defined as splitting at any delimiter and dropping empty tokens, which is how Micro-Manager documents it.
- `MM::TimeoutMs` is not part of this model. `Common.Timer` expires once strictly more than its interval has elapsed.
- The conversion of a string to a double is the parameter `parse`.
- `sprintf("%f")` formatting is abstract: a move is the value `LinearMove(x, y)` in millimetres.
- `sqrt` is the parameter `norm`. Unlike `sqrt`, `norm` is not required to return a non-negative value; no contract depends on its sign.
- SimXYStage.XYStage.SetPositionSteps: the source's comment gives the velocity in µm per second, but the busy window divides the distance by it and uses the result as milliseconds. The model follows the code, so `velocity` is effectively µm per millisecond and the window is 1000 times shorter than the comment implies.
- Logging (`LogMessage`, `LogMessageCode`) is left out. At shapeoko_tinyg2/ShapeokoTinyG.cpp:305, `"set command, ret=" + ret` adds the write's code to a pointer into a 17-character literal before the code is checked. A write error above 17 therefore reads past the literal; the model treats the failed write as simply returning its code.
- Doubles are reals and `long` is an unbounded integer: rounding of binary floating point and 64-bit overflow are not modelled.
- SimXYStage.XYStage.StepsRoundTrip: holds for exact arithmetic only. 0.025 has no exact binary form, so in doubles a quotient just below a whole number can truncate one step low.
- Preconditions exclude inputs on which the source has no defined result:
  - a labelled status line shorter than 21 characters (`Readable`). There `substr(21, 10)` throws `std::out_of_range`, which escapes `GetStatus` and `Initialize` and is caught only by device detection's `catch(...)` (shapeoko_tinyg2/ShapeokoTinyG.cpp:423). The exception path is not modelled;
  - a coordinate line with an empty value (`Readable`), where the first piece of an empty split is read;
  - a version reply with fewer than two tokens;
  - a zero or missing Grbl axis parameter for the step moves (`HasStepParameters`). `GetPositionSteps` needs only the X parameter.
- The Grbl stage reads its parameters straight from the hub. In the source they are reached through the address that `Initialize` stores, so before `Initialize` that address is not set.
- The Grbl parent hub class is not part of this model. Its `SendCommand`, `SetProperty("Command")`, `SetSync` and `GetStatus` are seen through their returned codes (`codes`, `code`, `syncCode`) and a `StatusRead`.
- `MyShapeokoTinyg::GetPositionUm` has no return on its success path, and `MoveBlocking` reads an uninitialized variable. Neither is modelled. `OnMaxVelocity`, `Stop` and `SetOrigin` do nothing and return OK, so they are not modelled either.
- `GetLimitsUm` and `GetStepLimits` of the Grbl stage use limits and a step size that its own sources do not declare. They are the constructor parameters `xAxisMaxSteps`, `yAxisMaxSteps` and `stepSizeUm`.
- ZDrive.ZStage.SetPositionSteps: only the busy guard is modelled. The rest of the body uses undeclared names (shapeoko_tinyg2/ZStage.cpp:123-142). An accepted move's outcome is the parameters `moveMs` and `driveCode`.
- ZDrive.ZStage.GetPositionUm: the source's step query is a stub that returns OK without setting the count. The model takes the query's answer as the parameter `reading`.
- The XY stage's `Home`, `Stop`, `SetOrigin` and `Move` return OK with no effect. `IsXYStageSequenceable` and the Z stage's sequence functions are trivial and are not modelled.
- The XY stage's unused `busy_` field and the hub's unused `WPos` are not modelled.
