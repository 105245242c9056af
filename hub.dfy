/** The TinyG hub device: the command engine that talks to the controller
    over the serial port, the `$sr` status reader, the controller-version
    query, the `Port` and `Command` properties and the initialization
    sequence.

    The serial port is abstract. For each command exchange an `Exchange`
    says what the port does (the code the write returns, the code the read
    returns and the line it reads); the hub records in `log` every purge,
    answer-timeout setting, write and read it asks of the port. */
module TinyGHub {
  import opened Common
  import opened Text
  import opened StatusReport

  /** One request the hub makes of its serial port. Writes and reads are
      always terminated by "\r\n". */
  datatype IoEvent =
    | Purge
    | Timeout(ms: real)
    | Write(command: string)
    | Read
    | PortSetting(name: string, value: string)

  /** What the serial port does during one command exchange. */
  datatype Exchange = Exchange(writeCode: int, readCode: int, answer: string)

  /** A return code together with the caller's reply string afterwards. */
  datatype Reply = Reply(code: int, text: string)

  const ResetByte: char := 24 as char
  const HomingCommand: string := "G28.2 X0 Y0"
  const StatusCommand: string := "$sr"
  const VersionCommand: string := "$fv\r\n"
  const AbsoluteModeCommand: string := "G90"

  /** How the engine treats a command. */
  datatype CommandClass = Normal | Homing | Reset | StatusQuery

  function Classify(command: string): (c: CommandClass)
    ensures c == Reset <==> |command| > 0 && command[0] == ResetByte
    ensures c == StatusQuery <==> StartsWith(command, StatusCommand)
    ensures c == Homing <==> command == HomingCommand
  {
    if |command| > 0 && command[0] == ResetByte then Reset
    else if StartsWith(command, StatusCommand) then StatusQuery
    else if command == HomingCommand then Homing
    else Normal
  }

  /** The answer timeout in force when the command is written. */
  function WriteTimeoutMs(c: CommandClass): real {
    if c == Homing then 60000.0 else 300.0
  }

  /** The answer timeout in force when the reply is read: reset and status
      requests get a long one, every other command keeps the write's. */
  function ReadTimeoutMs(c: CommandClass): real {
    if c == Reset || c == StatusQuery then 10000.0 else WriteTimeoutMs(c)
  }

  /** The port requests `SendCommand` makes once a port is set. */
  function ExchangeEvents(command: string, writeCode: int): seq<IoEvent> {
    [Purge, Timeout(300.0)]
    + (if command == HomingCommand then [Timeout(60000.0)] else [])
    + [Write(command)]
    + (if writeCode != DEVICE_OK then []
       else if |command| > 0 && command[0] == ResetByte then [Timeout(10000.0), Read]
       else if |command| >= 3 && command[0] == '$' && command[1] == 's' && command[2] == 'r'
       then [Timeout(10000.0), Read]
       else [Read])
  }

  /** The most recent timeout setting among `events`. */
  function TimeoutInForce(events: seq<IoEvent>): Option<real>
    decreases |events|
  {
    if events == [] then None
    else if events[|events| - 1].Timeout? then Some(events[|events| - 1].ms)
    else TimeoutInForce(events[..|events| - 1])
  }

  /** An exchange purges first and writes the command exactly once; it reads
      at most once, after the write, and exactly when the write succeeded; at
      the write the timeout in force is
      the write timeout of the command's class and at the read it is the
      read timeout. */
  lemma ExchangeTimeouts(command: string, writeCode: int)
    ensures var es := ExchangeEvents(command, writeCode);
      && es[0] == Purge
      && (forall i :: 0 <= i < |es| && es[i].Write? ==>
            es[i].command == command && TimeoutInForce(es[..i]) == Some(WriteTimeoutMs(Classify(command))))
      && (forall i, j :: 0 <= i < j < |es| && es[i].Write? ==> !es[j].Write?)
      && (exists i :: 0 <= i < |es| && es[i].Write?)
      && (forall i :: 0 <= i < |es| && es[i].Read? ==>
            writeCode == DEVICE_OK && TimeoutInForce(es[..i]) == Some(ReadTimeoutMs(Classify(command))))
      && ((exists i :: 0 <= i < |es| && es[i].Read?) <==> writeCode == DEVICE_OK)
      && (forall i, j :: 0 <= i < |es| && 0 <= j < |es| && es[i].Write? && es[j].Read? ==> i < j)
      && (forall i, j :: 0 <= i < j < |es| && es[i].Read? ==> !es[j].Read?)
  {
    var es := ExchangeEvents(command, writeCode);
    var w := if command == HomingCommand then 3 else 2;
    assert es[w] == Write(command);
    assert TimeoutInForce(es[..w]) == Some(WriteTimeoutMs(Classify(command))) by {
      assert es[..w][w - 1] == es[w - 1];
    }
    if writeCode == DEVICE_OK {
      var r := |es| - 1;
      assert es[r] == Read;
      if Classify(command) == Reset || Classify(command) == StatusQuery {
        assert es[..r][r - 1] == Timeout(10000.0);
      } else {
        assert es[..r][..w] == es[..w];
        assert es[..r] == es[..w] + [Write(command)];
      }
    } else {
      assert |es| == w + 1;
    }
  }

  /** The code `SendCommand` returns and the caller's `returnString` after it,
      given whether a port is set. */
  function Outcome(portAvailable: bool, command: string, returnString: string, link: Exchange): (r: Reply)
    ensures !portAvailable ==> r == Reply(ERR_NO_PORT_SET, returnString)
    ensures portAvailable && link.writeCode != DEVICE_OK ==> r == Reply(link.writeCode, returnString)
    ensures portAvailable && link.writeCode == DEVICE_OK && Classify(command) == Reset
      ==> r == Reply(DEVICE_OK, returnString)
    ensures portAvailable && link.writeCode == DEVICE_OK && Classify(command) == StatusQuery
      ==> r == if link.readCode != DEVICE_OK then Reply(link.readCode, returnString) else Reply(DEVICE_OK, link.answer)
    ensures portAvailable && link.writeCode == DEVICE_OK && Classify(command) in {Normal, Homing}
      ==> r == if link.readCode != DEVICE_OK then Reply(link.readCode, returnString)
               else if link.answer == "" then Reply(DEVICE_ERR, returnString)
               else Reply(DEVICE_OK, link.answer)
    ensures r.code == DEVICE_OK ==> portAvailable && link.writeCode == DEVICE_OK
    ensures r.text != returnString ==> r.code == DEVICE_OK && r.text == link.answer
  {
    if !portAvailable then Reply(ERR_NO_PORT_SET, returnString)
    else if link.writeCode != DEVICE_OK then Reply(link.writeCode, returnString)
    else if |command| > 0 && command[0] == ResetByte then Reply(DEVICE_OK, returnString)
    else if link.readCode != DEVICE_OK then Reply(link.readCode, returnString)
    else if |command| >= 3 && command[0] == '$' && command[1] == 's' && command[2] == 'r'
    then Reply(DEVICE_OK, link.answer)
    else if |link.answer| < 1 then Reply(DEVICE_ERR, returnString)
    else Reply(DEVICE_OK, link.answer)
  }

  /** The controller version in the reply to `$fv`: its second line. */
  function VersionToken(answer: string): (v: string)
    requires |Tokens(answer, LineBreaks)| >= 2
    ensures |v| > 0 && '\r' !in v && '\n' !in v
    ensures v == Tokens(answer, LineBreaks)[1]
  {
    Tokens(answer, LineBreaks)[1]
  }

  /** C-locale `tolower` on one character. */
  function LowerChar(c: char): char {
    if 'A' <= c <= 'Z' then (c as int + 32) as char else c
  }

  function Lowered(s: string): (r: string)
    ensures |r| == |s|
    ensures forall i :: 0 <= i < |s| ==> r[i] == LowerChar(s[i])
  {
    if s == [] then [] else [LowerChar(s[0])] + Lowered(s[1..])
  }

  predicate SameIgnoringCase(a: string, b: string) {
    |a| == |b| && forall i :: 0 <= i < |a| ==> LowerChar(a[i]) == LowerChar(b[i])
  }

  /** The port-name check of `DetectDevice`: a port name is worth probing
      when it is non-empty and is neither "undefined" nor "unknown" in any
      mix of upper and lower case. */
  function PortNameUsable(port: string): (ok: bool)
    ensures ok <==> |port| > 0 && !SameIgnoringCase(port, "undefined") && !SameIgnoringCase(port, "unknown")
  {
    var lower := Lowered(port);
    LoweredMatches(port, "undefined");
    LoweredMatches(port, "unknown");
    0 < |lower| && lower != "undefined" && lower != "unknown"
  }

  /** Comparing the lowered name with an all-lower-case word is comparing
      the name with the word ignoring case. */
  lemma LoweredMatches(s: string, word: string)
    requires forall i :: 0 <= i < |word| ==> LowerChar(word[i]) == word[i]
    ensures Lowered(s) == word <==> SameIgnoringCase(s, word)
  {
    if SameIgnoringCase(s, word) {
      assert forall i :: 0 <= i < |s| ==> Lowered(s)[i] == word[i];
    }
  }

  /** The hub. `portAvailable`, `mpos` and `status` are not set by the
      constructor (the C++ leaves `portAvailable_` and `MPos`
      uninitialized), so nothing is assumed about them. */
  class Hub {
    var port: string
    var portAvailable: bool
    var commandResult: string
    var version: string
    /** The last value published to the "Status" property. */
    var status: string
    var initialized: bool
    var busy: bool
    /** Machine X, Y and Z in mm, as last parsed from a status report. */
    const mpos: array<real>
    var log: seq<IoEvent>

    ghost predicate Valid()
      reads this
    {
      mpos.Length == 3
    }

    constructor ()
      ensures Valid() && fresh(mpos)
      ensures !initialized && !busy
      ensures port == "" && commandResult == "" && version == "" && log == []
    {
      mpos := new real[3];
      initialized, busy := false, false;
      port, commandResult, version, log := "", "", "", [];
    }

    method Shutdown() returns (ret: int)
      modifies this`initialized
      ensures ret == DEVICE_OK && !initialized
    {
      initialized := false;
      ret := DEVICE_OK;
    }

    method Busy() returns (b: bool)
      ensures b == busy
    {
      b := busy;
    }

    /** `SetAnswerTimeoutMs`: refused without a port, otherwise the port's
        answer timeout is set. */
    method SetAnswerTimeoutMs(ms: real) returns (ret: int)
      modifies this`log
      ensures !portAvailable ==> ret == ERR_NO_PORT_SET && log == old(log)
      ensures portAvailable ==> ret == DEVICE_OK && log == old(log) + [Timeout(ms)]
    {
      if !portAvailable {
        return ERR_NO_PORT_SET;
      }
      log := log + [Timeout(ms)];
      ret := DEVICE_OK;
    }

    /** `SendCommand(command, returnString)`: `reply` is the caller's string
        afterwards. */
    method SendCommand(command: string, returnString: string, link: Exchange) returns (ret: int, reply: string)
      modifies this`log
      ensures Reply(ret, reply) == Outcome(portAvailable, command, returnString, link)
      ensures log == old(log) + if portAvailable then ExchangeEvents(command, link.writeCode) else []
    {
      reply := returnString;
      if !portAvailable {
        return ERR_NO_PORT_SET, reply;
      }
      log := log + [Purge];
      var ignored := SetAnswerTimeoutMs(300.0);
      if command == HomingCommand {
        ignored := SetAnswerTimeoutMs(60000.0);
      }
      log := log + [Write(command)];
      ret := link.writeCode;
      if ret != DEVICE_OK {
        return;
      }
      if |command| > 0 && command[0] == ResetByte {
        ignored := SetAnswerTimeoutMs(10000.0);
        log := log + [Read];
        return DEVICE_OK, reply;
      } else if |command| >= 3 && command[0] == '$' && command[1] == 's' && command[2] == 'r' {
        ignored := SetAnswerTimeoutMs(10000.0);
        log := log + [Read];
        ret := link.readCode;
        if ret != DEVICE_OK {
          return;
        }
        return DEVICE_OK, link.answer;
      } else {
        log := log + [Read];
        ret := link.readCode;
        if ret != DEVICE_OK {
          return;
        }
        if |link.answer| < 1 {
          return DEVICE_ERR, reply;
        }
        return DEVICE_OK, link.answer;
      }
    }

    /** `OnPort`: reading the property shows the port; setting it selects
        the port and marks it available. */
    method OnPort(act: ActionType, value: string) returns (ret: int, shown: string)
      modifies this`port, this`portAvailable
      ensures ret == DEVICE_OK
      ensures act == BeforeGet ==> shown == port && port == old(port) && portAvailable == old(portAvailable)
      ensures act == AfterSet ==> shown == value && port == value && portAvailable
      ensures act == OtherAction ==> shown == value && port == old(port) && portAvailable == old(portAvailable)
    {
      shown := value;
      if act == BeforeGet {
        shown := port;
      } else if act == AfterSet {
        port := value;
        portAvailable := true;
      }
      ret := DEVICE_OK;
    }

    /** `OnCommand`: setting the property to a new text sends it as a raw
        command; its reply becomes the property's value, or "Error!" when the
        exchange fails. Setting it to the text it already shows sends nothing. */
    method OnCommand(act: ActionType, value: string, link: Exchange) returns (ret: int, shown: string)
      modifies this`log, this`commandResult
      ensures act == BeforeGet ==> ret == DEVICE_OK && shown == commandResult && unchanged(this)
      ensures act == OtherAction ==> ret == DEVICE_OK && shown == value && unchanged(this)
      ensures act == AfterSet && value == old(commandResult) ==> ret == DEVICE_OK && shown == value && unchanged(this)
      ensures act == AfterSet && value != old(commandResult) ==>
        var r := Outcome(portAvailable, value, old(commandResult), link);
        && shown == value
        && log == old(log) + (if portAvailable then ExchangeEvents(value, link.writeCode) else [])
        && (r.code == DEVICE_OK ==> ret == DEVICE_OK && commandResult == r.text)
        && (r.code != DEVICE_OK ==> ret == DEVICE_ERR && commandResult == "Error!")
    {
      shown := value;
      ret := DEVICE_OK;
      if act == BeforeGet {
        shown := commandResult;
      } else if act == AfterSet {
        if value == commandResult {
          return;
        }
        var r;
        r, commandResult := SendCommand(value, commandResult, link);
        if r != DEVICE_OK {
          commandResult := "Error!";
          ret := DEVICE_ERR;
        }
      }
    }

    /** `GetControllerVersion`: asks for `$fv` and takes the second line of
        the reply. The version is cleared first, so it is empty on failure. */
    method GetControllerVersion(link: Exchange) returns (ret: int, v: string)
      requires Outcome(portAvailable, VersionCommand, "", link).code == DEVICE_OK
        ==> |Tokens(link.answer, LineBreaks)| >= 2
      modifies this`log
      ensures ret == Outcome(portAvailable, VersionCommand, "", link).code
      ensures ret == DEVICE_OK ==> v == VersionToken(link.answer)
      ensures ret != DEVICE_OK ==> v == ""
      ensures log == old(log) + if portAvailable then ExchangeEvents(VersionCommand, link.writeCode) else []
    {
      v := "";
      var answer;
      ret, answer := SendCommand(VersionCommand, "", link);
      if ret != DEVICE_OK {
        return;
      }
      var tokens := Tokens(answer, LineBreaks);
      v := tokens[1];
    }

    /** `GetStatus`: sends `$sr` and, when the exchange succeeds, walks the
        reply line by line, updating `MPos` from the coordinate lines and
        publishing the machine state. A failed exchange changes neither. */
    method GetStatus(link: Exchange, parse: string -> real) returns (ret: int)
      requires Valid()
      requires Outcome(portAvailable, StatusCommand, "", link).code == DEVICE_OK
        ==> Readable(Tokens(link.answer, LineBreaks))
      modifies this`log, this`status, mpos
      ensures ret == Outcome(portAvailable, StatusCommand, "", link).code
      ensures log == old(log) + if portAvailable then ExchangeEvents(StatusCommand, link.writeCode) else []
      ensures ret == DEVICE_OK ==>
        var lines := Tokens(link.answer, LineBreaks);
        mpos[..] == PositionsAfter(old(mpos[..]), lines, parse) && status == StateAfter(old(status), lines)
      ensures ret != DEVICE_OK ==> mpos[..] == old(mpos[..]) && status == old(status)
    {
      var returnString;
      ret, returnString := SendCommand(StatusCommand, "", link);
      if ret != DEVICE_OK {
        return;
      }
      var lines := Tokens(returnString, LineBreaks);
      var i := 0;
      while i < |lines|
        modifies this`status, mpos
        invariant 0 <= i <= |lines|
        invariant mpos[..] == PositionsAfter(old(mpos[..]), lines[..i], parse)
        invariant status == StateAfter(old(status), lines[..i])
      {
        var line := lines[i];
        assert LineReadable(line);
        ghost var upto := lines[..i + 1];
        assert Readable(upto) by {
          forall j | 0 <= j < |upto| ensures LineReadable(upto[j]) {
            assert upto[j] == lines[j];
          }
        }
        assert upto == lines[..i] + [line];
        ghost var before := mpos[..];
        if StartsWith(line, AxisLabels[0]) {
          mpos[0] := ReadCoordinate(line, parse);
        }
        if StartsWith(line, AxisLabels[1]) {
          mpos[1] := ReadCoordinate(line, parse);
        }
        if StartsWith(line, AxisLabels[2]) {
          mpos[2] := ReadCoordinate(line, parse);
        }
        assert mpos[..] == ApplyLine(before, line, parse);
        if StartsWith(line, MachineStateLabel) {
          status := Value(line);
        }
        i := i + 1;
      }
      assert lines[..i] == lines;
    }

    /** The reading on a coordinate line: the value is split on spaces and
        its first piece converted. */
    static method ReadCoordinate(line: string, parse: string -> real) returns (v: real)
      requires |line| > ValueColumn
      ensures v == Reading(line, parse)
    {
      var pieces := Split(Value(line), ' ');
      v := parse(pieces[0]);
    }

    /** `Initialize`: refreshes the properties, reads the controller version,
        turns on the port's verbose mode, selects absolute coordinates with
        `G90`, reads the status and refreshes the properties again; it stops
        at the first step that fails and returns that step's code.
        `firstUpdate` and `lastUpdate` are the host's property refreshes. */
    method Initialize(firstUpdate: int, versionLink: Exchange, modeLink: Exchange,
                      statusLink: Exchange, lastUpdate: int, parse: string -> real) returns (ret: int)
      requires Valid()
      requires Outcome(portAvailable, VersionCommand, "", versionLink).code == DEVICE_OK
        ==> |Tokens(versionLink.answer, LineBreaks)| >= 2
      requires Outcome(portAvailable, StatusCommand, "", statusLink).code == DEVICE_OK
        ==> Readable(Tokens(statusLink.answer, LineBreaks))
      modifies this`log, this`version, this`status, this`initialized, mpos
      ensures Valid()
      ensures
        var versionCode := Outcome(portAvailable, VersionCommand, "", versionLink).code;
        var modeCode := Outcome(portAvailable, AbsoluteModeCommand, "", modeLink).code;
        var statusCode := Outcome(portAvailable, StatusCommand, "", statusLink).code;
        && ret == (if firstUpdate != DEVICE_OK then firstUpdate
                   else if versionCode != DEVICE_OK then versionCode
                   else if modeCode != DEVICE_OK then modeCode
                   else if statusCode != DEVICE_OK then statusCode
                   else lastUpdate)
        && (firstUpdate != DEVICE_OK ==> log == old(log) && version == old(version))
        && (firstUpdate == DEVICE_OK && versionCode != DEVICE_OK ==> version == "")
        && ((firstUpdate != DEVICE_OK || versionCode != DEVICE_OK || modeCode != DEVICE_OK
             || statusCode != DEVICE_OK) ==> mpos[..] == old(mpos[..]) && status == old(status))
        && (firstUpdate == DEVICE_OK && versionCode != DEVICE_OK ==>
              log == old(log) + if portAvailable then ExchangeEvents(VersionCommand, versionLink.writeCode) else [])
        && (firstUpdate == DEVICE_OK && versionCode == DEVICE_OK ==> version == VersionToken(versionLink.answer))
        && (firstUpdate == DEVICE_OK && versionCode == DEVICE_OK && modeCode != DEVICE_OK ==>
              log == old(log) + ExchangeEvents(VersionCommand, DEVICE_OK) + [PortSetting("Verbose", "1")]
                     + ExchangeEvents(AbsoluteModeCommand, modeLink.writeCode))
        && (firstUpdate == DEVICE_OK && versionCode == DEVICE_OK && modeCode == DEVICE_OK ==>
              log == old(log) + ExchangeEvents(VersionCommand, DEVICE_OK) + [PortSetting("Verbose", "1")]
                     + ExchangeEvents(AbsoluteModeCommand, DEVICE_OK) + ExchangeEvents(StatusCommand, statusLink.writeCode))
        && (firstUpdate == DEVICE_OK && versionCode == DEVICE_OK && modeCode == DEVICE_OK && statusCode == DEVICE_OK ==>
              && mpos[..] == PositionsAfter(old(mpos[..]), Tokens(statusLink.answer, LineBreaks), parse)
              && status == StateAfter(old(status), Tokens(statusLink.answer, LineBreaks)))
      ensures initialized == (if ret == DEVICE_OK then true else old(initialized))
    {
      ret := firstUpdate;
      if ret != DEVICE_OK {
        return;
      }
      var v;
      ret, v := GetControllerVersion(versionLink);
      version := v;
      if ret != DEVICE_OK {
        return;
      }
      log := log + [PortSetting("Verbose", "1")];
      var answer;
      ret, answer := SendCommand(AbsoluteModeCommand, "", modeLink);
      if ret != DEVICE_OK {
        return;
      }
      ret := GetStatus(statusLink, parse);
      if ret != DEVICE_OK {
        return;
      }
      ret := lastUpdate;
      if ret != DEVICE_OK {
        return;
      }
      initialized := true;
    }
  }
}
