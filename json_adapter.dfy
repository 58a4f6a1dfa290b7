/** The text command adapter of the C++ driver: a line such as "etc 25" is split
    into a command name and one parameter, the command is looked up among eleven
    names, and its handler calls the driver and answers with a one-key object
    whose key is the command name. Serialisation and number parsing belong to
    libraries outside the model and are given as functions. */
module EcJson {
  import opened Wrappers
  import opened Binary32
  import opened RegisterMap
  import opened Bus
  import opened EcDriver

  // --- the string operations the tokenizer uses ---------------------------------

  /** The characters `isspace` accepts, which String::trim strips: tab, line feed,
      vertical tab, form feed, carriage return and space. */
  predicate IsSpace(c: char) {
    c == ' ' || '\t' <= c <= '\r'
  }

  /** Text with no white space at all. */
  predicate Word(w: string) {
    forall i :: 0 <= i < |w| ==> !IsSpace(w[i])
  }

  /** String::indexOf(c, 0): the first position of c, or -1. */
  function IndexOf(s: string, c: char): (i: int)
    ensures -1 <= i < |s|
    ensures i == -1 <==> c !in s
    ensures 0 <= i ==> s[i] == c && c !in s[..i]
  {
    if s == [] then -1
    else if s[0] == c then 0
    else
      var j := IndexOf(s[1..], c);
      if j == -1 then -1
      else
        assert s[..j + 1] == [s[0]] + s[1..][..j];
        j + 1
  }

  /** String::substring(0, end): the end index is unsigned, so -1 and anything
      past the length select the whole text. */
  function Substring(s: string, end: int): (r: string)
    ensures 0 <= end <= |s| ==> r == s[..end]
    ensures (end < 0 || end > |s|) ==> r == s
  {
    if 0 <= end <= |s| then s[..end] else s
  }

  /** String::remove(0, count): the count is unsigned, so -1 removes everything,
      and a count of zero removes nothing. */
  function Remove(s: string, count: int): (r: string)
    ensures 0 <= count <= |s| ==> r == s[count..]
    ensures (count < 0 || count > |s|) ==> r == []
  {
    if 0 <= count <= |s| then s[count..] else []
  }

  /** Cutting at the same index loses nothing: what substring keeps and what
      remove leaves make up the whole text, for every index, -1 included. */
  lemma CutIsLossless(s: string, i: int)
    ensures Substring(s, i) + Remove(s, i) == s
  {
    if 0 <= i <= |s| {
      assert s[..i] + s[i..] == s;
    }
  }

  /** Cutting at the first space: the part kept holds no space, and the part
      left is empty or starts with that space. */
  lemma CutAtFirstSpace(s: string)
    ensures ' ' !in Substring(s, IndexOf(s, ' '))
    ensures var rest := Remove(s, IndexOf(s, ' ')); rest == [] || rest[0] == ' '
  {
  }

  /** Strips leading white space. */
  function TrimStart(s: string): string {
    if s != [] && IsSpace(s[0]) then TrimStart(s[1..]) else s
  }

  /** Strips trailing white space. */
  function TrimEnd(s: string): string {
    if s != [] && IsSpace(s[|s| - 1]) then TrimEnd(s[..|s| - 1]) else s
  }

  /** String::trim. */
  function Trim(s: string): string {
    TrimEnd(TrimStart(s))
  }

  /** TrimStart keeps a suffix that does not start with white space, and
      everything it drops is white space. */
  lemma {:induction false} TrimStartSpec(s: string)
    ensures var r := TrimStart(s);
      |r| <= |s| && r == s[|s| - |r|..] && (r == [] || !IsSpace(r[0]))
      && forall i :: 0 <= i < |s| - |r| ==> IsSpace(s[i])
  {
    if s != [] && IsSpace(s[0]) {
      var t := s[1..];
      TrimStartSpec(t);
      var r := TrimStart(t);
      assert TrimStart(s) == r;
      assert s[|s| - |r|..] == t[|t| - |r|..];
      forall i | 0 <= i < |s| - |r|
        ensures IsSpace(s[i])
      {
        if i > 0 {
          assert s[i] == t[i - 1];
        }
      }
    }
  }

  /** TrimEnd keeps a prefix that does not end with white space, and everything
      it drops is white space. */
  lemma {:induction false} TrimEndSpec(s: string)
    ensures var r := TrimEnd(s);
      |r| <= |s| && r == s[..|r|] && (r == [] || !IsSpace(r[|r| - 1]))
      && forall i :: |r| <= i < |s| ==> IsSpace(s[i])
  {
    if s != [] && IsSpace(s[|s| - 1]) {
      TrimEndSpec(s[..|s| - 1]);
    }
  }

  /** Trimmed text neither starts nor ends with white space. */
  lemma TrimEdges(s: string)
    ensures Trim(s) == [] || (!IsSpace(Trim(s)[0]) && !IsSpace(Trim(s)[|Trim(s)| - 1]))
  {
    TrimStartSpec(s);
    TrimEndSpec(TrimStart(s));
    var t := TrimStart(s);
    var r := TrimEnd(t);
    if r != [] {
      assert r[0] == t[0];
    }
  }

  /** Trimming keeps a contiguous part of the text: whatever it keeps was there. */
  lemma TrimKeepsInterior(s: string, c: char)
    requires c in Trim(s)
    ensures c in s
  {
    TrimStartSpec(s);
    TrimEndSpec(TrimStart(s));
    var t := TrimStart(s);
    var r := TrimEnd(t);
    var i :| 0 <= i < |r| && r[i] == c;
    assert t[i] == c;
    assert s[|s| - |t| + i] == c;
  }

  /** Text without white space is left as it is. */
  lemma TrimWord(w: string)
    requires Word(w)
    ensures TrimStart(w) == w && TrimEnd(w) == w && Trim(w) == w
  {
    if w != [] {
      assert !IsSpace(w[0]) && !IsSpace(w[|w| - 1]);
    }
  }

  /** Trimming text that starts with a word keeps the word in front of whatever
      follows it. */
  lemma TrimEndKeepsWord(p: string, tail: string)
    requires Word(p) && p != []
    ensures |p| <= |TrimEnd(p + tail)| && TrimEnd(p + tail)[..|p|] == p
  {
    var s := p + tail;
    TrimEndSpec(s);
    var r := TrimEnd(s);
    assert s[|p| - 1] == p[|p| - 1];
    assert |p| <= |r|;
    assert r[..|p|] == s[..|p|];
    assert s[..|p|] == p;
  }

  // --- tokenizing ----------------------------------------------------------------

  datatype Request = Request(command: string, parameter: string)

  /** processJSON's tokenizer: the command is the trimmed text before the first
      space; the remainder (from that space on, or nothing when there is none)
      is trimmed, and the parameter is its trimmed text before its first space. */
  function Tokenize(json: string): (q: Request)
  {
    var cut := IndexOf(json, ' ');
    var rest := Trim(Remove(json, cut));
    Request(Trim(Substring(json, cut)), Trim(Substring(rest, IndexOf(rest, ' '))))
  }

  /** Neither token contains a space, or starts or ends with white space. */
  lemma TokensAreTrimmed(json: string)
    ensures var q := Tokenize(json);
      ' ' !in q.command && (q.command == [] || (!IsSpace(q.command[0]) && !IsSpace(q.command[|q.command| - 1])))
    ensures var q := Tokenize(json);
      ' ' !in q.parameter && (q.parameter == [] || (!IsSpace(q.parameter[0]) && !IsSpace(q.parameter[|q.parameter| - 1])))
  {
    var cut := IndexOf(json, ' ');
    var rest := Trim(Remove(json, cut));
    TrimEdges(Substring(json, cut));
    TrimEdges(Substring(rest, IndexOf(rest, ' ')));
    if ' ' in Tokenize(json).command {
      TrimKeepsInterior(Substring(json, cut), ' ');
    }
    if ' ' in Tokenize(json).parameter {
      TrimKeepsInterior(Substring(rest, IndexOf(rest, ' ')), ' ');
    }
  }

  /** A line without a space is all command: the parameter is empty. */
  lemma NoSpaceNoParameter(json: string)
    requires ' ' !in json
    ensures Tokenize(json) == Request(Trim(json), [])
  {
  }

  /** A line that starts with a space has an empty command (and so is not recognised). */
  lemma LeadingSpaceEmptiesCommand(json: string)
    requires json != [] && json[0] == ' '
    ensures Tokenize(json).command == []
  {
  }

  /** A word holds no space. */
  lemma WordHasNoSpace(w: string)
    requires Word(w)
    ensures ' ' !in w
  {
  }

  /** A command word alone is taken as it is, with an empty parameter. */
  lemma TokenizeCommand(c: string)
    requires Word(c)
    ensures Tokenize(c) == Request(c, [])
  {
    WordHasNoSpace(c);
    NoSpaceNoParameter(c);
    TrimWord(c);
  }

  /** The first space after a word is the one that follows it. */
  lemma IndexAfterWord(c: string, x: string)
    requires Word(c)
    ensures IndexOf(c + " " + x, ' ') == |c|
  {
    WordHasNoSpace(c);
    var json := c + " " + x;
    assert json[..|c|] == c && json[|c|] == ' ';
  }

  /** The trimmed remainder of "c p tail" starts with the word p, followed by
      nothing or by a space. */
  lemma RemainderOfLine(c: string, p: string, tail: string)
    requires Word(c) && Word(p) && p != []
    requires tail == [] || tail[0] == ' '
    ensures var rest := Trim(Remove(c + " " + p + tail, |c|));
      |p| <= |rest| && rest[..|p|] == p && (|rest| == |p| || rest[|p|] == ' ')
  {
    var json := c + " " + p + tail;
    assert json == c + " " + (p + tail);
    var removed := Remove(json, |c|);
    assert removed == " " + (p + tail);
    assert TrimStart(removed) == TrimStart(p + tail);
    assert TrimStart(p + tail) == p + tail by {
      assert (p + tail)[0] == p[0];
    }
    TrimEndKeepsWord(p, tail);
    TrimEndSpec(p + tail);
    var rest := TrimEnd(p + tail);
    if |rest| > |p| {
      assert rest[|p|] == (p + tail)[|p|];
    }
  }

  /** The parameter is the first word of the remainder. */
  lemma FirstWordOf(rest: string, p: string)
    requires Word(p) && p != []
    requires |p| <= |rest| && rest[..|p|] == p && (|rest| == |p| || rest[|p|] == ' ')
    ensures Trim(Substring(rest, IndexOf(rest, ' '))) == p
  {
    WordHasNoSpace(p);
    if |rest| == |p| {
      assert rest == p;
    } else {
      assert IndexOf(rest, ' ') == |p|;
    }
    TrimWord(p);
  }

  /** "c p tail": the command word and the next word come out as the two tokens,
      whatever follows the second word after a space. */
  lemma {:induction false} TokenizeLine(c: string, p: string, tail: string)
    requires Word(c) && Word(p) && p != []
    requires tail == [] || tail[0] == ' '
    ensures Tokenize(c + " " + p + tail) == Request(c, p)
  {
    var json := c + " " + p + tail;
    assert json == c + " " + (p + tail);
    IndexAfterWord(c, p + tail);
    assert Substring(json, |c|) == c;
    TrimWord(c);
    RemainderOfLine(c, p, tail);
    FirstWordOf(Trim(Remove(json, |c|)), p);
  }

  // --- the command table --------------------------------------------------------

  datatype Command = Ec | Etc | Eco | Ehrf | Ehr | Elrf | Elr | Ecr | Ecc | Eo | Ect

  /** The name each handler is dispatched on; it is also the key of its reply. */
  function Name(c: Command): string {
    match c
    case Ec => "ec"
    case Etc => "etc"
    case Eco => "eco"
    case Ehrf => "ehrf"
    case Ehr => "ehr"
    case Elrf => "elrf"
    case Elr => "elr"
    case Ecr => "ecr"
    case Ecc => "ecc"
    case Eo => "eo"
    case Ect => "ect"
  }

  /** The commands in the order processJSON tests them. */
  const Commands: seq<Command> := [Ec, Etc, Eco, Ehrf, Ehr, Elrf, Elr, Ecr, Ecc, Eo, Ect]

  /** Eleven commands with eleven different names: at most one of the tests in
      processJSON succeeds, so at most one handler runs. */
  lemma CommandTable()
    ensures |Commands| == 11
    ensures forall c: Command :: c in Commands
    ensures forall i, j :: 0 <= i < j < |Commands| ==> Name(Commands[i]) != Name(Commands[j])
  {
    forall c: Command ensures c in Commands {
      match c
      case Ec => assert Commands[0] == c;
      case Etc => assert Commands[1] == c;
      case Eco => assert Commands[2] == c;
      case Ehrf => assert Commands[3] == c;
      case Ehr => assert Commands[4] == c;
      case Elrf => assert Commands[5] == c;
      case Elr => assert Commands[6] == c;
      case Ecr => assert Commands[7] == c;
      case Ecc => assert Commands[8] == c;
      case Eo => assert Commands[9] == c;
      case Ect => assert Commands[10] == c;
    }
  }

  /** The tests of processJSON, one after the other. */
  function Lookup(s: string): (c: Option<Command>)
    ensures c.Some? ==> Name(c.value) == s
    ensures c.None? ==> forall k: Command :: Name(k) != s
  {
    if s == "ec" then Some(Ec)
    else if s == "etc" then Some(Etc)
    else if s == "eco" then Some(Eco)
    else if s == "ehrf" then Some(Ehrf)
    else if s == "ehr" then Some(Ehr)
    else if s == "elrf" then Some(Elrf)
    else if s == "elr" then Some(Elr)
    else if s == "ecr" then Some(Ecr)
    else if s == "ecc" then Some(Ecc)
    else if s == "eo" then Some(Eo)
    else if s == "ect" then Some(Ect)
    else None
  }

  /** Each name selects its own handler and no other. */
  lemma LookupName(c: Command, s: string)
    ensures Lookup(s) == Some(c) <==> Name(c) == s
  {
  }

  // --- replies and handlers ---------------------------------------------------------

  /** The value of the reply's one key. */
  datatype JsonValue = Number(f: bv32) | Text(s: string) | Flag(b: bool)

  /** A one-key object {key: value}. */
  datatype Reply = Reply(key: string, value: JsonValue)

  /** The library pieces the adapter relies on, and the driver's default arguments
      the one-argument calls use. */
  datatype Conversions = Conversions(
    toFloat: string -> bv32,      // String::toFloat
    serialize: Reply -> string,   // serializeJson of the one-key object
    centi: bv32 -> bv32,          // floor(x * 100.0 + 0.5) / 100.0
    measureConstant: bv32,        // the temperature constant measureEC(temp) passes on
    calibrationTemp: bv32)        // the temperature calibrateProbe*(solution) passes on

  /** What a handler leaves behind: the device, as the bus and the driver's
      readings show it, and the reply. */
  datatype Device = Device(regs: Registers, pointer: nat, trace: Log, readings: Snapshot)
  datatype Outcome = Outcome(device: Device, reply: Reply)

  /** A calibration slot is answered with "-" while it holds NaN. */
  function SlotValue(f: bv32): JsonValue {
    if IsNaN(f) then Text("-") else Number(f)
  }

  /** Read a float register and answer with it. */
  function ReadSlot(d: Device, a: int, key: string, r: nat, nanDash: bool): Outcome
    requires r + 4 <= Size
  {
    var f := LoadFloat(d.regs, r);
    Outcome(d.(pointer := r + 4, trace := ReadFloatTrace(d.trace, a, d.regs, r)),
      Reply(key, if nanDash then SlotValue(f) else Number(f)))
  }

  /** ec_measure: measureEC at the parsed temperature (an empty parameter parses
      too), replying the conductivity in mS rounded to hundredths. */
  function MeasureHandler(fu: FloatUnit, cv: Conversions, d: Device, a: int, p: string): Outcome {
    var temp := cv.toFloat(p);
    var regs := MeasureEcRegs(d.regs, temp, cv.measureConstant);
    var readings := Measurement(fu, regs);
    Outcome(Device(regs, TempRegister + 4, MeasureEcTrace(d.trace, a, d.regs, temp, cv.measureConstant), readings),
      Reply(Name(Ec), Number(cv.centi(readings.mS))))
  }

  /** ec_temp_const and ec_temp_coeff: write the parsed value when a parameter is
      given, then read the register back and reply with it. */
  function SetterHandler(cv: Conversions, d: Device, a: int, key: string, r: nat, p: string): Outcome
    requires r + 4 <= Size
  {
    var primed := if |p| > 0 then d.(regs := StoreFloat(d.regs, r, cv.toFloat(p)),
      trace := FloatWriteTrace(d.trace, a, r, cv.toFloat(p))) else d;
    ReadSlot(primed, a, key, r, false)
  }

  /** ec_high_ref, ec_low_ref and ec_offset: calibrate with the parsed solution
      when a parameter is given, then read the slot shown and reply with it, or
      with "-" for NaN. */
  function CalibrateHandler(fu: FloatUnit, cv: Conversions, d: Device, a: int, key: string, op: bv8,
    result: nat, shown: nat, p: string): Outcome
    requires result + 4 <= Size && shown + 4 <= Size
  {
    var solution := cv.toFloat(p);
    var primed := if |p| > 0 then d.(regs := CalibrationRegs(fu, d.regs, solution, cv.calibrationTemp, op),
      trace := CalibrationTrace(d.trace, fu, a, d.regs, solution, cv.calibrationTemp, op, result)) else d;
    ReadSlot(primed, a, key, shown, true)
  }

  /** ec_temperature: measureTemp, replying the temperature rounded to hundredths. */
  function TemperatureHandler(fu: FloatUnit, cv: Conversions, d: Device, a: int): Outcome {
    var regs := StoreByte(d.regs, TaskRegister, MeasureTempCommand);
    var readings := Measurement(fu, regs);
    Outcome(Device(regs, TempRegister + 4, MeasurementTrace(CommandTrace(d.trace, a, MeasureTempCommand), a, regs), readings),
      Reply(Name(Ect), Number(cv.centi(readings.tempC))))
  }

  /** The register a calibration-slot command shows. */
  function ShownRegister(c: Command): nat {
    match c
    case Ehrf => RefHighRegister
    case Ehr => ReadHighRegister
    case Elrf => RefLowRegister
    case Elr => ReadLowRegister
    case _ => OffsetRegister
  }

  /** The handler of each command. */
  function Respond(fu: FloatUnit, cv: Conversions, d: Device, a: int, c: Command, p: string): Outcome {
    match c
    case Ec => MeasureHandler(fu, cv, d, a, p)
    case Etc => SetterHandler(cv, d, a, Name(Etc), TempCompensationRegister, p)
    case Eco => SetterHandler(cv, d, a, Name(Eco), TempCoefRegister, p)
    case Ehrf => CalibrateHandler(fu, cv, d, a, Name(Ehrf), CalibrateHighCommand, ReadHighRegister, RefHighRegister, p)
    case Ehr => ReadSlot(d, a, Name(Ehr), ReadHighRegister, true)
    case Elrf => CalibrateHandler(fu, cv, d, a, Name(Elrf), CalibrateLowCommand, ReadLowRegister, RefLowRegister, p)
    case Elr => ReadSlot(d, a, Name(Elr), ReadLowRegister, true)
    case Ecr => Outcome(d.(regs := ResetRegs(d.regs), pointer := ConfigRegister + 1, trace := ResetTrace(d.trace, a, d.regs)),
      Reply(Name(Ecr), Text(Name(Ecr))))
    case Ecc => Outcome(d.(pointer := VersionRegister + 1, trace := ReadByteTrace(d.trace, a, d.regs, VersionRegister)),
      Reply(Name(Ecc), Flag(d.regs[VersionRegister] != 0xFF)))
    case Eo => CalibrateHandler(fu, cv, d, a, Name(Eo), CalibrateProbeCommand, OffsetRegister, OffsetRegister, p)
    case Ect => TemperatureHandler(fu, cv, d, a)
  }

  /** The dispatch of processJSON on the two tokens: no reply and no effect for
      an unknown command. */
  function Serve(fu: FloatUnit, cv: Conversions, d: Device, a: int, q: Request): (Device, Option<Reply>) {
    match Lookup(q.command)
    case None => (d, None)
    case Some(c) => var o := Respond(fu, cv, d, a, c, q.parameter); (o.device, Some(o.reply))
  }

  /** processJSON: tokenize, then dispatch. */
  function Process(fu: FloatUnit, cv: Conversions, d: Device, a: int, json: string): (Device, Option<Reply>) {
    Serve(fu, cv, d, a, Tokenize(json))
  }

  /** The value field after a call: the whole serialised reply text, `{"key":...}`,
      parsed as a number, or -1 without a reply. */
  function ValueAfter(cv: Conversions, reply: Option<Reply>): bv32 {
    if reply.None? then MinusOne else cv.toFloat(cv.serialize(reply.value))
  }

  // --- properties of the adapter ----------------------------------------------------

  /** Every reply is a one-key object keyed by the command name. */
  lemma ReplyKeyIsName(fu: FloatUnit, cv: Conversions, d: Device, a: int, c: Command, p: string)
    ensures Respond(fu, cv, d, a, c, p).reply.key == Name(c)
  {
  }

  /** A reply comes back exactly when the command is recognised, and is keyed by
      the command; an unrecognised command changes nothing and yields value -1. */
  lemma ProcessReplies(fu: FloatUnit, cv: Conversions, d: Device, a: int, json: string)
    ensures Process(fu, cv, d, a, json).1.Some? <==> exists c: Command :: Name(c) == Tokenize(json).command
    ensures Process(fu, cv, d, a, json).1.Some? ==> Process(fu, cv, d, a, json).1.value.key == Tokenize(json).command
    ensures Process(fu, cv, d, a, json).1.None? ==>
      Process(fu, cv, d, a, json).0 == d && ValueAfter(cv, Process(fu, cv, d, a, json).1) == MinusOne
  {
    var q := Tokenize(json);
    match Lookup(q.command)
    case None =>
    case Some(c) => ReplyKeyIsName(fu, cv, d, a, c, q.parameter);
  }

  /** A recognised command followed by a parameter word runs that command's
      handler on that parameter. */
  lemma ProcessLine(fu: FloatUnit, cv: Conversions, d: Device, a: int, c: Command, p: string, tail: string)
    requires Word(p) && p != [] && (tail == [] || tail[0] == ' ')
    ensures var o := Respond(fu, cv, d, a, c, p);
      Process(fu, cv, d, a, Name(c) + " " + p + tail) == (o.device, Some(o.reply))
  {
    assert Word(Name(c));
    TokenizeLine(Name(c), p, tail);
    LookupName(c, Name(c));
  }

  /** The setter and calibration commands change the device only when given a
      parameter; without one they only read. */
  lemma EmptyParameterOnlyReads(fu: FloatUnit, cv: Conversions, d: Device, a: int, c: Command)
    requires c in {Etc, Eco, Ehrf, Elrf, Eo}
    ensures Respond(fu, cv, d, a, c, []).device.regs == d.regs
    ensures Respond(fu, cv, d, a, c, []).device.readings == d.readings
  {
  }

  /** With a parameter, etc and eco store the parsed value and reply with it as it reads back. */
  lemma SetterRepliesParameter(fu: FloatUnit, cv: Conversions, d: Device, a: int, c: Command, p: string)
    requires c in {Etc, Eco} && p != []
    ensures var r := if c == Etc then TempCompensationRegister else TempCoefRegister;
      var o := Respond(fu, cv, d, a, c, p);
      o.device.regs == StoreFloat(d.regs, r, cv.toFloat(p)) && o.reply == Reply(Name(c), Number(cv.toFloat(p)))
  {
    LoadAfterStore(d.regs, TempCompensationRegister, cv.toFloat(p));
    LoadAfterStore(d.regs, TempCoefRegister, cv.toFloat(p));
  }

  /** With a parameter, ehrf, elrf and eo run the matching calibration. */
  lemma CalibrationRuns(fu: FloatUnit, cv: Conversions, d: Device, a: int, c: Command, p: string)
    requires c in {Ehrf, Elrf, Eo} && p != []
    ensures var op := if c == Ehrf then CalibrateHighCommand else if c == Elrf then CalibrateLowCommand else CalibrateProbeCommand;
      Respond(fu, cv, d, a, c, p).device.regs == CalibrationRegs(fu, d.regs, cv.toFloat(p), cv.calibrationTemp, op)
  {
  }

  /** The calibration-slot replies are "-" exactly when the slot holds NaN, and
      the slot's value, as it stands after the command, otherwise. */
  lemma SlotRepliesDash(fu: FloatUnit, cv: Conversions, d: Device, a: int, c: Command, p: string)
    requires c in {Ehrf, Ehr, Elrf, Elr, Eo}
    ensures var o := Respond(fu, cv, d, a, c, p);
      var f := LoadFloat(o.device.regs, ShownRegister(c));
      (o.reply.value == Text("-") <==> IsNaN(f)) && (!IsNaN(f) ==> o.reply.value == Number(f))
  {
  }

  /** Only ec and ect take a measurement; every other command leaves the readings alone. */
  lemma ReadingsOnlyFromMeasurements(fu: FloatUnit, cv: Conversions, d: Device, a: int, c: Command, p: string)
    requires c != Ec && c != Ect
    ensures Respond(fu, cv, d, a, c, p).device.readings == d.readings
  {
  }

  /** ecc answers whether the version register differs from 0xFF, and ecr answers "ecr" after a reset. */
  lemma ConnectedAndReset(fu: FloatUnit, cv: Conversions, d: Device, a: int, p: string)
    ensures Respond(fu, cv, d, a, Ecc, p).reply.value == Flag(d.regs[VersionRegister] != 0xFF)
    ensures Respond(fu, cv, d, a, Ecc, p).device.regs == d.regs
    ensures Respond(fu, cv, d, a, Ecr, p).device.regs == ResetRegs(d.regs)
    ensures Respond(fu, cv, d, a, Ecr, p).reply == Reply("ecr", Text("ecr"))
  {
  }

  // --- the adapter ----------------------------------------------------------------

  class JsonAdapter {
    /** The driver the adapter was pointed at with begin. */
    var ec: UfireEc
    const cv: Conversions
    /** The number the last reply parses to, or -1 after an unrecognised line. */
    var value: bv32

    /** The empty constructor followed by begin(ec); the float member starts as given. */
    constructor (ec: UfireEc, cv: Conversions, initial: bv32)
      ensures this.ec == ec && this.cv == cv && value == initial
    {
      this.ec := ec;
      this.cv := cv;
      value := initial;
    }

    method Begin(p: UfireEc)
      modifies this
      ensures ec == p && value == old(value)
    {
      ec := p;
    }

    /** The driver state the handlers act on. */
    function Observed(): Device
      reads this`ec, ec, ec.bus
    {
      Device(ec.bus.regs, ec.bus.pointer, ec.bus.trace, ec.readings)
    }

    /** ec_measure. */
    method Measure(temperature: string) returns (reply: Reply)
      modifies ec, ec.bus
      ensures ec.address == old(ec.address) && ec.ecDelay == old(ec.ecDelay) && ec.blocking == old(ec.blocking)
      ensures var o := MeasureHandler(ec.fu, cv, old(Observed()), ec.address, temperature);
        Observed() == o.device && reply == o.reply
    {
      var mS := ec.MeasureEC(cv.toFloat(temperature), cv.measureConstant);
      reply := Reply(Name(Ec), Number(cv.centi(mS)));
    }

    /** ec_temperature. */
    method Temperature() returns (reply: Reply)
      modifies ec, ec.bus
      ensures ec.address == old(ec.address) && ec.ecDelay == old(ec.ecDelay) && ec.blocking == old(ec.blocking)
      ensures var o := TemperatureHandler(ec.fu, cv, old(Observed()), ec.address);
        Observed() == o.device && reply == o.reply
    {
      var t := ec.MeasureTemp();
      reply := Reply(Name(Ect), Number(cv.centi(t)));
    }

    /** ec_temp_const. */
    method TempConstant(parameter: string) returns (reply: Reply)
      modifies ec.bus
      ensures var o := SetterHandler(cv, old(Observed()), ec.address, Name(Etc), TempCompensationRegister, parameter);
        Observed() == o.device && reply == o.reply
    {
      if |parameter| > 0 {
        ec.SetTempConstant(cv.toFloat(parameter));
      }
      var f := ec.GetTempConstant();
      reply := Reply(Name(Etc), Number(f));
    }

    /** ec_temp_coeff. */
    method TempCoefficient(parameter: string) returns (reply: Reply)
      modifies ec.bus
      ensures var o := SetterHandler(cv, old(Observed()), ec.address, Name(Eco), TempCoefRegister, parameter);
        Observed() == o.device && reply == o.reply
    {
      if |parameter| > 0 {
        ec.SetTempCoefficient(cv.toFloat(parameter));
      }
      var f := ec.GetTempCoefficient();
      reply := Reply(Name(Eco), Number(f));
    }

    /** ec_high_ref. */
    method HighReference(parameter: string) returns (reply: Reply)
      modifies ec.bus
      ensures var o := CalibrateHandler(ec.fu, cv, old(Observed()), ec.address, Name(Ehrf), CalibrateHighCommand,
        ReadHighRegister, RefHighRegister, parameter);
        Observed() == o.device && reply == o.reply
    {
      if |parameter| > 0 {
        var _ := ec.CalibrateProbeHigh(cv.toFloat(parameter), cv.calibrationTemp);
      }
      var f := ec.GetCalibrateHighReference();
      reply := Reply(Name(Ehrf), SlotValue(f));
    }

    /** ec_high_read. */
    method HighReading() returns (reply: Reply)
      modifies ec.bus
      ensures var o := ReadSlot(old(Observed()), ec.address, Name(Ehr), ReadHighRegister, true);
        Observed() == o.device && reply == o.reply
    {
      var f := ec.GetCalibrateHighReading();
      reply := Reply(Name(Ehr), SlotValue(f));
    }

    /** ec_low_ref. */
    method LowReference(parameter: string) returns (reply: Reply)
      modifies ec.bus
      ensures var o := CalibrateHandler(ec.fu, cv, old(Observed()), ec.address, Name(Elrf), CalibrateLowCommand,
        ReadLowRegister, RefLowRegister, parameter);
        Observed() == o.device && reply == o.reply
    {
      if |parameter| > 0 {
        var _ := ec.CalibrateProbeLow(cv.toFloat(parameter), cv.calibrationTemp);
      }
      var f := ec.GetCalibrateLowReference();
      reply := Reply(Name(Elrf), SlotValue(f));
    }

    /** ec_low_read. */
    method LowReading() returns (reply: Reply)
      modifies ec.bus
      ensures var o := ReadSlot(old(Observed()), ec.address, Name(Elr), ReadLowRegister, true);
        Observed() == o.device && reply == o.reply
    {
      var f := ec.GetCalibrateLowReading();
      reply := Reply(Name(Elr), SlotValue(f));
    }

    /** ec_offset. */
    method Offset(parameter: string) returns (reply: Reply)
      modifies ec.bus
      ensures var o := CalibrateHandler(ec.fu, cv, old(Observed()), ec.address, Name(Eo), CalibrateProbeCommand,
        OffsetRegister, OffsetRegister, parameter);
        Observed() == o.device && reply == o.reply
    {
      if |parameter| > 0 {
        var _ := ec.CalibrateProbe(cv.toFloat(parameter), cv.calibrationTemp);
      }
      var f := ec.GetCalibrateOffset();
      reply := Reply(Name(Eo), SlotValue(f));
    }

    /** ec_reset. */
    method ResetDevice() returns (reply: Reply)
      modifies ec.bus
      ensures var o := Respond(ec.fu, cv, old(Observed()), ec.address, Ecr, []);
        Observed() == o.device && reply == o.reply
    {
      reply := Reply(Name(Ecr), Text(Name(Ecr)));
      ec.Reset();
    }

    /** ec_connected. */
    method IsConnected() returns (reply: Reply)
      modifies ec.bus
      ensures var o := Respond(ec.fu, cv, old(Observed()), ec.address, Ecc, []);
        Observed() == o.device && reply == o.reply
    {
      var c := ec.Connected();
      reply := Reply(Name(Ecc), Flag(c));
    }

    /** The handler processJSON's tests select for c. */
    method Dispatch(c: Command, parameter: string) returns (reply: Reply)
      modifies ec, ec.bus
      ensures ec.address == old(ec.address) && ec.ecDelay == old(ec.ecDelay) && ec.blocking == old(ec.blocking)
      ensures var o := Respond(ec.fu, cv, old(Observed()), ec.address, c, parameter);
        Observed() == o.device && reply == o.reply
    {
      match c
      case Ec => reply := Measure(parameter);
      case Etc => reply := TempConstant(parameter);
      case Eco => reply := TempCoefficient(parameter);
      case Ehrf => reply := HighReference(parameter);
      case Ehr => reply := HighReading();
      case Elrf => reply := LowReference(parameter);
      case Elr => reply := LowReading();
      case Ecr => reply := ResetDevice();
      case Ecc => reply := IsConnected();
      case Eo => reply := Offset(parameter);
      case Ect => reply := Temperature();
    }

    /** The tests of processJSON on the command token, and the one handler that matches. */
    method Answer(q: Request) returns (reply: Option<Reply>)
      modifies ec, ec.bus
      ensures ec.address == old(ec.address) && ec.ecDelay == old(ec.ecDelay) && ec.blocking == old(ec.blocking)
      ensures (Observed(), reply) == Serve(ec.fu, cv, old(Observed()), ec.address, q)
    {
      reply := None;
      var c := Lookup(q.command);
      if c.Some? {
        var r := Dispatch(c.value, q.parameter);
        reply := Some(r);
      }
    }

    /** processJSON: the tokens, then the handler the command names, if any; the
        value field records the reply's number, or -1 when there is no reply. */
    method ProcessJson(json: string) returns (reply: Option<Reply>)
      modifies this, ec, ec.bus
      ensures ec == old(ec) && ec.address == old(ec.address) && ec.ecDelay == old(ec.ecDelay)
      ensures ec.blocking == old(ec.blocking)
      ensures (Observed(), reply) == Process(ec.fu, cv, old(Observed()), ec.address, json)
      ensures value == ValueAfter(cv, reply)
    {
      var q := Tokenize(json);
      reply := Answer(q);
      if reply.Some? {
        value := cv.toFloat(cv.serialize(reply.value));
      } else {
        value := MinusOne;
      }
    }
  }
}
