/** The Keithley 2182 nano-voltmeter driver: every call is one `go` (a write)
    or one `query` (a write and a read) on the instrument, and replies are
    post-processed by stripping whitespace and splitting at commas. */
module Keithley2182Driver {
  import opened Python
  import opened Strings
  import opened Wire

  /** The command that triggers a single reading. */
  const TriggerOnce: string := ":TRIGger:COUNt 1"
  /** The query that takes and returns a reading. */
  const ReadQuery: string := ":READ?"
  /** The lowest and highest integration rates (in power-line cycles) the
      instrument accepts at 50 Hz. */
  const MinNplc: real := 0.01
  const MaxNplc: real := 50.0

  /** `received.strip().split(',')` */
  function ReplyFields(reply: string): (fields: seq<string>)
    ensures |fields| >= 1
    ensures forall k :: 0 <= k < |fields| ==> ',' !in fields[k]
  {
    Split(Strip(reply, Whitespace), ',')
  }

  /** The fields of a reply: at least one, none holding a comma, and joined
      with commas they give back the reply without its surrounding whitespace. */
  lemma {:induction false} ReplyFieldsSpec(reply: string)
    ensures var fields := ReplyFields(reply);
      && |fields| >= 1
      && (forall k :: 0 <= k < |fields| ==> ',' !in fields[k])
      && Join(fields, ',') == Strip(reply, Whitespace)
  {
    JoinSplit(Strip(reply, Whitespace), ',');
  }

  /** A comma-separated reply with whitespace around it (the terminator, say)
      decodes to its fields. */
  lemma {:induction false} ReplyFieldsOfJoin(fields: seq<string>, pre: string, post: string)
    requires |fields| >= 1
    requires forall k :: 0 <= k < |fields| ==> ',' !in fields[k]
    requires var t := Join(fields, ','); t != [] && t[0] !in Whitespace && t[|t| - 1] !in Whitespace
    requires forall k :: 0 <= k < |pre| ==> pre[k] in Whitespace
    requires forall k :: 0 <= k < |post| ==> post[k] in Whitespace
    ensures ReplyFields(pre + Join(fields, ',') + post) == fields
  {
    StripPadded(pre, Join(fields, ','), post, Whitespace);
    SplitJoin(fields, ',');
  }

  /** `float(reply.strip().split(',')[0])`: the number in the first field. */
  function Voltage(reply: string, floats: FloatCodec): (r: Result<real>)
    ensures r.Ok? <==> floats.parse(ReplyFields(reply)[0]).Some?
    ensures r.Ok? ==> floats.parse(ReplyFields(reply)[0]) == Some(r.value)
    ensures r.Err? ==> r.error == ValueError
  {
    match floats.parse(ReplyFields(reply)[0])
    case None => Err(ValueError)
    case Some(x) => Ok(x)
  }

  /** A reply whose first field is a formatted voltage reads back as that
      voltage, whatever fields and terminator follow it. */
  lemma {:induction false} VoltageRoundTrip(v: real, rest: seq<string>, post: string, floats: FloatCodec)
    requires floats.parse(floats.format(v)) == Some(v)
    requires var t := floats.format(v); t != [] && ',' !in t && t[0] !in Whitespace
    requires forall k :: 0 <= k < |rest| ==> ',' !in rest[k]
    requires var t := Join([floats.format(v)] + rest, ','); t[|t| - 1] !in Whitespace
    requires forall k :: 0 <= k < |post| ==> post[k] in Whitespace
    ensures Voltage(Join([floats.format(v)] + rest, ',') + post, floats) == Ok(v)
  {
    var fields := [floats.format(v)] + rest;
    var t := Join(fields, ',');
    assert t != [] && t[0] == fields[0][0] by {
      if |fields| > 1 {
        assert t == fields[0] + [','] + Join(fields[1..], ',');
      }
    }
    assert [] + t + post == t + post;
    ReplyFieldsOfJoin(fields, [], post);
  }

  /** `':SENSe:VOLTage:DC:NPLC ' + nplc` */
  function NplcCommand(nplc: string): string {
    ":SENSe:VOLTage:DC:NPLC " + nplc
  }

  /** The writes of the three independent `if value == name` tests that pick a
      named rate: `FAS` 0.1, `MED` 1 and `SLO` 5 power-line cycles. */
  function RateCommands(value: Value): (writes: seq<Transaction>)
    ensures |writes| <= 1
    ensures forall k :: 0 <= k < |writes| ==> writes[k].Write?
  {
    (if value == PyStr("FAS") then [Write(NplcCommand("0.1"))] else [])
    + (if value == PyStr("MED") then [Write(NplcCommand("1"))] else [])
    + (if value == PyStr("SLO") then [Write(NplcCommand("5"))] else [])
  }

  /** The rate that an integration time of `nplc` cycles is named by. */
  function RateName(nplc: string): Option<string> {
    if nplc == "0.1" then Some("FAS")
    else if nplc == "1" then Some("MED")
    else if nplc == "5" then Some("SLO")
    else None
  }

  /** A named rate sends exactly one NPLC write, whose value names that rate
      back; any other value sends nothing. */
  lemma {:induction false} RateCommandsSpec(value: Value)
    ensures |RateCommands(value)| <= 1
    ensures RateCommands(value) != [] <==> value.PyStr? && value.s in {"FAS", "MED", "SLO"}
    ensures RateCommands(value) != [] ==>
      exists nplc :: RateCommands(value) == [Write(NplcCommand(nplc))] && RateName(nplc) == Some(value.s)
  {
    if value == PyStr("FAS") {
      assert RateCommands(value) == [Write(NplcCommand("0.1"))];
    } else if value == PyStr("MED") {
      assert RateCommands(value) == [Write(NplcCommand("1"))];
    } else if value == PyStr("SLO") {
      assert RateCommands(value) == [Write(NplcCommand("5"))];
    } else {
      assert !(value.PyStr? && value.s in {"FAS", "MED", "SLO"});
    }
  }

  /** The range test as written, `0.01 > num > 50`. */
  predicate GuardAsWritten(num: real) {
    MinNplc > num > MaxNplc
  }

  /** The range test as intended: `num` outside [0.01, 50]. */
  predicate OutOfRange(num: real) {
    !(MinNplc <= num <= MaxNplc)
  }

  /** No number is below 0.01 and above 50 at once, so the guard as written
      refuses nothing, while the intended one refuses every rate outside the range. */
  lemma GuardDiscrepancy(num: real)
    ensures !GuardAsWritten(num)
    ensures OutOfRange(num) <==> num < MinNplc || num > MaxNplc
  {
  }

  class Keithley2182 {
    const device: Device
    const floats: FloatCodec

    constructor (device: Device, floats: FloatCodec)
      ensures this.device == device && this.floats == floats
    {
      this.device := device;
      this.floats := floats;
    }

    /** Send a command and return the fields of the reply. */
    method Query(command: string) returns (r: Result<seq<string>>)
      modifies device
      ensures device.log == old(device.log) + [Transaction.Query(command)]
      ensures old(device.replies) == [] ==> r == Err(Timeout) && device.replies == []
      ensures old(device.replies) != [] ==>
                r == Ok(ReplyFields(old(device.replies)[0])) && device.replies == old(device.replies)[1..]
    {
      var received := device.Query(command);
      match received
      case Err(e) =>
        r := Err(e);
      case Ok(reply) =>
        r := Ok(ReplyFields(reply));
    }

    /** Send a command; nothing is read. */
    method Go(command: string)
      modifies device
      ensures device.log == old(device.log) + [Write(command)]
      ensures device.replies == old(device.replies)
    {
      device.Write(command);
    }

    /** Trigger one reading and return the number in the first field of the reply. */
    method MeasureVoltage() returns (r: Result<real>)
      modifies device
      ensures device.log == old(device.log) + [Write(TriggerOnce), Transaction.Query(ReadQuery)]
      ensures old(device.replies) == [] ==> r == Err(Timeout) && device.replies == []
      ensures old(device.replies) != [] ==>
                r == Voltage(old(device.replies)[0], floats) && device.replies == old(device.replies)[1..]
    {
      Go(TriggerOnce);
      var fields := Query(ReadQuery);
      match fields
      case Err(e) =>
        r := Err(e);
      case Ok(fs) =>
        match floats.parse(fs[0])
        case None =>
          r := Err(ValueError);
        case Some(x) =>
          r := Ok(x);
    }

    /** As written, the display is switched on through the undefined `go8`:
        the attribute lookup fails before anything is sent. */
    method DisplayOnAsWritten() returns (r: Result<()>)
      ensures r == Err(AttributeError)
    {
      r := Err(AttributeError);
    }

    /** Switch the front-panel display on. */
    method DisplayOn()
      modifies device
      ensures device.log == old(device.log) + [Write(":DISPlay:ENABle ON")]
      ensures device.replies == old(device.replies)
    {
      Go(":DISPlay:ENABle ON");
    }

    /** Switch the front-panel display off. */
    method DisplayOff()
      modifies device
      ensures device.log == old(device.log) + [Write(":DISPlay:ENABle OFF")]
      ensures device.replies == old(device.replies)
    {
      Go(":DISPlay:ENABle OFF");
    }

    /** Set the integration rate by name (`num` absent) or by a number of
        power-line cycles, with the range test as written. Comparing a text
        with a number raises a TypeError. */
    method SetRateAsWritten(value: Value := PyStr("MED"), num: Value := PyNone) returns (r: Result<()>)
      modifies device
      ensures num.PyNone? ==> r == Ok(()) && device.log == old(device.log) + RateCommands(value)
      ensures !num.PyNone? && NumberOf(num).None? ==> r == Err(TypeError) && device.log == old(device.log)
      ensures NumberOf(num).Some? ==>
                r == Ok(()) && device.log == old(device.log) + [Write(NplcCommand(Format(num, floats)))]
      ensures device.replies == old(device.replies)
    {
      if num.PyNone? {
        if value == PyStr("FAS") {
          Go(NplcCommand("0.1"));
        }
        if value == PyStr("MED") {
          Go(NplcCommand("1"));
        }
        if value == PyStr("SLO") {
          Go(NplcCommand("5"));
        }
        r := Ok(());
      } else {
        match NumberOf(num)
        case None =>
          r := Err(TypeError);
        case Some(x) =>
          if GuardAsWritten(x) {
            r := Err(InvalidArgument);
          } else {
            Go(NplcCommand(Format(num, floats)));
            r := Ok(());
          }
      }
    }

    /** Set the integration rate, refusing a number of power-line cycles
        outside [0.01, 50] before anything is sent. */
    method SetRate(value: Value := PyStr("MED"), num: Value := PyNone) returns (r: Result<()>)
      modifies device
      ensures num.PyNone? ==> r == Ok(()) && device.log == old(device.log) + RateCommands(value)
      ensures !num.PyNone? && NumberOf(num).None? ==> r == Err(TypeError) && device.log == old(device.log)
      ensures NumberOf(num).Some? && OutOfRange(NumberOf(num).value) ==>
                r == Err(InvalidArgument) && device.log == old(device.log)
      ensures NumberOf(num).Some? && !OutOfRange(NumberOf(num).value) ==>
                r == Ok(()) && device.log == old(device.log) + [Write(NplcCommand(Format(num, floats)))]
      ensures device.replies == old(device.replies)
    {
      if num.PyNone? {
        if value == PyStr("FAS") {
          Go(NplcCommand("0.1"));
        }
        if value == PyStr("MED") {
          Go(NplcCommand("1"));
        }
        if value == PyStr("SLO") {
          Go(NplcCommand("5"));
        }
        r := Ok(());
      } else {
        match NumberOf(num)
        case None =>
          r := Err(TypeError);
        case Some(x) =>
          if OutOfRange(x) {
            r := Err(InvalidArgument);
          } else {
            Go(NplcCommand(Format(num, floats)));
            r := Ok(());
          }
      }
    }
  }

  /** A rate of 100 power-line cycles: sent as written, refused as intended. */
  method SetRateDiscrepancy()
  {
    var device := new Device([]);
    var meter := new Keithley2182(device, FloatCodec(x => "", s => None));
    var asWritten := meter.SetRateAsWritten(PyStr("MED"), PyInt(100));
    assert asWritten == Ok(()) && device.log == [Write(NplcCommand(IntToString(100)))];
    device := new Device([]);
    meter := new Keithley2182(device, FloatCodec(x => "", s => None));
    var intended := meter.SetRate(PyStr("MED"), PyInt(100));
    assert intended == Err(InvalidArgument) && device.log == [];
  }

  /** Switching the display on: fails as written, sends the command as intended. */
  method DisplayOnDiscrepancy()
  {
    var device := new Device([]);
    var meter := new Keithley2182(device, FloatCodec(x => "", s => None));
    var asWritten := meter.DisplayOnAsWritten();
    assert asWritten.Err? && device.log == [];
    meter.DisplayOn();
    assert device.log == [Write(":DISPlay:ENABle ON")];
  }
}
