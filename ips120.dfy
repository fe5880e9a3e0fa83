/** Driver for the Oxford Instruments IPS 120-10 magnet power supply.
    Setters check their argument and then write one `$`-command; readers send
    an `R`-query and decode the reply; `WaitForField` polls field and set
    point until they agree or a deadline passes. */
module Ips120Driver {
  import opened Python
  import opened Strings
  import opened Wire

  /** The largest field magnitude, in tesla, that a set point may not reach. */
  const MaxField: real := 8.0

  /** Seconds slept between two polls of `WaitForField`. */
  const PollInterval: real := 5.0

  /** The characters a reader strips from both ends of a reply. */
  const ReplyMarks: set<char> := {'R', '+'}

  /** The command `"$" + letter + str(state)` of a setter whose valid states
      are the integers 0 .. count - 1; anything else is refused. */
  function StateCommand(letter: char, state: Value, count: nat, floats: FloatCodec): (r: Result<string>)
    ensures r.Ok? <==> IsInt(state) && 0 <= IntOf(state) < count
    ensures r.Ok? ==> r.value == ['$', letter] + Format(state, floats)
    ensures r.Err? ==> r.error == InvalidArgument
  {
    if !IsInt(state) then Err(InvalidArgument)
    else if !(0 <= IntOf(state) < count) then Err(InvalidArgument)
    else Ok(['$', letter] + Format(state, floats))
  }

  /** The command of `setFieldSetpoint`: the field must be a number of
      magnitude strictly below `MaxField`; `abs` of a non-number raises. */
  function FieldCommand(field: Value, floats: FloatCodec): (r: Result<string>)
    ensures NumberOf(field).None? ==> r == Err(TypeError)
    ensures NumberOf(field).Some? && Abs(NumberOf(field).value) >= MaxField ==> r == Err(InvalidArgument)
    ensures r.Ok? <==> NumberOf(field).Some? && Abs(NumberOf(field).value) < MaxField
    ensures r.Ok? ==> r.value == "$J" + Format(field, floats)
  {
    match NumberOf(field)
    case None => Err(TypeError)
    case Some(x) => if Abs(x) < MaxField then Ok("$J" + Format(field, floats)) else Err(InvalidArgument)
  }

  /** The command of `setDisplay`: `'amps'` is mode 8, `'tesla'` mode 9. */
  function DisplayCommand(display: Value): (r: Result<string>)
    ensures display == PyStr("amps") ==> r == Ok("$M8")
    ensures display == PyStr("tesla") ==> r == Ok("$M9")
    ensures display != PyStr("amps") && display != PyStr("tesla") ==> r == Err(InvalidArgument)
  {
    if display == PyStr("amps") then Ok("$M8")
    else if display == PyStr("tesla") then Ok("$M9")
    else Err(InvalidArgument)
  }

  /** How the power supply reads a `$`-command with a numeric argument: the
      command letter and the decimal number after it. */
  function DecodeSetting(command: string): Option<(char, nat)> {
    if |command| >= 3 && command[0] == '$' && forall k :: 2 <= k < |command| ==> '0' <= command[k] <= '9'
    then Some((command[1], ParseDigits(command[2..])))
    else None
  }

  /** A valid integer state round-trips through its command. */
  lemma {:induction false} StateCommandRoundTrip(letter: char, state: int, count: nat, floats: FloatCodec)
    requires 0 <= state < count
    ensures StateCommand(letter, PyInt(state), count, floats).Ok?
    ensures DecodeSetting(StateCommand(letter, PyInt(state), count, floats).value) == Some((letter, state))
  {
    var cmd := StateCommand(letter, PyInt(state), count, floats).value;
    assert cmd[2..] == NatToString(state);
    NatToStringRoundTrip(state);
  }

  /** `bool` passes the `isinstance(state, int)` check, but its command spells
      `True`/`False`, which is not a state number the supply can read. */
  lemma BoolStateIsNotANumber(letter: char, b: bool, floats: FloatCodec)
    ensures StateCommand(letter, PyBool(b), 4, floats).Ok?
    ensures DecodeSetting(StateCommand(letter, PyBool(b), 4, floats).value) == None
  {
    var cmd := StateCommand(letter, PyBool(b), 4, floats).value;
    assert !('0' <= cmd[2] <= '9');
  }

  /** The display modes round-trip through their commands. */
  lemma DisplayCommandRoundTrip()
    ensures DecodeSetting(DisplayCommand(PyStr("amps")).value) == Some(('M', 8))
    ensures DecodeSetting(DisplayCommand(PyStr("tesla")).value) == Some(('M', 9))
  {
    assert "$M8"[2..] == "8" && "$M9"[2..] == "9";
    assert ParseDigits("8") == 10 * ParseDigits([]) + 8 by { assert "8"[..0] == []; }
    assert ParseDigits("9") == 10 * ParseDigits([]) + 9 by { assert "9"[..0] == []; }
  }

  /** The evidently intended decoding of a reply to `R7`, `R8` or `R9`: an
      empty reply fails on indexing its first character, a reply not led by
      `R` is refused, and otherwise the number left after stripping `R` and
      `+` from both ends is parsed. */
  function Reading(reply: string, floats: FloatCodec): (r: Result<real>)
    ensures reply == [] ==> r == Err(IndexError)
    ensures reply != [] && reply[0] != 'R' ==> r == Err(BadReply)
    ensures r.Ok? <==> reply != [] && reply[0] == 'R' && floats.parse(Strip(reply, ReplyMarks)).Some?
    ensures r.Ok? ==> floats.parse(Strip(reply, ReplyMarks)) == Some(r.value)
  {
    if reply == [] then Err(IndexError)
    else if reply[0] != 'R' then Err(BadReply)
    else match floats.parse(Strip(reply, ReplyMarks))
      case None => Err(ValueError)
      case Some(x) => Ok(x)
  }

  /** The reading the next reply in the queue gives; no reply is a timeout. */
  function NextReading(replies: seq<string>, floats: FloatCodec): (r: Result<real>)
    ensures replies == [] ==> r == Err(Timeout)
    ensures replies != [] ==> r == Reading(replies[0], floats)
  {
    if replies == [] then Err(Timeout) else Reading(replies[0], floats)
  }

  /** A value the supply reports as `R` or `R+` followed by its formatted
      text reads back as that value, whenever the text itself parses back and
      neither starts nor ends with `R` or `+`. */
  lemma {:induction false} ReadingRoundTrip(x: real, floats: FloatCodec)
    requires floats.parse(floats.format(x)) == Some(x)
    requires var t := floats.format(x); t != [] && t[0] !in ReplyMarks && t[|t| - 1] !in ReplyMarks
    ensures Reading("R" + floats.format(x), floats) == Ok(x)
    ensures Reading("R+" + floats.format(x), floats) == Ok(x)
  {
    var t := floats.format(x);
    StripAfterPrefix("R", t, ReplyMarks);
    StripAfterPrefix("R+", t, ReplyMarks);
  }

  /** A set point in range is written as `$J` and the formatted value; a
      supply that reports it back as `R` and the same text gives back the
      same value. */
  lemma SetpointRoundTrip(x: real, floats: FloatCodec)
    requires Abs(x) < MaxField
    requires floats.parse(floats.format(x)) == Some(x)
    requires var t := floats.format(x); t != [] && t[0] !in ReplyMarks && t[|t| - 1] !in ReplyMarks
    ensures FieldCommand(PyFloat(x), floats) == Ok("$J" + floats.format(x))
    ensures Reading("R" + FieldCommand(PyFloat(x), floats).value[2..], floats) == Ok(x)
  {
    assert ("$J" + floats.format(x))[2..] == floats.format(x);
    ReadingRoundTrip(x, floats);
  }

  /** The reading each queued reply decodes to, in order. */
  function Readings(replies: seq<string>, floats: FloatCodec): (rs: seq<Result<real>>)
    ensures |rs| == |replies|
  {
    if replies == [] then [] else [Reading(replies[0], floats)] + Readings(replies[1..], floats)
  }

  lemma {:induction false} ReadingsAt(replies: seq<string>, i: nat, floats: FloatCodec)
    requires i < |replies|
    ensures Readings(replies, floats)[i] == Reading(replies[i], floats)
  {
    if i > 0 {
      ReadingsAt(replies[1..], i - 1, floats);
    }
  }

  /** Dropping replies from the queue drops their readings. */
  lemma {:induction false} ReadingsDrop(replies: seq<string>, i: nat, floats: FloatCodec)
    requires i <= |replies|
    ensures Readings(replies, floats)[i..] == Readings(replies[i..], floats)
  {
    if i > 0 {
      ReadingsDrop(replies[1..], i - 1, floats);
      assert replies[1..][i - 1..] == replies[i..];
    }
  }

  /** One poll of `WaitForField` over the readings still to come: the field,
      then the set point, and whether they lie closer than the margin. A
      missing reading is a read timeout. */
  function Poll(rs: seq<Result<real>>, margin: real): (r: Result<bool>)
    ensures r.Ok? <==> |rs| >= 2 && rs[0].Ok? && rs[1].Ok?
    ensures r.Ok? ==> r.value == (Abs(rs[0].value - rs[1].value) < margin)
    ensures rs != [] && rs[0].Err? ==> r == Err(rs[0].error)
  {
    if rs == [] then Err(Timeout)
    else match rs[0]
      case Err(e) => Err(e)
      case Ok(field) =>
        if |rs| == 1 then Err(Timeout)
        else match rs[1]
          case Err(e) => Err(e)
          case Ok(setPoint) => Ok(Abs(field - setPoint) < margin)
  }

  /** The transactions of one poll: the set point is not queried when reading
      the field already failed. */
  function PollQueries(rs: seq<Result<real>>): seq<Transaction> {
    if rs == [] || rs[0].Err? then [Query("R7")] else [Query("R7"), Query("R8")]
  }

  /** Poll number `k` (from 0) over the readings of a wait. */
  function PollAt(rs: seq<Result<real>>, k: nat, margin: real): Result<bool> {
    Poll(if 2 * k <= |rs| then rs[2 * k..] else [], margin)
  }

  /** The outcome of a wait that began `n` polls over the readings `rs` and
      stops at the first poll that fails or finds the field on target: the
      result so far (`Ok(false)` while no poll has decided) and the
      transactions issued. */
  function Run(rs: seq<Result<real>>, n: nat, margin: real): (run: (Result<bool>, seq<Transaction>))
    decreases n
  {
    if n == 0 then (Ok(false), [])
    else
      var (r, log) := Run(rs, n - 1, margin);
      if r != Ok(false) then (r, log)
      else (PollAt(rs, n - 1, margin), log + PollQueries(if 2 * (n - 1) <= |rs| then rs[2 * (n - 1)..] else []))
  }

  /** Once a poll has decided the wait, further polls change nothing: the
      wait has stopped. */
  lemma {:induction false} RunSettles(rs: seq<Result<real>>, n: nat, m: nat, margin: real)
    requires n <= m && Run(rs, n, margin).0 != Ok(false)
    ensures Run(rs, m, margin) == Run(rs, n, margin)
    decreases m
  {
    if m > n {
      RunSettles(rs, n, m - 1, margin);
    }
  }

  /** A wait is still undecided after `n` polls exactly when each of them
      found the field off target; it then issued both queries `n` times. */
  lemma {:induction false} RunUndecided(rs: seq<Result<real>>, n: nat, margin: real)
    ensures Run(rs, n, margin).0 == Ok(false) <==> forall k :: 0 <= k < n ==> PollAt(rs, k, margin) == Ok(false)
    ensures Run(rs, n, margin).0 == Ok(false) ==> |Run(rs, n, margin).1| == 2 * n
    decreases n
  {
    if n > 0 {
      RunUndecided(rs, n - 1, margin);
    }
  }

  /** A wait decided by its last poll has that poll's result. */
  lemma {:induction false} RunDecidedByLast(rs: seq<Result<real>>, n: nat, margin: real)
    requires n > 0 && Run(rs, n - 1, margin).0 == Ok(false)
    ensures Run(rs, n, margin).0 == PollAt(rs, n - 1, margin)
  {
  }

  class Ips120 {
    const device: Device
    const floats: FloatCodec

    constructor (device: Device, floats: FloatCodec)
      ensures this.device == device && this.floats == floats
    {
      this.device := device;
      this.floats := floats;
    }

    /** Write the command when there is one; report the refusal otherwise. */
    method Send(command: Result<string>) returns (r: Result<()>)
      modifies device
      ensures command.Ok? ==> r == Ok(()) && device.log == old(device.log) + [Write(command.value)]
      ensures command.Err? ==> r == Err(command.error) && device.log == old(device.log)
      ensures device.replies == old(device.replies)
    {
      match command
      case Err(e) =>
        r := Err(e);
      case Ok(c) =>
        device.Write(c);
        r := Ok(());
    }

    /** Set LOCAL/REMOTE control: 0 local & locked .. 3 remote & unlocked. */
    method SetControl(state: Value := PyInt(3)) returns (r: Result<()>)
      modifies device
      ensures IsInt(state) && 0 <= IntOf(state) <= 3 ==>
                r == Ok(()) && device.log == old(device.log) + [Write("$C" + Format(state, floats))]
      ensures !(IsInt(state) && 0 <= IntOf(state) <= 3) ==>
                r == Err(InvalidArgument) && device.log == old(device.log)
      ensures device.replies == old(device.replies)
    {
      r := Send(StateCommand('C', state, 4, floats));
    }

    /** Set the field activity: 0 hold, 1 to set point, 2 to zero, 3 clamp. */
    method SetActivity(state: Value := PyInt(1)) returns (r: Result<()>)
      modifies device
      ensures IsInt(state) && 0 <= IntOf(state) <= 3 ==>
                r == Ok(()) && device.log == old(device.log) + [Write("$A" + Format(state, floats))]
      ensures !(IsInt(state) && 0 <= IntOf(state) <= 3) ==>
                r == Err(InvalidArgument) && device.log == old(device.log)
      ensures device.replies == old(device.replies)
    {
      r := Send(StateCommand('A', state, 4, floats));
    }

    /** Set the switch heater: 0 off, 1 on if the supply matches the magnet,
        2 on without checks. State 3 is refused. */
    method SetSwitchHeater(state: Value := PyInt(1)) returns (r: Result<()>)
      modifies device
      ensures IsInt(state) && 0 <= IntOf(state) <= 2 ==>
                r == Ok(()) && device.log == old(device.log) + [Write("$H" + Format(state, floats))]
      ensures !(IsInt(state) && 0 <= IntOf(state) <= 2) ==>
                r == Err(InvalidArgument) && device.log == old(device.log)
      ensures device.replies == old(device.replies)
    {
      r := Send(StateCommand('H', state, 3, floats));
    }

    /** Set the field set point in tesla; |field| must stay below 8. */
    method SetFieldSetpoint(field: Value) returns (r: Result<()>)
      modifies device
      ensures FieldCommand(field, floats).Ok? ==>
                r == Ok(()) && device.log == old(device.log) + [Write("$J" + Format(field, floats))]
      ensures FieldCommand(field, floats).Err? ==>
                r == Err(FieldCommand(field, floats).error) && device.log == old(device.log)
      ensures device.replies == old(device.replies)
    {
      r := Send(FieldCommand(field, floats));
    }

    /** Set the field sweep rate in tesla/min; the argument is not checked. */
    method SetFieldSweepRate(rate: Value)
      modifies device
      ensures device.log == old(device.log) + [Write("$T" + Format(rate, floats))]
      ensures device.replies == old(device.replies)
    {
      device.Write("$T" + Format(rate, floats));
    }

    /** Show amps (`$M8`) or tesla (`$M9`) on the front panel. */
    method SetDisplay(display: Value) returns (r: Result<()>)
      modifies device
      ensures display == PyStr("amps") ==> r == Ok(()) && device.log == old(device.log) + [Write("$M8")]
      ensures display == PyStr("tesla") ==> r == Ok(()) && device.log == old(device.log) + [Write("$M9")]
      ensures display != PyStr("amps") && display != PyStr("tesla") ==>
                r == Err(InvalidArgument) && device.log == old(device.log)
      ensures device.replies == old(device.replies)
    {
      r := Send(DisplayCommand(display));
    }

    /** Query one parameter and decode the reply as the readers intend. */
    method ReadParameter(command: string) returns (r: Result<real>)
      modifies device
      ensures device.log == old(device.log) + [Query(command)]
      ensures r == NextReading(old(device.replies), floats)
      ensures device.replies == if old(device.replies) == [] then [] else old(device.replies)[1..]
    {
      var reply := device.Query(command);
      match reply
      case Err(e) =>
        r := Err(e);
      case Ok(text) =>
        r := Reading(text, floats);
    }

    /** The reader as written: it tests a name `value` that is never bound, so
        every reply that arrives ends in NameError; only a missing reply fails
        earlier, at the query. */
    method ReadParameterAsWritten(command: string) returns (r: Result<real>)
      modifies device
      ensures device.log == old(device.log) + [Query(command)]
      ensures r == if old(device.replies) == [] then Err(Timeout) else Err(NameError)
      ensures device.replies == if old(device.replies) == [] then [] else old(device.replies)[1..]
    {
      var reply := device.Query(command);
      match reply
      case Err(e) =>
        r := Err(e);
      case Ok(_) =>
        r := Err(NameError);
    }

    /** The present field in tesla. */
    method ReadField() returns (r: Result<real>)
      modifies device
      ensures device.log == old(device.log) + [Query("R7")]
      ensures r == NextReading(old(device.replies), floats)
      ensures device.replies == if old(device.replies) == [] then [] else old(device.replies)[1..]
    {
      r := ReadParameter("R7");
    }

    /** The field set point in tesla. */
    method ReadFieldSetpoint() returns (r: Result<real>)
      modifies device
      ensures device.log == old(device.log) + [Query("R8")]
      ensures r == NextReading(old(device.replies), floats)
      ensures device.replies == if old(device.replies) == [] then [] else old(device.replies)[1..]
    {
      r := ReadParameter("R8");
    }

    /** The field sweep rate in tesla/min. */
    method ReadFieldSweepRate() returns (r: Result<real>)
      modifies device
      ensures device.log == old(device.log) + [Query("R9")]
      ensures r == NextReading(old(device.replies), floats)
      ensures device.replies == if old(device.replies) == [] then [] else old(device.replies)[1..]
    {
      r := ReadParameter("R9");
    }

    /** One poll: read the field, then the set point, and compare them. */
    method PollOnce(errorMargin: real) returns (r: Result<bool>)
      modifies device
      ensures r == Poll(Readings(old(device.replies), floats), errorMargin)
      ensures device.log == old(device.log) + PollQueries(Readings(old(device.replies), floats))
      ensures r.Ok? ==> |old(device.replies)| >= 2 && device.replies == old(device.replies)[2..]
    {
      ghost var replies := device.replies;
      if replies != [] {
        ReadingsAt(replies, 0, floats);
      }
      if |replies| >= 2 {
        ReadingsAt(replies, 1, floats);
      }
      var field := ReadField();
      if field.Err? {
        return Err(field.error);
      }
      var setPoint := ReadFieldSetpoint();
      if setPoint.Err? {
        return Err(setPoint.error);
      }
      assert replies[1..][1..] == replies[2..];
      r := Ok(Abs(field.value - setPoint.value) < errorMargin);
    }

    /** Poll number `k` of a wait that started with `replies0` queued and the
        log at `log0`, when no earlier poll decided the wait. */
    method NextPoll(errorMargin: real, ghost replies0: seq<string>, ghost log0: seq<Transaction>, ghost k: nat)
      returns (r: Result<bool>)
      requires 2 * k <= |replies0| && device.replies == replies0[2 * k..]
      requires log0 <= device.log && Run(Readings(replies0, floats), k, errorMargin) == (Ok(false), device.log[|log0|..])
      modifies device
      ensures log0 <= device.log && Run(Readings(replies0, floats), k + 1, errorMargin) == (r, device.log[|log0|..])
      ensures r == Ok(false) ==> 2 * (k + 1) <= |replies0| && device.replies == replies0[2 * (k + 1)..]
    {
      ghost var before := device.log;
      ReadingsDrop(replies0, 2 * k, floats);
      r := PollOnce(errorMargin);
      assert device.log[|log0|..] == before[|log0|..] + PollQueries(Readings(replies0, floats)[2 * k..]);
      if r.Ok? {
        assert device.replies == replies0[2 * (k + 1)..];
      }
    }

    /** Wait until the field is within `errorMargin` of the set point, polling
        every five seconds, for at most `timeout` seconds from the start.
        `polls` counts the polls begun: the wait is the run of that many
        polls over the readings of the queued replies, and every poll before
        the last left it undecided. */
    method WaitForField(clock: Clock, timeout: real := 600.0, errorMargin: real := 0.01)
      returns (r: Result<bool>, ghost polls: nat)
      modifies device, clock
      ensures old(device.log) <= device.log
      ensures Run(Readings(old(device.replies), floats), polls, errorMargin) == (r, device.log[|old(device.log)|..])
      ensures polls > 0 ==> Run(Readings(old(device.replies), floats), polls - 1, errorMargin).0 == Ok(false)
      ensures timeout <= 0.0 ==> polls == 0
      ensures polls > 0 ==> PollInterval * (polls - 1) as real < timeout
      ensures r == Ok(false) ==> clock.now >= old(clock.now) + timeout && clock.now >= old(clock.now) + PollInterval * polls as real
    {
      ghost var replies0 := device.replies;
      ghost var rs := Readings(replies0, floats);
      ghost var log0 := device.log;
      var start := clock.Now();
      var stop := start + timeout;
      polls := 0;
      var now := clock.Now();
      r := Ok(false);
      assert device.log[|log0|..] == [];
      while now < stop
        invariant now == clock.now && start <= now && old(clock.now) <= start
        invariant now >= start + PollInterval * polls as real
        invariant polls > 0 ==> PollInterval * (polls - 1) as real < timeout
        invariant 2 * polls <= |replies0| && device.replies == replies0[2 * polls..]
        invariant r == Ok(false)
        invariant log0 <= device.log && Run(rs, polls, errorMargin) == (Ok(false), device.log[|log0|..])
        invariant polls > 0 ==> Run(rs, polls - 1, errorMargin).0 == Ok(false)
        decreases stop - now
      {
        ghost var k := polls;
        r := NextPoll(errorMargin, replies0, log0, k);
        polls := k + 1;
        if r != Ok(false) {
          return;
        }
        clock.Sleep(PollInterval);
        now := clock.Now();
      }
    }

    /** `waitForField` as written: the deadline is built with
        `datetime.timedelta` on the `datetime` class, which has no such
        attribute, so every call fails after reading the clock once and before
        any query. */
    method WaitForFieldAsWritten(clock: Clock, timeout: real := 600.0, errorMargin: real := 0.01)
      returns (r: Result<bool>)
      modifies clock
      ensures r == Err(AttributeError)
    {
      var start := clock.Now();
      r := Err(AttributeError);
    }
  }

  /** A codec that reads the text `1.5` as the number 1.5. */
  function OneAndAHalf(): FloatCodec {
    FloatCodec(x => "1.5", s => if s == "1.5" then Some(1.5) else None)
  }

  /** A reply of `R+1.5` decodes to 1.5 as intended; the reader as written
      fails on it. */
  lemma ReadingOfSample()
    ensures Reading("R+1.5", OneAndAHalf()) == Ok(1.5)
  {
    StripAfterPrefix("R+", "1.5", ReplyMarks);
    assert "R+" + "1.5" == "R+1.5";
  }

  /** The first poll over two replies of `R+1.5` converges. */
  lemma SamplePollConverges()
    ensures Run(Readings(["R+1.5", "R+1.5"], OneAndAHalf()), 1, 0.01) == (Ok(true), [Query("R7"), Query("R8")])
  {
    ReadingOfSample();
    var rs := Readings(["R+1.5", "R+1.5"], OneAndAHalf());
    ReadingsAt(["R+1.5", "R+1.5"], 0, OneAndAHalf());
    ReadingsAt(["R+1.5", "R+1.5"], 1, OneAndAHalf());
    assert rs == [Ok(1.5), Ok(1.5)];
    assert rs[0..] == rs;
    assert Poll(rs, 0.01) == Ok(true) by { assert Abs(1.5 - 1.5) == 0.0; }
    assert PollQueries(rs) == [Query("R7"), Query("R8")];
    assert Run(rs, 1, 0.01) == (PollAt(rs, 0, 0.01), [] + PollQueries(rs[0..]));
    assert [] + PollQueries(rs[0..]) == [Query("R7"), Query("R8")];
  }

  /** Field and set point both reported as `R+1.5`: the intended wait ends
      without an error, the one as written fails before querying. */
  method WaitForFieldDiscrepancy()
  {
    var device := new Device(["R+1.5", "R+1.5"]);
    var supply := new Ips120(device, OneAndAHalf());
    var clock := new Clock(0.0);
    var asWritten := supply.WaitForFieldAsWritten(clock);
    assert asWritten == Err(AttributeError) && device.log == [];
    ghost var rs := Readings(device.replies, OneAndAHalf());
    SamplePollConverges();
    var intended, polls := supply.WaitForField(clock);
    if polls > 0 {
      RunSettles(rs, 1, polls, 0.01);
    }
    assert intended.Ok?;
  }

  /** The same reply through both readers. */
  method ReaderDiscrepancy()
  {
    var device := new Device(["R+1.5", "R+1.5"]);
    var supply := new Ips120(device, OneAndAHalf());
    var asWritten := supply.ReadParameterAsWritten("R7");
    assert asWritten == Err(NameError) && device.replies == ["R+1.5"];
    ReadingOfSample();
    var intended := supply.ReadField();
    assert intended == Ok(1.5);
  }
}
