/** The sequence builder: the display texts of sequence steps, the wait
    dialog's configuration dictionary, the alternation pattern that finds the
    steps of a sequence file, and the decoding of the matched fragments into
    step dictionaries. */
module SequenceBuilder {
  import opened Python
  import opened Strings

  /** A Python dictionary with text keys, as the steps and configurations are. */
  type Dict = map<string, Value>

  /** The display text of a wait step, one form per combination of flags. */
  function WaitingText(temp: bool, field: bool, delay: string): (text: string)
    ensures "Wait for " <= text
    ensures var tail := " & " + delay + " seconds more"; |tail| <= |text| && text[|text| - |tail|..] == tail
  {
    var quantities :=
      if temp && field then "Temperature, Field"
      else if temp then "Temperature"
      else if field then "Field"
      else "";
    "Wait for " + quantities + " & " + delay + " seconds more"
  }

  /** Which quantities a wait text names. */
  function WaitingFlags(text: string): (bool, bool) {
    ("Wait for Temperature" <= text, "Wait for Field" <= text || "Wait for Temperature, Field" <= text)
  }

  /** A string is a prefix of itself followed by anything. */
  lemma PrefixOfAppend(p: string, t: string)
    ensures p <= p + t
  {
    assert (p + t)[..|p|] == p;
  }

  /** Two strings that differ at a position both have are not prefix-related. */
  lemma NotPrefixAt(p: string, s: string, i: nat)
    requires i < |p| && i < |s| && p[i] != s[i]
    ensures !(p <= s)
  {
  }

  /** The display text of a wait step gives back its flags, whatever the delay. */
  lemma {:induction false} WaitingFlagsRoundTrip(temp: bool, field: bool, delay: string)
    ensures WaitingFlags(WaitingText(temp, field, delay)) == (temp, field)
  {
    if temp && field {
      FlagsOfBoth(delay);
    } else if temp {
      FlagsOfTemperature(delay);
    } else if field {
      FlagsOfField(delay);
    } else {
      FlagsOfNeither(delay);
    }
  }

  lemma FlagsOfBoth(delay: string)
    ensures WaitingFlags(WaitingText(true, true, delay)) == (true, true)
  {
    var tail := " & " + delay + " seconds more";
    BothText(delay);
    PrefixOfAppend("Wait for Temperature, Field", tail);
    BothNamesTemperature(tail);
  }

  lemma BothText(delay: string)
    ensures WaitingText(true, true, delay) == "Wait for Temperature, Field" + (" & " + delay + " seconds more")
  {
  }

  lemma BothNamesTemperature(tail: string)
    ensures "Wait for Temperature" <= "Wait for Temperature, Field" + tail
  {
    assert "Wait for Temperature, Field" + tail == "Wait for Temperature" + (", Field" + tail);
    PrefixOfAppend("Wait for Temperature", ", Field" + tail);
  }

  lemma FlagsOfTemperature(delay: string)
    ensures WaitingFlags(WaitingText(true, false, delay)) == (true, false)
  {
    var tail := " & " + delay + " seconds more";
    var text := "Wait for Temperature" + tail;
    assert WaitingText(true, false, delay) == text;
    PrefixOfAppend("Wait for Temperature", tail);
    NotPrefixAt("Wait for Field", text, 9);
    NotPrefixAt("Wait for Temperature, Field", text, 20);
  }

  lemma FlagsOfField(delay: string)
    ensures WaitingFlags(WaitingText(false, true, delay)) == (false, true)
  {
    var tail := " & " + delay + " seconds more";
    assert WaitingText(false, true, delay) == "Wait for Field" + tail;
    PrefixOfAppend("Wait for Field", tail);
    NotPrefixAt("Wait for Temperature", "Wait for Field" + tail, 9);
  }

  lemma FlagsOfNeither(delay: string)
    ensures WaitingFlags(WaitingText(false, false, delay)) == (false, false)
  {
    var tail := " & " + delay + " seconds more";
    var text := "Wait for " + tail;
    assert WaitingText(false, false, delay) == text;
    NotPrefixAt("Wait for Temperature", text, 9);
    NotPrefixAt("Wait for Field", text, 9);
    NotPrefixAt("Wait for Temperature, Field", text, 9);
  }

  /** `parse_waiting`: the text is built piece by piece, with the separator
      `', '` written only after Temperature and only when both flags are set. */
  method ParseWaiting(data: Dict, floats: FloatCodec) returns (r: Result<string>)
    ensures "Temp" in data && "Field" in data && "Delay" in data ==>
              r == Ok(WaitingText(Truthy(data["Temp"]), Truthy(data["Field"]), Format(data["Delay"], floats)))
    ensures !("Temp" in data && "Field" in data && "Delay" in data) ==> r == Err(KeyError)
  {
    var text := "Wait for ";
    if "Temp" !in data {
      return Err(KeyError);
    }
    var separator := "";
    if Truthy(data["Temp"]) {
      if "Field" !in data {
        return Err(KeyError);
      }
      if Truthy(data["Field"]) {
        separator := ", ";
      }
    }
    var sepTaken := false;
    if Truthy(data["Temp"]) {
      text := text + "Temperature" + separator;
      sepTaken := true;
    }
    if "Field" !in data {
      return Err(KeyError);
    }
    if Truthy(data["Field"]) {
      text := if sepTaken then text + "Field" else text + "Field" + separator;
      sepTaken := true;
    }
    if "Delay" !in data {
      return Err(KeyError);
    }
    assert text == "Wait for " + (if Truthy(data["Temp"]) && Truthy(data["Field"]) then "Temperature, Field"
      else if Truthy(data["Temp"]) then "Temperature" else if Truthy(data["Field"]) then "Field" else "");
    text := text + " & " + Format(data["Delay"], floats) + " seconds more";
    r := Ok(text);
  }

  /** The part of `s` before the first `c`. */
  function TakeUntil(s: string, c: char): (r: string)
    ensures r <= s && c !in r
  {
    if s == [] || s[0] == c then [] else [s[0]] + TakeUntil(s[1..], c)
  }

  lemma {:induction false} TakeUntilAppend(a: string, c: char, b: string)
    requires c !in a
    ensures TakeUntil(a + [c] + b, c) == a
    decreases |a|
  {
    if a != [] {
      assert (a + [c] + b)[1..] == a[1..] + [c] + b;
      TakeUntilAppend(a[1..], c, b);
    }
  }

  /** The word that follows `prefix` in a display text. */
  function WordAfter(text: string, prefix: string): string {
    TakeUntil(RemovePrefix(text, prefix), ' ')
  }

  /** The fixed openings and endings of the two set-step texts. */
  const TempOpening: string := "Set Temperature to "
  const TempEnding: string := "K/min (rate is only a wish...)"
  const FieldOpening: string := "Set Field to "
  const FieldEnding: string := "T/min (rate is only a wish...)"

  /** The rate a set-step text shows: what lies between the target word,
      followed by ` at `, and the fixed ending. */
  function RateShown(text: string, opening: string, ending: string): string {
    RemoveSuffix(RemovePrefix(text, opening + WordAfter(text, opening) + " at "), ending)
  }

  /** `'Set Temperature to {Temp} at {rate}K/min (rate is only a wish...)'.format(**data)` */
  function SetTempText(data: Dict, floats: FloatCodec): (r: Result<string>)
    ensures r.Ok? <==> "Temp" in data && "rate" in data
    ensures r.Err? ==> r.error == KeyError
    ensures r.Ok? ==> TempOpening <= r.value
  {
    if "Temp" in data && "rate" in data then
      Ok(TempOpening + Format(data["Temp"], floats) + " at " + Format(data["rate"], floats) + TempEnding)
    else Err(KeyError)
  }

  /** `'Set Field to {Field} at {rate}T/min (rate is only a wish...)'.format(**data)` */
  function SetFieldText(data: Dict, floats: FloatCodec): (r: Result<string>)
    ensures r.Ok? <==> "Field" in data && "rate" in data
    ensures r.Err? ==> r.error == KeyError
    ensures r.Ok? ==> FieldOpening <= r.value
  {
    if "Field" in data && "rate" in data then
      Ok(FieldOpening + Format(data["Field"], floats) + " at " + Format(data["rate"], floats) + FieldEnding)
    else Err(KeyError)
  }

  /** A set-step text built from a target without spaces gives back the
      target right after the opening, and the rate before the ending. */
  lemma {:induction false} SetTextParts(opening: string, target: string, rate: string, ending: string)
    requires ' ' !in target
    ensures var text := opening + target + " at " + rate + ending;
      && WordAfter(text, opening) == target
      && RateShown(text, opening, ending) == rate
  {
    var text := opening + target + " at " + rate + ending;
    var rest := "at " + rate + ending;
    assert text == opening + (target + [' '] + rest);
    assert RemovePrefix(text, opening) == target + [' '] + rest;
    TakeUntilAppend(target, ' ', rest);
    var p := opening + target + " at ";
    assert text == p + (rate + ending);
    var r := RemovePrefix(text, p);
    assert r == rate + ending by {
      assert p + r == text;
      assert r == text[|p|..];
    }
    assert r[|r| - |ending|..] == ending;
  }

  /** A set-temperature text fails exactly on a missing key, and otherwise
      shows the target temperature right after its fixed opening. */
  lemma SetTempTextSpec(data: Dict, floats: FloatCodec)
    ensures SetTempText(data, floats).Ok? <==> "Temp" in data && "rate" in data
    ensures SetTempText(data, floats).Ok? && ' ' !in Format(data["Temp"], floats) ==>
              && WordAfter(SetTempText(data, floats).value, TempOpening) == Format(data["Temp"], floats)
              && RateShown(SetTempText(data, floats).value, TempOpening, TempEnding) == Format(data["rate"], floats)
  {
    if "Temp" in data && "rate" in data && ' ' !in Format(data["Temp"], floats) {
      SetTextParts(TempOpening, Format(data["Temp"], floats), Format(data["rate"], floats), TempEnding);
    }
  }

  /** A set-field text fails exactly on a missing key, and otherwise shows
      the target field right after its fixed opening. */
  lemma SetFieldTextSpec(data: Dict, floats: FloatCodec)
    ensures SetFieldText(data, floats).Ok? <==> "Field" in data && "rate" in data
    ensures SetFieldText(data, floats).Ok? && ' ' !in Format(data["Field"], floats) ==>
              && WordAfter(SetFieldText(data, floats).value, FieldOpening) == Format(data["Field"], floats)
              && RateShown(SetFieldText(data, floats).value, FieldOpening, FieldEnding) == Format(data["rate"], floats)
  {
    if "Field" in data && "rate" in data && ' ' !in Format(data["Field"], floats) {
      SetTextParts(FieldOpening, Format(data["Field"], floats), Format(data["rate"], floats), FieldEnding);
    }
  }

  /** The expressions that match the four kinds of sequence step. */
  const StepExpressions: seq<string> := ["TMP TEMP(.*?)$", "FLD FIELD(.*?)$", "SCAN(.*?)EOS$", "WAITFOR(.*?)$"]

  /** `construct_pattern(expressions)`: the loop runs over the enclosing list
      `exp`, not over its parameter, prefixing every expression with `|`, and
      drops the first character of the result. */
  method ConstructPattern(expressions: seq<string>, exp: seq<string>) returns (pattern: string)
    ensures pattern == Join(exp, '|')
    ensures exp != [] && (forall k :: 0 <= k < |exp| ==> '|' !in exp[k]) ==> Split(pattern, '|') == exp
  {
    var pat := "";
    for i := 0 to |exp|
      invariant i == 0 ==> pat == ""
      invariant i > 0 ==> pat == "|" + Join(exp[..i], '|')
    {
      if i > 0 {
        JoinSnoc(exp[..i + 1], '|');
        assert exp[..i + 1][..i] == exp[..i];
      }
      pat := pat + "|" + exp[i];
    }
    assert exp[..|exp|] == exp;
    pattern := if pat == "" then "" else pat[1..];
    if exp != [] && forall k :: 0 <= k < |exp| ==> '|' !in exp[k] {
      SplitJoin(exp, '|');
    }
  }

  /** Joining one more piece appends the separator and that piece. */
  lemma {:induction false} JoinSnoc(parts: seq<string>, sep: char)
    requires |parts| >= 2
    ensures Join(parts, sep) == Join(parts[..|parts| - 1], sep) + [sep] + parts[|parts| - 1]
    decreases |parts|
  {
    if |parts| > 2 {
      JoinSnoc(parts[1..], sep);
      assert parts[1..][..|parts| - 2] == parts[..|parts| - 1][1..];
    }
  }

  /** The pattern built from the four step expressions. */
  lemma StepPattern()
    ensures Join(StepExpressions, '|') == "TMP TEMP(.*?)$" + "|" + "FLD FIELD(.*?)$" + "|" + "SCAN(.*?)EOS$" + "|" + "WAITFOR(.*?)$"
  {
    var e := StepExpressions;
    assert e[1..][1..] == e[2..] && e[2..][1..] == e[3..];
    assert Join(e[3..], '|') == "WAITFOR(.*?)$";
    assert Join(e[2..], '|') == "SCAN(.*?)EOS$" + "|" + "WAITFOR(.*?)$";
    assert Join(e[1..], '|') == "FLD FIELD(.*?)$" + "|" + "SCAN(.*?)EOS$" + "|" + "WAITFOR(.*?)$";
  }

  /** One match of the step pattern: the text captured by each of the four
      groups (all empty but at most one), and the numbers found in the first
      captured group that is not empty, still as text. */
  datatype Fragment = Fragment(temp: string, field: string, scan: string, wait: string, numbers: seq<string>)

  /** `[float(x) for x in numbers]` */
  function ParseNumbers(numbers: seq<string>, floats: FloatCodec): (r: Result<seq<real>>)
    ensures r.Ok? ==> |r.value| == |numbers|
    ensures r.Ok? ==> forall k :: 0 <= k < |numbers| ==> floats.parse(numbers[k]) == Some(r.value[k])
    ensures r.Err? ==> r.error == ValueError && exists k :: 0 <= k < |numbers| && floats.parse(numbers[k]).None?
  {
    if numbers == [] then Ok([])
    else match floats.parse(numbers[0])
      case None => Err(ValueError)
      case Some(x) =>
        match ParseNumbers(numbers[1..], floats)
        case Err(e) => Err(e)
        case Ok(xs) => Ok([x] + xs)
  }

  /** The dictionary of one matched step. A fragment with every group empty
      reuses the dictionary of the step before it, which does not exist for
      the first fragment. Scans are outside this model. */
  function DecodeFragment(f: Fragment, previous: Option<Dict>, floats: FloatCodec): (r: Result<Dict>)
    ensures f.temp == "" && f.field == "" && f.scan != "" ==> r == Err(Unmodelled)
    ensures f.temp == "" && f.field == "" && f.scan == "" && f.wait == "" ==>
              r == if previous.None? then Err(NameError) else Ok(previous.value)
    ensures (f.temp != "" || f.field != "" || (f.scan == "" && f.wait != "")) && ParseNumbers(f.numbers, floats).Err? ==> r == Err(ValueError)
    ensures r.Ok? && (f.temp != "" || f.field != "" || (f.scan == "" && f.wait != "")) ==> "typ" in r.value && "DisplayText" in r.value
  {
    if f.temp != "" then
      match ParseNumbers(f.numbers, floats)
      case Err(e) => Err(e)
      case Ok(nums) =>
        if |nums| < 2 then Err(IndexError) else Ok(SetTempStep(nums[0], nums[1], floats))
    else if f.field != "" then
      match ParseNumbers(f.numbers, floats)
      case Err(e) => Err(e)
      case Ok(nums) =>
        if |nums| < 2 then Err(IndexError) else Ok(SetFieldStep(nums[0], nums[1], floats))
    else if f.scan != "" then
      Err(Unmodelled)
    else if f.wait != "" then
      match ParseNumbers(f.numbers, floats)
      case Err(e) => Err(e)
      case Ok(nums) =>
        if |nums| < 3 then Err(IndexError)
        else
          Ok(WaitStep(nums[0], Trunc(nums[1]) == 1, Trunc(nums[2]) == 1, floats))
    else
      match previous
      case None => Err(NameError)
      case Some(dic) => Ok(dic)
  }

  /** The dictionary of a set-temperature step, with its display text. */
  function SetTempStep(target: real, rate: real, floats: FloatCodec): Dict {
    var dic := map["typ" := PyStr("set_T"), "Temp" := PyFloat(target), "rate" := PyFloat(rate)];
    dic["DisplayText" := PyStr(SetTempText(dic, floats).value)]
  }

  /** The dictionary of a set-field step, with its display text. */
  function SetFieldStep(target: real, rate: real, floats: FloatCodec): Dict {
    var dic := map["typ" := PyStr("set_Field"), "Field" := PyFloat(target), "rate" := PyFloat(rate)];
    dic["DisplayText" := PyStr(SetFieldText(dic, floats).value)]
  }

  /** A set-temperature step holds its target and rate, and its display
      text is `parse_set_temp` of the rest of the step, showing both. */
  lemma SetTempStepSpec(target: real, rate: real, floats: FloatCodec)
    requires ' ' !in floats.format(target)
    ensures var step := SetTempStep(target, rate, floats);
      && step.Keys == {"typ", "Temp", "rate", "DisplayText"}
      && step["typ"] == PyStr("set_T") && step["Temp"] == PyFloat(target) && step["rate"] == PyFloat(rate)
      && step["DisplayText"] == PyStr(SetTempText(step - {"DisplayText"}, floats).value)
      && WordAfter(step["DisplayText"].s, TempOpening) == floats.format(target)
      && RateShown(step["DisplayText"].s, TempOpening, TempEnding) == floats.format(rate)
  {
    var dic := map["typ" := PyStr("set_T"), "Temp" := PyFloat(target), "rate" := PyFloat(rate)];
    SetTempTextSpec(dic, floats);
    assert SetTempStep(target, rate, floats) - {"DisplayText"} == dic;
  }

  /** A set-field step holds its target and rate, and its display text is
      `parse_set_field` of the rest of the step, showing both. */
  lemma SetFieldStepSpec(target: real, rate: real, floats: FloatCodec)
    requires ' ' !in floats.format(target)
    ensures var step := SetFieldStep(target, rate, floats);
      && step.Keys == {"typ", "Field", "rate", "DisplayText"}
      && step["typ"] == PyStr("set_Field") && step["Field"] == PyFloat(target) && step["rate"] == PyFloat(rate)
      && step["DisplayText"] == PyStr(SetFieldText(step - {"DisplayText"}, floats).value)
      && WordAfter(step["DisplayText"].s, FieldOpening) == floats.format(target)
      && RateShown(step["DisplayText"].s, FieldOpening, FieldEnding) == floats.format(rate)
  {
    var dic := map["typ" := PyStr("set_Field"), "Field" := PyFloat(target), "rate" := PyFloat(rate)];
    SetFieldTextSpec(dic, floats);
    assert SetFieldStep(target, rate, floats) - {"DisplayText"} == dic;
  }

  /** The dictionary of a wait step, with its display text. */
  function WaitStep(seconds: real, temp: bool, field: bool, floats: FloatCodec): Dict {
    var dic := map["typ" := PyStr("Wait"), "Temp" := PyBool(temp), "Field" := PyBool(field),
                   "Delay" := PyFloat(seconds)];
    dic["DisplayText" := PyStr(WaitingText(temp, field, floats.format(seconds)))]
  }

  /** A wait step's display text is `parse_waiting` of the step itself, and
      names exactly the quantities the step waits for. */
  lemma {:induction false} WaitStepSpec(seconds: real, temp: bool, field: bool, floats: FloatCodec)
    ensures var step := WaitStep(seconds, temp, field, floats);
      && step.Keys == {"typ", "Temp", "Field", "Delay", "DisplayText"}
      && step["DisplayText"] == PyStr(WaitingText(Truthy(step["Temp"]), Truthy(step["Field"]),
                                                  Format(step["Delay"], floats)))
      && WaitingFlags(step["DisplayText"].s) == (temp, field)
  {
    WaitingFlagsRoundTrip(temp, field, floats.format(seconds));
  }

  /** A decoded wait fragment: delay from the first number, and a flag set
      exactly when the second (temperature) or third (field) number truncates
      to 1, that is, lies in [1, 2). */
  lemma {:induction false} WaitFragmentSpec(f: Fragment, previous: Option<Dict>, floats: FloatCodec)
    requires f.temp == "" && f.field == "" && f.scan == "" && f.wait != ""
    requires ParseNumbers(f.numbers, floats).Ok? && |f.numbers| >= 3
    ensures var nums := ParseNumbers(f.numbers, floats).value;
      DecodeFragment(f, previous, floats) == Ok(WaitStep(nums[0], 1.0 <= nums[1] < 2.0, 1.0 <= nums[2] < 2.0, floats))
  {
    var nums := ParseNumbers(f.numbers, floats).value;
    TruncIsOne(nums[1]);
    TruncIsOne(nums[2]);
  }

  /** A decoded set-temperature step: target from the first number, rate from
      the second, and the display text `parse_set_temp` makes of the step,
      which shows both. */
  lemma {:induction false} SetTempFragmentSpec(f: Fragment, previous: Option<Dict>, floats: FloatCodec)
    requires f.temp != ""
    requires ParseNumbers(f.numbers, floats).Ok? && |f.numbers| >= 2
    requires ' ' !in floats.format(ParseNumbers(f.numbers, floats).value[0])
    ensures var nums := ParseNumbers(f.numbers, floats).value;
      var r := DecodeFragment(f, previous, floats);
      && r.Ok?
      && r.value["typ"] == PyStr("set_T") && r.value["Temp"] == PyFloat(nums[0]) && r.value["rate"] == PyFloat(nums[1])
      && r.value["DisplayText"] == PyStr(SetTempText(r.value - {"DisplayText"}, floats).value)
      && WordAfter(r.value["DisplayText"].s, TempOpening) == floats.format(nums[0])
      && RateShown(r.value["DisplayText"].s, TempOpening, TempEnding) == floats.format(nums[1])
  {
    var nums := ParseNumbers(f.numbers, floats).value;
    assert DecodeFragment(f, previous, floats) == Ok(SetTempStep(nums[0], nums[1], floats));
    SetTempStepSpec(nums[0], nums[1], floats);
  }

  /** A decoded set-field step: target from the first number, rate from the
      second, and the display text `parse_set_field` makes of the step, which
      shows both. */
  lemma {:induction false} SetFieldFragmentSpec(f: Fragment, previous: Option<Dict>, floats: FloatCodec)
    requires f.temp == "" && f.field != ""
    requires ParseNumbers(f.numbers, floats).Ok? && |f.numbers| >= 2
    requires ' ' !in floats.format(ParseNumbers(f.numbers, floats).value[0])
    ensures var nums := ParseNumbers(f.numbers, floats).value;
      var r := DecodeFragment(f, previous, floats);
      && r.Ok?
      && r.value["typ"] == PyStr("set_Field") && r.value["Field"] == PyFloat(nums[0]) && r.value["rate"] == PyFloat(nums[1])
      && r.value["DisplayText"] == PyStr(SetFieldText(r.value - {"DisplayText"}, floats).value)
      && WordAfter(r.value["DisplayText"].s, FieldOpening) == floats.format(nums[0])
      && RateShown(r.value["DisplayText"].s, FieldOpening, FieldEnding) == floats.format(nums[1])
  {
    var nums := ParseNumbers(f.numbers, floats).value;
    assert DecodeFragment(f, previous, floats) == Ok(SetFieldStep(nums[0], nums[1], floats));
    SetFieldStepSpec(nums[0], nums[1], floats);
  }

  /** `commands + rest`, unless decoding the rest failed. */
  function Prepend(commands: seq<Dict>, rest: Result<seq<Dict>>): Result<seq<Dict>> {
    match rest
    case Err(e) => Err(e)
    case Ok(cs) => Ok(commands + cs)
  }

  /** The steps decoded from `fragments`, the first failure aborting. */
  function DecodeFrom(fragments: seq<Fragment>, previous: Option<Dict>, floats: FloatCodec): (r: Result<seq<Dict>>)
    ensures r.Ok? ==> |r.value| == |fragments|
    ensures fragments != [] && DecodeFragment(fragments[0], previous, floats).Err? ==>
              r == Err(DecodeFragment(fragments[0], previous, floats).error)
    decreases |fragments|
  {
    if fragments == [] then Ok([])
    else
      match DecodeFragment(fragments[0], previous, floats)
      case Err(e) => Err(e)
      case Ok(c) => Prepend([c], DecodeFrom(fragments[1..], Some(c), floats))
  }

  /** A successful decoding gives exactly one step per fragment, in order,
      each decoded from its fragment after the step before it. */
  lemma {:induction false} DecodeFromSpec(fragments: seq<Fragment>, previous: Option<Dict>, floats: FloatCodec)
    ensures var r := DecodeFrom(fragments, previous, floats);
      r.Ok? ==>
        && |r.value| == |fragments|
        && forall i :: 0 <= i < |fragments| ==>
             DecodeFragment(fragments[i], if i == 0 then previous else Some(r.value[i - 1]), floats) == Ok(r.value[i])
  {
    var r := DecodeFrom(fragments, previous, floats);
    if r.Ok? {
      forall i | 0 <= i < |fragments|
        ensures DecodeFragment(fragments[i], if i == 0 then previous else Some(r.value[i - 1]), floats) == Ok(r.value[i])
      {
        DecodeFromAt(fragments, previous, floats, i);
      }
    }
  }

  /** Step `i` of a successful decoding is decoded from fragment `i` after
      step `i - 1`. */
  lemma {:induction false} DecodeFromAt(fragments: seq<Fragment>, previous: Option<Dict>, floats: FloatCodec, i: nat)
    requires DecodeFrom(fragments, previous, floats).Ok? && i < |fragments|
    ensures var r := DecodeFrom(fragments, previous, floats).value;
      DecodeFragment(fragments[i], if i == 0 then previous else Some(r[i - 1]), floats) == Ok(r[i])
    decreases i
  {
    var r := DecodeFrom(fragments, previous, floats).value;
    var c := DecodeFragment(fragments[0], previous, floats).value;
    var rest := DecodeFrom(fragments[1..], Some(c), floats).value;
    assert r == [c] + rest;
    if i > 0 {
      DecodeFromAt(fragments[1..], Some(c), floats, i - 1);
      assert fragments[1..][i - 1] == fragments[i];
      if i > 1 {
        assert r[i - 1] == rest[i - 2];
      }
    }
  }

  /** The fragment-decoding loop of `read_sequence`. */
  method ReadSequence(fragments: seq<Fragment>, floats: FloatCodec) returns (r: Result<seq<Dict>>)
    ensures r == DecodeFrom(fragments, None, floats)
  {
    var commands: seq<Dict> := [];
    var dic: Option<Dict> := None;
    assert fragments[0..] == fragments;
    assert Prepend([], DecodeFrom(fragments, None, floats)) == DecodeFrom(fragments, None, floats) by {
      match DecodeFrom(fragments, None, floats)
      case Err(e) =>
      case Ok(cs) => assert [] + cs == cs;
    }
    for i := 0 to |fragments|
      invariant DecodeFrom(fragments, None, floats) == Prepend(commands, DecodeFrom(fragments[i..], dic, floats))
      invariant |commands| == i
    {
      assert fragments[i..][0] == fragments[i] && fragments[i..][1..] == fragments[i + 1..];
      var decoded := DecodeFragment(fragments[i], dic, floats);
      if decoded.Err? {
        return Err(decoded.error);
      }
      var c := decoded.value;
      if rest :| DecodeFrom(fragments[i + 1..], Some(c), floats) == Ok(rest) {
        assert commands + ([c] + rest) == commands + [c] + rest;
      }
      commands := commands + [c];
      dic := Some(c);
    }
    assert fragments[|fragments|..] == [];
    assert commands + [] == commands;
    r := Ok(commands);
  }

  /** The starting configuration of the wait dialog. */
  const DefaultConf: Dict := map["typ" := PyStr("Wait"), "Temp" := PyBool(false), "Field" := PyBool(false),
                                 "Delay" := PyInt(0)]

  /** Whether the wait dialog accepts a configuration: at least one quantity to wait for. */
  predicate Accepts(conf: Dict)
    requires "Temp" in conf && "Field" in conf
  {
    Truthy(conf["Temp"]) || Truthy(conf["Field"])
  }

  /** A configuration the dialog accepts has a display text that names a
      quantity to wait for; the one it rejects would name none. */
  lemma {:induction false} AcceptedWaitNamesQuantity(conf: Dict, floats: FloatCodec)
    requires "Temp" in conf && "Field" in conf && "Delay" in conf
    ensures var text := WaitingText(Truthy(conf["Temp"]), Truthy(conf["Field"]), Format(conf["Delay"], floats));
      Accepts(conf) <==> WaitingFlags(text) != (false, false)
  {
    WaitingFlagsRoundTrip(Truthy(conf["Temp"]), Truthy(conf["Field"]), Format(conf["Delay"], floats));
  }

  datatype DialogState = Open | Accepted | Rejected

  /** The wait dialog: a configuration dictionary edited key by key, and the
      copies of it emitted on acceptance. */
  class WaitingDialog {
    var conf: Dict
    var emitted: seq<Dict>
    var state: DialogState

    /** The keys the dialog's checks read are always present. */
    predicate Valid()
      reads this
    {
      "Temp" in conf && "Field" in conf
    }

    constructor ()
      ensures Valid()
      ensures conf == DefaultConf && emitted == [] && state == Open
    {
      conf := DefaultConf;
      emitted := [];
      state := Open;
    }

    /** Set one entry of the configuration, leaving every other entry alone. */
    method SetValue(parameter: string, value: Value)
      requires Valid()
      modifies this
      ensures Valid()
      ensures conf == old(conf)[parameter := value]
      ensures forall k :: k in old(conf) && k != parameter ==> k in conf && conf[k] == old(conf)[k]
      ensures emitted == old(emitted) && state == old(state)
    {
      conf := conf[parameter := value];
    }

    /** Reject when neither quantity is chosen; otherwise emit a copy of the
        configuration and accept. */
    method Acc()
      requires Valid()
      modifies this
      ensures Valid() && conf == old(conf)
      ensures !Accepts(conf) ==> state == Rejected && emitted == old(emitted)
      ensures Accepts(conf) ==> state == Accepted && emitted == old(emitted) + [old(conf)]
    {
      if !Truthy(conf["Temp"]) && !Truthy(conf["Field"]) {
        state := Rejected;
        return;
      }
      emitted := emitted + [conf];
      state := Accepted;
    }
  }

  /** A dialog left at its defaults is rejected; ticking the field box and
      accepting emits a configuration whose display text waits for the field. */
  method WaitingDialogUse(floats: FloatCodec)
  {
    var dialog := new WaitingDialog();
    dialog.Acc();
    assert dialog.state == Rejected && dialog.emitted == [];
    dialog.SetValue("Field", PyBool(true));
    dialog.SetValue("Delay", PyInt(30));
    dialog.Acc();
    assert dialog.state == Accepted && |dialog.emitted| == 1;
    var text := ParseWaiting(dialog.emitted[0], floats);
    assert text == Ok(WaitingText(false, true, IntToString(30)));
  }
}
