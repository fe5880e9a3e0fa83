/** The configuration of the one-shot multichannel measurement thread: the
    keyword arguments it passes to the multichannel measurement, with their
    defaults, and the two ways the user interface updates them in place. */
module OneShot {
  import opened Python
  import opened CryostatSequence

  /** A configuration value: a name, a number, or a list of values. */
  datatype ConfValue = Text(text: string) | Number(x: real) | Items(items: seq<ConfValue>)

  function Names(names: seq<string>): (v: ConfValue)
    ensures v.Items? && |v.items| == |names|
    ensures forall k :: 0 <= k < |names| ==> v.items[k] == Text(names[k])
  {
    Items(seq(|names|, k requires 0 <= k < |names| => Text(names[k])))
  }

  function Numbers(xs: seq<real>): (v: ConfValue)
    ensures v.Items? && |v.items| == |xs|
    ensures forall k :: 0 <= k < |xs| ==> v.items[k] == Number(xs[k])
  {
    Items(seq(|xs|, k requires 0 <= k < |xs| => Number(xs[k])))
  }

  /** The configuration the thread starts with. The current-voltage curve is
      `linspace(0.5, 1, 2)` reversed. */
  function DefaultConf(): map<string, ConfValue> {
    map[
      "threadname_Temp" := Text("control_LakeShore350"),
      "threadnames_RES" := Names(["control_Keithley2182_1", "control_Keithley2182_2"]),
      "threadnames_CURR" := Names(["control_Keithley6221_1", "control_Keithley6221_2"]),
      "excitation_currents_A" := Numbers([0.0005, 0.0005]),
      "iv_characteristic" := Numbers([1.0, 0.5]),
      "current_reversal_time" := Number(0.08),
      "interval" := Number(10.0)]
  }

  /** The position Python's `lst[i]` refers to in a list of `len` elements:
      a negative index counts from the end. */
  function ListIndex(i: int, len: nat): (r: Option<nat>)
    ensures r.Some? <==> -(len as int) <= i < len
    ensures r.Some? ==> r.value < len && (r.value as int == i || r.value as int == i + len)
    ensures r.Some? && i >= 0 ==> r.value == i
  {
    if 0 <= i < len then Some(i)
    else if -(len as int) <= i < 0 then Some(i + len)
    else None
  }

  /** `v[i] = x`: only a list supports item assignment, and only at an index
      inside it. */
  function SetItem(v: ConfValue, i: int, x: ConfValue): (r: Result<ConfValue>)
    ensures !v.Items? ==> r == Err(TypeError)
    ensures v.Items? && !(-|v.items| <= i < |v.items|) ==> r == Err(IndexError)
    ensures r.Ok? ==> v.Items? && r.value.Items? && |r.value.items| == |v.items|
    ensures r.Ok? ==> var k := ListIndex(i, |v.items|).value;
      && r.value.items[k] == x
      && forall j :: 0 <= j < |v.items| && j != k ==> r.value.items[j] == v.items[j]
  {
    if !v.Items? then Err(TypeError)
    else match ListIndex(i, |v.items|)
      case None => Err(IndexError)
      case Some(k) => Ok(Items(v.items[k := x]))
  }

  /** `OneShot_Thread_multichannel`: the configuration it measures with. */
  class OneShotMultichannel {
    var conf: map<string, ConfValue>

    /** Every default key is still configured. */
    predicate Valid()
      reads this
    {
      DefaultConf().Keys <= conf.Keys
    }

    constructor ()
      ensures conf == DefaultConf()
      ensures Valid()
    {
      conf := DefaultConf();
    }

    /** `update_conf(key, value)`. */
    method UpdateConf(key: string, value: ConfValue)
      modifies this
      ensures conf == old(conf)[key := value]
      ensures old(Valid()) ==> Valid()
    {
      conf := conf[key := value];
    }

    /** `update_exc(channel, value)`: channels count from 1, so the element
      at `channel - 1` of the excitation currents is replaced. */
    method UpdateExc(channel: int, value: real) returns (failed: Option<Error>)
      modifies this
      ensures "excitation_currents_A" !in old(conf) ==> failed == Some(KeyError) && conf == old(conf)
      ensures "excitation_currents_A" in old(conf) ==>
        var r := SetItem(old(conf)["excitation_currents_A"], channel - 1, Number(value));
        if r.Ok? then failed == None && conf == old(conf)["excitation_currents_A" := r.value]
        else failed == Some(r.error) && conf == old(conf)
      ensures old(Valid()) ==> Valid()
    {
      if "excitation_currents_A" !in conf {
        return Some(KeyError);
      }
      var r := SetItem(conf["excitation_currents_A"], channel - 1, Number(value));
      if r.Err? {
        return Some(r.error);
      }
      conf := conf["excitation_currents_A" := r.value];
      failed := None;
    }
  }

  /** In a valid configuration `update_exc` never misses its key, and on a
      list of currents it replaces exactly the element of a channel from 1
      to the number of channels. */
  lemma UpdateExcChannel(conf: map<string, ConfValue>, channel: int, value: real)
    requires DefaultConf().Keys <= conf.Keys
    requires conf["excitation_currents_A"].Items?
    requires 1 <= channel <= |conf["excitation_currents_A"].items|
    ensures var v := conf["excitation_currents_A"];
      var r := SetItem(v, channel - 1, Number(value));
      && r.Ok?
      && |r.value.items| == |v.items|
      && r.value.items[channel - 1] == Number(value)
      && forall j :: 0 <= j < |v.items| && j != channel - 1 ==> r.value.items[j] == v.items[j]
  {
    assert "excitation_currents_A" in DefaultConf();
  }

  /** Channel 0 is `lst[-1]`: it replaces the last current, not an error. */
  lemma UpdateExcChannelZero(items: seq<ConfValue>, value: real)
    requires items != []
    ensures SetItem(Items(items), -1, Number(value)) == Ok(Items(items[|items| - 1 := Number(value)]))
  {
  }

  /** The default configuration names two voltmeters, two current sources
      and two excitation currents, so it passes the length check. */
  lemma DefaultsCoincide()
    ensures var c := DefaultConf();
      && |c["threadnames_RES"].items| == |c["threadnames_CURR"].items| == |c["excitation_currents_A"].items| == 2
      && Coincide([|c["threadnames_RES"].items|, |c["threadnames_CURR"].items|, |c["excitation_currents_A"].items|])
  {
    var c := DefaultConf();
    assert c["threadnames_RES"] == Names(["control_Keithley2182_1", "control_Keithley2182_2"]);
    assert c["threadnames_CURR"] == Names(["control_Keithley6221_1", "control_Keithley6221_2"]);
    assert c["excitation_currents_A"] == Numbers([0.0005, 0.0005]);
    CoincideThree(2, 2, 2);
  }

  /** The default configuration has no data file, and without one the
      multichannel measurement never returns a record. */
  lemma NoDatafileNoRecord(log: seq<Call>, taken: nat, temp1: map<string, real>, temp2: map<string, real>,
                           sources: seq<string>, excs: seq<real>, voltmeters: seq<string>, iv: seq<real>,
                           tempName: string, b: Bench, numerics: Numerics)
    ensures "datafile" !in DefaultConf()
    ensures Multichannel(log, taken, temp1, temp2, sources, excs, voltmeters, iv, tempName, b, numerics, None).result.Err?
  {
    if Multichannel(log, taken, temp1, temp2, sources, excs, voltmeters, iv, tempName, b, numerics, None).result.Ok? {
      MultichannelOk(log, taken, temp1, temp2, sources, excs, voltmeters, iv, tempName, b, numerics, None);
    }
  }
}
