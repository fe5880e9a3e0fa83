/** The single-channel resistance measurement: the current source is enabled,
    one temperature is read, then every measurement applies the excitation
    current at positive and at negative polarity with a voltage reading at
    each, and a second temperature is read. The record holds the mean and
    the deviation of both temperatures and of all resistances. */
module SingleChannel {
  import opened Python
  import opened CryostatSequence

  /** The wait between a current set-point and its reading, in seconds. */
  const SettleTime: real := 0.06

  /** `currentfactor`: the sign of the excitation current. */
  datatype Polarity = Positive | Negative

  function Factor(p: Polarity): real {
    if p == Positive then 1.0 else -1.0
  }

  /** The current applied at polarity `p`, the excitation current times
      its factor. */
  function Applied(exc: real, p: Polarity): (c: real)
    ensures c == exc * Factor(p)
    ensures c == 0.0 <==> exc == 0.0
  {
    if p == Positive then exc else -exc
  }

  /** One resistance as the measurement computes it: the reading times the
      factor, over the excitation current times the factor. */
  function ResistanceAsWritten(v: real, exc: real, p: Polarity): (r: real)
    requires exc != 0.0
    ensures r * exc == v
  {
    (v * Factor(p)) / (exc * Factor(p))
  }

  /** One resistance as the reading over the current applied. */
  function Resistance(v: real, exc: real, p: Polarity): (r: real)
    requires exc != 0.0
    ensures r * Applied(exc, p) == v
  {
    v / Applied(exc, p)
  }

  /** As written, the factor cancels: the result is the bare reading over
      the excitation current, whatever the polarity. */
  lemma AsWrittenIgnoresPolarity(v: real, exc: real, p: Polarity)
    requires exc != 0.0
    ensures ResistanceAsWritten(v, exc, p) == v / exc
  {
    if p == Negative {
      assert (v * -1.0) / (exc * -1.0) == v / exc by {
        assert (v / exc) * (exc * -1.0) == v * -1.0;
      }
    }
  }

  /** Real division undoes multiplication by a non-zero divisor. */
  lemma Quotient(x: real, y: real, d: real)
    requires d != 0.0 && y * d == x
    ensures x / d == y
  {
  }

  /** On an ohmic sample with a thermal offset, read as `±exc·R + off`, the
      two polarities give `R ± off/exc`, so every pair sums to `2R`. */
  lemma OhmicPair(r: real, off: real, exc: real)
    requires exc != 0.0
    ensures Resistance(exc * r + off, exc, Positive) == r + off / exc
    ensures Resistance(-exc * r + off, exc, Negative) == r - off / exc
    ensures Resistance(exc * r + off, exc, Positive) + Resistance(-exc * r + off, exc, Negative) == 2.0 * r
  {
    var q := off / exc;
    assert q * exc == off;
    Quotient(exc * r + off, r + q, exc);
    Quotient(-exc * r + off, r - q, -exc);
  }

  /** As written, the same sample gives `R + off/exc` and `-R + off/exc`:
      every pair sums to `2·off/exc`, and without offset to zero. */
  lemma OhmicPairAsWritten(r: real, off: real, exc: real)
    requires exc != 0.0
    ensures ResistanceAsWritten(exc * r + off, exc, Positive) == r + off / exc
    ensures ResistanceAsWritten(-exc * r + off, exc, Negative) == -r + off / exc
    ensures ResistanceAsWritten(exc * r + off, exc, Positive) + ResistanceAsWritten(-exc * r + off, exc, Negative)
         == 2.0 * (off / exc)
  {
    AsWrittenIgnoresPolarity(exc * r + off, exc, Positive);
    AsWrittenIgnoresPolarity(-exc * r + off, exc, Negative);
    var q := off / exc;
    assert q * exc == off;
    Quotient(exc * r + off, r + q, exc);
    Quotient(-exc * r + off, -r + q, exc);
  }

  /** A 10 Ω sample at the default 0.5 mA reads -5 mV at negative polarity:
      as written that point is recorded as -10 Ω, so the pair averages to
      0 Ω; the reading over the applied current gives 10 Ω. */
  lemma NegativePolarityExample()
    ensures ResistanceAsWritten(0.005, 0.0005, Positive) == 10.0
    ensures ResistanceAsWritten(-0.005, 0.0005, Negative) == -10.0
    ensures Resistance(-0.005, 0.0005, Negative) == 10.0
  {
  }

  /** The polarities of `n` measurements: positive, then negative, `n` times. */
  function Polarities(n: nat): (ps: seq<Polarity>)
    ensures |ps| == 2 * n
    ensures forall k :: 0 <= k < |ps| ==> ps[k] == if k % 2 == 0 then Positive else Negative
  {
    if n == 0 then [] else Polarities(n - 1) + [Positive, Negative]
  }

  /** The currents applied at the polarities `ps`. */
  function Scaled(exc: real, ps: seq<Polarity>): (cs: seq<real>)
    ensures |cs| == |ps|
    ensures forall k :: 0 <= k < |ps| ==> cs[k] == Applied(exc, ps[k])
  {
    seq(|ps|, k requires 0 <= k < |ps| => Applied(exc, ps[k]))
  }

  /** The resistances of the readings from `from` on, at the polarities `ps`. */
  function ResistancesOf(voltmeter: nat -> real, from: nat, exc: real, ps: seq<Polarity>): (rs: seq<real>)
    requires exc != 0.0 || ps == []
    ensures |rs| == |ps|
    ensures forall k :: 0 <= k < |ps| ==> rs[k] == Resistance(voltmeter(from + k), exc, ps[k])
  {
    seq(|ps|, k requires 0 <= k < |ps| => Resistance(voltmeter(from + k), exc, ps[k]))
  }

  /** The resistances so far, the calls, the voltage readings taken, and the
      error that stopped the measurement. */
  datatype Reversals = Reversals(resistances: seq<real>, calls: seq<Call>, taken: nat, failed: Option<Error>)

  /** One polarity: apply the current, wait, read the voltmeter, and append
      the resistance; a zero current fails the division after the reading. */
  function Reverse(s: Reversals, ch: Channel, p: Polarity, voltmeter: nat -> real): Reversals {
    if s.failed.Some? then s
    else
      var calls := s.calls + PointCalls(ch, Applied(ch.exc, p), SettleTime);
      if ch.exc == 0.0 then Reversals(s.resistances, calls, s.taken + 1, Some(ZeroDivision))
      else Reversals(s.resistances + [Resistance(voltmeter(s.taken), ch.exc, p)], calls, s.taken + 1, None)
  }

  /** The polarities `ps` in order. */
  function Reverses(s: Reversals, ch: Channel, ps: seq<Polarity>, voltmeter: nat -> real): Reversals
    decreases |ps|
  {
    if ps == [] then s else Reverse(Reverses(s, ch, ps[..|ps| - 1], voltmeter), ch, ps[|ps| - 1], voltmeter)
  }

  /** The polarities only add calls to the log. */
  lemma {:induction false} ReversesGrow(s: Reversals, ch: Channel, ps: seq<Polarity>, voltmeter: nat -> real)
    ensures s.calls <= Reverses(s, ch, ps, voltmeter).calls
    decreases |ps|
  {
    if ps != [] {
      ReversesGrow(s, ch, ps[..|ps| - 1], voltmeter);
    }
  }

  lemma {:induction false} ReversesAppend(s: Reversals, ch: Channel, a: seq<Polarity>, c: seq<Polarity>, voltmeter: nat -> real)
    ensures Reverses(s, ch, a + c, voltmeter) == Reverses(Reverses(s, ch, a, voltmeter), ch, c, voltmeter)
    decreases |c|
  {
    if c == [] {
      assert a + c == a;
    } else {
      var c' := c[..|c| - 1];
      assert (a + c)[..|a + c| - 1] == a + c' && (a + c)[|a + c| - 1] == c[|c| - 1];
      ReversesAppend(s, ch, a, c', voltmeter);
    }
  }

  /** Once failed, further polarities change nothing. */
  lemma {:induction false} ReversesFailed(s: Reversals, ch: Channel, ps: seq<Polarity>, voltmeter: nat -> real)
    requires s.failed.Some?
    ensures Reverses(s, ch, ps, voltmeter) == s
    decreases |ps|
  {
    if ps != [] {
      ReversesFailed(s, ch, ps[..|ps| - 1], voltmeter);
    }
  }

  lemma ReversesStopped(s: Reversals, ch: Channel, a: seq<Polarity>, c: seq<Polarity>, voltmeter: nat -> real)
    requires Reverses(s, ch, a, voltmeter).failed.Some?
    ensures Reverses(s, ch, a + c, voltmeter) == Reverses(s, ch, a, voltmeter)
  {
    ReversesAppend(s, ch, a, c, voltmeter);
    ReversesFailed(Reverses(s, ch, a, voltmeter), ch, c, voltmeter);
  }

  /** The last polarity's resistance comes last. */
  lemma ResistancesOfLast(voltmeter: nat -> real, from: nat, exc: real, ps: seq<Polarity>)
    requires exc != 0.0 && ps != []
    ensures ResistancesOf(voltmeter, from, exc, ps)
         == ResistancesOf(voltmeter, from, exc, ps[..|ps| - 1])
            + [Resistance(voltmeter(from + (|ps| - 1)), exc, ps[|ps| - 1])]
  {
  }

  /** At a non-zero current every polarity succeeds: it adds one set-point
      to the calls and takes one reading. */
  lemma {:induction false} ReversesCalls(s: Reversals, ch: Channel, ps: seq<Polarity>, voltmeter: nat -> real)
    requires s.failed.None? && ch.exc != 0.0
    ensures var r := Reverses(s, ch, ps, voltmeter);
      && r.failed.None?
      && r.calls == s.calls + SweepCalls(ch, Scaled(ch.exc, ps), SettleTime)
      && r.taken == s.taken + |ps|
    decreases |ps|
  {
    if ps != [] {
      var ps' := ps[..|ps| - 1];
      ReversesCalls(s, ch, ps', voltmeter);
      var cs := Scaled(ch.exc, ps);
      assert cs[..|cs| - 1] == Scaled(ch.exc, ps') && cs[|cs| - 1] == Applied(ch.exc, ps[|ps| - 1]);
    }
  }

  /** At a non-zero current every polarity appends the reading over the
      current applied. */
  lemma {:induction false} ReversesSpec(s: Reversals, ch: Channel, ps: seq<Polarity>, voltmeter: nat -> real)
    requires s.failed.None? && ch.exc != 0.0
    ensures Reverses(s, ch, ps, voltmeter).resistances == s.resistances + ResistancesOf(voltmeter, s.taken, ch.exc, ps)
    decreases |ps|
  {
    if ps != [] {
      var ps' := ps[..|ps| - 1];
      ResistancesOfLast(voltmeter, s.taken, ch.exc, ps);
      ReversesSpec(s, ch, ps', voltmeter);
      ReversesCalls(s, ch, ps', voltmeter);
      var rs' := ResistancesOf(voltmeter, s.taken, ch.exc, ps');
      var x := Resistance(voltmeter(s.taken + |ps'|), ch.exc, ps[|ps| - 1]);
      assert (s.resistances + rs') + [x] == s.resistances + (rs' + [x]);
    }
  }

  /** At a zero current the first polarity fails the division after its
      reading, and nothing follows it. */
  lemma ReversesZero(s: Reversals, ch: Channel, ps: seq<Polarity>, voltmeter: nat -> real)
    requires s.failed.None? && ch.exc == 0.0 && ps != []
    ensures Reverses(s, ch, ps, voltmeter)
         == Reversals(s.resistances, s.calls + PointCalls(ch, 0.0, SettleTime), s.taken + 1, Some(ZeroDivision))
  {
    assert [ps[0]] + ps[1..] == ps;
    assert Reverses(s, ch, [ps[0]], voltmeter) == Reverse(s, ch, ps[0], voltmeter);
    ReversesStopped(s, ch, [ps[0]], ps[1..], voltmeter);
  }

  /** A single-channel record. */
  datatype Single = Single(temperatureMean: real, temperatureStd: real,
                           resistanceMean: real, resistanceStd: real, datafile: string)

  /** The outcome of one single-channel measurement, and the lab's calls after it. */
  datatype SingleRun = SingleRun(result: Result<Single>, calls: seq<Call>)

  /** `range(n)` of a negative count is empty. */
  function Count(n: int): nat {
    if n < 0 then 0 else n
  }

  /** `measure_resistance_singlechannel`, from the call log and the readings
      the lab will give: enable the source, read the sensor, the polarities
      of every measurement, read the sensor again, and the record. */
  function Singlechannel(log: seq<Call>, taken: nat, temp1: map<string, real>, temp2: map<string, real>,
                         exc: real, res: string, curr: string, tempName: string, sensor: string, n: int,
                         voltmeter: nat -> real, numerics: Numerics, datafile: Option<string>): (run: SingleRun)
    ensures log + [Enable(curr), ReadTemperatures(tempName)] <= run.calls
    ensures run.result.Ok? ==> sensor in temp1 && sensor in temp2 && datafile.Some? && run.result.value.datafile == datafile.value
  {
    var before := log + [Enable(curr), ReadTemperatures(tempName)];
    if sensor !in temp1 then SingleRun(Err(KeyError), before)
    else
      ReversesGrow(Reversals([], before, taken, None), Channel(curr, exc, res), Polarities(Count(n)), voltmeter);
      var swept := Reverses(Reversals([], before, taken, None), Channel(curr, exc, res), Polarities(Count(n)), voltmeter);
      if swept.failed.Some? then SingleRun(Err(swept.failed.value), swept.calls)
      else
        var calls := swept.calls + [ReadTemperatures(tempName)];
        if sensor !in temp2 || datafile.None? then SingleRun(Err(KeyError), calls)
        else
          var temps := [temp1[sensor], temp2[sensor]];
          SingleRun(Ok(Single(numerics.mean(temps), numerics.std(temps),
                              numerics.mean(swept.resistances), numerics.std(swept.resistances), datafile.value)),
                    calls)
  }

  /** One measurement: `for currentfactor in [1, -1]`. */
  method MeasurePolarities(lab: Lab, ch: Channel, resistances: seq<real>) returns (rs: seq<real>, failed: Option<Error>)
    modifies lab
    ensures Reversals(rs, lab.calls, lab.voltageReads, failed)
         == Reverses(Reversals(resistances, old(lab.calls), old(lab.voltageReads), None), ch, [Positive, Negative], lab.voltmeter)
    ensures lab.temperatureReads == old(lab.temperatureReads)
  {
    ghost var start := Reversals(resistances, lab.calls, lab.voltageReads, None);
    ghost var ps := [Positive, Negative];
    rs := resistances;
    failed := None;
    for k := 0 to 2
      invariant Reversals(rs, lab.calls, lab.voltageReads, None) == Reverses(start, ch, ps[..k], lab.voltmeter)
      invariant lab.temperatureReads == old(lab.temperatureReads)
    {
      var p := if k == 0 then Positive else Negative;
      assert ps[..k + 1][..k] == ps[..k] && ps[..k + 1][k] == p;
      lab.Do(GetToSetCurrent(ch.source, Applied(ch.exc, p)));
      lab.Do(SetCurrent(ch.source));
      lab.Do(Pause(SettleTime));
      var v := lab.ReadVoltage(ch.voltmeter);
      if Applied(ch.exc, p) == 0.0 {
        failed := Some(ZeroDivision);
        assert ps[..k + 1] + ps[k + 1..] == ps;
        ReversesStopped(start, ch, ps[..k + 1], ps[k + 1..], lab.voltmeter);
        return;
      }
      rs := rs + [Resistance(v, ch.exc, p)];
    }
    assert ps[..2] == ps;
  }

  /** `measure_resistance_singlechannel(threads, excitation_current_A,
      threadname_RES, threadname_CURR, threadname_Temp, temperature_sensor,
      n_measurements, datafile=...)`; `datafile` is absent as `None`. */
  method MeasureResistanceSinglechannel(lab: Lab, numerics: Numerics, exc: real, res: string, curr: string,
                                        datafile: Option<string>,
                                        tempName: string := "control_LakeShore350",
                                        sensor: string := "Sensor_1_K", n: int := 1)
    returns (r: Result<Single>)
    modifies lab
    ensures var run := Singlechannel(old(lab.calls), old(lab.voltageReads),
                                     lab.thermometer(old(lab.temperatureReads)),
                                     lab.thermometer(old(lab.temperatureReads) + 1),
                                     exc, res, curr, tempName, sensor, n, lab.voltmeter, numerics, datafile);
            r == run.result && lab.calls == run.calls
  {
    var ch := Channel(curr, exc, res);
    lab.Do(Enable(curr));
    var temp1 := lab.ReadTemperatures(tempName);
    if sensor !in temp1 {
      return Err(KeyError);
    }
    ghost var run := Singlechannel(old(lab.calls), old(lab.voltageReads),
                                   lab.thermometer(old(lab.temperatureReads)),
                                   lab.thermometer(old(lab.temperatureReads) + 1),
                                   exc, res, curr, tempName, sensor, n, lab.voltmeter, numerics, datafile);
    ghost var start := Reversals([], lab.calls, lab.voltageReads, None);
    assert start == Reversals([], old(lab.calls) + [Enable(curr), ReadTemperatures(tempName)], old(lab.voltageReads), None);
    var resistances, failed := MeasureAll(lab, ch, n);
    ghost var swept := Reverses(start, ch, Polarities(Count(n)), lab.voltmeter);
    assert swept.failed == failed && swept.calls == lab.calls;
    if failed.Some? {
      assert run == SingleRun(Err(swept.failed.value), swept.calls);
      return Err(failed.value);
    }
    var temp2 := lab.ReadTemperatures(tempName);
    if sensor !in temp2 || datafile.None? {
      return Err(KeyError);
    }
    var temps := [temp1[sensor], temp2[sensor]];
    r := Ok(Single(numerics.mean(temps), numerics.std(temps),
                   numerics.mean(resistances), numerics.std(resistances), datafile.value));
  }

  /** `for idx in range(n_measurements)`: both polarities per measurement,
      until one fails. */
  method MeasureAll(lab: Lab, ch: Channel, n: int) returns (resistances: seq<real>, failed: Option<Error>)
    modifies lab
    ensures Reversals(resistances, lab.calls, lab.voltageReads, failed)
         == Reverses(Reversals([], old(lab.calls), old(lab.voltageReads), None), ch, Polarities(Count(n)), lab.voltmeter)
    ensures lab.temperatureReads == old(lab.temperatureReads)
  {
    ghost var start := Reversals([], lab.calls, lab.voltageReads, None);
    resistances := [];
    failed := None;
    var idx := 0;
    while idx < n
      invariant 0 <= idx <= Count(n)
      invariant Reversals(resistances, lab.calls, lab.voltageReads, None) == Reverses(start, ch, Polarities(idx), lab.voltmeter)
      invariant failed == None
      invariant lab.temperatureReads == old(lab.temperatureReads)
    {
      ReversesAppend(start, ch, Polarities(idx), [Positive, Negative], lab.voltmeter);
      resistances, failed := MeasurePolarities(lab, ch, resistances);
      if failed.Some? {
        PolaritiesPrefix(idx + 1, Count(n));
        ReversesStopped(start, ch, Polarities(idx + 1), Polarities(Count(n))[2 * (idx + 1)..], lab.voltmeter);
        return;
      }
      idx := idx + 1;
    }
  }

  /** The polarities of fewer measurements are a prefix of those of more. */
  lemma {:induction false} PolaritiesPrefix(i: nat, n: nat)
    requires i <= n
    ensures Polarities(n) == Polarities(i) + Polarities(n)[2 * i..]
    decreases n
  {
    if i < n {
      PolaritiesPrefix(i, n - 1);
      assert Polarities(n)[..2 * (n - 1)] == Polarities(n - 1);
    }
  }

  /** How a single-channel measurement ends: a sensor missing from the
      first reading fails right after it; a zero current fails the division
      after the first reading of the voltmeter; otherwise it succeeds unless
      the sensor is missing from the second reading or no data file is named. */
  lemma SinglechannelOutcome(log: seq<Call>, taken: nat, temp1: map<string, real>, temp2: map<string, real>,
                             exc: real, res: string, curr: string, tempName: string, sensor: string, n: int,
                             voltmeter: nat -> real, numerics: Numerics, datafile: Option<string>)
    ensures var run := Singlechannel(log, taken, temp1, temp2, exc, res, curr, tempName, sensor, n, voltmeter, numerics, datafile);
      var before := log + [Enable(curr), ReadTemperatures(tempName)];
      && (run.result.Ok? <==> sensor in temp1 && sensor in temp2 && datafile.Some? && (n <= 0 || exc != 0.0))
      && (sensor !in temp1 ==> run == SingleRun(Err(KeyError), before))
      && (sensor in temp1 && n > 0 && exc == 0.0 ==>
            run == SingleRun(Err(ZeroDivision), before + PointCalls(Channel(curr, exc, res), 0.0, SettleTime)))
  {
    var before := log + [Enable(curr), ReadTemperatures(tempName)];
    var ch := Channel(curr, exc, res);
    var start := Reversals([], before, taken, None);
    var fs := Polarities(Count(n));
    if exc != 0.0 {
      ReversesCalls(start, ch, fs, voltmeter);
    } else if n > 0 {
      ReversesZero(start, ch, fs, voltmeter);
    }
  }

  /** The polarities of a measurement that does not fail: one resistance
      per reading, and the set-points in order. */
  lemma SingleSweep(before: seq<Call>, taken: nat, ch: Channel, n: int, voltmeter: nat -> real)
    requires n <= 0 || ch.exc != 0.0
    ensures var ps := Polarities(Count(n));
      var r := Reverses(Reversals([], before, taken, None), ch, ps, voltmeter);
      && (ch.exc != 0.0 || ps == [])
      && r.failed.None?
      && r.resistances == ResistancesOf(voltmeter, taken, ch.exc, ps)
      && r.calls == before + SweepCalls(ch, Scaled(ch.exc, ps), SettleTime)
  {
    var start := Reversals([], before, taken, None);
    var ps := Polarities(Count(n));
    if ch.exc != 0.0 {
      ReversesCalls(start, ch, ps, voltmeter);
      ReversesSpec(start, ch, ps, voltmeter);
      assert [] + ResistancesOf(voltmeter, taken, ch.exc, ps) == ResistancesOf(voltmeter, taken, ch.exc, ps);
    } else {
      NoPolarities(n);
      assert ResistancesOf(voltmeter, taken, ch.exc, ps) == [] && Scaled(ch.exc, ps) == [];
    }
  }

  lemma NoPolarities(n: int)
    requires n <= 0
    ensures Polarities(Count(n)) == []
  {
  }

  /** A successful single-channel measurement: the source is enabled, the
      sensor read, both polarities of every measurement applied in turn,
      and the sensor read again; the temperatures are exactly the two
      readings of the sensor and the resistances one per voltage reading,
      each the reading over the current applied. */
  lemma SinglechannelSpec(log: seq<Call>, taken: nat, temp1: map<string, real>, temp2: map<string, real>,
                          exc: real, res: string, curr: string, tempName: string, sensor: string, n: int,
                          voltmeter: nat -> real, numerics: Numerics, datafile: Option<string>)
    requires sensor in temp1 && sensor in temp2 && datafile.Some? && (n <= 0 || exc != 0.0)
    ensures var run := Singlechannel(log, taken, temp1, temp2, exc, res, curr, tempName, sensor, n, voltmeter, numerics, datafile);
      var ps := Polarities(Count(n));
      var rs := ResistancesOf(voltmeter, taken, exc, ps);
      && run.calls == log + [Enable(curr), ReadTemperatures(tempName)]
                      + SweepCalls(Channel(curr, exc, res), Scaled(exc, ps), SettleTime) + [ReadTemperatures(tempName)]
      && run.result == Ok(Single(numerics.mean([temp1[sensor], temp2[sensor]]), numerics.std([temp1[sensor], temp2[sensor]]),
                                 numerics.mean(rs), numerics.std(rs), datafile.value))
  {
    SingleSweep(log + [Enable(curr), ReadTemperatures(tempName)], taken, Channel(curr, exc, res), n, voltmeter);
  }

  /** On an ohmic sample with a thermal offset the two resistances of every
      measurement sum to twice the resistance, so the offset cancels. */
  lemma OhmicMeasurement(voltmeter: nat -> real, taken: nat, exc: real, n: nat, r: real, off: real)
    requires exc != 0.0
    requires forall k :: 0 <= k < 2 * n ==> voltmeter(taken + k) == Applied(exc, Polarities(n)[k]) * r + off
    ensures var rs := ResistancesOf(voltmeter, taken, exc, Polarities(n));
      forall i :: 0 <= i < n ==> rs[2 * i] + rs[2 * i + 1] == 2.0 * r
  {
    var fs := Polarities(n);
    var rs := ResistancesOf(voltmeter, taken, exc, fs);
    forall i | 0 <= i < n
      ensures rs[2 * i] + rs[2 * i + 1] == 2.0 * r
    {
      assert fs[2 * i] == Positive && fs[2 * i + 1] == Negative;
      assert voltmeter(taken + 2 * i) == exc * r + off;
      assert voltmeter(taken + (2 * i + 1)) == -exc * r + off;
      OhmicPair(r, off, exc);
    }
  }
}
