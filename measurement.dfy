/** Resistance measurements of the cryostat sequence: the consistency check on
    the channel lists, the schedule of current set-points and voltage readings
    on every channel, the per-channel fit records with their `nonohmic` flag,
    the temperature readings around the sweep, and the configuration updates
    of the one-shot measurement thread. The instrument threads are one `Lab`
    whose calls are logged; numpy's fit, mean and standard deviation are
    passed in as functions. */
module CryostatSequence {
  import opened Python
  import opened Strings

  /** One call on an instrument thread, in the order the lab sees them. */
  datatype Call =
    | Enable(name: string)
    | Disable(name: string)
    | GetToSetCurrent(name: string, current: real)   // gettoset_Current_A
    | SetCurrent(name: string)                       // setCurrent_A
    | Pause(seconds: real)                           // time.sleep between set-point and reading
    | ReadVoltage(name: string)
    | ReadTemperatures(name: string)

  /** The instrument threads of the main window, as one lab. The readings
      are fixed in advance: the n-th voltage read anywhere in the lab, and
      the n-th set of temperatures. */
  class Lab {
    var calls: seq<Call>
    var voltageReads: nat
    var temperatureReads: nat
    const voltmeter: nat -> real
    const thermometer: nat -> map<string, real>

    constructor (voltmeter: nat -> real, thermometer: nat -> map<string, real>)
      ensures calls == [] && voltageReads == 0 && temperatureReads == 0
      ensures this.voltmeter == voltmeter && this.thermometer == thermometer
    {
      calls := [];
      voltageReads := 0;
      temperatureReads := 0;
      this.voltmeter := voltmeter;
      this.thermometer := thermometer;
    }

    method Do(call: Call)
      requires !call.ReadVoltage? && !call.ReadTemperatures?
      modifies this
      ensures calls == old(calls) + [call]
      ensures voltageReads == old(voltageReads) && temperatureReads == old(temperatureReads)
    {
      calls := calls + [call];
    }

    method ReadVoltage(name: string) returns (v: real)
      modifies this
      ensures v == voltmeter(old(voltageReads))
      ensures calls == old(calls) + [Call.ReadVoltage(name)]
      ensures voltageReads == old(voltageReads) + 1 && temperatureReads == old(temperatureReads)
    {
      v := voltmeter(voltageReads);
      calls := calls + [Call.ReadVoltage(name)];
      voltageReads := voltageReads + 1;
    }

    method ReadTemperatures(name: string) returns (t: map<string, real>)
      modifies this
      ensures t == thermometer(old(temperatureReads))
      ensures calls == old(calls) + [Call.ReadTemperatures(name)]
      ensures temperatureReads == old(temperatureReads) + 1 && voltageReads == old(voltageReads)
    {
      t := thermometer(temperatureReads);
      calls := calls + [Call.ReadTemperatures(name)];
      temperatureReads := temperatureReads + 1;
    }
  }

  /** What `polyfit(x, y, deg=1, full=True)` returns: the coefficients and
      the residual array `stats[0]`. */
  datatype Fit = Fit(coeffs: seq<real>, residuals: seq<real>)

  /** The numpy routines the measurements call. */
  datatype Numerics = Numerics(
    fit: (seq<real>, seq<real>) -> Fit,
    mean: seq<real> -> real,
    std: seq<real> -> real,          // np.std(x)
    sampleStd: seq<real> -> real)    // np.std(x, ddof=1)

  /** A fit residual above this marks a channel as not ohmic. */
  const ResidualThreshold: real := 10000.0

  // ---------------------------------------------------------------------
  // The consistency check

  /** The pairs `(x, y)` for `y` in `ys`, in order. */
  function PairsWith(x: nat, ys: seq<nat>): seq<(nat, nat)>
    decreases |ys|
  {
    if ys == [] then [] else [(x, ys[0])] + PairsWith(x, ys[1..])
  }

  /** `combinations_with_replacement(xs, 2)`: every element paired with
      itself and every later element, in order. */
  function Pairs(xs: seq<nat>): seq<(nat, nat)>
    decreases |xs|
  {
    if xs == [] then [] else PairsWith(xs[0], xs) + Pairs(xs[1..])
  }

  /** No pair holds two different values. */
  predicate Matching(ps: seq<(nat, nat)>) {
    forall k :: 0 <= k < |ps| ==> ps[k].0 == ps[k].1
  }

  /** The check of `measure_resistance_multichannel` on the list lengths. */
  predicate Coincide(lengths: seq<nat>) {
    Matching(Pairs(lengths))
  }

  predicate AllEqual(xs: seq<nat>) {
    forall i, j :: 0 <= i < |xs| && 0 <= j < |xs| ==> xs[i] == xs[j]
  }

  lemma MatchingAppend(p: seq<(nat, nat)>, q: seq<(nat, nat)>)
    ensures Matching(p + q) <==> Matching(p) && Matching(q)
  {
    if Matching(p) && Matching(q) {
      forall k | 0 <= k < |p + q| ensures (p + q)[k].0 == (p + q)[k].1 {
        if k >= |p| {
          assert (p + q)[k] == q[k - |p|];
        }
      }
    }
    if Matching(p + q) {
      forall k | 0 <= k < |p| ensures p[k].0 == p[k].1 {
        assert (p + q)[k] == p[k];
      }
      forall k | 0 <= k < |q| ensures q[k].0 == q[k].1 {
        assert (p + q)[|p| + k] == q[k];
      }
    }
  }

  lemma {:induction false} PairsWithMatching(x: nat, ys: seq<nat>)
    ensures Matching(PairsWith(x, ys)) <==> forall k :: 0 <= k < |ys| ==> ys[k] == x
    decreases |ys|
  {
    if ys != [] {
      PairsWithMatching(x, ys[1..]);
      MatchingAppend([(x, ys[0])], PairsWith(x, ys[1..]));
      var p := PairsWith(x, ys);
      assert p == [(x, ys[0])] + PairsWith(x, ys[1..]);
      if Matching(p) {
        assert p[0] == (x, ys[0]);
        forall k | 0 <= k < |ys| ensures ys[k] == x {
          if k > 0 {
            assert ys[k] == ys[1..][k - 1];
          }
        }
      }
      if forall k :: 0 <= k < |ys| ==> ys[k] == x {
        forall k | 0 <= k < |ys[1..]| ensures ys[1..][k] == x {
          assert ys[1..][k] == ys[k + 1];
        }
      }
    }
  }

  /** The lengths pass the check exactly when they are all equal. */
  lemma {:induction false} CoincideSpec(xs: seq<nat>)
    ensures Coincide(xs) <==> AllEqual(xs)
    decreases |xs|
  {
    if xs != [] {
      CoincideSpec(xs[1..]);
      PairsWithMatching(xs[0], xs);
      MatchingAppend(PairsWith(xs[0], xs), Pairs(xs[1..]));
      if AllEqual(xs) {
        forall i, j | 0 <= i < |xs[1..]| && 0 <= j < |xs[1..]| ensures xs[1..][i] == xs[1..][j] {
          assert xs[1..][i] == xs[i + 1] && xs[1..][j] == xs[j + 1];
        }
      }
      if Coincide(xs) {
        forall i, j | 0 <= i < |xs| && 0 <= j < |xs| ensures xs[i] == xs[j] {
          assert xs[i] == xs[0] && xs[j] == xs[0];
        }
      }
    }
  }

  /** For the three lists of channel names and currents. */
  lemma CoincideThree(a: nat, b: nat, c: nat)
    ensures Coincide([a, b, c]) <==> a == b && b == c
  {
    var xs := [a, b, c];
    CoincideSpec(xs);
    assert xs[0] == a && xs[1] == b && xs[2] == c;
  }

  // ---------------------------------------------------------------------
  // The current schedule of one channel

  /** The two currents of one base value: negative first, then positive. */
  function Pair(exc: real, base: real): seq<real> {
    [exc * -1.0 * base, exc * 1.0 * base]
  }

  /** The currents of a sweep over `iv`, in order. */
  function Schedule(exc: real, iv: seq<real>): seq<real>
    decreases |iv|
  {
    if iv == [] then [] else Schedule(exc, iv[..|iv| - 1]) + Pair(exc, iv[|iv| - 1])
  }

  lemma {:induction false} ScheduleAppend(exc: real, a: seq<real>, b: seq<real>)
    ensures Schedule(exc, a + b) == Schedule(exc, a) + Schedule(exc, b)
    decreases |b|
  {
    if b == [] {
      assert a + b == a;
    } else {
      var b' := b[..|b| - 1];
      assert (a + b)[..|a + b| - 1] == a + b' && (a + b)[|a + b| - 1] == b[|b| - 1];
      ScheduleAppend(exc, a, b');
    }
  }

  /** Every base value gives two currents, `-exc·base` and then `+exc·base`. */
  lemma {:induction false} ScheduleSpec(exc: real, iv: seq<real>)
    ensures |Schedule(exc, iv)| == 2 * |iv|
    ensures forall k :: 0 <= k < |iv| ==>
      Schedule(exc, iv)[2 * k] == -(exc * iv[k]) && Schedule(exc, iv)[2 * k + 1] == exc * iv[k]
    decreases |iv|
  {
    if iv != [] {
      var iv' := iv[..|iv| - 1];
      ScheduleSpec(exc, iv');
      forall k | 0 <= k < |iv|
        ensures Schedule(exc, iv)[2 * k] == -(exc * iv[k]) && Schedule(exc, iv)[2 * k + 1] == exc * iv[k]
      {
        if k < |iv'| {
          assert iv[k] == iv'[k];
        }
      }
    }
  }

  // ---------------------------------------------------------------------
  // One set-point, a sweep, a channel, all channels

  /** The fit record of one voltmeter: `dict(coeff=0, residuals=0, nonohmic=0)`. */
  datatype ChannelFit = ChannelFit(coeff: real, residuals: real, nonohmic: int)

  const Unfitted := ChannelFit(0.0, 0.0, 0)

  /** One measurement channel: a current source, its excitation current and
      the voltmeter read with it. */
  datatype Channel = Channel(source: string, exc: real, voltmeter: string)

  /** The three dictionaries the sweep fills: currents per source, voltages
      and fit records per voltmeter. */
  datatype Tables = Tables(currents: map<string, seq<real>>, voltages: map<string, seq<real>>,
                           fits: map<string, ChannelFit>)

  /** The state of a sweep: the tables, the lab's call log and the number
      of voltage readings so far, and the exception that stopped it, if any. */
  datatype Sweep = Sweep(tables: Tables, calls: seq<Call>, taken: nat, failed: Option<Error>)

  /** The parts of the lab a sweep depends on. */
  datatype Bench = Bench(voltmeter: nat -> real, fit: (seq<real>, seq<real>) -> Fit, reversal: real)

  function Get<V>(m: map<string, V>, key: string, default: V): V {
    if key in m then m[key] else default
  }

  /** The calls of one set-point. */
  function PointCalls(ch: Channel, current: real, reversal: real): seq<Call> {
    [GetToSetCurrent(ch.source, current), SetCurrent(ch.source), Pause(reversal), ReadVoltage(ch.voltmeter)]
  }

  /** One set-point: apply the current, wait, read the voltmeter, and append
      the current and the voltage to their lists. */
  function Point(s: Sweep, ch: Channel, current: real, b: Bench): Sweep {
    var t := s.tables;
    Sweep(Tables(t.currents[ch.source := Get(t.currents, ch.source, []) + [current]],
                 t.voltages[ch.voltmeter := Get(t.voltages, ch.voltmeter, []) + [b.voltmeter(s.taken)]],
                 t.fits),
          s.calls + PointCalls(ch, current, b.reversal), s.taken + 1, s.failed)
  }

  /** The set-points `cs` in order. */
  function Points(s: Sweep, ch: Channel, cs: seq<real>, b: Bench): Sweep
    decreases |cs|
  {
    if cs == [] then s else Point(Points(s, ch, cs[..|cs| - 1], b), ch, cs[|cs| - 1], b)
  }

  lemma {:induction false} PointsAppend(s: Sweep, ch: Channel, a: seq<real>, c: seq<real>, b: Bench)
    ensures Points(s, ch, a + c, b) == Points(Points(s, ch, a, b), ch, c, b)
    decreases |c|
  {
    if c == [] {
      assert a + c == a;
    } else {
      var c' := c[..|c| - 1];
      assert (a + c)[..|a + c| - 1] == a + c' && (a + c)[|a + c| - 1] == c[|c| - 1];
      PointsAppend(s, ch, a, c', b);
    }
  }

  /** Store a fit in the voltmeter's record: `c[1]` as the coefficient and
      `stats[0][0]` as the residual, raising `nonohmic` when the residual
      exceeds the threshold. Fails like the indexing and the comparison do. */
  function Refit(fits: map<string, ChannelFit>, voltmeter: string, fit: Fit): Result<map<string, ChannelFit>> {
    if |fit.coeffs| < 2 || |fit.residuals| == 0 then Err(IndexError)
    else if |fit.residuals| > 1 then Err(ValueError)
    else
      var prior := Get(fits, voltmeter, Unfitted);
      var nonohmic := if fit.residuals[0] > ResidualThreshold then 1 else prior.nonohmic;
      Ok(fits[voltmeter := ChannelFit(fit.coeffs[1], fit.residuals[0], nonohmic)])
  }

  /** The fit of a voltmeter's voltages against its source's currents. */
  function FitOf(t: Tables, ch: Channel, b: Bench): Fit {
    b.fit(Get(t.currents, ch.source, []), Get(t.voltages, ch.voltmeter, []))
  }

  /** One channel: enable its source, sweep the schedule, fit, disable the source. */
  function ChannelSweep(s: Sweep, ch: Channel, iv: seq<real>, b: Bench): Sweep {
    if s.failed.Some? then s
    else
      var swept := Points(s.(calls := s.calls + [Enable(ch.source)]), ch, Schedule(ch.exc, iv), b);
      var refit := Refit(swept.tables.fits, ch.voltmeter, FitOf(swept.tables, ch, b));
      if refit.Err? then swept.(failed := Some(refit.error))
      else Sweep(swept.tables.(fits := refit.value), swept.calls + [Disable(ch.source)], swept.taken, None)
  }

  /** The channels in order. */
  function Channels(s: Sweep, chans: seq<Channel>, iv: seq<real>, b: Bench): Sweep
    decreases |chans|
  {
    if chans == [] then s else ChannelSweep(Channels(s, chans[..|chans| - 1], iv, b), chans[|chans| - 1], iv, b)
  }

  /** The set-point loop body of `measure_resistance_multichannel`. */
  method MeasurePoint(lab: Lab, t: Tables, ch: Channel, current: real, b: Bench) returns (t': Tables)
    requires b.voltmeter == lab.voltmeter
    modifies lab
    ensures Sweep(t', lab.calls, lab.voltageReads, None)
         == Point(Sweep(t, old(lab.calls), old(lab.voltageReads), None), ch, current, b)
    ensures lab.temperatureReads == old(lab.temperatureReads)
  {
    var currents := t.currents[ch.source := Get(t.currents, ch.source, []) + [current]];
    lab.Do(GetToSetCurrent(ch.source, current));
    lab.Do(SetCurrent(ch.source));
    lab.Do(Pause(b.reversal));
    var voltage := lab.ReadVoltage(ch.voltmeter);
    var voltages := t.voltages[ch.voltmeter := Get(t.voltages, ch.voltmeter, []) + [voltage]];
    t' := Tables(currents, voltages, t.fits);
  }

  /** The two polarities of one base current, negative first. */
  method MeasureBase(lab: Lab, t: Tables, ch: Channel, base: real, b: Bench) returns (t': Tables)
    requires b.voltmeter == lab.voltmeter
    modifies lab
    ensures Sweep(t', lab.calls, lab.voltageReads, None)
         == Points(Sweep(t, old(lab.calls), old(lab.voltageReads), None), ch, Pair(ch.exc, base), b)
    ensures lab.temperatureReads == old(lab.temperatureReads)
  {
    ghost var start := Sweep(t, lab.calls, lab.voltageReads, None);
    ghost var pair := Pair(ch.exc, base);
    t' := t;
    for k := 0 to 2
      invariant Sweep(t', lab.calls, lab.voltageReads, None) == Points(start, ch, pair[..k], b)
      invariant lab.temperatureReads == old(lab.temperatureReads)
    {
      var factor := if k == 0 then -1.0 else 1.0;
      var current := ch.exc * factor * base;
      assert pair[..k + 1][..k] == pair[..k] && pair[..k + 1][k] == current;
      t' := MeasurePoint(lab, t', ch, current, b);
    }
    assert pair[..2] == pair;
  }

  /** Sweeping one more base current continues the sweep of the earlier ones. */
  lemma ScheduleStep(s: Sweep, ch: Channel, iv: seq<real>, i: nat, b: Bench)
    requires i < |iv|
    ensures Points(s, ch, Schedule(ch.exc, iv[..i + 1]), b)
         == Points(Points(s, ch, Schedule(ch.exc, iv[..i]), b), ch, Pair(ch.exc, iv[i]), b)
  {
    assert iv[..i + 1][..i] == iv[..i] && iv[..i + 1][i] == iv[i];
    PointsAppend(s, ch, Schedule(ch.exc, iv[..i]), Pair(ch.exc, iv[i]), b);
  }

  /** One channel of `measure_resistance_multichannel`: enable the source,
      sweep the base currents, fit, disable the source. */
  method MeasureChannel(lab: Lab, t: Tables, ch: Channel, iv: seq<real>, b: Bench)
    returns (t': Tables, failed: Option<Error>)
    requires b.voltmeter == lab.voltmeter
    modifies lab
    ensures Sweep(t', lab.calls, lab.voltageReads, failed)
         == ChannelSweep(Sweep(t, old(lab.calls), old(lab.voltageReads), None), ch, iv, b)
    ensures lab.temperatureReads == old(lab.temperatureReads)
  {
    lab.Do(Enable(ch.source));
    ghost var start := Sweep(t, lab.calls, lab.voltageReads, None);
    t' := t;
    for i := 0 to |iv|
      invariant Sweep(t', lab.calls, lab.voltageReads, None) == Points(start, ch, Schedule(ch.exc, iv[..i]), b)
      invariant lab.temperatureReads == old(lab.temperatureReads)
    {
      t' := MeasureBase(lab, t', ch, iv[i], b);
      ScheduleStep(start, ch, iv, i, b);
    }
    assert iv[..|iv|] == iv;
    var fit := b.fit(Get(t'.currents, ch.source, []), Get(t'.voltages, ch.voltmeter, []));
    var refit := Refit(t'.fits, ch.voltmeter, fit);
    if refit.Err? {
      return t', Some(refit.error);
    }
    t' := t'.(fits := refit.value);
    lab.Do(Disable(ch.source));
    failed := None;
  }

  /** `zip(threadnames_CURR, excitation_currents_A, threadnames_RES)`, which
      stops at the shortest list. */
  function Zip3(sources: seq<string>, excs: seq<real>, voltmeters: seq<string>): (chans: seq<Channel>)
    ensures |chans| <= |sources| && |chans| <= |excs| && |chans| <= |voltmeters|
    ensures |sources| == |excs| == |voltmeters| ==> |chans| == |sources|
    ensures forall j :: 0 <= j < |chans| ==> chans[j] == Channel(sources[j], excs[j], voltmeters[j])
    decreases |sources|
  {
    if sources == [] || excs == [] || voltmeters == [] then []
    else [Channel(sources[0], excs[0], voltmeters[0])] + Zip3(sources[1..], excs[1..], voltmeters[1..])
  }

  /** Once a channel has failed, the later channels leave the sweep alone. */
  lemma {:induction false} ChannelsStopped(s: Sweep, chans: seq<Channel>, n: nat, iv: seq<real>, b: Bench)
    requires n <= |chans|
    requires Channels(s, chans[..n], iv, b).failed.Some?
    ensures Channels(s, chans, iv, b) == Channels(s, chans[..n], iv, b)
    decreases |chans|
  {
    if n < |chans| {
      var init := chans[..|chans| - 1];
      assert init[..n] == chans[..n];
      ChannelsStopped(s, init, n, iv, b);
    } else {
      assert chans[..n] == chans;
    }
  }

  /** The loop over the channels. */
  method SweepChannels(lab: Lab, t: Tables, chans: seq<Channel>, iv: seq<real>, b: Bench)
    returns (t': Tables, failed: Option<Error>)
    requires b.voltmeter == lab.voltmeter
    modifies lab
    ensures Sweep(t', lab.calls, lab.voltageReads, failed)
         == Channels(Sweep(t, old(lab.calls), old(lab.voltageReads), None), chans, iv, b)
    ensures lab.temperatureReads == old(lab.temperatureReads)
  {
    ghost var start := Sweep(t, lab.calls, lab.voltageReads, None);
    t' := t;
    failed := None;
    for j := 0 to |chans|
      invariant Sweep(t', lab.calls, lab.voltageReads, None) == Channels(start, chans[..j], iv, b)
      invariant failed == None
      invariant lab.temperatureReads == old(lab.temperatureReads)
    {
      assert chans[..j + 1][..j] == chans[..j] && chans[..j + 1][j] == chans[j];
      t', failed := MeasureChannel(lab, t', chans[j], iv, b);
      if failed.Some? {
        ChannelsStopped(start, chans, j + 1, iv, b);
        return;
      }
    }
    assert chans[..|chans|] == chans;
  }

  // ---------------------------------------------------------------------
  // Temperatures, renaming and the record

  /** The readings before and after the sweep, per sensor; a sensor missing
      from the second reading is a `KeyError`. */
  function Paired(temp1: map<string, real>, temp2: map<string, real>): Result<map<string, seq<real>>> {
    if temp1.Keys <= temp2.Keys then Ok(map k | k in temp1 :: [temp1[k], temp2[k]]) else Err(KeyError)
  }

  /** `temps = {key: [val] ...}` from the first reading, then
      `for key in temps: temps[key].append(temp2[key])`. */
  method PairTemperatures(temp1: map<string, real>, temp2: map<string, real>)
    returns (r: Result<map<string, seq<real>>>)
    ensures r == Paired(temp1, temp2)
  {
    var temps := map k | k in temp1 :: [temp1[k]];
    var remaining := temps.Keys;
    while remaining != {}
      invariant remaining <= temps.Keys && temps.Keys == temp1.Keys
      invariant forall k :: k in temps && k !in remaining ==> k in temp2 && temps[k] == [temp1[k], temp2[k]]
      invariant forall k :: k in remaining ==> temps[k] == [temp1[k]]
      decreases remaining
    {
      var key :| key in remaining;
      if key !in temp2 {
        return Err(KeyError);
      }
      temps := temps[key := temps[key] + [temp2[key]]];
      remaining := remaining - {key};
    }
    assert temp1.Keys <= temp2.Keys by {
      forall k | k in temp1 ensures k in temp2 {
        assert k in temps;
      }
    }
    assert temps == map k | k in temp1 :: [temp1[k], temp2[k]];
    return Ok(temps);
  }

  /** The characters `key.strip('control_')` removes from both ends of a key. */
  const ControlChars: set<char> := {'c', 'o', 'n', 't', 'r', 'l', '_'}

  /** The keys of a dictionary built from `names`, in insertion order. */
  function FirstOccurrences(names: seq<string>): (keys: seq<string>)
    ensures forall k :: k in keys <==> k in names
    ensures forall i, j :: 0 <= i < j < |keys| ==> keys[i] != keys[j]
    decreases |names|
  {
    if names == [] then []
    else
      var init := FirstOccurrences(names[..|names| - 1]);
      if names[|names| - 1] in init then init else init + [names[|names| - 1]]
  }

  /** `{key.strip('control_'): value for ...}` over `keys` in order; a later
      key whose stripped form collides with an earlier one wins. */
  function Rename<V>(keys: seq<string>, m: map<string, V>): map<string, V>
    decreases |keys|
  {
    if keys == [] then map[]
    else
      var k := keys[|keys| - 1];
      var r := Rename(keys[..|keys| - 1], m);
      if k in m then r[Strip(k, ControlChars) := m[k]] else r
  }

  /** The renamed copy of a dictionary whose keys were inserted from `names`. */
  function Renamed<V>(names: seq<string>, m: map<string, V>): map<string, V> {
    Rename(FirstOccurrences(names), m)
  }

  /** The record `measure_resistance_multichannel` returns, without the
      clock readings and the data frame. */
  datatype Measurement = Measurement(
    meanTemperatures: map<string, real>,     // T_mean_K
    stdTemperatures: map<string, real>,      // T_std_K
    resistances: map<string, ChannelFit>,
    voltages: map<string, seq<real>>,
    currents: map<string, seq<real>>,
    datafile: string)

  /** Distinct keys stay distinct once a suffix is appended. */
  lemma SuffixInjective(suffix: string)
    ensures forall a: string, b: string {:trigger a + suffix, b + suffix} :: a + suffix == b + suffix ==> a == b
  {
    forall a: string, b: string | a + suffix == b + suffix ensures a == b {
      assert |a| == |b|;
      assert a == (a + suffix)[..|a|] && b == (b + suffix)[..|b|];
    }
  }

  /** One entry per key of `temps`, under the key with `suffix` appended,
      holding `f` of that key's readings. */
  function Tagged(temps: map<string, seq<real>>, suffix: string, f: seq<real> -> real): (r: map<string, real>)
    ensures r.Keys == set k | k in temps :: k + suffix
    ensures forall k :: k in temps ==> r[k + suffix] == f(temps[k])
  {
    SuffixInjective(suffix);
    map k | k in temps :: k + suffix := f(temps[k])
  }

  function Assemble(temps: map<string, seq<real>>, t: Tables, sources: seq<string>, voltmeters: seq<string>,
                    datafile: string, numerics: Numerics): Measurement
  {
    Measurement(Tagged(temps, "_mean", numerics.mean), Tagged(temps, "_std", numerics.sampleStd),
                Renamed(voltmeters, t.fits), Renamed(voltmeters, t.voltages), Renamed(sources, t.currents),
                datafile)
  }

  /** The dictionaries before the sweep: an empty list per source and per
      voltmeter, and a zero record per voltmeter. */
  function InitialTables(sources: seq<string>, voltmeters: seq<string>): Tables {
    Tables(map k | k in sources :: [], map k | k in voltmeters :: [], map k | k in voltmeters :: Unfitted)
  }

  /** The channels swept in order, after the first temperature reading, from
      the dictionaries before the sweep. */
  function SweepFrom(log: seq<Call>, taken: nat, sources: seq<string>, excs: seq<real>, voltmeters: seq<string>,
                     iv: seq<real>, tempName: string, b: Bench): Sweep
    requires Coincide([|sources|, |voltmeters|, |excs|])
  {
    CoincideThree(|sources|, |voltmeters|, |excs|);
    Channels(Sweep(InitialTables(sources, voltmeters), log + [ReadTemperatures(tempName)], taken, None),
             Zip3(sources, excs, voltmeters), iv, b)
  }

  /** The outcome of one measurement, and the lab's call log after it. */
  datatype Run = Run(result: Result<Measurement>, calls: seq<Call>)

  /** `measure_resistance_multichannel`, from the call log and the readings
      the lab will give: the length check, the first temperatures, the
      channels, the second temperatures, and the record. */
  function Multichannel(log: seq<Call>, taken: nat, temp1: map<string, real>, temp2: map<string, real>,
                        sources: seq<string>, excs: seq<real>, voltmeters: seq<string>, iv: seq<real>,
                        tempName: string, b: Bench, numerics: Numerics, datafile: Option<string>): (run: Run)
    ensures log <= run.calls
    ensures run.result.Ok? ==> datafile.Some? && run.result.value.datafile == datafile.value
  {
    if !Coincide([|sources|, |voltmeters|, |excs|]) then Run(Err(InvalidArgument), log)
    else
      SweepFromGrows(log, taken, sources, excs, voltmeters, iv, tempName, b);
      var swept := SweepFrom(log, taken, sources, excs, voltmeters, iv, tempName, b);
      if swept.failed.Some? then Run(Err(swept.failed.value), swept.calls)
      else
        var calls := swept.calls + [ReadTemperatures(tempName)];
        var temps := Paired(temp1, temp2);
        if temps.Err? then Run(Err(temps.error), calls)
        else if datafile.None? then Run(Err(KeyError), calls)
        else Run(Ok(Assemble(temps.value, swept.tables, sources, voltmeters, datafile.value, numerics)), calls)
  }

  /** `measure_resistance_multichannel(threads, excitation_currents_A,
      threadnames_RES, threadnames_CURR, iv_characteristic, ...)`; `datafile`
      is the keyword argument of that name, absent as `None`. */
  method MeasureResistanceMultichannel(lab: Lab, numerics: Numerics, excitationCurrents: seq<real>,
                                       voltmeters: seq<string>, sources: seq<string>, iv: seq<real>,
                                       datafile: Option<string>,
                                       tempName: string := "control_LakeShore350", reversal: real := 0.08)
    returns (r: Result<Measurement>)
    modifies lab
    ensures var run := Multichannel(old(lab.calls), old(lab.voltageReads),
                                    lab.thermometer(old(lab.temperatureReads)),
                                    lab.thermometer(old(lab.temperatureReads) + 1),
                                    sources, excitationCurrents, voltmeters, iv, tempName,
                                    Bench(lab.voltmeter, numerics.fit, reversal), numerics, datafile);
            r == run.result && lab.calls == run.calls
  {
    if !Coincide([|sources|, |voltmeters|, |excitationCurrents|]) {
      return Err(InvalidArgument);
    }
    var b := Bench(lab.voltmeter, numerics.fit, reversal);
    var tables := InitialTables(sources, voltmeters);
    var temp1 := lab.ReadTemperatures(tempName);
    var failed;
    tables, failed := SweepChannels(lab, tables, Zip3(sources, excitationCurrents, voltmeters), iv, b);
    if failed.Some? {
      return Err(failed.value);
    }
    var temp2 := lab.ReadTemperatures(tempName);
    var temps := PairTemperatures(temp1, temp2);
    if temps.Err? {
      return Err(temps.error);
    }
    if datafile.None? {
      return Err(KeyError);
    }
    r := Ok(Assemble(temps.value, tables, sources, voltmeters, datafile.value, numerics));
  }

  // ---------------------------------------------------------------------
  // What the sweep does

  /** The `n` voltages the lab gives from its `from`-th reading on. */
  function Readings(voltmeter: nat -> real, from: nat, n: nat): (vs: seq<real>)
    ensures |vs| == n
    ensures forall k :: 0 <= k < n ==> vs[k] == voltmeter(from + k)
  {
    seq(n, k requires 0 <= k < n => voltmeter(from + k))
  }

  /** The calls of the set-points `cs`, in order. */
  function SweepCalls(ch: Channel, cs: seq<real>, reversal: real): seq<Call>
    decreases |cs|
  {
    if cs == [] then [] else SweepCalls(ch, cs[..|cs| - 1], reversal) + PointCalls(ch, cs[|cs| - 1], reversal)
  }

  /** The set-points append their currents to the source's list and one
      fresh reading each to the voltmeter's list, and touch no other list. */
  lemma {:induction false} PointsSpec(s: Sweep, ch: Channel, cs: seq<real>, b: Bench)
    ensures var p := Points(s, ch, cs, b);
      && Get(p.tables.currents, ch.source, []) == Get(s.tables.currents, ch.source, []) + cs
      && Get(p.tables.voltages, ch.voltmeter, []) == Get(s.tables.voltages, ch.voltmeter, []) + Readings(b.voltmeter, s.taken, |cs|)
      && (forall k :: k != ch.source ==> Get(p.tables.currents, k, []) == Get(s.tables.currents, k, []))
      && (forall k :: k != ch.voltmeter ==> Get(p.tables.voltages, k, []) == Get(s.tables.voltages, k, []))
      && p.tables.fits == s.tables.fits
      && p.calls == s.calls + SweepCalls(ch, cs, b.reversal)
      && p.taken == s.taken + |cs| && p.failed == s.failed
    decreases |cs|
  {
    if cs == [] {
      assert Readings(b.voltmeter, s.taken, 0) == [];
    } else {
      var cs' := cs[..|cs| - 1];
      PointsSpec(s, ch, cs', b);
      var p' := Points(s, ch, cs', b);
      assert cs == cs' + [cs[|cs| - 1]];
      assert Readings(b.voltmeter, s.taken, |cs|) == Readings(b.voltmeter, s.taken, |cs'|) + [b.voltmeter(p'.taken)];
    }
  }

  /** A successful refit stores the fit's slope and residual, raises
      `nonohmic` exactly when the residual exceeds the threshold (and never
      lowers it), and leaves the other records alone. It succeeds exactly
      when there are two coefficients and one residual. */
  lemma RefitSpec(fits: map<string, ChannelFit>, voltmeter: string, fit: Fit)
    ensures Refit(fits, voltmeter, fit).Ok? <==> |fit.coeffs| >= 2 && |fit.residuals| == 1
    ensures Refit(fits, voltmeter, fit).Ok? ==>
      var r := Refit(fits, voltmeter, fit).value;
      var prior := Get(fits, voltmeter, Unfitted);
      && voltmeter in r && r[voltmeter].coeff == fit.coeffs[1] && r[voltmeter].residuals == fit.residuals[0]
      && (prior.nonohmic == 0 ==> (r[voltmeter].nonohmic == 1 <==> fit.residuals[0] > ResidualThreshold))
      && (prior.nonohmic == 0 ==> r[voltmeter] == FitRecord(fit))
      && (prior.nonohmic == 1 ==> r[voltmeter].nonohmic == 1)
      && forall k :: k != voltmeter ==> Get(r, k, Unfitted) == Get(fits, k, Unfitted)
  {
  }

  /** One channel whose lists start empty: it enables the source, sets the
      schedule's currents with one reading each, fits, and on success
      disables the source and holds exactly the schedule and its readings. */
  lemma ChannelSpec(s: Sweep, ch: Channel, iv: seq<real>, b: Bench)
    requires s.failed.None?
    requires Get(s.tables.currents, ch.source, []) == [] && Get(s.tables.voltages, ch.voltmeter, []) == []
    ensures var c := ChannelSweep(s, ch, iv, b);
      var cs := Schedule(ch.exc, iv);
      var vs := Readings(b.voltmeter, s.taken, 2 * |iv|);
      var refit := Refit(s.tables.fits, ch.voltmeter, b.fit(cs, vs));
      && |cs| == 2 * |iv|
      && (c.failed.None? <==> refit.Ok?)
      && c.calls == s.calls + [Enable(ch.source)] + SweepCalls(ch, cs, b.reversal)
                    + (if refit.Ok? then [Disable(ch.source)] else [])
      && c.taken == s.taken + 2 * |iv|
      && (refit.Ok? ==>
            && Get(c.tables.currents, ch.source, []) == cs
            && Get(c.tables.voltages, ch.voltmeter, []) == vs
            && c.tables.fits == refit.value
            && (forall k :: k != ch.source ==> Get(c.tables.currents, k, []) == Get(s.tables.currents, k, []))
            && (forall k :: k != ch.voltmeter ==> Get(c.tables.voltages, k, []) == Get(s.tables.voltages, k, [])))
  {
    var cs := Schedule(ch.exc, iv);
    ScheduleSpec(ch.exc, iv);
    var vs := Readings(b.voltmeter, s.taken, 2 * |iv|);
    var s1 := s.(calls := s.calls + [Enable(ch.source)]);
    var swept := Points(s1, ch, cs, b);
    PointsSpec(s1, ch, cs, b);
    assert [] + cs == cs && [] + vs == vs;
    assert FitOf(swept.tables, ch, b) == b.fit(cs, vs);
    assert ChannelSweep(s, ch, iv, b) == 
      var refit := Refit(s.tables.fits, ch.voltmeter, b.fit(cs, vs));
      if refit.Err? then swept.(failed := Some(refit.error))
      else Sweep(swept.tables.(fits := refit.value), swept.calls + [Disable(ch.source)], swept.taken, None);
  }

  /** No two channels share a current source or a voltmeter. */
  predicate Separate(chans: seq<Channel>) {
    forall i, j :: 0 <= i < j < |chans| ==> chans[i].source != chans[j].source && chans[i].voltmeter != chans[j].voltmeter
  }

  /** Every channel's lists are empty and its record is unfitted. */
  predicate Fresh(t: Tables, chans: seq<Channel>) {
    forall j :: 0 <= j < |chans| ==>
      Get(t.currents, chans[j].source, []) == [] && Get(t.voltages, chans[j].voltmeter, []) == []
      && Get(t.fits, chans[j].voltmeter, Unfitted).nonohmic == 0
  }

  /** The calls of one successful channel. */
  function ChannelCalls(ch: Channel, iv: seq<real>, reversal: real): seq<Call> {
    [Enable(ch.source)] + SweepCalls(ch, Schedule(ch.exc, iv), reversal) + [Disable(ch.source)]
  }

  /** The calls of successful channels, in order. */
  function AllChannelCalls(chans: seq<Channel>, iv: seq<real>, reversal: real): seq<Call>
    decreases |chans|
  {
    if chans == [] then []
    else AllChannelCalls(chans[..|chans| - 1], iv, reversal) + ChannelCalls(chans[|chans| - 1], iv, reversal)
  }

  /** What a channel of a successful sweep holds: the schedule of its
      excitation current, the readings `vs` taken during it, and a record
      whose `nonohmic` is 1 exactly when the fit residual exceeds the
      threshold. */
  predicate ChannelHolds(c: Tables, ch: Channel, iv: seq<real>, vs: seq<real>, b: Bench) {
    var cs := Schedule(ch.exc, iv);
    var fit := b.fit(cs, vs);
    && Get(c.currents, ch.source, []) == cs
    && Get(c.voltages, ch.voltmeter, []) == vs
    && |fit.coeffs| >= 2 && |fit.residuals| == 1
    && Get(c.fits, ch.voltmeter, Unfitted) == FitRecord(fit)
  }

  /** The record of a first fit: slope, residual, and `nonohmic` set exactly
      when the residual exceeds the threshold. */
  function FitRecord(fit: Fit): ChannelFit
    requires |fit.coeffs| >= 2 && |fit.residuals| == 1
  {
    ChannelFit(fit.coeffs[1], fit.residuals[0], if fit.residuals[0] > ResidualThreshold then 1 else 0)
  }

  function Sources(chans: seq<Channel>): set<string> {
    set j | 0 <= j < |chans| :: chans[j].source
  }

  function Voltmeters(chans: seq<Channel>): set<string> {
    set j | 0 <= j < |chans| :: chans[j].voltmeter
  }

  /** `c` agrees with `t` outside the given sources and voltmeters. */
  ghost predicate Untouched(c: Tables, t: Tables, sources: set<string>, voltmeters: set<string>) {
    && (forall k :: k !in sources ==> Get(c.currents, k, []) == Get(t.currents, k, []))
    && (forall k :: k !in voltmeters ==> Get(c.voltages, k, []) == Get(t.voltages, k, []))
    && (forall k :: k !in voltmeters ==> Get(c.fits, k, Unfitted) == Get(t.fits, k, Unfitted))
  }

  /** The position after `j` blocks of `width` readings from `base`. */
  function Offset(base: nat, j: nat, width: nat): nat
    decreases j
  {
    if j == 0 then base else Offset(base, j - 1, width) + width
  }

  lemma {:induction false} OffsetValue(base: nat, j: nat, width: nat)
    ensures Offset(base, j, width) == base + j * width
    decreases j
  {
    if j > 0 {
      OffsetValue(base, j - 1, width);
    }
  }

  /** The readings of channel `j`: the `2·|iv|` taken after the earlier channels'. */
  function ChannelReadings(s: Sweep, j: nat, iv: seq<real>, b: Bench): seq<real> {
    Readings(b.voltmeter, Offset(s.taken, j, 2 * |iv|), 2 * |iv|)
  }

  /** `c` is a successful sweep of `chans` from `s`. */
  ghost predicate SweptAs(s: Sweep, c: Sweep, chans: seq<Channel>, iv: seq<real>, b: Bench) {
    && c.taken == Offset(s.taken, |chans|, 2 * |iv|)
    && c.calls == s.calls + AllChannelCalls(chans, iv, b.reversal)
    && (forall j :: 0 <= j < |chans| ==> ChannelHolds(c.tables, chans[j], iv, ChannelReadings(s, j, iv, b), b))
    && Untouched(c.tables, s.tables, Sources(chans), Voltmeters(chans))
  }

  /** A successful sweep over separate channels whose lists start empty:
      every channel holds its own schedule and readings, the readings are
      taken channel after channel, the calls are the channels' calls in
      order, and no other list changes. */
  lemma {:induction false} ChannelsSpec(s: Sweep, chans: seq<Channel>, iv: seq<real>, b: Bench)
    requires s.failed.None? && Separate(chans) && Fresh(s.tables, chans)
    requires Channels(s, chans, iv, b).failed.None?
    ensures SweptAs(s, Channels(s, chans, iv, b), chans, iv, b)
    decreases |chans|
  {
    if chans == [] {
      assert Sources(chans) == {} && Voltmeters(chans) == {};
    } else {
      var init := chans[..|chans| - 1];
      var last := chans[|chans| - 1];
      assert chans == init + [last];
      var c' := Channels(s, init, iv, b);
      assert c'.failed.None?;
      assert Separate(init) && Fresh(s.tables, init) by {
        assert forall j :: 0 <= j < |init| ==> init[j] == chans[j];
      }
      ChannelsSpec(s, init, iv, b);
      ChannelStep(s, c', init, last, iv, b);
    }
  }

  /** A kept entry keeps what a channel holds. */
  lemma HoldsKept(c: Tables, c': Tables, ch: Channel, iv: seq<real>, vs: seq<real>, b: Bench,
                  sources: set<string>, voltmeters: set<string>)
    requires ChannelHolds(c', ch, iv, vs, b) && Untouched(c, c', sources, voltmeters)
    requires ch.source !in sources && ch.voltmeter !in voltmeters
    ensures ChannelHolds(c, ch, iv, vs, b)
  {
  }

  lemma UntouchedTrans(c: Tables, c': Tables, t: Tables, s1: set<string>, v1: set<string>, s2: set<string>, v2: set<string>)
    requires Untouched(c, c', s1, v1) && Untouched(c', t, s2, v2)
    ensures Untouched(c, t, s2 + s1, v2 + v1)
  {
  }

  /** The channels before the last keep what they hold, and the last holds
      its own. */
  lemma ExtendHolds(s: Sweep, c: Tables, c': Tables, init: seq<Channel>, last: Channel, iv: seq<real>, b: Bench)
    requires forall j :: 0 <= j < |init| ==> ChannelHolds(c', init[j], iv, ChannelReadings(s, j, iv, b), b)
    requires ChannelHolds(c, last, iv, ChannelReadings(s, |init|, iv, b), b)
    requires Untouched(c, c', {last.source}, {last.voltmeter})
    requires last.source !in Sources(init) && last.voltmeter !in Voltmeters(init)
    ensures forall j :: 0 <= j < |init + [last]| ==> ChannelHolds(c, (init + [last])[j], iv, ChannelReadings(s, j, iv, b), b)
  {
    var chans := init + [last];
    forall j | 0 <= j < |chans|
      ensures ChannelHolds(c, chans[j], iv, ChannelReadings(s, j, iv, b), b)
    {
      if j < |init| {
        assert chans[j] == init[j];
        assert init[j].source in Sources(init) && init[j].voltmeter in Voltmeters(init);
        HoldsKept(c, c', init[j], iv, ChannelReadings(s, j, iv, b), b, {last.source}, {last.voltmeter});
      } else {
        assert chans[j] == last;
      }
    }
  }

  /** The names of separate channels, with one more channel. */
  lemma NamesOfLast(init: seq<Channel>, last: Channel)
    requires Separate(init + [last])
    ensures Sources(init + [last]) == Sources(init) + {last.source}
    ensures Voltmeters(init + [last]) == Voltmeters(init) + {last.voltmeter}
    ensures last.source !in Sources(init) && last.voltmeter !in Voltmeters(init)
  {
    var chans := init + [last];
    assert chans[|init|] == last;
    assert forall j :: 0 <= j < |init| ==> chans[j] == init[j];
  }

  /** The sweep of a last channel whose lists are still empty. */
  lemma LastChannel(c': Sweep, last: Channel, iv: seq<real>, vs: seq<real>, b: Bench)
    requires c'.failed.None? && ChannelSweep(c', last, iv, b).failed.None?
    requires Get(c'.tables.currents, last.source, []) == [] && Get(c'.tables.voltages, last.voltmeter, []) == []
    requires Get(c'.tables.fits, last.voltmeter, Unfitted).nonohmic == 0
    requires vs == Readings(b.voltmeter, c'.taken, 2 * |iv|)
    ensures var c := ChannelSweep(c', last, iv, b);
      && c.taken == c'.taken + 2 * |iv|
      && c.calls == c'.calls + ChannelCalls(last, iv, b.reversal)
      && ChannelHolds(c.tables, last, iv, vs, b)
      && Untouched(c.tables, c'.tables, {last.source}, {last.voltmeter})
  {
    ChannelSpec(c', last, iv, b);
    RefitSpec(c'.tables.fits, last.voltmeter, b.fit(Schedule(last.exc, iv), vs));
  }

  /** A sweep of one more channel that keeps the earlier channels' entries
      extends a successful sweep of the earlier channels. */
  lemma Extend(s: Sweep, c': Sweep, c: Sweep, init: seq<Channel>, last: Channel, iv: seq<real>, b: Bench)
    requires SweptAs(s, c', init, iv, b)
    requires Sources(init + [last]) == Sources(init) + {last.source}
    requires Voltmeters(init + [last]) == Voltmeters(init) + {last.voltmeter}
    requires last.source !in Sources(init) && last.voltmeter !in Voltmeters(init)
    requires c.taken == c'.taken + 2 * |iv|
    requires c.calls == c'.calls + ChannelCalls(last, iv, b.reversal)
    requires ChannelHolds(c.tables, last, iv, ChannelReadings(s, |init|, iv, b), b)
    requires Untouched(c.tables, c'.tables, {last.source}, {last.voltmeter})
    ensures SweptAs(s, c, init + [last], iv, b)
  {
    ExtendHolds(s, c.tables, c'.tables, init, last, iv, b);
    UntouchedTrans(c.tables, c'.tables, s.tables, {last.source}, {last.voltmeter}, Sources(init), Voltmeters(init));
    ExtendCalls(s.calls, c'.calls, c.calls, init, last, iv, b.reversal);
  }

  /** The calls of one more channel follow those of the channels before it. */
  lemma ExtendCalls(before: seq<Call>, mid: seq<Call>, after: seq<Call>, init: seq<Channel>, last: Channel, iv: seq<real>, reversal: real)
    requires mid == before + AllChannelCalls(init, iv, reversal)
    requires after == mid + ChannelCalls(last, iv, reversal)
    ensures after == before + AllChannelCalls(init + [last], iv, reversal)
  {
    assert (init + [last])[..|init|] == init;
    assert before + AllChannelCalls(init, iv, reversal) + ChannelCalls(last, iv, reversal)
        == before + (AllChannelCalls(init, iv, reversal) + ChannelCalls(last, iv, reversal));
  }

  /** The last channel of a sweep keeps what the earlier channels hold. */
  lemma ChannelStep(s: Sweep, c': Sweep, init: seq<Channel>, last: Channel, iv: seq<real>, b: Bench)
    requires Separate(init + [last]) && Fresh(s.tables, init + [last])
    requires c'.failed.None? && ChannelSweep(c', last, iv, b).failed.None?
    requires SweptAs(s, c', init, iv, b)
    ensures SweptAs(s, ChannelSweep(c', last, iv, b), init + [last], iv, b)
  {
    NamesOfLast(init, last);
    assert Get(s.tables.currents, last.source, []) == [] && Get(s.tables.voltages, last.voltmeter, []) == []
        && Get(s.tables.fits, last.voltmeter, Unfitted).nonohmic == 0 by {
      assert (init + [last])[|init|] == last;
    }
    LastChannel(c', last, iv, ChannelReadings(s, |init|, iv, b), b);
    Extend(s, c', ChannelSweep(c', last, iv, b), init, last, iv, b);
  }

  /** Set-points only add to the call log and to the keys of the tables. */
  lemma {:induction false} PointsGrow(s: Sweep, ch: Channel, cs: seq<real>, b: Bench)
    ensures var p := Points(s, ch, cs, b);
      && s.calls <= p.calls && p.tables.fits == s.tables.fits && p.failed == s.failed
      && s.tables.currents.Keys <= p.tables.currents.Keys
      && s.tables.voltages.Keys <= p.tables.voltages.Keys
    decreases |cs|
  {
    if cs != [] {
      PointsGrow(s, ch, cs[..|cs| - 1], b);
    }
  }

  /** A sweep only adds to the call log and to the keys of its tables. */
  lemma {:induction false} ChannelsGrow(s: Sweep, chans: seq<Channel>, iv: seq<real>, b: Bench)
    ensures var c := Channels(s, chans, iv, b);
      && s.calls <= c.calls
      && s.tables.currents.Keys <= c.tables.currents.Keys
      && s.tables.voltages.Keys <= c.tables.voltages.Keys
      && s.tables.fits.Keys <= c.tables.fits.Keys
    decreases |chans|
  {
    if chans != [] {
      var last := chans[|chans| - 1];
      ChannelsGrow(s, chans[..|chans| - 1], iv, b);
      var c' := Channels(s, chans[..|chans| - 1], iv, b);
      if c'.failed.None? {
        var s1 := c'.(calls := c'.calls + [Enable(last.source)]);
        PointsGrow(s1, last, Schedule(last.exc, iv), b);
      }
    }
  }

  /** The check on the list lengths comes first: the measurement fails
      before any instrument call exactly when the lengths differ. */
  lemma LengthCheckFirst(log: seq<Call>, taken: nat, temp1: map<string, real>, temp2: map<string, real>,
                         sources: seq<string>, excs: seq<real>, voltmeters: seq<string>, iv: seq<real>,
                         tempName: string, b: Bench, numerics: Numerics, datafile: Option<string>)
    ensures var run := Multichannel(log, taken, temp1, temp2, sources, excs, voltmeters, iv, tempName, b, numerics, datafile);
      (run.result == Err(InvalidArgument) && run.calls == log) <==> !(|sources| == |voltmeters| == |excs|)
  {
    CoincideThree(|sources|, |voltmeters|, |excs|);
    if |sources| == |voltmeters| == |excs| {
      var swept := SweepFrom(log, taken, sources, excs, voltmeters, iv, tempName, b);
      SweepFromGrows(log, taken, sources, excs, voltmeters, iv, tempName, b);
      var run := Multichannel(log, taken, temp1, temp2, sources, excs, voltmeters, iv, tempName, b, numerics, datafile);
      assert run.calls == swept.calls || run.calls == swept.calls + [ReadTemperatures(tempName)];
    }
  }

  /** The sweep starts from the first temperature reading and only adds calls. */
  lemma SweepFromGrows(log: seq<Call>, taken: nat, sources: seq<string>, excs: seq<real>, voltmeters: seq<string>,
                       iv: seq<real>, tempName: string, b: Bench)
    requires Coincide([|sources|, |voltmeters|, |excs|])
    ensures |SweepFrom(log, taken, sources, excs, voltmeters, iv, tempName, b).calls| > |log|
    ensures log + [ReadTemperatures(tempName)] <= SweepFrom(log, taken, sources, excs, voltmeters, iv, tempName, b).calls
  {
    var start := Sweep(InitialTables(sources, voltmeters), log + [ReadTemperatures(tempName)], taken, None);
    ChannelsGrow(start, Zip3(sources, excs, voltmeters), iv, b);
  }

  // ---------------------------------------------------------------------
  // Renaming

  /** No two different names strip to the same key. */
  predicate NoCollisions(names: seq<string>) {
    forall i, j :: 0 <= i < |names| && 0 <= j < |names| && names[i] != names[j] ==>
      Strip(names[i], ControlChars) != Strip(names[j], ControlChars)
  }

  /** Without collisions every key present in `m` reappears, stripped, with
      its own value, and nothing else appears. */
  lemma {:induction false} RenameSpec<V>(keys: seq<string>, m: map<string, V>)
    requires NoCollisions(keys)
    ensures forall i :: 0 <= i < |keys| && keys[i] in m ==>
      Strip(keys[i], ControlChars) in Rename(keys, m) && Rename(keys, m)[Strip(keys[i], ControlChars)] == m[keys[i]]
    ensures forall k :: k in Rename(keys, m) ==> exists i :: 0 <= i < |keys| && keys[i] in m && k == Strip(keys[i], ControlChars)
    decreases |keys|
  {
    if keys != [] {
      var init := keys[..|keys| - 1];
      assert NoCollisions(init) by {
        assert forall i :: 0 <= i < |init| ==> init[i] == keys[i];
      }
      RenameSpec(init, m);
      forall i | 0 <= i < |keys| && keys[i] in m
        ensures Strip(keys[i], ControlChars) in Rename(keys, m) && Rename(keys, m)[Strip(keys[i], ControlChars)] == m[keys[i]]
      {
        if i < |init| {
          assert init[i] == keys[i];
        }
      }
      forall k | k in Rename(keys, m)
        ensures exists i :: 0 <= i < |keys| && keys[i] in m && k == Strip(keys[i], ControlChars)
      {
        if k != Strip(keys[|keys| - 1], ControlChars) || keys[|keys| - 1] !in m {
          assert k in Rename(init, m);
          var i :| 0 <= i < |init| && init[i] in m && k == Strip(init[i], ControlChars);
          assert keys[i] == init[i];
        }
      }
    }
  }

  /** The renamed dictionary of one built from `names`: without collisions,
      each name's value under its stripped key, and no other key. */
  lemma RenamedSpec<V>(names: seq<string>, m: map<string, V>)
    requires NoCollisions(names)
    ensures forall k :: k in names && k in m ==>
      Strip(k, ControlChars) in Renamed(names, m) && Renamed(names, m)[Strip(k, ControlChars)] == m[k]
    ensures forall k :: k in Renamed(names, m) ==> exists n :: n in names && n in m && k == Strip(n, ControlChars)
  {
    var keys := FirstOccurrences(names);
    assert NoCollisions(keys) by {
      forall i, j | 0 <= i < |keys| && 0 <= j < |keys| && keys[i] != keys[j]
        ensures Strip(keys[i], ControlChars) != Strip(keys[j], ControlChars)
      {
        assert keys[i] in names && keys[j] in names;
      }
    }
    RenameSpec(keys, m);
    forall k | k in names && k in m
      ensures Strip(k, ControlChars) in Renamed(names, m) && Renamed(names, m)[Strip(k, ControlChars)] == m[k]
    {
      assert k in keys;
      var i :| 0 <= i < |keys| && keys[i] == k;
    }
  }

  /** A name made of `control_` and a rest whose ends survive the strip
      loses exactly its `control_` prefix. */
  lemma ControlPrefixStripped(rest: string)
    requires rest != [] && rest[0] !in ControlChars && rest[|rest| - 1] !in ControlChars
    ensures Strip("control_" + rest, ControlChars) == rest
    ensures RemovePrefix("control_" + rest, "control_") == rest
  {
    StripAfterPrefix("control_", rest, ControlChars);
    assert "control_" <= "control_" + rest;
  }

  /** Two names that strip apart do not collide. */
  lemma StrippedApart(x: string, y: string)
    requires Strip(x, ControlChars) != Strip(y, ControlChars)
    ensures NoCollisions([x, y])
  {
  }

  /** The voltmeter names of the one-shot configuration lose their
      `control_` prefix and stay apart. */
  lemma DefaultVoltmetersStripped(v1: string, v2: string)
    requires v1 == "control_" + "Keithley2182_1" && v2 == "control_" + "Keithley2182_2"
    ensures Strip(v1, ControlChars) == "Keithley2182_1" && Strip(v2, ControlChars) == "Keithley2182_2"
    ensures NoCollisions([v1, v2])
  {
    ControlPrefixStripped("Keithley2182_1");
    ControlPrefixStripped("Keithley2182_2");
    assert "Keithley2182_1"[13] != "Keithley2182_2"[13];
    StrippedApart(v1, v2);
  }

  /** The current-source names of the one-shot configuration lose their
      `control_` prefix and stay apart. */
  lemma DefaultSourcesStripped(s1: string, s2: string)
    requires s1 == "control_" + "Keithley6221_1" && s2 == "control_" + "Keithley6221_2"
    ensures Strip(s1, ControlChars) == "Keithley6221_1" && Strip(s2, ControlChars) == "Keithley6221_2"
    ensures NoCollisions([s1, s2])
  {
    ControlPrefixStripped("Keithley6221_1");
    ControlPrefixStripped("Keithley6221_2");
    assert "Keithley6221_1"[13] != "Keithley6221_2"[13];
    StrippedApart(s1, s2);
  }

  // ---------------------------------------------------------------------
  // What a successful measurement reports

  /** A successful measurement: the lengths coincide, no channel failed,
      both temperature readings have the same sensors, a data file is named,
      and the record is assembled from the swept dictionaries. */
  lemma MultichannelOk(log: seq<Call>, taken: nat, temp1: map<string, real>, temp2: map<string, real>,
                       sources: seq<string>, excs: seq<real>, voltmeters: seq<string>, iv: seq<real>,
                       tempName: string, b: Bench, numerics: Numerics, datafile: Option<string>)
    requires Multichannel(log, taken, temp1, temp2, sources, excs, voltmeters, iv, tempName, b, numerics, datafile).result.Ok?
    ensures |sources| == |excs| == |voltmeters|
    ensures var swept := SweepFrom(log, taken, sources, excs, voltmeters, iv, tempName, b);
      var run := Multichannel(log, taken, temp1, temp2, sources, excs, voltmeters, iv, tempName, b, numerics, datafile);
      && swept.failed.None? && Paired(temp1, temp2).Ok? && datafile.Some?
      && run.calls == swept.calls + [ReadTemperatures(tempName)]
      && run.result.value == Assemble(Paired(temp1, temp2).value, swept.tables, sources, voltmeters, datafile.value, numerics)
  {
    CoincideThree(|sources|, |voltmeters|, |excs|);
  }

  /** Both temperature readings are paired per sensor of the first. */
  lemma PairedSpec(temp1: map<string, real>, temp2: map<string, real>)
    ensures Paired(temp1, temp2).Ok? <==> temp1.Keys <= temp2.Keys
    ensures Paired(temp1, temp2).Ok? ==>
      && Paired(temp1, temp2).value.Keys == temp1.Keys
      && forall k :: k in temp1 ==> Paired(temp1, temp2).value[k] == [temp1[k], temp2[k]]
  {
  }

  /** Every sensor of the first reading is read again after the channels,
      and its mean and sample deviation are over exactly those two readings. */
  lemma MultichannelTemperatures(log: seq<Call>, taken: nat, temp1: map<string, real>, temp2: map<string, real>,
                                 sources: seq<string>, excs: seq<real>, voltmeters: seq<string>, iv: seq<real>,
                                 tempName: string, b: Bench, numerics: Numerics, datafile: Option<string>)
    requires Multichannel(log, taken, temp1, temp2, sources, excs, voltmeters, iv, tempName, b, numerics, datafile).result.Ok?
    ensures var m := Multichannel(log, taken, temp1, temp2, sources, excs, voltmeters, iv, tempName, b, numerics, datafile).result.value;
      && temp1.Keys <= temp2.Keys
      && m.meanTemperatures.Keys == (set k | k in temp1 :: k + "_mean")
      && m.stdTemperatures.Keys == (set k | k in temp1 :: k + "_std")
      && (forall k :: k in temp1 ==>
            && m.meanTemperatures[k + "_mean"] == numerics.mean([temp1[k], temp2[k]])
            && m.stdTemperatures[k + "_std"] == numerics.sampleStd([temp1[k], temp2[k]]))
      && m.datafile == datafile.value
  {
    MultichannelOk(log, taken, temp1, temp2, sources, excs, voltmeters, iv, tempName, b, numerics, datafile);
    PairedSpec(temp1, temp2);
    var swept := SweepFrom(log, taken, sources, excs, voltmeters, iv, tempName, b);
  }

  /** No name occurs twice. */
  predicate Unique(names: seq<string>) {
    forall i, j :: 0 <= i < j < |names| ==> names[i] != names[j]
  }

  /** What the record says about one channel: under the stripped names, the
      schedule of currents, the readings `vs`, and the fit record. */
  predicate Reported(m: Measurement, ch: Channel, iv: seq<real>, vs: seq<real>, b: Bench) {
    var cs := Schedule(ch.exc, iv);
    var fit := b.fit(cs, vs);
    var source := Strip(ch.source, ControlChars);
    var voltmeter := Strip(ch.voltmeter, ControlChars);
    && source in m.currents && m.currents[source] == cs
    && voltmeter in m.voltages && m.voltages[voltmeter] == vs
    && |fit.coeffs| >= 2 && |fit.residuals| == 1
    && voltmeter in m.resistances && m.resistances[voltmeter] == FitRecord(fit)
  }

  /** The renamed record reports what the swept tables hold. */
  lemma ReportedFromTables(m: Measurement, t: Tables, sources: seq<string>, voltmeters: seq<string>,
                           ch: Channel, iv: seq<real>, vs: seq<real>, b: Bench)
    requires m.currents == Renamed(sources, t.currents)
    requires m.voltages == Renamed(voltmeters, t.voltages)
    requires m.resistances == Renamed(voltmeters, t.fits)
    requires NoCollisions(sources) && NoCollisions(voltmeters)
    requires ch.source in sources && ch.voltmeter in voltmeters
    requires ch.source in t.currents && ch.voltmeter in t.voltages && ch.voltmeter in t.fits
    requires ChannelHolds(t, ch, iv, vs, b)
    ensures Reported(m, ch, iv, vs, b)
  {
    RenamedSpec(sources, t.currents);
    RenamedSpec(voltmeters, t.voltages);
    RenamedSpec(voltmeters, t.fits);
  }

  /** Channels built from lists of distinct names are separate, and the
      dictionaries before the sweep hold every name with an empty list and
      an unfitted record. */
  lemma InitialSweep(sources: seq<string>, excs: seq<real>, voltmeters: seq<string>)
    requires |sources| == |excs| == |voltmeters|
    requires Unique(sources) && Unique(voltmeters)
    ensures Separate(Zip3(sources, excs, voltmeters))
    ensures Fresh(InitialTables(sources, voltmeters), Zip3(sources, excs, voltmeters))
    ensures var t := InitialTables(sources, voltmeters);
      forall j :: 0 <= j < |sources| ==> sources[j] in t.currents && voltmeters[j] in t.voltages && voltmeters[j] in t.fits
  {
    var chans := Zip3(sources, excs, voltmeters);
    var t := InitialTables(sources, voltmeters);
    forall j | 0 <= j < |chans|
      ensures chans[j].source in t.currents && chans[j].voltmeter in t.voltages && chans[j].voltmeter in t.fits
      ensures Get(t.currents, chans[j].source, []) == [] && Get(t.voltages, chans[j].voltmeter, []) == []
      ensures Get(t.fits, chans[j].voltmeter, Unfitted).nonohmic == 0
    {
      assert chans[j].source == sources[j] && chans[j].voltmeter == voltmeters[j];
      assert sources[j] in sources && voltmeters[j] in voltmeters;
    }
  }

  /** The sweep of a successful measurement: the calls of every channel in
      order after the first temperature reading, and per channel its
      schedule, its own readings and its fit record, under its own names. */
  lemma SweepFromSpec(log: seq<Call>, taken: nat, sources: seq<string>, excs: seq<real>, voltmeters: seq<string>,
                      iv: seq<real>, tempName: string, b: Bench)
    requires |sources| == |excs| == |voltmeters|
    requires Unique(sources) && Unique(voltmeters)
    requires Coincide([|sources|, |voltmeters|, |excs|])
    requires SweepFrom(log, taken, sources, excs, voltmeters, iv, tempName, b).failed.None?
    ensures var c := SweepFrom(log, taken, sources, excs, voltmeters, iv, tempName, b);
      && c.calls == log + [ReadTemperatures(tempName)] + AllChannelCalls(Zip3(sources, excs, voltmeters), iv, b.reversal)
      && forall j :: 0 <= j < |sources| ==>
           && sources[j] in c.tables.currents && voltmeters[j] in c.tables.voltages && voltmeters[j] in c.tables.fits
           && ChannelHolds(c.tables, Channel(sources[j], excs[j], voltmeters[j]), iv,
                           Readings(b.voltmeter, Offset(taken, j, 2 * |iv|), 2 * |iv|), b)
  {
    var chans := Zip3(sources, excs, voltmeters);
    var start := Sweep(InitialTables(sources, voltmeters), log + [ReadTemperatures(tempName)], taken, None);
    var c := SweepFrom(log, taken, sources, excs, voltmeters, iv, tempName, b);
    assert c == Channels(start, chans, iv, b);
    InitialSweep(sources, excs, voltmeters);
    ChannelsSpec(start, chans, iv, b);
    ChannelsGrow(start, chans, iv, b);
    forall j | 0 <= j < |sources|
      ensures ChannelHolds(c.tables, Channel(sources[j], excs[j], voltmeters[j]), iv,
                           Readings(b.voltmeter, Offset(taken, j, 2 * |iv|), 2 * |iv|), b)
    {
      assert chans[j] == Channel(sources[j], excs[j], voltmeters[j]);
      assert ChannelHolds(c.tables, chans[j], iv, ChannelReadings(start, j, iv, b), b);
    }
  }

  /** A successful measurement over channels with distinct names that do
      not collide once stripped: the lab sees the first temperature reading,
      each channel's calls in order, then the second temperature reading;
      and the record reports for channel `j` the schedule of its excitation
      current, the `2·|iv|` readings taken after the earlier channels', and
      the fit record whose `nonohmic` is 1 exactly when the residual exceeds
      the threshold. */
  lemma MultichannelSpec(log: seq<Call>, taken: nat, temp1: map<string, real>, temp2: map<string, real>,
                         sources: seq<string>, excs: seq<real>, voltmeters: seq<string>, iv: seq<real>,
                         tempName: string, b: Bench, numerics: Numerics, datafile: Option<string>)
    requires |sources| == |voltmeters| == |excs|
    requires Unique(sources) && Unique(voltmeters) && NoCollisions(sources) && NoCollisions(voltmeters)
    requires Multichannel(log, taken, temp1, temp2, sources, excs, voltmeters, iv, tempName, b, numerics, datafile).result.Ok?
    ensures var run := Multichannel(log, taken, temp1, temp2, sources, excs, voltmeters, iv, tempName, b, numerics, datafile);
      && run.calls == log + [ReadTemperatures(tempName)]
                      + AllChannelCalls(Zip3(sources, excs, voltmeters), iv, b.reversal) + [ReadTemperatures(tempName)]
      && forall j :: 0 <= j < |sources| ==>
           Reported(run.result.value, Channel(sources[j], excs[j], voltmeters[j]), iv,
                    Readings(b.voltmeter, Offset(taken, j, 2 * |iv|), 2 * |iv|), b)
  {
    MultichannelOk(log, taken, temp1, temp2, sources, excs, voltmeters, iv, tempName, b, numerics, datafile);
    SweepFromSpec(log, taken, sources, excs, voltmeters, iv, tempName, b);
    var c := SweepFrom(log, taken, sources, excs, voltmeters, iv, tempName, b);
    var m := Assemble(Paired(temp1, temp2).value, c.tables, sources, voltmeters, datafile.value, numerics);
    forall j | 0 <= j < |sources|
      ensures Reported(m, Channel(sources[j], excs[j], voltmeters[j]), iv,
                       Readings(b.voltmeter, Offset(taken, j, 2 * |iv|), 2 * |iv|), b)
    {
      assert sources[j] in sources && voltmeters[j] in voltmeters;
      ReportedFromTables(m, c.tables, sources, voltmeters, Channel(sources[j], excs[j], voltmeters[j]), iv,
                         Readings(b.voltmeter, Offset(taken, j, 2 * |iv|), 2 * |iv|), b);
    }
  }
}
