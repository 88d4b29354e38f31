/** The arithmetic of the PID feedback controller of src/autonomous/pid.cpp,
    stated as functions over values: what one `calculate` call does to the
    controller's memory and what it returns, how the output is shaped, and what
    a run of calls amounts to. Doubles are modelled as `real`. */
module PidMath {

  /** The parameters fixed when a controller is built. `minimumOutput` and
      `maximumOutput` bound the magnitude of the output; `gamma` is the factor
      by which the integral is discounted on every call. */
  datatype Config = Config(kp: real, ki: real, kd: real,
                           minimumOutput: real, maximumOutput: real, gamma: real)

  /** The part of a controller that `set_target`, `reset` and `calculate` change. */
  datatype Memory = Memory(target: real, integral: real, lastError: real)

  /** What the constructor writes to the error stream: the first of its three
      checks that fails, or nothing (`Accepted`). */
  datatype Diagnostic = Accepted | MinimumAboveMaximum | NegativeGain | GammaOutOfRange

  /** A configuration the controller was designed for: ordered bounds,
      non-negative gains and a discount in [0, 1]. */
  predicate ValidConfig(c: Config) {
    c.minimumOutput <= c.maximumOutput
    && 0.0 <= c.kp && 0.0 <= c.ki && 0.0 <= c.kd
    && 0.0 <= c.gamma <= 1.0
  }

  /** The constructor's checks, in the order it makes them. Only the first
      failing check is reported. */
  function Diagnose(c: Config): (d: Diagnostic)
    ensures d == Accepted <==> ValidConfig(c)
    ensures d == MinimumAboveMaximum <==> c.minimumOutput > c.maximumOutput
    ensures d == NegativeGain ==> c.kp < 0.0 || c.ki < 0.0 || c.kd < 0.0
    ensures d == GammaOutOfRange ==> c.gamma < 0.0 || c.gamma > 1.0
    ensures d == GammaOutOfRange ==> 0.0 <= c.kp && 0.0 <= c.ki && 0.0 <= c.kd
  {
    if c.minimumOutput > c.maximumOutput then MinimumAboveMaximum
    else if c.kp < 0.0 || c.ki < 0.0 || c.kd < 0.0 then NegativeGain
    else if c.gamma < 0.0 || c.gamma > 1.0 then GammaOutOfRange
    else Accepted
  }

  function Abs(x: real): real {
    if x < 0.0 then -x else x
  }

  function Min(x: real, y: real): real {
    if x <= y then x else y
  }

  function Max(x: real, y: real): real {
    if x <= y then y else x
  }

  /** Output shaping: the magnitude of `raw` is capped at `hi` and then raised
      to `lo` (in that order), and the sign of `raw` is put back, a `raw` of
      zero counting as non-negative. */
  function ClampOutput(raw: real, lo: real, hi: real): (r: real)
    // ordered bounds with a non-negative maximum: the magnitude lies between them
    ensures lo <= hi && 0.0 <= hi ==> lo <= Abs(r) <= hi
    // reversed bounds: the magnitude is always the minimum, with the sign of raw
    ensures hi < lo ==> r == (if raw < 0.0 then -lo else lo)
    // ordered bounds that are both negative: the magnitude is always the maximum,
    // so the returned value has the opposite sign to raw
    ensures lo <= hi < 0.0 ==> r == (if raw < 0.0 then -hi else hi)
    // a magnitude below the minimum is raised to exactly the minimum
    ensures 0.0 <= lo <= hi && Abs(raw) < lo ==> r == (if raw < 0.0 then -lo else lo)
    // the sign is kept whenever the clamped magnitude cannot be negative
    ensures 0.0 <= lo || 0.0 <= hi ==> (raw < 0.0 ==> r <= 0.0) && (0.0 <= raw ==> 0.0 <= r)
    // a raw output of exactly zero is raised to +lo, not returned as zero
    ensures 0.0 <= lo && raw == 0.0 ==> r == lo
    // a value already inside the bounds passes through unchanged
    ensures lo <= Abs(raw) <= hi ==> r == raw
    // a value beyond the maximum saturates at it, with its sign
    ensures lo <= hi < Abs(raw) ==> Abs(r) == Abs(hi)
  {
    var magnitude := Max(lo, Min(Abs(raw), hi));
    if raw < 0.0 then -magnitude else magnitude
  }

  /** Memory after one `calculate(value)`: the error becomes the last error and
      is added to the discounted integral; the target is kept. */
  function Advance(c: Config, m: Memory, value: real): Memory {
    var error := m.target - value;
    Memory(m.target, m.integral * c.gamma + error, error)
  }

  /** The unclamped output of `calculate(value)` from memory `m`: it uses the
      integral as already updated and the difference between this error and the
      previous one, not divided by any elapsed time. */
  function RawOutput(c: Config, m: Memory, value: real): real {
    var error := m.target - value;
    c.kp * error + c.ki * Advance(c, m, value).integral + c.kd * (error - m.lastError)
  }

  /** What `calculate(value)` returns from memory `m`. */
  function Output(c: Config, m: Memory, value: real): real {
    ClampOutput(RawOutput(c, m, value), c.minimumOutput, c.maximumOutput)
  }

  /** Memory after `reset`. */
  function Cleared(m: Memory): Memory {
    Memory(m.target, 0.0, 0.0)
  }

  /** Memory after `calculate` has been called with each of `values` in turn. */
  function Run(c: Config, m: Memory, values: seq<real>): Memory
    decreases |values|
  {
    if values == [] then m else Run(c, Advance(c, m, values[0]), values[1..])
  }

  /** The outputs of `calculate` called with each of `values` in turn. */
  function Outputs(c: Config, m: Memory, values: seq<real>): (r: seq<real>)
    decreases |values|
    ensures |r| == |values|
    ensures c.minimumOutput <= c.maximumOutput && 0.0 <= c.maximumOutput ==>
      forall i :: 0 <= i < |r| ==> c.minimumOutput <= Abs(r[i]) <= c.maximumOutput
  {
    if values == [] then []
    else [Output(c, m, values[0])] + Outputs(c, Advance(c, m, values[0]), values[1..])
  }

  /** The errors a run of `values` sees against a fixed `target`. */
  function Errors(target: real, values: seq<real>): (r: seq<real>)
    ensures |r| == |values|
  {
    seq(|values|, i requires 0 <= i < |values| => target - values[i])
  }

  function Pow(g: real, n: nat): real {
    if n == 0 then 1.0 else g * Pow(g, n - 1)
  }

  /** The sum of the `errors`, each multiplied by `g` once for every error that
      follows it: the older an error, the more it has been forgotten. */
  function Discounted(g: real, errors: seq<real>): real
    decreases |errors|
  {
    if errors == [] then 0.0 else Pow(g, |errors| - 1) * errors[0] + Discounted(g, errors[1..])
  }

  /** `calculate` never moves the target. */
  lemma {:induction false} RunKeepsTarget(c: Config, m: Memory, values: seq<real>)
    ensures Run(c, m, values).target == m.target
    decreases |values|
  {
    if values != [] {
      RunKeepsTarget(c, Advance(c, m, values[0]), values[1..]);
    }
  }

  /** After a non-empty run, the last error is the error against the last value. */
  lemma {:induction false} RunLastError(c: Config, m: Memory, values: seq<real>)
    requires values != []
    ensures Run(c, m, values).lastError == m.target - values[|values| - 1]
    decreases |values|
  {
    if |values| > 1 {
      RunLastError(c, Advance(c, m, values[0]), values[1..]);
    }
  }

  /** The integral after a run is the discounted sum of everything it has
      accumulated: the starting integral, as the oldest entry, followed by the
      errors seen. Each entry is multiplied by gamma once per later call, so
      old errors are forgotten exponentially. */
  lemma {:induction false} RunIntegral(c: Config, m: Memory, values: seq<real>)
    ensures Run(c, m, values).integral == Discounted(c.gamma, [m.integral] + Errors(m.target, values))
    decreases |values|
  {
    if values == [] {
      assert [m.integral] + Errors(m.target, values) == [m.integral];
    } else {
      var m' := Advance(c, m, values[0]);
      var rest := Errors(m.target, values[1..]);
      RunIntegral(c, m', values[1..]);
      assert [m.integral] + Errors(m.target, values) == [m.integral, m.target - values[0]] + rest;
      FoldIntoIntegral(c.gamma, m.integral, m.target - values[0], rest);
    }
  }

  /** Discounting an entry and adding the next one to it leaves the discounted
      sum unchanged. */
  lemma FoldIntoIntegral(g: real, x: real, y: real, s: seq<real>)
    ensures Discounted(g, [x * g + y] + s) == Discounted(g, [x, y] + s)
  {
    assert [x, y] + s == [x] + ([y] + s);
    DiscountedCons(g, x * g + y, s);
    DiscountedCons(g, x, [y] + s);
    DiscountedCons(g, y, s);
    Regroup(Pow(g, |s|), x, g, y, Pow(g, |s| + 1));
  }

  lemma {:induction false} DiscountedCons(g: real, a: real, s: seq<real>)
    ensures Discounted(g, [a] + s) == Pow(g, |s|) * a + Discounted(g, s)
  {
    assert ([a] + s)[1..] == s;
  }

  lemma Regroup(p: real, x: real, g: real, y: real, pn: real)
    requires pn == g * p
    ensures p * (x * g + y) == pn * x + p * y
  {
  }

  /** Windup is limited: with a discount below 1 and every error at most
      `bound` in magnitude, an integral that starts within bound / (1 - gamma)
      stays there, however long the run. */
  lemma {:induction false} IntegralBounded(c: Config, m: Memory, values: seq<real>, bound: real)
    requires 0.0 <= c.gamma < 1.0
    requires forall i :: 0 <= i < |values| ==> Abs(m.target - values[i]) <= bound
    requires Abs(m.integral) <= bound / (1.0 - c.gamma)
    ensures Abs(Run(c, m, values).integral) <= bound / (1.0 - c.gamma)
    decreases |values|
  {
    if values != [] {
      var m' := Advance(c, m, values[0]);
      forall i | 0 <= i < |values[1..]|
        ensures Abs(m'.target - values[1..][i]) <= bound
      {
        assert values[1..][i] == values[i + 1];
      }
      AdvanceBounded(c, m, values[0], bound);
      IntegralBounded(c, m', values[1..], bound);
    }
  }

  /** One call of `calculate` keeps the integral within bound / (1 - gamma). */
  lemma AdvanceBounded(c: Config, m: Memory, value: real, bound: real)
    requires 0.0 <= c.gamma < 1.0
    requires Abs(m.target - value) <= bound
    requires Abs(m.integral) <= bound / (1.0 - c.gamma)
    ensures Abs(Advance(c, m, value).integral) <= bound / (1.0 - c.gamma)
  {
    DiscountStep(m.integral, c.gamma, m.target - value, bound);
  }

  /** One discount-and-accumulate step keeps the integral within bound / (1 - g). */
  lemma DiscountStep(x: real, g: real, e: real, bound: real)
    requires 0.0 <= g < 1.0
    requires Abs(x) <= bound / (1.0 - g)
    requires Abs(e) <= bound
    ensures Abs(x * g + e) <= bound / (1.0 - g)
  {
    var limit := bound / (1.0 - g);
    assert limit * (1.0 - g) == bound;
    assert Abs(x * g) == g * Abs(x) by {
      if x < 0.0 { assert x * g <= 0.0; } else { assert x * g >= 0.0; }
    }
    assert g * Abs(x) <= g * limit;
    assert Abs(x * g + e) <= g * limit + bound;
  }

  /** Right after `set_target(t)` (or a reset with target t), the output is the
      clamp of (kp + ki + kd)·(t − value): no earlier error or integral counts. */
  lemma FreshTarget(c: Config, t: real, value: real)
    ensures Output(c, Memory(t, 0.0, 0.0), value)
         == ClampOutput((c.kp + c.ki + c.kd) * (t - value), c.minimumOutput, c.maximumOutput)
  {
    RawAfterReset(c, t, value);
  }

  lemma RawAfterReset(c: Config, t: real, value: real)
    ensures RawOutput(c, Memory(t, 0.0, 0.0), value) == (c.kp + c.ki + c.kd) * (t - value)
  {
    var e := t - value;
    assert Advance(c, Memory(t, 0.0, 0.0), value).integral == e;
    assert RawOutput(c, Memory(t, 0.0, 0.0), value) == c.kp * e + c.ki * e + c.kd * e;
  }

  /** Resetting twice is the same as resetting once, and a reset keeps the target. */
  lemma ClearedIdempotent(m: Memory)
    ensures Cleared(Cleared(m)) == Cleared(m)
    ensures Cleared(m).target == m.target
  {
  }

  /** Every configuration the constructor's checks accept with a negative
      maximum returns the opposite sign to the raw output. */
  lemma NegativeMaximumInvertsSign(c: Config, m: Memory, value: real)
    requires Diagnose(c) == Accepted && c.maximumOutput < 0.0
    ensures 0.0 <= RawOutput(c, m, value) ==> Output(c, m, value) < 0.0
    ensures RawOutput(c, m, value) < 0.0 ==> 0.0 < Output(c, m, value)
  {
  }

  /** With ordered but negative bounds, which the constructor's checks accept,
      a positive raw output comes back negative and its magnitude falls
      outside [minimum, maximum]. */
  lemma NegativeBoundsInvertSign()
    ensures var c := Config(1.0, 0.0, 0.0, -3.0, -2.0, 0.5);
            Diagnose(c) == Accepted
            && RawOutput(c, Memory(5.0, 0.0, 0.0), 0.0) == 5.0
            && Output(c, Memory(5.0, 0.0, 0.0), 0.0) == -2.0
  {
  }
}
