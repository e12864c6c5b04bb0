/** Shared numeric vocabulary of the compressor model.

    Amplitudes and levels are Dafny `real`s.  The C library functions the
    plugin calls (`log10`, `powf(10, _)`, `sqrt`) and the two STK filters are
    code this model cannot see: they are carried as arrow-typed values in a
    `Lib` record, so every property proved here holds for ANY functions put
    there, unless a lemma explicitly asks for one of the facts below. */
module Numerics {

  datatype Option<T> = None | Some(value: T)

  /** One call of an STK filter: the cutoff last set with `setCutoff` and the
      sample passed to `tick`. */
  type Tick = (real, real)

  /** The functions of code outside the model.  A filter is modelled as an
      arbitrary causal function of the whole history of its ticks, which is
      what any deterministic stateful filter is. */
  datatype Lib = Lib(
    log10: real -> real,
    pow10: real -> real,
    sqrt: real -> real,
    lowPass: seq<Tick> -> real,
    highPass: seq<Tick> -> real)
  {
    /** The two facts about the real `log10` and `10^x` without which the
        source's divisions are undefined: log10(40) is not zero and 10^x is
        never zero (it is positive). */
    ghost predicate Sane() {
      log10(40.0) > 0.0 && forall z :: pow10(z) > 0.0
    }

    // The filter calls as plain functions of their arguments, for use in
    // methods.
    function LowPass(h: seq<Tick>): real { lowPass(h) }
    function HighPass(h: seq<Tick>): real { highPass(h) }

    /** 10^x is monotone; needed only for "the compressor never boosts". */
    ghost predicate Monotone() {
      forall a, b :: a <= b ==> pow10(a) <= pow10(b)
    }
  }

  function Abs(x: real): (r: real)
    ensures r >= 0.0 && (r == x || r == -x)
  {
    if x < 0.0 then -x else x
  }

  /** C's conversion of a floating value to `int`: truncation toward zero. */
  function TruncToInt(x: real): (r: int)
    ensures x >= 0.0 ==> r as real <= x < r as real + 1.0
    ensures x < 0.0 ==> r as real - 1.0 < x <= r as real
  {
    if x >= 0.0 then x.Floor else -((-x).Floor)
  }

  /** `linearToDecibel` of EffectPlugin.cpp: 20 * log10(p). */
  function LinearToDecibel(lib: Lib, p: real): real
  {
    20.0 * lib.log10(p)
  }

  /** Level companding shared by both detectors: log10(v*39 + 1) / log10(40),
      which maps 0 to 0 and 1 to 1 for the real logarithm. */
  function Compand(lib: Lib, v: real): real
    requires lib.Sane()
  {
    lib.log10(v * 39.0 + 1.0) / lib.log10(40.0)
  }

  lemma {:induction false} TruncOfWhole(n: int)
    ensures TruncToInt(n as real) == n
  {
    if n < 0 {
      assert (-(n as real)).Floor == -n;
    }
  }
}
