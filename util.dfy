/** util.py: `option`, and the two helpers the spawner imports from util
    (`clamp`, `uniform_from_mean`), whose definitions are not part of this
    model and are reconstructed from their call sites. */
module Util {
  import opened Numeric

  /** Python's `T | None`. */
  datatype Option<T> = None | Some(value: T)

  /** The Python exceptions the modelled code raises. */
  datatype PyError = TypeError | RuntimeError | ValueError | ZeroDivisionError

  /** A call that returns nothing but may raise. */
  datatype Outcome = Pass | Fail(error: PyError)

  /** A call that returns a value or raises. */
  datatype Result<T> = Ok(value: T) | Err(error: PyError)

  /** option(v, default): `default` when v is None, v otherwise. The default
      may itself be None (sprite_bases.py passes class attributes that are
      None). */
  function OptionOr<T>(v: Option<T>, default: Option<T>): (r: Option<T>)
    ensures r.None? <==> v.None? && default.None?
    ensures r == v || r == default
  {
    if v.None? then default else v
  }

  /** A present value wins, whatever it is; in particular falsy values such
      as 0 or the empty string are kept. */
  lemma OptionKeepsPresent<T>(x: T, default: Option<T>)
    ensures OptionOr(Some(x), default) == Some(x)
  {
  }

  /** None is replaced by the default. */
  lemma OptionTakesDefault<T>(default: Option<T>)
    ensures OptionOr(None, default) == default
  {
  }

  /** Falsy values are not treated as missing. */
  lemma OptionKeepsFalsy()
    ensures OptionOr(Some(0), Some(7)) == Some(0)
    ensures OptionOr(Some(""), Some("x")) == Some("")
    ensures OptionOr(Some(false), Some(true)) == Some(false)
  {
  }

  /** Applying option twice with the same default changes nothing. */
  lemma OptionIdempotent<T>(v: Option<T>, default: Option<T>)
    ensures OptionOr(OptionOr(v, default), default) == OptionOr(v, default)
  {
  }

  /** clamp(x, lo, hi) on floats, None meaning "no bound on that side"; the
      lower bound is applied first. */
  function ClampReal(x: real, lo: Option<real>, hi: Option<real>): (r: real)
    ensures lo.Some? && (hi.None? || lo.value <= hi.value) ==> lo.value <= r
    ensures hi.Some? ==> r <= hi.value || (lo.Some? && r == lo.value)
    ensures (lo.None? || lo.value <= x) && (hi.None? || x <= hi.value) ==> r == x
  {
    if lo.Some? && x < lo.value then lo.value
    else if hi.Some? && x > hi.value then hi.value
    else x
  }

  /** clamp(x, lo, hi) on ints: clamp(amount, 2, None) yields the member
      count of a cluster, used as a length, so its result must stay an int. */
  function ClampInt(x: int, lo: Option<int>, hi: Option<int>): (r: int)
    ensures lo.Some? && (hi.None? || lo.value <= hi.value) ==> lo.value <= r
    ensures hi.Some? ==> r <= hi.value || (lo.Some? && r == lo.value)
    ensures (lo.None? || lo.value <= x) && (hi.None? || x <= hi.value) ==> r == x
  {
    if lo.Some? && x < lo.value then lo.value
    else if hi.Some? && x > hi.value then hi.value
    else x
  }

  /** uniform_from_mean(m, v): a draw of uniform(m - v, m + v). */
  function UniformFromMean(mean: real, variation: real, u: real): (r: real)
    ensures 0.0 <= u < 1.0 && variation >= 0.0 ==> mean - variation <= r <= mean + variation
  {
    if 0.0 <= u < 1.0 then
      UniformBetween(mean - variation, mean + variation, u);
      Uniform(mean - variation, mean + variation, u)
    else
      Uniform(mean - variation, mean + variation, u)
  }
}
