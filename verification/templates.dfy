/**
 * The pieces of JavaScript template-literal and truthiness semantics the
 * row presenter relies on: how `undefined` is interpolated, when a string is
 * truthy, and how a fixed prefix and suffix around an interpolated part can
 * be stripped off again.
 */
module Templates {
  import opened Wrappers

  /** `${x}` for an optional string: `undefined` renders as the word "undefined". */
  function OptionalText(x: Option<string>): (s: string)
    ensures x.Some? ==> s == x.value
    ensures x.None? ==> s == "undefined"
  {
    x.GetOr("undefined")
  }

  /** A string is truthy in JavaScript exactly when it is non-empty. */
  predicate TruthyString(x: Option<string>) {
    x.Some? && x.value != ""
  }

  /** An optional boolean prop: `undefined` behaves as `false`. */
  predicate Flag(x: Option<bool>) {
    x == Some(true)
  }

  /** The part of `t` between `prefix` and `suffix`, if `t` has that shape. */
  function Between(t: string, prefix: string, suffix: string): (r: Option<string>)
    ensures r.Some? ==> t == prefix + r.value + suffix
  {
    if |t| >= |prefix| + |suffix| && t[..|prefix|] == prefix && t[|t| - |suffix|..] == suffix then
      var middle := t[|prefix|..|t| - |suffix|];
      assert t == t[..|prefix|] + middle + t[|t| - |suffix|..];
      Some(middle)
    else None
  }

  /** Interpolating `middle` between a fixed prefix and suffix can be undone. */
  lemma BetweenInterpolation(prefix: string, middle: string, suffix: string)
    ensures Between(prefix + middle + suffix, prefix, suffix) == Some(middle)
  {
    var t := prefix + middle + suffix;
    assert t[..|prefix|] == prefix;
    assert t[|t| - |suffix|..] == suffix;
    assert t[|prefix|..|t| - |suffix|] == middle;
  }
}
