/** The log level of mf.py: a base level raised ten points per quiet flag
    and lowered ten points per verbose flag, kept between the debug and
    critical levels. */
module Logging {

  const Debug := 10
  const Info := 20
  const Critical := 50

  /** The level the logger starts at. */
  const BaseLevel := Info

  function Min(a: int, b: int): int { if a <= b then a else b }

  function Max(a: int, b: int): int { if a >= b then a else b }

  /** `configure_logging`: the level for `quiet` quiet flags and `verbose`
      verbose flags. It is always one of the standard levels from debug to
      critical; when the adjusted level is already in that range it is kept,
      otherwise the nearer bound is taken. */
  function EffectiveLevel(quiet: nat, verbose: nat): (level: int)
    ensures Debug <= level <= Critical && level % 10 == 0
    ensures var adjusted := BaseLevel + 10 * (quiet - verbose);
            && (Debug <= adjusted <= Critical ==> level == adjusted)
            && (adjusted < Debug ==> level == Debug)
            && (adjusted > Critical ==> level == Critical)
  {
    Min(Critical, Max(Debug, BaseLevel + 10 * (quiet - verbose)))
  }

  /** One quiet flag gives the warning level; three verbose flags would go
      below debug and give debug. */
  lemma LevelExamples()
    ensures EffectiveLevel(1, 0) == 30
    ensures EffectiveLevel(0, 3) == Debug
    ensures EffectiveLevel(0, 0) == Info
  {
  }

  /** Only the difference of the counts matters, and more quiet flags never
      lower the level. */
  lemma LevelMonotone(quiet: nat, verbose: nat, k: nat)
    ensures EffectiveLevel(quiet + k, verbose + k) == EffectiveLevel(quiet, verbose)
    ensures EffectiveLevel(quiet, verbose) <= EffectiveLevel(quiet + k, verbose)
    ensures EffectiveLevel(quiet, verbose + k) <= EffectiveLevel(quiet, verbose)
  {
  }
}
