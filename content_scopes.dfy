/**
 * Content-update scopes of the ARA API (ARAContentUpdateScopes).
 *
 * A scope value is modelled as the set of content aspects an edit affects:
 * `+=` on two scope values then affects everything either of them affects,
 * `samplesAreAffected()` affects only the audio signal, and `affectSamples()`
 * asks whether the audio signal is among the affected aspects.
 */
module ContentScopes {

  datatype Aspect = Samples | Notes | Timing | Tuning | Harmonies

  type Scopes = set<Aspect>

  /** The scopes a fresh pending entry starts from: nothing affected, the identity of `+=`. */
  const NothingIsAffected: Scopes := {}

  /** ContentUpdateScopes::samplesAreAffected() */
  const SamplesAreAffected: Scopes := {Samples}

  /** ContentUpdateScopes::affectSamples() */
  predicate AffectSamples(s: Scopes) {
    Samples in s
  }

  /** ContentUpdateScopes::operator+=: nothing either side affects is lost, and samples are affected iff either side affects them. */
  function Merge(a: Scopes, b: Scopes): (r: Scopes)
    ensures a <= r && b <= r
    ensures AffectSamples(r) <==> AffectSamples(a) || AffectSamples(b)
    ensures a == NothingIsAffected ==> r == b
  {
    a + b
  }
}
