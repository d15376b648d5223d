/**
 * Magnetic variation and where it came from (m_var, m_var_source,
 * m_var_timeout). Sources are ranked by preference in the order of the
 * VariationSource enum: a position fix that may come from the World
 * Magnetic Model is preferred over GPS, and both over an NMEA sentence,
 * whose model is probably outdated. Some devices send an invalid zero, so a
 * non-zero value prevails over a zero one.
 */
module Variation {

  /** VariationSource, in the order of the C enum. */
  datatype VariationSource = SourceNone | SourceNmea | SourceFix | SourceWmm

  /** The enum value: a larger value is a more preferred source. */
  function Preference(s: VariationSource): (p: int)
    ensures 0 <= p <= 3
    ensures p == 0 <==> s == SourceNone
  {
    match s
    case SourceNone => 0
    case SourceNmea => 1
    case SourceFix => 2
    case SourceWmm => 3
  }

  /** Distinct sources have distinct ranks: the preference is a strict total order. */
  lemma PreferenceInjective(a: VariationSource, b: VariationSource)
    requires Preference(a) == Preference(b)
    ensures a == b
  {
  }

  /** The stored variation, in degrees, with its source. */
  datatype VariationState = VariationState(value: real, source: VariationSource)

  /**
   * Whether an update replaces the stored variation: not when it comes from a
   * less preferred source, and not when it is zero while a non-zero value is held.
   */
  predicate Replaces(held: VariationState, source: VariationSource, value: real)
  {
    Preference(source) >= Preference(held.source) && !(value == 0.0 && held.value != 0.0)
  }

  /** The stored variation after one update. */
  function Apply(held: VariationState, source: VariationSource, value: real): (next: VariationState)
    ensures next == held || next == VariationState(value, source)
    ensures Preference(next.source) >= Preference(held.source)
    ensures held.value != 0.0 ==> next.value != 0.0
  {
    if Replaces(held, source, value) then VariationState(value, source) else held
  }

  /** A less preferred source does not replace the held value. */
  lemma LessPreferredIgnored(held: VariationState, source: VariationSource, value: real)
    requires Preference(source) < Preference(held.source)
    ensures Apply(held, source, value) == held
  {
  }

  /** A zero value does not replace a non-zero held value, whatever its source. */
  lemma ZeroIgnored(held: VariationState, source: VariationSource)
    requires held.value != 0.0
    ensures Apply(held, source, 0.0) == held
  {
  }

  /** Conversely, a non-zero value from a source at least as preferred always takes effect. */
  lemma PreferredNonZeroTakesEffect(held: VariationState, source: VariationSource, value: real)
    requires Preference(source) >= Preference(held.source) && value != 0.0
    ensures Apply(held, source, value) == VariationState(value, source)
  {
  }

  /** The stored variation after a sequence of updates, oldest first. */
  function ApplyAll(held: VariationState, updates: seq<(VariationSource, real)>): (r: VariationState)
    ensures r == held || exists i :: 0 <= i < |updates| && r == VariationState(updates[i].1, updates[i].0)
  {
    if |updates| == 0 then held
    else Apply(ApplyAll(held, updates[..|updates| - 1]), updates[|updates| - 1].0, updates[|updates| - 1].1)
  }

  /**
   * Over any sequence of updates the source never becomes less preferred and
   * a non-zero variation never reverts to zero.
   */
  lemma {:induction false} ApplyAllMonotone(held: VariationState, updates: seq<(VariationSource, real)>)
    ensures Preference(ApplyAll(held, updates).source) >= Preference(held.source)
    ensures held.value != 0.0 ==> ApplyAll(held, updates).value != 0.0
  {
    if |updates| > 0 {
      ApplyAllMonotone(held, updates[..|updates| - 1]);
    }
  }

  /** Updates from sources less preferred than the held one leave it untouched. */
  lemma {:induction false} ApplyAllLessPreferredIgnored(held: VariationState, updates: seq<(VariationSource, real)>)
    requires forall i :: 0 <= i < |updates| ==> Preference(updates[i].0) < Preference(held.source)
    ensures ApplyAll(held, updates) == held
  {
    if |updates| > 0 {
      ApplyAllLessPreferredIgnored(held, updates[..|updates| - 1]);
    }
  }

  /** A zero NMEA variation after a WMM variation of 5 degrees changes nothing. */
  lemma NmeaZeroAfterWmm()
    ensures ApplyAll(VariationState(0.0, SourceNone), [(SourceWmm, 5.0), (SourceNmea, 0.0)])
         == VariationState(5.0, SourceWmm)
  {
    var updates: seq<(VariationSource, real)> := [(SourceWmm, 5.0), (SourceNmea, 0.0)];
    assert updates[..1] == [(SourceWmm, 5.0)];
  }

  /** The plugin's variation fields. */
  class VariationFields {
    /** m_var: local magnetic variation, in degrees. */
    var variation: real
    /** m_var_source. */
    var source: VariationSource
    /** m_var_timeout: the time at which the variation is considered lost. */
    var timeout: int

    constructor ()
      ensures variation == 0.0 && source == SourceNone && timeout == 0
    {
      variation, source, timeout := 0.0, SourceNone, 0;
    }

    function State(): (st: VariationState)
      reads this
    {
      VariationState(variation, source)
    }

    /** Offer a variation from `newSource`; the preference policy decides whether it is kept. */
    method UpdateVariation(newSource: VariationSource, value: real)
      modifies this
      ensures State() == Apply(old(State()), newSource, value)
      ensures timeout == old(timeout)
    {
      if Preference(newSource) >= Preference(source) && !(value == 0.0 && variation != 0.0) {
        variation, source := value, newSource;
      }
    }
  }
}
