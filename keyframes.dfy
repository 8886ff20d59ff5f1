/**
 * One keyframe property (Rekapi's `KeyframeProperty`) and the patched
 * `getValueAt`: a property tweens towards its successor only when its own
 * easing asks for it, and otherwise holds its own value from its own
 * millisecond on.
 */
module Keyframes {
  import opened Wrappers

  /**
   * One authored sample of one property. `easing` is `None` when it was
   * never set; `nextProperty` is the next sample of the same property in
   * the chain, if any.
   */
  datatype KeyframeProperty<V> = KeyframeProperty(
    name: string,
    millisecond: int,
    value: V,
    easing: Option<string>,
    nextProperty: Option<KeyframeProperty<V>>)

  /**
   * `Rekapi.Tweenable.interpolate` for a single property: from-value,
   * to-value, normalised position and easing name to the eased value.
   */
  type Interpolator<!V> = (V, V, real, string) -> V

  /** The chain's ordering invariant for one link: a successor lies strictly later. */
  predicate HasLaterSuccessor<V>(p: KeyframeProperty<V>) {
    p.nextProperty.Some? ==> p.millisecond < p.nextProperty.value.millisecond
  }

  /** Truthiness of the easing as JavaScript reads it: set and not the empty string. */
  predicate IsTruthy(easing: Option<string>) {
    easing.Some? && easing.value != ""
  }

  /** An easing that switches tweening on: truthy and not the sentinel `'none'`. */
  predicate EasingTweens(easing: Option<string>) {
    IsTruthy(easing) && easing.value != "none"
  }

  /** The tween condition: a successor exists and the origin's own easing asks for a tween. */
  predicate Tweens<V>(p: KeyframeProperty<V>) {
    p.nextProperty.Some? && EasingTweens(p.easing)
  }

  /** `(ms - this.millisecond) / (nextProperty.millisecond - this.millisecond)`. */
  function Position<V>(p: KeyframeProperty<V>, ms: int): real
    requires p.nextProperty.Some? && HasLaterSuccessor(p)
  {
    (ms - p.millisecond) as real / (p.nextProperty.value.millisecond - p.millisecond) as real
  }

  /**
   * The patched `getValueAt`: a tween from the origin's value to the
   * successor's with the ORIGIN's easing, a hold of the origin's value, or
   * `undefined` (`None`) before the origin's own millisecond.
   */
  function GetValueAt<V>(p: KeyframeProperty<V>, ms: int, interpolate: Interpolator<V>): (r: Option<V>)
    requires HasLaterSuccessor(p)
    ensures r.None? <==> ms < p.millisecond
  {
    if Tweens(p) && ms >= p.millisecond then
      Some(interpolate(p.value, p.nextProperty.value.value, Position(p, ms), p.easing.value))
    else if ms >= p.millisecond then
      Some(p.value)
    else
      None
  }

  /**
   * Tween case: with a successor, an origin easing other than falsy or
   * `'none'`, and a query at or after the origin, the primitive receives
   * the origin's value, the successor's value, the elapsed fraction of the
   * segment and the origin's easing.
   */
  lemma TweenCase<V>(p: KeyframeProperty<V>, ms: int, interpolate: Interpolator<V>)
    requires HasLaterSuccessor(p) && Tweens(p)
    requires p.millisecond <= ms
    ensures var n := p.nextProperty.value;
      GetValueAt(p, ms, interpolate)
        == Some(interpolate(p.value, n.value,
                            (ms - p.millisecond) as real / (n.millisecond - p.millisecond) as real,
                            p.easing.value))
  {
  }

  /**
   * Hold case: without a successor, or with an easing that is unset, empty
   * or `'none'`, every query from the origin's millisecond on yields the
   * origin's value unchanged, whatever the interpolation primitive does.
   */
  lemma HoldCase<V>(p: KeyframeProperty<V>, interpolate: Interpolator<V>)
    requires HasLaterSuccessor(p) && !Tweens(p)
    ensures forall ms :: p.millisecond <= ms ==> GetValueAt(p, ms, interpolate) == Some(p.value)
  {
  }

  /** Before its own millisecond a property yields `undefined`, whatever its easing or successor. */
  lemma UndefinedBeforeOwnTime<V>(p: KeyframeProperty<V>, ms: int, easing: Option<string>,
                                  interpolate: Interpolator<V>)
    requires HasLaterSuccessor(p) && ms < p.millisecond
    ensures GetValueAt(p, ms, interpolate) == None
    ensures GetValueAt(p.(easing := easing), ms, interpolate) == None
  {
  }

  /**
   * The origin governs the easing: changing anything about the successor
   * except its millisecond and value (its easing, name or own successor)
   * leaves every result unchanged.
   */
  lemma SuccessorEasingIgnored<V>(p: KeyframeProperty<V>, other: KeyframeProperty<V>, ms: int,
                                  interpolate: Interpolator<V>)
    requires HasLaterSuccessor(p) && p.nextProperty.Some?
    requires other.millisecond == p.nextProperty.value.millisecond
    requires other.value == p.nextProperty.value.value
    ensures GetValueAt(p.(nextProperty := Some(other)), ms, interpolate) == GetValueAt(p, ms, interpolate)
  {
  }

  /** An unset or empty easing behaves exactly as the sentinel `'none'` does. */
  lemma DefaultEasingActsAsNone<V>(p: KeyframeProperty<V>, ms: int, interpolate: Interpolator<V>)
    requires HasLaterSuccessor(p)
    ensures GetValueAt(p.(easing := None), ms, interpolate)
         == GetValueAt(p.(easing := Some("none")), ms, interpolate)
    ensures GetValueAt(p.(easing := Some("")), ms, interpolate)
         == GetValueAt(p.(easing := Some("none")), ms, interpolate)
  {
  }

  /** Within its segment the position handed to the primitive lies in [0, 1]. */
  lemma PositionInUnitInterval<V>(p: KeyframeProperty<V>, ms: int)
    requires p.nextProperty.Some? && HasLaterSuccessor(p)
    requires p.millisecond <= ms <= p.nextProperty.value.millisecond
    ensures 0.0 <= Position(p, ms) <= 1.0
  {
    var d := (p.nextProperty.value.millisecond - p.millisecond) as real;
    var e := (ms - p.millisecond) as real;
    assert 0.0 <= e <= d && 0.0 < d;
    assert Position(p, ms) * d == e;
  }

  /**
   * Tween boundaries: at the origin's millisecond the position is 0 and at
   * the successor's it is 1, so a primitive that returns its from-value at
   * 0 renders the origin exactly, and the successor's millisecond receives
   * the successor's value at position 1.
   */
  lemma TweenBoundaries<V>(p: KeyframeProperty<V>, interpolate: Interpolator<V>)
    requires HasLaterSuccessor(p) && Tweens(p)
    requires interpolate(p.value, p.nextProperty.value.value, 0.0, p.easing.value) == p.value
    ensures GetValueAt(p, p.millisecond, interpolate) == Some(p.value)
    ensures var n := p.nextProperty.value;
      GetValueAt(p, n.millisecond, interpolate) == Some(interpolate(p.value, n.value, 1.0, p.easing.value))
  {
    var n := p.nextProperty.value;
    assert Position(p, p.millisecond) == 0.0;
    assert Position(p, n.millisecond) == 1.0;
  }
}
