/**
 * Concrete timelines run through the whole update: locator, bucket,
 * resolver and the object handed to `set`. Values are reals and the
 * primitive is a linear curve.
 */
module Scenarios {
  import opened Wrappers
  import opened Keyframes
  import opened CacheLocator
  import opened ActorUpdate

  /** A linear easing curve standing in for the interpolation primitive. */
  function Linear(from: real, to: real, position: real, easing: string): real {
    from + (to - from) * position
  }

  /** `x` is 0 at 0 ms (easing 'none') and 10 at 100 ms (easing 'linear'). */
  function XAt100(): KeyframeProperty<real> {
    KeyframeProperty("x", 100, 10.0, Some("linear"), None)
  }

  function XAt0(easing: string): KeyframeProperty<real> {
    KeyframeProperty("x", 0, 0.0, Some(easing), Some(XAt100()))
  }

  function TwoMarkCache(easing: string): Cache<real> {
    map[0 := map["x" := Some(XAt0(easing))], 100 := map["x" := Some(XAt100())]]
  }

  /**
   * The destination's 'linear' easing does not make the segment tween: at
   * 50 ms the origin's value 0 is held, and at 100 ms the last keyframe's 10
   * is rendered exactly.
   */
  lemma DestinationEasingDoesNotTween()
    ensures UpdateCall([0, 100], TwoMarkCache("none"), 0, 100, 0, Linear) == Some(map["x" := Some(0.0)])
    ensures UpdateCall([0, 100], TwoMarkCache("none"), 0, 100, 50, Linear) == Some(map["x" := Some(0.0)])
    ensures UpdateCall([0, 100], TwoMarkCache("none"), 0, 100, 100, Linear) == Some(map["x" := Some(10.0)])
    ensures UpdateCall([0, 100], TwoMarkCache("none"), 0, 100, 250, Linear) == Some(map["x" := Some(10.0)])
  {
    var c := TwoMarkCache("none");
    assert CacheId([0, 100], 0) == 0 && CacheId([0, 100], 50) == 0 && CacheId([0, 100], 100) == 1;
    SingleProperty(c[0], "x", 0);
    SingleProperty(c[0], "x", 50);
    SingleProperty(c[100], "x", 100);
  }

  /** With 'linear' on the origin, the segment tweens: 5 at 50 ms. */
  lemma OriginEasingTweens()
    ensures UpdateCall([0, 100], TwoMarkCache("linear"), 0, 100, 50, Linear) == Some(map["x" := Some(5.0)])
  {
    var c := TwoMarkCache("linear");
    assert CacheId([0, 100], 50) == 0;
    SingleProperty(c[0], "x", 50);
    assert Position(XAt0("linear"), 50) == 0.5;
  }

  /** Before the actor's start `set` is not called at all. */
  lemma NothingBeforeStart()
    ensures UpdateCall([0, 100], TwoMarkCache("linear"), 20, 100, 10, Linear) == None
  {
  }

  /** `z` is authored only at 50 ms; its slot in the 0 ms bucket is null. */
  function ZAt50(): KeyframeProperty<real> {
    KeyframeProperty("z", 50, 7.0, Some("none"), None)
  }

  function ThreeMarkCache(): Cache<real> {
    map[0 := map["x" := Some(XAt0("none")), "z" := None],
        50 := map["x" := Some(XAt0("none")), "z" := Some(ZAt50())],
        100 := map["x" := Some(XAt100()), "z" := Some(ZAt50())]]
  }

  /**
   * A property authored only at 50 ms is left out of the update at 0 ms and
   * held at 50 ms and 100 ms.
   */
  lemma LateAuthoredPropertyIsHeld()
    ensures UpdateCall([0, 50, 100], ThreeMarkCache(), 0, 100, 0, Linear) == Some(map["x" := Some(0.0)])
    ensures UpdateCall([0, 50, 100], ThreeMarkCache(), 0, 100, 50, Linear)
         == Some(map["x" := Some(0.0), "z" := Some(7.0)])
    ensures UpdateCall([0, 50, 100], ThreeMarkCache(), 0, 100, 100, Linear)
         == Some(map["x" := Some(10.0), "z" := Some(7.0)])
  {
    var c := ThreeMarkCache();
    var keys := [0, 50, 100];
    assert CacheId(keys, 0) == 0 && CacheId(keys, 50) == 1 && CacheId(keys, 100) == 2;
    SingleProperty(c[0], "x", 0);
    TwoProperties(c[50], "x", "z", 50);
    TwoProperties(c[100], "x", "z", 100);
  }

  /** The update object of a bucket whose only non-null entry is `name`. */
  lemma SingleProperty(b: Bucket<real>, name: string, ms: int)
    requires BucketWellFormed(b) && name in b && b[name].Some?
    requires forall n :: n in b && n != name ==> b[n].None?
    ensures InterpolatedObject(b, ms, Linear) == map[name := GetValueAt(b[name].value, ms, Linear)]
  {
    assert PresentNames(b) == {name};
  }

  /** The update object of a bucket with exactly two entries, both non-null. */
  lemma TwoProperties(b: Bucket<real>, n1: string, n2: string, ms: int)
    requires BucketWellFormed(b) && b.Keys == {n1, n2} && n1 != n2 && b[n1].Some? && b[n2].Some?
    ensures InterpolatedObject(b, ms, Linear)
         == map[n1 := GetValueAt(b[n1].value, ms, Linear), n2 := GetValueAt(b[n2].value, ms, Linear)]
  {
    assert PresentNames(b) == {n1, n2};
  }

  /** A one-mark timeline hands `set` an empty object, even at the mark itself. */
  lemma OneMarkRendersNothing()
    ensures UpdateCall([0], map[0 := map["x" := Some(XAt100())]], 0, 100, 0, Linear) == Some(map[])
  {
  }
}
