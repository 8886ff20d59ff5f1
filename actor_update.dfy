/**
 * The patched `Actor.prototype._updateState`: clamp the query to the
 * actor's end, do nothing before its start, otherwise pick ONE cache
 * bucket with the locator, evaluate every present property of that bucket
 * at the same clamped time, and hand all results to `set` in one call.
 */
module ActorUpdate {
  import opened Wrappers
  import opened Keyframes
  import opened CacheLocator

  /** A cache bucket: property name to its active keyframe property (`None` for a null slot). */
  type Bucket<V> = map<string, Option<KeyframeProperty<V>>>

  /** `_timelinePropertyCache`: a bucket per cache mark. */
  type Cache<V> = map<int, Bucket<V>>

  /** The object handed to `set`: property name to value, `None` standing for `undefined`. */
  type StateObject<V> = map<string, Option<V>>

  /** Every property present in the bucket keeps the chain's ordering invariant. */
  predicate BucketWellFormed<V>(b: Bucket<V>) {
    forall name :: name in b && b[name].Some? ==> HasLaterSuccessor(b[name].value)
  }

  predicate CacheWellFormed<V>(cache: Cache<V>) {
    forall mark :: mark in cache ==> BucketWellFormed(cache[mark])
  }

  /** `Math.min(endMs, millisecond)`. */
  function ClampToEnd(endMs: int, ms: int): (t: int)
    ensures t <= endMs && t <= ms && (t == endMs || t == ms)
  {
    if endMs < ms then endMs else ms
  }

  /**
   * The bucket read through `_timelinePropertyCacheKeys[latestCacheId]`:
   * index -1 (or a mark with no bucket) reads `undefined`, over which the
   * loop iterates nothing, so it acts as an empty bucket.
   */
  function SelectedBucket<V>(keys: seq<int>, cache: Cache<V>, id: int): (b: Bucket<V>)
    ensures CacheWellFormed(cache) ==> BucketWellFormed(b)
    ensures 0 <= id < |keys| && keys[id] in cache ==> b == cache[keys[id]]
    ensures !(0 <= id < |keys| && keys[id] in cache) ==> b == map[]
  {
    if 0 <= id < |keys| && keys[id] in cache then
      var mark := keys[id];
      assert mark in cache;
      cache[mark]
    else
      map[]
  }

  /** The names whose entries the loop visits: present in the bucket and not null. */
  function PresentNames<V>(b: Bucket<V>): set<string> {
    set name | name in b && b[name].Some?
  }

  /** The object the loop fills: each present property of one bucket, evaluated at one time. */
  function InterpolatedObject<V>(b: Bucket<V>, ms: int, interpolate: Interpolator<V>): StateObject<V>
    requires BucketWellFormed(b)
  {
    map name | name in PresentNames(b) :: GetValueAt(b[name].value, ms, interpolate)
  }

  /**
   * The `_.each` loop of `_updateState`: every property whose entry is
   * truthy gets exactly one key, valued by that entry's `getValueAt` at the
   * same `ms` (which may be `undefined`); null entries are skipped.
   */
  method Interpolate<V>(b: Bucket<V>, ms: int, interpolate: Interpolator<V>) returns (obj: StateObject<V>)
    requires BucketWellFormed(b)
    ensures obj.Keys == PresentNames(b)
    ensures forall name :: name in obj ==> obj[name] == GetValueAt(b[name].value, ms, interpolate)
  {
    obj := map[];
    var todo := b.Keys;
    while todo != {}
      invariant todo <= b.Keys
      invariant obj.Keys == PresentNames(b) - todo
      invariant forall name :: name in obj ==> obj[name] == GetValueAt(b[name].value, ms, interpolate)
      decreases todo
    {
      var propName :| propName in todo;
      var keyframeProperty := b[propName];
      if keyframeProperty.Some? {
        obj := obj[propName := GetValueAt(keyframeProperty.value, ms, interpolate)];
      }
      todo := todo - {propName};
    }
  }

  /**
   * What one `_updateState(ms)` hands to `set`: `None` when `set` is not
   * called at all, otherwise the interpolated object of the single bucket
   * the locator picks for the clamped time.
   */
  function UpdateCall<V>(keys: seq<int>, cache: Cache<V>, startMs: int, endMs: int, ms: int,
                         interpolate: Interpolator<V>): (call: Option<StateObject<V>>)
    requires CacheWellFormed(cache)
    ensures call.None? <==> ClampToEnd(endMs, ms) < startMs
  {
    var t := ClampToEnd(endMs, ms);
    if startMs <= t then
      Some(InterpolatedObject(SelectedBucket(keys, cache, CacheId(keys, t)), t, interpolate))
    else
      None
  }

  /**
   * Range handling: `set` is skipped exactly before the start, and any
   * query at or beyond the end renders as the end itself does.
   */
  lemma UpdateClampsToEnd<V>(keys: seq<int>, cache: Cache<V>, startMs: int, endMs: int, ms: int,
                             interpolate: Interpolator<V>)
    requires CacheWellFormed(cache)
    requires endMs <= ms
    ensures UpdateCall(keys, cache, startMs, endMs, ms, interpolate)
         == UpdateCall(keys, cache, startMs, endMs, endMs, interpolate)
  {
  }

  /**
   * Bucket consistency: the object handed to `set` has exactly one key per
   * non-null entry of the single bucket the locator picked for the clamped
   * time, each valued at that same clamped time; nothing else is written.
   */
  lemma UpdateUsesOneBucket<V>(keys: seq<int>, cache: Cache<V>, startMs: int, endMs: int, ms: int,
                               interpolate: Interpolator<V>)
    requires CacheWellFormed(cache)
    requires startMs <= ClampToEnd(endMs, ms)
    ensures var t := ClampToEnd(endMs, ms);
      var b := SelectedBucket(keys, cache, CacheId(keys, t));
      var call := UpdateCall(keys, cache, startMs, endMs, ms, interpolate);
      && call.Some?
      && call.value.Keys == PresentNames(b)
      && (forall name :: name in call.value ==> call.value[name] == GetValueAt(b[name].value, t, interpolate))
  {
  }

  /** A property whose entry lies after the clamped time still gets a key, valued `undefined`. */
  lemma EarlyEntryWritesUndefined<V>(b: Bucket<V>, ms: int, name: string, interpolate: Interpolator<V>)
    requires BucketWellFormed(b)
    requires name in b && b[name].Some? && ms < b[name].value.millisecond
    ensures name in InterpolatedObject(b, ms, interpolate)
    ensures InterpolatedObject(b, ms, interpolate)[name] == None
  {
  }

  /** A timeline of fewer than two marks calls `set` with an empty object: nothing is updated. */
  lemma SingleMarkUpdatesNothing<V>(keys: seq<int>, cache: Cache<V>, startMs: int, endMs: int, ms: int,
                                    interpolate: Interpolator<V>)
    requires CacheWellFormed(cache)
    requires |keys| < 2 && startMs <= ClampToEnd(endMs, ms)
    ensures UpdateCall(keys, cache, startMs, endMs, ms, interpolate) == Some(map[])
  {
    CacheIdFallbacks(keys, ClampToEnd(endMs, ms));
  }

  /**
   * A query that lands exactly on a mark (after clamping) renders that
   * mark's own bucket at that mark.
   */
  lemma UpdateAtMark<V>(keys: seq<int>, cache: Cache<V>, startMs: int, endMs: int, k: nat,
                        interpolate: Interpolator<V>)
    requires CacheWellFormed(cache)
    requires StrictlyIncreasing(keys) && 2 <= |keys| && k < |keys| && keys[k] in cache
    requires startMs <= keys[k] <= endMs
    ensures UpdateCall(keys, cache, startMs, endMs, keys[k], interpolate)
         == Some(InterpolatedObject(cache[keys[k]], keys[k], interpolate))
  {
    CacheIdExact(keys, k);
  }

  /**
   * The last keyframe is rendered exactly: when the actor ends at the last
   * mark, every query at or past the end renders the last bucket at the
   * last mark.
   */
  lemma FinalMarkRendered<V>(keys: seq<int>, cache: Cache<V>, startMs: int, ms: int,
                             interpolate: Interpolator<V>)
    requires CacheWellFormed(cache)
    requires StrictlyIncreasing(keys) && 2 <= |keys| && keys[|keys| - 1] in cache
    requires startMs <= keys[|keys| - 1] <= ms
    ensures var last := keys[|keys| - 1];
      UpdateCall(keys, cache, startMs, last, ms, interpolate)
        == Some(InterpolatedObject(cache[last], last, interpolate))
  {
    UpdateClampsToEnd(keys, cache, startMs, keys[|keys| - 1], ms, interpolate);
    UpdateAtMark(keys, cache, startMs, keys[|keys| - 1], |keys| - 1, interpolate);
  }

  /** Between two consecutive marks, the earlier mark's bucket is rendered at the query time. */
  lemma UpdateBetweenMarks<V>(keys: seq<int>, cache: Cache<V>, startMs: int, endMs: int, ms: int, k: nat,
                              interpolate: Interpolator<V>)
    requires CacheWellFormed(cache)
    requires StrictlyIncreasing(keys) && k + 1 < |keys| && keys[k] in cache
    requires keys[k] <= ms < keys[k + 1] && startMs <= ms <= endMs
    ensures UpdateCall(keys, cache, startMs, endMs, ms, interpolate)
         == Some(InterpolatedObject(cache[keys[k]], ms, interpolate))
  {
    CacheIdFloor(keys, ms);
  }

  /**
   * An actor as `_updateState` sees it: its cache marks and buckets, what
   * `getStart`/`getEnd` report, and the log of objects handed to `set`.
   */
  class Actor<V> {
    var timelinePropertyCacheKeys: seq<int>
    var timelinePropertyCache: Cache<V>
    var start: int
    var end: int
    var setCalls: seq<StateObject<V>>

    ghost predicate Valid()
      reads this
    {
      CacheWellFormed(timelinePropertyCache)
    }

    constructor (keys: seq<int>, cache: Cache<V>, startMs: int, endMs: int)
      requires CacheWellFormed(cache)
      ensures Valid()
      ensures timelinePropertyCacheKeys == keys && timelinePropertyCache == cache
      ensures start == startMs && end == endMs && setCalls == []
    {
      timelinePropertyCacheKeys := keys;
      timelinePropertyCache := cache;
      start := startMs;
      end := endMs;
      setCalls := [];
    }

    /**
     * `_updateState(millisecond)`: at most one `set` call, carrying the
     * object `UpdateCall` describes; the cache and range are untouched and
     * the actor itself is returned.
     */
    method UpdateState(millisecond: int, interpolate: Interpolator<V>) returns (self: Actor<V>)
      requires Valid()
      modifies this`setCalls
      ensures Valid() && self == this
      ensures setCalls == old(setCalls) +
        match UpdateCall(timelinePropertyCacheKeys, timelinePropertyCache, start, end, millisecond, interpolate)
        case Some(obj) => [obj]
        case None => []
    {
      var startMs := start;
      var endMs := end;
      var ms := ClampToEnd(endMs, millisecond);
      if startMs <= ms {
        var latestCacheId := GetPropertyCacheIdForMillisecond(timelinePropertyCacheKeys, ms);
        var propertiesToInterpolate := SelectedBucket(timelinePropertyCacheKeys, timelinePropertyCache, latestCacheId);
        var interpolatedObject := Interpolate(propertiesToInterpolate, ms, interpolate);
        assert interpolatedObject == InterpolatedObject(propertiesToInterpolate, ms, interpolate);
        setCalls := setCalls + [interpolatedObject];
      }
      self := this;
    }
  }
}
