# Rekapi keyframe fixes, modelled in Dafny

This project models `src/rekapi.keyframe-fixes.js`. That module patches Rekapi so that keyframes
behave as they do in Flash. A property tweens only when its own (origin) keyframe carries an easing
other than `'none'`. The origin's easing is used, never the destination's. A property missing from a
keyframe is not tweened. The module patches four methods, and each one is modelled here:

- `wrappers.dfy` (`Wrappers`): `Option` (JavaScript `undefined`/`null` is `None`) and `Result`.
- `actor_keyframe.dfy` (`ActorKeyframe`): the `Actor.prototype.keyframe` wrapper. Before the base
  `keyframe` runs, every animated property that does not already read a truthy easing gets
  `'none'`. The method `Keyframe` is the
  wrapper's loop. It returns the arguments handed to the base `keyframe`, or the strict-mode
  `TypeError` that a string easing argument can raise.
- `cache_locator.dfy` (`CacheLocator`): `getPropertyCacheIdForMillisecond`. It scans the sorted cache
  marks from index 1 and returns `i - 1` at the first mark above the query, `i` at a mark equal to
  it, and `-1` when the scan runs out. The lemmas prove the floor rule, the exact-match rule and the
  fallbacks.
- `keyframes.dfy` (`Keyframes`): `KeyframeProperty` with its successor link, and the patched
  `getValueAt`. The easing curve library is a function parameter (`Interpolator`), so the model
  states exactly which from-value, to-value, position and easing name reach it.
- `actor_update.dfy` (`ActorUpdate`): the patched `_updateState`. The pure specification is
  `UpdateCall`. The class `Actor` holds the cache marks, the buckets, the start and end that
  `getStart`/`getEnd` report, and a log of every object handed to `set`. `Actor.UpdateState` is the
  imperative method. `Interpolate` is its `_.each` loop.
- `scenarios.dfy` (`Scenarios`): concrete timelines run through the whole update.

Three behaviours of the code are easy to misread, and the model keeps them as written:

- The locator returns `-1` when its scan runs out (fewer than two marks, or a query past the last
  mark). It does not fall back to the last index or report an error. With `-1`, `_updateState`
  reads no bucket and calls `set` with an empty object.
- Tweening is decided by the origin keyframe alone. A `'none'` keyframe followed by a `'linear'` one
  holds the first value across the whole segment (`Scenarios.DestinationEasingDoesNotTween`).
- A caller's per-property easing map is discarded by the `keyframe` wrapper, not merged with the
  `'none'` defaults (see Findings).

Building the cache (and detecting duplicate keyframe times) is not part of this file. The model
takes the marks and buckets as inputs.

## Model

| member | source | states |
|---|---|---|
| CacheLocator.ScanFrom | src/rekapi.keyframe-fixes.js:53-61 | the scan from position `i` answers an index in `[-1, len)`. It answers -1 exactly when no remaining mark is at or above the query, and otherwise an index no lower than `i - 1` |
| CacheLocator.GetPropertyCacheIdForMillisecond | src/rekapi.keyframe-fixes.js:38-62 | the loop with its two early returns computes exactly the cache index `CacheId` specifies |
| CacheLocator.CacheIdFloor | src/rekapi.keyframe-fixes.js:53-59 | on strictly increasing marks (at least two) and a query between the first and last mark, the result `i` has `list[i] <= ms`, and either `i` is the last index or `list[i+1] > ms` |
| CacheLocator.CacheIdExact | src/rekapi.keyframe-fixes.js:49-59 | querying any mark `list[k]` of a strictly increasing list of at least two marks returns `k`, so the last keyframe is looked up in its own bucket |
| CacheLocator.CacheIdIsGreatestMarkAtOrBelow | src/rekapi.keyframe-fixes.js:53-59 | under the same conditions the chosen mark is the greatest mark at or below the query: every later mark lies above it |
| CacheLocator.CacheIdFallbacks | src/rekapi.keyframe-fixes.js:53-61 | fewer than two marks give -1, a query past the last mark of a sorted list gives -1, and any query below the second mark gives 0, even one below the first mark |
| Keyframes.GetValueAt | src/rekapi.keyframe-fixes.js:103-145 | the result is `undefined` exactly when the query lies before the property's own millisecond |
| Keyframes.TweenCase | src/rekapi.keyframe-fixes.js:129-138 | with a successor, a truthy easing other than `'none'` and a query at or after its own time, the primitive gets the origin's value, the successor's value, `(ms - own) / (next - own)` and the origin's easing |
| Keyframes.HoldCase | src/rekapi.keyframe-fixes.js:129-141 | without a successor, or with an unset, empty or `'none'` easing, every query from the property's own time on yields its own value, whatever the primitive does |
| Keyframes.UndefinedBeforeOwnTime | src/rekapi.keyframe-fixes.js:139-143 | before its own millisecond a property yields `undefined`, whatever easing it carries |
| Keyframes.SuccessorEasingIgnored | src/rekapi.keyframe-fixes.js:123-138 | replacing the successor with any keyframe of the same millisecond and value (another easing, name or successor) changes no result, so only the origin's easing is used |
| Keyframes.DefaultEasingActsAsNone | src/rekapi.keyframe-fixes.js:129-131 | an unset or empty easing gives the same result as `'none'` at every time |
| Keyframes.PositionInUnitInterval | src/rekapi.keyframe-fixes.js:135-136 | for a query between the property's time and its successor's, the position handed to the primitive lies in `[0, 1]` |
| Keyframes.TweenBoundaries | src/rekapi.keyframe-fixes.js:133-138 | a tweening segment is evaluated at position 0 at its origin and at position 1 at its successor. A primitive that returns its from-value at 0 renders the origin exactly |
| ActorUpdate.ClampToEnd | src/rekapi.keyframe-fixes.js:70 | the clamped time is at most the end and at most the query, and equals one of them |
| ActorUpdate.SelectedBucket | src/rekapi.keyframe-fixes.js:73-76 | a valid index whose mark has a bucket reads exactly that bucket. A missing index (-1) or a mark without a bucket reads as an empty bucket. A well-formed cache gives a well-formed bucket |
| ActorUpdate.Interpolate | src/rekapi.keyframe-fixes.js:77-94 | the filled object has exactly one key per bucket property whose entry is not null. Each value is that entry's `getValueAt` at the same time, `undefined` included |
| ActorUpdate.UpdateCall | src/rekapi.keyframe-fixes.js:66-99 | `set` is skipped exactly when the query, clamped to the end, lies before the start |
| ActorUpdate.UpdateClampsToEnd | src/rekapi.keyframe-fixes.js:67-72 | any query at or beyond the end produces the same `set` call as the end itself |
| ActorUpdate.UpdateUsesOneBucket | src/rekapi.keyframe-fixes.js:73-96 | when `set` is called, its object has one key per non-null entry of the single bucket the locator picked for the clamped time. Each value is evaluated at that same clamped time |
| ActorUpdate.EarlyEntryWritesUndefined | src/rekapi.keyframe-fixes.js:86-87 | an entry whose own time lies after the clamped time still gets a key, with value `undefined` |
| ActorUpdate.SingleMarkUpdatesNothing | src/rekapi.keyframe-fixes.js:53-96 | with fewer than two marks, every update from the start on calls `set` with an empty object |
| ActorUpdate.UpdateAtMark | src/rekapi.keyframe-fixes.js:73-96 | a query that equals a mark within `[start, end]` renders that mark's own bucket at that mark |
| ActorUpdate.FinalMarkRendered | src/rekapi.keyframe-fixes.js:49-76 | when the actor ends at the last mark, every query at or past the end renders the last bucket at the last mark |
| ActorUpdate.UpdateBetweenMarks | src/rekapi.keyframe-fixes.js:53-76 | a query between consecutive marks `k` and `k+1` renders bucket `k` at the query time |
| ActorUpdate.Actor.UpdateState | src/rekapi.keyframe-fixes.js:66-100 | the `set` log grows by the object `UpdateCall` describes, or not at all before the start. The cache, start and end are untouched, and the actor itself is returned |
| ActorKeyframe.Keyframe | src/rekapi.keyframe-fixes.js:18-35 | a falsy or non-string easing argument, a per-property map included, is discarded. The base gets an easing object holding `'none'` for exactly the animated names that a plain object does not inherit a truthy member for (`objectMember`); names like `toString` get no entry. A non-empty string is passed on unchanged if every name reads truthy on it. Otherwise a `TypeError` names the first property, in visiting order, that does not |
| ActorKeyframe.DefaultEachSpec | src/rekapi.keyframe-fixes.js:26-30 | running the callback over the properties keeps every truthy easing already in the object and gives `'none'` to every property whose read is falsy (no own truthy entry and no truthy inherited member). It adds no other name and leaves other entries alone |
| ActorKeyframe.InheritedNameNotDefaulted | src/rekapi.keyframe-fixes.js:22-29 | a property named after a truthy member of `Object.prototype`, such as `toString`, gets no `'none'` entry in the fresh easing object |
| ActorKeyframe.IntendedEasings | src/rekapi.keyframe-fixes.js:21-30 | corrected defaulting: the caller's truthy easings are kept and only the missing or falsy ones become `'none'` |
| ActorKeyframe.CallerEasingDiscarded | src/rekapi.keyframe-fixes.js:21-30 | for properties `x`, `y` (not inherited by a plain object) and caller map `{x: 'linear'}`, the code as written yields `{x: 'none', y: 'none'}`, while the intended defaulting yields `{x: 'linear', y: 'none'}` |
| Scenarios.DestinationEasingDoesNotTween | src/rekapi.keyframe-fixes.js:123-141 | `x`: 0 at 0 ms (`'none'`), 10 at 100 ms (`'linear'`) renders 0 at 0 and 50 ms, and 10 at 100 ms and beyond |
| Scenarios.OriginEasingTweens | src/rekapi.keyframe-fixes.js:129-138 | the same timeline with `'linear'` on the origin renders 5 at 50 ms |
| Scenarios.NothingBeforeStart | src/rekapi.keyframe-fixes.js:67-72 | a query before the actor's start calls no `set` |
| Scenarios.LateAuthoredPropertyIsHeld | src/rekapi.keyframe-fixes.js:79-87 | a property authored only at 50 ms, with a null slot at 0 ms, is absent from the 0 ms update and held at 50 and 100 ms |
| Scenarios.OneMarkRendersNothing | src/rekapi.keyframe-fixes.js:53-61 | a timeline of one mark hands `set` an empty object, even at that mark |

## Left out

- The `_beforeKeyframePropertyInterpolate` / `_afterKeyframePropertyInterpolate` hooks and their `noop` checks are foreign callbacks with unknown effects. Without them the visiting order of `_.each` has no effect, and `Interpolate` visits the bucket in any order.
- `Rekapi.Tweenable.interpolate` works on objects keyed by the property name. It is modelled per property, as a function parameter from (from-value, to-value, position, easing name) to a value. Its floating-point curves are not modelled.
- The base `keyframe`, and the building of `_timelinePropertyCache` and `_timelinePropertyCacheKeys`, are not part of this model. The marks and buckets are inputs. Lemmas that rely on the marks being sorted say so in their preconditions.
- `set`, `getStart` and `getEnd` are actor API that is not shown. `set` is recorded in the `setCalls` log, and start and end are fields of `Actor`.
- Times are integer milliseconds. A fractional query time is not modelled. The position is a Dafny `real`, not a float.
- Keyframes.GetValueAt: requires a successor to lie strictly later than its origin (the chain's ordering invariant). The division by zero or a negative span that a malformed chain would cause is not modelled.
- ActorKeyframe.Keyframe: whether reading `key` on a string primitive is truthy (a character index, or a member inherited from `String.prototype`) is the parameter `stringMember`. Whether a plain object inherits a truthy member named `key` (`toString`, `constructor`, `__proto__` and the other members of `Object.prototype`) is the parameter `objectMember`. JavaScript's prototype lookup itself is not modelled.
- Property values are an opaque type `V`. A keyframe whose own value is `undefined` is not distinguished from other values.
- Module registration and the prototype-patching wrappers are plumbing and are not modelled.

## Findings

| source | as written | input that shows it | evidently intended | confidence | as-written member | corrected member |
|---|---|---|---|---|---|---|
| src/rekapi.keyframe-fixes.js:21-30 | every easing argument that is not a non-empty string, including a per-property map, is replaced by `{}`. The `!opt_easing[key]` test on line 27 therefore only ever sees a fresh empty map. | `keyframe(0, {x: 1, y: 2}, {x: 'linear'})` hands `{x: 'none', y: 'none'}` to the base | keep the caller's truthy easings and default only the rest: `{x: 'linear', y: 'none'}` | medium, not executed | ActorKeyframe.CallerEasingDiscarded | ActorKeyframe.IntendedEasings |

`ActorKeyframe.Keyframe` models the wrapper as written. The rest of the model takes keyframe
properties as inputs, whatever easing they were given, so it holds under either form of the
defaulting.
