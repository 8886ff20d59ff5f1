/**
 * The private segment locator of the patched `_updateState`
 * (`getPropertyCacheIdForMillisecond`): given the actor's sorted cache
 * marks, it picks the index of the cache bucket to render a millisecond
 * with. It is a floor search with an exact-match rule, and it answers -1
 * when its scan runs out.
 */
module CacheLocator {

  /** The shape of `_timelinePropertyCacheKeys`: distinct marks in ascending order. */
  ghost predicate StrictlyIncreasing(list: seq<int>) {
    forall i, j :: 0 <= i < j < |list| ==> list[i] < list[j]
  }

  /**
   * What the scan answers when it reaches position `i`: one past the last
   * mark that lies below `ms`, unless a mark equals `ms`, and -1 when no
   * remaining mark is at or above `ms`.
   */
  function ScanFrom(list: seq<int>, ms: int, i: nat): (id: int)
    requires 1 <= i
    ensures -1 <= id < |list|
    ensures id == -1 <==> forall j :: i <= j < |list| ==> list[j] < ms
    ensures id != -1 ==> i - 1 <= id
    decreases |list| - i
  {
    if i >= |list| then -1
    else if list[i] > ms then i - 1
    else if list[i] == ms then i
    else ScanFrom(list, ms, i + 1)
  }

  /** The cache index chosen for `ms`; the scan starts at 1, so `list[0]` is never compared. */
  function CacheId(list: seq<int>, ms: int): int {
    ScanFrom(list, ms, 1)
  }

  /** The loop of `getPropertyCacheIdForMillisecond`, with its two early returns. */
  method GetPropertyCacheIdForMillisecond(list: seq<int>, ms: int) returns (id: int)
    ensures id == CacheId(list, ms)
  {
    var i := 1;
    while i < |list|
      invariant 1 <= i
      invariant ScanFrom(list, ms, i) == CacheId(list, ms)
    {
      if list[i] > ms {
        return i - 1;
      } else if list[i] == ms {
        return i;
      }
      i := i + 1;
    }
    return -1;
  }

  lemma {:induction false} ScanFromFloor(list: seq<int>, ms: int, i: nat)
    requires StrictlyIncreasing(list)
    requires 1 <= i <= |list| - 1
    requires list[i - 1] <= ms <= list[|list| - 1]
    ensures var id := ScanFrom(list, ms, i);
      0 <= id < |list| && list[id] <= ms && (id == |list| - 1 || ms < list[id + 1])
    decreases |list| - i
  {
    if list[i] < ms {
      if i + 1 == |list| {
        assert false;
      } else {
        ScanFromFloor(list, ms, i + 1);
      }
    }
  }

  /**
   * Floor rule: on a sorted timeline of at least two marks, a query inside
   * the marks' range selects the greatest mark at or below it.
   */
  lemma {:induction false} CacheIdFloor(list: seq<int>, ms: int)
    requires StrictlyIncreasing(list) && 2 <= |list|
    requires list[0] <= ms <= list[|list| - 1]
    ensures var id := CacheId(list, ms);
      0 <= id < |list| && list[id] <= ms && (id == |list| - 1 || ms < list[id + 1])
  {
    ScanFromFloor(list, ms, 1);
  }

  /**
   * Exact match: querying a mark selects that mark's own bucket, so in
   * particular the last keyframe is rendered from the last bucket.
   */
  lemma {:induction false} CacheIdExact(list: seq<int>, k: nat)
    requires StrictlyIncreasing(list) && 2 <= |list|
    requires k < |list|
    ensures CacheId(list, list[k]) == k
  {
    CacheIdFloor(list, list[k]);
  }

  /** The floor rule and exact match together: the chosen mark is the greatest one at or below `ms`. */
  lemma CacheIdIsGreatestMarkAtOrBelow(list: seq<int>, ms: int)
    requires StrictlyIncreasing(list) && 2 <= |list|
    requires list[0] <= ms <= list[|list| - 1]
    ensures var id := CacheId(list, ms);
      0 <= id < |list| && list[id] <= ms && forall j :: id < j < |list| ==> ms < list[j]
  {
    CacheIdFloor(list, ms);
  }

  /**
   * Fallbacks: fewer than two marks, or a query past the last mark, give -1;
   * any query below the second mark gives 0, even one below the first mark.
   */
  lemma CacheIdFallbacks(list: seq<int>, ms: int)
    ensures |list| < 2 ==> CacheId(list, ms) == -1
    ensures StrictlyIncreasing(list) && 1 <= |list| && list[|list| - 1] < ms ==> CacheId(list, ms) == -1
    ensures 2 <= |list| && ms < list[1] ==> CacheId(list, ms) == 0
  {
  }
}
