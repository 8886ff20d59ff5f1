/**
 * The `Actor.prototype.keyframe` wrapper: before the base `keyframe` runs,
 * every animated property is given the easing `'none'` unless the easing
 * argument already holds a truthy easing for it, so that later rendering
 * can tell "hold" apart from "tween".
 */
module ActorKeyframe {
  import opened Wrappers

  /**
   * The `opt_easing` argument: `Unset` for `undefined` or any other falsy
   * non-string, `Named` for a string (one curve for every property), and
   * `PerProperty` for an object mapping property names to curve names.
   */
  datatype EasingArg = Unset | Named(name: string) | PerProperty(easings: map<string, string>)

  /** The arguments the wrapper passes on to the base `keyframe`. */
  datatype BaseKeyframeCall<V> = BaseKeyframeCall(
    millisecond: int,
    properties: Option<seq<(string, V)>>,
    easing: EasingArg)

  /** Strict-mode `TypeError`: assigning property `key` on a string primitive. */
  datatype KeyframeError = TypeError(key: string)

  /** A string argument survives the guard on line 21 only when it is non-empty (truthy). */
  predicate IsCurveName(easing: EasingArg) {
    easing.Named? && easing.name != ""
  }

  /** The names of the animated properties, as `_.each` visits them. */
  function KeySet<V>(properties: seq<(string, V)>): set<string> {
    set i | 0 <= i < |properties| :: properties[i].0
  }

  /**
   * What `opt_easing[key]` reads on an easing object: its own entry when it
   * has one (truthy unless empty), and otherwise whatever the object
   * inherits, which `objectMember(key)` says is truthy (a member of
   * `Object.prototype` such as `toString` or `constructor`).
   */
  predicate ReadsTruthy(easings: map<string, string>, key: string, objectMember: string -> bool) {
    if key in easings then easings[key] != "" else objectMember(key)
  }

  /** One call of the `_.each` callback on an easing object: a falsy read becomes `'none'`. */
  function DefaultKey(easings: map<string, string>, key: string, objectMember: string -> bool): map<string, string> {
    if ReadsTruthy(easings, key, objectMember) then easings else easings[key := "none"]
  }

  /** The callback applied to every property in visiting order, starting from `easings`. */
  function DefaultEach<V>(properties: seq<(string, V)>, easings: map<string, string>,
                          objectMember: string -> bool): map<string, string>
    decreases |properties|
  {
    if properties == [] then easings
    else DefaultKey(DefaultEach(properties[..|properties| - 1], easings, objectMember),
                    properties[|properties| - 1].0, objectMember)
  }

  /** The animated names whose first read on `easings` is falsy: exactly the ones that get `'none'`. */
  function DefaultedNames<V>(properties: seq<(string, V)>, easings: map<string, string>,
                             objectMember: string -> bool): set<string> {
    set k | k in KeySet(properties) && !ReadsTruthy(easings, k, objectMember)
  }

  /**
   * Defaulting from an easing object keeps every entry it already has,
   * gives `'none'` to every animated name whose read is falsy, and adds no
   * other name; a name it inherits a truthy member for gets no entry.
   */
  lemma {:induction false} DefaultEachSpec<V>(properties: seq<(string, V)>, easings: map<string, string>,
                                              objectMember: string -> bool)
    ensures var r := DefaultEach(properties, easings, objectMember);
      && r.Keys == easings.Keys + DefaultedNames(properties, easings, objectMember)
      && (forall k :: k in easings && easings[k] != "" ==> r[k] == easings[k])
      && (forall k :: k in DefaultedNames(properties, easings, objectMember) ==> r[k] == "none")
      && (forall k :: k in easings && k !in KeySet(properties) ==> r[k] == easings[k])
    decreases |properties|
  {
    if properties != [] {
      var init := properties[..|properties| - 1];
      var last := properties[|properties| - 1].0;
      DefaultEachSpec(init, easings, objectMember);
      assert properties == init + [properties[|properties| - 1]];
      assert KeySet(properties) == KeySet(init) + {last};
      var prev := DefaultEach(init, easings, objectMember);
      assert ReadsTruthy(prev, last, objectMember) <==>
        (last in DefaultedNames(init, easings, objectMember) || ReadsTruthy(easings, last, objectMember));
    }
  }

  /**
   * The wrapper as written. A non-string or falsy easing is replaced by a
   * fresh empty object, so a caller's easing map is discarded and every
   * animated property that the empty object does not inherit a truthy
   * member for ends up with exactly `'none'`. A non-empty string is kept;
   * reading `opt_easing[key]` on it is truthy only where
   * `stringMember(name, key)` says so (a character index or an inherited
   * string member), and the first other key in visiting order makes the
   * strict-mode assignment throw.
   */
  method Keyframe<V>(millisecond: int, properties: Option<seq<(string, V)>>, optEasing: EasingArg,
                     stringMember: (string, string) -> bool, objectMember: string -> bool)
    returns (r: Result<BaseKeyframeCall<V>, KeyframeError>)
    ensures r.Success? ==> r.value.millisecond == millisecond && r.value.properties == properties
    ensures !IsCurveName(optEasing) ==>
      && r.Success?
      && r.value.easing.PerProperty?
      && r.value.easing.easings.Keys
           == (if properties.Some? then set k | k in KeySet(properties.value) && !objectMember(k) else {})
      && forall k :: k in r.value.easing.easings ==> r.value.easing.easings[k] == "none"
    ensures IsCurveName(optEasing) ==>
      (r.Success? <==> properties.None? || forall j :: 0 <= j < |properties.value| ==> stringMember(optEasing.name, properties.value[j].0))
    ensures IsCurveName(optEasing) && r.Success? ==> r.value.easing == optEasing
    ensures r.Failure? ==>
      properties.Some? &&
      exists i :: 0 <= i < |properties.value| && properties.value[i].0 == r.error.key
        && !stringMember(optEasing.name, r.error.key)
        && forall j :: 0 <= j < i ==> stringMember(optEasing.name, properties.value[j].0)
  {
    var easing := optEasing;
    if !IsCurveName(easing) {
      easing := PerProperty(map[]);
    }
    if properties.Some? {
      var ps := properties.value;
      var i := 0;
      while i < |ps|
        invariant 0 <= i <= |ps|
        invariant IsCurveName(optEasing) ==>
          easing == optEasing && forall j :: 0 <= j < i ==> stringMember(optEasing.name, ps[j].0)
        invariant !IsCurveName(optEasing) ==> easing == PerProperty(DefaultEach(ps[..i], map[], objectMember))
      {
        var key := ps[i].0;
        match easing {
          case Named(s) =>
            if !stringMember(s, key) {
              assert ps[i].0 == key;
              return Failure(TypeError(key));
            }
          case PerProperty(m) =>
            if !ReadsTruthy(m, key, objectMember) {
              easing := PerProperty(m[key := "none"]);
            }
          case Unset =>
            assert false;
        }
        assert ps[..i + 1][..i] == ps[..i];
        i := i + 1;
      }
      assert ps[..i] == ps;
      DefaultEachSpec(ps, map[], objectMember);
    }
    return Success(BaseKeyframeCall(millisecond, properties, easing));
  }

  /**
   * The defaulting the wrapper evidently intends: a caller's easing map
   * keeps every truthy easing it gives, and only the animated properties
   * it leaves out (or leaves falsy) default to `'none'`.
   */
  function IntendedEasings<V>(properties: seq<(string, V)>, easings: map<string, string>,
                              objectMember: string -> bool): (r: map<string, string>)
    ensures r.Keys == easings.Keys + DefaultedNames(properties, easings, objectMember)
    ensures forall k :: k in easings && easings[k] != "" ==> r[k] == easings[k]
    ensures forall k :: k in DefaultedNames(properties, easings, objectMember) ==> r[k] == "none"
  {
    DefaultEachSpec(properties, easings, objectMember);
    DefaultEach(properties, easings, objectMember)
  }

  /**
   * The discrepancy on one input: for properties `x` and `y` (neither
   * inherited by a plain object) with the caller's easing map
   * `{x: 'linear'}`, the wrapper as written defaults from an empty object
   * and hands `{x: 'none', y: 'none'}` to the base, while the intended
   * defaulting hands `{x: 'linear', y: 'none'}`.
   */
  lemma CallerEasingDiscarded(objectMember: string -> bool)
    requires !objectMember("x") && !objectMember("y")
    ensures var ps := [("x", 1), ("y", 2)];
      && DefaultEach(ps, map[], objectMember) == map["x" := "none", "y" := "none"]
      && IntendedEasings(ps, map["x" := "linear"], objectMember) == map["x" := "linear", "y" := "none"]
  {
    var ps: seq<(string, int)> := [("x", 1), ("y", 2)];
    assert ps[..1] == [("x", 1)] && |ps[..1][..0]| == 0;
    assert DefaultEach(ps, map[], objectMember) == map["x" := "none", "y" := "none"];
    assert DefaultEach(ps, map["x" := "linear"], objectMember) == map["x" := "linear", "y" := "none"];
  }

  /**
   * A name the empty object inherits a truthy member for is never
   * defaulted: `keyframe(0, {toString: 1})` hands the base an easing object
   * with no own entry at all.
   */
  lemma InheritedNameNotDefaulted(objectMember: string -> bool)
    requires objectMember("toString")
    ensures DefaultEach([("toString", 1)], map[], objectMember) == map[]
  {
    var ps: seq<(string, int)> := [("toString", 1)];
    assert ps[..0] == [];
  }
}
