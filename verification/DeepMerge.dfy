/**
 * The recursive merge used by the test mocks: a patch is merged into a target,
 * plain objects key by key, everything else by replacement.
 */
module DeepMerge {
  import opened Json

  /** `isObj(v)`: `Object.prototype.toString.call(v) === '[object Object]'`. */
  predicate IsObj(v: Value) {
    v.Obj?
  }

  /** The value the merge leaves under key `k` when the patch holds `v` there and the target `tk`. */
  function MergeAt(tk: Value, v: Value): Value
    decreases v, 1
  {
    if v.Arr? then v
    else if IsObj(v) && IsObj(tk) then Merge(tk, v)
    else if !v.Undefined? then v
    else tk
  }

  /** The keys a patch actually sets: those whose value is not undefined. */
  function DefinedKeys(m: map<string, Value>): set<string> {
    set k | k in m && !m[k].Undefined?
  }

  /** `deepMerge(target, patch)`. */
  function Merge(target: Value, patch: Value): (r: Value)
    decreases patch, 0
  {
    if patch.Undefined? || patch.Null? then target
    else if !IsObj(target) || !IsObj(patch) then patch
    else
      Obj(map k | k in target.props.Keys + DefinedKeys(patch.props) ::
            if k in patch.props then MergeAt(Prop(target.props, k), patch.props[k])
            else target.props[k])
  }

  /** Merging two plain objects: the result's keys are both sides' keys, and each key holds what the per-key rules say. */
  lemma ObjectMergeAt(target: Value, patch: Value, k: string)
    requires IsObj(target) && IsObj(patch)
    ensures Merge(target, patch).Obj?
    ensures Merge(target, patch).props.Keys == target.props.Keys + DefinedKeys(patch.props)
    ensures k in patch.props && (k in target.props || !patch.props[k].Undefined?) ==>
              Merge(target, patch).props[k] == MergeAt(Prop(target.props, k), patch.props[k])
    ensures k !in patch.props && k in target.props ==> Merge(target, patch).props[k] == target.props[k]
  {
  }

  /** A null or undefined patch leaves the target as it is. */
  lemma NullishPatchKeepsTarget(target: Value, patch: Value)
    requires IsNullish(patch)
    ensures Merge(target, patch) == target
  {
  }

  /** When either side is not a plain object (an array, a primitive, a function), the patch wins outright. */
  lemma NonObjectGivesPatch(target: Value, patch: Value)
    requires !IsNullish(patch)
    requires !IsObj(target) || !IsObj(patch)
    ensures Merge(target, patch) == patch
  {
  }

  /** A key the patch leaves out keeps the target's value. */
  lemma OmittedKeyKept(target: Value, patch: Value, k: string)
    requires IsObj(target) && IsObj(patch)
    requires k in target.props && k !in patch.props
    ensures Merge(target, patch).props[k] == target.props[k]
  {
  }

  /** A key the patch maps to undefined keeps the target's value, and is not added when the target lacks it. */
  lemma UndefinedPatchValueKept(target: Value, patch: Value, k: string)
    requires IsObj(target) && IsObj(patch)
    requires k in patch.props && patch.props[k].Undefined?
    ensures k in Merge(target, patch).props <==> k in target.props
    ensures k in target.props ==> Merge(target, patch).props[k] == target.props[k]
  {
  }

  /** An array in the patch replaces whatever the target held under that key. */
  lemma ArrayReplaces(target: Value, patch: Value, k: string)
    requires IsObj(target) && IsObj(patch)
    requires k in patch.props && patch.props[k].Arr?
    ensures Merge(target, patch).props[k] == patch.props[k]
  {
  }

  /** Two plain objects under one key are merged recursively. */
  lemma NestedObjectsMerge(target: Value, patch: Value, k: string)
    requires IsObj(target) && IsObj(patch)
    requires k in target.props && k in patch.props
    requires IsObj(target.props[k]) && IsObj(patch.props[k])
    ensures Merge(target, patch).props[k] == Merge(target.props[k], patch.props[k])
  {
  }

  /**
   * A null, primitive or function value in the patch overwrites the target's
   * value, and adds the key when the target lacks it: nulls are not ignored.
   */
  lemma ScalarOverwrites(target: Value, patch: Value, k: string)
    requires IsObj(target) && IsObj(patch)
    requires k in patch.props
    requires var v := patch.props[k]; !v.Undefined? && !v.Arr? && !v.Obj?
    ensures k in Merge(target, patch).props
    ensures Merge(target, patch).props[k] == patch.props[k]
  {
  }

  /** The documented example: an array replaced, a nested object merged, a new key added. */
  lemma DocumentedExample()
    ensures
      var base := Obj(map["name" := Str("John"),
                          "tags" := Arr([Str("a"), Str("b")]),
                          "address" := Obj(map["city" := Str("NYC"), "zip" := Str("10001")])]);
      var patch := Obj(map["tags" := Arr([Str("x"), Str("y"), Str("z")]),
                           "address" := Obj(map["city" := Str("LA")]),
                           "email" := Str("john@example.com")]);
      Merge(base, patch) ==
        Obj(map["name" := Str("John"),
                "tags" := Arr([Str("x"), Str("y"), Str("z")]),
                "address" := Obj(map["city" := Str("LA"), "zip" := Str("10001")]),
                "email" := Str("john@example.com")])
  {
    var address := Obj(map["city" := Str("NYC"), "zip" := Str("10001")]);
    var addressPatch := Obj(map["city" := Str("LA")]);
    var address' := Obj(map["city" := Str("LA"), "zip" := Str("10001")]);
    ExampleAddress();
    var base := Obj(map["name" := Str("John"),
                        "tags" := Arr([Str("a"), Str("b")]),
                        "address" := address]);
    var patch := Obj(map["tags" := Arr([Str("x"), Str("y"), Str("z")]),
                         "address" := addressPatch,
                         "email" := Str("john@example.com")]);
    var expected := Obj(map["name" := Str("John"),
                            "tags" := Arr([Str("x"), Str("y"), Str("z")]),
                            "address" := address',
                            "email" := Str("john@example.com")]);
    var r := Merge(base, patch);
    ObjectMergeAt(base, patch, "name");
    ObjectMergeAt(base, patch, "tags");
    ObjectMergeAt(base, patch, "address");
    ObjectMergeAt(base, patch, "email");
    assert r.props.Keys == expected.props.Keys;
    assert r == expected;
  }

  /** The nested step of the documented example: `city` is overwritten and `zip` kept. */
  lemma ExampleAddress()
    ensures Merge(Obj(map["city" := Str("NYC"), "zip" := Str("10001")]), Obj(map["city" := Str("LA")])) ==
            Obj(map["city" := Str("LA"), "zip" := Str("10001")])
  {
    var address := Obj(map["city" := Str("NYC"), "zip" := Str("10001")]);
    var addressPatch := Obj(map["city" := Str("LA")]);
    ObjectMergeAt(address, addressPatch, "city");
    ObjectMergeAt(address, addressPatch, "zip");
    assert Merge(address, addressPatch).props.Keys == {"city", "zip"};
  }

  /** Merging a value into itself gives it back. */
  lemma {:induction false} SelfMerge(x: Value)
    ensures Merge(x, x) == x
    decreases x
  {
    if x.Obj? {
      var r := Merge(x, x);
      forall k | k in x.props
        ensures r.props[k] == x.props[k]
      {
        var v := x.props[k];
        ObjectMergeAt(x, x, k);
        if IsObj(v) {
          SelfMerge(v);
        }
      }
    }
  }

  /** Applying the same patch a second time changes nothing. */
  lemma {:induction false} MergeIdempotent(target: Value, patch: Value)
    ensures Merge(Merge(target, patch), patch) == Merge(target, patch)
    decreases patch
  {
    var r := Merge(target, patch);
    if IsNullish(patch) {
    } else if !IsObj(target) || !IsObj(patch) {
      SelfMerge(patch);
    } else {
      var rr := Merge(r, patch);
      forall k | k in r.props
        ensures rr.props[k] == r.props[k]
      {
        ObjectMergeAt(target, patch, k);
        ObjectMergeAt(r, patch, k);
        if k in patch.props {
          var v := patch.props[k];
          var tk := Prop(target.props, k);
          if IsObj(v) && IsObj(tk) {
            MergeIdempotent(tk, v);
            ObjectMergeAt(tk, v, k);
          } else if IsObj(v) && !v.Arr? {
            SelfMerge(v);
          }
        }
      }
    }
  }
}
