/** The positional change detection of `diff` (createStore.js:33-48). */
module Diffing {
  import opened Values
  import opened Paths

  /** `baseDeps[index]`: out-of-range entries read as `undefined`. */
  function BaseAt(base: seq<Value>, i: nat): (v: Value)
    ensures i >= |base| ==> v == Undefined
    ensures i < |base| ==> v == base[i]
  {
    if i < |base| then base[i] else Undefined
  }

  /** The resolved values of `deps`, one per dep and in dep order. */
  function DepValues(state: Value, deps: seq<string>): (vals: seq<Value>)
    ensures |vals| == |deps|
    ensures forall i :: 0 <= i < |deps| ==> vals[i] == DepValue(state, deps[i])
    decreases |deps|
  {
    if deps == [] then []
    else DepValues(state, deps[..|deps| - 1]) + [DepValue(state, deps[|deps| - 1])]
  }

  /** Some position of `vals` is `!==` to the baseline entry at the same position. */
  predicate Differs(base: seq<Value>, vals: seq<Value>) {
    exists i :: 0 <= i < |vals| && !StrictEq(vals[i], BaseAt(base, i))
  }

  /** Appending one value adds one position to compare. */
  lemma DiffersSnoc(base: seq<Value>, vals: seq<Value>, v: Value)
    ensures Differs(base, vals + [v]) <==> Differs(base, vals) || !StrictEq(v, BaseAt(base, |vals|))
  {
    var vs := vals + [v];
    assert vs[|vals|] == v;
    assert forall i :: 0 <= i < |vals| ==> vs[i] == vals[i];
  }

  /**
   * `diff(baseDeps, deps)` against the store's current state: resolves every dep without
   * stopping at the first difference, and reports whether any position differs.
   */
  method Diff(baseDeps: seq<Value>, deps: seq<string>, storeState: Value) returns (diffed: bool, depValues: seq<Value>)
    requires deps == [] || !Nullish(storeState)
    ensures |depValues| == |deps|
    ensures forall i :: 0 <= i < |deps| ==> depValues[i] == DepValue(storeState, deps[i])
    ensures diffed <==> exists i :: 0 <= i < |deps| && !StrictEq(depValues[i], BaseAt(baseDeps, i))
  {
    diffed := false;
    depValues := [];
    var index := 0;
    while index < |deps|
      invariant 0 <= index <= |deps|
      invariant |depValues| == index
      invariant forall i :: 0 <= i < index ==> depValues[i] == DepValue(storeState, deps[i])
      invariant diffed == Differs(baseDeps, depValues)
    {
      var depValue := GetDepValue(storeState, deps[index]);
      DiffersSnoc(baseDeps, depValues, depValue);
      depValues := depValues + [depValue];
      if !StrictEq(depValue, BaseAt(baseDeps, index)) {
        diffed := true;
      }
      index := index + 1;
    }
  }

  /** What `Diff` returns, stated with the specification functions. */
  lemma DiffIsSpecified(baseDeps: seq<Value>, deps: seq<string>, storeState: Value, diffed: bool, depValues: seq<Value>)
    requires |depValues| == |deps|
    requires forall i :: 0 <= i < |deps| ==> depValues[i] == DepValue(storeState, deps[i])
    requires diffed <==> exists i :: 0 <= i < |deps| && !StrictEq(depValues[i], BaseAt(baseDeps, i))
    ensures depValues == DepValues(storeState, deps)
    ensures diffed == Differs(baseDeps, depValues)
  {
  }

  /**
   * Against the empty baseline a subscription starts with, a change is reported exactly when
   * some dep resolves to a value other than `undefined`.
   */
  lemma FirstNotification(state: Value, deps: seq<string>)
    ensures Differs([], DepValues(state, deps)) <==> exists i :: 0 <= i < |deps| && DepValue(state, deps[i]) != Undefined
  {
    var vals := DepValues(state, deps);
    if exists i :: 0 <= i < |deps| && DepValue(state, deps[i]) != Undefined {
      var i :| 0 <= i < |deps| && DepValue(state, deps[i]) != Undefined;
      assert !StrictEq(vals[i], BaseAt([], i));
    }
  }

  /** A baseline that is pointwise `===` to the new values, and as long, reports no change. */
  lemma SameValuesNoChange(base: seq<Value>, vals: seq<Value>)
    requires |base| == |vals|
    requires forall i :: 0 <= i < |vals| ==> StrictEq(vals[i], base[i])
    ensures !Differs(base, vals)
  {
  }

  /** Comparing values with themselves never reports a change. */
  lemma NoChangeAgainstItself(vals: seq<Value>)
    ensures !Differs(vals, vals)
  {
  }
}
