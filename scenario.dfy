/**
 * A client of the store: one handler subscribed to `"a.b"` on the state
 * `{ a: { b: 1 }, c: 0 }`, followed by three dispatches.
 */
module Scenario {
  import opened Values
  import opened Paths
  import opened Diffing
  import opened CreateStore

  /** `{ a: { b: ab }, c: c }`, with `root` and `inner` the identities of the two objects. */
  function Tree(root: ObjectId, inner: ObjectId, ab: int, c: int): Value {
    Obj(root, map["a" := Obj(inner, map["b" := Int(ab)]), "c" := Int(c)])
  }

  lemma ResolveAB(root: ObjectId, inner: ObjectId, ab: int, c: int)
    requires ab != 0
    ensures DepValues(Tree(root, inner, ab, c), ["a.b"]) == [Int(ab)]
  {
    var t := Tree(root, inner, ab, c);
    SplitJoin(["a", "b"]);
    assert JoinPath(["a", "b"]) == "a.b";
    var keys := SplitPath("a.b");
    assert keys == ["a", "b"];
    assert keys[..1] == ["a"] && keys[..2] == keys;
    assert Chain(t, ["a"]) == Obj(inner, map["b" := Int(ab)]);
    assert Chain(t, ["a", "b"]) == Int(ab);
    assert PathTruthy(t, keys);
  }

  /** The one subscription of the scenario. */
  function Sub(): Subscription {
    Subscription(7, Some(["a.b"]))
  }

  /** One round for `Sub()` on a tree whose `a.b` is `ab`, from the snapshot `base`. */
  lemma RoundOnTree(base: seq<Value>, root: ObjectId, inner: ObjectId, ab: int, c: int)
    requires ab != 0
    ensures Notify([Sub()], Tree(root, inner, ab, c), map[7 := base]) ==
            Notified(if Differs(base, [Int(ab)]) then [Call(7, Tree(root, inner, ab, c))] else [],
                     map[7 := [Int(ab)]], false)
  {
    ResolveAB(root, inner, ab, c);
    assert [Sub()][1..] == [];
    assert map[7 := base][7 := [Int(ab)]] == map[7 := [Int(ab)]];
  }

  /**
   * One dispatch that replaces the state by a tree with `a.b == ab`, on a store whose only
   * subscription is `Sub()` and whose snapshot for its handler is `base`.
   */
  method DispatchTree(store: Store, base: seq<Value>, root: ObjectId, inner: ObjectId, ab: int, c: int)
    returns (calls: seq<Call>)
    requires store.Valid() && store.subs == [Sub()] && store.wm == map[7 := base]
    requires ab != 0
    modifies store
    ensures store.Valid() && store.subs == [Sub()] && store.wm == map[7 := [Int(ab)]]
    ensures store.state == Tree(root, inner, ab, c)
    ensures calls == if Differs(base, [Int(ab)]) then [Call(7, Tree(root, inner, ab, c))] else []
  {
    var threw;
    calls, threw := store.Dispatch(Some(_ => Tree(root, inner, ab, c)), Undefined);
    RoundOnTree(base, root, inner, ab, c);
  }

  method Client() {
    var store := new Store(Tree(0, 1, 1, 0));
    store.Subscribe(7, Some(["a.b"]));
    assert store.subs == [Sub()] && store.wm == map[7 := []];

    // c := 1: the snapshot starts as [], so this first dispatch does invoke the handler
    var calls := DispatchTree(store, [], 2, 1, 1, 1);
    assert Differs([], [Int(1)]) by {
      assert !StrictEq([Int(1)][0], BaseAt([], 0));
    }
    assert calls == [Call(7, Tree(2, 1, 1, 1))];

    // c := 2: `a` keeps its identity and `a.b` its value, so the handler is not invoked
    calls := DispatchTree(store, [Int(1)], 3, 1, 1, 2);
    NoChangeAgainstItself([Int(1)]);
    assert calls == [];

    // a.b := 2: invoked once, with the new state
    calls := DispatchTree(store, [Int(1)], 4, 5, 2, 2);
    assert Differs([Int(1)], [Int(2)]) by {
      assert !StrictEq([Int(2)][0], BaseAt([Int(1)], 0));
    }
    assert calls == [Call(7, Tree(4, 5, 2, 2))];
    var s := store.GetState();
    assert s == Tree(4, 5, 2, 2);
  }
}
