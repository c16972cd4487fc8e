/** Dependency paths: `"a.b.c"` resolved against a state tree, as `getDepValue` does. */
module Paths {
  import opened Values

  /** Index of the first `'.'` in `s`. */
  function FirstDot(s: string): (i: nat)
    requires '.' in s
    ensures i < |s| && s[i] == '.' && '.' !in s[..i]
  {
    if s[0] == '.' then 0
    else
      assert '.' in s[1..] by {
        var k :| 0 <= k < |s| && s[k] == '.';
        assert s[1..][k - 1] == '.';
      }
      var j := FirstDot(s[1..]);
      assert s[..j + 1] == [s[0]] + s[1..][..j];
      j + 1
  }

  /** `keys.join('.')`. */
  function JoinPath(keys: seq<string>): string
  {
    if |keys| == 0 then ""
    else if |keys| == 1 then keys[0]
    else keys[0] + "." + JoinPath(keys[1..])
  }

  /** `s.split('.')`: never empty, no key holds a dot, and joining the keys gives `s` back. */
  function SplitPath(s: string): (keys: seq<string>)
    ensures |keys| >= 1
    ensures forall i :: 0 <= i < |keys| ==> '.' !in keys[i]
    ensures JoinPath(keys) == s
    decreases |s|
  {
    if '.' !in s then [s]
    else
      var i := FirstDot(s);
      var rest := SplitPath(s[i + 1..]);
      assert s == s[..i] + "." + s[i + 1..];
      assert ([s[..i]] + rest)[1..] == rest;
      [s[..i]] + rest
  }

  /** Splitting is the inverse of joining dot-free keys. */
  lemma {:induction false} SplitJoin(keys: seq<string>)
    requires |keys| >= 1
    requires forall i :: 0 <= i < |keys| ==> '.' !in keys[i]
    ensures SplitPath(JoinPath(keys)) == keys
  {
    if |keys| > 1 {
      var s := JoinPath(keys);
      var k := keys[0];
      assert s == k + "." + JoinPath(keys[1..]);
      assert s[|k|] == '.';
      assert s[..|k|] == k;
      assert '.' in s;
      var i := FirstDot(s);
      assert i == |k|;
      assert s[i + 1..] == JoinPath(keys[1..]);
      SplitJoin(keys[1..]);
    }
  }

  /** Optional chaining `v?.[k0]?.[k1]...`: stops with `undefined` only at `undefined` or `null`. */
  function Chain(v: Value, keys: seq<string>): Value
    decreases |keys|
  {
    if keys == [] then v
    else if Nullish(v) then Undefined
    else Chain(Member(v, keys[0]), keys[1..])
  }

  /** Every proper and full prefix of `keys` (one key or more) reaches a truthy value from `root`. */
  predicate PathTruthy(root: Value, keys: seq<string>) {
    forall i :: 1 <= i <= |keys| ==> Truthy(Chain(root, keys[..i]))
  }

  /**
   * The value `getDepValue(root, dep)` returns: the value at the end of the path when every
   * key on the way, the last one included, reaches a truthy value, and `undefined` otherwise.
   */
  function DepValue(root: Value, dep: string): (r: Value)
    ensures r == Undefined || Truthy(r)
  {
    var keys := SplitPath(dep);
    assert keys[..|keys|] == keys;
    if PathTruthy(root, keys) then Chain(root, keys) else Undefined
  }

  lemma {:induction false} ChainSnoc(v: Value, keys: seq<string>, k: string)
    ensures Chain(v, keys + [k]) == if Nullish(Chain(v, keys)) then Undefined else Member(Chain(v, keys), k)
    decreases |keys|
  {
    if keys == [] {
      assert keys + [k] == [k];
    } else if !Nullish(v) {
      assert (keys + [k])[1..] == keys[1..] + [k];
      ChainSnoc(Member(v, keys[0]), keys[1..], k);
    }
  }

  /** Following keys from a falsy value ends in `undefined`, since a falsy value has no members. */
  lemma {:induction false} ChainFromFalsy(v: Value, keys: seq<string>)
    requires !Truthy(v) && keys != []
    ensures Chain(v, keys) == Undefined
    decreases |keys|
  {
    if !Nullish(v) {
      assert Member(v, keys[0]) == Undefined;
      if keys[1..] != [] {
        ChainFromFalsy(Undefined, keys[1..]);
      }
    }
  }

  /** A truthy optional-chain result means every prefix was truthy too. */
  lemma {:induction false} TruthyChainPathTruthy(v: Value, keys: seq<string>)
    requires Truthy(Chain(v, keys))
    ensures PathTruthy(v, keys)
    decreases |keys|
  {
    if keys != [] {
      assert !Nullish(v);
      var next := Member(v, keys[0]);
      if keys[1..] != [] && !Truthy(next) {
        ChainFromFalsy(next, keys[1..]);
      }
      TruthyChainPathTruthy(next, keys[1..]);
      forall i | 1 <= i <= |keys|
        ensures Truthy(Chain(v, keys[..i]))
      {
        assert keys[..i][0] == keys[0];
        assert keys[..i][1..] == keys[1..][..i - 1];
        assert Chain(v, keys[..i]) == Chain(next, keys[1..][..i - 1]);
      }
    }
  }

  /**
   * `getDepValue` is optional chaining whose falsy results are collapsed to `undefined`:
   * it differs from `root?.k0?.k1...` exactly when that ends in `0`, `""`, `false` or `null`.
   */
  lemma DepValueIsCollapsedChain(root: Value, dep: string)
    ensures DepValue(root, dep) == if Truthy(Chain(root, SplitPath(dep))) then Chain(root, SplitPath(dep)) else Undefined
  {
    var keys := SplitPath(dep);
    if Truthy(Chain(root, keys)) {
      TruthyChainPathTruthy(root, keys);
    } else {
      assert keys[..|keys|] == keys;
    }
  }

  /**
   * A leaf that changes from `0` to `false` resolves to `undefined` both times, although the
   * optional chain the resolver imitates tells the two apart.
   */
  lemma FalsyLeafChangeUnseen()
    ensures var before := Obj(0, map["x" := Int(0)]);
            var after := Obj(1, map["x" := Bool(false)]);
            DepValue(before, "x") == Undefined && DepValue(after, "x") == Undefined &&
            !StrictEq(Chain(before, ["x"]), Chain(after, ["x"]))
  {
    var before := Obj(0, map["x" := Int(0)]);
    var after := Obj(1, map["x" := Bool(false)]);
    SplitJoin(["x"]);
    assert SplitPath("x") == ["x"];
    assert ["x"][..1] == ["x"];
    assert Chain(before, ["x"]) == Int(0);
    assert Chain(after, ["x"]) == Bool(false);
  }

  /**
   * `getDepValue(obj, dep)` (createStore.js:13-19): walks the keys of `dep.split('.')`,
   * returning `undefined` at the first falsy member and the last member otherwise.
   */
  method GetDepValue(obj: Value, dep: string) returns (r: Value)
    requires !Nullish(obj)
    ensures r == DepValue(obj, dep)
    ensures r == Undefined || Truthy(r)
  {
    var keys := SplitPath(dep);
    var cur := obj;
    var i := 0;
    while i < |keys|
      invariant 0 <= i <= |keys|
      invariant cur == Chain(obj, keys[..i])
      invariant !Nullish(cur)
      invariant forall j :: 1 <= j <= i ==> Truthy(Chain(obj, keys[..j]))
    {
      var next := Member(cur, keys[i]);
      ChainSnoc(obj, keys[..i], keys[i]);
      assert keys[..i + 1] == keys[..i] + [keys[i]];
      if !Truthy(next) {
        assert !Truthy(Chain(obj, keys[..i + 1]));
        return Undefined;
      }
      cur := next;
      i := i + 1;
    }
    assert keys[..i] == keys;
    r := cur;
  }
}
