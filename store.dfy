/**
 * The store made by `createStore` (createStore.js:21-73, 115-124): a reducer that applies the
 * action's updater, a redux-style store that notifies its listeners in registration order
 * after every dispatch, and the subscription layer that keeps one dependency snapshot per
 * handler in the table `wm`.
 */
module CreateStore {
  import opened Values
  import opened Paths
  import opened Diffing

  /** A handler is a callback compared by identity: the key of the snapshot table. */
  type HandlerId = nat

  /** An updater turns the (draft of the) current state into the next state. */
  type Updater = Value -> Value

  /** `{ type, updater }`; `updater` is `None` when it is not a function. */
  datatype Action = Action(actionType: Value, updater: Option<Updater>)

  /** The action redux dispatches when it creates a store: it carries no updater. */
  function InitAction(): (a: Action)
    ensures a.updater.None?
  {
    Action(Str("@@redux/INIT"), None)
  }

  /** The action `dispatch(updater, type)` sends: `type ?? '@@Update'`. */
  function UpdateAction(updater: Option<Updater>, actionType: Value): (a: Action)
    ensures !Nullish(a.actionType)
    ensures Nullish(actionType) ==> a.actionType == Str("@@Update")
    ensures !Nullish(actionType) ==> a.actionType == actionType
    ensures a.updater == updater
  {
    Action(if Nullish(actionType) then Str("@@Update") else actionType, updater)
  }

  /** The reducer given to redux: applies the updater when there is one. */
  function Reduce(state: Value, action: Action): (next: Value)
    ensures action.updater.None? ==> next == state
    ensures action.updater.Some? ==> next == action.updater.value(state)
  {
    match action.updater
    case Some(f) => f(state)
    case None => state
  }

  /** `subscribe(handler, deps)`: `deps` is `None` when absent. */
  datatype Subscription = Subscription(handler: HandlerId, deps: Option<seq<string>>)

  /** `deps && deps.length`: the subscription is diffed rather than always notified. */
  predicate HasDeps(s: Subscription) {
    s.deps.Some? && |s.deps.value| > 0
  }

  /** One invocation `handler(store.getState())`. */
  datatype Call = Call(handler: HandlerId, arg: Value)

  /** Every diffed subscription has a snapshot to compare against. */
  predicate SnapshotsReady(subs: seq<Subscription>, wm: map<HandlerId, seq<Value>>) {
    forall i :: 0 <= i < |subs| && HasDeps(subs[i]) ==> subs[i].handler in wm
  }

  /** The outcome of one round of notifications. */
  datatype Notified = Notified(calls: seq<Call>, wm: map<HandlerId, seq<Value>>, threw: bool)

  /**
   * One run of the listener that `subscribe` registers (createStore.js:59-72). A diffed
   * listener resolves its deps, is invoked when they differ from the handler's snapshot, and
   * stores the new values either way; on an `undefined` or `null` state its first
   * `getDepValue` throws a TypeError. Any other listener is invoked unconditionally.
   */
  function Step(s: Subscription, state: Value, wm: map<HandlerId, seq<Value>>): (r: Notified)
    requires HasDeps(s) ==> s.handler in wm
    ensures wm.Keys <= r.wm.Keys
  {
    if !HasDeps(s) then Notified([Call(s.handler, state)], wm, false)
    else if Nullish(state) then Notified([], wm, true)
    else
      var vals := DepValues(state, s.deps.value);
      Notified(if Differs(wm[s.handler], vals) then [Call(s.handler, state)] else [], wm[s.handler := vals], false)
  }

  /** The listeners of `subs` run in order, as redux's dispatch does; a throw ends the round. */
  function Notify(subs: seq<Subscription>, state: Value, wm: map<HandlerId, seq<Value>>): (r: Notified)
    requires SnapshotsReady(subs, wm)
    ensures wm.Keys <= r.wm.Keys
    decreases |subs|
  {
    if subs == [] then Notified([], wm, false)
    else
      var first := Step(subs[0], state, wm);
      if first.threw then first
      else
        var rest := Notify(subs[1..], state, first.wm);
        rest.(calls := first.calls + rest.calls)
  }

  /**
   * One round makes at most as many calls as there are subscriptions, only to handlers that
   * are subscribed, and always with the state the round runs on; it throws exactly when the state
   * is `undefined` or `null` and some subscription declares deps, and then stores nothing.
   */
  lemma {:induction false} NotifyFacts(subs: seq<Subscription>, state: Value, wm: map<HandlerId, seq<Value>>)
    requires SnapshotsReady(subs, wm)
    ensures var r := Notify(subs, state, wm);
            && |r.calls| <= |subs|
            && (forall c :: c in r.calls ==> c.arg == state)
            && (forall c :: c in r.calls ==> exists s :: s in subs && s.handler == c.handler)
            && (r.threw <==> Nullish(state) && exists i :: 0 <= i < |subs| && HasDeps(subs[i]))
            && (r.threw ==> r.wm == wm)
    decreases |subs|
  {
    if subs != [] {
      var s := subs[0];
      assert forall t :: t in subs[1..] ==> t in subs;
      if !(HasDeps(s) && Nullish(state)) {
        var wm' := if HasDeps(s) then wm[s.handler := DepValues(state, s.deps.value)] else wm;
        NotifyFacts(subs[1..], state, wm');
        if Nullish(state) && exists i :: 0 <= i < |subs| && HasDeps(subs[i]) {
          var i :| 0 <= i < |subs| && HasDeps(subs[i]);
          assert subs[1..][i - 1] == subs[i];
        }
      }
    }
  }

  /** The snapshot a round leaves for `h`: decided by the last diffed subscription of `h`. */
  function LastDeps(subs: seq<Subscription>, h: HandlerId): Option<seq<string>>
    decreases |subs|
  {
    if subs == [] then None
    else
      var later := LastDeps(subs[1..], h);
      if later.Some? then later
      else if HasDeps(subs[0]) && subs[0].handler == h then subs[0].deps
      else None
  }

  /** How often `h` occurs in `calls`. */
  function CallsTo(calls: seq<Call>, h: HandlerId): nat
    decreases |calls|
  {
    if calls == [] then 0
    else (if calls[0].handler == h then 1 else 0) + CallsTo(calls[1..], h)
  }

  lemma {:induction false} CallsToAbsent(calls: seq<Call>, h: HandlerId)
    requires forall c :: c in calls ==> c.handler != h
    ensures CallsTo(calls, h) == 0
    decreases |calls|
  {
    if calls != [] {
      assert calls[0] in calls;
      assert forall c :: c in calls[1..] ==> c in calls;
      CallsToAbsent(calls[1..], h);
    }
  }

  lemma {:induction false} CallsToAppend(a: seq<Call>, b: seq<Call>, h: HandlerId)
    ensures CallsTo(a + b, h) == CallsTo(a, h) + CallsTo(b, h)
    decreases |a|
  {
    if a == [] {
      assert a + b == b;
    } else {
      assert (a + b)[0] == a[0] && (a + b)[1..] == a[1..] + b;
      CallsToAppend(a[1..], b, h);
    }
  }

  /** No two subscriptions share a handler. */
  predicate DistinctHandlers(subs: seq<Subscription>) {
    forall i, j :: 0 <= i < j < |subs| ==> subs[i].handler != subs[j].handler
  }

  /**
   * After a round that did not throw, the snapshot of a handler with a diffed subscription is
   * the freshly resolved values of its (last) deps, whether or not it was invoked; the
   * snapshots of other handlers are untouched.
   */
  lemma {:induction false} SnapshotsAfterNotify(subs: seq<Subscription>, state: Value, wm: map<HandlerId, seq<Value>>, h: HandlerId)
    requires SnapshotsReady(subs, wm)
    requires !Notify(subs, state, wm).threw
    ensures var r := Notify(subs, state, wm);
            match LastDeps(subs, h)
            case Some(deps) => h in r.wm && r.wm[h] == DepValues(state, deps)
            case None => (h in r.wm <==> h in wm) && (h in wm ==> r.wm[h] == wm[h])
    decreases |subs|
  {
    if subs != [] {
      var s := subs[0];
      if HasDeps(s) {
        var vals := DepValues(state, s.deps.value);
        SnapshotsAfterNotify(subs[1..], state, wm[s.handler := vals], h);
      } else {
        SnapshotsAfterNotify(subs[1..], state, wm, h);
      }
    }
  }

  /**
   * When no subscription declares deps, every subscription is invoked exactly once, in
   * registration order, with the current state, and no snapshot changes.
   */
  lemma {:induction false} NotifyWithoutDeps(subs: seq<Subscription>, state: Value, wm: map<HandlerId, seq<Value>>)
    requires forall i :: 0 <= i < |subs| ==> !HasDeps(subs[i])
    ensures SnapshotsReady(subs, wm)
    ensures var r := Notify(subs, state, wm);
            && |r.calls| == |subs|
            && (forall i :: 0 <= i < |subs| ==> r.calls[i] == Call(subs[i].handler, state))
            && r.wm == wm && !r.threw
    decreases |subs|
  {
    if subs != [] {
      NotifyWithoutDeps(subs[1..], state, wm);
      var rest := Notify(subs[1..], state, wm);
      var r := Notify(subs, state, wm);
      assert r.calls == [Call(subs[0].handler, state)] + rest.calls;
      forall i | 0 <= i < |subs|
        ensures r.calls[i] == Call(subs[i].handler, state)
      {
        if i > 0 {
          assert r.calls[i] == rest.calls[i - 1];
        }
      }
    }
  }

  /**
   * With distinct handlers and a state that resolves, the handler of subscription `j` is
   * invoked exactly once when it has no deps, and otherwise once if its deps changed
   * against its snapshot and never if they did not.
   */
  lemma {:induction false} InvocationCount(subs: seq<Subscription>, state: Value, wm: map<HandlerId, seq<Value>>, j: nat)
    requires SnapshotsReady(subs, wm)
    requires !Nullish(state)
    requires DistinctHandlers(subs)
    requires j < |subs|
    ensures var s := subs[j];
            var n := CallsTo(Notify(subs, state, wm).calls, s.handler);
            if !HasDeps(s) then n == 1
            else n == if Differs(wm[s.handler], DepValues(state, s.deps.value)) then 1 else 0
    decreases |subs|
  {
    var s := subs[0];
    var first := Step(s, state, wm);
    var rest := Notify(subs[1..], state, first.wm);
    var h := subs[j].handler;
    CallsToAppend(first.calls, rest.calls, h);
    if j == 0 {
      NotifyFacts(subs[1..], state, first.wm);
      forall c | c in rest.calls
        ensures c.handler != h
      {
        var t :| t in subs[1..] && t.handler == c.handler;
        var k :| 0 <= k < |subs[1..]| && subs[1..][k] == t;
        assert subs[k + 1] == t;
      }
      CallsToAbsent(rest.calls, h);
    } else {
      assert subs[1..][j - 1] == subs[j];
      assert h != s.handler;
      InvocationCount(subs[1..], state, first.wm, j - 1);
    }
  }

  /**
   * Two subscriptions of one handler with the same deps share one snapshot: the second is
   * compared against the values the first has just stored, so the handler is invoked at most
   * once per dispatch.
   */
  lemma SharedSnapshot(s: Subscription, state: Value, wm: map<HandlerId, seq<Value>>)
    requires HasDeps(s) && s.handler in wm
    requires !Nullish(state)
    ensures var r := Notify([s, s], state, wm);
            && r.calls == (if Differs(wm[s.handler], DepValues(state, s.deps.value)) then [Call(s.handler, state)] else [])
            && r.wm == wm[s.handler := DepValues(state, s.deps.value)]
  {
    var vals := DepValues(state, s.deps.value);
    var wm' := wm[s.handler := vals];
    assert [s, s][1..] == [s];
    assert [s][1..] == [];
    NoChangeAgainstItself(vals);
    assert Notify([s], state, wm') == Notified([], wm'[s.handler := vals], false);
    assert wm'[s.handler := vals] == wm';
  }

  /** A round over two subscriptions whose listeners do not throw. */
  lemma NotifyPair(s1: Subscription, s2: Subscription, state: Value, wm: map<HandlerId, seq<Value>>)
    requires HasDeps(s1) ==> s1.handler in wm
    requires HasDeps(s2) ==> s2.handler in wm
    requires !Step(s1, state, wm).threw
    requires !Step(s2, state, Step(s1, state, wm).wm).threw
    ensures var first := Step(s1, state, wm);
            var second := Step(s2, state, first.wm);
            Notify([s1, s2], state, wm) == Notified(first.calls + second.calls, second.wm, false)
  {
    var first := Step(s1, state, wm);
    var second := Step(s2, state, first.wm);
    assert SnapshotsReady([s1, s2], wm);
    assert [s1, s2][1..] == [s2] && [s2][1..] == [];
    assert second.calls + [] == second.calls;
    assert Notify([s2], state, first.wm) == second;
  }

  /**
   * Two subscriptions of one handler with deps `d1` and `d2`: the second listener compares
   * against the values the first has just stored, and the table ends with the values of `d2`.
   */
  lemma SharedHandler(h: HandlerId, d1: seq<string>, d2: seq<string>, state: Value, wm: map<HandlerId, seq<Value>>)
    requires |d1| > 0 && |d2| > 0 && h in wm
    requires !Nullish(state)
    ensures var v1 := DepValues(state, d1);
            var v2 := DepValues(state, d2);
            Notify([Subscription(h, Some(d1)), Subscription(h, Some(d2))], state, wm) ==
              Notified((if Differs(wm[h], v1) then [Call(h, state)] else []) +
                       (if Differs(v1, v2) then [Call(h, state)] else []),
                       wm[h := v2], false)
  {
    var s1 := Subscription(h, Some(d1));
    var s2 := Subscription(h, Some(d2));
    var v1 := DepValues(state, d1);
    var v2 := DepValues(state, d2);
    var wm1 := wm[h := v1];
    var first := Step(s1, state, wm);
    var second := Step(s2, state, wm1);
    assert first == Notified(if Differs(wm[h], v1) then [Call(h, state)] else [], wm1, false);
    assert second == Notified(if Differs(v1, v2) then [Call(h, state)] else [], wm1[h := v2], false);
    assert wm1[h := v2] == wm[h := v2];
    NotifyPair(s1, s2, state, wm);
  }

  /**
   * Two subscriptions of one handler whose deps resolve to values that differ both ways
   * overwrite each other's snapshot: starting from the second one's values, the handler is
   * invoked twice and the round leaves the table it started from, so every later dispatch of
   * the same state invokes it twice again.
   */
  lemma AlternatingSnapshots(h: HandlerId, d1: seq<string>, d2: seq<string>, state: Value)
    requires |d1| > 0 && |d2| > 0 && !Nullish(state)
    requires Differs(DepValues(state, d2), DepValues(state, d1))
    requires Differs(DepValues(state, d1), DepValues(state, d2))
    ensures var wm := map[h := DepValues(state, d2)];
            Notify([Subscription(h, Some(d1)), Subscription(h, Some(d2))], state, wm) ==
              Notified([Call(h, state), Call(h, state)], wm, false)
  {
    var wm := map[h := DepValues(state, d2)];
    SharedHandler(h, d1, d2, state, wm);
    assert wm[h := DepValues(state, d2)] == wm;
    assert [Call(h, state)] + [Call(h, state)] == [Call(h, state), Call(h, state)];
  }

  /** A concrete instance: deps `["a"]` and `["b"]` of one handler on `{ a: 1, b: 2 }`. */
  lemma SharedHandlerDifferentDeps()
    ensures var state := Obj(0, map["a" := Int(1), "b" := Int(2)]);
            var subs := [Subscription(9, Some(["a"])), Subscription(9, Some(["b"]))];
            Notify(subs, state, map[9 := [Int(2)]]) ==
              Notified([Call(9, state), Call(9, state)], map[9 := [Int(2)]], false)
  {
    var state := Obj(0, map["a" := Int(1), "b" := Int(2)]);
    OwnKeyResolves(state, "a");
    OwnKeyResolves(state, "b");
    assert !StrictEq([Int(1)][0], BaseAt([Int(2)], 0));
    assert !StrictEq([Int(2)][0], BaseAt([Int(1)], 0));
    AlternatingSnapshots(9, ["a"], ["b"], state);
  }

  /** A dot-free dep naming a truthy own field of the state resolves to that field. */
  lemma OwnKeyResolves(state: Value, k: string)
    requires '.' !in k && state.Obj? && k in state.fields && Truthy(state.fields[k])
    ensures DepValues(state, [k]) == [state.fields[k]]
  {
    SplitJoin([k]);
    assert [k][..1] == [k];
    assert Chain(state, [k]) == Chain(Member(state, k), []);
  }

  /** How many of `subs` register `h`. */
  function SubscriptionsOf(subs: seq<Subscription>, h: HandlerId): nat
    decreases |subs|
  {
    if subs == [] then 0
    else (if subs[0].handler == h then 1 else 0) + SubscriptionsOf(subs[1..], h)
  }

  /** A round invokes each handler at most once per subscription that registers it. */
  lemma {:induction false} CallsPerSubscription(subs: seq<Subscription>, state: Value, wm: map<HandlerId, seq<Value>>, h: HandlerId)
    requires SnapshotsReady(subs, wm)
    ensures CallsTo(Notify(subs, state, wm).calls, h) <= SubscriptionsOf(subs, h)
    decreases |subs|
  {
    if subs != [] {
      NotifyUnfold(subs, state, wm);
      var s := subs[0];
      var first := Step(s, state, wm);
      assert first.calls == [] || first.calls == [Call(s.handler, state)];
      assert [Call(s.handler, state)][1..] == [];
      assert CallsTo(first.calls, h) <= (if s.handler == h then 1 else 0);
      if !first.threw {
        var rest := Notify(subs[1..], state, first.wm);
        CallsPerSubscription(subs[1..], state, first.wm, h);
        CallsToAppend(first.calls, rest.calls, h);
      }
    }
  }

  /** A round is its first listener run followed by the round of the remaining listeners. */
  lemma NotifyUnfold(subs: seq<Subscription>, state: Value, wm: map<HandlerId, seq<Value>>)
    requires subs != [] && SnapshotsReady(subs, wm)
    ensures var first := Step(subs[0], state, wm);
            && (first.threw ==> Notify(subs, state, wm) == first)
            && (!first.threw ==>
                  && SnapshotsReady(subs[1..], first.wm)
                  && Notify(subs, state, wm).calls == first.calls + Notify(subs[1..], state, first.wm).calls
                  && Notify(subs, state, wm).wm == Notify(subs[1..], state, first.wm).wm
                  && Notify(subs, state, wm).threw == Notify(subs[1..], state, first.wm).threw)
  {
  }

  /** The listener of createStore.js:59-72 for one subscription. */
  method Listener(s: Subscription, state: Value, wm: map<HandlerId, seq<Value>>)
    returns (calls: seq<Call>, table: map<HandlerId, seq<Value>>, threw: bool)
    requires HasDeps(s) ==> s.handler in wm
    ensures calls == Step(s, state, wm).calls
    ensures table == Step(s, state, wm).wm
    ensures threw == Step(s, state, wm).threw
  {
    calls, table, threw := [], wm, false;
    if HasDeps(s) {
      if Nullish(state) {
        // the first getDepValue of this listener throws a TypeError
        threw := true;
        return;
      }
      var diffed, depValues := Diff(wm[s.handler], s.deps.value, state);
      DiffIsSpecified(wm[s.handler], s.deps.value, state, diffed, depValues);
      if diffed {
        calls := [Call(s.handler, state)];
      }
      table := wm[s.handler := depValues];
    } else {
      calls := [Call(s.handler, state)];
    }
  }

  /**
   * redux's notification loop: every listener in registration order, each on the snapshot
   * table the previous ones left; an exception propagates and skips the remaining listeners.
   */
  method RunListeners(subs: seq<Subscription>, state: Value, wm: map<HandlerId, seq<Value>>)
    returns (calls: seq<Call>, table: map<HandlerId, seq<Value>>, threw: bool)
    requires SnapshotsReady(subs, wm)
    ensures calls == Notify(subs, state, wm).calls
    ensures table == Notify(subs, state, wm).wm
    ensures threw == Notify(subs, state, wm).threw
  {
    calls := [];
    table := wm;
    threw := false;
    var todo := subs;
    ghost var round := Notify(subs, state, wm);
    while todo != []
      invariant SnapshotsReady(todo, table)
      invariant round.calls == calls + Notify(todo, state, table).calls
      invariant round.wm == Notify(todo, state, table).wm
      invariant round.threw == Notify(todo, state, table).threw
      invariant !threw
      decreases |todo|
    {
      NotifyUnfold(todo, state, table);
      var c, t, th := Listener(todo[0], state, table);
      calls := calls + c;
      if th {
        threw := true;
        return;
      }
      table := t;
      todo := todo[1..];
    }
  }

  /** The result of `createStore(preloadedState)` over the modelled redux store. */
  class Store {
    /** redux's current state. */
    var state: Value
    /** redux's listeners, in registration order. */
    var subs: seq<Subscription>
    /** The table `wm`: the latest dependency snapshot of each diffed handler. */
    var wm: map<HandlerId, seq<Value>>

    ghost predicate Valid()
      reads this
    {
      SnapshotsReady(subs, wm)
    }

    /**
     * `createStore(preloadedState)`: the default `null` also replaces an explicit `undefined`,
     * and redux's init action leaves the preloaded state as it is.
     */
    constructor (preloadedState: Value)
      ensures Valid()
      ensures state == (if preloadedState.Undefined? then Null else preloadedState)
      ensures subs == [] && wm == map[]
    {
      state := Reduce(if preloadedState.Undefined? then Null else preloadedState, InitAction());
      subs := [];
      wm := map[];
    }

    /** `createStore()` with no argument: the preloaded state defaults to `null`. */
    constructor Default()
      ensures Valid()
      ensures state == Null && subs == [] && wm == map[]
    {
      state := Reduce(Null, InitAction());
      subs := [];
      wm := map[];
    }

    /** The `state` getter. */
    method GetState() returns (s: Value)
      ensures s == state
    {
      s := state;
    }

    /**
     * `subscribe(handler, deps)`: a diffed subscription (re)sets the handler's snapshot to
     * `[]`; the listener is appended to redux's listeners.
     */
    method Subscribe(handler: HandlerId, deps: Option<seq<string>>)
      requires Valid()
      modifies this
      ensures Valid()
      ensures subs == old(subs) + [Subscription(handler, deps)]
      ensures HasDeps(Subscription(handler, deps)) ==> wm == old(wm)[handler := []]
      ensures !HasDeps(Subscription(handler, deps)) ==> wm == old(wm)
      ensures state == old(state)
    {
      var s := Subscription(handler, deps);
      if HasDeps(s) {
        wm := wm[handler := []];
      }
      subs := subs + [s];
    }

    /**
     * `dispatch(updater, type)`: the reducer computes the next state, then every listener
     * runs in registration order. Returns the handler invocations, and whether a listener
     * threw (which ends the round, with the new state already in place).
     */
    method Dispatch(updater: Option<Updater>, actionType: Value) returns (calls: seq<Call>, threw: bool)
      requires Valid()
      modifies this
      ensures Valid()
      ensures state == Reduce(old(state), UpdateAction(updater, actionType))
      ensures subs == old(subs)
      ensures calls == Notify(subs, state, old(wm)).calls
      ensures wm == Notify(subs, state, old(wm)).wm
      ensures threw == Notify(subs, state, old(wm)).threw
      ensures forall c :: c in calls ==> c.arg == state
      ensures !threw ==> forall h :: LastDeps(subs, h).Some? ==>
                h in wm && wm[h] == DepValues(state, LastDeps(subs, h).value)
    {
      var next := Reduce(state, UpdateAction(updater, actionType));
      var table;
      calls, table, threw := RunListeners(subs, next, wm);
      NotifyFacts(subs, next, wm);
      if !threw {
        forall h | LastDeps(subs, h).Some?
          ensures h in table && table[h] == DepValues(next, LastDeps(subs, h).value)
        {
          SnapshotsAfterNotify(subs, next, wm, h);
        }
      }
      state := next;
      wm := table;
    }
  }
}
