/**
  Process and window predicates, and the blind memoizer the modal's
  `getData` is wrapped in.
 */
module Utils {
  import opened Wrappers
  import opened Json

  /** A window as the library sees it: its id and, for a modal, its parent's id. */
  datatype Window = Window(id: nat, parent: Option<nat>)

  /** The process the library runs in; a renderer process belongs to one window. */
  datatype Role = MainProcess | RendererProcess(current: Window)

  predicate IsRenderer(role: Role) {
    role.RendererProcess?
  }

  /** `getCurrentBrowserWindow()`: the renderer's own window, or `null` in the main process. */
  function GetCurrentBrowserWindow(role: Role): (w: Option<Window>)
    ensures w.None? <==> !IsRenderer(role)
    ensures w.Some? ==> w.value == role.current
  {
    match role
    case MainProcess => None
    case RendererProcess(current) => Some(current)
  }

  /** `isChildBrowserWindow(w)`: whether `w` has a parent window. */
  predicate IsChildBrowserWindow(w: Window) {
    w.parent.Some?
  }

  // ----- blindMemoize, as written -----

  /** The closure state of `blindMemoize(func)`: the cached result, `null` at first. */
  datatype Memo<V> = Memo(cache: V)

  /** One call of a memoized function: the new state, its result, and whether `func` ran. */
  datatype MemoStep<S, V> = MemoStep(state: S, result: V, invoked: bool)

  /**
    One call of the function `blindMemoize(func)` returns: `func` runs when
    the cache is falsy (`!cache`), otherwise the cache is returned.
   */
  function BlindMemoizeCall<A, V>(m: Memo<V>, func: A -> V, truthy: V -> bool, args: A): (r: MemoStep<Memo<V>, V>)
    ensures r.invoked <==> !truthy(m.cache)
    ensures r.invoked ==> r.result == func(args) && r.state == Memo(r.result)
    ensures !r.invoked ==> r.result == m.cache && r.state == m
  {
    if !truthy(m.cache) then
      var v := func(args);
      MemoStep(Memo(v), v, true)
    else
      MemoStep(m, m.cache, false)
  }

  /** A sequence of calls: the final state, every result, how often `func` ran. */
  datatype Trace<S, V> = Trace(state: S, results: seq<V>, invocations: nat)

  function BlindMemoizeTrace<A, V>(m: Memo<V>, func: A -> V, truthy: V -> bool, calls: seq<A>): (t: Trace<Memo<V>, V>)
    ensures |t.results| == |calls|
  {
    if |calls| == 0 then Trace(m, [], 0)
    else
      var t := BlindMemoizeTrace(m, func, truthy, calls[..|calls| - 1]);
      var s := BlindMemoizeCall(t.state, func, truthy, calls[|calls| - 1]);
      Trace(s.state, t.results + [s.result], t.invocations + if s.invoked then 1 else 0)
  }

  /**
    When the first result is truthy, every call returns it, whatever its
    arguments, and `func` runs once.
   */
  lemma {:induction false} BlindMemoizeKeepsTruthyResult<A, V>(m: Memo<V>, func: A -> V, truthy: V -> bool, calls: seq<A>)
    requires !truthy(m.cache)
    requires |calls| > 0 && truthy(func(calls[0]))
    ensures var t := BlindMemoizeTrace(m, func, truthy, calls);
      && t.state == Memo(func(calls[0]))
      && (forall i | 0 <= i < |calls| :: t.results[i] == func(calls[0]))
      && t.invocations == 1
  {
    if |calls| > 1 {
      var init := calls[..|calls| - 1];
      assert init[0] == calls[0];
      BlindMemoizeKeepsTruthyResult(m, func, truthy, init);
    }
  }

  /** After a falsy result, the next call runs `func` again, on its own arguments. */
  lemma {:induction false} BlindMemoizeRecomputesFalsy<A, V>(m: Memo<V>, func: A -> V, truthy: V -> bool, calls: seq<A>, i: nat)
    requires i + 1 < |calls|
    requires !truthy(BlindMemoizeTrace(m, func, truthy, calls).results[i])
    ensures BlindMemoizeTrace(m, func, truthy, calls).results[i + 1] == func(calls[i + 1])
    decreases |calls|
  {
    var init := calls[..|calls| - 1];
    var t := BlindMemoizeTrace(m, func, truthy, init);
    if i + 2 < |calls| {
      assert BlindMemoizeTrace(m, func, truthy, calls).results[i] == t.results[i];
      assert BlindMemoizeTrace(m, func, truthy, calls).results[i + 1] == t.results[i + 1];
      BlindMemoizeRecomputesFalsy(m, func, truthy, init, i);
    } else {
      CacheIsLastResult(m, func, truthy, init);
    }
  }

  /** After at least one call, the cache holds the last result. */
  lemma {:induction false} CacheIsLastResult<A, V>(m: Memo<V>, func: A -> V, truthy: V -> bool, calls: seq<A>)
    requires |calls| > 0
    ensures var t := BlindMemoizeTrace(m, func, truthy, calls); t.state.cache == t.results[|calls| - 1]
  {
  }

  // ----- The memoizer as documented: cache the first result, whatever it is -----

  /**
    One call of a memoizer with an explicit populated slot: `func` runs on
    the first call only.
   */
  function MemoizeOnceCall<A, V>(slot: Option<V>, func: A -> V, args: A): (r: MemoStep<Option<V>, V>)
    ensures r.invoked <==> slot.None?
    ensures r.state.Some? && r.result == r.state.value
    ensures slot.Some? ==> r.state == slot
    ensures slot.None? ==> r.result == func(args)
  {
    match slot
    case None =>
      var v := func(args);
      MemoStep(Some(v), v, true)
    case Some(v) => MemoStep(slot, v, false)
  }

  function MemoizeOnceTrace<A, V>(slot: Option<V>, func: A -> V, calls: seq<A>): (t: Trace<Option<V>, V>)
    ensures |t.results| == |calls|
  {
    if |calls| == 0 then Trace(slot, [], 0)
    else
      var t := MemoizeOnceTrace(slot, func, calls[..|calls| - 1]);
      var s := MemoizeOnceCall(t.state, func, calls[|calls| - 1]);
      Trace(s.state, t.results + [s.result], t.invocations + if s.invoked then 1 else 0)
  }

  /** Every call returns the first call's result and `func` runs exactly once. */
  lemma {:induction false} MemoizeOnceKeepsFirstResult<A, V>(func: A -> V, calls: seq<A>)
    requires |calls| > 0
    ensures var t := MemoizeOnceTrace(None, func, calls);
      && t.state == Some(func(calls[0]))
      && (forall i | 0 <= i < |calls| :: t.results[i] == func(calls[0]))
      && t.invocations == 1
  {
    if |calls| > 1 {
      var init := calls[..|calls| - 1];
      assert init[0] == calls[0];
      MemoizeOnceKeepsFirstResult(func, init);
    }
  }

  /**
    For a function whose results are always truthy (such as one returning a
    promise) the memoizer as written and the corrected one agree call for
    call.
   */
  lemma {:induction false} MemoizersAgreeOnTruthyResults<A, V>(initial: V, func: A -> V, truthy: V -> bool, calls: seq<A>)
    requires !truthy(initial)
    requires forall a :: truthy(func(a))
    ensures BlindMemoizeTrace(Memo(initial), func, truthy, calls).results == MemoizeOnceTrace(None, func, calls).results
    ensures BlindMemoizeTrace(Memo(initial), func, truthy, calls).invocations == MemoizeOnceTrace(None, func, calls).invocations
  {
    if |calls| > 0 {
      BlindMemoizeKeepsTruthyResult(Memo(initial), func, truthy, calls);
      MemoizeOnceKeepsFirstResult(func, calls);
    }
  }

  // ----- The discrepancy, on the memoizer test's own function -----

  /** `'x'` repeated `times` times, as the test's function builds it. */
  function Xs(times: nat): string {
    if times == 0 then "" else Xs(times - 1) + "x"
  }

  /** The test's function `(times) => 'x'.repeat(times)`, as a JavaScript value. */
  function RepeatX(times: nat): JsValue {
    Defined(JString(Xs(times)))
  }

  /**
    With a first argument of 0 the first result is `''`, which is falsy, so
    the second call `memoized(15)` recomputes and returns fifteen `x`s
    instead of the first result.
   */
  lemma BlindMemoizeForgetsFalsyFirstResult()
    ensures var t := BlindMemoizeTrace(Memo(Defined(JNull)), RepeatX, Truthy, [0, 15]);
      t.results[0] == Defined(JString("")) && t.results[1] != t.results[0] && t.invocations == 2
  {
    var m := Memo(Defined(JNull));
    assert [0, 15][..1] == [0] && [0][..0] == [];
    assert BlindMemoizeTrace(m, RepeatX, Truthy, []) == Trace(m, [], 0);
    var t1 := BlindMemoizeTrace(m, RepeatX, Truthy, [0]);
    assert RepeatX(0) == Defined(JString(""));
    assert t1 == Trace(Memo(RepeatX(0)), [RepeatX(0)], 1);
    XsLength(15);
    assert RepeatX(15) != RepeatX(0);
  }

  lemma {:induction false} XsLength(n: nat)
    ensures |Xs(n)| == n
  {
    if n > 0 {
      XsLength(n - 1);
    }
  }
}
