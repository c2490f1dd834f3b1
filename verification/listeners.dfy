/**
  The listener registry of a Node.js EventEmitter (ipcMain, ipcRenderer, a
  window): for every event name, the listeners in the order they were added.
  `removeListener` removes the most recently added matching listener;
  `on` and `once` append.
 */
module Listeners {

  datatype Listener<H> = Listener(handler: H, once: bool)

  type Registry<H> = map<string, seq<Listener<H>>>

  /** The listeners of event `e`; an event nobody listens to has none. */
  function ListenersOf<H>(r: Registry<H>, e: string): seq<Listener<H>> {
    if e in r then r[e] else []
  }

  /** How many of the listeners run handler `h`: EventEmitter's listenerCount for one handler. */
  function Count<H(==)>(l: seq<Listener<H>>, h: H): nat {
    if |l| == 0 then 0
    else Count(l[..|l| - 1], h) + (if l[|l| - 1].handler == h then 1 else 0)
  }

  /** The listeners whose handler is not `h`, in order. */
  function Without<H(==)>(l: seq<Listener<H>>, h: H): seq<Listener<H>> {
    if |l| == 0 then []
    else Without(l[..|l| - 1], h) + (if l[|l| - 1].handler == h then [] else [l[|l| - 1]])
  }

  /** Removes the last listener running `h`, searching from the end as Node does. */
  function RemoveLast<H(==)>(l: seq<Listener<H>>, h: H): seq<Listener<H>> {
    if |l| == 0 then []
    else if l[|l| - 1].handler == h then l[..|l| - 1]
    else RemoveLast(l[..|l| - 1], h) + [l[|l| - 1]]
  }

  /** `emitter.removeListener(e, h)`. */
  function RemoveListener<H(==)>(r: Registry<H>, e: string, h: H): Registry<H> {
    if e in r then r[e := RemoveLast(r[e], h)] else r
  }

  /** `emitter.on(e, h)`. */
  function On<H>(r: Registry<H>, e: string, h: H): Registry<H> {
    r[e := ListenersOf(r, e) + [Listener(h, false)]]
  }

  /** `emitter.once(e, h)`. */
  function Once<H>(r: Registry<H>, e: string, h: H): Registry<H> {
    r[e := ListenersOf(r, e) + [Listener(h, true)]]
  }

  /**
    `safelyAttachEventListener(emitter, e, h)`: remove, then add. Afterwards
    `h` is the newest listener of `e`, a persistent one; `SafelyAttachCount`
    says how often `h` is attached.
   */
  function SafelyAttach<H(==)>(r: Registry<H>, e: string, h: H): (r': Registry<H>)
    ensures var l := ListenersOf(r', e); |l| > 0 && l[|l| - 1] == Listener(h, false)
  {
    On(RemoveListener(r, e, h), e, h)
  }

  /** The handlers of a listener list, in order. */
  function Handlers<H>(l: seq<Listener<H>>): (hs: seq<H>)
    ensures |hs| == |l|
    ensures forall i | 0 <= i < |l| :: hs[i] == l[i].handler
  {
    if |l| == 0 then [] else Handlers(l[..|l| - 1]) + [l[|l| - 1].handler]
  }

  /** The listeners that stay after an emit: all but the `once` ones. */
  function Persistent<H>(l: seq<Listener<H>>): seq<Listener<H>> {
    if |l| == 0 then []
    else Persistent(l[..|l| - 1]) + (if l[|l| - 1].once then [] else [l[|l| - 1]])
  }

  datatype Emitted<H> = Emitted(fired: seq<H>, registry: Registry<H>)

  /**
    `emitter.emit(e, ...)`: every listener of `e` runs, in order, and the
    `once` listeners are removed.
   */
  function Emit<H>(r: Registry<H>, e: string): (x: Emitted<H>)
    ensures x.fired == Handlers(ListenersOf(r, e))
    ensures ListenersOf(x.registry, e) == Persistent(ListenersOf(r, e))
    ensures forall e' | e' != e :: ListenersOf(x.registry, e') == ListenersOf(r, e')
  {
    Emitted(Handlers(ListenersOf(r, e)), if e in r then r[e := Persistent(r[e])] else r)
  }

  // ----- Counting lemmas -----

  lemma CountAppend<H>(l: seq<Listener<H>>, x: Listener<H>, h: H)
    ensures Count(l + [x], h) == Count(l, h) + (if x.handler == h then 1 else 0)
    ensures Without(l + [x], h) == Without(l, h) + (if x.handler == h then [] else [x])
  {
    assert (l + [x])[..|l|] == l;
  }

  /** Removing the last `h` lowers the count of `h` by one, if there was one. */
  lemma {:induction false} RemoveLastCount<H>(l: seq<Listener<H>>, h: H, g: H)
    ensures g == h ==> Count(RemoveLast(l, h), g) == if Count(l, h) == 0 then 0 else Count(l, h) - 1
    ensures g != h ==> Count(RemoveLast(l, h), g) == Count(l, g)
    ensures Without(RemoveLast(l, h), h) == Without(l, h)
  {
    if |l| > 0 && l[|l| - 1].handler != h {
      var init := l[..|l| - 1];
      RemoveLastCount(init, h, g);
      CountAppend(RemoveLast(init, h), l[|l| - 1], g);
      CountAppend(RemoveLast(init, h), l[|l| - 1], h);
    }
  }

  // ----- safelyAttachEventListener -----

  /**
    After attaching, `h` is attached once more than zero times and never
    more often than before: exactly once when it was attached at most once.
   */
  lemma SafelyAttachCount<H>(r: Registry<H>, e: string, h: H)
    ensures Count(ListenersOf(SafelyAttach(r, e, h), e), h) ==
              if Count(ListenersOf(r, e), h) == 0 then 1 else Count(ListenersOf(r, e), h)
    ensures Count(ListenersOf(r, e), h) <= 1 ==> Count(ListenersOf(SafelyAttach(r, e, h), e), h) == 1
  {
    var l := ListenersOf(r, e);
    RemoveLastCount(l, h, h);
    assert ListenersOf(RemoveListener(r, e, h), e) == RemoveLast(l, h);
    CountAppend(RemoveLast(l, h), Listener(h, false), h);
  }

  /**
    Attaching `h` keeps every other listener of `e`, in order, and puts `h`
    last.
   */
  lemma SafelyAttachKeepsOthers<H>(r: Registry<H>, e: string, h: H, g: H)
    requires g != h
    ensures Count(ListenersOf(SafelyAttach(r, e, h), e), g) == Count(ListenersOf(r, e), g)
    ensures Without(ListenersOf(SafelyAttach(r, e, h), e), h) == Without(ListenersOf(r, e), h)
    ensures var l := ListenersOf(SafelyAttach(r, e, h), e); |l| > 0 && l[|l| - 1] == Listener(h, false)
  {
    var l := ListenersOf(r, e);
    RemoveLastCount(l, h, g);
    assert ListenersOf(RemoveListener(r, e, h), e) == RemoveLast(l, h);
    CountAppend(RemoveLast(l, h), Listener(h, false), g);
    CountAppend(RemoveLast(l, h), Listener(h, false), h);
  }

  /** Attaching to `e` leaves the listeners of every other event unchanged. */
  lemma SafelyAttachOtherEvents<H>(r: Registry<H>, e: string, h: H, e': string)
    requires e' != e
    ensures ListenersOf(SafelyAttach(r, e, h), e') == ListenersOf(r, e')
  {
  }

  /** Attaching the same handler again changes nothing. */
  lemma SafelyAttachIdempotent<H>(r: Registry<H>, e: string, h: H)
    ensures SafelyAttach(SafelyAttach(r, e, h), e, h) == SafelyAttach(r, e, h)
  {
    var r1 := SafelyAttach(r, e, h);
    var l := RemoveLast(ListenersOf(r, e), h);
    var last := l + [Listener(h, false)];
    assert r1 == RemoveListener(r, e, h)[e := last];
    assert RemoveLast(last, h) == l;
    assert SafelyAttach(r1, e, h) == r1[e := l][e := last];
    UpdateBack(r1, e, l);
  }

  /** Overwriting a key and then restoring its value gives back the map. */
  lemma UpdateBack<K, V>(m: map<K, V>, k: K, v: V)
    requires k in m
    ensures m[k := v][k := m[k]] == m
  {
  }

  /** Attaching `h` to `e` any number of times leaves exactly one registration of it. */
  lemma SafelyAttachRepeated<H>(r: Registry<H>, e: string, h: H, n: nat)
    requires Count(ListenersOf(r, e), h) <= 1
    ensures Count(ListenersOf(AttachTimes(r, e, h, n + 1), e), h) == 1
  {
    AttachTimesIsOnce(r, e, h, n + 1);
    SafelyAttachCount(r, e, h);
  }

  /** `safelyAttachEventListener(emitter, e, h)` called `n` times in a row. */
  function AttachTimes<H(==)>(r: Registry<H>, e: string, h: H, n: nat): Registry<H> {
    if n == 0 then r else SafelyAttach(AttachTimes(r, e, h, n - 1), e, h)
  }

  /** Attaching `n > 0` times has the effect of attaching once. */
  lemma {:induction false} AttachTimesIsOnce<H>(r: Registry<H>, e: string, h: H, n: nat)
    requires n > 0
    ensures AttachTimes(r, e, h, n) == SafelyAttach(r, e, h)
  {
    if n > 1 {
      AttachTimesIsOnce(r, e, h, n - 1);
      SafelyAttachIdempotent(r, e, h);
    }
  }

  // ----- once / emit -----

  /**
    A `once` listener added to an event with no listeners runs on the first
    emit and is gone for the second.
   */
  lemma OnceFiresOnce<H>(r: Registry<H>, e: string, h: H)
    requires ListenersOf(r, e) == []
    ensures Emit(Once(r, e, h), e).fired == [h]
    ensures Emit(Emit(Once(r, e, h), e).registry, e).fired == []
  {
    var l := [Listener(h, true)];
    assert ListenersOf(Once(r, e, h), e) == l;
    assert Persistent(l) == Persistent(l[..0]) + [];
  }
}
