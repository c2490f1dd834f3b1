/**
  Ordered property lists: the own enumerable properties of a JavaScript
  object, in insertion order. Both JSON objects and the window options that
  `open` merges are values of this shape.
 */
module Props {
  import opened Wrappers

  datatype Prop<V> = Prop(key: string, value: V)

  predicate HasKey<V>(ps: seq<Prop<V>>, k: string) {
    exists i | 0 <= i < |ps| :: ps[i].key == k
  }

  /** No key occurs twice, as in every JavaScript object. */
  predicate DistinctKeys<V>(ps: seq<Prop<V>>) {
    forall i, j | 0 <= i < j < |ps| :: ps[i].key != ps[j].key
  }

  /** The position of the first property named `k`. */
  function IndexOf<V>(ps: seq<Prop<V>>, k: string): (r: Option<nat>)
    ensures r.None? <==> !HasKey(ps, k)
    ensures r.Some? ==> r.value < |ps| && ps[r.value].key == k
    ensures r.Some? ==> forall j | 0 <= j < r.value :: ps[j].key != k
  {
    if |ps| == 0 then None
    else if ps[0].key == k then Some(0)
    else
      match IndexOf(ps[1..], k)
      case None => None
      case Some(i) => Some(i + 1)
  }

  /** The value of property `k`, if the object has one. */
  function Lookup<V>(ps: seq<Prop<V>>, k: string): Option<V> {
    match IndexOf(ps, k)
    case None => None
    case Some(i) => Some(ps[i].value)
  }

  /**
    Defines property `k` with value `v`, as an assignment `o[k] = v` on an
    ordinary object does: an existing property keeps its position and takes
    the new value, a new property goes last.
   */
  function Put<V>(ps: seq<Prop<V>>, k: string, v: V): (r: seq<Prop<V>>)
    ensures Lookup(r, k) == Some(v)
    ensures !HasKey(ps, k) ==> r == ps + [Prop(k, v)]
    ensures HasKey(ps, k) ==> |r| == |ps| && Keys(r) == Keys(ps)
  {
    match IndexOf(ps, k)
    case None =>
      var r := ps + [Prop(k, v)];
      assert IndexOf(r, k) == Some(|ps|) by { IndexOfDetermined(r, k, |ps|); }
      r
    case Some(i) =>
      var r := ps[i := Prop(k, v)];
      assert IndexOf(r, k) == Some(i) by { IndexOfDetermined(r, k, i); }
      assert Keys(r) == Keys(ps) by { KeysUpdate(ps, i, Prop(k, v)); }
      r
  }

  /** The keys, in order. */
  function Keys<V>(ps: seq<Prop<V>>): (ks: seq<string>)
    ensures |ks| == |ps|
    ensures forall i | 0 <= i < |ps| :: ks[i] == ps[i].key
  {
    seq(|ps|, i requires 0 <= i < |ps| => ps[i].key)
  }

  lemma KeysUpdate<V>(ps: seq<Prop<V>>, i: nat, p: Prop<V>)
    requires i < |ps| && p.key == ps[i].key
    ensures Keys(ps[i := p]) == Keys(ps)
  {
  }

  /** A position holding `k` with no `k` before it is the one `IndexOf` finds. */
  lemma IndexOfDetermined<V>(ps: seq<Prop<V>>, k: string, i: nat)
    requires i < |ps| && ps[i].key == k
    requires forall j | 0 <= j < i :: ps[j].key != k
    ensures IndexOf(ps, k) == Some(i)
  {
    assert HasKey(ps, k);
  }

  /** Putting `k` leaves every other property's value as it was. */
  lemma PutOther<V>(ps: seq<Prop<V>>, k: string, v: V, k': string)
    requires k' != k
    ensures Lookup(Put(ps, k, v), k') == Lookup(ps, k')
    ensures HasKey(Put(ps, k, v), k') == HasKey(ps, k')
  {
    var r := Put(ps, k, v);
    match IndexOf(ps, k')
    case None =>
    case Some(i) =>
      assert r[i] == ps[i];
      assert forall j | 0 <= j < i :: r[j].key == ps[j].key;
      IndexOfDetermined(r, k', i);
  }

  /** Putting a property into an object keeps its keys distinct. */
  lemma PutDistinct<V>(ps: seq<Prop<V>>, k: string, v: V)
    requires DistinctKeys(ps)
    ensures DistinctKeys(Put(ps, k, v))
  {
    var r := Put(ps, k, v);
    if HasKey(ps, k) {
      assert Keys(r) == Keys(ps);
      assert forall i | 0 <= i < |r| :: r[i].key == Keys(ps)[i];
    }
  }

  /** `Object.assign(target, source)`: each property of `source`, in order, is put on `target`. */
  function Assign<V>(target: seq<Prop<V>>, source: seq<Prop<V>>): seq<Prop<V>>
    decreases |source|
  {
    if |source| == 0 then target
    else Assign(Put(target, source[0].key, source[0].value), source[1..])
  }

  /**
    After `Object.assign(target, source)` every property of `source` has the
    source's value and every other property keeps the target's value.
   */
  lemma {:induction false} AssignLookup<V>(target: seq<Prop<V>>, source: seq<Prop<V>>, k: string)
    requires DistinctKeys(source)
    ensures HasKey(source, k) ==> Lookup(Assign(target, source), k) == Lookup(source, k)
    ensures !HasKey(source, k) ==> Lookup(Assign(target, source), k) == Lookup(target, k)
    decreases |source|
  {
    if |source| > 0 {
      var p := source[0];
      var t' := Put(target, p.key, p.value);
      var rest := source[1..];
      assert DistinctKeys(rest) by {
        assert forall i | 0 <= i < |rest| :: rest[i] == source[i + 1];
      }
      AssignLookup(t', rest, k);
      LookupTail(source, k);
      if k == p.key {
        assert !HasKey(rest, k) by {
          assert forall i | 0 <= i < |rest| :: rest[i] == source[i + 1];
        }
      } else {
        PutOther(target, p.key, p.value, k);
      }
    }
  }

  /** Looking up a key other than the first one's skips the first property. */
  lemma LookupTail<V>(ps: seq<Prop<V>>, k: string)
    requires |ps| > 0
    ensures HasKey(ps, k) <==> ps[0].key == k || HasKey(ps[1..], k)
    ensures ps[0].key == k ==> Lookup(ps, k) == Some(ps[0].value)
    ensures ps[0].key != k ==> Lookup(ps, k) == Lookup(ps[1..], k)
  {
    if HasKey(ps, k) && ps[0].key != k {
      var i :| 0 <= i < |ps| && ps[i].key == k;
      assert ps[1..][i - 1].key == k;
    }
    if HasKey(ps[1..], k) {
      var i :| 0 <= i < |ps[1..]| && ps[1..][i].key == k;
      assert ps[i + 1].key == k;
    }
  }

  /** `Object.assign` onto an object yields an object: keys stay distinct. */
  lemma {:induction false} AssignDistinct<V>(target: seq<Prop<V>>, source: seq<Prop<V>>)
    requires DistinctKeys(target)
    ensures DistinctKeys(Assign(target, source))
    decreases |source|
  {
    if |source| > 0 {
      PutDistinct(target, source[0].key, source[0].value);
      AssignDistinct(Put(target, source[0].key, source[0].value), source[1..]);
    }
  }

  /** `Object.assign` adds exactly the keys of `source`. */
  lemma {:induction false} AssignKeys<V>(target: seq<Prop<V>>, source: seq<Prop<V>>, k: string)
    ensures HasKey(Assign(target, source), k) <==> HasKey(target, k) || HasKey(source, k)
    decreases |source|
  {
    if |source| > 0 {
      var p := source[0];
      AssignKeys(Put(target, p.key, p.value), source[1..], k);
      LookupTail(source, k);
      if k != p.key {
        PutOther(target, p.key, p.value, k);
      }
    }
  }
}
