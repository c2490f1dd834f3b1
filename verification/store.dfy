/**
  The main process's ephemeral store: a plain object from window id to a
  deep copy of that window's data. Ids are coerced to property keys, so the
  number 1 and the string "1" name the same entry.
 */
module Store {
  import opened Wrappers
  import opened Json
  import JsonText

  /** The store object: own properties only, keyed by property key. */
  type Store = map<string, Json>

  const EmptyStore: Store := map[]

  /** Every stored value is a JavaScript value: objects have distinct keys. */
  predicate Valid(s: Store) {
    forall k | k in s :: WellFormed(s[k])
  }

  /**
    `JSON.parse(JSON.stringify(x))`. `JSON.stringify(undefined)` is
    `undefined`, which `JSON.parse` rejects.
   */
  function DeepClone(x: JsValue): (r: Result<Json, JsError>)
    ensures x.Undefined? ==> r == Failure(SyntaxError)
    ensures x.Defined? && WellFormed(x.value) ==> r == Success(x.value)
    ensures r.Success? ==> WellFormed(r.value)
  {
    match x
    case Undefined => Failure(SyntaxError)
    case Defined(j) =>
      JsonText.RoundTrip(j);
      JsonText.Parse(JsonText.Stringify(j))
  }

  /** The value `get` hands back for a stored value: falsy values read as `{}`. */
  function ReadBack(v: Json): Json {
    if Truthy(Defined(v)) then v else EmptyObject
  }

  /** `store.set(id, data)`: stores a copy of `data` under `id`, replacing any earlier value. */
  function Set(s: Store, id: JsValue, data: JsValue): (r: Result<Store, JsError>)
    ensures data.Undefined? ==> r == Failure(SyntaxError)
    ensures data.Defined? && WellFormed(data.value) ==> r.Success?
    ensures r.Success? ==> ToPropertyKey(id) in r.value
    ensures r.Success? && data.Defined? && WellFormed(data.value) ==> r.value[ToPropertyKey(id)] == data.value
    ensures r.Success? ==> forall k | k != ToPropertyKey(id) :: (k in r.value <==> k in s)
    ensures r.Success? ==> forall k | k != ToPropertyKey(id) && k in s :: r.value[k] == s[k]
    ensures r.Success? && Valid(s) ==> Valid(r.value)
  {
    var copy :- DeepClone(data);
    Success(s[ToPropertyKey(id) := copy])
  }

  /**
    `store.get(id)`: a copy of the value stored under `id`, or of `{}` when
    there is none or it is falsy. The store itself is not changed.
   */
  function Get(s: Store, id: JsValue): (r: Result<Json, JsError>)
    ensures ToPropertyKey(id) !in s ==> r == Success(EmptyObject)
    ensures ToPropertyKey(id) in s && !Truthy(Defined(s[ToPropertyKey(id)])) ==> r == Success(EmptyObject)
    ensures ToPropertyKey(id) in s && Truthy(Defined(s[ToPropertyKey(id)])) && WellFormed(s[ToPropertyKey(id)]) ==>
              r == Success(s[ToPropertyKey(id)])
    ensures Valid(s) ==> r.Success?
  {
    var key := ToPropertyKey(id);
    var found := if key in s then Defined(s[key]) else Undefined;
    var v := if Truthy(found) then found else Defined(EmptyObject);
    DeepClone(v)
  }

  /** `store.delete(id)`: removes the entry for `id`, if any. */
  function Delete(s: Store, id: JsValue): (r: Store)
    ensures ToPropertyKey(id) !in r
    ensures forall k | k != ToPropertyKey(id) :: (k in r <==> k in s)
    ensures forall k | k in r :: r[k] == s[k]
  {
    s - {ToPropertyKey(id)}
  }

  /** An id never set reads as `{}`. */
  lemma GetEmpty(id: JsValue)
    ensures Get(EmptyStore, id) == Success(EmptyObject)
  {
  }

  /** `set(id, v)` then `get(id)` yields `v`, or `{}` for a falsy `v`. */
  lemma SetThenGet(s: Store, id: JsValue, v: Json)
    requires WellFormed(v)
    ensures Set(s, id, Defined(v)).Success?
    ensures Get(Set(s, id, Defined(v)).value, id) == Success(ReadBack(v))
  {
  }

  /** Objects and arrays, `{}` included, always read back as stored. */
  lemma SetThenGetStructured(s: Store, id: JsValue, v: Json)
    requires WellFormed(v) && (v.JObject? || v.JArray?)
    ensures Get(Set(s, id, Defined(v)).value, id) == Success(v)
  {
    SetThenGet(s, id, v);
  }

  /** A later `set` of the same id overwrites the earlier one. */
  lemma SetOverwrites(s: Store, id: JsValue, a: Json, b: Json)
    requires WellFormed(a) && WellFormed(b)
    ensures Set(Set(s, id, Defined(a)).value, id, Defined(b)) == Set(s, id, Defined(b))
  {
    var k := ToPropertyKey(id);
    assert s[k := a][k := b] == s[k := b];
  }

  /** After `delete(id)`, `get(id)` yields `{}`. */
  lemma DeleteThenGet(s: Store, id: JsValue)
    ensures Get(Delete(s, id), id) == Success(EmptyObject)
  {
  }

  /** Deleting an id with no entry changes nothing. */
  lemma DeleteAbsent(s: Store, id: JsValue)
    requires ToPropertyKey(id) !in s
    ensures Delete(s, id) == s
  {
  }

  /** `set` and `delete` on one id leave the entry of any other id as it was. */
  lemma OtherIdsUnaffected(s: Store, id: JsValue, other: JsValue, v: JsValue)
    requires ToPropertyKey(other) != ToPropertyKey(id)
    ensures Get(Delete(s, id), other) == Get(s, other)
    ensures Set(s, id, v).Success? ==> Get(Set(s, id, v).value, other) == Get(s, other)
  {
  }
}
