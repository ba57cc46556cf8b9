/** Options, results and the insertion-ordered dictionary that Python's `dict` is. */
module Wrappers {

  datatype Option<+T> = None | Some(value: T)

  datatype Result<+T, +E> = Ok(value: T) | Err(error: E)

  /** What a map has for a key, if anything. */
  function Get<K, V>(m: map<K, V>, k: K): Option<V> {
    if k in m then Some(m[k]) else None
  }

  /** The first elements, up to a limit; a negative limit leaves out that many at the end. */
  function Slice<T>(s: seq<T>, limit: int): seq<T> {
    if limit >= 0 then s[..if limit <= |s| then limit else |s|]
    else s[..if |s| + limit >= 0 then |s| + limit else 0]
  }

  /** A dictionary of lists, iterated in the order its keys were first inserted. */
  datatype Dict<K(==), V> = Dict(keys: seq<K>, lists: map<K, seq<V>>) {

    predicate Has(k: K) { k in lists }

    /** The list under a key, empty if there is none. */
    function At(k: K): seq<V> { if k in lists then lists[k] else [] }

    /** The dictionary with a value appended to the list of a key. */
    function Push(k: K, v: V): (r: Dict<K, V>)
      ensures Valid() ==> r.Valid()
    {
      Dict(if k in lists then keys else keys + [k], lists[k := At(k) + [v]])
    }

    /** The dictionary without a key and its list. */
    function Pop(k: K): (r: Dict<K, V>)
      ensures Valid() ==> r.Valid()
    {
      Dict(Without(keys, k), map x | x in lists && x != k :: lists[x])
    }

    /** Every stored list is under a key that iteration visits. */
    ghost predicate Valid() { forall k <- lists :: k in keys }
  }

  function EmptyDict<K(==), V>(): Dict<K, V> { Dict([], map[]) }

  function Without<K(==)>(keys: seq<K>, k: K): (r: seq<K>)
    ensures forall x <- r :: x in keys && x != k
    ensures forall x <- keys :: x != k ==> x in r
  {
    if keys == [] then []
    else if keys[0] == k then Without(keys[1..], k)
    else [keys[0]] + Without(keys[1..], k)
  }
}
