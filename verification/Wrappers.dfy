/** What every module shares: an optional value, and picking from finite collections. */
module Wrappers {
  datatype Option<T> = None | Some(value: T)

  /** A nonempty set has an element to pick. */
  lemma Inhabited(s: set<int>)
    requires s != {}
    ensures exists k :: k in s
  {
    if forall k :: k !in s { assert false; }
  }

  lemma InhabitedMap<V>(m: map<int, V>)
    requires m != map[]
    ensures exists k: int :: k in m
  {
    if forall k: int :: k !in m { assert false; }
  }

  lemma KeyOf<V>(m: map<int, V>, v: V)
    requires v in m.Values
    ensures exists k :: k in m && m[k] == v
  {
    if forall k :: k in m ==> m[k] != v { assert false; }
  }
}
