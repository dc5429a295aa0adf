/** The absent-or-present values that the services pass around as nil-able pointers, and map keys to range over. */
module Options {

  datatype Option<+T> = None | Some(value: T)

  /** A keyed table read: the row when there is one, nil otherwise. */
  function Get<K, V>(table: map<K, V>, key: K): Option<V> {
    if key in table then Some(table[key]) else None
  }

  lemma NoElement(s: set<int>)
    ensures s == {} <==> forall x :: x !in s
  {
    if forall x :: x !in s {
      assert s == {};
    }
  }

  lemma HasElement(s: set<int>)
    requires s != {}
    ensures exists x :: x in s
  {
    NoElement(s);
  }
}
