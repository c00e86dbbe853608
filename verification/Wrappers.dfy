/** The optional value that stands for a nullable column. */
module Wrappers {
  datatype Option<+T> = None | Some(value: T)

  /** The row stored under a unique key, if there is one. */
  function Lookup<K, V>(table: map<K, V>, key: K): Option<V> {
    if key in table then Some(table[key]) else None
  }
}
