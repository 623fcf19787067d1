/**
 Values shared by every part of the model.
 */
module Schema {

  datatype Option<+T> = None | Some(value: T)

  /** A SHA-256 over canonical JSON, idealised as injective: the digest of a value is
      a wrapper around that very value, so equal digests mean equal contents. */
  datatype Digest<+T> = Digest(content: T)

  /** What a call gives back: a value, or the exception it raised. */
  datatype Result<+T, +E> = Ok(value: T) | Err(error: E)

  /** The outcome of one store transaction: the new documents and the value returned
      from the `with` block, or the exception that rolled everything back. */
  datatype Tx<+D, +T, +E> = Done(docs: D, value: T) | Raise(error: E)

  /** What the store holds after a transaction that started from `before`. */
  function After<D, T, E>(tx: Tx<D, T, E>, before: D): D {
    if tx.Done? then tx.docs else before
  }

  /** A transaction that may find the store busy, in which case nothing happens; it
      gives a value exactly when it commits one. */
  ghost predicate Transacted<D(!new), T(!new), E(!new)>(tx: Tx<D, T, E>, busy: bool, before: D, after: D, r: Option<T>) {
    && after == (if busy then before else After(tx, before))
    && r == (if busy || tx.Raise? then None else Some(tx.value))
  }

  /** `Store.put(..., immutable=True)`: keeps an identical row, refuses a different one. */
  function PutOnce<K, V(==)>(table: map<K, V>, key: K, value: V): Option<map<K, V>> {
    if key in table && table[key] != value then None else Some(table[key := value])
  }
}
