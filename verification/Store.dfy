/**
 The transactional store: a transaction commits entirely or does nothing.
 */
module Durable {

  /** One SQLite authority. `draft` is what the open transaction sees. */
  class Store<D> {
    var committed: D
    var draft: D
    var open: bool

    constructor (documents: D)
      ensures committed == documents && !open
    {
      committed, draft, open := documents, documents, false;
    }

    /** BEGIN IMMEDIATE, which may find the store busy. */
    method Begin(busy: bool) returns (ok: bool)
      requires !open
      modifies this
      ensures ok == open == !busy
      ensures committed == old(committed)
      ensures ok ==> draft == committed
    {
      ok := !busy;
      if ok { open, draft := true, committed; }
    }

    method Commit()
      requires open
      modifies this
      ensures !open && committed == old(draft)
    {
      committed, open := draft, false;
    }

    /** Any exception inside the block. */
    method Rollback()
      requires open
      modifies this
      ensures !open && committed == old(committed)
    {
      draft, open := committed, false;
    }
  }
}
