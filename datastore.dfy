/**
 * The record store behind the handlers' `exists`, `save`, `get` and `delete` calls: customer
 * records keyed by phone number. Whether a store call fails is not decided here; each
 * operation takes the outcome as a parameter `ok`.
 */
module Datastore {
  import opened Wrappers
  import opened CustomerRecord

  /** The failures a caller can tell apart: only "no such entity" is distinguished. */
  datatype StoreError = NoSuchEntity | Failure

  class Store {
    var entities: map<string, Customer>

    /** Every record is stored under its own, non-empty phone number. */
    ghost predicate Valid()
      reads this
    {
      forall k | k in entities :: k != "" && entities[k].phoneNumber == k
    }

    constructor ()
      ensures entities == map[] && Valid()
    {
      entities := map[];
    }

    /** `c.exists(ctx)`: whether a record is stored under `c`'s phone number. */
    method Exists(c: Customer) returns (found: bool)
      ensures found <==> c.phoneNumber in entities
    {
      found := c.phoneNumber in entities;
    }

    /** `c.save(ctx)`: stores `c` under its phone number, replacing any record there. */
    method Save(c: Customer, ok: bool) returns (err: Option<StoreError>)
      modifies this
      ensures err == if ok then None else Some(Failure)
      ensures entities == if ok then old(entities)[c.phoneNumber := c] else old(entities)
    {
      if ok {
        entities := entities[c.phoneNumber := c];
        err := None;
      } else {
        err := Some(Failure);
      }
    }

    /** `c.delete(ctx)`: removes the record under `c`'s phone number, if there is one. */
    method Delete(c: Customer, ok: bool) returns (err: Option<StoreError>)
      modifies this
      ensures err == if ok then None else Some(Failure)
      ensures entities == if ok then old(entities) - {c.phoneNumber} else old(entities)
    {
      if ok {
        entities := entities - {c.phoneNumber};
        err := None;
      } else {
        err := Some(Failure);
      }
    }

    /**
     * `dst.get(ctx)`: loads the record stored under `dst`'s phone number. When nothing is
     * stored there, or the call fails otherwise, `dst` is left as it was.
     */
    method Get(dst: Customer, ok: bool) returns (loaded: Customer, err: Option<StoreError>)
      ensures !ok ==> loaded == dst && err == Some(Failure)
      ensures ok && dst.phoneNumber in entities ==> loaded == entities[dst.phoneNumber] && err == None
      ensures ok && dst.phoneNumber !in entities ==> loaded == dst && err == Some(NoSuchEntity)
    {
      if !ok {
        loaded, err := dst, Some(Failure);
      } else if dst.phoneNumber in entities {
        loaded, err := entities[dst.phoneNumber], None;
      } else {
        loaded, err := dst, Some(NoSuchEntity);
      }
    }
  }
}
