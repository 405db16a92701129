/**
 * The statements of the remote stores, one at a time, over a table of records
 * (src/sqlx_store.rs, src/redis_store.rs, src/mongodb_store.rs). A fault loses
 * the request of one statement before it executes, or its answer afterwards.
 */
module RemoteStores {
  import opened Common
  import opened Sessions
  import opened MemoryStores

  datatype Fault = NoFault | LostRequest(statement: nat) | LostAnswer(statement: nat)

  /** The fault keeps the caller from seeing statement `k` answered. */
  predicate Cuts(fault: Fault, k: nat) {
    fault == LostRequest(k) || fault == LostAnswer(k)
  }

  /** A rotation removes one record and inserts another. */
  predicate Rotates(origin: Option<Id>, id: Id) {
    origin.Some? && origin.value != id
  }

  /** The records without a rotation's source. */
  function WithoutSource(records: Records, origin: Option<Id>): Records {
    if origin.Some? then records - {origin.value} else records
  }

  /** Nothing happened, or the whole atomic write did. */
  ghost predicate AllOrNothing(before: Records, after: Records, origin: Option<Id>, id: Id, record: Snapshot) {
    after == before || Ok(after) == AtomicStore(before, origin, id, record)
  }

  class Table {
    var rows: Records

    constructor ()
      ensures rows == map[]
    {
      rows := map[];
    }

    /** A transaction for rotations, a single conditional statement otherwise. */
    method SqlStore(origin: Option<Id>, id: Id, record: Snapshot, fault: Fault) returns (r: Result<bool>)
      modifies this
      ensures AllOrNothing(old(rows), rows, origin, id, record)
      ensures var last, written := if Rotates(origin, id) then 2 else 0, AtomicStore(old(rows), origin, id, record);
              var executed :=
                written.Ok? && fault != LostRequest(last) && (last == 0 || (!Cuts(fault, 0) && !Cuts(fault, 1)));
              && rows == (if executed then written.value else old(rows))
              && r == (if executed && fault != LostAnswer(last) then Ok(true) else Err(SessionConflict))
    {
      r := Err(SessionConflict);
      if Rotates(origin, id) {
        // DELETE, INSERT, COMMIT on the transaction's own view.
        if Cuts(fault, 0) || origin.value !in rows {
          return;
        }
        var view := rows - {origin.value};
        if Cuts(fault, 1) || id in view {
          return;
        }
        view := view[id := record];
        if fault == LostRequest(2) {
          return;
        }
        rows := view;
        if fault == LostAnswer(2) {
          return;
        }
      } else {
        var applies := if origin.Some? then id in rows else id !in rows;
        if fault == LostRequest(0) || !applies {
          return;
        }
        rows := rows[id := record];
        if fault == LostAnswer(0) {
          return;
        }
      }
      r := Ok(true);
    }

    /**
     * A script for rotations, SET XX or SET NX otherwise. A session that has
     * already expired revokes its record instead and is not reported stored.
     */
    method RedisStore(origin: Option<Id>, id: Id, record: Snapshot, now: Time, fault: Fault) returns (r: Result<bool>)
      modifies this
      ensures Expired(record.expiry, now) ==>
                && rows == (if fault == LostRequest(0) then old(rows)
                            else WithoutSource(old(rows), if Rotates(origin, id) then origin else Some(id)))
                && r == (if Cuts(fault, 0) then Err(SessionConflict) else Ok(false))
      ensures !Expired(record.expiry, now) ==>
                var written := AtomicStore(old(rows), origin, id, record);
                && rows == (if written.Ok? && fault != LostRequest(0) then written.value else old(rows))
                && r == (if written.Ok? && !Cuts(fault, 0) then Ok(true) else Err(SessionConflict))
    {
      r := Err(SessionConflict);
      if fault == LostRequest(0) {
        return;
      }
      if record.expiry.Some? && record.expiry.value < now {
        rows := rows - {if Rotates(origin, id) then origin.value else id};
        return if fault == LostAnswer(0) then r else Ok(false);
      }
      if Rotates(origin, id) {
        if origin.value !in rows || id in rows {
          return;
        }
        rows := rows[id := record];
        rows := rows - {origin.value};
        assert rows == (old(rows) - {origin.value})[id := record];
      } else {
        var applies := if origin.Some? then id in rows else id !in rows;
        if !applies {
          return;
        }
        rows := rows[id := record];
      }
      if fault != LostAnswer(0) {
        r := Ok(true);
      }
    }

    /**
     * Without transactions a rotation deletes the source first. It stays
     * `revoked` when the target then collides, or the first answer or the second
     * request is lost; the two identities never coexist.
     */
    method MongoStore(origin: Option<Id>, id: Id, record: Snapshot, fault: Fault) returns (r: Result<bool>)
      modifies this
      ensures var last, written := if Rotates(origin, id) then 1 else 0, AtomicStore(old(rows), origin, id, record);
              var revoked :=
                && Rotates(origin, id) && origin.value in old(rows) && fault != LostRequest(0)
                && (id in old(rows) || fault == LostAnswer(0) || fault == LostRequest(1));
              var executed := written.Ok? && fault != LostRequest(0) && !revoked;
              && rows == (if revoked then WithoutSource(old(rows), origin)
                          else if executed then written.value else old(rows))
              && r == (if executed && fault != LostAnswer(last) then Ok(true) else Err(SessionConflict))
      ensures Rotates(origin, id) && id !in old(rows) ==> !(origin.value in rows && id in rows)
    {
      r := Err(SessionConflict);
      if fault == LostRequest(0) {
        return;
      }
      if Rotates(origin, id) {
        if origin.value !in rows {
          return;
        }
        rows := rows - {origin.value};
        if fault == LostAnswer(0) || fault == LostRequest(1) || id in rows {
          return;
        }
        rows := rows[id := record];
        if fault == LostAnswer(1) {
          return;
        }
      } else {
        var applies := if origin.Some? then id in rows else id !in rows;
        if !applies {
          return;
        }
        rows := rows[id := record];
        if fault == LostAnswer(0) {
          return;
        }
      }
      r := Ok(true);
    }
  }
}
