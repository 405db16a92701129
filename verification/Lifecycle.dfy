/**
 * The lifecycle lock of a clone family and its guards
 * (src/session_lifecycle.rs). A method that acquires the lock describes the
 * moment the wait ends: the lock is free, and the state is the one found then.
 */
module Lifecycles {
  import opened Common
  import Identity
  import Family

  /** The mutex all clones share, with the uncertain bit it protects. */
  class Lifecycle {
    var locked: bool
    var uncertain: bool

    constructor ()
      ensures !locked && !uncertain
    {
      locked, uncertain := false, false;
    }
  }

  /** The fields all clones of a session point to. */
  class FamilyState {
    var persistedId: Option<Id>
    var creationClaimed: bool
    var destroy: bool
    const lifecycle: Lifecycle

    function View(): Identity.Shared
      reads this
    {
      Identity.Shared(persistedId, creationClaimed, destroy)
    }

    constructor (persistedId: Option<Id>)
      ensures View() == Identity.Shared(persistedId, false, false)
      ensures fresh(lifecycle) && !lifecycle.locked && !lifecycle.uncertain
    {
      this.persistedId := persistedId;
      creationClaimed, destroy := false, false;
      lifecycle := new Lifecycle();
    }
  }

  /** Names one save token; only its identity matters. */
  class Receipt {
    constructor () {}
  }

  /** Held across backend I/O; dropping it releases the lock. */
  class WriteGuard {
    const family: FamilyState
    const receipt: Receipt?
    const uncertainOnDrop: bool
    var settled: bool
    var held: bool

    constructor (family: FamilyState, receipt: Receipt?, uncertainOnDrop: bool)
      ensures this.family == family && this.receipt == receipt && this.uncertainOnDrop == uncertainOnDrop
      ensures held && !settled
    {
      this.family, this.receipt, this.uncertainOnDrop := family, receipt, uncertainOnDrop;
      held, settled := true, false;
    }

    predicate Matches(own: Receipt) {
      receipt == own
    }

    /** The backend confirmed its outcome; destruction may still have won. */
    method Finish() returns (won: bool)
      modifies this
      ensures settled && held == old(held) && won == !family.destroy
    {
      settled := true;
      won := !family.destroy;
    }

    method RequireCleanup()
      modifies this
      ensures !settled && held == old(held)
    {
      settled := false;
    }

    method ConfirmRemoved()
      modifies this
      ensures settled && held == old(held)
    {
      settled := true;
    }

    method Drop()
      requires held && family.lifecycle.locked
      modifies this, family.lifecycle
      ensures !held && settled == old(settled) && !family.lifecycle.locked
      ensures family.lifecycle.uncertain == Family.DropGuard(old(family.lifecycle.uncertain), settled, uncertainOnDrop)
    {
      if !settled && uncertainOnDrop {
        family.lifecycle.uncertain := true;
      }
      family.lifecycle.locked := false;
      held := false;
    }
  }

  /** Take the lock for a write, unless the family is uncertain or destroyed. */
  method Write(family: FamilyState, receipt: Receipt?, uncertainOnDrop: bool) returns (r: Result<WriteGuard>)
    requires !family.lifecycle.locked
    modifies family.lifecycle
    ensures family.lifecycle.uncertain == old(family.lifecycle.uncertain)
    ensures family.lifecycle.uncertain ==> r == Err(UncertainWrite)
    ensures !family.lifecycle.uncertain && family.destroy ==> r == Err(SessionConflict)
    ensures !family.lifecycle.uncertain && !family.destroy ==>
              && r.Ok? && fresh(r.value) && r.value.held && !r.value.settled
              && r.value.family == family && r.value.receipt == receipt && r.value.uncertainOnDrop == uncertainOnDrop
    ensures family.lifecycle.locked == r.Ok?
  {
    if family.lifecycle.uncertain {
      return Err(UncertainWrite);
    }
    if family.destroy {
      return Err(SessionConflict);
    }
    family.lifecycle.locked := true;
    var guard := new WriteGuard(family, receipt, uncertainOnDrop);
    r := Ok(guard);
  }

  /** Held until a deletion has completed; the record to delete is chosen under it. */
  class DeleteGuard {
    const family: FamilyState
    var id: Option<Id>
    var held: bool

    constructor (family: FamilyState)
      ensures this.family == family && id == None && held
    {
      this.family, id, held := family, None, true;
    }

    method Drop()
      requires held && family.lifecycle.locked
      modifies this`held, family.lifecycle
      ensures !held && !family.lifecycle.locked && family.lifecycle.uncertain == old(family.lifecycle.uncertain)
    {
      family.lifecycle.locked := false;
      held := false;
    }
  }

  /** Take the lock for a deletion; destruction does not stop it, uncertainty does. */
  method LockForDelete(family: FamilyState) returns (r: Result<DeleteGuard>)
    requires !family.lifecycle.locked
    modifies family.lifecycle
    ensures family.lifecycle.uncertain == old(family.lifecycle.uncertain)
    ensures family.lifecycle.uncertain ==> r == Err(UncertainWrite)
    ensures !family.lifecycle.uncertain ==> r.Ok? && fresh(r.value) && r.value.family == family && r.value.held
    ensures family.lifecycle.locked == r.Ok?
  {
    if family.lifecycle.uncertain {
      return Err(UncertainWrite);
    }
    family.lifecycle.locked := true;
    var guard := new DeleteGuard(family);
    r := Ok(guard);
  }
}
