/**
 * The session object (src/session.rs). Clones share a `FamilyState` and a
 * `SessionData`; each owns its identifier, source, expiry and cookie. Every
 * method is tied to the functions of `Identity` that the protocol is built from.
 */
module Sessions {
  import opened Common
  import opened SaveTracking
  import opened Lifecycles
  import Identity
  import Family

  /** The record captured for a write: identifier, expiry, values and the destruction mark. */
  datatype Snapshot = Snapshot(id: Id, expiry: Option<Time>, values: Values, destroyed: bool)

  predicate Expired(expiry: Option<Time>, now: Time) {
    expiry.Some? && expiry.value < now
  }

  class Session {
    var id: Id
    var expiry: Option<Time>
    var data: SessionData
    var cookie: Option<Id>   // the outgoing cookie, named by the identifier it hashes to
    var metadataChanged: bool
    var family: FamilyState
    var rotationFrom: Option<Id>
    var isFresh: bool

    ghost predicate Valid()
      reads this, data, data.live
    {
      data.Valid() && this in data.owners
    }

    function Handle(): Identity.Handle
      reads this
    {
      Identity.Handle(id, rotationFrom, isFresh)
    }

    /** The session is the only clone of a family that starts as `l`. */
    ghost predicate Starts(l: Identity.Lineage)
      reads this, family
    {
      l.handles == map[0 := Handle()] && l.shared == family.View() && l.isFresh == isFresh
    }

    /** What a save of this session captures. */
    function Image(destroyed: bool): Snapshot
      reads this, data
    {
      Snapshot(id, expiry, data.values, destroyed)
    }

    /** A new session with identifier `id` from the fresh supply. */
    constructor New(id: Id)
      ensures Valid() && fresh(data) && fresh(family)
      ensures Handle() == Identity.Handle(id, None, true) && family.View() == Identity.Shared(None, false, false)
      ensures Starts(Identity.NewLineage(0, id))
      ensures expiry == None && cookie == Some(id) && data.View() == Fresh(map[])
      ensures data.values == map[] && data.activeSaves == 0 && !metadataChanged && !Dirty(data.View())
      ensures fresh(family.lifecycle) && !family.lifecycle.locked && !family.lifecycle.uncertain
    {
      this.id := id;
      expiry, cookie, metadataChanged := None, Some(id), false;
      rotationFrom, isFresh := None, true;
      family := new FamilyState(None);
      data := new SessionData(map[]);
      new;
      data.Share(this);
    }

    /** An independent session with what a record holds, and no persistence bookkeeping. */
    constructor Deserialized(image: Snapshot)
      ensures Valid() && fresh(data) && fresh(family) && data.owners == {this}
      ensures Handle() == Identity.Handle(image.id, None, false)
      ensures family.View() == Identity.Shared(None, false, image.destroyed)
      ensures !image.destroyed ==> Starts(Identity.BareLineage(0, image.id))
      ensures expiry == image.expiry && data.values == image.values && cookie == None
    {
      id, expiry := image.id, image.expiry;
      cookie, metadataChanged := None, false;
      rotationFrom, isFresh := None, false;
      family := new FamilyState(None);
      data := new SessionData(image.values);
      new;
      family.destroy := image.destroyed;
      data.Share(this);
    }

    /** A clone that shares `origin`'s data and family but not its outgoing cookie. */
    constructor CloneOf(origin: Session)
      requires origin.Valid()
      modifies origin.data
      ensures Valid() && data == origin.data && family == origin.family
      ensures Handle() == origin.Handle() && expiry == origin.expiry && metadataChanged == origin.metadataChanged
      ensures cookie == None
      ensures data.View() == old(origin.data.View()) && data.owners == old(origin.data.owners) + {this}
    {
      id, rotationFrom, isFresh := origin.id, origin.rotationFrom, origin.isFresh;
      expiry, cookie, metadataChanged := origin.expiry, None, origin.metadataChanged;
      family, data := origin.family, origin.data;
      new;
      data.Share(this);
    }

    method PersistenceOrigin() returns (r: Result<Option<Id>>)
      ensures r == Identity.PersistenceOrigin(family.View(), Handle())
    {
      var origin := family.persistedId;
      if origin.None? && (!isFresh || family.creationClaimed) {
        return Err(SessionConflict);
      }
      if origin.Some? && origin.value != id && rotationFrom != origin {
        return Err(SessionConflict);
      }
      return Ok(origin);
    }

    method PersistenceAttempt() returns (r: Result<Option<Id>>)
      modifies family
      ensures r == Identity.PersistenceAttempt(old(family.View()), Handle())
      ensures family.View() == Identity.Claim(old(family.View()), Handle())
    {
      if family.destroy {
        return Err(SessionConflict);
      }
      r := PersistenceOrigin();
      if r == Ok(None) {
        if family.creationClaimed {
          return Err(SessionConflict);
        }
        family.creationClaimed := true;
      }
    }

    method MarkPersisted()
      modifies family
      ensures family.View() == Identity.MarkPersisted(old(family.View()), Handle())
    {
      if family.persistedId.None? || rotationFrom == family.persistedId {
        family.persistedId := Some(id);
      }
    }

    method Regenerate(newId: Id)
      modifies this
      ensures Handle() == Identity.Regenerate(family.View(), old(Handle()), newId)
      ensures cookie == Some(newId) && metadataChanged
      ensures data == old(data) && family == old(family) && expiry == old(expiry)
    {
      var origin := family.persistedId;
      if origin == Some(id) || rotationFrom == origin {
        rotationFrom := origin;
      }
      id := newId;
      cookie := Some(newId);
      metadataChanged := true;
    }

    method Destroy()
      modifies family
      ensures family.View() == old(family.View()).(destroyed := true)
    {
      family.destroy := true;
    }

    /** Select the record to delete, then mark the family destroyed. */
    method PrepareDelete() returns (target: Id)
      modifies family
      ensures target == Identity.DeleteTarget(old(family.View()), Handle())
      ensures family.View() == old(family.View()).(destroyed := true)
    {
      var origin := PersistenceOrigin();
      target := match origin case Ok(Some(source)) => source case _ => id;
      family.destroy := true;
    }

    method SetExpiry(expiry: Time)
      modifies this
      ensures this.expiry == Some(expiry)
      ensures metadataChanged == (old(metadataChanged) || old(this.expiry) != Some(expiry))
      ensures Handle() == old(Handle()) && data == old(data) && family == old(family) && cookie == old(cookie)
    {
      if this.expiry != Some(expiry) {
        this.expiry := Some(expiry);
        metadataChanged := true;
      }
    }

    /**
     * Wait for the family's lock before a write to `origin`'s record. A save whose
     * origin was meanwhile replaced gets the guard and drops it at once.
     */
    method BeginGuardedWrite(origin: Option<Id>, receipt: Receipt?, canOutliveFuture: bool)
      returns (r: Result<WriteGuard>)
      requires !family.lifecycle.locked
      modifies family.lifecycle
      ensures old(family.lifecycle.uncertain) ==> r == Err(UncertainWrite)
      ensures !old(family.lifecycle.uncertain) && r.Err? ==> r.error == SessionConflict
      ensures !old(family.lifecycle.uncertain) && family.destroy ==> r.Err?
      ensures !old(family.lifecycle.uncertain) && !family.destroy ==>
                (r.Ok? <==> origin.None? || Identity.PersistenceOrigin(family.View(), Handle()) == Ok(origin))
      ensures r.Ok? ==>
                && fresh(r.value) && r.value.held && !r.value.settled && r.value.family == family
                && r.value.receipt == receipt && r.value.uncertainOnDrop == (origin != Some(id) && canOutliveFuture)
      ensures family.lifecycle.locked == r.Ok?
      ensures family.lifecycle.uncertain ==
              (old(family.lifecycle.uncertain)
               || (!family.destroy && r.Err? && origin != Some(id) && canOutliveFuture))
      ensures var waiting := Family.Save(
                Handle(), origin, canOutliveFuture, Family.Waiting, false, false, Family.Idle, false);
              var after := Family.Acquire(Family.Saving(family.View(), old(family.lifecycle.uncertain), waiting), 0);
              && family.lifecycle.uncertain == after.uncertain
              && family.lifecycle.locked == (after.holder == Family.ByWrite(0))
    {
      var canCreate := origin != Some(id);
      r := Write(family, receipt, canCreate && canOutliveFuture);
      if r.Ok? && origin.Some? {
        var current := PersistenceOrigin();
        if current != Ok(origin) {
          r.value.Drop();
          r := Err(SessionConflict);
        }
      }
    }

    /**
     * Mark destruction, wait for the family's lock, then choose the record to
     * delete. Refused when an earlier creation or rotation is unsettled.
     */
    method BeginDelete() returns (r: Result<DeleteGuard>)
      requires !family.lifecycle.locked
      modifies family, family.lifecycle
      ensures family.View() == old(family.View()).(destroyed := true)
      ensures family.lifecycle.uncertain == old(family.lifecycle.uncertain)
      ensures family.lifecycle.locked == r.Ok?
      ensures family.lifecycle.uncertain ==> r == Err(UncertainWrite)
      ensures !family.lifecycle.uncertain ==>
                && r.Ok? && fresh(r.value) && r.value.held && r.value.family == family
                && r.value.id == Some(Identity.DeleteTarget(old(family.View()), Handle()))
      ensures var after := Family.AcquireForDelete(
                Family.Deleting(family.View(), old(family.lifecycle.uncertain), Handle()), 0);
              && family.lifecycle.uncertain == after.uncertain
              && family.lifecycle.locked == (after.holder == Family.ByDelete(0))
              && (r.Ok? ==> r.value.id == Some(after.deletes[0].target))
    {
      family.destroy := true;
      r := LockForDelete(family);
      if r.Ok? {
        var origin := PersistenceOrigin();
        r.value.id := Some(match origin case Ok(Some(source)) => source case _ => id);
      }
    }

    /** Capture the data and a tracked revision before I/O. */
    method PersistenceSnapshot() returns (snapshot: Snapshot, revision: SaveRevision)
      requires Valid()
      modifies data
      ensures Valid() && data.owners == old(data.owners)
      ensures snapshot == Snapshot(id, expiry, old(data.values), family.destroy)
      ensures fresh(revision) && revision.data == data && revision.revision == old(data.revision)
      ensures data.live == old(data.live) + {revision} && data.View() == Captured(old(data.View()))
    {
      snapshot := Snapshot(id, expiry, data.values, family.destroy);
      revision := new SaveRevision.Capture(data);
    }

    method AcknowledgeRevision(revision: SaveRevision)
      requires Valid() && revision.data == data && revision in data.live
      modifies this, data, revision
      ensures Valid() && data == old(data) && family == old(family) && Handle() == old(Handle())
      ensures data.owners == old(data.owners) && data.live == old(data.live) - {revision}
      ensures old(data.activeSaves) > 0 && data.View() == Acknowledged(old(data.View()), revision.revision)
      ensures !metadataChanged && cookie == old(cookie) && expiry == old(expiry)
    {
      revision.Acknowledge();
      metadataChanged := false;
    }

    /** The end of a confirmed save: publish the identity, acknowledge, release the lock. */
    method Publish(revision: SaveRevision, guard: WriteGuard)
      requires Valid() && revision.data == data && revision in data.live
      requires guard.held && guard.settled && guard.family.lifecycle.locked
      modifies this, data, family, guard.family.lifecycle, revision, guard
      ensures Valid() && Handle() == old(Handle()) && cookie == old(cookie) && expiry == old(expiry)
      ensures data == old(data) && family == old(family) && !metadataChanged
      ensures old(data.activeSaves) > 0 && data.View() == Acknowledged(old(data.View()), revision.revision)
      ensures data.live == old(data.live) - {revision} && data.owners == old(data.owners)
      ensures family.View() == Identity.MarkPersisted(old(family.View()), Handle())
      ensures !guard.held && !guard.family.lifecycle.locked
              && guard.family.lifecycle.uncertain == old(guard.family.lifecycle.uncertain)
    {
      MarkPersisted();
      AcknowledgeRevision(revision);
      guard.Drop();
    }

    method DataChanged() returns (changed: bool)
      ensures changed == (metadataChanged || Dirty(data.View()))
    {
      if metadataChanged {
        return true;
      }
      changed := data.Changed();
    }

    /** The explicit reset: data and metadata are declared saved. */
    method ResetDataChanged()
      requires Valid()
      modifies this`metadataChanged, data
      ensures Valid() && data.live == old(data.live) && data.owners == old(data.owners)
      ensures data.View() == Overridden(old(data.View())) && !metadataChanged
    {
      data.ResetChanged();
      metadataChanged := false;
    }

    /** Stop sharing data with other holders, or restart its tracking in place. */
    method IsolateData()
      requires Valid()
      modifies this`data, data
      ensures Valid() && data.values == old(data.values) && !Dirty(data.View())
      ensures data.activeSaves == 0 && data.owners == {this} && data.live == {}
      ensures old(data.strong) > 1 ==> fresh(data)
      ensures old(data.strong) <= 1 ==> data == old(data) && old(data.live) == {}
    {
      if data.strong > 1 {
        var values := data.values;
        data.Leave(this);
        data := new SessionData(values);
        data.Share(this);
      } else {
        AloneIsCounted(data, this);
        data.Rebase(this);
      }
    }

    /**
     * Turn a record fetched for the cookie that hashes to `expected` into a
     * trusted, isolated session. A shared record's data is copied; otherwise its
     * tracking restarts in place, which happens only when no save is live.
     */
    method ValidateLoaded(expected: Id, now: Time) returns (r: Result<bool>)
      requires Valid()
      modifies this, data
      ensures r == (if id != expected then Err(MisboundRecord)
                    else if expiry.Some? && expiry.value < now then Ok(false)
                    else if old(family.destroy) then Err(SessionConflict)
                    else Ok(true))
      ensures id == old(id) && expiry == old(expiry)
      ensures r != Ok(true) ==> Handle() == old(Handle()) && data == old(data) && family == old(family)
      ensures r == Ok(true) ==>
                && Valid() && fresh(family) && fresh(family.lifecycle)
                && !family.lifecycle.locked && !family.lifecycle.uncertain
                && Handle() == Identity.Handle(expected, None, false) && Starts(Identity.LoadedLineage(0, expected))
                && family.View() == Identity.Shared(Some(expected), false, false)
                && data.values == old(data.values) && !Dirty(data.View())
                && data.activeSaves == 0 && data.owners == {this} && data.live == {}
                && cookie == None && !metadataChanged
                && (old(data.strong) > 1 ==> fresh(data))
                && (old(data.strong) <= 1 ==> data == old(data) && old(data.live) == {})
    {
      if id != expected {
        return Err(MisboundRecord);
      }
      if expiry.Some? && expiry.value < now {
        return Ok(false);
      }
      if family.destroy {
        return Err(SessionConflict);
      }
      IsolateData();
      cookie := None;
      metadataChanged := false;
      family := new FamilyState(Some(id));
      rotationFrom := None;
      isFresh := false;
      return Ok(true);
    }
  }

  lemma AloneIsCounted(data: SessionData, owner: object)
    requires data.Valid() && owner in data.owners
    ensures data.strong >= 1
  {
    assert data.owners - {owner} < data.owners;
  }
}
