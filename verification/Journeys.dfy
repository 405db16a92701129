/**
 * What a request can do with the in-memory store when nothing else interferes, in
 * terms of records and fields alone: first save, edit, rotation, logout, and what
 * a clone left behind can no longer do.
 */
module Journeys {
  import opened Common
  import opened SaveTracking
  import opened Lifecycles
  import opened Sessions
  import opened SessionSaves
  import opened MemoryStores
  import Identity

  ghost predicate AtRest(store: MemoryStore, session: Session)
    reads store.inner, session, session.data, session.data.live, session.family, session.family.lifecycle
  {
    store.inner.Valid() && session.Valid() && !session.family.lifecycle.locked
  }

  /**
   * A first save needs its authority and a free identifier. Any other needs the
   * stored record of the persisted identity, which it either updates or, if the
   * session was regenerated from it, replaces under a free identifier.
   */
  ghost predicate MaySave(records: Records, session: Session)
    reads session, session.family, session.family.lifecycle
  {
    && !session.family.destroy && !session.family.lifecycle.uncertain
    && match session.family.persistedId
       case None => session.isFresh && !session.family.creationClaimed && session.id !in records
       case Some(source) =>
         && source in records
         && (session.id == source || (session.rotationFrom == Some(source) && session.id !in records))
  }

  function Source(persisted: Option<Id>): set<Id> {
    if persisted.Some? then {persisted.value} else {}
  }

  /** A save alone, decided and described by the fields of the session. */
  method SaveUndisturbed(store: MemoryStore, session: Session) returns (r: Result<Option<Id>>)
    requires AtRest(store, session)
    modifies store.inner, session, session.data, session.family, session.family.lifecycle
    ensures AtRest(store, session) && session.Handle() == old(session.Handle()) && session.expiry == old(session.expiry)
    ensures session.data == old(session.data) && session.family == old(session.family)
    ensures r.Ok? <==> old(MaySave(store.inner.records, session))
    ensures r.Ok? ==>
              && r.value == old(session.cookie)
              && store.inner.records ==
                 (old(store.inner.records) - Source(old(session.family.persistedId)))
                 [session.id := Snapshot(session.id, old(session.expiry), old(session.data.values), false)]
              && session.family.persistedId == Some(session.id)
              && !session.metadataChanged && (old(session.data.activeSaves) == 0 ==> !Dirty(session.data.View()))
    ensures r.Err? ==>
              && store.inner.records == old(store.inner.records)
              && session.family.persistedId == old(session.family.persistedId)
    ensures session.family.destroy == old(session.family.destroy)
            && session.family.lifecycle == old(session.family.lifecycle)
            && session.family.lifecycle.uncertain == old(session.family.lifecycle.uncertain)
    ensures session.data.values == old(session.data.values)
            && session.data.activeSaves == old(session.data.activeSaves)
            && session.data.live == old(session.data.live) && session.data.owners == old(session.data.owners)
  {
    var now := Scene(store.inner.records, session.family.View());
    SaveAlone(now, session.Handle(), session.Image(false), session.family.lifecycle.uncertain, false);
    SavedUnlessEdited(session.data.View(), []);
    r := store.StoreSession(session, Alone(false));
  }

  /** A stored record that carries its own identifier and has not expired. */
  ghost predicate Loadable(records: Records, id: Id, now: Time) {
    && id in records && records[id].id == id && !records[id].destroyed
    && (records[id].expiry.Some? ==> now <= records[id].expiry.value)
  }

  /** A new session stores its values under its own identifier and is found again. */
  method CreateAndReload(store: MemoryStore, id: Id, key: string, value: string, now: Time) returns (reloaded: Session)
    requires store.inner.Valid() && id !in store.inner.records
    modifies store.inner
    ensures store.inner.Valid()
    ensures store.inner.records == old(store.inner.records)[id := Snapshot(id, None, map[key := value], false)]
    ensures IsolatedLoaded(reloaded, id) && reloaded.data.values == map[key := value]
  {
    var session := new Session.New(id);
    session.data.Insert(key, value);
    var saved := SaveUndisturbed(store, session);
    var loaded := store.LoadSession(id, now, now);
    reloaded := loaded.value.value;
  }

  /** A loaded session that is edited and saved is found again with the edit, and nothing else changes. */
  method EditAndReload(store: MemoryStore, id: Id, key: string, value: string, now: Time) returns (reloaded: Session)
    requires store.inner.Valid() && Loadable(store.inner.records, id, now)
    modifies store.inner
    ensures store.inner.Valid()
    ensures var before := old(store.inner.records)[id];
            && store.inner.records ==
               old(store.inner.records)[id := before.(values := before.values[key := value])]
            && IsolatedLoaded(reloaded, id)
            && reloaded.data.values == before.values[key := value] && reloaded.expiry == before.expiry
  {
    var loaded := store.LoadSession(id, now, now);
    var session := loaded.value.value;
    session.data.Insert(key, value);
    var saved := SaveUndisturbed(store, session);
    assert store.inner.records ==
           old(store.inner.records)[id := Snapshot(id, session.expiry, session.data.values, false)];
    var again := store.LoadSession(id, now, now);
    reloaded := again.value.value;
  }

  /** Regenerate any number of times before saving. */
  method RegenerateAll(session: Session, ids: seq<Id>)
    requires session.family.persistedId == Some(session.id) || session.rotationFrom == session.family.persistedId
    modifies session
    ensures session.data == old(session.data) && session.family == old(session.family)
    ensures session.expiry == old(session.expiry) && session.isFresh == old(session.isFresh)
    ensures ids == [] ==> session.Handle() == old(session.Handle()) && session.cookie == old(session.cookie)
    ensures ids != [] ==>
              && session.id == ids[|ids| - 1] && session.cookie == Some(session.id)
              && session.rotationFrom == session.family.persistedId
  {
    for k := 0 to |ids|
      invariant session.data == old(session.data) && session.family == old(session.family)
      invariant session.expiry == old(session.expiry) && session.isFresh == old(session.isFresh)
      invariant k == 0 ==> session.Handle() == old(session.Handle()) && session.cookie == old(session.cookie)
      invariant k > 0 ==>
                  && session.id == ids[k - 1] && session.cookie == Some(session.id)
                  && session.rotationFrom == session.family.persistedId
    {
      session.Regenerate(ids[k]);
    }
  }

  /**
   * A loaded session, regenerated any number of times and saved, replaces its
   * record by one under the last identifier: the old cookie no longer loads, the
   * new one finds the same values.
   */
  method RotateAndReload(store: MemoryStore, id: Id, ids: seq<Id>, now: Time)
    returns (cookie: Option<Id>, stale: Result<Option<Session>>, reloaded: Session)
    requires store.inner.Valid() && Loadable(store.inner.records, id, now)
    requires ids != [] && ids[|ids| - 1] != id && ids[|ids| - 1] !in store.inner.records
    modifies store.inner
    ensures store.inner.Valid() && cookie == Some(ids[|ids| - 1]) && stale == Ok(None)
    ensures var before, target := old(store.inner.records)[id], ids[|ids| - 1];
            && store.inner.records == (old(store.inner.records) - {id})[target := before.(id := target)]
            && IsolatedLoaded(reloaded, target)
            && reloaded.data.values == before.values && reloaded.expiry == before.expiry
  {
    var loaded := store.LoadSession(id, now, now);
    var session := loaded.value.value;
    RegenerateAll(session, ids);
    var saved := SaveUndisturbed(store, session);
    cookie := saved.value;
    stale := store.LoadSession(id, now, now);
    var again := store.LoadSession(session.id, now, now);
    reloaded := again.value.value;
  }

  /**
   * Logging out a loaded session, even after any number of unsaved regenerations,
   * removes exactly its record; the session can never be saved again.
   */
  method Logout(store: MemoryStore, id: Id, ids: seq<Id>, now: Time)
    returns (done: Result<bool>, late: Result<Option<Id>>)
    requires store.inner.Valid() && Loadable(store.inner.records, id, now)
    modifies store.inner
    ensures store.inner.Valid() && done == Ok(true) && late.Err?
    ensures store.inner.records == old(store.inner.records) - {id}
  {
    var loaded := store.LoadSession(id, now, now);
    var session := loaded.value.value;
    RegenerateAll(session, ids);
    done := store.DestroySession(session);
    late := SaveUndisturbed(store, session);
  }

  /** Deleting a session that was never saved removes at most a record under its own identifier. */
  method DiscardNew(store: MemoryStore, id: Id) returns (done: Result<bool>)
    requires store.inner.Valid()
    modifies store.inner
    ensures store.inner.Valid() && done == Ok(true) && store.inner.records == old(store.inner.records) - {id}
  {
    var session := new Session.New(id);
    done := store.DestroySession(session);
  }

  /** A clone that does not descend from the persisted identity is regenerated any number of times. */
  method RegenerateBehind(clone: Session, ids: seq<Id>)
    requires clone.family.persistedId.Some? && clone.id != clone.family.persistedId.value
    requires clone.rotationFrom != clone.family.persistedId && clone.family.persistedId.value !in ids
    modifies clone
    ensures clone.data == old(clone.data) && clone.family == old(clone.family)
    ensures clone.id != clone.family.persistedId.value && clone.rotationFrom != clone.family.persistedId
  {
    for k := 0 to |ids|
      invariant clone.data == old(clone.data) && clone.family == old(clone.family)
      invariant clone.id != clone.family.persistedId.value && clone.rotationFrom != clone.family.persistedId
    {
      clone.Regenerate(ids[k]);
    }
  }

  /**
   * After one clone has rotated the session, another can neither save nor delete
   * the replacement, however often it is regenerated.
   */
  method LeaveCloneBehind(store: MemoryStore, id: Id, target: Id, ids: seq<Id>, now: Time)
    returns (saved: Result<Option<Id>>, late: Result<Option<Id>>, done: Result<bool>)
    requires store.inner.Valid() && Loadable(store.inner.records, id, now)
    requires target != id && target !in store.inner.records && target !in ids
    modifies store.inner
    ensures store.inner.Valid() && saved == Ok(Some(target)) && late.Err?
    ensures target in store.inner.records && id !in store.inner.records
    ensures store.inner.records[target] == old(store.inner.records)[id].(id := target)
  {
    var loaded := store.LoadSession(id, now, now);
    var session := loaded.value.value;
    var clone := new Session.CloneOf(session);
    session.Regenerate(target);
    saved := SaveUndisturbed(store, session);
    RegenerateBehind(clone, ids);
    late := SaveUndisturbed(store, clone);
    done := store.DestroySession(clone);
  }

  /** A loaded session saved through a token: written under the guard, completed, published and clean. */
  method CompleteToken(session: Session, id: Id) returns (r: Result<Option<Id>>)
    requires IsolatedLoaded(session, id)
    modifies session, session.data, session.family, session.family.lifecycle
    ensures r == Ok(None) && session.family == old(session.family) && session.family.persistedId == Some(id)
    ensures !session.family.lifecycle.locked && !session.family.lifecycle.uncertain
    ensures !session.metadataChanged
    ensures !session.data.uncertainSave && session.data.revision == session.data.persistedRevision
  {
    var prepared := PrepareSave(session);
    var save := prepared.value;
    var guard := save.BeginWrite();
    r := save.CompleteWithGuard(guard.value);
  }

  /**
   * A token whose guard is dropped unconfirmed: deletion of the family is refused
   * afterwards exactly if the write was a rotation, and the data is dirty.
   */
  method AbandonToken(session: Session, id: Id, ids: seq<Id>) returns (r: Result<DeleteGuard>)
    requires IsolatedLoaded(session, id) && id !in ids
    modifies session, session.data, session.family, session.family.lifecycle
    ensures r.Ok? <==> ids == []
    ensures r.Ok? ==> r.value.id == Some(id)
    ensures session.data == old(session.data) && session.data.uncertainSave
  {
    RegenerateAll(session, ids);
    var prepared := PrepareSave(session);
    var save := prepared.value;
    var guard := save.BeginWrite();
    guard.value.Drop();
    save.revision.Drop();
    r := session.BeginDelete();
  }

  /** Clones of a new session share one authority to create its record: it is used up when the first save starts. */
  method ClaimOnce(id: Id) returns (first: bool, second: bool)
    ensures first && !second
  {
    var session := new Session.New(id);
    var clone := new Session.CloneOf(session);
    var origin := session.PersistenceAttempt();
    var again := clone.PersistenceAttempt();
    first, second := origin == Ok(None), again.Ok?;
  }
}
