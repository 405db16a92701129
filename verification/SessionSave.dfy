/**
 * The public save token (src/session_save.rs): one captured snapshot, at most one
 * guarded attempt, and a completion that acknowledges only that snapshot.
 */
module SessionSaves {
  import opened Common
  import opened SaveTracking
  import opened Lifecycles
  import opened Sessions
  import Identity
  import Family

  /** What a token captures for the backend. */
  datatype SessionSnapshot = SessionSnapshot(id: Id, expiry: Option<Time>, values: Values)

  /** How the protocol concludes a confirmed network save, and abandons it if destruction came first. */
  lemma ConfirmedConcludes(sh: Identity.Shared, uncertain: bool, s: Family.Save)
    requires s.phase == Family.Guarded && s.net && !s.settled && s.call == Family.Acked(Family.WriteOp, true)
    ensures var done := Family.Conclude(Family.Saving(sh, uncertain, s), 0);
            && 0 in done.saves
            && done.lin.shared == (if sh.destroyed then sh else Identity.MarkPersisted(sh, s.h))
            && (done.saves[0].phase == Family.Ended <==> !sh.destroyed)
            && (!sh.destroyed ==> done.uncertain == uncertain)
            && (sh.destroyed ==>
                  Family.Release(done, 0, done.saves[0]).uncertain == (uncertain || s.origin != Some(s.h.id)))
  {
  }

  class SessionSave {
    const source: Session
    const snapshot: SessionSnapshot
    const revision: SaveRevision
    const origin: Option<Id>
    const receipt: Receipt
    var writeStarted: bool
    ghost var guards: set<WriteGuard>   // every guard ever handed out for this token

    ghost predicate Valid()
      reads this, source, source.data, source.data.live, revision
    {
      && source.Valid() && revision.data == source.data && revision in source.data.live
      && snapshot.id == source.id
      && (forall g :: g in guards ==> g.receipt == receipt && g.uncertainOnDrop == (origin != Some(snapshot.id)))
      && |guards| <= (if writeStarted then 1 else 0)
      // What the origin check established when the token was made.
      && (origin.Some? && origin.value != source.id ==> source.rotationFrom == origin)
    }

    constructor Capture(source: Session, origin: Option<Id>)
      requires source.Valid()
      requires origin.Some? && origin.value != source.id ==> source.rotationFrom == origin
      modifies source.data
      ensures Valid() && this.source == source && this.origin == origin && !writeStarted && fresh(receipt)
      ensures snapshot == SessionSnapshot(source.id, source.expiry, old(source.data.values))
      ensures revision.revision == old(source.data.revision) && fresh(revision)
      ensures source.data.View() == Captured(old(source.data.View()))
    {
      this.source, this.origin := source, origin;
      var image, taken := source.PersistenceSnapshot();
      snapshot, revision := SessionSnapshot(image.id, image.expiry, image.values), taken;
      receipt := new Receipt();
      writeStarted, guards := false, {};
    }

    /** The save of the protocol that this token performs, once its write is confirmed. */
    ghost function Confirmed(): Family.Save
      reads this, source
    {
      Family.Save(source.Handle(), origin, true, Family.Guarded, true, false, Family.Acked(Family.WriteOp, true),
                  origin != Some(source.id))
    }

    method BeginWrite() returns (r: Result<WriteGuard>)
      requires Valid() && !source.family.lifecycle.locked
      modifies this, source.family.lifecycle
      ensures Valid() && writeStarted
      ensures old(writeStarted) ==> r == Err(SessionConflict) && guards == old(guards)
      ensures r.Ok? ==>
                && guards == {r.value} && r.value.receipt == receipt && r.value.held && !r.value.settled
                && r.value.family == source.family && fresh(r.value)
                && r.value.uncertainOnDrop == (origin != Some(snapshot.id))
      ensures !old(writeStarted) ==>
                (r.Ok? <==>
                   && !old(source.family.lifecycle.uncertain) && !source.family.destroy
                   && (origin.None? ||
                       Identity.PersistenceOrigin(source.family.View(), source.Handle()) == Ok(origin)))
      ensures source.family.lifecycle.uncertain ==
              (old(source.family.lifecycle.uncertain)
               || (!old(writeStarted) && !source.family.destroy && r.Err? && origin != Some(snapshot.id)))
      ensures source.family.lifecycle.locked == r.Ok?
    {
      if writeStarted {
        return Err(SessionConflict);
      }
      writeStarted := true;
      r := source.BeginGuardedWrite(origin, receipt, true);
      if r.Ok? {
        guards := {r.value};
      }
    }

    /** The end of a token that reports nothing: release the lock and the save's slot. */
    method Withdraw(guard: WriteGuard)
      requires Valid() && guard.held && guard.family.lifecycle.locked
      modifies guard, guard.family.lifecycle, source.data, revision
      ensures !guard.held && !guard.family.lifecycle.locked && guard.settled == old(guard.settled)
      ensures guard.family.lifecycle.uncertain
              == Family.DropGuard(old(guard.family.lifecycle.uncertain), guard.settled, guard.uncertainOnDrop)
      ensures old(source.data.activeSaves) > 0 && source.data.View() == Released(old(source.data.View()))
    {
      guard.Drop();
      revision.Drop();
    }

    /**
     * Report a confirmed guarded write. It succeeds exactly with a guard handed
     * out for this token, while the family is not destroyed; only then is
     * anything published or acknowledged.
     */
    method CompleteWithGuard(guard: WriteGuard) returns (r: Result<Option<Id>>)
      requires Valid() && guard.held && guard.family.lifecycle.locked
      modifies guard, guard.family.lifecycle, source, source.family, source.data, revision
      ensures r.Ok? <==> guard.receipt == receipt && !old(guard.family.destroy)
      ensures !guard.held && !guard.family.lifecycle.locked
      ensures r.Ok? ==>
                && source.family.View() == Identity.MarkPersisted(old(source.family.View()), source.Handle())
                && (old(source.family.persistedId) == origin ==> source.family.persistedId == Some(snapshot.id))
                && old(source.data.activeSaves) > 0
                && source.data.View() == Acknowledged(old(source.data.View()), revision.revision)
                && r.value == old(source.cookie) && !source.metadataChanged
                && guard.family.lifecycle.uncertain == old(guard.family.lifecycle.uncertain)
      ensures r.Err? ==>
                && r.error == SessionConflict
                && source.family.View() == old(source.family.View())
                && old(source.data.activeSaves) > 0
                && source.data.View() == Released(old(source.data.View()))
                && source.metadataChanged == old(source.metadataChanged)
                && guard.family.lifecycle.uncertain ==
                   Family.DropGuard(old(guard.family.lifecycle.uncertain),
                                    guard.receipt != receipt && old(guard.settled), guard.uncertainOnDrop)
      ensures guard in guards && guard.family == source.family ==>
                var done := Family.Conclude(
                  Family.Saving(old(source.family.View()), old(guard.family.lifecycle.uncertain), Confirmed()), 0);
                && source.family.View() == done.lin.shared
                && (r.Ok? <==> done.saves[0].phase == Family.Ended)
                && guard.family.lifecycle.uncertain ==
                   if r.Ok? then done.uncertain else Family.Release(done, 0, done.saves[0]).uncertain
      ensures source.Handle() == old(source.Handle()) && source.data == old(source.data)
      ensures source.family == old(source.family)
    {
      ConfirmedConcludes(source.family.View(), guard.family.lifecycle.uncertain, Confirmed());
      hide Family.Conclude, Family.Saving, Family.Release, Identity.MarkPersisted, Acknowledged, Released;
      if !guard.Matches(receipt) {
        Withdraw(guard);
        return Err(SessionConflict);
      }
      var won := guard.Finish();
      if !won {
        guard.RequireCleanup();
        Withdraw(guard);
        return Err(SessionConflict);
      }
      source.Publish(revision, guard);
      r := Ok(source.cookie);
    }

    /** Release a waiting deletion after the written record was removed again. */
    method ConfirmRemoved(guard: WriteGuard) returns (r: Result<bool>)
      requires Valid() && guard.held && guard.family.lifecycle.locked
      modifies guard, guard.family.lifecycle, source.data, revision
      ensures r.Ok? <==> guard.receipt == receipt
      ensures !guard.held && !guard.family.lifecycle.locked
      ensures old(source.data.activeSaves) > 0 && source.data.View() == Released(old(source.data.View()))
      ensures guard.family.lifecycle.uncertain ==
              Family.DropGuard(
                old(guard.family.lifecycle.uncertain), r.Ok? || old(guard.settled), guard.uncertainOnDrop)
    {
      if guard.Matches(receipt) {
        guard.ConfirmRemoved();
        r := Ok(true);
      } else {
        r := Err(SessionConflict);
      }
      Withdraw(guard);
    }

    method ValidateCurrent() returns (current: bool)
      ensures current <==>
                !source.family.destroy
                && (origin.Some? ==>
                      Identity.PersistenceOrigin(source.family.View(), source.Handle()) == Ok(origin))
    {
      if source.family.destroy {
        return false;
      }
      if origin.Some? {
        var now := source.PersistenceOrigin();
        return now == Ok(origin);
      }
      return true;
    }

    /** The unguarded completion: silent for a destroyed family or a token that began a guarded write. */
    method Complete() returns (cookie: Option<Id>)
      requires Valid()
      modifies source, source.family, source.data, revision
      ensures source.family.destroy == old(source.family.destroy)
      ensures writeStarted || old(source.family.destroy) ==>
                && cookie == None
                && source.family.View() == old(source.family.View())
                && old(source.data.activeSaves) > 0
                && source.data.View() == Released(old(source.data.View()))
      ensures !writeStarted && !old(source.family.destroy) ==>
                && cookie == old(source.cookie)
                && source.family.View() == Identity.MarkPersisted(old(source.family.View()), source.Handle())
                && old(source.data.activeSaves) > 0
                && source.data.View() == Acknowledged(old(source.data.View()), revision.revision)
      ensures source.Handle() == old(source.Handle()) && source.data == old(source.data)
    {
      if source.family.destroy || writeStarted {
        revision.Drop();
        return None;
      }
      source.MarkPersisted();
      source.AcknowledgeRevision(revision);
      cookie := source.cookie;
    }
  }

  /** Capture a session for saving; a fresh session's creation authority is consumed here. */
  method PrepareSave(source: Session) returns (r: Result<SessionSave>)
    requires source.Valid()
    modifies source.family, source.data
    ensures source.family.View() == Identity.Claim(old(source.family.View()), source.Handle())
    ensures r.Ok? <==> Identity.PersistenceAttempt(old(source.family.View()), source.Handle()).Ok?
    ensures r.Err? ==> source.data.View() == old(source.data.View())
    ensures r.Ok? ==>
              && fresh(r.value) && r.value.Valid() && r.value.source == source && !r.value.writeStarted
              && fresh(r.value.revision) && r.value.revision.revision == old(source.data.revision)
              && Ok(r.value.origin) == Identity.PersistenceAttempt(old(source.family.View()), source.Handle())
              && r.value.snapshot ==
                 SessionSnapshot(source.id, source.expiry, old(source.data.values))
              && source.data.View() == Captured(old(source.data.View()))
  {
    var attempt := source.PersistenceAttempt();
    if attempt.Err? {
      return Err(attempt.error);
    }
    var save := new SessionSave.Capture(source, attempt.value);
    r := Ok(save);
  }
}
