/** The stores' records perform the steps of the protocol, identifier for identifier. */
module Refinement {
  import opened Common
  import opened Backend
  import opened Family
  import opened Sessions
  import opened MemoryStores
  import Identity
  import FamilyInvariant
  import Relation
  import RemoteStores

  /** Save `c` holds the family's lock and the store's, and has not written yet. */
  ghost predicate Guards(fm: Family, c: nat, b: Backend, records: Records) {
    && FamilyInvariant.FamilyInv(fm) && c in fm.saves && b.present == records.Keys
    && fm.saves[c].phase == Guarded && !fm.saves[c].net && fm.saves[c].call.Idle?
  }

  /** What the guard keeps true of the save that holds it. */
  lemma HolderDescends(fm: Family, c: nat)
    requires FamilyInvariant.FamilyInv(fm) && c in fm.saves && Active(fm.saves[c])
    ensures fm.saves[c].origin == fm.lin.shared.persisted
    ensures fm.saves[c].origin.Some? ==>
              Identity.PersistenceOrigin(fm.lin.shared, fm.saves[c].h) == Ok(fm.saves[c].origin)
  {
    assert FamilyInvariant.SaveInv(fm, fm.saves[c]);
  }

  /**
   * The locked write is one accepted protocol step or leaves everything alone,
   * and its re-read origin is the one the guard was granted for.
   */
  lemma LockedWriteIsOneStep(fm: Family, c: nat, b: Backend, records: Records, record: Snapshot)
    requires Guards(fm, c, b, records)
    ensures var s := fm.saves[c];
            var checked := Checked(records, s.h, fm.lin.shared, s.origin, record);
            && (checked.Ok? <==> Can(fm, LocalWrite(c)) && Accepts(b, EffectOf(s, WriteOp)))
            && (checked.Ok? ==> Relation.After(fm, LocalWrite(c), b).1.present == checked.value.Keys)
  {
    HolderDescends(fm, c);
    AtomicStoreRefinesBackend(records, b, fm.saves[c], record);
    hide FamilyInvariant.FamilyInv, Identity.PersistenceOrigin, AtomicStore, Accepts, Exec;
  }

  /**
   * Concluding an accepted locked write publishes the identity and keeps the
   * records; when destruction came first, it leaves the family's identity alone
   * and the records without the target and without a rotation's source.
   */
  lemma LockedWriteConcludes(fm: Family, c: nat, b: Backend, records: Records, record: Snapshot)
    requires Guards(fm, c, b, records)
    requires Checked(records, fm.saves[c].h, fm.lin.shared, fm.saves[c].origin, record).Ok?
    ensures Can(fm, LocalWrite(c))
    ensures var s, sh := fm.saves[c], fm.lin.shared;
            var (written, b') := Relation.After(fm, LocalWrite(c), b);
            var doomed := written.(lin := Destroyed(written.lin));
            && Can(written, Finish(c)) && Can(doomed, Finish(c))
            && Relation.After(written, Finish(c), b').1 == b'
            && Relation.After(written, Finish(c), b').0.lin.shared == Identity.MarkPersisted(sh, s.h)
            && Relation.After(doomed, Finish(c), b').1.present == Undone(records, s.h.id, sh.persisted, s.origin).Keys
            && Relation.After(doomed, Finish(c), b').0.lin.shared == sh.(destroyed := true)
  {
    LockedWriteIsOneStep(fm, c, b, records, record);
    HolderDescends(fm, c);
    WriteIsAnswered(fm, c, b);
    UndoneIsRemoved(records, fm.saves[c].h, fm.lin.shared, fm.saves[c].origin, record);
    var (written, b') := Relation.After(fm, LocalWrite(c), b);
    hide *;
    ConclusionOf(written, c, b');
    ConclusionOf(written.(lin := Destroyed(written.lin)), c, b');
    DestroyedShares(fm);
  }

  lemma DestroyedShares(fm: Family)
    ensures Destroyed(fm.lin).shared == fm.lin.shared.(destroyed := true)
  {
  }

  ghost predicate Answered(s: Save) {
    s.phase == Guarded && !s.net && s.call == Acked(WriteOp, true)
  }

  lemma WriteIsAnswered(fm: Family, c: nat, b: Backend)
    requires Can(fm, LocalWrite(c)) && Accepts(b, EffectOf(fm.saves[c], WriteOp))
    ensures var written := Relation.After(fm, LocalWrite(c), b).0;
            && c in written.saves && Answered(written.saves[c]) && written.saves[c].h == fm.saves[c].h
            && written.lin == fm.lin && !fm.lin.shared.destroyed
  {
  }

  lemma ConclusionOf(written: Family, c: nat, b: Backend)
    requires c in written.saves && Answered(written.saves[c])
    ensures Can(written, Finish(c))
    ensures var (concluded, b') := Relation.After(written, Finish(c), b);
            if written.lin.shared.destroyed then
              b'.present == b.present - {written.saves[c].h.id} && concluded.lin == written.lin
            else
              b' == b && concluded.lin.shared == Identity.MarkPersisted(written.lin.shared, written.saves[c].h)
  {
  }

  /** Taking the target back out of the written records leaves exactly what destruction should. */
  lemma UndoneIsRemoved(
      records: Records, h: Identity.Handle, sh: Identity.Shared, attempted: Option<Id>, record: Snapshot)
    requires Checked(records, h, sh, attempted, record).Ok?
    requires attempted.Some? ==> sh.persisted == attempted
    ensures Checked(records, h, sh, attempted, record).value - {h.id} == Undone(records, h.id, sh.persisted, attempted)
  {
  }

  /**
   * The two statements of a rotation without transactions: after the first the
   * source alone is gone, and the second completes the atomic rotation unless
   * the target collides.
   */
  lemma TwoStatementsRotate(s: Save, b: Backend, records: Records, record: Snapshot)
    requires s.origin.Some? && Creating(s) && b.present == records.Keys
    ensures var dropped := Exec(b, EffectOf(s, DropSource));
            var inserted := Exec(dropped, EffectOf(s, InsertTarget));
            && (Accepts(b, EffectOf(s, DropSource)) <==> s.origin.value in records)
            && dropped.present == RemoteStores.WithoutSource(records, s.origin).Keys
            && (Accepts(b, EffectOf(s, DropSource)) ==>
                  (Accepts(dropped, EffectOf(s, InsertTarget)) <==>
                   AtomicStore(records, s.origin, s.h.id, record).Ok?))
            && (AtomicStore(records, s.origin, s.h.id, record).Ok? ==>
                  && inserted.present == AtomicStore(records, s.origin, s.h.id, record).value.Keys
                  && inserted == Exec(b, EffectOf(s, WriteOp)))
  {
    var source := s.origin.value;
    var dropped := Exec(b, EffectOf(s, DropSource));
    assert dropped.present == b.present - {source};
    if AtomicStore(records, s.origin, s.h.id, record).Ok? {
      AtomicStoreRefinesBackend(records, b, s, record);
      assert Exec(dropped, EffectOf(s, InsertTarget)).present == b.present - {source} + {s.h.id};
    }
  }

  /** An expired save revokes the record its handle was persisted under. */
  lemma ExpiredSaveRevokes(s: Save, b: Backend, records: Records)
    requires b.present == records.Keys
    ensures Exec(b, EffectOf(s, Revoke)).present
            == RemoteStores.WithoutSource(records, if s.origin.Some? then s.origin else Some(s.h.id)).Keys
  {
  }
}
