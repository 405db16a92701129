/** What the session protocol promises over every execution. */
module Guarantees {
  import opened Common
  import Identity
  import opened Backend
  import opened Family
  import opened FamilyInvariant
  import opened Protocol
  import opened Relation
  import opened Roots
  import opened Invariant

  // ----- No resurrection -----

  lemma NextFollows(s: State, a: Action)
    requires GlobalInv(s) && Allowed(s, a)
    ensures exists added :: Follows(s.backend, Next(s, a).backend, added)
  {
    match a
    case Act(f, t) =>
      ActedFamily(s, f, t);
      NextOfAct(s, f, t);
      assert Follows(s.backend, Next(s, a).backend, Added(s.families[f], t));
    case Lose(ids) =>
      PurgeFollows(s.backend, ids);
      assert Follows(s.backend, Next(s, a).backend, {});
    case _ => assert Follows(s.backend, Next(s, a).backend, {});
  }

  /** An identifier that was inserted and removed never returns, whoever saves, rotates or deletes. */
  lemma {:induction false} NoResurrection(states: seq<State>, acts: seq<Action>, k: nat, j: nat, id: Id)
    requires Execution(states, acts) && k <= j < |states|
    requires id in states[k].backend.inserted && id !in states[k].backend.present
    ensures id in states[j].backend.inserted && id !in states[j].backend.present
    decreases j - k
  {
    hide GlobalInv, Allowed, Next;
    if k < j {
      RunKeeps(states, acts, k);
      NextFollows(states[k], acts[k]);
      NoResurrection(states, acts, k + 1, j, id);
    }
  }

  /** Every identifier enters the store at most once, and only recorded insertions are present. */
  lemma {:induction false} EntersAtMostOnce(states: seq<State>, acts: seq<Action>, k: nat)
    requires Execution(states, acts) && k < |states|
    ensures var b := states[k].backend;
            && (forall i, j :: 0 <= i < j < |b.log| ==> b.log[i] != b.log[j])
            && (forall i :: 0 <= i < |b.log| ==> b.log[i] in b.inserted)
            && b.present <= b.inserted
  {
    RunKeeps(states, acts, k);
  }

  // ----- Rotation chains -----

  /**
   * At most one identifier of a rotation chain is ever present, and one source
   * has at most one successor however many clones or independent loads race.
   */
  lemma {:induction false} OneLiveRecordPerChain(states: seq<State>, acts: seq<Action>, k: nat)
    requires Execution(states, acts) && k < |states|
    ensures var b := states[k].backend;
            && (forall i, j :: i in b.present && j in b.present && RootOf(b, i) == RootOf(b, j) ==> i == j)
            && (forall i, j :: i in b.parent && j in b.parent && b.parent[i] == b.parent[j] ==> i == j)
            && (forall i :: i in b.parent ==> b.parent[i] !in b.present && RootOf(b, i) == RootOf(b, b.parent[i]))
            && (forall i {:trigger RootOf(b, i)} :: i in b.inserted && i !in b.parent ==> RootOf(b, i) == i)
  {
    hide FamilyInv, Relates, Ownership, Execution, RootsWf, RootOf;
    RunKeeps(states, acts, k);
  }

  // ----- Live identifiers -----

  /** A save that was dropped while its creating write was unsettled. */
  ghost predicate LeftUnsettled(s: Save) {
    s.phase == Ended && s.guarded && s.net && Creating(s) && !s.settled
  }

  lemma LiveInFamily(fm: Family, b: Backend, id: Id)
    requires FamilyInv(fm) && LiveIds(fm, b) && id in fm.lin.sources && id in b.present
    ensures || fm.lin.shared.persisted == Some(id)
            || (fm.holder.ByWrite? && fm.holder.save in fm.saves && fm.saves[fm.holder.save].h.id == id)
            || (fm.uncertain && exists c :: c in fm.saves && LeftUnsettled(fm.saves[c]) && fm.saves[c].h.id == id)
  {
    if OpenLanded(fm, id) {
      var c :| c in fm.saves && Open(fm.saves[c]) && fm.saves[c].landed && fm.saves[c].h.id == id;
      assert SaveInv(fm, fm.saves[c]);
      assert fm.holder != ByWrite(c) ==> LeftUnsettled(fm.saves[c]);
    }
  }

  /**
   * The identifiers a family holds that are present in the backend: its
   * persisted identity, the target of the write guard now held, or, only if the
   * family is uncertain, the target of an unsettled creation or rotation.
   */
  lemma {:induction false} LiveIdentifiers(states: seq<State>, acts: seq<Action>, k: nat, f: nat, id: Id)
    requires Execution(states, acts) && k < |states|
    requires f in states[k].families && !Bare(states[k].families[f])
    requires id in HeldIds(states[k].families[f]) && id in states[k].backend.present
    ensures var fm := states[k].families[f];
            || fm.lin.shared.persisted == Some(id)
            || (fm.holder.ByWrite? && fm.holder.save in fm.saves && fm.saves[fm.holder.save].h.id == id)
            || (fm.uncertain && exists c :: c in fm.saves && LeftUnsettled(fm.saves[c]) && fm.saves[c].h.id == id)
  {
    RunKeepsFamily(states, acts, k, f);
    hide FamilyInv, LiveIds, Execution, LeftUnsettled;
    LiveInFamily(states[k].families[f], states[k].backend, id);
  }

  // ----- The uncertainty fence -----

  /** Guards exclude each other, and every earlier write that could outlive its future is settled. */
  ghost predicate Fenced(fm: Family) {
    && (forall c, c' :: c in fm.saves && c' in fm.saves && Active(fm.saves[c]) && Active(fm.saves[c']) ==> c == c')
    && (forall c, d :: c in fm.saves && d in fm.deletes && Active(fm.saves[c]) ==> fm.deletes[d].phase != Guarded)
    && (forall d, e | d in fm.deletes && e in fm.deletes ::
          fm.deletes[d].phase == Guarded && fm.deletes[e].phase == Guarded ==> d == e)
    && (fm.holder != Free ==> !fm.uncertain && forall c :: c in fm.saves ==> !LeftUnsettled(fm.saves[c]))
  }

  lemma CertainWhileHeld(fm: Family)
    requires FamilyInv(fm) && fm.holder != Free
    ensures !fm.uncertain
  {
    if fm.holder.ByWrite? {
      assert SaveInv(fm, fm.saves[fm.holder.save]);
    }
  }

  lemma FenceOfFamily(fm: Family)
    requires HolderInv(fm) && FenceInv(fm) && (fm.holder != Free ==> !fm.uncertain)
    ensures Fenced(fm)
  {
    forall c | c in fm.saves && fm.holder != Free
      ensures !LeftUnsettled(fm.saves[c])
    {
      assert Open(fm.saves[c]) ==> Active(fm.saves[c]) || fm.uncertain;
    }
  }

  /** At every moment, a family that grants a guard has nothing unsettled behind it. */
  lemma {:induction false} GuardsAreFenced(states: seq<State>, acts: seq<Action>, k: nat, f: nat)
    requires Execution(states, acts) && k < |states| && f in states[k].families
    ensures Fenced(states[k].families[f])
  {
    hide Relates, Execution, Fenced, HolderInv, FenceInv, SaveInv, DeleteInv, LandedInv, CreationInv;
    hide Identity.LineageInv;
    RunKeepsFamily(states, acts, k, f);
    var fm := states[k].families[f];
    if fm.holder != Free {
      CertainWhileHeld(fm);
    }
    FenceOfFamily(fm);
  }

  lemma StepKeepsUncertain(s: State, a: Action, f: nat)
    requires Allowed(s, a) && f in s.families && s.families[f].uncertain
    ensures f in Next(s, a).families && Next(s, a).families[f].uncertain
  {
    if a.Act? && a.f == f {
      NextOfAct(s, f, a.t);
      hide Next, Allowed;
      StaysUncertain(s.families[f], a.t, true);
      if Request(s.families[f], a.t).Some? {
        StaysUncertain(s.families[f], a.t, Accepts(s.backend, Request(s.families[f], a.t).value));
      }
    }
  }

  lemma StaysUncertain(fm: Family, t: Step, ok: bool)
    requires Can(fm, t) && fm.uncertain
    ensures Do(fm, t, ok).uncertain
  {
  }

  /** Uncertainty never clears, so no guard of the family is ever granted again. */
  lemma {:induction false} UncertaintyIsForever(states: seq<State>, acts: seq<Action>, k: nat, j: nat, f: nat)
    requires Execution(states, acts) && k <= j < |states|
    requires f in states[k].families && states[k].families[f].uncertain
    ensures f in states[j].families && states[j].families[f].uncertain && states[j].families[f].holder == Free
    decreases j - k
  {
    hide Allowed, Next;
    if k < j {
      StepKeepsUncertain(states[k], acts[k], f);
      UncertaintyIsForever(states, acts, k + 1, j, f);
    } else {
      GuardsAreFenced(states, acts, j, f);
    }
  }

  // ----- Creation authority -----

  /** A family dispatches at most one insertion without origin, and only a fresh family does. */
  lemma {:induction false} OneFirstSave(states: seq<State>, acts: seq<Action>, k: nat, f: nat, c: nat, c': nat)
    requires Execution(states, acts) && k < |states| && f in states[k].families
    requires var fm := states[k].families[f];
             c in fm.saves && c' in fm.saves && fm.saves[c].origin.None? && fm.saves[c'].origin.None?
    ensures c == c' && states[k].families[f].lin.isFresh
  {
    RunKeepsFamily(states, acts, k, f);
    assert SaveInv(states[k].families[f], states[k].families[f].saves[c]);
  }

  lemma ConcludePublishes(fm: Family, c: nat)
    requires FamilyInv(fm) && Can(fm, Finish(c))
    requires fm.saves[c].call.op != Revoke && !fm.lin.shared.destroyed
    ensures Conclude(fm, c).lin.shared.persisted == Some(fm.saves[c].h.id)
  {
    assert SaveInv(fm, fm.saves[c]);
    UpdateKeepsIdentity(fm, fm.saves[c]);
  }

  /** A save completes by publishing exactly its snapshot's identifier. */
  lemma {:induction false} CompletionPublishesTarget(states: seq<State>, acts: seq<Action>, k: nat, f: nat, c: nat)
    requires Execution(states, acts) && k < |acts| && acts[k] == Act(f, Finish(c))
    requires f in states[k].families && Can(states[k].families[f], Finish(c))
    requires var fm := states[k].families[f];
             fm.saves[c].call.op != Revoke && !fm.lin.shared.destroyed
    ensures f in states[k + 1].families
    ensures states[k + 1].families[f].lin.shared.persisted == Some(states[k].families[f].saves[c].h.id)
  {
    RunKeepsFamily(states, acts, k, f);
    assert states[k + 1] == StepOf(states[k], f, Finish(c));
    hide FamilyInv, Relates, Execution, Conclude, Can;
    ConcludePublishes(states[k].families[f], c);
  }

  // ----- Supersession -----

  ghost predicate SupersededAt(fm: Family, slot: nat) {
    slot in fm.lin.handles && Identity.Superseded(fm.lin.shared, fm.lin.handles[slot])
  }

  /** What a step does to the identity of its family. */
  lemma StepMovesIdentity(fm: Family, t: Step, ok: bool)
    requires Can(fm, t)
    ensures var l := Do(fm, t, ok).lin;
            || (t.Ident? && l == Identity.Apply(fm.lin, t.a))
            || (t.Finish? && l == Identity.Mark(fm.lin, fm.saves[t.c].h))
            || (l.handles == fm.lin.handles && l.shared.persisted == fm.lin.shared.persisted)
  {
    hide Identity.Mark, Identity.Regenerate, Identity.PersistenceOrigin, Identity.PersistenceAttempt;
  }

  lemma StepKeepsSuperseded(fm: Family, t: Step, ok: bool, slot: nat)
    requires Identity.LineageInv(fm.lin) && (forall c :: c in fm.saves ==> Identity.Held(fm.lin, fm.saves[c].h))
    requires Can(fm, t) && SupersededAt(fm, slot)
    ensures SupersededAt(Do(fm, t, ok), slot)
  {
    StepMovesIdentity(fm, t, ok);
    var h := fm.lin.handles[slot];
    assert Identity.Held(fm.lin, h);
    if t.Ident? {
      Identity.StepKeepsSuperseded(fm.lin, t.a, slot);
    }
    if t.Finish? {
      Identity.MarkKeepsSuperseded(fm.lin, h, fm.saves[t.c].h);
    }
    hide Identity.LineageInv, Identity.Apply, Do, Can;
  }

  lemma SavesAreHeld(fm: Family)
    requires FamilyInv(fm)
    ensures Identity.LineageInv(fm.lin) && (forall c :: c in fm.saves ==> Identity.Held(fm.lin, fm.saves[c].h))
  {
    hide Identity.LineageInv, LandedInv, FenceInv, HolderInv, DeleteInv, CreationInv;
    assert forall c :: c in fm.saves ==> SaveInv(fm, fm.saves[c]);
  }

  /** A superseded clone stays superseded through every later step of the whole system. */
  lemma {:induction false} SupersessionIsPermanent(
      states: seq<State>, acts: seq<Action>, k: nat, j: nat, f: nat, slot: nat)
    requires Execution(states, acts) && k <= j < |states|
    requires f in states[k].families && SupersededAt(states[k].families[f], slot)
    ensures f in states[j].families && SupersededAt(states[j].families[f], slot)
    decreases j - k
  {
    hide FamilyInv, Relates, Next, Allowed, SupersededAt;
    if k < j {
      RunKeepsFamily(states, acts, k, f);
      NextKeepsSuperseded(states[k], acts[k], f, slot);
      SupersessionIsPermanent(states, acts, k + 1, j, f, slot);
    }
  }

  lemma NextKeepsSuperseded(s: State, a: Action, f: nat, slot: nat)
    requires Allowed(s, a) && f in s.families && FamilyInv(s.families[f]) && SupersededAt(s.families[f], slot)
    ensures f in Next(s, a).families && SupersededAt(Next(s, a).families[f], slot)
  {
    SavesAreHeld(s.families[f]);
    hide FamilyInv, Do, Can, SupersededAt, Identity.LineageInv;
    if a.Act? && a.f == f {
      NextOfAct(s, f, a.t);
      StepKeepsSuperseded(s.families[f], a.t, true, slot);
      if Request(s.families[f], a.t).Some? {
        StepKeepsSuperseded(s.families[f], a.t, Accepts(s.backend, Request(s.families[f], a.t).value), slot);
      }
    }
  }

  // ----- Deletion -----

  lemma StepKeepsReturned(fm: Family, t: Step, ok: bool, d: nat)
    requires Can(fm, t) && d in fm.deletes && DeleteInv(fm, fm.deletes[d]) && fm.deletes[d].returned
    ensures d in Do(fm, t, ok).deletes && Do(fm, t, ok).deletes[d] == fm.deletes[d]
    ensures !Bare(fm) ==> !Bare(Do(fm, t, ok))
  {
    hide Sealed;
  }

  lemma NextKeepsReturned(s: State, a: Action, f: nat, d: nat)
    requires Allowed(s, a) && f in s.families && FamilyInv(s.families[f])
    requires d in s.families[f].deletes && s.families[f].deletes[d].returned
    ensures var s' := Next(s, a);
            && f in s'.families && d in s'.families[f].deletes
            && s'.families[f].deletes[d] == s.families[f].deletes[d]
            && (!Bare(s.families[f]) ==> !Bare(s'.families[f]))
  {
    assert DeleteInv(s.families[f], s.families[f].deletes[d]);
    hide FamilyInv, DeleteInv, Do, Can, Bare;
    if a.Act? && a.f == f {
      var fm, t := s.families[f], a.t;
      NextOfAct(s, f, t);
      StepKeepsReturned(fm, t, true, d);
      if Request(fm, t).Some? {
        StepKeepsReturned(fm, t, Accepts(s.backend, Request(fm, t).value), d);
      }
    }
  }

  /** Whatever a returned deletion left behind is the family's persisted identity. */
  lemma ReturnedLeavesAtMostPersisted(fm: Family, b: Backend, d: nat, id: Id)
    requires FamilyInv(fm) && Relates(fm, b) && !Bare(fm)
    requires d in fm.deletes && fm.deletes[d].returned
    requires id in HeldIds(fm) && id in b.present
    ensures fm.lin.shared.persisted == Some(id) && !fm.deletes[d].clean
  {
    assert DeleteInv(fm, fm.deletes[d]) && Sealed(fm);
    assert !OpenLanded(fm, id);
    assert DeleteRel(fm, fm.deletes[d], b);
  }

  /**
   * Deletion is final. Once a deletion has returned through a handle that was
   * not superseded when it took the guard, no record whose identifier any handle
   * of the family holds, or will ever hold, is in the backend again: not by a
   * write already in flight, a cancelled one that commits late, or one whose
   * compensation failed. Through a superseded handle, only the persisted
   * identity of another clone can remain.
   */
  lemma {:induction false} DeletionIsFinal(
      states: seq<State>, acts: seq<Action>, k: nat, j: nat, f: nat, d: nat, id: Id)
    requires Execution(states, acts) && k <= j < |states|
    requires f in states[k].families && !Bare(states[k].families[f])
    requires d in states[k].families[f].deletes && states[k].families[f].deletes[d].returned
    ensures f in states[j].families
    ensures id in HeldIds(states[j].families[f]) && id in states[j].backend.present ==>
              states[j].families[f].lin.shared.persisted == Some(id) && !states[k].families[f].deletes[d].clean
    decreases j - k
  {
    if k < j {
      RunKeepsFamily(states, acts, k, f);
      NextKeepsReturned(states[k], acts[k], f, d);
      DeletionIsFinal(states, acts, k + 1, j, f, d, id);
    } else {
      RunKeepsFamily(states, acts, j, f);
      var s := states[j];
      if id in HeldIds(s.families[f]) && id in s.backend.present {
        ReturnedLeavesAtMostPersisted(s.families[f], s.backend, d, id);
      }
    }
  }

  lemma SealedKeepsIdentity(fm: Family, t: Step, ok: bool)
    requires Can(fm, t) && Sealed(fm)
    ensures Do(fm, t, ok).lin.shared.persisted == fm.lin.shared.persisted
  {
    StepMovesIdentity(fm, t, ok);
    hide Do;
    assert t.Finish? ==> Active(fm.saves[t.c]);
  }

  lemma NextKeepsPersisted(s: State, a: Action, f: nat)
    requires Allowed(s, a) && f in s.families && Sealed(s.families[f])
    ensures f in Next(s, a).families
    ensures Next(s, a).families[f].lin.shared.persisted == s.families[f].lin.shared.persisted
  {
    hide Sealed, Do, Can;
    if a.Act? && a.f == f {
      var fm, t := s.families[f], a.t;
      NextOfAct(s, f, t);
      SealedKeepsIdentity(fm, t, true);
      if Request(fm, t).Some? {
        SealedKeepsIdentity(fm, t, Accepts(s.backend, Request(fm, t).value));
      }
    }
  }

  lemma ReturnedSeals(fm: Family, d: nat)
    requires FamilyInv(fm) && d in fm.deletes && fm.deletes[d].returned
    ensures Sealed(fm)
  {
    assert DeleteInv(fm, fm.deletes[d]);
  }

  /** Once a deletion has returned, the family's identity never changes again. */
  lemma {:induction false} ReturnedKeepsPersisted(
      states: seq<State>, acts: seq<Action>, k: nat, j: nat, f: nat, d: nat)
    requires Execution(states, acts) && k <= j < |states| && f in states[k].families
    requires d in states[k].families[f].deletes && states[k].families[f].deletes[d].returned
    ensures f in states[j].families
    ensures states[j].families[f].lin.shared.persisted == states[k].families[f].lin.shared.persisted
    decreases j - k
  {
    if k < j {
      RunKeepsFamily(states, acts, k, f);
      ReturnedSeals(states[k].families[f], d);
      hide FamilyInv, Relates, Sealed;
      NextKeepsPersisted(states[k], acts[k], f);
      NextKeepsReturned(states[k], acts[k], f, d);
      hide Next, Allowed;
      ReturnedKeepsPersisted(states, acts, k + 1, j, f, d);
    }
  }

  /** Whether some record under an identifier of family `f` is stored. */
  ghost predicate Remains(s: State, f: nat) {
    f in s.families && exists id :: id in HeldIds(s.families[f]) && id in s.backend.present
  }

  lemma PersistedIsKnown(fm: Family, b: Backend)
    requires FamilyInv(fm) && Relates(fm, b) && fm.lin.shared.persisted.Some?
    ensures fm.lin.shared.persisted.value in HeldIds(fm) && fm.lin.shared.persisted.value in b.inserted
  {
  }

  /**
   * What a returned deletion leaves, exactly: a record remains if and only if the
   * family's persisted identity is still stored, which takes a superseded handle,
   * one that deleted its own old identifier instead. When none remains, none ever
   * comes back.
   */
  lemma {:induction false} DeletionLeavesExactly(
      states: seq<State>, acts: seq<Action>, k: nat, j: nat, f: nat, d: nat)
    requires Execution(states, acts) && k <= j < |states|
    requires f in states[k].families && !Bare(states[k].families[f])
    requires d in states[k].families[f].deletes && states[k].families[f].deletes[d].returned
    ensures var persisted := states[k].families[f].lin.shared.persisted;
            && (Remains(states[k], f) <==> persisted.Some? && persisted.value in states[k].backend.present)
            && (Remains(states[k], f) ==> !states[k].families[f].deletes[d].clean)
            && (!Remains(states[k], f) ==> !Remains(states[j], f))
  {
    RunKeepsFamily(states, acts, k, f);
    ReturnedKeepsPersisted(states, acts, k, j, f, d);
    var persisted := states[k].families[f].lin.shared.persisted;
    if persisted.Some? {
      PersistedIsKnown(states[k].families[f], states[k].backend);
    }
    hide FamilyInv, Relates, Execution;
    if Remains(states[k], f) {
      var id :| id in HeldIds(states[k].families[f]) && id in states[k].backend.present;
      DeletionIsFinal(states, acts, k, k, f, d, id);
    } else if Remains(states[j], f) {
      var id :| id in HeldIds(states[j].families[f]) && id in states[j].backend.present;
      DeletionIsFinal(states, acts, k, j, f, d, id);
      NoResurrection(states, acts, k, j, id);
    }
  }
}
