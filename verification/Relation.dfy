/** How the bookkeeping of one family relates to what the backend holds. */
module Relation {
  import opened Common
  import opened Identity
  import opened Backend
  import opened Family
  import opened FamilyInvariant
  import opened Protocol

  /** Inserted once and removed: by the identifiers' freshness it never comes back. */
  ghost predicate Gone(b: Backend, id: Id) {
    id in b.inserted && id !in b.present
  }

  /** Between the two statements of a rotation without transactions. */
  ghost predicate Carries(s: Save) {
    s.call == Acked(DropSource, true) || s.call == InFlight(InsertTarget)
  }

  ghost predicate SaveRel(s: Save, b: Backend) {
    && ((s.landed || Carries(s)) && s.origin.Some? ==> Gone(b, s.origin.value))
    && (s.phase == Cleaning && s.call.Acked? ==> Gone(b, s.h.id))
  }

  ghost predicate DeleteRel(fm: Family, x: Delete, b: Backend) {
    x.call.Acked? && x.clean && fm.lin.shared.persisted.Some? ==> Gone(b, x.target)
  }

  /**
   * The identifiers a family holds that are present in the backend are its
   * persisted identity and the target of an open write.
   */
  ghost predicate LiveIds(fm: Family, b: Backend) {
    forall id :: id in fm.lin.sources && id in b.present ==>
      fm.lin.shared.persisted == Some(id) || OpenLanded(fm, id)
  }

  ghost predicate Relates(fm: Family, b: Backend) {
    && (forall k :: 0 <= k < |fm.lin.chain| ==> fm.lin.chain[k] in b.inserted)
    && (!fm.lin.isFresh && !Bare(fm) ==> fm.lin.seed in b.inserted)
    && (!Bare(fm) ==> LiveIds(fm, b))
    && (forall c :: c in fm.saves ==> SaveRel(fm.saves[c], b))
    && (forall d :: d in fm.deletes ==> DeleteRel(fm, fm.deletes[d], b))
  }

  lemma RelatesFrame(fm: Family, b: Backend, b': Backend, added: set<Id>)
    requires Relates(fm, b) && Follows(b, b', added)
    requires Bare(fm) || forall id :: id in added ==> id !in fm.lin.sources
    ensures Relates(fm, b')
  {
    assert forall id :: Gone(b, id) ==> Gone(b', id);
  }

  /** A changed save keeps the family's live identifiers accounted for. */
  ghost predicate KeepsLive(fm: Family, fm': Family, b: Backend, b': Backend, c: nat, s: Save) {
    && fm'.saves == fm.saves[c := s] && fm'.deletes == fm.deletes
    && fm'.lin.sources == fm.lin.sources && fm'.lin.seed == fm.lin.seed && fm'.lin.isFresh == fm.lin.isFresh
    && (fm'.lin.chain == fm.lin.chain || (fm'.lin.chain == fm.lin.chain + [s.h.id] && s.h.id in b'.inserted))
    && (Bare(fm) <==> Bare(fm'))
    && SaveRel(s, b')
    && (fm'.lin.shared.persisted == fm.lin.shared.persisted
        || ((fm.lin.shared.persisted.Some? ==> Gone(b', fm.lin.shared.persisted.value))
            && forall d :: d in fm.deletes ==> !fm.deletes[d].acquired))
    && (c in fm.saves && Open(fm.saves[c]) && fm.saves[c].landed ==>
          (Open(s) && s.landed && s.h.id == fm.saves[c].h.id)
          || fm'.lin.shared.persisted == Some(fm.saves[c].h.id)
          || fm.saves[c].h.id !in b'.present)
    && (forall id :: id in b'.present && id !in b.present ==> id == s.h.id && Open(s) && s.landed)
  }

  lemma ChangeSaveRelates(
      fm: Family, fm': Family, b: Backend, b': Backend, added: set<Id>, c: nat, s: Save)
    requires Relates(fm, b) && Follows(b, b', added) && KeepsLive(fm, fm', b, b', c, s)
    requires forall d :: d in fm.deletes && !fm.deletes[d].acquired ==> fm.deletes[d].call.Idle?
    ensures Relates(fm', b')
  {
    assert forall id :: Gone(b, id) ==> Gone(b', id);
    if !Bare(fm) {
      forall id | id in fm'.lin.sources && id in b'.present
        ensures fm'.lin.shared.persisted == Some(id) || OpenLanded(fm', id)
      {
        if id !in b.present {
          assert fm'.saves[c] == s;
        } else if OpenLanded(fm, id) {
          var c' :| c' in fm.saves && Open(fm.saves[c']) && fm.saves[c'].landed && fm.saves[c'].h.id == id;
          assert fm'.saves[c'] == if c' == c then s else fm.saves[c'];
        }
      }
    }
  }

  // ----- Each step, with the backend's answer -----

  ghost predicate Generated(fm: Family, id: Id) {
    id in fm.lin.sources && (fm.lin.isFresh || id != fm.lin.seed)
  }

  /** What a family generated was inserted exactly when one of its own writes landed. */
  ghost predicate Owns(fm: Family, b: Backend) {
    && (forall id :: id in b.present ==> id in b.inserted)
    && (forall id :: Generated(fm, id) ==> (id in b.inserted <==> id in fm.landed))
  }

  function After(fm: Family, t: Step, b: Backend): (Family, Backend)
    requires Can(fm, t)
  {
    match Request(fm, t)
    case None => (Do(fm, t, true), b)
    case Some(e) => (Do(fm, t, Accepts(b, e)), Exec(b, e))
  }

  /** What a step adds to the backend. */
  function Added(fm: Family, t: Step): set<Id>
    requires Can(fm, t)
  {
    match Request(fm, t)
    case None => {}
    case Some(e) => Adds(e)
  }

  ghost predicate StepRelation(fm: Family, t: Step, b: Backend)
    requires Can(fm, t)
  {
    var (fm', b') := After(fm, t, b);
    && Relates(fm', b')
    && Follows(b, b', Added(fm, t))
    && (forall id :: id in Added(fm, t) ==> Generated(fm, id))
  }

  lemma BareHasNoSaves(fm: Family, c: nat)
    requires c in fm.saves && SaveInv(fm, fm.saves[c])
    ensures !Bare(fm)
  {
  }

  /** A creating call adds only its own target, which was never inserted before. */
  lemma AnswerAddsNew(fm: Family, c: nat, op: Op, b: Backend)
    requires View(fm, c) && Owns(fm, b)
    requires (Can(fm, Execute(c)) && op == fm.saves[c].call.op) || (Can(fm, LocalWrite(c)) && op == WriteOp)
    ensures Adds(EffectOf(fm.saves[c], op)) == if Lands(fm.saves[c], op) then {fm.saves[c].h.id} else {}
    ensures Lands(fm.saves[c], op) ==>
              MayLand(fm.saves[c]) && Generated(fm, fm.saves[c].h.id) && fm.saves[c].h.id !in b.inserted
    ensures Follows(b, Exec(b, EffectOf(fm.saves[c], op)), Adds(EffectOf(fm.saves[c], op)))
  {
  }

  lemma AnswerKeepsLive(fm: Family, c: nat, op: Op, b: Backend)
    requires View(fm, c) && Owns(fm, b) && SaveRel(fm.saves[c], b) && !Bare(fm)
    requires (Can(fm, Execute(c)) && op == fm.saves[c].call.op) || (Can(fm, LocalWrite(c)) && op == WriteOp)
    requires fm.saves[c].origin.Some? ==> fm.saves[c].origin.value in b.inserted
    ensures var e := EffectOf(fm.saves[c], op);
            var fm' := Answer(fm, c, op, Accepts(b, e));
            KeepsLive(fm, fm', b, Exec(b, e), c, fm'.saves[c])
  {
    AnswerAddsNew(fm, c, op, b);
  }

  lemma AnswerRelates(fm: Family, c: nat, op: Op, b: Backend)
    requires FamilyInv(fm) && c in fm.saves && Owns(fm, b) && Relates(fm, b)
    requires (Can(fm, Execute(c)) && op == fm.saves[c].call.op) || (Can(fm, LocalWrite(c)) && op == WriteOp)
    ensures var e := EffectOf(fm.saves[c], op);
            Relates(Answer(fm, c, op, Accepts(b, e)), Exec(b, e)) && Follows(b, Exec(b, e), Adds(e))
  {
    var e := EffectOf(fm.saves[c], op);
    var fm' := Answer(fm, c, op, Accepts(b, e));
    SaveView(fm, c);
    BareHasNoSaves(fm, c);
    AnswerAddsNew(fm, c, op, b);
    AnswerKeepsLive(fm, c, op, b);
    DeletesIdle(fm);
    ChangeSaveRelates(fm, fm', b, Exec(b, e), Adds(e), c, fm'.saves[c]);
  }

  lemma DeletesIdle(fm: Family)
    requires FamilyInv(fm)
    ensures forall d :: d in fm.deletes && !fm.deletes[d].acquired ==> fm.deletes[d].call.Idle?
  {
    forall d | d in fm.deletes && !fm.deletes[d].acquired
      ensures fm.deletes[d].call.Idle?
    {
      assert DeleteInv(fm, fm.deletes[d]);
    }
  }

  /** The steps of one save that do not write to the backend, except a local removal. */
  ghost predicate SaveStep(t: Step, c: nat) {
    t == AcquireWrite(c) || t == Finish(c) || t == ConfirmRemoved(c) || t == Abandon(c)
    || (t.Dispatch? && t.c == c)
  }

  lemma AcquireKeepsLive(fm: Family, c: nat, b: Backend)
    requires View(fm, c) && SaveRel(fm.saves[c], b) && !Bare(fm) && Can(fm, AcquireWrite(c))
    ensures var fm' := Do(fm, AcquireWrite(c), true);
            c in fm'.saves && KeepsLive(fm, fm', b, b, c, fm'.saves[c])
  {
    hide LineageInv, Held;
  }

  lemma ReleaseKeepsLive(fm: Family, c: nat, t: Step, b: Backend)
    requires View(fm, c) && SaveRel(fm.saves[c], b) && !Bare(fm)
    requires (t == ConfirmRemoved(c) || t == Abandon(c) || (t.Dispatch? && t.c == c)) && Can(fm, t)
    ensures var fm' := Do(fm, t, true);
            c in fm'.saves && KeepsLive(fm, fm', b, b, c, fm'.saves[c])
  {
    hide LineageInv, Held, PersistenceOrigin;
  }

  lemma SaveStepKeepsLive(fm: Family, c: nat, t: Step, b: Backend)
    requires View(fm, c) && SaveRel(fm.saves[c], b) && !Bare(fm)
    requires SaveStep(t, c) && !t.Finish? && Can(fm, t)
    ensures var fm' := Do(fm, t, true);
            c in fm'.saves && KeepsLive(fm, fm', b, b, c, fm'.saves[c])
  {
    hide View, SaveRel, Bare, KeepsLive, Do;
    if t.AcquireWrite? {
      AcquireKeepsLive(fm, c, b);
    } else {
      ReleaseKeepsLive(fm, c, t, b);
    }
  }

  lemma FinishKeepsLive(fm: Family, c: nat, b: Backend)
    requires View(fm, c) && Owns(fm, b) && SaveRel(fm.saves[c], b) && !Bare(fm)
    requires Can(fm, Finish(c))
    requires forall d :: d in fm.deletes ==> !fm.deletes[d].acquired
    requires var l, s := Mark(fm.lin, fm.saves[c].h), fm.saves[c];
             && l.chain == (if Creating(s) then fm.lin.chain + [s.h.id] else fm.lin.chain)
             && (!Creating(s) ==> l == fm.lin)
             && l.sources == fm.lin.sources
             && (Creating(s) ==> l.shared.persisted == Some(s.h.id))
    ensures var (fm', b') := After(fm, Finish(c), b);
            KeepsLive(fm, fm', b, b', c, fm'.saves[c]) && Follows(b, b', {})
  {
    var s := fm.saves[c];
    assert Active(s) && fm.lin.shared.persisted == s.origin;
    hide Identity.PersistenceOrigin, Held, Mark;
    if s.call.op == Revoke {
      assert !s.landed;
    } else if !fm.lin.shared.destroyed {
      assert Creating(s) ==> s.landed;
    } else if s.net {
      assert Creating(s) ==> s.landed;
    }
  }

  lemma ActiveExcludesDeletes(fm: Family, c: nat)
    requires FamilyInv(fm) && c in fm.saves && Active(fm.saves[c])
    ensures forall d :: d in fm.deletes ==> !fm.deletes[d].acquired
  {
    forall d | d in fm.deletes
      ensures !fm.deletes[d].acquired
    {
      assert DeleteInv(fm, fm.deletes[d]);
    }
  }

  ghost predicate StepKeepsLive(fm: Family, c: nat, t: Step, b: Backend)
    requires Can(fm, t)
  {
    var (fm', b') := After(fm, t, b);
    c in fm'.saves && KeepsLive(fm, fm', b, b', c, fm'.saves[c]) && Follows(b, b', {})
  }

  lemma SaveStepLive(fm: Family, c: nat, t: Step, b: Backend)
    requires FamilyInv(fm) && Owns(fm, b) && Relates(fm, b)
    requires SaveStep(t, c) && Can(fm, t)
    ensures StepKeepsLive(fm, c, t, b)
  {
    SaveView(fm, c);
    BareHasNoSaves(fm, c);
    if t.Finish? {
      UpdateKeepsIdentity(fm, fm.saves[c]);
      MarkKeepsInvariant(fm.lin, fm.saves[c].h);
      ActiveExcludesDeletes(fm, c);
      FinishKeepsLive(fm, c, b);
    } else {
      SaveStepKeepsLive(fm, c, t, b);
    }
  }

  lemma SaveStepAddsNothing(fm: Family, c: nat, t: Step)
    requires SaveStep(t, c) && Can(fm, t)
    ensures Added(fm, t) == {}
  {
  }

  lemma SaveStepRelates(fm: Family, c: nat, t: Step, b: Backend)
    requires FamilyInv(fm) && Owns(fm, b) && Relates(fm, b)
    requires SaveStep(t, c) && Can(fm, t)
    ensures StepRelation(fm, t, b)
  {
    hide FamilyInv, LineageInv, SaveInv, DeleteInv, After, Added, SaveStep, Can;
    var (fm', b') := After(fm, t, b);
    SaveStepLive(fm, c, t, b);
    SaveStepAddsNothing(fm, c, t);
    DeletesIdle(fm);
    hide KeepsLive;
    ChangeSaveRelates(fm, fm', b, b', {}, c, fm'.saves[c]);
  }

  lemma BeginSaveRelates(fm: Family, t: Step, b: Backend)
    requires FamilyInv(fm) && Owns(fm, b) && Relates(fm, b)
    requires t.BeginSave? && Can(fm, t)
    ensures StepRelation(fm, t, b)
  {
    var fm' := Do(fm, t, true);
    DeletesIdle(fm);
    BeginKeepsLive(fm, t, b);
    hide FamilyInv, Relates, KeepsLive, PersistenceOrigin, PersistenceAttempt;
    ChangeSaveRelates(fm, fm', b, b, {}, t.c, fm'.saves[t.c]);
  }

  lemma BeginKeepsLive(fm: Family, t: Step, b: Backend)
    requires t.BeginSave? && Can(fm, t)
    ensures var fm' := Do(fm, t, true);
            KeepsLive(fm, fm', b, b, t.c, fm'.saves[t.c])
  {
  }

  lemma IdentRelates(fm: Family, t: Step, b: Backend)
    requires LineageInv(fm.lin) && Relates(fm, b)
    requires t.Ident? && Can(fm, t) && (Regenerates(t) ==> t.a.id !in b.present)
    ensures StepRelation(fm, t, b)
  {
    var fm' := Do(fm, t, true);
    assert fm'.lin.chain == fm.lin.chain && fm'.lin.shared.persisted == fm.lin.shared.persisted;
    assert fm'.lin.seed == fm.lin.seed && fm'.lin.isFresh == fm.lin.isFresh;
    assert forall id :: id in fm'.lin.sources ==> id in fm.lin.sources || id !in b.present;
    hide LineageInv;
    assert forall id :: OpenLanded(fm, id) ==> OpenLanded(fm', id);
    assert Relates(fm', b);
  }

  ghost predicate DeleteStep(t: Step) {
    t.BeginDelete? || t.AcquireDelete? || t.DispatchDelete? || t.ExecuteDelete? || t.ReturnDelete? || t.AbandonDelete?
  }

  lemma DeleteStepRecord(fm: Family, t: Step, b: Backend)
    requires Can(fm, t) && DeleteStep(t)
    requires t.BeginDelete? || (DeleteInv(fm, fm.deletes[t.d]) && DeleteRel(fm, fm.deletes[t.d], b))
    requires fm.lin.shared.persisted.Some? ==> fm.lin.shared.persisted.value in b.inserted
    ensures var (fm', b') := After(fm, t, b);
            && DeleteRel(fm', fm'.deletes[t.d], b')
            && Follows(b, b', {}) && b'.inserted == b.inserted && Added(fm, t) == {}
            && fm'.saves == fm.saves && (fm'.lin == fm.lin || fm'.lin == Destroyed(fm.lin))
            && fm'.deletes == fm.deletes[t.d := fm'.deletes[t.d]]
  {
  }

  lemma DeleteStepRelates(fm: Family, t: Step, b: Backend)
    requires FamilyInv(fm) && Relates(fm, b) && Can(fm, t) && DeleteStep(t)
    ensures StepRelation(fm, t, b)
  {
    if !t.BeginDelete? {
      assert DeleteInv(fm, fm.deletes[t.d]);
    }
    DeleteStepRecord(fm, t, b);
    var (fm', b') := After(fm, t, b);
    DeleteChangeRelates(fm, fm', b, b', t.d);
  }

  lemma DeleteChangeRelates(fm: Family, fm': Family, b: Backend, b': Backend, d: nat)
    requires Relates(fm, b) && Follows(b, b', {}) && d in fm'.deletes
    requires fm'.saves == fm.saves && (fm'.lin == fm.lin || fm'.lin == Destroyed(fm.lin))
    requires fm'.deletes == fm.deletes[d := fm'.deletes[d]] && DeleteRel(fm', fm'.deletes[d], b')
    ensures Relates(fm', b')
  {
    assert forall id :: Gone(b, id) ==> Gone(b', id);
    assert forall id :: OpenLanded(fm, id) ==> OpenLanded(fm', id);
  }

  lemma AnswerStepRelates(fm: Family, c: nat, t: Step, b: Backend)
    requires FamilyInv(fm) && Owns(fm, b) && Relates(fm, b) && Can(fm, t)
    requires t == Execute(c) || t == LocalWrite(c)
    ensures StepRelation(fm, t, b)
  {
    hide FamilyInv, LineageInv, SaveInv, DeleteInv;
    var op := if t.Execute? then fm.saves[c].call.op else WriteOp;
    var e := EffectOf(fm.saves[c], op);
    assert Relates(Answer(fm, c, op, Accepts(b, e)), Exec(b, e)) && Follows(b, Exec(b, e), Adds(e)) by {
      AnswerRelates(fm, c, op, b);
    }
    assert forall id :: id in Adds(e) ==> Generated(fm, id) by {
      SaveView(fm, c);
      AnswerAddsNew(fm, c, op, b);
    }
  }

  lemma StepRelates(fm: Family, t: Step, b: Backend)
    requires FamilyInv(fm) && Owns(fm, b) && Relates(fm, b) && Can(fm, t)
    requires Regenerates(t) ==> t.a.id !in b.present
    ensures StepRelation(fm, t, b)
  {
    match t
    case Ident(a) => IdentRelates(fm, t, b);
    case BeginSave(_, _, _) => BeginSaveRelates(fm, t, b);
    case Execute(c) => AnswerStepRelates(fm, c, t, b);
    case LocalWrite(c) => AnswerStepRelates(fm, c, t, b);
    case AcquireWrite(c) => SaveStepRelates(fm, c, t, b);
    case Dispatch(c, _) => SaveStepRelates(fm, c, t, b);
    case Finish(c) => SaveStepRelates(fm, c, t, b);
    case ConfirmRemoved(c) => SaveStepRelates(fm, c, t, b);
    case Abandon(c) => SaveStepRelates(fm, c, t, b);
    case _ => DeleteStepRelates(fm, t, b);
  }
}
