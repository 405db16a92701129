/** What every step of one family keeps, whatever the backend answers. */
module FamilyInvariant {
  import opened Common
  import opened Identity
  import opened Backend
  import opened Family

  ghost predicate SaveInv(fm: Family, s: Save) {
    && Held(fm.lin, s.h)
    && (s.origin.None? ==> fm.lin.isFresh && fm.lin.shared.claimed)
    && (s.origin.Some? ==> s.origin.value in fm.lin.chain)
    && (s.origin.Some? && Creating(s) ==> s.h.rotationFrom == s.origin)
    && (Active(s) ==> s.guarded && !s.settled && !fm.uncertain && s.origin == fm.lin.shared.persisted)
    && (s.phase == Waiting ==> !s.guarded)
    && (!s.guarded ==> s.call.Idle? && !s.landed && !s.settled)
    && (s.phase == Cleaning ==> s.net && fm.lin.shared.destroyed)
    && (s.settled ==> s.phase == Ended)
    && CallInv(s)
  }

  /** How far the backend call of a save has come, and whether its target has landed. */
  ghost predicate CallInv(s: Save) {
    && (s.landed ==> Creating(s))
    && (s.call.InFlight? ==> s.net)
    && (s.call.InFlight? && Lands(s, s.call.op) ==> !s.settled && !s.landed)
    && (!s.call.Idle? && (s.call.op == DropSource || s.call.op == InsertTarget) ==> s.origin.Some? && Creating(s))
    && (!s.call.Idle? && (s.call.op == DropSource || s.call.op == Revoke) ==> !s.landed)
    && (s.call.Acked? && Lands(s, s.call.op) ==> s.landed == s.call.ok)
    && (s.phase == Guarded && s.call.Idle? ==> !s.landed)
    && (!s.call.Idle? && s.call.op == Erase ==> s.phase == Cleaning || s.phase == Ended)
    && (s.phase == Cleaning && !s.call.Idle? ==> s.call.op == Erase)
    && (s.phase == Cleaning && Creating(s) ==> s.landed)
    && (!s.call.Idle? && s.call.op == Erase && Creating(s) ==> s.landed)
  }

  ghost predicate DeleteInv(fm: Family, x: Delete) {
    && Held(fm.lin, x.h)
    && fm.lin.shared.destroyed
    && x.phase != Cleaning
    && (x.phase == Waiting ==> !x.acquired)
    && (!x.acquired ==> x.call.Idle? && !x.returned)
    && (x.phase == Guarded ==> x.acquired)
    && (x.acquired && x.clean && fm.lin.shared.persisted.Some? ==> fm.lin.shared.persisted == Some(x.target))
    && (x.returned ==> x.phase == Ended && x.call.Acked?)
    && (x.acquired ==> Sealed(fm))
  }

  /** Nothing of this family can ever be written again. */
  ghost predicate Sealed(fm: Family) {
    && fm.lin.shared.destroyed
    && forall c :: c in fm.saves ==> !Open(fm.saves[c]) && !Active(fm.saves[c])
  }

  ghost predicate HolderInv(fm: Family) {
    && (fm.holder.ByWrite? ==> fm.holder.save in fm.saves)
    && (fm.holder.ByDelete? ==> fm.holder.deletion in fm.deletes)
    && (forall c :: c in fm.saves ==> (Active(fm.saves[c]) <==> fm.holder == ByWrite(c)))
    && (forall d :: d in fm.deletes ==> (fm.deletes[d].phase == Guarded <==> fm.holder == ByDelete(d)))
    && (fm.holder.ByDelete? ==> !fm.uncertain)
  }

  /** At most one write is open, and it either holds the lock or has made the family uncertain. */
  ghost predicate FenceInv(fm: Family) {
    && (forall c :: c in fm.saves && Open(fm.saves[c]) ==> Active(fm.saves[c]) || fm.uncertain)
    && (forall c, c' :: c in fm.saves && c' in fm.saves && Open(fm.saves[c]) && Open(fm.saves[c']) ==> c == c')
  }

  /** The creating write of `s` can still take effect. */
  ghost predicate MayLand(s: Save) {
    Creating(s) && !s.landed && (s.phase == Guarded || (s.call.InFlight? && Lands(s, s.call.op)))
  }

  ghost predicate OpenLanded(fm: Family, id: Id) {
    exists c :: c in fm.saves && Open(fm.saves[c]) && fm.saves[c].landed && fm.saves[c].h.id == id
  }

  ghost predicate LandedInv(fm: Family) {
    && (forall id :: id in fm.landed ==> id in fm.lin.sources && (fm.lin.isFresh || id != fm.lin.seed))
    && (forall id :: id in fm.landed ==> id in fm.lin.chain || fm.lin.shared.destroyed || OpenLanded(fm, id))
    && (forall c :: c in fm.saves && MayLand(fm.saves[c]) ==> fm.saves[c].h.id !in fm.landed)
    && (forall c :: c in fm.saves && fm.saves[c].landed ==> fm.saves[c].h.id in fm.landed)
    && (forall k :: 0 <= k < |fm.lin.chain| ==>
          fm.lin.chain[k] in fm.landed || (fm.lin.chain[k] == fm.lin.seed && !fm.lin.isFresh))
  }

  /** There is at most one first save, and nothing is persisted until it has ended. */
  ghost predicate CreationInv(fm: Family) {
    && (forall c, c' :: c in fm.saves && c' in fm.saves && fm.saves[c].origin.None? && fm.saves[c'].origin.None? ==>
          c == c')
    && (forall c :: c in fm.saves && fm.saves[c].origin.None? && fm.saves[c].phase != Ended ==> fm.lin.chain == [])
  }

  ghost predicate FamilyInv(fm: Family) {
    && LineageInv(fm.lin)
    && (forall c :: c in fm.saves ==> SaveInv(fm, fm.saves[c]))
    && (forall d :: d in fm.deletes ==> DeleteInv(fm, fm.deletes[d]))
    && HolderInv(fm)
    && FenceInv(fm)
    && LandedInv(fm)
    && CreationInv(fm)
  }

  /** The target of a creating save is an identifier the family generated, and is not yet persisted. */
  lemma CreatingTargetIsNew(fm: Family, s: Save)
    requires LineageInv(fm.lin) && SaveInv(fm, s)
    requires Creating(s)
    ensures fm.lin.isFresh || s.h.id != fm.lin.seed
    ensures s.origin == fm.lin.shared.persisted ==> s.h.id !in fm.lin.chain
  {
    MarkExtendsOrKeeps(fm.lin, s.h);
  }

  // ----- Frames: what an unrelated change leaves alone -----

  ghost predicate Grows(l: Lineage, l': Lineage) {
    && l'.seed == l.seed && l'.isFresh == l.isFresh
    && (forall id :: id in l.sources ==> id in l'.sources && l'.sources[id] == l.sources[id])
    && l.chain <= l'.chain
    && (l.shared.claimed ==> l'.shared.claimed)
    && (l.shared.destroyed ==> l'.shared.destroyed)
  }

  lemma SaveFrame(fm: Family, fm': Family, s: Save)
    requires SaveInv(fm, s) && Grows(fm.lin, fm'.lin)
    requires Active(s) ==> !fm'.uncertain && fm'.lin.shared.persisted == fm.lin.shared.persisted
    ensures SaveInv(fm', s)
  {
  }

  lemma DeleteFrame(fm: Family, fm': Family, x: Delete)
    requires DeleteInv(fm, x) && Grows(fm.lin, fm'.lin)
    requires x.acquired ==> Sealed(fm') && fm'.lin.shared.persisted == fm.lin.shared.persisted
    ensures DeleteInv(fm', x)
  {
  }

  /** The lock moves only between nobody and save `c`, or stays where it is. */
  ghost predicate LockMoves(fm: Family, fm': Family, c: nat) {
    || fm'.holder == fm.holder
    || ((fm.holder == Free || fm.holder == ByWrite(c)) && (fm'.holder == Free || fm'.holder == ByWrite(c)))
  }

  /** `fm'` differs from `fm` in save `c`, which becomes `s`, and in shared state only `c` may change. */
  ghost predicate ChangesSave(fm: Family, fm': Family, c: nat, s: Save) {
    && fm'.saves == fm.saves[c := s]
    && fm'.deletes == fm.deletes
    && Grows(fm.lin, fm'.lin)
    && (fm.uncertain ==> fm'.uncertain)
    && SaveInv(fm', s)
    && LockMoves(fm, fm', c)
    && (Active(s) <==> fm'.holder == ByWrite(c))
    && (fm'.uncertain != fm.uncertain || fm'.lin.shared.persisted != fm.lin.shared.persisted ==>
          fm.holder == ByWrite(c) || (fm.holder == Free && fm'.lin.shared.persisted == fm.lin.shared.persisted))
    && (Sealed(fm) ==> !Open(s) && !Active(s) && fm'.lin.shared.persisted == fm.lin.shared.persisted)
    && KeepsCreation(fm, fm', c, s)
  }

  ghost predicate KeepsCreation(fm: Family, fm': Family, c: nat, s: Save) {
    && (s.origin.None? ==>
          (c in fm.saves && fm.saves[c].origin.None?)
          || forall c' :: c' in fm.saves ==> !fm.saves[c'].origin.None?)
    && (s.origin.None? && s.phase != Ended ==> fm'.lin.chain == [])
    && (fm.lin.chain == [] && fm'.lin.chain != [] ==> s.origin.None? && c in fm.saves && fm.saves[c].origin.None?)
  }

  /** What the open-write bookkeeping needs of the changed save. */
  ghost predicate KeepsOpen(fm: Family, fm': Family, c: nat, s: Save) {
    && (Open(s) ==> Active(s) || fm'.uncertain)
    && (Open(s) ==> (c in fm.saves && Open(fm.saves[c])) || forall c' :: c' in fm.saves ==> !Open(fm.saves[c']))
    && (fm'.landed == fm.landed || (fm'.landed == fm.landed + {s.h.id} && Open(s)))
    && (s.landed ==> s.h.id in fm'.landed)
    && (MayLand(s) ==> s.h.id !in fm'.landed)
    && (s.h.id in fm'.landed ==> s.h.id in fm.landed || (fm'.lin.isFresh || s.h.id != fm'.lin.seed))
    && (s.h.id in fm'.landed && s.h.id !in fm.landed ==> s.landed)
    && (c in fm.saves && Open(fm.saves[c]) && fm.saves[c].landed ==>
          (Open(s) && s.landed && s.h.id == fm.saves[c].h.id)
          || fm.saves[c].h.id in fm'.lin.chain || fm'.lin.shared.destroyed)
    && (forall k :: |fm.lin.chain| <= k < |fm'.lin.chain| ==> fm'.lin.chain[k] in fm'.landed)
  }

  lemma ChangeSaveKeepsHolder(fm: Family, fm': Family, c: nat, s: Save)
    requires FamilyInv(fm) && ChangesSave(fm, fm', c, s)
    ensures HolderInv(fm')
  {
  }

  lemma ChangeSaveKeepsSaves(fm: Family, fm': Family, c: nat, s: Save)
    requires FamilyInv(fm) && ChangesSave(fm, fm', c, s)
    ensures forall c' :: c' in fm'.saves ==> SaveInv(fm', fm'.saves[c'])
  {
    forall c' | c' in fm'.saves && c' != c
      ensures SaveInv(fm', fm'.saves[c'])
    {
      SaveFrame(fm, fm', fm.saves[c']);
    }
  }

  lemma ChangeSaveKeepsDeletes(fm: Family, fm': Family, c: nat, s: Save)
    requires FamilyInv(fm) && ChangesSave(fm, fm', c, s)
    ensures forall d :: d in fm'.deletes ==> DeleteInv(fm', fm'.deletes[d])
  {
    assert Sealed(fm) ==> Sealed(fm');
    forall d | d in fm'.deletes
      ensures DeleteInv(fm', fm'.deletes[d])
    {
      DeleteFrame(fm, fm', fm.deletes[d]);
    }
  }

  lemma ChangeSaveKeepsFence(fm: Family, fm': Family, c: nat, s: Save)
    requires FenceInv(fm) && ChangesSave(fm, fm', c, s) && KeepsOpen(fm, fm', c, s)
    ensures FenceInv(fm')
  {
  }

  lemma MayLandIsOpen(fm: Family, s: Save)
    requires SaveInv(fm, s) && MayLand(s)
    ensures Open(s)
  {
  }

  lemma ChangeSaveKeepsLanded(fm: Family, fm': Family, c: nat, s: Save)
    requires FenceInv(fm) && LandedInv(fm) && ChangesSave(fm, fm', c, s) && KeepsOpen(fm, fm', c, s)
    requires forall c' :: c' in fm.saves && MayLand(fm.saves[c']) ==> Open(fm.saves[c'])
    ensures LandedInv(fm')
  {
    forall id | id in fm'.landed
      ensures id in fm'.lin.chain || fm'.lin.shared.destroyed || OpenLanded(fm', id)
    {
      if id !in fm.landed {
        assert fm'.saves[c] == s;
      } else if OpenLanded(fm, id) {
        var c' :| c' in fm.saves && Open(fm.saves[c']) && fm.saves[c'].landed && fm.saves[c'].h.id == id;
        assert fm'.saves[c'] == if c' == c then s else fm.saves[c'];
      }
    }
  }

  lemma ChangeSaveKeepsCreation(fm: Family, fm': Family, c: nat, s: Save)
    requires CreationInv(fm) && ChangesSave(fm, fm', c, s)
    ensures CreationInv(fm')
  {
  }

  lemma ChangeSaveKeeps(fm: Family, fm': Family, c: nat, s: Save)
    requires FamilyInv(fm) && LineageInv(fm'.lin) && ChangesSave(fm, fm', c, s) && KeepsOpen(fm, fm', c, s)
    ensures FamilyInv(fm')
  {
    ChangeSaveKeepsHolder(fm, fm', c, s);
    ChangeSaveKeepsSaves(fm, fm', c, s);
    ChangeSaveKeepsDeletes(fm, fm', c, s);
    ChangeSaveKeepsFence(fm, fm', c, s);
    forall c' | c' in fm.saves && MayLand(fm.saves[c'])
      ensures Open(fm.saves[c'])
    {
      MayLandIsOpen(fm, fm.saves[c']);
    }
    ChangeSaveKeepsLanded(fm, fm', c, s);
    ChangeSaveKeepsCreation(fm, fm', c, s);
  }

  // ----- Each step -----

  /** What the invariants say about one save. */
  ghost predicate View(fm: Family, c: nat) {
    && c in fm.saves
    && var s := fm.saves[c];
    && SaveInv(fm, s)
    && (Active(s) <==> fm.holder == ByWrite(c))
    && (Open(s) ==> Active(s) || fm.uncertain)
    && (MayLand(s) ==> s.h.id !in fm.landed && Open(s))
    && (s.landed ==> s.h.id in fm.landed)
    && (s.origin.None? && s.phase != Ended ==> fm.lin.chain == [])
    && (Creating(s) ==> fm.lin.isFresh || s.h.id != fm.lin.seed)
    && (fm.lin.shared.persisted.None? <==> fm.lin.chain == [])
  }

  lemma SaveView(fm: Family, c: nat)
    requires FamilyInv(fm) && c in fm.saves
    ensures View(fm, c)
  {
    var s := fm.saves[c];
    assert SaveInv(fm, s);
    if Creating(s) {
      CreatingTargetIsNew(fm, s);
    }
  }

  lemma IdentGrows(fm: Family, a: IdAction)
    requires LineageInv(fm.lin) && Can(fm, Ident(a))
    ensures var l := Apply(fm.lin, a);
            Grows(fm.lin, l) && l.chain == fm.lin.chain && l.shared.persisted == fm.lin.shared.persisted
    ensures LineageInv(Apply(fm.lin, a))
  {
    StepKeepsInvariant(fm.lin, a);
  }

  lemma LineageChangeKeepsRecords(fm: Family, l: Lineage)
    requires FamilyInv(fm) && Grows(fm.lin, l) && l.shared.persisted == fm.lin.shared.persisted
    ensures forall c :: c in fm.saves ==> SaveInv(fm.(lin := l), fm.saves[c])
    ensures forall d :: d in fm.deletes ==> DeleteInv(fm.(lin := l), fm.deletes[d])
  {
    hide LineageInv;
    var fm' := fm.(lin := l);
    forall c | c in fm.saves
      ensures SaveInv(fm', fm.saves[c])
    {
      SaveFrame(fm, fm', fm.saves[c]);
    }
    forall d | d in fm.deletes
      ensures DeleteInv(fm', fm.deletes[d])
    {
      DeleteFrame(fm, fm', fm.deletes[d]);
    }
  }

  lemma LineageChangeKeepsLanded(fm: Family, l: Lineage)
    requires LandedInv(fm) && CreationInv(fm) && HolderInv(fm) && FenceInv(fm)
    requires Grows(fm.lin, l) && l.chain == fm.lin.chain
    ensures var fm' := fm.(lin := l); LandedInv(fm') && CreationInv(fm') && HolderInv(fm') && FenceInv(fm')
  {
    assert forall id :: OpenLanded(fm, id) ==> OpenLanded(fm.(lin := l), id);
  }

  lemma IdentKeeps(fm: Family, a: IdAction)
    requires FamilyInv(fm) && Can(fm, Ident(a))
    ensures FamilyInv(Do(fm, Ident(a), true))
  {
    hide LineageInv, SaveInv, DeleteInv, LandedInv, CreationInv, HolderInv, FenceInv, Grows;
    var l := Apply(fm.lin, a);
    IdentGrows(fm, a);
    LineageChangeKeepsRecords(fm, l);
    LineageChangeKeepsLanded(fm, l);
    assert Do(fm, Ident(a), true) == fm.(lin := l);
  }

  lemma BeginSaveChanges(fm: Family, slot: nat, c: nat, net: bool)
    requires Can(fm, BeginSave(slot, c, net)) && Held(fm.lin, fm.lin.handles[slot])
    requires fm.lin.shared.persisted == (if fm.lin.chain == [] then None else Some(fm.lin.chain[|fm.lin.chain| - 1]))
    requires fm.lin.shared.claimed || forall c' :: c' in fm.saves ==> fm.saves[c'].origin.Some?
    requires fm.holder != ByWrite(c)
    ensures var fm' := Do(fm, BeginSave(slot, c, net), true);
            ChangesSave(fm, fm', c, fm'.saves[c]) && KeepsOpen(fm, fm', c, fm'.saves[c])
  {
  }

  lemma BeginSaveKeeps(fm: Family, slot: nat, c: nat, net: bool)
    requires FamilyInv(fm) && Can(fm, BeginSave(slot, c, net))
    ensures FamilyInv(Do(fm, BeginSave(slot, c, net), true))
  {
    var fm' := Do(fm, BeginSave(slot, c, net), true);
    StepKeepsInvariant(fm.lin, AttemptSave(slot));
    assert Held(fm.lin, fm.lin.handles[slot]);
    assert fm.lin.shared.claimed || forall c' :: c' in fm.saves ==> fm.saves[c'].origin.Some? by {
      forall c' | c' in fm.saves
        ensures SaveInv(fm, fm.saves[c'])
      {
      }
    }
    BeginSaveChanges(fm, slot, c, net);
    ChangeSaveKeeps(fm, fm', c, fm'.saves[c]);
  }

  /** Nothing is open while the lock is free and the family certain. */
  lemma NothingOpen(fm: Family)
    requires FamilyInv(fm) && fm.holder == Free && !fm.uncertain
    ensures forall c :: c in fm.saves ==> !Open(fm.saves[c])
  {
  }

  /** A creating save that takes the lock has a target that never landed. */
  lemma GrantedTargetIsNew(fm: Family, c: nat)
    requires FamilyInv(fm) && Can(fm, AcquireWrite(c)) && !fm.uncertain && !fm.lin.shared.destroyed
    requires fm.saves[c].origin.None? || PersistenceOrigin(fm.lin.shared, fm.saves[c].h) == Ok(fm.saves[c].origin)
    ensures fm.saves[c].origin == fm.lin.shared.persisted
    ensures Creating(fm.saves[c]) ==> fm.saves[c].h.id !in fm.landed
  {
    SaveView(fm, c);
    if Creating(fm.saves[c]) {
      NothingOpen(fm);
      CreatingTargetIsNew(fm, fm.saves[c]);
    }
  }

  lemma RejectionChanges(fm: Family, c: nat)
    requires View(fm, c) && Can(fm, AcquireWrite(c)) && (fm.uncertain || fm.lin.shared.destroyed)
    ensures var fm' := Acquire(fm, c);
            ChangesSave(fm, fm', c, fm'.saves[c]) && KeepsOpen(fm, fm', c, fm'.saves[c])
  {
  }

  lemma GrantChanges(fm: Family, c: nat)
    requires View(fm, c) && Can(fm, AcquireWrite(c)) && !fm.uncertain && !fm.lin.shared.destroyed
    requires forall c' :: c' in fm.saves ==> !Open(fm.saves[c'])
    requires fm.saves[c].origin.None? || PersistenceOrigin(fm.lin.shared, fm.saves[c].h) == Ok(fm.saves[c].origin)
    requires fm.saves[c].origin == fm.lin.shared.persisted
    requires Creating(fm.saves[c]) ==> fm.saves[c].h.id !in fm.landed
    ensures var fm' := Acquire(fm, c);
            ChangesSave(fm, fm', c, fm'.saves[c]) && KeepsOpen(fm, fm', c, fm'.saves[c])
  {
  }

  /** A rotation that lost its source before it got the lock poisons the family without a write. */
  lemma StaleChanges(fm: Family, c: nat)
    requires View(fm, c) && Can(fm, AcquireWrite(c)) && !fm.uncertain && !fm.lin.shared.destroyed
    requires forall c' :: c' in fm.saves ==> !Open(fm.saves[c'])
    requires fm.saves[c].origin.Some? && PersistenceOrigin(fm.lin.shared, fm.saves[c].h) != Ok(fm.saves[c].origin)
    ensures var fm' := Acquire(fm, c);
            ChangesSave(fm, fm', c, fm'.saves[c]) && KeepsOpen(fm, fm', c, fm'.saves[c])
  {
  }

  lemma AcquireWriteKeeps(fm: Family, c: nat)
    requires FamilyInv(fm) && Can(fm, AcquireWrite(c))
    ensures FamilyInv(Do(fm, AcquireWrite(c), true))
  {
    var fm' := Acquire(fm, c);
    var s := fm.saves[c];
    SaveView(fm, c);
    if fm.uncertain || fm.lin.shared.destroyed {
      RejectionChanges(fm, c);
    } else {
      NothingOpen(fm);
      if s.origin.Some? && PersistenceOrigin(fm.lin.shared, s.h) != Ok(s.origin) {
        StaleChanges(fm, c);
      } else {
        GrantedTargetIsNew(fm, c);
        GrantChanges(fm, c);
      }
    }
    ChangeSaveKeeps(fm, fm', c, fm'.saves[c]);
  }

  lemma DispatchChanges(fm: Family, c: nat, op: Op)
    requires View(fm, c) && Can(fm, Dispatch(c, op))
    ensures var fm' := Do(fm, Dispatch(c, op), true);
            ChangesSave(fm, fm', c, fm'.saves[c]) && KeepsOpen(fm, fm', c, fm'.saves[c])
  {
  }

  lemma DispatchKeeps(fm: Family, c: nat, op: Op)
    requires FamilyInv(fm) && Can(fm, Dispatch(c, op))
    ensures FamilyInv(Do(fm, Dispatch(c, op), true))
  {
    var fm' := Do(fm, Dispatch(c, op), true);
    SaveView(fm, c);
    DispatchChanges(fm, c, op);
    ChangeSaveKeeps(fm, fm', c, fm'.saves[c]);
  }

  lemma AnswerChanges(fm: Family, c: nat, op: Op, ok: bool)
    requires View(fm, c) && Held(fm.lin, fm.saves[c].h)
    requires (Can(fm, Execute(c)) && op == fm.saves[c].call.op) || (Can(fm, LocalWrite(c)) && op == WriteOp)
    ensures var fm' := Answer(fm, c, op, ok);
            ChangesSave(fm, fm', c, fm'.saves[c]) && KeepsOpen(fm, fm', c, fm'.saves[c])
  {
  }

  lemma AnswerKeeps(fm: Family, c: nat, op: Op, ok: bool)
    requires FamilyInv(fm) && c in fm.saves
    requires (Can(fm, Execute(c)) && op == fm.saves[c].call.op) || (Can(fm, LocalWrite(c)) && op == WriteOp)
    ensures FamilyInv(Answer(fm, c, op, ok))
  {
    var fm' := Answer(fm, c, op, ok);
    SaveView(fm, c);
    AnswerChanges(fm, c, op, ok);
    ChangeSaveKeeps(fm, fm', c, fm'.saves[c]);
  }

  /** Only a creating save moves the persisted identity, and then to its own target. */
  lemma UpdateKeepsIdentity(fm: Family, s: Save)
    requires LineageInv(fm.lin) && SaveInv(fm, s) && Active(s)
    ensures Mark(fm.lin, s.h).chain == if Creating(s) then fm.lin.chain + [s.h.id] else fm.lin.chain
    ensures !Creating(s) ==> Mark(fm.lin, s.h) == fm.lin
  {
    MarkExtendsOrKeeps(fm.lin, s.h);
  }

  lemma FinishChanges(fm: Family, c: nat)
    requires View(fm, c) && Can(fm, Finish(c))
    requires var l, s := Mark(fm.lin, fm.saves[c].h), fm.saves[c];
             && l.chain == (if Creating(s) then fm.lin.chain + [s.h.id] else fm.lin.chain)
             && (!Creating(s) ==> l == fm.lin)
    ensures var fm' := Conclude(fm, c);
            ChangesSave(fm, fm', c, fm'.saves[c]) && KeepsOpen(fm, fm', c, fm'.saves[c])
  {
    assert Active(fm.saves[c]);
  }

  lemma FinishKeeps(fm: Family, c: nat)
    requires FamilyInv(fm) && Can(fm, Finish(c))
    ensures FamilyInv(Do(fm, Finish(c), true))
  {
    var fm' := Conclude(fm, c);
    SaveView(fm, c);
    MarkKeepsInvariant(fm.lin, fm.saves[c].h);
    UpdateKeepsIdentity(fm, fm.saves[c]);
    FinishChanges(fm, c);
    ChangeSaveKeeps(fm, fm', c, fm'.saves[c]);
  }

  lemma ReleaseChanges(fm: Family, c: nat, t: Step)
    requires View(fm, c) && (t == ConfirmRemoved(c) || t == Abandon(c)) && Can(fm, t)
    ensures var fm' := Do(fm, t, true);
            ChangesSave(fm, fm', c, fm'.saves[c]) && KeepsOpen(fm, fm', c, fm'.saves[c])
  {
  }

  lemma ReleaseKeeps(fm: Family, c: nat, t: Step)
    requires FamilyInv(fm) && (t == ConfirmRemoved(c) || t == Abandon(c)) && Can(fm, t)
    ensures FamilyInv(Do(fm, t, true))
  {
    var fm' := Do(fm, t, true);
    SaveView(fm, c);
    ReleaseChanges(fm, c, t);
    ChangeSaveKeeps(fm, fm', c, fm'.saves[c]);
  }

  // ----- Deletions -----

  ghost predicate ChangesDelete(fm: Family, fm': Family, d: nat, x: Delete) {
    && fm'.deletes == fm.deletes[d := x]
    && fm'.saves == fm.saves && fm'.landed == fm.landed && fm'.uncertain == fm.uncertain
    && (fm'.lin == fm.lin || fm'.lin == Destroyed(fm.lin))
    && DeleteInv(fm', x)
    && (x.phase == Guarded <==> fm'.holder == ByDelete(d))
    && (fm'.holder == fm.holder
        || ((fm.holder == Free || fm.holder == ByDelete(d)) && (fm'.holder == Free || fm'.holder == ByDelete(d))))
    && (fm'.holder == ByDelete(d) ==> !fm.uncertain)
  }

  lemma ChangeDeleteKeepsSaves(fm: Family, fm': Family, d: nat, x: Delete)
    requires FamilyInv(fm) && ChangesDelete(fm, fm', d, x)
    ensures forall c :: c in fm'.saves ==> SaveInv(fm', fm'.saves[c])
    ensures forall e :: e in fm'.deletes ==> DeleteInv(fm', fm'.deletes[e])
  {
    forall c | c in fm'.saves
      ensures SaveInv(fm', fm'.saves[c])
    {
      SaveFrame(fm, fm', fm.saves[c]);
    }
    forall e | e in fm'.deletes && e != d
      ensures DeleteInv(fm', fm'.deletes[e])
    {
      DeleteFrame(fm, fm', fm.deletes[e]);
    }
  }

  lemma ChangeDeleteKeepsLanded(fm: Family, fm': Family, d: nat, x: Delete)
    requires LandedInv(fm) && ChangesDelete(fm, fm', d, x)
    ensures LandedInv(fm')
  {
    assert forall id :: OpenLanded(fm, id) ==> OpenLanded(fm', id);
  }

  lemma ChangeDeleteKeepsLineage(fm: Family, fm': Family, d: nat, x: Delete)
    requires LineageInv(fm.lin) && (fm'.lin == fm.lin || fm'.lin == Destroyed(fm.lin))
    ensures LineageInv(fm'.lin)
  {
    assert Destroyed(fm.lin) == Apply(fm.lin, RequestDestroy);
    hide LineageInv;
    StepKeepsInvariant(fm.lin, RequestDestroy);
  }

  lemma ChangeDeleteKeepsLock(fm: Family, fm': Family, d: nat, x: Delete)
    requires HolderInv(fm) && FenceInv(fm) && CreationInv(fm) && ChangesDelete(fm, fm', d, x)
    ensures HolderInv(fm') && FenceInv(fm') && CreationInv(fm')
  {
    hide DeleteInv;
  }

  lemma ChangeDeleteKeeps(fm: Family, fm': Family, d: nat, x: Delete)
    requires FamilyInv(fm) && ChangesDelete(fm, fm', d, x)
    ensures FamilyInv(fm')
  {
    hide SaveInv, DeleteInv, LandedInv, LineageInv, HolderInv, FenceInv, CreationInv;
    ChangeDeleteKeepsSaves(fm, fm', d, x);
    ChangeDeleteKeepsLock(fm, fm', d, x);
    ChangeDeleteKeepsLineage(fm, fm', d, x);
    ChangeDeleteKeepsLanded(fm, fm', d, x);
  }

  lemma AcquireDeleteKeeps(fm: Family, d: nat)
    requires FamilyInv(fm) && Can(fm, AcquireDelete(d))
    ensures FamilyInv(Do(fm, AcquireDelete(d), true))
  {
    var fm' := AcquireForDelete(fm, d);
    assert DeleteInv(fm, fm.deletes[d]);
    if !fm.uncertain {
      NothingOpen(fm);
      assert Sealed(fm');
    }
    assert DeleteInv(fm', fm'.deletes[d]);
    ChangeDeleteKeeps(fm, fm', d, fm'.deletes[d]);
  }

  lemma BeginDeleteKeeps(fm: Family, slot: nat, d: nat)
    requires FamilyInv(fm) && Can(fm, BeginDelete(slot, d))
    ensures FamilyInv(Do(fm, BeginDelete(slot, d), true))
  {
    var fm' := Do(fm, BeginDelete(slot, d), true);
    assert Held(fm.lin, fm.lin.handles[slot]);
    assert fm.holder != ByDelete(d);
    hide FamilyInv, LineageInv;
    ChangeDeleteKeeps(fm, fm', d, fm'.deletes[d]);
  }

  lemma LaterDeleteStep(fm: Family, d: nat, t: Step, ok: bool)
    requires Can(fm, t)
    requires t == DispatchDelete(d) || t == ExecuteDelete(d) || t == ReturnDelete(d) || t == AbandonDelete(d)
    requires DeleteInv(fm, fm.deletes[d]) && (fm.deletes[d].phase == Guarded <==> fm.holder == ByDelete(d))
    requires fm.holder == ByDelete(d) ==> !fm.uncertain
    ensures ChangesDelete(fm, Do(fm, t, ok), d, Do(fm, t, ok).deletes[d])
  {
    assert Do(fm, t, ok).saves == fm.saves && Do(fm, t, ok).lin == fm.lin;
    assert Sealed(fm) ==> Sealed(Do(fm, t, ok));
    hide Sealed;
  }

  lemma LaterDeleteStepKeeps(fm: Family, d: nat, t: Step, ok: bool)
    requires FamilyInv(fm) && Can(fm, t)
    requires t == DispatchDelete(d) || t == ExecuteDelete(d) || t == ReturnDelete(d) || t == AbandonDelete(d)
    ensures FamilyInv(Do(fm, t, ok))
  {
    assert DeleteInv(fm, fm.deletes[d]);
    hide DeleteInv, Sealed, SaveInv, LineageInv, LandedInv, FenceInv, CreationInv, Do, ChangesDelete;
    LaterDeleteStep(fm, d, t, ok);
    hide FamilyInv;
    ChangeDeleteKeeps(fm, Do(fm, t, ok), d, Do(fm, t, ok).deletes[d]);
  }

  /** Every step keeps the invariants of the family, whatever the backend answers. */
  lemma StepKeeps(fm: Family, t: Step, ok: bool)
    requires FamilyInv(fm) && Can(fm, t)
    ensures FamilyInv(Do(fm, t, ok))
  {
    match t
    case Ident(a) => IdentKeeps(fm, a);
    case BeginSave(slot, c, net) => BeginSaveKeeps(fm, slot, c, net);
    case AcquireWrite(c) => AcquireWriteKeeps(fm, c);
    case Dispatch(c, op) => DispatchKeeps(fm, c, op);
    case Execute(c) => AnswerKeeps(fm, c, fm.saves[c].call.op, ok);
    case LocalWrite(c) => AnswerKeeps(fm, c, WriteOp, ok);
    case Finish(c) => FinishKeeps(fm, c);
    case ConfirmRemoved(c) => ReleaseKeeps(fm, c, t);
    case Abandon(c) => ReleaseKeeps(fm, c, t);
    case AcquireDelete(d) => AcquireDeleteKeeps(fm, d);
    case BeginDelete(slot, d) => BeginDeleteKeeps(fm, slot, d);
    case DispatchDelete(d) => LaterDeleteStepKeeps(fm, d, t, ok);
    case ExecuteDelete(d) => LaterDeleteStepKeeps(fm, d, t, ok);
    case ReturnDelete(d) => LaterDeleteStepKeeps(fm, d, t, ok);
    case AbandonDelete(d) => LaterDeleteStepKeeps(fm, d, t, ok);
  }
}
