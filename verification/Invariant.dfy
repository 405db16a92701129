/** What every step of the whole system keeps. */
module Invariant {
  import opened Common
  import opened Identity
  import opened Backend
  import opened Family
  import opened FamilyInvariant
  import opened Protocol
  import opened Relation
  import opened Roots

  /** The sources carried by half-done rotations anywhere in the system. */
  ghost function CarriedIn(families: map<nat, Family>): Carried {
    iset f: nat, c: nat, p: Id |
      f in families && c in families[f].saves && Carries(families[f].saves[c])
      && families[f].saves[c].origin == Some(p) :: (f, c, p)
  }

  /** Each identifier has one generating family, and was inserted exactly by its writes. */
  ghost predicate Ownership(s: State) {
    && (forall f, id :: f in s.families && Generated(s.families[f], id) ==> id in s.owner && s.owner[id] == f)
    && (forall id :: id in s.owner ==> s.owner[id] in s.families && Generated(s.families[s.owner[id]], id))
    && (forall id :: id in s.backend.inserted <==> id in s.owner && id in s.families[s.owner[id]].landed)
    && (forall f, id :: f in s.families && id in s.families[f].lin.sources ==> id in s.used)
  }

  ghost predicate GlobalInv(s: State) {
    && (forall f :: f in s.families ==> FamilyInv(s.families[f]))
    && (forall f :: f in s.families ==> Relates(s.families[f], s.backend))
    && Ownership(s)
    && RootsInv(s.backend, CarriedIn(s.families))
  }

  lemma FamilyOwns(s: State, f: nat)
    requires Ownership(s) && RootsWf(s.backend) && f in s.families
    ensures Owns(s.families[f], s.backend)
  {
  }

  // ----- Rotation chains under a step -----

  /** What one save contributes to the carried sources. */
  ghost function CarriedBy(f: nat, c: nat, s: Save): Carried {
    if Carries(s) && s.origin.Some? then iset{(f, c, s.origin.value)} else iset{}
  }

  lemma CarriedUpdate(families: map<nat, Family>, f: nat, fm': Family, c: nat, s': Save)
    requires f in families && fm'.saves == families[f].saves[c := s']
    ensures var k := CarriedIn(families);
            var was := if c in families[f].saves then CarriedBy(f, c, families[f].saves[c]) else iset{};
            CarriedIn(families[f := fm']) == k - was + CarriedBy(f, c, s')
  {
    var k, k' := CarriedIn(families), CarriedIn(families[f := fm']);
    var was := if c in families[f].saves then CarriedBy(f, c, families[f].saves[c]) else iset{};
    forall x
      ensures x in k' <==> x in k - was + CarriedBy(f, c, s')
    {
    }
  }

  lemma CarriedSame(families: map<nat, Family>, f: nat, fm': Family)
    requires f in families && fm'.saves == families[f].saves
    ensures CarriedIn(families[f := fm']) == CarriedIn(families)
  {
  }

  lemma WriteKeepsRoots(b: Backend, k: Carried, s: Save)
    requires RootsInv(b, k) && (Creating(s) ==> s.h.id !in b.inserted)
    ensures RootsInv(Exec(b, EffectOf(s, WriteOp)), k)
  {
    match EffectOf(s, WriteOp)
    case Insert(id) => InsertKeepsRoots(b, k, id);
    case Rotate(p, id) => RotateKeepsRoots(b, k, p, id);
    case _ =>
  }

  lemma RemoveKeepsRoots(b: Backend, k: Carried, id: Id)
    requires RootsInv(b, k)
    ensures RootsInv(Exec(b, Remove(id)), k)
  {
    ShrinkKeepsRoots(b, k, k, {id});
    assert id in b.present ==> Exec(b, Remove(id)) == Purge(b, {id});
  }

  /** An answered call moves the carried sources as its statement moved the records. */
  lemma AnswerKeepsRoots(b: Backend, k: Carried, f: nat, c: nat, s: Save, op: Op)
    requires RootsInv(b, k) && AnswersNewly(b, s, op)
    requires CarriedBy(f, c, s) <= k
    ensures var e := EffectOf(s, op);
            var s' := s.(call := Acked(op, Accepts(b, e)));
            RootsInv(Exec(b, e), k - CarriedBy(f, c, s) + CarriedBy(f, c, s'))
  {
    var e := EffectOf(s, op);
    var s' := s.(call := Acked(op, Accepts(b, e)));
    var k' := k - CarriedBy(f, c, s) + CarriedBy(f, c, s');
    match op
    case WriteOp =>
      assert k' == k;
      WriteKeepsRoots(b, k, s);
    case DropSource =>
      var p := s.origin.value;
      if p in b.present {
        assert k' == k + iset{(f, c, p)};
        CarryKeepsRoots(b, k, f, c, p);
      } else {
        assert k' == k;
      }
    case InsertTarget =>
      var p := s.origin.value;
      assert k' == k - iset{(f, c, p)};
      assert s.h.id !in b.present;
      LandKeepsRoots(b, k, f, c, p, s.h.id);
    case _ =>
      assert k' == k;
      RemoveKeepsRoots(b, k, e.id);
  }

  lemma CarriedByIsIn(families: map<nat, Family>, f: nat, c: nat)
    requires f in families && c in families[f].saves
    ensures CarriedBy(f, c, families[f].saves[c]) <= CarriedIn(families)
  {
  }

  /** What the roots need to know of an answered call. */
  ghost predicate AnswersNewly(b: Backend, x: Save, op: Op) {
    && (Lands(x, op) ==> x.h.id !in b.inserted)
    && ((x.call == InFlight(op) && (op == DropSource || op == InsertTarget ==> x.origin.Some?))
        || (x.call == Idle && op == WriteOp))
  }

  lemma AnswerView(s: State, f: nat, c: nat, op: Op)
    requires f in s.families && c in s.families[f].saves
    requires var fm := s.families[f];
             (Can(fm, Execute(c)) && op == fm.saves[c].call.op) || (Can(fm, LocalWrite(c)) && op == WriteOp)
    requires GlobalInv(s)
    ensures AnswersNewly(s.backend, s.families[f].saves[c], op)
  {
    hide RootsInv, Relates, Ownership, FamilyInv;
    RootsAreWf(s);
    FamilyOwns(s, f);
    SaveView(s.families[f], c);
    hide GlobalInv;
    AnswerAddsNew(s.families[f], c, op, s.backend);
  }

  lemma RootsAreWf(s: State)
    requires GlobalInv(s)
    ensures RootsWf(s.backend)
  {
    hide FamilyInv, Relates, Ownership;
  }

  lemma AnswerRoots(families: map<nat, Family>, b: Backend, f: nat, c: nat, t: Step, op: Op)
    requires f in families && Can(families[f], t)
    requires (t == Execute(c) && op == families[f].saves[c].call.op) || (t == LocalWrite(c) && op == WriteOp)
    requires RootsInv(b, CarriedIn(families))
    requires AnswersNewly(b, families[f].saves[c], op)
    ensures var (fm', b') := After(families[f], t, b);
            RootsInv(b', CarriedIn(families[f := fm']))
  {
    hide RootsInv, Exec, Accepts;
    var x := families[f].saves[c];
    var e := EffectOf(x, op);
    var x' := x.(call := Acked(op, Accepts(b, e)));
    var (fm', b') := After(families[f], t, b);
    CarriedByIsIn(families, f, c);
    AnswerKeepsRoots(b, CarriedIn(families), f, c, x, op);
    assert fm' == Answer(families[f], c, op, Accepts(b, e)) && b' == Exec(b, e);
    CarriedUpdate(families, f, fm', c, fm'.saves[c]);
    assert CarriedBy(f, c, fm'.saves[c]) == CarriedBy(f, c, x');
  }

  lemma AnswerStepRoots(s: State, f: nat, c: nat, t: Step)
    requires GlobalInv(s) && f in s.families && Can(s.families[f], t)
    requires t == Execute(c) || t == LocalWrite(c)
    ensures var (fm', b') := After(s.families[f], t, s.backend);
            RootsInv(b', CarriedIn(s.families[f := fm']))
  {
    var op := if t.Execute? then s.families[f].saves[c].call.op else WriteOp;
    AnswerView(s, f, c, op);
    AnswerRoots(s.families, s.backend, f, c, t, op);
  }

  /** The save a step concerns, unless it answers a backend call. */
  function Concerns(t: Step): Option<nat> {
    match t
    case BeginSave(_, c, _) => Some(c)
    case AcquireWrite(c) => Some(c)
    case Dispatch(c, _) => Some(c)
    case Finish(c) => Some(c)
    case ConfirmRemoved(c) => Some(c)
    case Abandon(c) => Some(c)
    case _ => None
  }

  lemma OtherStepSaves(fm: Family, b: Backend, t: Step, c: nat)
    requires Can(fm, t) && Concerns(t) == Some(c)
    ensures var fm' := After(fm, t, b).0;
            && c in fm'.saves && fm'.saves == fm.saves[c := fm'.saves[c]]
            && (Carries(fm'.saves[c]) ==>
                  c in fm.saves && Carries(fm.saves[c]) && fm'.saves[c].origin == fm.saves[c].origin)
  {
    hide Exec, Accepts, Mark, DropGuard, Creating, PersistenceOrigin, PersistenceAttempt, Attempt;
  }

  lemma OtherStepLeaves(fm: Family, b: Backend, t: Step)
    requires Can(fm, t) && Concerns(t) == None && !t.Execute? && !t.LocalWrite?
    ensures After(fm, t, b).0.saves == fm.saves
  {
    hide Exec, Accepts;
  }

  lemma OtherStepRemoves(fm: Family, b: Backend, t: Step)
    requires Can(fm, t) && !t.Execute? && !t.LocalWrite?
    ensures After(fm, t, b).1 == b || exists id :: After(fm, t, b).1 == Exec(b, Remove(id))
  {
  }

  lemma OtherStepCarries(families: map<nat, Family>, b: Backend, f: nat, t: Step)
    requires f in families && Can(families[f], t) && !t.Execute? && !t.LocalWrite?
    ensures var (fm', b') := After(families[f], t, b);
            && CarriedIn(families[f := fm']) <= CarriedIn(families)
            && (b' == b || exists id :: b' == Exec(b, Remove(id)))
  {
    hide Exec, Accepts, After, Can;
    var fm := families[f];
    var (fm', b') := After(fm, t, b);
    OtherStepRemoves(fm, b, t);
    match Concerns(t) {
      case None =>
        OtherStepLeaves(fm, b, t);
        CarriedSame(families, f, fm');
      case Some(c) =>
        OtherStepSaves(fm, b, t, c);
        CarriedUpdate(families, f, fm', c, fm'.saves[c]);
        if c in fm.saves {
          CarriedByIsIn(families, f, c);
        }
        hide CarriedIn;
    }
  }

  lemma StepRoots(s: State, f: nat, t: Step)
    requires GlobalInv(s) && f in s.families && Can(s.families[f], t)
    ensures var (fm', b') := After(s.families[f], t, s.backend);
            RootsInv(b', CarriedIn(s.families[f := fm']))
  {
    hide RootsInv, FamilyInv, Relates, Ownership, CarriedIn, After, Exec, Can;
    if t.Execute? || t.LocalWrite? {
      AnswerStepRoots(s, f, t.c, t);
    } else {
      var (fm', b') := After(s.families[f], t, s.backend);
      var k, k' := CarriedIn(s.families), CarriedIn(s.families[f := fm']);
      OtherStepCarries(s.families, s.backend, f, t);
      if b' != s.backend {
        var id :| b' == Exec(s.backend, Remove(id));
        RemoveKeepsRoots(s.backend, k, id);
      }
      PurgeNothing(b');
      ShrinkKeepsRoots(b', k, k', {});
    }
  }

  lemma PurgeNothing(b: Backend)
    ensures Purge(b, {}) == b
  {
    assert b.present - {} == b.present;
  }

  // ----- Ownership under a step -----

  /** A step inserts into the backend exactly what it records as landed. */
  lemma StepLands(fm: Family, t: Step, b: Backend)
    requires Can(fm, t) && (forall id :: id in Added(fm, t) ==> id !in b.present)
    requires t.Execute? || t.LocalWrite? ==>
               var op := if t.Execute? then fm.saves[t.c].call.op else WriteOp;
               Adds(EffectOf(fm.saves[t.c], op)) == if Lands(fm.saves[t.c], op) then {fm.saves[t.c].h.id} else {}
    ensures var (fm', b') := After(fm, t, b);
            exists landed ::
              b'.inserted == b.inserted + landed && fm'.landed == fm.landed + landed && landed <= Added(fm, t)
  {
    var (fm', b') := After(fm, t, b);
    if t.Execute? || t.LocalWrite? {
      var op := if t.Execute? then fm.saves[t.c].call.op else WriteOp;
      var e := EffectOf(fm.saves[t.c], op);
      var landed := if Accepts(b, e) then Adds(e) else {};
      assert b'.inserted == b.inserted + landed;
      assert fm'.landed == fm.landed + landed;
    } else {
      assert b'.inserted == b.inserted + {} && fm'.landed == fm.landed + {};
    }
  }

  lemma StepSources(fm: Family, t: Step, b: Backend)
    requires Can(fm, t)
    ensures var (fm', _) := After(fm, t, b);
            && fm'.lin.seed == fm.lin.seed && fm'.lin.isFresh == fm.lin.isFresh
            && fm'.lin.sources.Keys == (if Regenerates(t) then fm.lin.sources.Keys + {t.a.id} else fm.lin.sources.Keys)
  {
  }

  /** A family whose writes just landed in the backend. */
  ghost predicate LandsIn(s: State, s': State, f: nat, fm': Family, landed: set<Id>) {
    && f in s.families
    && s'.families == s.families[f := fm'] && s'.owner == s.owner && s'.used == s.used
    && (forall id :: Generated(fm', id) <==> Generated(s.families[f], id))
    && (forall id :: id in fm'.lin.sources ==> id in s.families[f].lin.sources)
    && fm'.landed == s.families[f].landed + landed
    && s'.backend.inserted == s.backend.inserted + landed
    && (forall id :: id in landed ==> Generated(s.families[f], id))
  }

  lemma LandKeepsOwners(s: State, s': State, f: nat, fm': Family, landed: set<Id>)
    requires Ownership(s) && LandsIn(s, s', f, fm', landed)
    ensures forall g, i :: g in s'.families && Generated(s'.families[g], i) ==> i in s'.owner && s'.owner[i] == g
    ensures forall i :: i in s'.owner ==> s'.owner[i] in s'.families && Generated(s'.families[s'.owner[i]], i)
    ensures forall g, i :: g in s'.families && i in s'.families[g].lin.sources ==> i in s'.used
  {
    hide Generated;
  }

  lemma LandKeepsOwnership(s: State, s': State, f: nat, fm': Family, landed: set<Id>)
    requires Ownership(s) && LandsIn(s, s', f, fm', landed)
    ensures Ownership(s')
  {
    hide Generated;
    LandKeepsOwners(s, s', f, fm', landed);
    forall i
      ensures i in s'.backend.inserted <==> i in s'.owner && i in s'.families[s'.owner[i]].landed
    {
    }
  }

  /** A fresh identifier joins what a family generated, or starts a new family. */
  ghost predicate Generates(s: State, s': State, f: nat, fm': Family, id: Id) {
    && id !in s.used && id !in s.owner
    && s'.families == s.families[f := fm'] && s'.owner == s.owner[id := f] && s'.used == s.used + {id}
    && s'.backend.inserted == s.backend.inserted
    && id !in fm'.landed && id in fm'.lin.sources
    && (forall i :: Generated(fm', i) <==> i == id || (f in s.families && Generated(s.families[f], i)))
    && (forall i :: i in fm'.lin.sources ==> i == id || (f in s.families && i in s.families[f].lin.sources))
    && fm'.landed == if f in s.families then s.families[f].landed else {}
  }

  lemma GenerateKeepsOwners(s: State, s': State, f: nat, fm': Family, id: Id)
    requires Ownership(s) && Generates(s, s', f, fm', id)
    ensures forall g, i :: g in s'.families && Generated(s'.families[g], i) ==> i in s'.owner && s'.owner[i] == g
    ensures forall i :: i in s'.owner ==> s'.owner[i] in s'.families && Generated(s'.families[s'.owner[i]], i)
    ensures forall g, i :: g in s'.families && i in s'.families[g].lin.sources ==> i in s'.used
  {
    hide Generated;
  }

  lemma GenerateKeepsOwnership(s: State, s': State, f: nat, fm': Family, id: Id)
    requires Ownership(s) && Generates(s, s', f, fm', id)
    ensures Ownership(s')
  {
    hide Generated;
    GenerateKeepsOwners(s, s', f, fm', id);
    forall i
      ensures i in s'.backend.inserted <==> i in s'.owner && i in s'.families[s'.owner[i]].landed
    {
    }
  }

  lemma OwnedIsUsed(s: State, id: Id)
    requires Ownership(s) && id in s.owner
    ensures id in s.used
  {
    assert Generated(s.families[s.owner[id]], id);
  }

  /** A family that generated nothing and wrote nothing is added. */
  lemma GuestKeepsOwnership(s: State, s': State, f: nat, fm': Family)
    requires Ownership(s) && f !in s.families
    requires s'.families == s.families[f := fm'] && s'.owner == s.owner && s.used <= s'.used
    requires s'.backend == s.backend && fm'.landed == {}
    requires !fm'.lin.isFresh && fm'.lin.sources.Keys == {fm'.lin.seed} && fm'.lin.seed in s'.used
    ensures Ownership(s')
  {
    assert forall g :: g in s.families ==> s'.families[g] == s.families[g];
    assert forall i :: !Generated(fm', i);
  }

  // ----- Every action -----

  /** What an acting family adds concerns no other family with a trusted identity. */
  lemma OthersKeepRelation(s: State, f: nat, g: nat, b': Backend, added: set<Id>)
    requires Ownership(s) && f in s.families && g in s.families && g != f
    requires Relates(s.families[g], s.backend) && Follows(s.backend, b', added)
    requires forall id :: id in added ==> Generated(s.families[f], id)
    ensures Relates(s.families[g], b')
  {
    var fg := s.families[g];
    if !Bare(fg) {
      forall id | id in added
        ensures id !in fg.lin.sources
      {
        assert !Generated(fg, id);
      }
    }
    RelatesFrame(fg, s.backend, b', added);
  }

  lemma NextOfAct(s: State, f: nat, t: Step)
    requires Allowed(s, Act(f, t))
    ensures var (fm', b') := After(s.families[f], t, s.backend);
            var s' := Next(s, Act(f, t));
            && s'.families == s.families[f := fm'] && s'.backend == b'
            && (Regenerates(t) ==>
                  b' == s.backend && s'.owner == s.owner[t.a.id := f] && s'.used == s.used + {t.a.id}
                  && fm'.landed == s.families[f].landed && t.a.id !in s.used)
            && (!Regenerates(t) ==> s'.owner == s.owner && s'.used == s.used)
  {
  }

  /** What is known of one family and of fresh identifiers. */
  lemma FamilyFacts(s: State, f: nat)
    requires GlobalInv(s) && f in s.families
    ensures FamilyInv(s.families[f]) && Relates(s.families[f], s.backend) && Owns(s.families[f], s.backend)
    ensures forall id :: id !in s.used ==> id !in s.backend.present
  {
    hide FamilyInv, Relates, RootsInv, Ownership, Owns;
    OwnersOf(s);
    RootsAreWf(s);
    FamilyOwns(s, f);
    FreshIsAbsent(s);
  }

  lemma ActedFamily(s: State, f: nat, t: Step)
    requires GlobalInv(s) && Allowed(s, Act(f, t))
    ensures FamilyInv(After(s.families[f], t, s.backend).0)
    ensures StepRelation(s.families[f], t, s.backend)
  {
    hide GlobalInv, FamilyInv, Relates, Owns, StepRelation, Can, Do, Request;
    var fm := s.families[f];
    FamilyFacts(s, f);
    StepKeeps(fm, t, true);
    if Request(fm, t).Some? {
      StepKeeps(fm, t, Accepts(s.backend, Request(fm, t).value));
    }
    StepRelates(fm, t, s.backend);
  }

  lemma ActKeepsFamilies(s: State, f: nat, t: Step)
    requires GlobalInv(s) && Allowed(s, Act(f, t))
    ensures var s' := Next(s, Act(f, t));
            && (forall g :: g in s'.families ==> FamilyInv(s'.families[g]))
            && (forall g :: g in s'.families ==> Relates(s'.families[g], s'.backend))
  {
    hide FamilyInv, Relates, Ownership, RootsInv, After, Can, Do, Request, Added, Next, Generated;
    var fm := s.families[f];
    var (fm', b') := After(fm, t, s.backend);
    var s' := Next(s, Act(f, t));
    NextOfAct(s, f, t);
    ActedFamily(s, f, t);
    forall g | g in s'.families
      ensures FamilyInv(s'.families[g]) && Relates(s'.families[g], s'.backend)
    {
      if g != f {
        OthersKeepRelation(s, f, g, b', Added(fm, t));
      }
    }
  }

  lemma FreshIsAbsent(s: State)
    requires GlobalInv(s)
    ensures forall id :: id !in s.used ==> id !in s.backend.inserted && id !in s.owner && id !in s.backend.present
  {
    forall id | id in s.owner
      ensures id in s.used
    {
      OwnedIsUsed(s, id);
    }
  }

  lemma ActKeepsOwnership(s: State, f: nat, t: Step)
    requires GlobalInv(s) && Allowed(s, Act(f, t))
    ensures Ownership(Next(s, Act(f, t)))
  {
    hide FamilyInv, Relates, RootsInv, After, Can, Do, Request, Next, Ownership, GlobalInv;
    var fm := s.families[f];
    var (fm', b') := After(fm, t, s.backend);
    var s' := Next(s, Act(f, t));
    OwnersOf(s);
    NextOfAct(s, f, t);
    StepSources(fm, t, s.backend);
    if Regenerates(t) {
      FreshIsAbsent(s);
      FreshIsNotLanded(s, f, t.a.id);
      assert Generates(s, s', f, fm', t.a.id);
      GenerateKeepsOwnership(s, s', f, fm', t.a.id);
    } else {
      var landed := LandedBy(s, f, t);
      assert LandsIn(s, s', f, fm', landed);
      LandKeepsOwnership(s, s', f, fm', landed);
    }
  }

  lemma FreshIsNotLanded(s: State, f: nat, id: Id)
    requires GlobalInv(s) && f in s.families && id !in s.used
    ensures id !in s.families[f].landed
    ensures s.families[f].lin.isFresh || id != s.families[f].lin.seed
  {
    assert FamilyInv(s.families[f]);
    assert s.families[f].lin.seed in s.families[f].lin.sources;
  }

  lemma LandedBy(s: State, f: nat, t: Step) returns (landed: set<Id>)
    requires GlobalInv(s) && Allowed(s, Act(f, t)) && !Regenerates(t)
    ensures var (fm', b') := After(s.families[f], t, s.backend);
            && b'.inserted == s.backend.inserted + landed
            && fm'.landed == s.families[f].landed + landed
            && forall id :: id in landed ==> Generated(s.families[f], id)
  {
    var fm := s.families[f];
    var (fm', b') := After(fm, t, s.backend);
    assert FamilyInv(fm) && Relates(fm, s.backend);
    FamilyOwns(s, f);
    StepRelates(fm, t, s.backend);
    if t.Execute? || t.LocalWrite? {
      SaveView(fm, t.c);
      AnswerAddsNew(fm, t.c, if t.Execute? then fm.saves[t.c].call.op else WriteOp, s.backend);
    }
    assert forall id :: id in Added(fm, t) ==> id !in s.backend.present;
    hide GlobalInv, FamilyInv, Relates, Ownership;
    StepLands(fm, t, s.backend);
    landed :| b'.inserted == s.backend.inserted + landed && fm'.landed == fm.landed + landed
              && landed <= Added(fm, t);
  }

  lemma ActKeeps(s: State, f: nat, t: Step)
    requires GlobalInv(s) && Allowed(s, Act(f, t))
    ensures GlobalInv(Next(s, Act(f, t)))
  {
    hide FamilyInv, Relates, Ownership, RootsInv, CarriedIn, After, Can, Do, Request, Next;
    ActKeepsFamilies(s, f, t);
    ActKeepsOwnership(s, f, t);
    NextOfAct(s, f, t);
    StepRoots(s, f, t);
  }

  lemma NewFamilyInv(slot: nat, id: Id, lin: Lineage)
    requires IsInitial(lin, slot, id)
    ensures FamilyInv(NewFamily(lin))
  {
  }

  lemma NewFamilyRelates(slot: nat, id: Id, lin: Lineage, b: Backend)
    requires IsInitial(lin, slot, id)
    requires lin.isFresh ==> id !in b.present
    requires !lin.isFresh && lin.chain != [] ==> id in b.inserted
    ensures Relates(NewFamily(lin), b)
  {
  }

  lemma NewKeepsOwnership(s: State, f: nat, slot: nat, id: Id)
    requires GlobalInv(s) && Allowed(s, New(f, slot, id))
    ensures Ownership(Next(s, New(f, slot, id)))
  {
    hide FamilyInv, Relates, RootsInv, Ownership, GlobalInv;
    var s' := Next(s, New(f, slot, id));
    FreshIsAbsent(s);
    OwnersOf(s);
    assert Generates(s, s', f, s'.families[f], id);
    GenerateKeepsOwnership(s, s', f, s'.families[f], id);
  }

  lemma OwnersOf(s: State)
    requires GlobalInv(s)
    ensures Ownership(s)
  {
    hide FamilyInv, Relates, RootsInv, Ownership;
  }

  lemma LoadKeepsOwnership(s: State, a: Action)
    requires GlobalInv(s) && Allowed(s, a) && (a.Load? || a.Deserialize?)
    ensures Ownership(Next(s, a))
  {
    hide FamilyInv, Relates, RootsInv, Ownership, GlobalInv;
    var s' := Next(s, a);
    FreshIsAbsent(s);
    OwnersOf(s);
    assert a.id in s'.used;
    GuestKeepsOwnership(s, s', a.f, s'.families[a.f]);
  }

  lemma ArrivalFacts(s: State, a: Action) returns (lin: Lineage)
    requires Allowed(s, a) && (a.New? || a.Load? || a.Deserialize?)
    ensures var s' := Next(s, a);
            && a.f !in s.families && s'.backend == s.backend
            && IsInitial(lin, a.slot, a.id) && s'.families == s.families[a.f := NewFamily(lin)]
            && (lin.isFresh ==> a.id !in s.used)
            && (!lin.isFresh && lin.chain != [] ==> a.id in s.backend.inserted)
  {
    lin := match a
           case New(_, slot, id) => NewLineage(slot, id)
           case Load(_, slot, id) => LoadedLineage(slot, id)
           case Deserialize(_, slot, id) => BareLineage(slot, id);
  }

  lemma ArrivalRelates(s: State, a: Action)
    requires GlobalInv(s) && Allowed(s, a) && (a.New? || a.Load? || a.Deserialize?)
    ensures var s' := Next(s, a);
            && a.f !in s.families && a.f in s'.families
            && s'.families == s.families[a.f := s'.families[a.f]] && s'.backend == s.backend
            && FamilyInv(s'.families[a.f]) && Relates(s'.families[a.f], s.backend)
            && CarriedIn(s'.families) == CarriedIn(s.families)
  {
    hide FamilyInv, Relates, Next, IsInitial, CarriedIn, Allowed, RootsInv, Ownership;
    FreshIsAbsent(s);
    var lin := ArrivalFacts(s, a);
    NewFamilyInv(a.slot, a.id, lin);
    NewFamilyRelates(a.slot, a.id, lin, s.backend);
    CarriedNew(s.families, a.f, lin);
  }

  lemma CarriedNew(families: map<nat, Family>, f: nat, lin: Lineage)
    requires f !in families
    ensures CarriedIn(families[f := NewFamily(lin)]) == CarriedIn(families)
  {
  }

  lemma ArrivalKeeps(s: State, a: Action)
    requires GlobalInv(s) && Allowed(s, a) && (a.New? || a.Load? || a.Deserialize?)
    ensures GlobalInv(Next(s, a))
  {
    hide FamilyInv, Relates, Ownership, RootsInv, CarriedIn, Next;
    match a {
      case New(f, slot, id) => NewKeepsOwnership(s, f, slot, id);
      case _ => LoadKeepsOwnership(s, a);
    }
    ArrivalRelates(s, a);
  }

  lemma LoseKeepsOwnership(s: State, ids: set<Id>)
    requires Ownership(s)
    ensures Ownership(Next(s, Lose(ids)))
  {
  }

  lemma PurgeFollows(b: Backend, ids: set<Id>)
    ensures Follows(b, Purge(b, ids), {})
  {
  }

  lemma LoseKeeps(s: State, ids: set<Id>)
    requires GlobalInv(s)
    ensures GlobalInv(Next(s, Lose(ids)))
  {
    hide FamilyInv, Relates, Ownership, RootsInv, CarriedIn, Follows, Purge;
    var s' := Next(s, Lose(ids));
    var k := CarriedIn(s.families);
    LoseKeepsOwnership(s, ids);
    PurgeFollows(s.backend, ids);
    forall f | f in s.families
      ensures Relates(s.families[f], s'.backend)
    {
      RelatesFrame(s.families[f], s.backend, s'.backend, {});
    }
    ShrinkKeepsRoots(s.backend, k, k, ids);
  }

  /** Every action of the system keeps the invariant. */
  lemma ActionKeeps(s: State, a: Action)
    requires GlobalInv(s) && Allowed(s, a)
    ensures GlobalInv(Next(s, a))
  {
    match a
    case Act(f, t) => ActKeeps(s, f, t);
    case Lose(ids) => LoseKeeps(s, ids);
    case _ => ArrivalKeeps(s, a);
  }

  lemma {:induction false} RunKeeps(states: seq<State>, acts: seq<Action>, k: nat)
    requires Execution(states, acts) && k < |states|
    ensures GlobalInv(states[k])
  {
    hide GlobalInv, Allowed, Next;
    if k == 0 {
      InitHolds();
    } else {
      RunKeeps(states, acts, k - 1);
      ActionKeeps(states[k - 1], acts[k - 1]);
    }
  }

  lemma InitHolds()
    ensures GlobalInv(Init())
  {
  }

  /** The invariants of one family and its records, at any moment of an execution. */
  lemma {:induction false} RunKeepsFamily(states: seq<State>, acts: seq<Action>, k: nat, f: nat)
    requires Execution(states, acts) && k < |states| && f in states[k].families
    ensures FamilyInv(states[k].families[f]) && Relates(states[k].families[f], states[k].backend)
  {
    hide FamilyInv, Relates, Ownership, RootsInv, Execution;
    RunKeeps(states, acts, k);
  }
}
