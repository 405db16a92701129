/**
 * Families that were merely deserialized: never loaded through a store, never
 * created. They can delete but not save, so what their deletions achieve is decided
 * by the identifier they delete.
 */
module Deserialized {
  import opened Common
  import Identity
  import opened Backend
  import opened Family
  import opened FamilyInvariant
  import opened Protocol
  import opened Relation
  import opened Invariant
  import opened Guarantees

  /** A bare family has no save at all, and a deletion through it removes the handle's own identifier. */
  ghost predicate Inert(fm: Family) {
    && Bare(fm) && fm.saves == map[] && fm.landed == {}
    && forall d :: d in fm.deletes ==> fm.deletes[d].target == fm.deletes[d].h.id
  }

  lemma StepKeepsInert(fm: Family, t: Step, ok: bool)
    requires Identity.LineageInv(fm.lin) && Can(fm, t) && Inert(fm)
    ensures Inert(Do(fm, t, ok)) && Do(fm, t, ok).lin.seed == fm.lin.seed
  {
  }

  lemma StepKeepsOrigin(fm: Family, t: Step, ok: bool)
    requires Can(fm, t) && !Bare(fm)
    ensures !Bare(Do(fm, t, ok))
  {
    hide Identity.PersistenceOrigin, Identity.PersistenceAttempt, Identity.Regenerate, Identity.MarkPersisted;
  }

  lemma NextKeepsInert(s: State, a: Action, f: nat)
    requires Allowed(s, a) && f in s.families && FamilyInv(s.families[f])
    ensures f in Next(s, a).families
    ensures Inert(s.families[f]) ==> Inert(Next(s, a).families[f])
                                     && Next(s, a).families[f].lin.seed == s.families[f].lin.seed
    ensures !Bare(s.families[f]) ==> !Bare(Next(s, a).families[f])
  {
    LineageOf(s.families[f]);
    hide FamilyInv, Do, Can, Inert, Bare, Identity.LineageInv;
    if a.Act? && a.f == f {
      var fm, t := s.families[f], a.t;
      NextOfAct(s, f, t);
      StepOutcome(fm, t, true);
      if Request(fm, t).Some? {
        StepOutcome(fm, t, Accepts(s.backend, Request(fm, t).value));
      }
    }
  }

  lemma StepOutcome(fm: Family, t: Step, ok: bool)
    requires Identity.LineageInv(fm.lin) && Can(fm, t)
    ensures Inert(fm) ==> Inert(Do(fm, t, ok)) && Do(fm, t, ok).lin.seed == fm.lin.seed
    ensures !Bare(fm) ==> !Bare(Do(fm, t, ok))
  {
    hide Identity.LineageInv, Can, Do, Inert, Bare;
    if Inert(fm) {
      StepKeepsInert(fm, t, ok);
    }
    if !Bare(fm) {
      StepKeepsOrigin(fm, t, ok);
    }
  }

  lemma LineageOf(fm: Family)
    requires FamilyInv(fm)
    ensures Identity.LineageInv(fm.lin)
  {
  }

  /** A bare family never saved anything, and always was bare. */
  lemma {:induction false} BareIsInert(states: seq<State>, acts: seq<Action>, k: nat, f: nat)
    requires Execution(states, acts) && k < |states| && f in states[k].families && Bare(states[k].families[f])
    ensures Inert(states[k].families[f])
  {
    if k > 0 {
      if f in states[k - 1].families {
        RunKeepsFamily(states, acts, k - 1, f);
        NextKeepsInert(states[k - 1], acts[k - 1], f);
        BareIsInert(states, acts, k - 1, f);
      } else {
        Arrives(states[k - 1], acts[k - 1], f);
      }
    }
  }

  lemma Arrives(s: State, a: Action, f: nat)
    requires Allowed(s, a) && f !in s.families && f in Next(s, a).families && Bare(Next(s, a).families[f])
    ensures Inert(Next(s, a).families[f])
  {
  }

  /** Nothing a bare family holds is stored, except the identifier it was deserialized with. */
  lemma {:induction false} OnlySeedIsStored(states: seq<State>, acts: seq<Action>, k: nat, f: nat, id: Id)
    requires Execution(states, acts) && k < |states| && f in states[k].families && Bare(states[k].families[f])
    requires id in HeldIds(states[k].families[f]) && id in states[k].backend.present
    ensures id == states[k].families[f].lin.seed
  {
    BareIsInert(states, acts, k, f);
    RunKeeps(states, acts, k);
    hide FamilyInv, Relates, Execution;
    RootsAreWf(states[k]);
    FamilyOwns(states[k], f);
  }

  lemma {:induction false} StaysInert(states: seq<State>, acts: seq<Action>, k: nat, j: nat, f: nat)
    requires Execution(states, acts) && k <= j < |states| && f in states[k].families && Inert(states[k].families[f])
    ensures f in states[j].families && Inert(states[j].families[f])
    ensures states[j].families[f].lin.seed == states[k].families[f].lin.seed
    decreases j - k
  {
    hide FamilyInv, Relates, Allowed, Next, Inert;
    if k < j {
      RunKeepsFamily(states, acts, k, f);
      NextKeepsInert(states[k], acts[k], f);
      StaysInert(states, acts, k + 1, j, f);
    }
  }

  /** What the deletion of a bare family does to the backend. */
  lemma ErasesTarget(s: State, f: nat, d: nat)
    requires Allowed(s, Act(f, ExecuteDelete(d)))
    ensures var s' := Next(s, Act(f, ExecuteDelete(d)));
            && s'.backend.present == s.backend.present - {s.families[f].deletes[d].target}
            && s.backend.inserted == s'.backend.inserted
            && f in s'.families && s'.families[f].lin == s.families[f].lin
  {
  }

  /**
   * The deletion of a deserialized session, at the moment the backend executes it.
   * Something the family holds remains exactly when the record it came from is
   * stored and the handle no longer carries its identifier, having been regenerated.
   * When nothing remains of a seed that was stored once, nothing ever comes back.
   */
  lemma {:induction false} DeletionRemovesExactlyItsTarget(
      states: seq<State>, acts: seq<Action>, k: nat, j: nat, f: nat, d: nat)
    requires Execution(states, acts) && k < j < |states| && acts[k] == Act(f, ExecuteDelete(d))
    requires f in states[k].families && Can(states[k].families[f], ExecuteDelete(d))
    requires Bare(states[k].families[f])
    ensures var seed := states[k].families[f].lin.seed;
            && (Remains(states[k + 1], f) <==>
                  seed in states[k].backend.present && states[k].families[f].deletes[d].h.id != seed)
            && (seed in states[k].backend.inserted && !Remains(states[k + 1], f) ==> !Remains(states[j], f))
  {
    BareIsInert(states, acts, k, f);
    StaysInert(states, acts, k, k + 1, f);
    StaysInert(states, acts, k, j, f);
    SeedIsHeld(states, acts, k, f);
    SeedIsHeld(states, acts, k + 1, f);
    ErasesTarget(states[k], f, d);
    assert states[k + 1] == Next(states[k], acts[k]);
    hide GlobalInv, Execution, Next, Allowed, Can;
    var seed := states[k].families[f].lin.seed;
    if Remains(states[k + 1], f) {
      var id :| id in HeldIds(states[k + 1].families[f]) && id in states[k + 1].backend.present;
      OnlySeedIsStored(states, acts, k + 1, f, id);
    }
    if seed in states[k].backend.inserted && !Remains(states[k + 1], f) {
      NoResurrection(states, acts, k + 1, j, seed);
      if Remains(states[j], f) {
        var id :| id in HeldIds(states[j].families[f]) && id in states[j].backend.present;
        OnlySeedIsStored(states, acts, j, f, id);
      }
    }
  }

  lemma {:induction false} SeedIsHeld(states: seq<State>, acts: seq<Action>, k: nat, f: nat)
    requires Execution(states, acts) && k < |states| && f in states[k].families
    ensures states[k].families[f].lin.seed in HeldIds(states[k].families[f])
  {
    RunKeepsFamily(states, acts, k, f);
  }
}
