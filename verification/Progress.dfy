/**
 * What can happen: from any reachable state, a save in standing can run to its
 * completion and a deletion to its return, whoever else is waiting.
 */
module Progress {
  import opened Common
  import opened Identity
  import opened Backend
  import opened Family
  import opened Protocol

  ghost predicate Leads(s: State, acts: seq<Action>, s': State)
    decreases |acts|
  {
    if acts == [] then s' == s
    else Allowed(s, acts[0]) && Leads(Next(s, acts[0]), acts[1..], s')
  }

  lemma {:induction false} LeadsExtends(s: State, acts: seq<Action>, m: State, a: Action)
    requires Leads(s, acts, m) && Allowed(m, a)
    ensures Leads(s, acts + [a], Next(m, a))
    decreases |acts|
  {
    if acts == [] {
      assert (acts + [a])[1..] == [];
      assert Leads(Next(m, a), [], Next(m, a));
    } else {
      LeadsExtends(Next(s, acts[0]), acts[1..], m, a);
      assert (acts + [a])[1..] == acts[1..] + [a];
    }
  }

  /** A sequence of allowed actions is an execution ending where it leads. */
  lemma {:induction false} LeadsIsExecution(acts: seq<Action>, s': State) returns (states: seq<State>)
    requires Leads(Init(), acts, s')
    ensures Execution(states, acts) && states[|acts|] == s'
  {
    states := StatesOf(Init(), acts);
    StatesOfLast(Init(), acts, s');
  }

  ghost function StatesOf(s: State, acts: seq<Action>): (states: seq<State>)
    ensures |states| == |acts| + 1 && states[0] == s
    decreases |acts|
  {
    if acts != [] && Allowed(s, acts[0]) then [s] + StatesOf(Next(s, acts[0]), acts[1..])
    else [s] + seq(|acts|, _ => s)
  }

  lemma {:induction false} StatesOfLast(s: State, acts: seq<Action>, s': State)
    requires Leads(s, acts, s')
    ensures var states := StatesOf(s, acts);
            && states[|acts|] == s'
            && forall k :: 0 <= k < |acts| ==> Allowed(states[k], acts[k]) && states[k + 1] == Next(states[k], acts[k])
    decreases |acts|
  {
    if acts != [] {
      var rest := StatesOf(Next(s, acts[0]), acts[1..]);
      StatesOfLast(Next(s, acts[0]), acts[1..], s');
      var states := StatesOf(s, acts);
      assert states == [s] + rest;
      forall k | 0 <= k < |acts|
        ensures Allowed(states[k], acts[k]) && states[k + 1] == Next(states[k], acts[k])
      {
        if k > 0 {
          assert states[k] == rest[k - 1] && acts[k] == acts[1..][k - 1];
        }
      }
    }
  }

  lemma Extend(acts: seq<Action>, s: State, a: Action) returns (acts': seq<Action>, s': State)
    requires Leads(Init(), acts, s) && Allowed(s, a)
    ensures Leads(Init(), acts', s') && acts' == acts + [a] && s' == Next(s, a)
  {
    LeadsExtends(Init(), acts, s, a);
    acts', s' := acts + [a], Next(s, a);
  }

  /** One step of a family, its effect read off the family and the backend alone. */
  lemma ExtendBy(acts: seq<Action>, s: State, f: nat, t: Step) returns (acts': seq<Action>, s': State)
    requires Leads(Init(), acts, s) && f in s.families && Can(s.families[f], t) && !Regenerates(t)
    ensures Leads(Init(), acts', s') && f in s'.families
    ensures s'.families.Keys == s.families.Keys && s'.used == s.used
    ensures Request(s.families[f], t).None? ==>
              s'.backend == s.backend && s'.families[f] == Do(s.families[f], t, true)
    ensures Request(s.families[f], t).Some? ==>
              var e := Request(s.families[f], t).value;
              s'.backend == Exec(s.backend, e) && s'.families[f] == Do(s.families[f], t, Accepts(s.backend, e))
  {
    hide Leads, Can, Do, Exec, Request;
    acts', s' := Extend(acts, s, Act(f, t));
  }

  // ----- A save -----

  /** The backend is in the state the write of `x` needs. */
  predicate Applies(present: set<Id>, x: Save) {
    match x.origin
    case None => x.h.id !in present
    case Some(source) => source in present && (source == x.h.id || x.h.id !in present)
  }

  function SourceOf(x: Save): set<Id> {
    match x.origin
    case None => {}
    case Some(source) => {source}
  }

  /** A waiting save that the lock will admit. */
  ghost predicate Admissible(fm: Family, c: nat, x: Save) {
    && c in fm.saves && fm.saves[c] == x && fm.holder == Free && !fm.uncertain && !fm.lin.shared.destroyed
    && x.phase == Waiting && x.call == Idle && !x.settled && !x.landed
    && x.origin == fm.lin.shared.persisted
    && (x.origin.Some? ==> x.origin == Some(x.h.id) || x.h.rotationFrom == x.origin)
  }

  /** `fm'` is `fm` with save `c` now `x'`, the lock with `holder`, and nothing else changed but what landed. */
  ghost predicate Moves(fm: Family, fm': Family, c: nat, x': Save, holder: Holder) {
    && fm'.lin == fm.lin && fm'.uncertain == fm.uncertain && fm'.deletes == fm.deletes
    && fm'.saves == fm.saves[c := x'] && fm'.holder == holder
  }

  lemma Granted(acts0: seq<Action>, s0: State, f: nat, c: nat, x: Save) returns (acts: seq<Action>, s: State)
    requires Leads(Init(), acts0, s0) && f in s0.families && Admissible(s0.families[f], c, x)
    ensures Leads(Init(), acts, s) && s.families.Keys == s0.families.Keys && s.used == s0.used
    ensures s.backend == s0.backend
    ensures Moves(s0.families[f], s.families[f], c, x.(phase := Guarded, guarded := true), ByWrite(c))
    ensures s.families[f].landed == s0.families[f].landed
  {
    hide Leads;
    acts, s := ExtendBy(acts0, s0, f, AcquireWrite(c));
  }

  lemma AppliesIsAccepted(b: Backend, x: Save)
    requires Applies(b.present, x)
    ensures Accepts(b, EffectOf(x, WriteOp))
    ensures Exec(b, EffectOf(x, WriteOp)).present == b.present - SourceOf(x) + {x.h.id}
  {
  }

  lemma Written(acts0: seq<Action>, s0: State, f: nat, c: nat, x: Save) returns (acts: seq<Action>, s: State)
    requires Leads(Init(), acts0, s0) && f in s0.families && c in s0.families[f].saves && s0.families[f].saves[c] == x
    requires x.phase == Guarded && x.call == Idle && !x.landed && Applies(s0.backend.present, x)
    requires !s0.families[f].lin.shared.destroyed
    requires x.origin.Some? ==> PersistenceOrigin(s0.families[f].lin.shared, x.h).Ok?
    ensures Leads(Init(), acts, s) && s.families.Keys == s0.families.Keys && s.used == s0.used
    ensures s.backend.present == s0.backend.present - SourceOf(x) + {x.h.id}
    ensures Moves(s0.families[f], s.families[f], c, x.(call := Acked(WriteOp, true), landed := Creating(x)),
                  s0.families[f].holder)
  {
    hide Leads, Exec, Accepts, EffectOf, PersistenceOrigin;
    AppliesIsAccepted(s0.backend, x);
    if x.net {
      acts, s := ExtendBy(acts0, s0, f, Dispatch(c, WriteOp));
      assert s.families[f].saves[c] == x.(call := InFlight(WriteOp));
      SameEffect(x, x.(call := InFlight(WriteOp)));
      acts, s := ExtendBy(acts, s, f, Execute(c));
    } else {
      acts, s := ExtendBy(acts0, s0, f, LocalWrite(c));
    }
  }

  lemma SameEffect(x: Save, x': Save)
    requires x.h == x'.h && x.origin == x'.origin
    ensures EffectOf(x, WriteOp) == EffectOf(x', WriteOp)
  {
  }

  /** A confirmed save publishes its identity and releases the lock, leaving nothing uncertain. */
  lemma Published(acts0: seq<Action>, s0: State, f: nat, c: nat, x: Save) returns (acts: seq<Action>, s: State)
    requires Leads(Init(), acts0, s0) && f in s0.families && c in s0.families[f].saves && s0.families[f].saves[c] == x
    requires x.phase == Guarded && (x.call == Acked(WriteOp, true) || x.call == Acked(InsertTarget, true))
    requires !s0.families[f].lin.shared.destroyed && !s0.families[f].uncertain
    ensures Leads(Init(), acts, s) && s.families.Keys == s0.families.Keys && s.used == s0.used
    ensures s.backend == s0.backend
    ensures var fm, fm' := s0.families[f], s.families[f];
            && fm'.lin == Mark(fm.lin, x.h) && !fm'.uncertain && fm'.deletes == fm.deletes && fm'.holder == Free
            && fm'.saves == fm.saves[c := x.(phase := Ended, guarded := true, settled := true)]
  {
    hide Leads, Mark;
    acts, s := ExtendBy(acts0, s0, f, Finish(c));
  }

  /** Once a save waits for the free lock in a certain family and its write applies, it can complete. */
  lemma SaveCompletes(acts0: seq<Action>, s0: State, f: nat, c: nat, x: Save) returns (acts: seq<Action>, s: State)
    requires Leads(Init(), acts0, s0) && f in s0.families
    requires Admissible(s0.families[f], c, x) && Applies(s0.backend.present, x)
    ensures Leads(Init(), acts, s) && s.families.Keys == s0.families.Keys && s.used == s0.used
    ensures s.backend.present == s0.backend.present - SourceOf(x) + {x.h.id}
    ensures var fm, fm' := s0.families[f], s.families[f];
            && fm'.lin == Mark(fm.lin, x.h) && fm'.lin.shared.persisted == Some(x.h.id)
            && !fm'.uncertain && fm'.deletes == fm.deletes && fm'.holder == Free
            && fm'.saves.Keys == fm.saves.Keys && (forall i :: i in fm.saves && i != c ==> fm'.saves[i] == fm.saves[i])
            && fm'.saves[c].phase == Ended && fm'.saves[c].settled
  {
    assert x.origin.Some? ==> PersistenceOrigin(s0.families[f].lin.shared, x.h).Ok?;
    hide Leads, PersistenceOrigin, Applies;
    acts, s := Granted(acts0, s0, f, c, x);
    Unmoved(s0.backend.present, x);
    acts, s := Written(acts, s, f, c, s.families[f].saves[c]);
    acts, s := Published(acts, s, f, c, s.families[f].saves[c]);
  }

  lemma Unmoved(present: set<Id>, x: Save)
    ensures var x' := x.(phase := Guarded, guarded := true);
            (Applies(present, x') <==> Applies(present, x)) && SourceOf(x') == SourceOf(x)
  {
  }

  /**
   * From any reachable state: a clone that may save in an undestroyed, certain
   * family whose lock is free, and whose write the backend can apply, can be saved,
   * through a local or a remote store; its identity is then the published one and
   * its record stored in place of the source.
   */
  lemma AdmittedCanComplete(acts0: seq<Action>, s0: State, f: nat, slot: nat, c: nat, net: bool)
    returns (acts: seq<Action>, s: State)
    requires Leads(Init(), acts0, s0) && f in s0.families
    requires var fm := s0.families[f];
             && slot in fm.lin.handles && c !in fm.saves && fm.holder == Free && !fm.uncertain
             && PersistenceAttempt(fm.lin.shared, fm.lin.handles[slot]).Ok?
             && match fm.lin.shared.persisted
                case None => fm.lin.handles[slot].id !in s0.backend.present
                case Some(source) => source in s0.backend.present
                                     && (source == fm.lin.handles[slot].id
                                         || fm.lin.handles[slot].id !in s0.backend.present)
    ensures Leads(Init(), acts, s) && s.families.Keys == s0.families.Keys && s.used == s0.used
    ensures var fm, fm', h := s0.families[f], s.families[f], s0.families[f].lin.handles[slot];
            && fm'.lin == Mark(Attempt(fm.lin, h), h) && fm'.lin.shared.persisted == Some(h.id)
            && s.backend.present ==
               s0.backend.present
               - (if fm.lin.shared.persisted.Some? then {fm.lin.shared.persisted.value} else {}) + {h.id}
            && !fm'.uncertain && fm'.holder == Free && fm'.deletes == fm.deletes
            && fm'.saves.Keys == fm.saves.Keys + {c}
            && fm'.saves[c].phase == Ended && fm'.saves[c].settled
  {
    hide Leads;
    acts, s := ExtendBy(acts0, s0, f, BeginSave(slot, c, net));
    acts, s := SaveCompletes(acts, s, f, c, s.families[f].saves[c]);
  }

  /** The first statement of a rotation without transactions. */
  lemma SourceDropped(acts0: seq<Action>, s0: State, f: nat, c: nat, x: Save) returns (acts: seq<Action>, s: State)
    requires Leads(Init(), acts0, s0) && f in s0.families && c in s0.families[f].saves && s0.families[f].saves[c] == x
    requires x.phase == Guarded && x.call == Idle && x.net
    requires x.origin.Some? && x.origin.value != x.h.id && x.origin.value in s0.backend.present
    ensures Leads(Init(), acts, s) && s.families.Keys == s0.families.Keys
    ensures s.backend.present == s0.backend.present - {x.origin.value}
    ensures Moves(s0.families[f], s.families[f], c, x.(call := Acked(DropSource, true)), s0.families[f].holder)
  {
    hide Leads;
    acts, s := ExtendBy(acts0, s0, f, Dispatch(c, DropSource));
    assert s.families[f].saves[c] == x.(call := InFlight(DropSource));
    acts, s := Answered(acts, s, f, c, DropSource);
  }

  /** Without transactions, a guarded rotation can complete in two statements. */
  lemma RotationCompletesInTwo(acts0: seq<Action>, s0: State, f: nat, c: nat, x: Save)
    returns (acts: seq<Action>, s: State)
    requires Leads(Init(), acts0, s0) && f in s0.families && c in s0.families[f].saves && s0.families[f].saves[c] == x
    requires x.phase == Guarded && x.call == Idle && !x.landed && x.net
    requires !s0.families[f].lin.shared.destroyed && !s0.families[f].uncertain
    requires x.origin.Some? && x.origin.value != x.h.id && Applies(s0.backend.present, x)
    ensures Leads(Init(), acts, s) && s.families.Keys == s0.families.Keys
    ensures s.backend.present == s0.backend.present - {x.origin.value} + {x.h.id}
    ensures var fm, fm' := s0.families[f], s.families[f];
            && fm'.lin == Mark(fm.lin, x.h) && !fm'.uncertain && fm'.deletes == fm.deletes && fm'.holder == Free
  {
    hide Leads, Mark;
    acts, s := SourceDropped(acts0, s0, f, c, x);
    acts, s := ExtendBy(acts, s, f, Dispatch(c, InsertTarget));
    assert s.families[f].saves[c] == x.(call := InFlight(InsertTarget));
    acts, s := Answered(acts, s, f, c, InsertTarget);
    acts, s := Published(acts, s, f, c, s.families[f].saves[c]);
  }

  /** The backend executes a call in flight that it accepts. */
  lemma Answered(acts0: seq<Action>, s0: State, f: nat, c: nat, op: Op) returns (acts: seq<Action>, s: State)
    requires Leads(Init(), acts0, s0) && f in s0.families && c in s0.families[f].saves
    requires s0.families[f].saves[c].call == InFlight(op)
    requires op == DropSource || op == InsertTarget || op == Erase
    requires Accepts(s0.backend, EffectOf(s0.families[f].saves[c], op))
    ensures Leads(Init(), acts, s) && s.families.Keys == s0.families.Keys
    ensures s.backend == Exec(s0.backend, EffectOf(s0.families[f].saves[c], op))
    ensures var x := s0.families[f].saves[c];
            Moves(s0.families[f], s.families[f], c,
                  x.(call := Acked(op, true), landed := x.landed || op == InsertTarget), s0.families[f].holder)
  {
    hide Leads, Exec, Accepts, EffectOf;
    acts, s := ExtendBy(acts0, s0, f, Execute(c));
  }

  /**
   * A remote write that destruction overtook can remove its target again; its
   * guard is then released without leaving the family uncertain.
   */
  lemma CompensationReleases(acts0: seq<Action>, s0: State, f: nat, c: nat, x: Save)
    returns (acts: seq<Action>, s: State)
    requires Leads(Init(), acts0, s0) && f in s0.families && c in s0.families[f].saves && s0.families[f].saves[c] == x
    requires x.phase == Guarded && x.call == Acked(WriteOp, true) && x.net
    requires s0.families[f].lin.shared.destroyed && !s0.families[f].uncertain && x.h.id in s0.backend.present
    ensures Leads(Init(), acts, s) && s.families.Keys == s0.families.Keys
    ensures s.backend.present == s0.backend.present - {x.h.id}
    ensures var fm, fm' := s0.families[f], s.families[f];
            fm'.lin == fm.lin && !fm'.uncertain && fm'.deletes == fm.deletes && fm'.holder == Free
  {
    hide Leads;
    acts, s := ExtendBy(acts0, s0, f, Finish(c));
    var y := x.(phase := Cleaning, settled := false, call := Idle);
    assert s.families[f].saves[c] == y;
    acts, s := ExtendBy(acts, s, f, Dispatch(c, Erase));
    assert s.families[f].saves[c] == y.(call := InFlight(Erase));
    acts, s := Answered(acts, s, f, c, Erase);
    assert s.families[f].saves[c].phase == Cleaning && s.families[f].saves[c].call == Acked(Erase, true);
    acts, s := ExtendBy(acts, s, f, ConfirmRemoved(c));
  }

  // ----- A deletion -----

  /** A deletion that has taken the guard runs to its return. */
  lemma DeletedOnceGuarded(acts0: seq<Action>, s0: State, f: nat, d: nat, x: Delete)
    returns (acts: seq<Action>, s: State)
    requires Leads(Init(), acts0, s0) && f in s0.families
    requires d in s0.families[f].deletes && s0.families[f].deletes[d] == x && x.phase == Guarded && x.call.Idle?
    ensures Leads(Init(), acts, s) && f in s.families
    ensures s.backend.present == s0.backend.present - {x.target} && s.families[f].lin == s0.families[f].lin
    ensures d in s.families[f].deletes && s.families[f].deletes[d].returned && s.families[f].deletes[d].clean == x.clean
  {
    hide Leads;
    acts, s := ErasedOnceGuarded(acts0, s0, f, d, x);
    acts, s := ExtendBy(acts, s, f, ReturnDelete(d));
  }

  /** ... as far as the backend's answer. */
  lemma ErasedOnceGuarded(acts0: seq<Action>, s0: State, f: nat, d: nat, x: Delete)
    returns (acts: seq<Action>, s: State)
    requires Leads(Init(), acts0, s0) && f in s0.families
    requires d in s0.families[f].deletes && s0.families[f].deletes[d] == x && x.phase == Guarded && x.call.Idle?
    ensures Leads(Init(), acts, s) && f in s.families
    ensures s.backend.present == s0.backend.present - {x.target} && s.families[f].lin == s0.families[f].lin
    ensures d in s.families[f].deletes && s.families[f].deletes[d].call.Acked?
    ensures s.families[f].deletes[d].phase == Guarded && s.families[f].deletes[d].clean == x.clean
  {
    hide Leads, Exec;
    acts, s := ExtendBy(acts0, s0, f, DispatchDelete(d));
    assert s.families[f].deletes[d] == x.(call := InFlight(Erase));
    acts, s := ExtendBy(acts, s, f, ExecuteDelete(d));
    RemoveRemoves(s0.backend, x.target);
  }

  /** From any reachable state: a deletion of a certain family whose lock is free can run to its return. */
  lemma Deleted(acts0: seq<Action>, s0: State, f: nat, slot: nat, d: nat) returns (acts: seq<Action>, s: State)
    requires Leads(Init(), acts0, s0) && f in s0.families
    requires var fm := s0.families[f];
             slot in fm.lin.handles && d !in fm.deletes && fm.holder == Free && !fm.uncertain
    ensures Leads(Init(), acts, s) && f in s.families
    ensures var fm, sh, h := s0.families[f], s0.families[f].lin.shared, s0.families[f].lin.handles[slot];
            && s.backend.present == s0.backend.present - {DeleteTarget(sh, h)}
            && s.families[f].lin == Destroyed(fm.lin)
            && d in s.families[f].deletes && s.families[f].deletes[d].returned
            && s.families[f].deletes[d].clean == !Superseded(sh, h)
  {
    hide Leads, DeleteTarget, Superseded;
    var h := s0.families[f].lin.handles[slot];
    acts, s := ExtendBy(acts0, s0, f, BeginDelete(slot, d));
    var x := s.families[f].deletes[d];
    assert x == Delete(h, Waiting, false, false, h.id, Idle, false);
    acts, s := ExtendBy(acts, s, f, AcquireDelete(d));
    TargetIgnoresDestruction(s0.families[f].lin, h);
    acts, s := DeletedOnceGuarded(acts, s, f, d, s.families[f].deletes[d]);
  }

  lemma TargetIgnoresDestruction(lin: Lineage, h: Handle)
    ensures DeleteTarget(Destroyed(lin).shared, h) == DeleteTarget(lin.shared, h)
    ensures Superseded(Destroyed(lin).shared, h) == Superseded(lin.shared, h)
  {
  }

  lemma RemoveRemoves(b: Backend, id: Id)
    ensures Exec(b, Remove(id)).present == b.present - {id}
  {
  }
}
