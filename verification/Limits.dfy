/**
 * Executions showing that the conditions of `Guarantees.DeletionIsFinal` are needed,
 * and that losing a rotation race costs the family its deletions.
 */
module Limits {
  import opened Common
  import opened Identity
  import opened Backend
  import opened Family
  import opened Protocol
  import opened Progress

  /** A first save through the in-memory path: family 0 inserts `id`. */
  lemma Stored(id: Id) returns (acts: seq<Action>, s: State)
    ensures Leads(Init(), acts, s)
    ensures s.families.Keys == {0} && s.backend.present == {id} && s.used == {id}
    ensures s.families[0].lin.handles == map[0 := Handle(id, None, true)]
    ensures s.families[0].lin.shared == Shared(Some(id), true, false) && s.families[0].lin.isFresh
    ensures s.families[0].holder == Free && !s.families[0].uncertain
    ensures s.families[0].saves.Keys == {0} && s.families[0].deletes == map[]
    ensures s.families[0].lin.chain == [id] && s.families[0].lin.sources == map[id := None]
  {
    s := Init();
    acts := [];
    acts, s := Extend(acts, s, New(0, 0, id));
    hide Leads;
    acts, s := AdmittedCanComplete(acts, s, 0, 0, 0, false);
  }

  /**
   * A session that was only deserialized, then regenerated, deletes an
   * identifier that was never stored: the record it came from stays.
   */
  lemma DeserializedDeletionLeavesRecord() returns (states: seq<State>, acts: seq<Action>)
    ensures Execution(states, acts)
    ensures var s := states[|acts|];
            && 1 in s.families && Bare(s.families[1])
            && 0 in s.families[1].deletes && s.families[1].deletes[0].returned && s.families[1].deletes[0].clean
            && HeldIds(s.families[1]) * s.backend.present != {}
  {
    var s: State;
    acts, s := Stored(10);
    acts, s := Extend(acts, s, Deserialize(1, 0, 10));
    acts, s := Extend(acts, s, Act(1, Ident(RegenerateHandle(0, 11))));
    assert s.families[1].lin.handles[0] == Handle(11, None, false);
    assert s.backend.present == {10} && 10 in s.families[1].lin.sources;
    acts, s := Deleted(acts, s, 1, 0, 0);
    assert 10 in HeldIds(s.families[1]) * s.backend.present;
    states := LeadsIsExecution(acts, s);
  }

  /** Clone 1 holds a regenerated identity that was never saved. */
  lemma Regenerated(id: Id, id': Id) returns (acts: seq<Action>, s: State)
    requires id' != id
    ensures Leads(Init(), acts, s)
    ensures 0 in s.families && s.backend.present == {id} && id' in s.families[0].lin.sources
    ensures s.families[0].lin.handles == map[0 := Handle(id, None, true), 1 := Handle(id', Some(id), true)]
    ensures s.families[0].lin.shared == Shared(Some(id), true, false) && s.families[0].lin.isFresh
    ensures s.families[0].holder == Free && !s.families[0].uncertain && s.families[0].deletes == map[]
    ensures s.families[0].saves.Keys == {0} && s.used == {id, id'}
    ensures s.families[0].lin.sources == map[id := None, id' := Some(id)]
  {
    hide Leads;
    acts, s := Stored(id);
    acts, s := Extend(acts, s, Act(0, Ident(CloneHandle(0, 1))));
    acts, s := Extend(acts, s, Act(0, Ident(RegenerateHandle(1, id'))));
  }

  /** A clone rotates the stored session; clone 0 is superseded. */
  lemma Rotated(id: Id, id': Id) returns (acts: seq<Action>, s: State)
    requires id' != id
    ensures Leads(Init(), acts, s)
    ensures 0 in s.families && s.backend.present == {id'} && id' in HeldIds(s.families[0])
    ensures 0 in s.families[0].lin.handles && s.families[0].lin.handles[0] == Handle(id, None, true)
    ensures s.families[0].lin.shared == Shared(Some(id'), true, false) && s.families[0].lin.isFresh
    ensures s.families[0].holder == Free && !s.families[0].uncertain && s.families[0].deletes == map[]
  {
    hide Leads;
    acts, s := Regenerated(id, id');
    acts, s := AdmittedCanComplete(acts, s, 0, 1, 1, false);
  }

  /** Deleting through a superseded clone removes only its own old identity. */
  lemma SupersededDeletionLeavesRecord() returns (states: seq<State>, acts: seq<Action>)
    ensures Execution(states, acts)
    ensures var s := states[|acts|];
            && 0 in s.families && !Bare(s.families[0])
            && 0 in s.families[0].deletes && s.families[0].deletes[0].returned && !s.families[0].deletes[0].clean
            && HeldIds(s.families[0]) * s.backend.present != {}
  {
    hide Leads, Execution, Next, Allowed;
    var s: State;
    acts, s := Rotated(10, 11);
    acts, s := Deleted(acts, s, 0, 0, 0);
    assert 11 in HeldIds(s.families[0]) * s.backend.present;
    states := LeadsIsExecution(acts, s);
  }

  /** Two clones regenerate the stored session; both ask a remote store to save. */
  lemma BothRotate(id: Id, id': Id, id'': Id) returns (acts: seq<Action>, s: State)
    requires id' != id && id'' != id && id'' != id'
    ensures Leads(Init(), acts, s) && 0 in s.families && s.backend.present == {id}
    ensures var fm := s.families[0];
            && fm.lin.handles.Keys == {0, 1} && fm.lin.handles[1] == Handle(id', Some(id), true)
            && fm.lin.shared == Shared(Some(id), true, false)
            && fm.holder == Free && !fm.uncertain && fm.deletes == map[]
            && fm.saves.Keys == {0, 1, 2}
            && fm.saves[1] == Save(Handle(id', Some(id), true), Some(id), true, Waiting, false, false, Idle, false)
            && fm.saves[2] == Save(Handle(id'', Some(id), true), Some(id), true, Waiting, false, false, Idle, false)
  {
    hide Leads;
    acts, s := Regenerated(id, id');
    acts, s := Extend(acts, s, Act(0, Ident(RegenerateHandle(0, id''))));
    acts, s := ExtendBy(acts, s, 0, BeginSave(1, 1, true));
    acts, s := ExtendBy(acts, s, 0, BeginSave(0, 2, true));
  }

  /** The other rotation is refused under the lock, which it drops; the family is uncertain from then on. */
  lemma Poisoned(acts0: seq<Action>, s0: State, x: Save) returns (acts: seq<Action>, s: State)
    requires Leads(Init(), acts0, s0) && 0 in s0.families
    requires var fm := s0.families[0];
             && 2 in fm.saves && fm.saves[2] == x && fm.holder == Free && !fm.uncertain
             && fm.lin.shared.persisted.Some? && !fm.lin.shared.destroyed
    requires x.origin.Some? && x.origin != s0.families[0].lin.shared.persisted && x.origin.value != x.h.id
    requires x.phase == Waiting && x.call == Idle && x.net && !x.settled
    ensures Leads(Init(), acts, s) && 0 in s.families && s.backend == s0.backend
    ensures var fm, fm' := s0.families[0], s.families[0];
            && fm'.lin == fm.lin && fm'.holder == Free && fm'.uncertain && fm'.deletes == fm.deletes
            && 2 in fm'.saves && fm'.saves[2] == x.(phase := Ended, guarded := true)
  {
    hide Leads;
    acts, s := ExtendBy(acts0, s0, 0, AcquireWrite(2));
  }

  /**
   * Two clones race to rotate one source. The loser is refused before it sends
   * anything, yet a deletion through the winner is refused from then on, and the
   * winner's record stays stored.
   */
  lemma LostRaceForbidsDeletion() returns (states: seq<State>, acts: seq<Action>)
    ensures Execution(states, acts)
    ensures var s := states[|acts|];
            && 0 in s.families && s.families[0].uncertain && s.families[0].lin.shared.persisted == Some(11)
            && 11 in s.backend.present
            && 2 in s.families[0].saves && s.families[0].saves[2].phase == Ended && s.families[0].saves[2].call == Idle
            && 0 in s.families[0].deletes && s.families[0].deletes[0].h.id == 11
            && s.families[0].deletes[0].phase == Ended && !s.families[0].deletes[0].acquired
  {
    hide Leads, Execution, Next, Allowed;
    var s: State;
    acts, s := BothRotate(10, 11, 12);
    acts, s := SaveCompletes(acts, s, 0, 1, s.families[0].saves[1]);
    acts, s := Poisoned(acts, s, s.families[0].saves[2]);
    acts, s := RefusedDeletion(acts, s);
    states := LeadsIsExecution(acts, s);
  }

  /** An uncertain family refuses a deletion when it gets the lock. */
  lemma RefusedDeletion(acts0: seq<Action>, s0: State) returns (acts: seq<Action>, s: State)
    requires Leads(Init(), acts0, s0) && 0 in s0.families
    requires var fm := s0.families[0];
             1 in fm.lin.handles && fm.deletes == map[] && fm.holder == Free && fm.uncertain
    ensures Leads(Init(), acts, s) && 0 in s.families && s.backend == s0.backend
    ensures var fm, fm' := s0.families[0], s.families[0];
            && fm'.uncertain && fm'.saves == fm.saves && fm'.lin.shared.persisted == fm.lin.shared.persisted
            && 0 in fm'.deletes && fm'.deletes[0].h == fm.lin.handles[1]
            && fm'.deletes[0].phase == Ended && !fm'.deletes[0].acquired
  {
    hide Leads;
    acts, s := ExtendBy(acts0, s0, 0, BeginDelete(1, 0));
    acts, s := ExtendBy(acts, s, 0, AcquireDelete(0));
  }
}
