/**
 * Any number of clone families, each loaded or created independently, acting on
 * one backend. Identifiers of new sessions and regenerations come from a fresh
 * supply; a record is loaded only if it was inserted at some earlier time.
 */
module Protocol {
  import opened Common
  import opened Identity
  import opened Backend
  import opened Family

  datatype State = State(
    families: map<nat, Family>,
    backend: Backend,
    owner: map<Id, nat>,   // which family generated an identifier
    used: set<Id>)

  datatype Action =
    | New(f: nat, slot: nat, id: Id)
    | Load(f: nat, slot: nat, id: Id)
    | Deserialize(f: nat, slot: nat, id: Id)
    | Act(f: nat, t: Step)
    | Lose(ids: set<Id>)   // clear_store, cleanup, key or row expiry

  function Init(): State {
    State(map[], Empty(), map[], {})
  }

  predicate Regenerates(t: Step) {
    t.Ident? && t.a.RegenerateHandle?
  }

  predicate Allowed(s: State, a: Action) {
    match a
    case New(f, _, id) => f !in s.families && id !in s.used
    case Load(f, _, id) => f !in s.families && id in s.backend.inserted
    case Deserialize(f, _, _) => f !in s.families
    case Act(f, t) =>
      f in s.families && Can(s.families[f], t) && (Regenerates(t) ==> t.a.id !in s.used)
    case Lose(_) => true
  }

  function StepOf(s: State, f: nat, t: Step): State
    requires f in s.families && Can(s.families[f], t)
  {
    match Request(s.families[f], t)
    case None => s.(families := s.families[f := Do(s.families[f], t, true)])
    case Some(e) =>
      s.(families := s.families[f := Do(s.families[f], t, Accepts(s.backend, e))],
         backend := Exec(s.backend, e))
  }

  function Next(s: State, a: Action): State
    requires Allowed(s, a)
  {
    match a
    case New(f, slot, id) =>
      s.(families := s.families[f := NewFamily(NewLineage(slot, id))],
         owner := s.owner[id := f],
         used := s.used + {id})
    case Load(f, slot, id) =>
      s.(families := s.families[f := NewFamily(LoadedLineage(slot, id))])
    case Deserialize(f, slot, id) =>
      s.(families := s.families[f := NewFamily(BareLineage(slot, id))], used := s.used + {id})
    case Act(f, t) =>
      if Regenerates(t)
      then StepOf(s, f, t).(owner := s.owner[t.a.id := f], used := s.used + {t.a.id})
      else StepOf(s, f, t)
    case Lose(ids) => s.(backend := Purge(s.backend, ids))
  }

  /** Every identifier a clone of the family holds or has held. */
  function HeldIds(fm: Family): set<Id> {
    fm.lin.sources.Keys
  }

  /** A merely deserialized family: it never had a trusted record nor creation authority. */
  predicate Bare(fm: Family) {
    !fm.lin.isFresh && fm.lin.chain == []
  }

  ghost predicate Execution(states: seq<State>, acts: seq<Action>) {
    && |states| == |acts| + 1
    && states[0] == Init()
    && forall k :: 0 <= k < |acts| ==> Allowed(states[k], acts[k]) && states[k + 1] == Next(states[k], acts[k])
  }
}
