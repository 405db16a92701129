/**
 * Identity and creation authority of one clone family (src/session.rs).
 *
 * `Shared` is the state all clones point to, `Handle` the part each clone owns.
 * `Lineage` adds the history the theorems speak about: the source recorded for
 * every identifier the family ever held, the persisted identities in order, and
 * the number of insertions without origin that were authorised.
 */
module Identity {
  import opened Common

  datatype Handle = Handle(id: Id, rotationFrom: Option<Id>, isFresh: bool)

  datatype Shared = Shared(persisted: Option<Id>, claimed: bool, destroyed: bool)

  // ----- What each session operation does -----

  function PersistenceOrigin(sh: Shared, h: Handle): Result<Option<Id>> {
    if sh.persisted.None? && (!h.isFresh || sh.claimed) then
      Err(SessionConflict)
    else if sh.persisted.Some? && sh.persisted.value != h.id && h.rotationFrom != sh.persisted then
      Err(SessionConflict)
    else
      Ok(sh.persisted)
  }

  function PersistenceAttempt(sh: Shared, h: Handle): Result<Option<Id>> {
    if sh.destroyed then Err(SessionConflict) else PersistenceOrigin(sh, h)
  }

  function Claim(sh: Shared, h: Handle): Shared {
    if PersistenceAttempt(sh, h) == Ok(None) then sh.(claimed := true) else sh
  }

  function MarkPersisted(sh: Shared, h: Handle): Shared {
    if sh.persisted.None? || h.rotationFrom == sh.persisted then sh.(persisted := Some(h.id)) else sh
  }

  function Regenerate(sh: Shared, h: Handle, id: Id): Handle {
    if sh.persisted == Some(h.id) || h.rotationFrom == sh.persisted then
      h.(id := id, rotationFrom := sh.persisted)
    else
      h.(id := id)
  }

  /** The record a deletion through `h` removes. */
  function DeleteTarget(sh: Shared, h: Handle): Id {
    match PersistenceOrigin(sh, h)
    case Ok(Some(id)) => id
    case _ => h.id
  }

  /** Another clone has moved the family to an identity `h` does not descend to. */
  predicate Superseded(sh: Shared, h: Handle) {
    sh.persisted.Some? && sh.persisted.value != h.id && h.rotationFrom != sh.persisted
  }

  // ----- The family as a state machine -----

  datatype Lineage = Lineage(
    seed: Id,
    isFresh: bool,
    shared: Shared,
    handles: map<nat, Handle>,
    sources: map<Id, Option<Id>>,
    chain: seq<Id>,
    creations: nat)

  function NewLineage(slot: nat, id: Id): Lineage {
    Lineage(id, true, Shared(None, false, false), map[slot := Handle(id, None, true)], map[id := None], [], 0)
  }

  function LoadedLineage(slot: nat, id: Id): Lineage {
    Lineage(id, false, Shared(Some(id), false, false), map[slot := Handle(id, None, false)], map[id := None], [id], 0)
  }

  /** A merely deserialized session: no persisted identity and no authority to create one. */
  function BareLineage(slot: nat, id: Id): Lineage {
    Lineage(id, false, Shared(None, false, false), map[slot := Handle(id, None, false)], map[id := None], [], 0)
  }

  predicate IsInitial(l: Lineage, slot: nat, id: Id) {
    l == NewLineage(slot, id) || l == LoadedLineage(slot, id) || l == BareLineage(slot, id)
  }

  datatype IdAction =
    | CloneHandle(from: nat, to: nat)
    | RegenerateHandle(slot: nat, id: Id)
    | AttemptSave(slot: nat)
    | MarkSaved(slot: nat)   // unrestricted: also covers late completions
    | RequestDestroy

  predicate Enabled(l: Lineage, a: IdAction) {
    match a
    case CloneHandle(from, to) => from in l.handles && to !in l.handles
    case RegenerateHandle(slot, id) => slot in l.handles && id !in l.sources
    case AttemptSave(slot) => slot in l.handles
    case MarkSaved(slot) => slot in l.handles
    case RequestDestroy => true
  }

  function Attempt(l: Lineage, h: Handle): Lineage {
    l.(shared := Claim(l.shared, h),
       creations := if PersistenceAttempt(l.shared, h) == Ok(None) then l.creations + 1 else l.creations)
  }

  function Mark(l: Lineage, h: Handle): Lineage {
    var sh := MarkPersisted(l.shared, h);
    l.(shared := sh, chain := if sh == l.shared then l.chain else l.chain + [h.id])
  }

  function Apply(l: Lineage, a: IdAction): Lineage
    requires Enabled(l, a)
  {
    match a
    case CloneHandle(from, to) =>
      l.(handles := l.handles[to := l.handles[from]])
    case RegenerateHandle(slot, id) =>
      var h := Regenerate(l.shared, l.handles[slot], id);
      l.(handles := l.handles[slot := h], sources := l.sources[id := h.rotationFrom])
    case AttemptSave(slot) => Attempt(l, l.handles[slot])
    case MarkSaved(slot) => Mark(l, l.handles[slot])
    case RequestDestroy => l.(shared := l.shared.(destroyed := true))
  }

  // ----- Invariants -----

  /** `h` is, or was, held by a clone of the family. */
  ghost predicate Held(l: Lineage, h: Handle) {
    h.id in l.sources && l.sources[h.id] == h.rotationFrom && h.isFresh == l.isFresh
  }

  ghost predicate Distinct(chain: seq<Id>) {
    forall i, j :: 0 <= i < j < |chain| ==> chain[i] != chain[j]
  }

  /** Every persisted identity was written by a handle descending from the previous one. */
  ghost predicate Linked(l: Lineage) {
    && (forall i :: 0 <= i < |l.chain| ==> l.chain[i] in l.sources)
    && (|l.chain| > 0 ==> l.sources[l.chain[0]] == None)
    && (forall i, j :: 0 <= i < j < |l.chain| && j == i + 1 ==> l.sources[l.chain[j]] == Some(l.chain[i]))
  }

  /** The source recorded for an identifier has itself been persisted. */
  ghost predicate Descends(l: Lineage, id: Id) {
    id in l.sources && l.sources[id].Some? ==> l.sources[id].value in l.chain
  }

  ghost predicate LineageInv(l: Lineage) {
    && (forall k :: k in l.handles ==> Held(l, l.handles[k]))
    && l.seed in l.sources && l.sources[l.seed] == None
    && l.shared.persisted == (if l.chain == [] then None else Some(l.chain[|l.chain| - 1]))
    && Distinct(l.chain)
    && Linked(l)
    && (forall id {:trigger Descends(l, id)} :: Descends(l, id))
    && l.creations == (if l.shared.claimed then 1 else 0)
    && (l.shared.claimed ==> l.isFresh)
  }

  /**
   * A handle of the family advances the identity exactly when nothing is
   * persisted yet or it descends from the persisted identity; the identity it
   * then publishes is new to the chain.
   */
  lemma MarkExtendsOrKeeps(l: Lineage, h: Handle)
    requires LineageInv(l) && Held(l, h)
    ensures h.rotationFrom == l.shared.persisted ==> h.id !in l.chain
    ensures l.chain == [] || h.rotationFrom == l.shared.persisted ==> Mark(l, h).chain == l.chain + [h.id]
    ensures l.chain != [] && h.rotationFrom != l.shared.persisted ==> Mark(l, h) == l
  {
    forall k | 0 <= k < |l.chain|
      ensures l.sources[l.chain[k]] != l.shared.persisted
    {
      assert k > 0 ==> l.chain[k - 1] != l.chain[|l.chain| - 1];
    }
  }

  lemma MarkKeepsInvariant(l: Lineage, h: Handle)
    requires LineageInv(l) && Held(l, h)
    ensures LineageInv(Mark(l, h))
  {
    MarkExtendsOrKeeps(l, h);
    var l' := Mark(l, h);
    assert Descends(l, h.id);
    forall id
      ensures Descends(l', id)
    {
      assert Descends(l, id);
    }
    if l' != l {
      assert l'.chain == l.chain + [h.id];
      assert l.chain == [] ==> h.rotationFrom == None;
    }
  }

  lemma RegenerateKeepsInvariant(l: Lineage, slot: nat, id: Id)
    requires LineageInv(l) && slot in l.handles && id !in l.sources
    ensures LineageInv(Apply(l, RegenerateHandle(slot, id)))
  {
    var h := l.handles[slot];
    assert Held(l, h);
    var l' := Apply(l, RegenerateHandle(slot, id));
    assert l.chain != [] ==> l.chain[|l.chain| - 1] in l.chain;
    assert forall i :: 0 <= i < |l.chain| ==> l.chain[i] != id;
    assert Linked(l');
    forall i
      ensures Descends(l', i)
    {
      assert Descends(l, i) && Descends(l, h.id);
    }
    assert forall k :: k in l'.handles ==> Held(l', l'.handles[k]);
  }

  lemma StepKeepsInvariant(l: Lineage, a: IdAction)
    requires LineageInv(l) && Enabled(l, a)
    ensures LineageInv(Apply(l, a))
  {
    match a
    case MarkSaved(slot) =>
      assert Held(l, l.handles[slot]);
      hide LineageInv, Mark;
      MarkKeepsInvariant(l, l.handles[slot]);
    case RegenerateHandle(slot, id) =>
      hide LineageInv;
      RegenerateKeepsInvariant(l, slot, id);
    case AttemptSave(slot) =>
      assert Held(l, l.handles[slot]);
      DescendsFrame(l, Apply(l, a));
    case _ => DescendsFrame(l, Apply(l, a));
  }

  lemma DescendsFrame(l: Lineage, l': Lineage)
    requires LineageInv(l) && l'.sources == l.sources && l'.chain == l.chain
    ensures forall id {:trigger Descends(l', id)} :: Descends(l', id)
  {
    forall id
      ensures Descends(l', id)
    {
      assert Descends(l, id);
    }
  }

  // ----- Runs -----

  ghost predicate Run(states: seq<Lineage>, acts: seq<IdAction>) {
    && |states| == |acts| + 1
    && (exists slot, id :: IsInitial(states[0], slot, id))
    && forall k :: 0 <= k < |acts| ==> Enabled(states[k], acts[k]) && states[k + 1] == Apply(states[k], acts[k])
  }

  lemma {:induction false} RunKeepsInvariant(states: seq<Lineage>, acts: seq<IdAction>, k: nat)
    requires Run(states, acts) && k < |states|
    ensures LineageInv(states[k])
  {
    if k > 0 {
      RunKeepsInvariant(states, acts, k - 1);
      StepKeepsInvariant(states[k - 1], acts[k - 1]);
    }
  }

  /** Two clones, at any two moments, that hold the same identifier hold the same source for it. */
  lemma {:induction false} EqualIdsHaveEqualSources(
      states: seq<Lineage>, acts: seq<IdAction>, k: nat, slot: nat, j: nat, slot': nat)
    requires Run(states, acts) && k <= j < |states|
    requires slot in states[k].handles && slot' in states[j].handles
    requires states[k].handles[slot].id == states[j].handles[slot'].id
    ensures states[k].handles[slot] == states[j].handles[slot']
  {
    RunKeepsInvariant(states, acts, k);
    RunKeepsInvariant(states, acts, j);
    SourcesOnlyGrow(states, acts, k, j, states[k].handles[slot].id);
  }

  lemma {:induction false} SourcesOnlyGrow(states: seq<Lineage>, acts: seq<IdAction>, k: nat, j: nat, id: Id)
    requires Run(states, acts) && k <= j < |states|
    requires id in states[k].sources
    ensures id in states[j].sources && states[j].sources[id] == states[k].sources[id]
    ensures states[j].isFresh == states[k].isFresh
    decreases j - k
  {
    if k < j {
      assert states[k + 1] == Apply(states[k], acts[k]);
      SourcesOnlyGrow(states, acts, k + 1, j, id);
    }
  }

  /**
   * Identity never rolls back: the persisted identities form a list that is only
   * ever extended, without repetition, each entry written by a handle whose
   * recorded source is the entry before it; the published one is the last.
   */
  lemma {:induction false} IdentityNeverRollsBack(states: seq<Lineage>, acts: seq<IdAction>, k: nat, j: nat)
    requires Run(states, acts) && k <= j < |states|
    ensures states[k].chain <= states[j].chain
    ensures Distinct(states[j].chain) && Linked(states[j])
    ensures states[k].chain != [] ==>
              states[k].shared.persisted == Some(states[j].chain[|states[k].chain| - 1])
    decreases j - k
  {
    RunKeepsInvariant(states, acts, k);
    if k < j {
      IdentityNeverRollsBack(states, acts, k + 1, j);
      assert states[k + 1] == Apply(states[k], acts[k]);
      assert states[k].chain <= states[k + 1].chain;
    } else {
      RunKeepsInvariant(states, acts, j);
    }
  }

  lemma MarkKeepsSuperseded(l: Lineage, h: Handle, other: Handle)
    requires LineageInv(l) && Held(l, h) && Held(l, other) && Superseded(l.shared, h)
    ensures Superseded(Mark(l, other).shared, h)
  {
    assert Descends(l, h.id);
    MarkExtendsOrKeeps(l, other);
  }

  lemma StepKeepsSuperseded(l: Lineage, a: IdAction, slot: nat)
    requires LineageInv(l) && Enabled(l, a)
    requires slot in l.handles && Superseded(l.shared, l.handles[slot])
    ensures slot in Apply(l, a).handles && Superseded(Apply(l, a).shared, Apply(l, a).handles[slot])
  {
    var h := l.handles[slot];
    assert Held(l, h) && Descends(l, h.id);
    match a
    case MarkSaved(other) =>
      assert Held(l, l.handles[other]);
      MarkKeepsSuperseded(l, h, l.handles[other]);
    case RegenerateHandle(other, id) =>
      assert l.chain[|l.chain| - 1] in l.sources;
    case _ =>
  }

  /**
   * Supersession is permanent: once rejected as superseded, a clone stays so
   * through every later regeneration, clone, save and late completion, so the
   * origin check refuses it forever.
   */
  lemma {:induction false} SupersededForever(
      states: seq<Lineage>, acts: seq<IdAction>, k: nat, j: nat, slot: nat)
    requires Run(states, acts) && k <= j < |states|
    requires slot in states[k].handles && Superseded(states[k].shared, states[k].handles[slot])
    ensures slot in states[j].handles && Superseded(states[j].shared, states[j].handles[slot])
    ensures PersistenceOrigin(states[j].shared, states[j].handles[slot]) == Err(SessionConflict)
    ensures DeleteTarget(states[j].shared, states[j].handles[slot]) == states[j].handles[slot].id
    decreases j - k
  {
    if k < j {
      RunKeepsInvariant(states, acts, k);
      StepKeepsSuperseded(states[k], acts[k], slot);
      assert states[k + 1] == Apply(states[k], acts[k]);
      SupersededForever(states, acts, k + 1, j, slot);
    }
  }

  /**
   * Creation authority is linear: however clones race, a family is authorised
   * to insert without an origin at most once, and a loaded or merely
   * deserialized family never, whatever it regenerates.
   */
  lemma {:induction false} CreationAuthorityIsLinear(states: seq<Lineage>, acts: seq<IdAction>, k: nat)
    requires Run(states, acts) && k < |states|
    ensures states[k].creations <= 1
    ensures !states[0].isFresh ==> states[k].creations == 0
    ensures states[k].creations == 1 && states[k].chain == [] ==>
              forall slot :: slot in states[k].handles ==>
                PersistenceAttempt(states[k].shared, states[k].handles[slot]).Err?
  {
    RunKeepsInvariant(states, acts, 0);
    RunKeepsInvariant(states, acts, k);
    SourcesOnlyGrow(states, acts, 0, k, states[0].seed);
  }

  // ----- What a clone may do, in terms of the history -----

  /** The identity published last, if any. */
  function Latest(l: Lineage): Option<Id> {
    if l.chain == [] then None else Some(l.chain[|l.chain| - 1])
  }

  /** The clone carries the identity published last or was regenerated from it. */
  predicate InStanding(l: Lineage, h: Handle) {
    Latest(l).Some? && (Some(h.id) == Latest(l) || h.rotationFrom == Latest(l))
  }

  /**
   * Admission, exactly: a clone may save unless the family is destroyed, either
   * from the identity published last, or, when none is, once, to create the
   * record of a fresh family.
   */
  lemma {:induction false} AdmissionIsExact(states: seq<Lineage>, acts: seq<IdAction>, k: nat, slot: nat)
    requires Run(states, acts) && k < |states| && slot in states[k].handles
    ensures var l, h := states[k], states[k].handles[slot];
            PersistenceAttempt(l.shared, h) ==
            if l.shared.destroyed then Err(SessionConflict)
            else if l.chain != [] then
              if InStanding(l, h) then Ok(Some(l.chain[|l.chain| - 1])) else Err(SessionConflict)
            else if l.isFresh && l.creations == 0 then Ok(None)
            else Err(SessionConflict)
  {
    RunKeepsInvariant(states, acts, k);
    assert Held(states[k], states[k].handles[slot]);
  }

  /** A deletion removes the identity published last through a clone in standing, else the clone's own. */
  lemma {:induction false} DeletionTargetIsExact(states: seq<Lineage>, acts: seq<IdAction>, k: nat, slot: nat)
    requires Run(states, acts) && k < |states| && slot in states[k].handles
    ensures var l, h := states[k], states[k].handles[slot];
            DeleteTarget(l.shared, h) == if InStanding(l, h) then l.chain[|l.chain| - 1] else h.id
  {
    RunKeepsInvariant(states, acts, k);
    assert Held(states[k], states[k].handles[slot]);
  }

  /**
   * A clone in standing stays so when it is regenerated, as often as it likes: it
   * rotates the identity published last, which is also what its deletion removes.
   * A clone that is not in standing does not gain it.
   */
  lemma {:induction false} RegenerationKeepsStanding(
      states: seq<Lineage>, acts: seq<IdAction>, k: nat, slot: nat, id: Id)
    requires Run(states, acts) && k < |states| && slot in states[k].handles && id !in states[k].sources
    ensures var l, h := states[k], states[k].handles[slot];
            var l' := Apply(l, RegenerateHandle(slot, id));
            var h' := l'.handles[slot];
            && h'.id == id && h'.isFresh == h.isFresh && Latest(l') == Latest(l)
            && l'.handles == l.handles[slot := h'] && l'.shared == l.shared
            && (InStanding(l, h) <==> InStanding(l', h'))
            && (Latest(l).None? ==> h'.rotationFrom == None)
            && (InStanding(l, h) ==>
                  && h'.rotationFrom == Latest(l)
                  && PersistenceOrigin(l'.shared, h') == Ok(Latest(l))
                  && Some(DeleteTarget(l'.shared, h')) == Latest(l))
  {
    RunKeepsInvariant(states, acts, k);
    var l, h := states[k], states[k].handles[slot];
    assert Held(l, h) && Descends(l, h.id);
    assert l.chain != [] ==> l.chain[|l.chain| - 1] in l.sources;
  }
}
