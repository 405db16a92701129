/**
 * One clone family with its lifecycle lock, its saves and its deletions
 * (src/session_lifecycle.rs, src/session_save.rs and the store methods of
 * src/memory_store.rs, src/redis_store.rs, src/mongodb_store.rs, src/sqlx_store.rs).
 *
 * Every `await` is a step boundary. A save is a future plus its latest backend
 * call; the call may still execute after the future is cancelled, at most once.
 */
module Family {
  import opened Common
  import opened Identity
  import opened Backend

  datatype Phase = Waiting | Guarded | Cleaning | Ended

  datatype Op =
    | WriteOp        // conditional insert, update or atomic rotation
    | DropSource     // first statement of a rotation without transactions
    | InsertTarget   // second statement
    | Revoke         // an already expired session removes its record instead
    | Erase          // compensating or requested deletion

  datatype Call = Idle | InFlight(op: Op) | Acked(op: Op, ok: bool)

  /**
   * A save owns its session handle. `net` tells whether the backend call can
   * outlive the future; `guarded` whether the lock was ever obtained; `landed`
   * records that its creating write took effect.
   */
  datatype Save = Save(
    h: Handle,
    origin: Option<Id>,
    net: bool,
    phase: Phase,
    guarded: bool,
    settled: bool,
    call: Call,
    landed: bool)

  /** A deletion; `clean` records that its handle was not superseded when it took the lock. */
  datatype Delete = Delete(
    h: Handle,
    phase: Phase,
    acquired: bool,
    clean: bool,
    target: Id,
    call: Call,
    returned: bool)

  datatype Holder = Free | ByWrite(save: nat) | ByDelete(deletion: nat)

  datatype Family = Family(
    lin: Lineage,
    uncertain: bool,
    holder: Holder,
    saves: map<nat, Save>,
    deletes: map<nat, Delete>,
    landed: set<Id>)

  function NewFamily(lin: Lineage): Family {
    Family(lin, false, Free, map[], map[], {})
  }

  predicate Creating(s: Save) {
    s.origin != Some(s.h.id)
  }

  predicate Active(s: Save) {
    s.phase == Guarded || s.phase == Cleaning
  }

  /** The write may still take effect, or has taken effect without being settled. */
  predicate Open(s: Save) {
    s.guarded && Creating(s) && !s.settled && (s.net || Active(s))
  }

  predicate Lands(s: Save, op: Op) {
    op == InsertTarget || (op == WriteOp && Creating(s))
  }

  function EffectOf(s: Save, op: Op): Effect {
    var id := s.h.id;
    match op
    case WriteOp =>
      (match s.origin
       case None => Insert(id)
       case Some(p) => if p == id then Update(id) else Rotate(p, id))
    case DropSource => Remove(if s.origin.Some? then s.origin.value else id)
    case InsertTarget => InsertAfter(if s.origin.Some? then s.origin.value else id, id)
    case Revoke => Remove(if s.origin.Some? then s.origin.value else id)
    case Erase => Remove(id)
  }

  /** The family as one handle sees it: the shared fields, and no other save or deletion. */
  ghost function Seen(sh: Shared, uncertain: bool, holder: Holder, h: Handle): Family {
    Family(Lineage(h.id, h.isFresh, sh, map[0 := h], map[h.id := h.rotationFrom], [], 0), uncertain, holder,
           map[], map[], {})
  }

  /** ... with save `s` under number 0. */
  ghost function Saving(sh: Shared, uncertain: bool, s: Save): Family {
    Seen(sh, uncertain, if Active(s) then ByWrite(0) else Free, s.h).(saves := map[0 := s])
  }

  /** ... with a waiting deletion under number 0. */
  ghost function Deleting(sh: Shared, uncertain: bool, h: Handle): Family {
    Seen(sh, uncertain, Free, h).(deletes := map[0 := Delete(h, Waiting, false, false, h.id, Idle, false)])
  }

  // ----- The guard -----

  /** Dropping a write guard records uncertainty unless its outcome is settled. */
  function DropGuard(uncertain: bool, settled: bool, uncertainOnDrop: bool): bool {
    uncertain || (!settled && uncertainOnDrop)
  }

  function Release(fm: Family, c: nat, s: Save): Family {
    fm.(holder := Free,
        uncertain := DropGuard(fm.uncertain, s.settled, Creating(s) && s.net),
        saves := fm.saves[c := s.(phase := Ended, guarded := true)])
  }

  // ----- Steps -----

  datatype Step =
    | Ident(a: IdAction)
    | BeginSave(slot: nat, c: nat, net: bool)
    | AcquireWrite(c: nat)
    | Dispatch(c: nat, op: Op)
    | Execute(c: nat)
    | LocalWrite(c: nat)
    | Finish(c: nat)
    | ConfirmRemoved(c: nat)
    | Abandon(c: nat)
    | BeginDelete(slot: nat, d: nat)
    | AcquireDelete(d: nat)
    | DispatchDelete(d: nat)
    | ExecuteDelete(d: nat)
    | ReturnDelete(d: nat)
    | AbandonDelete(d: nat)

  predicate CanDispatch(s: Save, op: Op) {
    match s.phase
    case Guarded =>
      if s.call.Idle? then
        op == WriteOp || op == Revoke || (op == DropSource && s.origin.Some? && Creating(s))
      else
        op == InsertTarget && s.call == Acked(DropSource, true)
    case Cleaning => s.call.Idle? && op == Erase
    case _ => false
  }

  predicate Can(fm: Family, t: Step) {
    match t
    case Ident(a) => !a.MarkSaved? && !a.AttemptSave? && Enabled(fm.lin, a)
    case BeginSave(slot, c, net) =>
      slot in fm.lin.handles && c !in fm.saves && PersistenceAttempt(fm.lin.shared, fm.lin.handles[slot]).Ok?
    case AcquireWrite(c) => c in fm.saves && fm.saves[c].phase == Waiting && fm.holder == Free
    case Dispatch(c, op) => c in fm.saves && fm.saves[c].net && CanDispatch(fm.saves[c], op)
    case Execute(c) => c in fm.saves && fm.saves[c].call.InFlight?
    case LocalWrite(c) =>
      && c in fm.saves && fm.saves[c].phase == Guarded && !fm.saves[c].net && fm.saves[c].call.Idle?
      && !fm.lin.shared.destroyed
      && (fm.saves[c].origin.Some? ==> PersistenceOrigin(fm.lin.shared, fm.saves[c].h).Ok?)
    case Finish(c) =>
      && c in fm.saves && fm.saves[c].phase == Guarded
      && (fm.saves[c].call == Acked(WriteOp, true) || fm.saves[c].call == Acked(InsertTarget, true)
          || (fm.saves[c].call.Acked? && fm.saves[c].call.op == Revoke))
    case ConfirmRemoved(c) => c in fm.saves && fm.saves[c].phase == Cleaning && fm.saves[c].call.Acked?
    case Abandon(c) =>
      && c in fm.saves && fm.saves[c].phase != Ended
      && (fm.saves[c].net || fm.saves[c].call.Idle? || fm.saves[c].call == Acked(WriteOp, false))
    case BeginDelete(slot, d) => slot in fm.lin.handles && d !in fm.deletes
    case AcquireDelete(d) => d in fm.deletes && fm.deletes[d].phase == Waiting && fm.holder == Free
    case DispatchDelete(d) => d in fm.deletes && fm.deletes[d].phase == Guarded && fm.deletes[d].call.Idle?
    case ExecuteDelete(d) => d in fm.deletes && fm.deletes[d].call.InFlight?
    case ReturnDelete(d) => d in fm.deletes && fm.deletes[d].phase == Guarded && fm.deletes[d].call.Acked?
    case AbandonDelete(d) => d in fm.deletes && fm.deletes[d].phase != Ended
  }

  /** What a step asks of the backend. */
  function Request(fm: Family, t: Step): Option<Effect>
    requires Can(fm, t)
  {
    match t
    case Execute(c) => Some(EffectOf(fm.saves[c], fm.saves[c].call.op))
    case LocalWrite(c) => Some(EffectOf(fm.saves[c], WriteOp))
    case Finish(c) =>
      var s := fm.saves[c];
      if s.call.op != Revoke && fm.lin.shared.destroyed && !s.net then Some(Remove(s.h.id)) else None
    case ExecuteDelete(d) => Some(Remove(fm.deletes[d].target))
    case _ => None
  }

  /** A call took effect (or was refused); a creating success is recorded as landed. */
  function Answer(fm: Family, c: nat, op: Op, ok: bool): Family
    requires c in fm.saves
  {
    var s := fm.saves[c];
    var lands := ok && Lands(s, op);
    fm.(saves := fm.saves[c := s.(call := Acked(op, ok), landed := s.landed || lands)],
        landed := if lands then fm.landed + {s.h.id} else fm.landed)
  }

  function Acquire(fm: Family, c: nat): Family
    requires c in fm.saves
  {
    var s := fm.saves[c];
    if fm.uncertain || fm.lin.shared.destroyed then
      fm.(saves := fm.saves[c := s.(phase := Ended)])
    else if s.origin.Some? && PersistenceOrigin(fm.lin.shared, s.h) != Ok(s.origin) then
      // The guard exists already when the origin check fails, and is dropped.
      Release(fm, c, s)
    else
      fm.(holder := ByWrite(c), saves := fm.saves[c := s.(phase := Guarded, guarded := true)])
  }

  function Conclude(fm: Family, c: nat): Family
    requires c in fm.saves && fm.saves[c].call.Acked?
  {
    var s := fm.saves[c];
    if s.call.op == Revoke then
      Release(fm, c, s.(settled := true))
    else if !fm.lin.shared.destroyed then
      Release(fm.(lin := Mark(fm.lin, s.h)), c, s.(settled := true))
    else if s.net then
      fm.(saves := fm.saves[c := s.(phase := Cleaning, settled := false, call := Idle)])
    else
      Release(fm, c, s.(settled := true))
  }

  function AcquireForDelete(fm: Family, d: nat): Family
    requires d in fm.deletes
  {
    var x := fm.deletes[d];
    if fm.uncertain then
      fm.(deletes := fm.deletes[d := x.(phase := Ended)])
    else
      fm.(holder := ByDelete(d),
          deletes := fm.deletes[d := x.(phase := Guarded, acquired := true,
                                        clean := !Superseded(fm.lin.shared, x.h),
                                        target := DeleteTarget(fm.lin.shared, x.h))])
  }

  function Destroyed(lin: Lineage): Lineage {
    lin.(shared := lin.shared.(destroyed := true))
  }

  /** The family after a step whose backend request, if any, was answered `ok`. */
  function Do(fm: Family, t: Step, ok: bool): Family
    requires Can(fm, t)
  {
    match t
    case Ident(a) => fm.(lin := Apply(fm.lin, a))
    case BeginSave(slot, c, net) =>
      var h := fm.lin.handles[slot];
      var origin := PersistenceAttempt(fm.lin.shared, h).value;
      fm.(lin := Attempt(fm.lin, h),
          saves := fm.saves[c := Save(h, origin, net, Waiting, false, false, Idle, false)])
    case AcquireWrite(c) => Acquire(fm, c)
    case Dispatch(c, op) => fm.(saves := fm.saves[c := fm.saves[c].(call := InFlight(op))])
    case Execute(c) => Answer(fm, c, fm.saves[c].call.op, ok)
    case LocalWrite(c) => Answer(fm, c, WriteOp, ok)
    case Finish(c) => Conclude(fm, c)
    case ConfirmRemoved(c) => Release(fm, c, fm.saves[c].(settled := true))
    case Abandon(c) =>
      if fm.saves[c].phase == Waiting
      then fm.(saves := fm.saves[c := fm.saves[c].(phase := Ended)])
      else Release(fm, c, fm.saves[c])
    case BeginDelete(slot, d) =>
      var h := fm.lin.handles[slot];
      fm.(lin := Destroyed(fm.lin),
          deletes := fm.deletes[d := Delete(h, Waiting, false, false, h.id, Idle, false)])
    case AcquireDelete(d) => AcquireForDelete(fm, d)
    case DispatchDelete(d) => fm.(deletes := fm.deletes[d := fm.deletes[d].(call := InFlight(Erase))])
    case ExecuteDelete(d) => fm.(deletes := fm.deletes[d := fm.deletes[d].(call := Acked(Erase, ok))])
    case ReturnDelete(d) =>
      fm.(holder := Free, deletes := fm.deletes[d := fm.deletes[d].(phase := Ended, returned := true)])
    case AbandonDelete(d) =>
      fm.(holder := if fm.deletes[d].phase == Guarded then Free else fm.holder,
          deletes := fm.deletes[d := fm.deletes[d].(phase := Ended)])
  }
}
