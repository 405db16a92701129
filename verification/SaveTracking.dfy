/**
 * Change tracking of one clone family's data (src/session.rs, `SessionData` and
 * `SaveRevision`). `Data` and its functions specify the class; the machine below
 * them runs any number of overlapping saves.
 */
module SaveTracking {
  import opened Common

  type Values = map<string, string>

  datatype Data = Data(
    values: Values,
    revision: nat,
    persistedRevision: nat,
    active: nat,
    overlapping: bool,
    uncertain: bool)

  function Fresh(values: Values): Data {
    Data(values, 0, 0, 0, false, false)
  }

  function Inserted(d: Data, key: string, value: string): Data {
    if key in d.values && d.values[key] == value then d
    else d.(values := d.values[key := value], revision := d.revision + 1)
  }

  function Removed(d: Data, key: string): Data {
    if key in d.values then d.(values := d.values - {key}, revision := d.revision + 1) else d
  }

  function Captured(d: Data): Data {
    d.(overlapping := d.active != 0,
       uncertain := d.uncertain || d.active != 0,
       active := d.active + 1)
  }

  function Acknowledged(d: Data, revision: nat): Data
    requires d.active > 0
  {
    if d.overlapping then d.(uncertain := true, active := d.active - 1)
    else d.(persistedRevision := revision, uncertain := false, active := d.active - 1)
  }

  function Released(d: Data): Data
    requires d.active > 0
  {
    d.(uncertain := true, active := d.active - 1)
  }

  function Overridden(d: Data): Data {
    d.(persistedRevision := d.revision, uncertain := false)
  }

  /** The data part of `data_changed`. */
  predicate Dirty(d: Data) {
    d.uncertain || d.revision != d.persistedRevision
  }

  /** What another clone does to the values. */
  datatype Change = Put(key: string, value: string) | Unset(key: string)

  function Changed(d: Data, change: Change): Data {
    match change
    case Put(key, value) => Inserted(d, key, value)
    case Unset(key) => Removed(d, key)
  }

  function Edited(d: Data, changes: seq<Change>): Data
    decreases |changes|
  {
    if changes == [] then d else Edited(Changed(d, changes[0]), changes[1..])
  }

  /** Edits leave save accounting alone, and any that changes a value is seen in the revision. */
  lemma {:induction false} EditsAreCounted(d: Data, changes: seq<Change>)
    ensures var e := Edited(d, changes);
            && e == d.(values := e.values, revision := e.revision)
            && e.revision >= d.revision && (e.revision == d.revision ==> e == d)
    decreases |changes|
  {
    if changes != [] {
      EditsAreCounted(Changed(d, changes[0]), changes[1..]);
    }
  }

  /** A save that was captured and not confirmed leaves its family dirty, whatever was edited. */
  lemma ReleasedIsDirty(d: Data, changes: seq<Change>)
    ensures Edited(Captured(d), changes).active > 0 && Dirty(Released(Edited(Captured(d), changes)))
  {
    EditsAreCounted(Captured(d), changes);
  }

  /**
   * A save that begins, and is confirmed after other clones edited the data: if
   * no other save was live, the data is clean exactly if no edit changed a value.
   */
  lemma SavedUnlessEdited(d: Data, changes: seq<Change>)
    ensures Edited(Captured(d), changes).active == d.active + 1
    ensures var e := Edited(Captured(d), changes);
            var a := Acknowledged(e, d.revision);
            && a.active == d.active && a.values == e.values
            && (d.active == 0 ==> (!Dirty(a) <==> e == Captured(d)))
  {
    EditsAreCounted(Captured(d), changes);
  }

  // ----- The class -----

  /** The map behind the lock that all clones of a session share. */
  class SessionData {
    var values: Values
    var revision: nat
    var persistedRevision: nat
    var activeSaves: nat
    var overlappingSaves: bool
    var uncertainSave: bool
    var strong: nat                 // references held by sessions and save tokens
    ghost var live: set<SaveRevision>
    ghost var owners: set<object>   // the sessions that share this data

    ghost predicate Valid()
      reads this, live
    {
      && activeSaves == |live|
      && strong == |owners| + |live|
      && forall r :: r in live ==> r.data == this
    }

    function View(): Data
      reads this
    {
      Data(values, revision, persistedRevision, activeSaves, overlappingSaves, uncertainSave)
    }

    constructor (values: Values)
      ensures Valid() && live == {} && owners == {} && View() == Fresh(values)
      ensures this.values == values && activeSaves == 0 && !Dirty(View())
    {
      this.values := values;
      revision, persistedRevision, activeSaves := 0, 0, 0;
      overlappingSaves, uncertainSave := false, false;
      live := {};
      owners := {};
      strong := 0;
    }

    /** Another clone starts sharing the data. */
    method Share(ghost owner: object)
      requires Valid() && owner !in owners
      modifies this
      ensures Valid() && live == old(live) && owners == old(owners) + {owner} && View() == old(View())
    {
      strong := strong + 1;
      owners := owners + {owner};
    }

    /** A clone stops sharing the data. */
    method Leave(ghost owner: object)
      requires Valid() && owner in owners
      modifies this
      ensures Valid() && live == old(live) && owners == old(owners) - {owner} && View() == old(View())
    {
      strong := strong - 1;
      owners := owners - {owner};
    }

    /**
     * A session that is the only holder of its data starts tracking afresh in
     * place. No save token can be live, since each holds a reference.
     */
    method Rebase(ghost owner: object)
      requires Valid() && strong == 1 && owner in owners
      modifies this
      ensures Valid() && live == old(live) == {} && owners == old(owners) == {owner}
      ensures activeSaves == 0 && values == old(values) && !Dirty(View()) && !overlappingSaves
    {
      assert owners - {owner} == {};
      assert owners == {owner};
      persistedRevision := revision;
      uncertainSave := false;
      overlappingSaves := false;
    }

    method Insert(key: string, value: string)
      requires Valid()
      modifies this
      ensures Valid() && live == old(live) && owners == old(owners) && View() == Inserted(old(View()), key, value)
      ensures values == old(values)[key := value]
      ensures if values == old(values) then View() == old(View()) else revision == old(revision) + 1
    {
      if key !in values || values[key] != value {
        values := values[key := value];
        revision := revision + 1;
      }
    }

    method Remove(key: string)
      requires Valid()
      modifies this
      ensures Valid() && live == old(live) && owners == old(owners) && View() == Removed(old(View()), key)
      ensures values == old(values) - {key}
      ensures if values == old(values) then View() == old(View()) else revision == old(revision) + 1
    {
      if key in values {
        values := values - {key};
        revision := revision + 1;
      }
    }

    /** Another clone edits the shared values. */
    method Edit(changes: seq<Change>)
      requires Valid()
      modifies this
      ensures Valid() && live == old(live) && owners == old(owners) && View() == Edited(old(View()), changes)
    {
      for k := 0 to |changes|
        invariant Valid() && live == old(live) && owners == old(owners)
        invariant Edited(old(View()), changes) == Edited(View(), changes[k..])
      {
        match changes[k]
        case Put(key, value) => Insert(key, value);
        case Unset(key) => Remove(key);
      }
    }

    method ResetChanged()
      requires Valid()
      modifies this
      ensures Valid() && live == old(live) && owners == old(owners) && View() == Overridden(old(View()))
      ensures values == old(values) && !uncertainSave && revision == persistedRevision == old(revision)
    {
      persistedRevision := revision;
      uncertainSave := false;
    }

    method Changed() returns (dirty: bool)
      ensures dirty == Dirty(View())
      ensures dirty <==> uncertainSave || revision != persistedRevision
    {
      dirty := uncertainSave || revision != persistedRevision;
    }
  }

  /** One captured save; it acknowledges or releases its slot exactly once. */
  class SaveRevision {
    var data: SessionData?
    const revision: nat

    constructor Capture(shared: SessionData)
      requires shared.Valid()
      modifies shared
      ensures fresh(this) && data == shared && revision == old(shared.revision)
      ensures shared.Valid() && shared.live == old(shared.live) + {this} && shared.owners == old(shared.owners)
      ensures shared.View() == Captured(old(shared.View()))
      ensures shared.values == old(shared.values) && shared.activeSaves == old(shared.activeSaves) + 1
      ensures shared.overlappingSaves == (old(shared.activeSaves) > 0)
      ensures shared.uncertainSave == (old(shared.uncertainSave) || shared.overlappingSaves)
    {
      data := shared;
      revision := shared.revision;
      new;
      if shared.activeSaves == 0 {
        shared.overlappingSaves := false;
      } else {
        shared.overlappingSaves := true;
        shared.uncertainSave := true;
      }
      shared.activeSaves := shared.activeSaves + 1;
      shared.live := shared.live + {this};
      shared.strong := shared.strong + 1;
    }

    method Acknowledge()
      requires data != null && data.Valid() && this in data.live
      modifies this, data
      ensures data == null
      ensures old(data).Valid() && old(data).live == old(data.live) - {this} && old(data).owners == old(data.owners)
      ensures old(data.View()).active > 0
      ensures old(data).View() == Acknowledged(old(data.View()), revision)
      ensures old(data).values == old(data.values) && old(data).activeSaves == old(data.activeSaves) - 1
      ensures Dirty(old(data).View()) <==> old(data.overlappingSaves) || revision != old(data.revision)
    {
      var shared := data;
      data := null;
      if shared.overlappingSaves {
        shared.uncertainSave := true;
      } else {
        shared.persistedRevision := revision;
        shared.uncertainSave := false;
      }
      shared.live := shared.live - {this};
      shared.strong := shared.strong - 1;
      shared.activeSaves := shared.activeSaves - 1;
    }

    /** Runs when the value goes away; a completed save has nothing left to release. */
    method Drop()
      requires data != null ==> data.Valid() && this in data.live
      modifies this, if data != null then {data} else {}
      ensures data == null
      ensures old(data) != null ==>
                && old(data).Valid() && old(data).live == old(data.live) - {this}
                && old(data).owners == old(data.owners)
                && old(data.View()).active > 0
                && old(data).View() == Released(old(data.View()))
                && old(data).uncertainSave && Dirty(old(data).View())
                && old(data).values == old(data.values) && old(data).activeSaves == old(data.activeSaves) - 1
    {
      if data != null {
        var shared := data;
        data := null;
        shared.uncertainSave := true;
        shared.live := shared.live - {this};
        shared.strong := shared.strong - 1;
        shared.activeSaves := shared.activeSaves - 1;
      }
    }
  }

  // ----- Runs of overlapping saves -----

  datatype Token = Token(revision: nat, values: Values, confirmed: bool)

  /** The family's data, its live save tokens, and the values it last committed, if any. */
  datatype Track = Track(d: Data, tokens: map<nat, Token>, initial: Values, committed: Option<Values>)

  datatype Event =
    | Edit(key: string, value: string)
    | Erase(key: string)
    | Begin(t: nat)
    | Commit(t: nat)   // the backend executed the write of a live token
    | Ack(t: nat)      // success was confirmed and reported
    | Cancel(t: nat)   // error, cancellation or drop
    | Override         // the explicit reset

  function Start(values: Values): Track {
    Track(Fresh(values), map[], values, None)
  }

  predicate Possible(s: Track, e: Event) {
    match e
    case Begin(t) => t !in s.tokens
    case Commit(t) => t in s.tokens
    case Ack(t) => t in s.tokens && s.tokens[t].confirmed && s.d.active > 0
    case Cancel(t) => t in s.tokens && s.d.active > 0
    case _ => true
  }

  function Happen(s: Track, e: Event): Track
    requires Possible(s, e)
  {
    match e
    case Edit(key, value) => s.(d := Inserted(s.d, key, value))
    case Erase(key) => s.(d := Removed(s.d, key))
    case Begin(t) => s.(d := Captured(s.d), tokens := s.tokens[t := Token(s.d.revision, s.d.values, false)])
    case Commit(t) =>
      s.(committed := Some(s.tokens[t].values), tokens := s.tokens[t := s.tokens[t].(confirmed := true)])
    case Ack(t) => s.(d := Acknowledged(s.d, s.tokens[t].revision), tokens := s.tokens - {t})
    case Cancel(t) => s.(d := Released(s.d), tokens := s.tokens - {t})
    case Override => s.(d := Overridden(s.d))
  }

  /** What every event keeps, including the explicit reset. */
  ghost predicate Accounted(s: Track) {
    && s.d.active == |s.tokens|
    && (!s.d.overlapping ==> forall t, t' :: t in s.tokens && t' in s.tokens ==> t == t')
    && s.d.persistedRevision <= s.d.revision
    && (forall t :: t in s.tokens ==> s.tokens[t].revision <= s.d.revision)
    && (forall t :: t in s.tokens && s.tokens[t].revision == s.d.revision ==> s.tokens[t].values == s.d.values)
  }

  /** The values the family may call saved: its last commit, or its initial values before any. */
  function Saved(s: Track): Values {
    match s.committed
    case Some(v) => v
    case None => s.initial
  }

  /** What every event but the reset keeps. */
  ghost predicate Honest(s: Track) {
    && Accounted(s)
    && (s.d.overlapping && s.tokens != map[] ==> s.d.uncertain)
    && (!s.d.overlapping ==> forall t :: t in s.tokens ==> s.d.persistedRevision <= s.tokens[t].revision)
    && (!s.d.overlapping ==>
          forall t :: t in s.tokens && s.tokens[t].confirmed ==> s.committed == Some(s.tokens[t].values))
    && (!Dirty(s.d) ==> s.d.values == Saved(s))
  }

  lemma EndKeepsAccounts(s: Track, e: Event)
    requires Accounted(s) && Possible(s, e) && (e.Ack? || e.Cancel?)
    ensures Accounted(Happen(s, e))
  {
    var s' := Happen(s, e);
    assert s.tokens.Keys == s'.tokens.Keys + {e.t};
    assert |s'.tokens| == |s.tokens| - 1;
    assert !s.d.overlapping ==> s'.tokens.Keys == {};
  }

  lemma BeginKeepsAccounts(s: Track, t: nat)
    requires Accounted(s) && Possible(s, Begin(t))
    ensures Accounted(Happen(s, Begin(t)))
  {
    assert s.d.active == 0 ==> s.tokens.Keys == {};
    assert Happen(s, Begin(t)).tokens.Keys == s.tokens.Keys + {t};
  }

  lemma EventKeepsAccounts(s: Track, e: Event)
    requires Accounted(s) && Possible(s, e)
    ensures Accounted(Happen(s, e))
  {
    match e
    case Begin(t) =>
      hide Accounted;
      BeginKeepsAccounts(s, t);
    case Commit(t) => assert Happen(s, e).tokens.Keys == s.tokens.Keys;
    case Ack(_) =>
      hide Accounted;
      EndKeepsAccounts(s, e);
    case Cancel(_) =>
      hide Accounted;
      EndKeepsAccounts(s, e);
    case _ =>
  }

  lemma EventKeepsHonesty(s: Track, e: Event)
    requires Honest(s) && Possible(s, e) && !e.Override?
    ensures Honest(Happen(s, e))
  {
    EventKeepsAccounts(s, e);
    match e
    case Begin(t) =>
      assert s.d.active == 0 ==> s.tokens.Keys == {};
    case Ack(t) =>
      assert !s.d.overlapping ==> Happen(s, e).tokens == map[];
    case _ =>
  }

  ghost predicate History(states: seq<Track>, events: seq<Event>) {
    && |states| == |events| + 1
    && states[0] == Start(states[0].initial)
    && forall k :: 0 <= k < |events| ==>
          Possible(states[k], events[k]) && states[k + 1] == Happen(states[k], events[k])
  }

  /**
   * The count of active saves is the number of live tokens, so it never
   * underflows: whenever a token is live, a slot is there to be given back.
   */
  lemma {:induction false} ActiveCountsTokens(states: seq<Track>, events: seq<Event>, k: nat)
    requires History(states, events) && k < |states|
    ensures states[k].d.active == |states[k].tokens|
    ensures states[k].tokens != map[] ==> states[k].d.active > 0
    ensures Accounted(states[k])
  {
    if k > 0 {
      ActiveCountsTokens(states, events, k - 1);
      EventKeepsAccounts(states[k - 1], events[k - 1]);
    }
    assert states[k].tokens != map[] ==> exists t :: t in states[k].tokens;
  }

  lemma {:induction false} StaysHonest(states: seq<Track>, events: seq<Event>, k: nat)
    requires History(states, events) && k < |states|
    requires forall i :: 0 <= i < k ==> !events[i].Override?
    ensures Honest(states[k]) && states[k].initial == states[0].initial
  {
    if k > 0 {
      StaysHonest(states, events, k - 1);
      EventKeepsHonesty(states[k - 1], events[k - 1]);
    }
  }

  /**
   * No false clean: over every interleaving of edits, captures, backend commits,
   * acknowledgements and drops, data reported unchanged equals the last snapshot
   * the family committed, or its initial values if it committed none.
   */
  lemma {:induction false} NeverFalselyClean(states: seq<Track>, events: seq<Event>, k: nat)
    requires History(states, events) && k < |states|
    requires forall i :: 0 <= i < k ==> !events[i].Override?
    ensures !Dirty(states[k].d) ==>
              states[k].d.values == match states[k].committed case Some(v) => v case None => states[0].d.values
  {
    StaysHonest(states, events, k);
  }

  /** The explicit reset is excluded above because it declares unsaved data clean. */
  lemma OverrideDeclaresUnsavedClean(values: Values, key: string, value: string)
    requires key !in values
    ensures var s := Happen(Happen(Start(values), Edit(key, value)), Override);
            !Dirty(s.d) && s.d.values != Saved(s)
  {
    var s := Happen(Start(values), Edit(key, value));
    assert key in s.d.values;
  }

  /**
   * Recovery: once every handle of a cohort has finished, one standalone save
   * that is captured, committed and acknowledged leaves the family clean.
   */
  lemma {:induction false} StandaloneSaveRecovers(states: seq<Track>, events: seq<Event>, k: nat, t: nat)
    requires History(states, events) && k < |states| && states[k].tokens == map[]
    ensures var s1 := Happen(states[k], Begin(t));
            && Possible(s1, Commit(t)) && Possible(Happen(s1, Commit(t)), Ack(t))
            && var s := Happen(Happen(s1, Commit(t)), Ack(t));
               !Dirty(s.d) && s.tokens == map[] && s.committed == Some(s.d.values) && s.d.values == states[k].d.values
  {
    ActiveCountsTokens(states, events, k);
  }

  /**
   * An abandoned save may have reached the backend, so the family is dirty from
   * then on, until a save that did not overlap is acknowledged or tracking is reset.
   */
  lemma {:induction false} AbandonedStaysDirty(states: seq<Track>, events: seq<Event>, j: nat, k: nat)
    requires History(states, events) && j < k < |states| && events[j].Cancel?
    requires forall i :: j < i < k ==> !events[i].Override? && (events[i].Ack? ==> states[i].d.overlapping)
    ensures states[k].d.uncertain && Dirty(states[k].d)
    decreases k - j
  {
    assert states[k] == Happen(states[k - 1], events[k - 1]);
    if j + 1 < k {
      AbandonedStaysDirty(states, events, j, k - 1);
    }
  }

  /** While saves overlap, no order of commits and callbacks can make the family clean. */
  lemma {:induction false} OverlapStaysDirty(states: seq<Track>, events: seq<Event>, k: nat)
    requires History(states, events) && k < |states|
    requires forall i :: 0 <= i < k ==> !events[i].Override?
    ensures |states[k].tokens| > 1 ==> Dirty(states[k].d)
  {
    StaysHonest(states, events, k);
    var s := states[k];
    if |s.tokens| > 1 && !s.d.overlapping {
      assert s.tokens.Keys != {};
      var t :| t in s.tokens;
      assert s.tokens.Keys == {t};
    }
  }
}
