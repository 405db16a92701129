/**
 * The in-memory store (src/memory_store.rs): records with an ordered expiry
 * index, conditional writes under one lock, and cleanup in bounded windows.
 */
module MemoryStores {
  import opened Common
  import opened SaveTracking
  import opened Lifecycles
  import opened Sessions
  import opened ExpiryIndex
  import Identity
  import Backend
  import Family

  const CLEANUP_BATCH_SIZE: nat := 256
  const MAX_CLEANUP_LIMIT: nat := 10_000

  type Records = map<Id, Snapshot>

  function Min(a: nat, b: nat): nat {
    if a <= b then a else b
  }

  // ----- Specifications over the records alone -----

  ghost function ExpiredIds(records: Records, now: Time): set<Id> {
    set id | id in records && records[id].expiry.Some? && records[id].expiry.value < now
  }

  ghost function EntryOf(records: Records, id: Id): Entry
    requires id in records && records[id].expiry.Some?
  {
    Entry(records[id].expiry.value, id)
  }

  /** The index holds exactly the expiries of the records that have one. */
  ghost predicate Indexed(records: Records, expiries: seq<Entry>) {
    && Sorted(expiries)
    && forall e :: e in expiries <==> e.id in records && records[e.id].expiry == Some(e.expiry)
  }

  /** Every record carries its own key and was stored by a family not yet destroyed. */
  ghost predicate Bound(records: Records) {
    forall id :: id in records ==> records[id].id == id && !records[id].destroyed
  }

  /** What a load for the cookie that hashes to `id` finds, read at `found` and validated at `checked`. */
  function LoadResult(records: Records, id: Id, found: Time, checked: Time): Result<Option<Snapshot>> {
    if id !in records || Expired(records[id].expiry, found) then Ok(None)
    else if records[id].id != id then Err(MisboundRecord)
    else if Expired(records[id].expiry, checked) then Ok(None)
    else if records[id].destroyed then Err(SessionConflict)
    else Ok(Some(records[id]))
  }

  /** One atomic create, conditional update or rotation. */
  function AtomicStore(records: Records, origin: Option<Id>, id: Id, record: Snapshot): Result<Records> {
    match origin
    case None => if id in records then Err(SessionConflict) else Ok(records[id := record])
    case Some(source) =>
      if source !in records then Err(SessionConflict)
      else if source == id then Ok(records[id := record])
      else if id in records then Err(SessionConflict)
      else Ok((records - {source})[id := record])
  }

  /**
   * A write applies exactly when its source is stored, or none is expected, and
   * its target is free or is the source; it then takes the source out and puts
   * the record in.
   */
  lemma AtomicStoreIsExact(records: Records, origin: Option<Id>, id: Id, record: Snapshot)
    ensures var r := AtomicStore(records, origin, id, record);
            && (r.Ok? <==> (origin.Some? ==> origin.value in records) && (origin == Some(id) || id !in records))
            && (r.Err? ==> r.error == SessionConflict)
            && (r.Ok? ==>
                  && (forall k :: k in r.value <==> k == id || (k in records && origin != Some(k)))
                  && (forall k :: k in r.value ==> r.value[k] == if k == id then record else records[k]))
  {
  }

  /** The atomic store is the backend of the protocol, on the identifiers present. */
  lemma AtomicStoreRefinesBackend(records: Records, b: Backend.Backend, s: Family.Save, record: Snapshot)
    requires b.present == records.Keys
    ensures AtomicStore(records, s.origin, s.h.id, record).Ok?
            <==> Backend.Accepts(b, Family.EffectOf(s, Family.WriteOp))
    ensures AtomicStore(records, s.origin, s.h.id, record).Ok? ==>
              AtomicStore(records, s.origin, s.h.id, record).value.Keys
              == Backend.Exec(b, Family.EffectOf(s, Family.WriteOp)).present
  {
    if s.origin.Some? && s.origin.value in records && s.origin.value != s.h.id && s.h.id !in records {
      var r := AtomicStore(records, s.origin, s.h.id, record).value;
      assert r.Keys == records.Keys - {s.origin.value} + {s.h.id};
    }
  }

  /**
   * A stored snapshot is what a later load returns, until its expiry passes; a
   * rotated source is no longer found, and no other record is disturbed.
   */
  lemma StoredIsLoaded(
      records: Records, origin: Option<Id>, id: Id, record: Snapshot, other: Id, found: Time, checked: Time)
    requires AtomicStore(records, origin, id, record).Ok? && record.id == id && !record.destroyed
    requires found <= checked
    ensures var r := AtomicStore(records, origin, id, record).value;
            && LoadResult(r, id, found, checked) == Ok(if Expired(record.expiry, checked) then None else Some(record))
            && (origin.Some? && origin.value != id ==> LoadResult(r, origin.value, found, checked) == Ok(None))
            && (other != id && origin != Some(other) ==>
                  LoadResult(r, other, found, checked) == LoadResult(records, other, found, checked))
  {
    var r := AtomicStore(records, origin, id, record).value;
    assert id in r && r[id] == record;
  }

  /** What saves, deletions and cleanup leave behind is still bound to its own key. */
  lemma StoresKeepBound(records: Records, origin: Option<Id>, id: Id, record: Snapshot, gone: set<Id>)
    requires Bound(records) && record.id == id && !record.destroyed
    ensures Bound(records - gone)
    ensures AtomicStore(records, origin, id, record).Ok? ==> Bound(AtomicStore(records, origin, id, record).value)
  {
    if origin.Some? && AtomicStore(records, origin, id, record).Ok? {
      assert forall k :: k in AtomicStore(records, origin, id, record).value ==> k == id || k in records;
    }
  }

  /** Removing records that expired before `cutoff` changes no load at that time or later. */
  lemma CleanupIsInvisible(records: Records, removed: set<Id>, cutoff: Time, id: Id, found: Time, checked: Time)
    requires removed <= ExpiredIds(records, cutoff) && cutoff <= found
    ensures LoadResult(records - removed, id, found, checked) == LoadResult(records, id, found, checked)
  {
    if id in removed {
      assert id in ExpiredIds(records, cutoff);
    }
  }

  // ----- The state behind the lock -----

  class MemoryState {
    var records: Records
    var expiries: seq<Entry>

    ghost predicate Valid()
      reads this
    {
      Indexed(records, expiries)
    }

    constructor ()
      ensures Valid() && records == map[] && expiries == []
    {
      records, expiries := map[], [];
    }

    method Insert(id: Id, session: Snapshot) returns (previous: Option<Snapshot>)
      requires Valid()
      modifies this
      ensures Valid() && records == old(records)[id := session]
      ensures previous == if id in old(records) then Some(old(records)[id]) else None
    {
      previous := Remove(id);
      if session.expiry.Some? {
        expiries := Place(expiries, Entry(session.expiry.value, id));
      }
      records := records[id := session];
      assert records == old(records)[id := session];
    }

    method Remove(id: Id) returns (previous: Option<Snapshot>)
      requires Valid()
      modifies this
      ensures Valid() && records == old(records) - {id}
      ensures previous == if id in old(records) then Some(old(records)[id]) else None
    {
      if id !in records {
        assert records - {id} == records;
        return None;
      }
      previous := Some(records[id]);
      records := records - {id};
      if previous.value.expiry.Some? {
        expiries := Displace(expiries, Entry(previous.value.expiry.value, id));
      }
    }

    method Clear()
      modifies this
      ensures Valid() && records == map[]
    {
      records, expiries := map[], [];
    }

    /** The result of any number of insertions and removals. */
    method Become(next: Records)
      modifies this
      ensures Valid() && records == next
    {
      Clear();
      var todo := next.Keys;
      while todo != {}
        invariant Valid() && todo <= next.Keys && records == next - todo
        decreases todo
      {
        var id :| id in todo;
        var previous := Insert(id, next[id]);
        todo := todo - {id};
        assert records == next - todo;
      }
      assert records == next;
    }

    /**
     * The identifiers of the oldest expired records, in order, at most `limit` of
     * them; `examined` counts the index entries looked at.
     */
    method ExpiredCandidates(now: Time, limit: nat) returns (ids: seq<Id>, examined: nat)
      requires Valid()
      ensures var expired := ExpiredIds(records, now);
              && |ids| == Min(limit, |expired|)
              && examined <= Min(limit, |expired| + 1)
              && OldestFirst(records, expired, ids)
    {
      ids, examined := [], 0;
      ghost var n := 0;
      while examined < limit
        invariant n == |ids| == examined <= |expiries| && n <= limit
        invariant forall i :: 0 <= i < n ==> ids[i] == expiries[i].id && expiries[i].expiry < now
      {
        if examined == |expiries| {
          break;
        }
        var entry := expiries[examined];
        examined := examined + 1;
        if entry.expiry >= now {
          break;
        }
        ids := ids + [entry.id];
        n := n + 1;
      }
      PrefixIsOldest(records, expiries, now, limit, ids, examined);
    }
  }

  /** `ids` are distinct members of `expired`, sorted by expiry, before every member left out. */
  ghost predicate OldestFirst(records: Records, expired: set<Id>, ids: seq<Id>) {
    && (forall id :: id in expired ==> id in records && records[id].expiry.Some?)
    && (forall i :: 0 <= i < |ids| ==> ids[i] in expired)
    && (forall i, j :: 0 <= i < j < |ids| ==> Before(EntryOf(records, ids[i]), EntryOf(records, ids[j])))
    && (forall i, id :: 0 <= i < |ids| && id in expired && id !in ids ==>
          Before(EntryOf(records, ids[i]), EntryOf(records, id)))
  }

  ghost function PrefixIds(expiries: seq<Entry>, n: nat): set<Id>
    requires n <= |expiries|
  {
    set i | 0 <= i < n :: expiries[i].id
  }

  /** The index names each identifier once. */
  lemma {:induction false} PrefixCardinality(records: Records, expiries: seq<Entry>, n: nat)
    requires Indexed(records, expiries) && n <= |expiries|
    ensures |PrefixIds(expiries, n)| == n
  {
    if n > 0 {
      PrefixCardinality(records, expiries, n - 1);
      var last := expiries[n - 1];
      forall i | 0 <= i < n - 1
        ensures expiries[i].id != last.id
      {
        assert expiries[i] in expiries && last in expiries && Before(expiries[i], last);
      }
      assert PrefixIds(expiries, n) == PrefixIds(expiries, n - 1) + {last.id};
    }
  }

  /** Where an expired record stands in the index. */
  lemma ExpiredPosition(records: Records, expiries: seq<Entry>, now: Time, id: Id, n: nat) returns (k: nat)
    requires Indexed(records, expiries) && id in ExpiredIds(records, now) && n <= |expiries|
    ensures k < |expiries| && expiries[k] == EntryOf(records, id) && expiries[k].expiry < now
    ensures n < |expiries| && expiries[n].expiry >= now ==> k < n
  {
    assert EntryOf(records, id) in expiries;
    k :| 0 <= k < |expiries| && expiries[k] == EntryOf(records, id);
    assert n < k ==> Before(expiries[n], expiries[k]);
  }

  lemma PrefixIsOldest(
      records: Records, expiries: seq<Entry>, now: Time, limit: nat, ids: seq<Id>, examined: nat)
    requires Indexed(records, expiries) && |ids| <= |expiries| && |ids| <= limit
    requires forall i :: 0 <= i < |ids| ==> ids[i] == expiries[i].id && expiries[i].expiry < now
    requires |ids| == limit || |ids| == |expiries| || expiries[|ids|].expiry >= now
    requires examined == |ids| || (examined == |ids| + 1 <= limit)
    ensures var expired := ExpiredIds(records, now);
            && |ids| == Min(limit, |expired|)
            && examined <= Min(limit, |expired| + 1)
            && OldestFirst(records, expired, ids)
  {
    var n, expired := |ids|, ExpiredIds(records, now);
    var prefix := PrefixIds(expiries, n);
    PrefixCardinality(records, expiries, n);
    forall i | 0 <= i < n
      ensures ids[i] in expired && EntryOf(records, ids[i]) == expiries[i]
    {
      assert expiries[i] in expiries;
    }
    Subset(prefix, expired);
    forall id | id in expired
      ensures n < limit ==> id in prefix
      ensures id in ids || forall i :: 0 <= i < n ==> Before(expiries[i], EntryOf(records, id))
    {
      var k := ExpiredPosition(records, expiries, now, id, n);
      assert k < n ==> ids[k] == id && expiries[k].id in prefix;
    }
    assert n < limit ==> expired == prefix;
  }

  lemma Subset<T>(a: set<T>, b: set<T>)
    requires a <= b
    ensures |a| <= |b|
  {
    if a != b {
      assert b == a + (b - a);
    }
  }

  // ----- The store -----

  /** What other tasks turn the records into before the lock window of a given number is entered. */
  type Meanwhile = (nat, Records) -> Records

  /** One lock window of a cleanup: what it found, the candidates it checked, what it left. */
  datatype Window = Window(found: Records, batch: seq<Id>, left: Records)

  ghost function RemovedIn(w: Window): set<Id> {
    w.found.Keys - w.left.Keys
  }

  ghost function RemovedCount(windows: seq<Window>): nat {
    if windows == [] then 0 else RemovedCount(windows[..|windows| - 1]) + |RemovedIn(windows[|windows| - 1])|
  }

  /** Where batch `k` of the candidates starts. */
  function Offset(ids: seq<Id>, k: nat): (start: nat)
    ensures start <= |ids|
  {
    Min(k * CLEANUP_BATCH_SIZE, |ids|)
  }

  function Batch(ids: seq<Id>, k: nat): (batch: seq<Id>)
    ensures |batch| <= CLEANUP_BATCH_SIZE && Offset(ids, k + 1) == Offset(ids, k) + |batch|
  {
    ids[Offset(ids, k)..Offset(ids, k + 1)]
  }

  /** The records before window `k`, once the earlier ones and the other tasks are done. */
  ghost function Reached(first: Records, windows: seq<Window>, k: nat): Records
    requires k <= |windows|
  {
    if k == 0 then first else windows[k - 1].left
  }

  /** Window `k` checks its batch, in what the other tasks made of the window before. */
  ghost predicate Continues(first: Records, windows: seq<Window>, ids: seq<Id>, others: Meanwhile, k: nat)
    requires k < |windows|
  {
    windows[k].found == others(k, Reached(first, windows, k)) && windows[k].batch == Batch(ids, k)
  }

  ghost predicate Chained(first: Records, windows: seq<Window>, ids: seq<Id>, others: Meanwhile) {
    forall k {:trigger Continues(first, windows, ids, others, k)} :: 0 <= k < |windows| ==>
      Continues(first, windows, ids, others, k)
  }

  /** The windows of one run, in order, from the first records to the last and over all candidates. */
  ghost predicate Runs(first: Records, windows: seq<Window>, ids: seq<Id>, others: Meanwhile, last: Records) {
    && Chained(first, windows, ids, others)
    && |windows| * CLEANUP_BATCH_SIZE >= |ids| && (|windows| > 0 ==> (|windows| - 1) * CLEANUP_BATCH_SIZE < |ids|)
    && last == Reached(first, windows, |windows|)
  }

  /** No load at the cutoff or later can tell what the window removed. */
  ghost predicate Invisible(w: Window, cutoff: Time) {
    forall id, found, checked :: cutoff <= found ==>
      LoadResult(w.left, id, found, checked) == LoadResult(w.found, id, found, checked)
  }

  /** The window removes exactly those of its candidates that are expired in what it found. */
  ghost predicate Cleans(w: Window, cutoff: Time) {
    && (forall id :: id in w.left <==>
          id in w.found && !(id in w.batch && w.found[id].expiry.Some? && w.found[id].expiry.value < cutoff))
    && (forall id :: id in w.left ==> w.left[id] == w.found[id])
    && RemovedIn(w) == Doomed(w.found, w.batch, cutoff) <= ExpiredIds(w.found, cutoff)
    && w.left == w.found - RemovedIn(w)
    && Invisible(w, cutoff)
    && (Bound(w.found) ==> Bound(w.left))
  }

  ghost predicate RemovesOnlyExpired(windows: seq<Window>, cutoff: Time) {
    forall k :: 0 <= k < |windows| ==> |windows[k].batch| <= 256 && Cleans(windows[k], cutoff)
  }

  lemma WindowCleans(w: Window, cutoff: Time)
    requires w.left == w.found - Doomed(w.found, w.batch, cutoff)
    ensures Cleans(w, cutoff)
  {
    assert RemovedIn(w) == Doomed(w.found, w.batch, cutoff);
    forall id, found, checked | cutoff <= found
      ensures LoadResult(w.left, id, found, checked) == LoadResult(w.found, id, found, checked)
    {
      CleanupIsInvisible(w.found, RemovedIn(w), cutoff, id, found, checked);
    }
  }

  /** Nobody else touches the store. */
  ghost predicate Undisturbed(others: Meanwhile) {
    forall k, records :: others(k, records) == records
  }

  /** The candidates in `ids` that are still expired. */
  ghost function Doomed(records: Records, ids: seq<Id>, cutoff: Time): set<Id> {
    set id | id in ids && id in ExpiredIds(records, cutoff)
  }

  lemma DoomedUnion(records: Records, ids: seq<Id>, start: nat, end: nat, cutoff: Time)
    requires start <= end <= |ids|
    ensures var done := Doomed(records, ids[..start], cutoff);
            var now := Doomed(records - done, ids[start..end], cutoff);
            Doomed(records, ids[..end], cutoff) == done + now && done !! now
  {
    var done := Doomed(records, ids[..start], cutoff);
    var now := Doomed(records - done, ids[start..end], cutoff);
    assert ids[..end] == ids[..start] + ids[start..end];
    forall id
      ensures id in Doomed(records, ids[..end], cutoff) <==> id in done + now
    {
    }
  }

  lemma MinusTwice(records: Records, a: set<Id>, b: set<Id>)
    ensures records - a - b == records - (a + b)
  {
  }

  /** Removing one batch after another removes the union, counted once. */
  lemma DoomedStep(records: Records, ids: seq<Id>, start: nat, end: nat, cutoff: Time)
    requires start <= end <= |ids|
    ensures var done := Doomed(records, ids[..start], cutoff);
            var now := Doomed(records - done, ids[start..end], cutoff);
            && |Doomed(records, ids[..end], cutoff)| == |done| + |now|
            && records - done - now == records - Doomed(records, ids[..end], cutoff)
  {
    var done := Doomed(records, ids[..start], cutoff);
    var now := Doomed(records - done, ids[start..end], cutoff);
    DoomedUnion(records, ids, start, end, cutoff);
    hide Doomed;
    MinusTwice(records, done, now);
  }

  lemma DoomedOne(records: Records, ids: seq<Id>, k: nat, cutoff: Time)
    requires k < |ids|
    ensures var done := Doomed(records, ids[..k], cutoff);
            var found := ids[k] in ExpiredIds(records - done, cutoff);
            && Doomed(records, ids[..k + 1], cutoff) == (if found then done + {ids[k]} else done)
            && |Doomed(records, ids[..k + 1], cutoff)| == |done| + (if found then 1 else 0)
            && (found ==> records - done - {ids[k]} == records - Doomed(records, ids[..k + 1], cutoff))
  {
    var done := Doomed(records, ids[..k], cutoff);
    assert ids[..k + 1] == ids[..k] + [ids[k]];
    if ids[k] in ExpiredIds(records - done, cutoff) {
      assert Doomed(records, ids[..k + 1], cutoff) == done + {ids[k]};
      MinusTwice(records, done, {ids[k]});
    } else {
      assert Doomed(records, ids[..k + 1], cutoff) == done;
    }
  }

  lemma DoomedAll(records: Records, ids: seq<Id>, cutoff: Time)
    requires OldestFirst(records, ExpiredIds(records, cutoff), ids)
    ensures Doomed(records, ids, cutoff) == IdSet(ids)
    ensures |Doomed(records, ids, cutoff)| == |ids|
  {
    assert forall i, j :: 0 <= i < j < |ids| ==> ids[i] != ids[j];
    DistinctCount(ids);
  }

  ghost function IdSet(ids: seq<Id>): set<Id> {
    set id | id in ids
  }

  lemma {:induction false} DistinctCount(ids: seq<Id>)
    requires forall i, j :: 0 <= i < j < |ids| ==> ids[i] != ids[j]
    ensures |IdSet(ids)| == |ids|
  {
    if ids == [] {
      assert IdSet(ids) == {};
    } else {
      var init, last := ids[..|ids| - 1], ids[|ids| - 1];
      DistinctCount(init);
      assert ids == init + [last];
      assert last !in init;
      assert IdSet(ids) == IdSet(init) + {last};
    }
  }

  /** A further window continues a run. */
  lemma AddWindow(first: Records, windows: seq<Window>, w: Window, ids: seq<Id>, others: Meanwhile, cutoff: Time)
    returns (more: seq<Window>)
    requires RemovesOnlyExpired(windows, cutoff) && Cleans(w, cutoff)
    requires Chained(first, windows, ids, others)
    requires w.found == others(|windows|, Reached(first, windows, |windows|)) && w.batch == Batch(ids, |windows|)
    ensures more == windows + [w] && RemovesOnlyExpired(more, cutoff)
    ensures RemovedCount(more) == RemovedCount(windows) + |RemovedIn(w)|
    ensures Chained(first, more, ids, others) && Reached(first, more, |more|) == w.left
  {
    hide Cleans, RemovedIn, Batch, Chained;
    more := windows + [w];
    assert more[..|windows|] == windows;
    AddChained(first, windows, w, ids, others);
  }

  lemma AddChained(first: Records, windows: seq<Window>, w: Window, ids: seq<Id>, others: Meanwhile)
    requires Chained(first, windows, ids, others)
    requires w.found == others(|windows|, Reached(first, windows, |windows|)) && w.batch == Batch(ids, |windows|)
    ensures Chained(first, windows + [w], ids, others)
  {
    hide Batch;
    var more := windows + [w];
    forall k | 0 <= k < |more|
      ensures Continues(first, more, ids, others, k)
    {
      assert Reached(first, more, k) == Reached(first, windows, k);
      assert k < |windows| ==> more[k] == windows[k] && Continues(first, windows, ids, others, k);
    }
  }

  /** The candidates before `start` are gone from the first records if expired, and counted. */
  ghost predicate Gone(first: Records, records: Records, ids: seq<Id>, start: nat, cutoff: Time, count: nat)
    requires start <= |ids|
  {
    && records == first - Doomed(first, ids[..start], cutoff)
    && count == |Doomed(first, ids[..start], cutoff)|
  }

  lemma Quietly(others: Meanwhile, k: nat, records: Records)
    requires Undisturbed(others)
    ensures others(k, records) == records
  {
  }

  /** Other tasks that keep records bound to their keys, as every operation of the store does. */
  ghost predicate KeepBound(others: Meanwhile) {
    forall k, records :: Bound(records) ==> Bound(others(k, records))
  }

  /** A whole run keeps the records bound to their keys. */
  lemma {:induction false} RunKeepsBound(
      first: Records, windows: seq<Window>, ids: seq<Id>, others: Meanwhile, cutoff: Time, k: nat)
    requires Chained(first, windows, ids, others) && RemovesOnlyExpired(windows, cutoff) && k <= |windows|
    requires Bound(first) && KeepBound(others)
    ensures Bound(Reached(first, windows, k))
  {
    hide Bound, Batch;
    if k > 0 {
      RunKeepsBound(first, windows, ids, others, cutoff, k - 1);
      assert Continues(first, windows, ids, others, k - 1);
      assert Cleans(windows[k - 1], cutoff);
    }
  }

  /** Before the first window. */
  lemma RunStarts(first: Records, ids: seq<Id>, others: Meanwhile, cutoff: Time)
    ensures Chained(first, [], ids, others) && RemovesOnlyExpired([], cutoff) && RemovedCount([]) == 0
    ensures Reached(first, [], 0) == first && Offset(ids, 0) == 0 && Gone(first, first, ids, 0, cutoff, 0)
  {
    assert first - Doomed(first, ids[..0], cutoff) == first;
  }

  /** After the last window. */
  lemma RunEnds(first: Records, windows: seq<Window>, ids: seq<Id>, others: Meanwhile)
    requires Chained(first, windows, ids, others)
    requires |windows| * CLEANUP_BATCH_SIZE >= |ids| && (|windows| > 0 ==> (|windows| - 1) * CLEANUP_BATCH_SIZE < |ids|)
    ensures Runs(first, windows, ids, others, Reached(first, windows, |windows|))
    ensures Offset(ids, |windows|) == |ids|
  {
  }

  lemma AllGone(first: Records, last: Records, ids: seq<Id>, cutoff: Time, count: nat)
    requires Gone(first, last, ids, |ids|, cutoff, count)
    ensures last == first - Doomed(first, ids, cutoff) && count == |Doomed(first, ids, cutoff)|
  {
    assert ids[..|ids|] == ids;
  }

  /** A window continues an undisturbed run. */
  lemma GoneAfter(
      first: Records, ids: seq<Id>, k: nat, cutoff: Time, count: nat, w: Window)
    requires Gone(first, w.found, ids, Offset(ids, k), cutoff, count)
    requires Cleans(w, cutoff) && w.batch == Batch(ids, k)
    ensures Gone(first, w.left, ids, Offset(ids, k + 1), cutoff, count + |RemovedIn(w)|)
  {
    DoomedStep(first, ids, Offset(ids, k), Offset(ids, k + 1), cutoff);
  }

  /** A session straight from a trusted load. */
  ghost predicate IsolatedLoaded(session: Session, id: Id)
    reads session, session.data, session.data.live, session.family, session.family.lifecycle
  {
    && session.Valid() && session.Handle() == Identity.Handle(id, None, false)
    && session.family.View() == Identity.Shared(Some(id), false, false)
    && !session.family.lifecycle.locked && !session.family.lifecycle.uncertain
    && session.data.owners == {session} && session.data.live == {} && session.data.activeSaves == 0
    && !Dirty(session.data.View()) && !session.metadataChanged && session.cookie == None
  }

  class MemoryStore {
    const inner: MemoryState

    constructor ()
      ensures fresh(inner) && inner.Valid() && inner.records == map[]
    {
      inner := new MemoryState();
    }

    /** Other tasks use the store while no lock is held. */
    method Elapse(others: Meanwhile, k: nat)
      requires inner.Valid()
      modifies inner
      ensures inner.Valid() && inner.records == others(k, old(inner.records))
    {
      inner.Become(others(k, inner.records));
    }

    /**
     * Load the session whose cookie hashes to `id`. It is a trusted copy, clean
     * and isolated, that nothing keeps from being saved or deleted.
     */
    method LoadSession(id: Id, found: Time, checked: Time) returns (r: Result<Option<Session>>)
      ensures match LoadResult(inner.records, id, found, checked)
              case Err(error) => r == Err(error)
              case Ok(None) => r == Ok(None)
              case Ok(Some(record)) => r.Ok? && r.value.Some? && r.value.value.expiry == record.expiry
                                       && r.value.value.data.values == record.values
      ensures r == Ok(None) <==>
              id !in inner.records
              || var record := inner.records[id];
                 && record.expiry.Some?
                 && (record.expiry.value < found || (record.id == id && record.expiry.value < checked))
      ensures r.Ok? && r.value.Some? ==>
                var session := r.value.value;
                && IsolatedLoaded(session, id)
                && fresh(session) && fresh(session.data) && fresh(session.family) && fresh(session.family.lifecycle)
                && id in inner.records && session.expiry == inner.records[id].expiry
                && session.data.values == inner.records[id].values
    {
      if id !in inner.records {
        return Ok(None);
      }
      var record := inner.records[id];
      if record.expiry.Some? && record.expiry.value < found {
        return Ok(None);
      }
      var session := new Session.Deserialized(record);
      var valid := session.ValidateLoaded(id, checked);
      if valid.Err? {
        return Err(valid.error);
      }
      r := Ok(if valid.value then Some(session) else None);
    }

    /** Other tasks act on the store and on the family while a save waits for a lock. */
    method ElapseAround(family: FamilyState, change: Scene -> Scene)
      requires inner.Valid()
      modifies inner, family
      ensures inner.Valid()
      ensures Scene(inner.records, family.View()) == Elapsed(Scene(old(inner.records), old(family.View())), change)
    {
      var next := change(Scene(inner.records, family.View()));
      inner.Become(next.records);
      family.persistedId := next.family.persisted;
      family.creationClaimed := family.creationClaimed || next.family.claimed;
      family.destroy := family.destroy || next.family.destroyed;
    }

    /**
     * The part of a save that holds the store lock. Another task may request
     * destruction (`late`) after the checks and before the write is finished.
     */
    method StoreLocked(session: Session, attempted: Option<Id>, snapshot: Snapshot, guard: WriteGuard, late: bool)
      returns (r: Result<bool>)
      requires inner.Valid() && guard.family == session.family
      modifies inner, guard, session.family`destroy
      ensures inner.Valid() && guard.held == old(guard.held)
      ensures Outcome(r, Scene(inner.records, session.family.View())) ==
              AtStore(Scene(old(inner.records), old(session.family.View())),
                      session.Handle(), attempted, snapshot, late)
      ensures r.Ok? ==> guard.settled
    {
      var origin: Option<Id> := None;
      if attempted.Some? {
        var current := session.PersistenceOrigin();
        if current.Err? {
          return Err(SessionConflict);
        }
        origin := current.value;
      }
      if session.family.destroy {
        return Err(SessionConflict);
      }
      if origin.Some? && origin.value !in inner.records {
        return Err(SessionConflict);
      }
      if origin != Some(session.id) && session.id in inner.records {
        return Err(SessionConflict);
      }
      ghost var records := inner.records;
      if origin.Some? && origin.value != session.id {
        var removed := inner.Remove(origin.value);
      }
      var previous := inner.Insert(session.id, snapshot);
      assert Ok(inner.records) == AtomicStore(records, origin, session.id, snapshot);
      if late {
        session.family.destroy := true;
      }
      var won := guard.Finish();
      if !won {
        var undone := inner.Remove(session.id);
        assert inner.records == Undone(records, session.id, session.family.persistedId, attempted);
        return Err(SessionConflict);
      }
      r := Ok(true);
    }

    /** A captured save from the moment the lifecycle lock is free to the end of the store lock. */
    method StoreGuarded(session: Session, attempted: Option<Id>, snapshot: Snapshot, others: Others)
      returns (r: Result<WriteGuard>)
      requires inner.Valid() && !session.family.lifecycle.locked
      modifies inner, session.family, session.family.lifecycle
      ensures inner.Valid() && session.family.lifecycle.uncertain == old(session.family.lifecycle.uncertain)
      ensures session.family.lifecycle.locked == r.Ok?
      ensures var o := AtGuard(Scene(old(inner.records), old(session.family.View())), session.Handle(), attempted,
                               snapshot, session.family.lifecycle.uncertain, others);
              && Scene(inner.records, session.family.View()) == o.scene
              && (r.Ok? <==> o.result.Ok?) && (r.Err? ==> r.error == o.result.error)
      ensures r.Ok? ==> r.value.held && r.value.settled && fresh(r.value) && r.value.family == session.family
    {
      hide Identity.PersistenceOrigin, AtStore, Indexed, Elapsed;
      var write := session.BeginGuardedWrite(attempted, null, false);
      if write.Err? {
        return Err(write.error);
      }
      var guard := write.value;
      ElapseAround(session.family, others.locking);
      var stored := StoreLocked(session, attempted, snapshot, guard, others.late);
      if stored.Err? {
        guard.Drop();
        return Err(stored.error);
      }
      r := Ok(guard);
    }

    /** Other clones edit the shared data and use the family while a captured save waits for its guard. */
    method AwaitGuard(session: Session, others: Others)
      requires inner.Valid() && session.Valid() && !session.family.lifecycle.locked
      modifies inner, session.data, session.family, session.family.lifecycle
      ensures inner.Valid() && session.Valid() && !session.family.lifecycle.locked
      ensures session.data.live == old(session.data.live) && session.data.owners == old(session.data.owners)
      ensures session.data.View() == Edited(old(session.data.View()), others.changes)
      ensures Scene(inner.records, session.family.View()) ==
              Elapsed(Scene(old(inner.records), old(session.family.View())), others.waiting)
      ensures session.family.lifecycle.uncertain == (old(session.family.lifecycle.uncertain) || others.poisoned)
    {
      hide Elapsed, Edited, Indexed;
      session.data.Edit(others.changes);
      ElapseAround(session.family, others.waiting);
      if others.poisoned {
        session.family.lifecycle.uncertain := true;
      }
    }

    /** A captured save, from the wait for the lifecycle lock to the end of the store lock. */
    method StoreAwaited(session: Session, attempted: Option<Id>, snapshot: Snapshot, others: Others)
      returns (r: Result<WriteGuard>)
      requires inner.Valid() && session.Valid() && !session.family.lifecycle.locked
      modifies inner, session.data, session.family, session.family.lifecycle
      ensures inner.Valid() && session.Valid()
      ensures session.data.live == old(session.data.live) && session.data.owners == old(session.data.owners)
      ensures session.data.View() == Edited(old(session.data.View()), others.changes)
      ensures session.family.lifecycle.uncertain == (old(session.family.lifecycle.uncertain) || others.poisoned)
      ensures session.family.lifecycle.locked == r.Ok?
      ensures var o := AtGuard(Elapsed(Scene(old(inner.records), old(session.family.View())), others.waiting),
                               session.Handle(), attempted, snapshot, session.family.lifecycle.uncertain, others);
              && Scene(inner.records, session.family.View()) == o.scene
              && (r.Ok? <==> o.result.Ok?) && (r.Err? ==> r.error == o.result.error)
      ensures r.Ok? ==> r.value.held && r.value.settled && fresh(r.value) && r.value.family == session.family
    {
      hide AtGuard, Indexed, Elapsed, Edited;
      AwaitGuard(session, others);
      r := StoreGuarded(session, attempted, snapshot, others);
    }

    /** An admitted save, from its capture to its report. */
    method StoreCaptured(session: Session, attempted: Option<Id>, others: Others) returns (r: Result<Option<Id>>)
      requires inner.Valid() && session.Valid() && !session.family.lifecycle.locked
      modifies inner, session, session.data, session.family, session.family.lifecycle
      ensures inner.Valid() && session.Valid() && session.Handle() == old(session.Handle())
      ensures session.data == old(session.data) && session.family == old(session.family)
      ensures session.expiry == old(session.expiry) && session.cookie == old(session.cookie)
      ensures session.data.live == old(session.data.live) && session.data.owners == old(session.data.owners)
      ensures !session.family.lifecycle.locked
      ensures session.family.lifecycle.uncertain == (old(session.family.lifecycle.uncertain) || others.poisoned)
      ensures var o := Admitted(Scene(old(inner.records), old(session.family.View())), session.Handle(), attempted,
                                old(session.Image(session.family.destroy)), session.family.lifecycle.uncertain, others);
              && Scene(inner.records, session.family.View()) == o.scene
              && (r.Ok? <==> o.result.Ok?)
              && (r.Ok? ==> r.value == old(session.cookie) && !session.metadataChanged)
              && (r.Err? ==> r.error == o.result.error && session.metadataChanged == old(session.metadataChanged))
      ensures var edited := Edited(Captured(old(session.data.View())), others.changes);
              && edited.active > 0
              && session.data.View() ==
                 if r.Ok? then Acknowledged(edited, old(session.data.revision)) else Released(edited)
      ensures r.Ok? ==>
                && session.id in inner.records
                && inner.records[session.id] ==
                   Snapshot(session.id, old(session.expiry), old(session.data.values), false)
      ensures r.Err? ==> Dirty(session.data.View())
    {
      CaptureIsStored(Scene(inner.records, session.family.View()), session.Handle(), attempted,
                      session.Image(session.family.destroy), session.family.lifecycle.uncertain || others.poisoned,
                      others);
      ReleasedIsDirty(session.data.View(), others.changes);
      var snapshot, revision := session.PersistenceSnapshot();
      EditsAreCounted(session.data.View(), others.changes);
      hide Identity.MarkPersisted, AtGuard, Indexed, Elapsed, Captured, Edited, Acknowledged, Released, Dirty;
      var guarded := StoreAwaited(session, attempted, snapshot, others);
      r := Report(session, revision, guarded);
    }

    /** The end of a captured save: publish and acknowledge, or give the save's slot back. */
    method Report(session: Session, revision: SaveRevision, guarded: Result<WriteGuard>) returns (r: Result<Option<Id>>)
      requires session.Valid() && revision.data == session.data && revision in session.data.live
      requires guarded.Ok? ==>
                 && guarded.value.family == session.family && guarded.value.held && guarded.value.settled
                 && session.family.lifecycle.locked
      modifies session, session.data, session.family, session.family.lifecycle, revision,
               if guarded.Ok? then {guarded.value} else {}
      ensures session.Valid() && session.Handle() == old(session.Handle())
      ensures session.data == old(session.data) && session.family == old(session.family)
      ensures session.expiry == old(session.expiry) && session.cookie == old(session.cookie)
      ensures session.data.live == old(session.data.live) - {revision}
              && session.data.owners == old(session.data.owners)
      ensures session.family.lifecycle.uncertain == old(session.family.lifecycle.uncertain)
      ensures old(session.data.activeSaves) > 0
      ensures guarded.Ok? ==>
                && r == Ok(old(session.cookie)) && !session.metadataChanged && !session.family.lifecycle.locked
                && session.family.View() == Identity.MarkPersisted(old(session.family.View()), session.Handle())
                && session.data.View() == Acknowledged(old(session.data.View()), revision.revision)
      ensures guarded.Err? ==>
                && r == Err(guarded.error) && session.metadataChanged == old(session.metadataChanged)
                && session.family.lifecycle.locked == old(session.family.lifecycle.locked)
                && session.family.View() == old(session.family.View())
                && session.data.View() == Released(old(session.data.View()))
    {
      if guarded.Err? {
        revision.Drop();
        return Err(guarded.error);
      }
      session.Publish(revision, guarded.value);
      r := Ok(session.cookie);
    }

    /**
     * Save a session while `others` act: on everything shared before the guard
     * and before the store lock, on the clones' data, and, by requesting
     * destruction, at every moment. The outcome is `SaveOutcome`, to the record.
     */
    method StoreSession(session: Session, others: Others) returns (r: Result<Option<Id>>)
      requires inner.Valid() && session.Valid() && !session.family.lifecycle.locked
      modifies inner, session, session.data, session.family, session.family.lifecycle
      ensures inner.Valid() && session.Valid() && session.Handle() == old(session.Handle())
      ensures session.data == old(session.data) && session.family == old(session.family)
      ensures session.expiry == old(session.expiry) && session.cookie == old(session.cookie)
      ensures session.data.live == old(session.data.live) && session.data.owners == old(session.data.owners)
      ensures !session.family.lifecycle.locked
      ensures var o := SaveOutcome(Scene(old(inner.records), old(session.family.View())), session.Handle(),
                                   old(session.Image(false)), old(session.family.lifecycle.uncertain), others);
              && Scene(inner.records, session.family.View()) == o.scene
              && (r.Ok? <==> o.result.Ok?)
              && (r.Ok? ==> r.value == old(session.cookie) && !session.metadataChanged)
              && (r.Err? ==> r.error == o.result.error && session.metadataChanged == old(session.metadataChanged))
      ensures var admitted := Identity.PersistenceAttempt(old(session.family.View()), session.Handle()).Ok?;
              var edited := Edited(Captured(old(session.data.View())), others.changes);
              && session.family.lifecycle.uncertain ==
                 (old(session.family.lifecycle.uncertain) || (admitted && others.poisoned))
              && edited.active > 0
              && session.data.View() ==
                 if !admitted then old(session.data.View())
                 else if r.Ok? then Acknowledged(edited, old(session.data.revision))
                 else Released(edited)
      ensures var now, h := Scene(old(inner.records), old(session.family.View())), session.Handle();
              (Bound(now.records) && Bound(FoundAtGuard(now, h, others).records)
               && Bound(FoundAtStore(now, h, others).records)) ==> Bound(inner.records)
      ensures var captured := Captured(old(session.data.View()));
              r.Ok? && old(session.data.activeSaves) == 0 ==>
                (!Dirty(session.data.View()) <==> Edited(captured, others.changes) == captured)
      ensures r.Ok? ==>
                && session.id in inner.records
                && inner.records[session.id] ==
                   Snapshot(session.id, old(session.expiry), old(session.data.values), false)
      ensures r.Err? && Identity.PersistenceAttempt(old(session.family.View()), session.Handle()).Ok? ==>
                Dirty(session.data.View())
    {
      SavedUnlessEdited(session.data.View(), others.changes);
      BoundOutcome(Scene(inner.records, session.family.View()), session.Handle(), session.Image(false),
                   session.family.lifecycle.uncertain, others);
      var attempt := session.PersistenceAttempt();
      if attempt.Err? {
        return Err(attempt.error);
      }
      hide Identity.PersistenceOrigin, Admitted, Indexed, Captured, Edited, Acknowledged, Released, Bound, Dirty;
      if others.early {
        session.family.destroy := true;
      }
      r := StoreCaptured(session, attempt.value, others);
    }

    /** Delete the family's persisted record, unless an earlier write is unsettled. */
    method DestroySession(session: Session) returns (r: Result<bool>)
      requires inner.Valid() && !session.family.lifecycle.locked
      modifies inner, session.family, session.family.lifecycle
      ensures inner.Valid() && session.family.View() == old(session.family.View()).(destroyed := true)
      ensures r == if old(session.family.lifecycle.uncertain) then Err(UncertainWrite) else Ok(true)
      ensures r.Ok? ==>
                inner.records ==
                old(inner.records) - {Identity.DeleteTarget(old(session.family.View()), session.Handle())}
      ensures r.Err? ==> inner.records == old(inner.records)
      ensures Bound(old(inner.records)) ==> Bound(inner.records)
      ensures !session.family.lifecycle.locked
    {
      var deletion := session.BeginDelete();
      if deletion.Err? {
        return Err(deletion.error);
      }
      var removed := inner.Remove(deletion.value.id.value);
      deletion.value.Drop();
      r := Ok(true);
    }

    method ClearStore()
      modifies inner
      ensures inner.Valid() && inner.records == map[] && Bound(inner.records)
    {
      inner.Clear();
    }

    /** Re-check a candidate under the lock used to remove it. */
    method RemoveIfExpired(id: Id, cutoff: Time) returns (removed: bool)
      requires inner.Valid()
      modifies inner
      ensures inner.Valid() && removed == (id in ExpiredIds(old(inner.records), cutoff))
      ensures inner.records == if removed then old(inner.records) - {id} else old(inner.records)
    {
      removed := id in inner.records && Expired(inner.records[id].expiry, cutoff);
      if removed {
        var session := inner.Remove(id);
      }
    }

    /** One lock window. */
    method RemoveWindow(batch: seq<Id>, cutoff: Time) returns (count: nat, ghost w: Window)
      requires inner.Valid()
      modifies inner
      ensures inner.Valid() && w == Window(old(inner.records), batch, inner.records)
      ensures Cleans(w, cutoff) && count == |RemovedIn(w)| <= |batch|
    {
      count := 0;
      ghost var before := inner.records;
      assert Doomed(before, batch[..0], cutoff) == {};
      for k := 0 to |batch|
        invariant inner.Valid() && inner.records == before - Doomed(before, batch[..k], cutoff)
        invariant count == |Doomed(before, batch[..k], cutoff)| <= k
      {
        DoomedOne(before, batch, k, cutoff);
        hide Indexed, Doomed, ExpiredIds;
        var removed := RemoveIfExpired(batch[k], cutoff);
        if removed {
          count := count + 1;
        }
      }
      assert batch[..|batch|] == batch;
      w := Window(before, batch, inner.records);
      WindowCleans(w, cutoff);
    }

    /** Let other tasks act, then take the lock for the next batch. */
    method NextWindow(ids: seq<Id>, k: nat, cutoff: Time, others: Meanwhile) returns (count: nat, ghost w: Window)
      requires inner.Valid()
      modifies inner
      ensures inner.Valid() && w == Window(others(k, old(inner.records)), Batch(ids, k), inner.records)
      ensures Cleans(w, cutoff) && count == |RemovedIn(w)| <= |w.batch|
    {
      Elapse(others, k);
      count, w := RemoveWindow(Batch(ids, k), cutoff);
    }

    /**
     * Remove the candidates that are still expired, one lock window after
     * another, while other tasks do as they like in between.
     */
    method RemoveExpiredCandidates(ids: seq<Id>, cutoff: Time, others: Meanwhile)
      returns (count: nat, ghost windows: seq<Window>)
      requires inner.Valid()
      modifies inner
      ensures inner.Valid() && Runs(old(inner.records), windows, ids, others, inner.records)
      ensures RemovesOnlyExpired(windows, cutoff) && count == RemovedCount(windows) <= |ids|
      ensures Undisturbed(others) ==>
                && inner.records == old(inner.records) - Doomed(old(inner.records), ids, cutoff)
                && count == |Doomed(old(inner.records), ids, cutoff)|
    {
      hide Indexed, Gone, Chained, Reached, Runs, RemovesOnlyExpired, RemovedCount, Cleans, RemovedIn;
      hide Offset, Batch, Doomed, ExpiredIds, Undisturbed;
      count, windows := 0, [];
      var k := 0;
      ghost var first := inner.records;
      RunStarts(first, ids, others, cutoff);
      while k * CLEANUP_BATCH_SIZE < |ids|
        invariant inner.Valid() && k == |windows| && (k > 0 ==> (k - 1) * CLEANUP_BATCH_SIZE < |ids|)
        invariant Chained(first, windows, ids, others) && inner.records == Reached(first, windows, k)
        invariant RemovesOnlyExpired(windows, cutoff) && count == RemovedCount(windows) <= Offset(ids, k)
        invariant Undisturbed(others) ==> Gone(first, inner.records, ids, Offset(ids, k), cutoff, count)
      {
        ghost var reached := inner.records;
        var removed, w := NextWindow(ids, k, cutoff, others);
        if Undisturbed(others) {
          Quietly(others, k, reached);
          GoneAfter(first, ids, k, cutoff, count, w);
        }
        windows := AddWindow(first, windows, w, ids, others, cutoff);
        count := count + removed;
        k := k + 1;
      }
      RunEnds(first, windows, ids, others);
      if Undisturbed(others) {
        AllGone(first, inner.records, ids, cutoff, count);
      }
    }

    /**
     * Remove up to `limit` records that expired before `cutoff`. `ids` are the
     * candidates chosen at the start and `windows` the lock windows that follow.
     */
    method CleanupBatch(limit: nat, cutoff: Time, others: Meanwhile)
      returns (r: Result<nat>, ghost ids: seq<Id>, ghost windows: seq<Window>)
      requires inner.Valid()
      modifies inner
      ensures inner.Valid() && (r.Ok? <==> 1 <= limit <= 10_000)
      ensures r.Err? ==> r.error == InvalidLimit && inner.records == old(inner.records)
      ensures r.Ok? ==>
                var expired := ExpiredIds(old(inner.records), cutoff);
                && OldestFirst(old(inner.records), expired, ids) && |ids| == Min(limit, |expired|)
                && Runs(old(inner.records), windows, ids, others, inner.records)
                && RemovesOnlyExpired(windows, cutoff)
                && r.value == RemovedCount(windows) <= limit
      ensures r.Ok? && Undisturbed(others) ==>
                && CleansRound(old(inner.records), inner.records, cutoff, limit)
                && r.value == |old(inner.records).Keys - inner.records.Keys|
      ensures Bound(old(inner.records)) && KeepBound(others) ==> Bound(inner.records)
    {
      ids, windows := [], [];
      if !(1 <= limit <= MAX_CLEANUP_LIMIT) {
        return Err(InvalidLimit), ids, windows;
      }
      var candidates, examined := inner.ExpiredCandidates(cutoff, limit);
      ids := candidates;
      ghost var before := inner.records;
      var count: nat;
      count, windows := RemoveExpiredCandidates(candidates, cutoff, others);
      r := Ok(count);
      if Bound(before) && KeepBound(others) {
        RunKeepsBound(before, windows, ids, others, cutoff, |windows|);
      }
      if Undisturbed(others) {
        DoomedAll(before, ids, cutoff);
        RoundIsClean(before, inner.records, ids, cutoff, limit);
      }
    }
  }

  /** A round removes the oldest expired records, `limit` of them or all there are. */
  ghost predicate CleansRound(before: Records, after: Records, cutoff: Time, limit: nat) {
    var gone := before.Keys - after.Keys;
    && after == before - gone && gone <= ExpiredIds(before, cutoff)
    && |gone| == Min(limit, |ExpiredIds(before, cutoff)|)
    && forall id, kept :: id in gone && kept in ExpiredIds(after, cutoff) ==>
         Before(EntryOf(before, id), EntryOf(before, kept))
  }

  lemma RoundIsClean(before: Records, after: Records, ids: seq<Id>, cutoff: Time, limit: nat)
    requires OldestFirst(before, ExpiredIds(before, cutoff), ids)
    requires |ids| == Min(limit, |ExpiredIds(before, cutoff)|) && |Doomed(before, ids, cutoff)| == |ids|
    requires after == before - Doomed(before, ids, cutoff)
    ensures CleansRound(before, after, cutoff, limit)
  {
    var gone := before.Keys - after.Keys;
    assert gone == Doomed(before, ids, cutoff);
    forall id, kept | id in gone && kept in ExpiredIds(after, cutoff)
      ensures id in before && before[id].expiry.Some? && kept in before && before[kept].expiry.Some?
      ensures Before(EntryOf(before, id), EntryOf(before, kept))
    {
      assert kept in ExpiredIds(before, cutoff) && kept !in ids;
      assert id in ids;
    }
  }

  lemma RoundCounts(before: Records, after: Records, cutoff: Time, limit: nat)
    requires CleansRound(before, after, cutoff, limit)
    ensures var n := |ExpiredIds(before, cutoff)|;
            |ExpiredIds(after, cutoff)| == n - Min(limit, n)
  {
    var gone := before.Keys - after.Keys;
    assert ExpiredIds(before, cutoff) == ExpiredIds(after, cutoff) + gone;
    assert ExpiredIds(after, cutoff) !! gone;
  }

  /** After any number of undisturbed rounds, exactly the expired records beyond `k * limit` remain. */
  lemma {:induction false} RoundsDrain(rounds: seq<Records>, cutoff: Time, limit: nat, k: nat)
    requires k < |rounds| && limit > 0
    requires forall i, j :: 0 <= i < j < |rounds| && j == i + 1 ==> CleansRound(rounds[i], rounds[j], cutoff, limit)
    ensures var n := |ExpiredIds(rounds[0], cutoff)|;
            |ExpiredIds(rounds[k], cutoff)| == if k * limit <= n then n - k * limit else 0
  {
    if k > 0 {
      RoundsDrain(rounds, cutoff, limit, k - 1);
      RoundCounts(rounds[k - 1], rounds[k], cutoff, limit);
      assert k * limit == (k - 1) * limit + limit;
    }
  }

  // ----- A save among other tasks -----

  /** What all tasks share: the records and the fields of the family. */
  datatype Scene = Scene(records: Records, family: Identity.Shared)

  /**
   * What other tasks do during a save. They may request destruction before the
   * capture (`early`) or between the checks and the end of the write (`late`),
   * edit the data after the capture, change everything while the save waits for
   * the lifecycle lock, where an unsettled save may leave the family uncertain
   * (`poisoned`), and again while it waits for the store lock.
   */
  datatype Others = Others(
    early: bool,
    changes: seq<Change>,
    waiting: Scene -> Scene,
    poisoned: bool,
    locking: Scene -> Scene,
    late: bool)

  datatype Outcome = Outcome(result: Result<bool>, scene: Scene)

  /** Time passes; claims and requests for destruction are never taken back. */
  function Elapsed(now: Scene, change: Scene -> Scene): Scene {
    var next := change(now);
    next.(family := next.family.(claimed := now.family.claimed || next.family.claimed,
                                 destroyed := now.family.destroyed || next.family.destroyed))
  }

  /** The origin re-read under the store lock; a first save keeps having none. */
  function Current(h: Identity.Handle, sh: Identity.Shared, attempted: Option<Id>): Result<Option<Id>> {
    if attempted.None? then Ok(None) else Identity.PersistenceOrigin(sh, h)
  }

  /** The records after an undisturbed locked write, or why it is refused. */
  function Checked(
      records: Records, h: Identity.Handle, sh: Identity.Shared, attempted: Option<Id>, snapshot: Snapshot)
    : Result<Records>
  {
    if sh.destroyed || Current(h, sh, attempted).Err? then Err(SessionConflict)
    else AtomicStore(records, Current(h, sh, attempted).value, h.id, snapshot)
  }

  /** The records after destruction won: the target is gone, and so is a rotation's source. */
  function Undone(records: Records, id: Id, persisted: Option<Id>, attempted: Option<Id>): Records {
    records - {id} - (if attempted.Some? && persisted.Some? then {persisted.value} else {})
  }

  /** Why the lifecycle lock refuses the save, if it does. */
  function Refusal(sh: Identity.Shared, uncertain: bool, h: Identity.Handle, attempted: Option<Id>): Option<Error> {
    if uncertain then Some(UncertainWrite)
    else if sh.destroyed || (attempted.Some? && Identity.PersistenceOrigin(sh, h) != Ok(attempted))
    then Some(SessionConflict)
    else None
  }

  /** The store lock is obtained at `now`. */
  function AtStore(now: Scene, h: Identity.Handle, attempted: Option<Id>, record: Snapshot, late: bool): Outcome {
    var checked := Checked(now.records, h, now.family, attempted, record);
    if checked.Err? then Outcome(Err(SessionConflict), now)
    else if late then
      Outcome(Err(SessionConflict),
              Scene(Undone(now.records, h.id, now.family.persisted, attempted), now.family.(destroyed := true)))
    else Outcome(Ok(true), now.(records := checked.value))
  }

  /** The lifecycle lock is free at `now`. */
  function AtGuard(
      now: Scene, h: Identity.Handle, attempted: Option<Id>, record: Snapshot, uncertain: bool, others: Others): Outcome
  {
    var refusal := Refusal(now.family, uncertain, h, attempted);
    if refusal.Some? then Outcome(Err(refusal.value), now)
    else AtStore(Elapsed(now, others.locking), h, attempted, record, others.late)
  }

  /** The save is admitted and captured at `now`. */
  function Admitted(
      now: Scene, h: Identity.Handle, attempted: Option<Id>, record: Snapshot, uncertain: bool, others: Others): Outcome
  {
    var o := AtGuard(Elapsed(now, others.waiting), h, attempted, record, uncertain, others);
    if o.result.Ok? then o.(scene := o.scene.(family := Identity.MarkPersisted(o.scene.family, h))) else o
  }

  /** What an admitted save stores is what it captured, and a destroyed family stores nothing. */
  lemma CaptureIsStored(
      now: Scene, h: Identity.Handle, attempted: Option<Id>, record: Snapshot, uncertain: bool, others: Others)
    ensures var o := Admitted(now, h, attempted, record, uncertain, others);
            o.result.Ok? ==>
              !now.family.destroyed && h.id in o.scene.records && o.scene.records[h.id] == record
  {
  }

  /** The whole save. */
  function SaveOutcome(
      now: Scene, h: Identity.Handle, record: Snapshot, uncertain: bool, others: Others): Outcome
  {
    var attempt := Identity.PersistenceAttempt(now.family, h);
    if attempt.Err? then Outcome(Err(attempt.error), now)
    else
      var claimed := Identity.Claim(now.family, h);
      Admitted(now.(family := claimed.(destroyed := others.early)), h, attempt.value,
               record.(destroyed := others.early), uncertain || others.poisoned, others)
  }

  /** What an admitted save finds when the lifecycle lock is free. */
  function FoundAtGuard(now: Scene, h: Identity.Handle, others: Others): Scene {
    Elapsed(now.(family := Identity.Claim(now.family, h).(destroyed := others.early)), others.waiting)
  }

  /** What a guarded save finds under the store lock. */
  function FoundAtStore(now: Scene, h: Identity.Handle, others: Others): Scene {
    Elapsed(FoundAtGuard(now, h, others), others.locking)
  }

  /**
   * A save succeeds exactly when it was admitted, the lifecycle lock granted it,
   * its write applies to the records found under the store lock, and nobody
   * requested destruction. The records are then those found, with exactly the
   * captured record created, updated or rotated in.
   */
  lemma SaveIsAtomic(now: Scene, h: Identity.Handle, record: Snapshot, uncertain: bool, others: Others)
    requires record.id == h.id && !record.destroyed
    ensures var o := SaveOutcome(now, h, record, uncertain, others);
            var attempt := Identity.PersistenceAttempt(now.family, h);
            var found := FoundAtStore(now, h, others);
            && (o.result.Ok? <==>
                  && attempt.Ok? && !uncertain && !others.poisoned
                  && Refusal(FoundAtGuard(now, h, others).family, false, h, attempt.value).None?
                  && Current(h, found.family, attempt.value).Ok?
                  && AtomicStore(found.records, Current(h, found.family, attempt.value).value, h.id, record).Ok?
                  && !others.early && !found.family.destroyed && !others.late)
            && (o.result.Ok? ==>
                  && Ok(o.scene.records) ==
                     AtomicStore(found.records, Current(h, found.family, attempt.value).value, h.id, record)
                  && (found.family.persisted == attempt.value ==> o.scene.family.persisted == Some(h.id)))
  {
  }

  /** After a successful save a load returns what was captured, whatever other tasks did meanwhile. */
  lemma SavedIsLoaded(
      now: Scene, h: Identity.Handle, record: Snapshot, uncertain: bool, others: Others, found: Time, checked: Time)
    requires record.id == h.id && !record.destroyed && found <= checked
    requires SaveOutcome(now, h, record, uncertain, others).result.Ok?
    ensures LoadResult(SaveOutcome(now, h, record, uncertain, others).scene.records, h.id, found, checked)
            == Ok(if Expired(record.expiry, checked) then None else Some(record))
  {
    SaveIsAtomic(now, h, record, uncertain, others);
    var attempted := Identity.PersistenceAttempt(now.family, h).value;
    var at := FoundAtStore(now, h, others);
    hide SaveOutcome, FoundAtStore;
    StoredIsLoaded(at.records, Current(h, at.family, attempted).value, h.id, record, h.id, found, checked);
  }

  /**
   * A refused save leaves the records as it found them, unless destruction was
   * requested during its write: then the target is absent, a rotation's source
   * is absent, and every other record is untouched. It publishes no identity.
   */
  lemma RefusedSaveLeavesNothing(
      now: Scene, h: Identity.Handle, record: Snapshot, uncertain: bool, others: Others, id: Id)
    requires SaveOutcome(now, h, record, uncertain, others).result.Err?
    ensures var o := SaveOutcome(now, h, record, uncertain, others);
            var attempt := Identity.PersistenceAttempt(now.family, h);
            var guard, found := FoundAtGuard(now, h, others), FoundAtStore(now, h, others);
            if attempt.Err? then o.scene == now
            else if Refusal(guard.family, uncertain || others.poisoned, h, attempt.value).Some? then o.scene == guard
            else
              var written := Checked(found.records, h, found.family, attempt.value, record);
              && o.scene.family == found.family.(destroyed := found.family.destroyed || written.Ok?)
              && (written.Err? ==> o.scene == found)
              && (written.Ok? ==>
                    && others.late && h.id !in o.scene.records
                    && (id != h.id ==>
                          (id in o.scene.records <==> id in written.value)
                          && (id in written.value ==> o.scene.records[id] == written.value[id] == found.records[id])))
  {
  }

  /** No task but the save itself does anything, except perhaps request destruction during the write. */
  function Alone(late: bool): Others {
    Others(false, [], scene => scene, false, scene => scene, late)
  }

  /**
   * A save alone succeeds exactly when it is admitted, its conditional write
   * applies, the family is certain and destruction is not requested, and
   * publishes its identity; refused, it leaves the records alone, or without its
   * target and source if destruction came during an applicable write.
   */
  lemma SaveAlone(now: Scene, h: Identity.Handle, record: Snapshot, uncertain: bool, late: bool)
    requires !record.destroyed
    ensures var o := SaveOutcome(now, h, record, uncertain, Alone(late));
            var attempt := Identity.PersistenceAttempt(now.family, h);
            if attempt.Err? || uncertain || AtomicStore(now.records, attempt.value, h.id, record).Err? then
              o.result.Err? && o.scene.records == now.records && o.scene.family.persisted == now.family.persisted
            else if late then
              && o.result.Err? && o.scene.records == Undone(now.records, h.id, now.family.persisted, attempt.value)
              && o.scene.family.persisted == now.family.persisted && o.scene.family.destroyed
            else
              && o.result.Ok? && Ok(o.scene.records) == AtomicStore(now.records, attempt.value, h.id, record)
              && o.scene.family.persisted == Some(h.id)
  {
  }

  lemma BoundOutcome(now: Scene, h: Identity.Handle, record: Snapshot, uncertain: bool, others: Others)
    requires record.id == h.id && !record.destroyed
    ensures (Bound(now.records) && Bound(FoundAtGuard(now, h, others).records)
             && Bound(FoundAtStore(now, h, others).records)) ==>
              Bound(SaveOutcome(now, h, record, uncertain, others).scene.records)
  {
    if Bound(now.records) && Bound(FoundAtGuard(now, h, others).records)
       && Bound(FoundAtStore(now, h, others).records) {
      SaveKeepsBound(now, h, record, uncertain, others);
    }
  }

  /** Records bound to their keys stay so through any save, if other tasks keep them so. */
  lemma SaveKeepsBound(now: Scene, h: Identity.Handle, record: Snapshot, uncertain: bool, others: Others)
    requires record.id == h.id && !record.destroyed
    requires Bound(now.records) && Bound(FoundAtGuard(now, h, others).records)
    requires Bound(FoundAtStore(now, h, others).records)
    ensures Bound(SaveOutcome(now, h, record, uncertain, others).scene.records)
  {
    var found := FoundAtStore(now, h, others);
    var attempt := Identity.PersistenceAttempt(now.family, h);
    if attempt.Ok? && Current(h, found.family, attempt.value).Ok? {
      StoresKeepBound(found.records, Current(h, found.family, attempt.value).value, h.id, record, {});
    }
  }
}
