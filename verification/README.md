# Verified model of saysion's session protocol

saysion keeps a session's identity, its data revision and its backend record
consistent while request-local clones save, rotate, delete and cancel
concurrently, and while several independently loaded copies of one session act on
the same store. This project models that protocol and the stores under it, and
proves what they promise for every run.

`dafny verify dfyconfig.toml` checks everything (Dafny 4.11).

## What is modelled

* **Identity** (`Identity.dfy`). The fields all clones share (persisted identity,
  creation claim, destruction) and those each clone owns (identifier, rotation
  source, freshness), with the functions the session operations compute, and the
  machine of one clone family: clone, regenerate, attempt, mark, destroy.
* **The protocol** (`Family.dfy`, `Protocol.dfy`, `Backend.dfy`). One family has a
  lifecycle lock with an uncertain bit, saves and deletions; any number of families
  share one backend. Every `await` is a step boundary at which others act or the
  future is dropped. A save is a future and its latest backend call: the call may
  execute after the future is gone, once. Destruction can be requested between any
  two steps. The backend remembers what it ever inserted and which identifier
  replaced which; `clear_store`, cleanup and expiry are the loss of any records.
  `FamilyInvariant`, `Relation`, `Roots` and `Invariant` hold the invariant of every
  reachable state, `Guarantees` the theorems, `Limits` and `Deserialized` the cases
  in which deletion does not reach a record, and exactly when. `Progress` shows, from
  any reachable state, that an admitted save can complete and a deletion can return.
* **Save acknowledgement** (`SaveTracking.dfy`). The classes for the shared data and
  the save tokens, and the machine of any number of overlapping saves.
* **Objects** (`Lifecycle.dfy`, `Session.dfy`, `SessionSave.dfy`). Lock, guards,
  session and public save token as classes. Their contracts name the functions of
  `Identity` and `Family` the protocol is built from, so the objects perform its steps.
* **Stores** (`ExpiryIndex.dfy`, `MemoryStore.dfy`, `RemoteStores.dfy`,
  `Expiries.dfy`, `RedisGlob.dfy`, `SqliteName.dfy`). The in-memory store with its
  expiry index and batched cleanup, the statements of the SQL, Redis and MongoDB
  stores with a lost request or answer at every statement, the coarse expiries they
  store, Redis prefix patterns and the SQLite name scanner. `Refinement.dfy` relates
  the records of these stores to the backend of the protocol.
* **Requests** (`Journeys.dfy`). What a request gets when nothing interferes, from
  creation over edits, rotation and logout to a clone left behind, stated on records
  and fields alone.

## Assumptions

* Identifiers of new and regenerated sessions come from a globally fresh supply; a
  cookie and its identifier are the same thing (the hash is injective).
* A trusted load finds an identifier that was inserted at some time. A deserialized
  session may carry any identifier.
* The clock is monotone where two readings of it are compared, and `revision` does
  not wrap.
* A dispatched backend statement executes at most once, each one atomically.
* Stores follow the guarded protocol. An atomic operation, or a region under a
  synchronous lock, is one step.
* Each expiry comparison uses whole nanoseconds; the SQL timestamp of an instant is
  rounded down, before the epoch too.

A family in the model may mix saves whose backend call can outlive the future with
saves whose cannot, and a dropped call may still execute for any backend. Both only
add behaviours.

## Where the code stops short

* Deleting through a session that was only deserialized and then regenerated removes
  the new identifier, which was never stored: the record it came from stays, although
  the documentation says that deleting after an unsaved regeneration targets the
  source (docs/session-lifecycle.md:41). `Limits.DeserializedDeletionLeavesRecord` is
  such a run and `Deserialized.DeletionRemovesExactlyItsTarget` the exact condition.
* Deleting through a superseded clone removes only the clone's own old identifier, as
  documented (src/session.rs:384-386): `Limits.SupersededDeletionLeavesRecord`, with
  the exact condition in `Guarantees.DeletionLeavesExactly`.
* A rotation whose source was replaced while it waited for the lock is refused after
  it obtained the guard. Dropping that guard makes the whole family uncertain, though
  nothing was dispatched (src/session.rs:344-356): the last clause of
  `Sessions.Session.BeginGuardedWrite` is the condition, and
  `Limits.LostRaceForbidsDeletion` a run that reaches it.
* A collision in MongoDB's second statement loses the source as well:
  `revoked` in the contract of `RemoteStores.Table.MongoStore` is the exact condition.
* The explicit reset of change tracking declares unsaved data clean, so it is excluded
  from `SaveTracking.NeverFalselyClean`: `SaveTracking.OverrideDeclaresUnsavedClean`.

## Model

| member | source | states |
|---|---|---|
| Guarantees.DeletionIsFinal | src/session.rs:411-420 | Over every run: once a deletion returned through a handle not superseded when it took the guard, no identifier the family holds or ever will hold is stored, whatever was in flight, cancelled or left uncompensated; through a superseded handle only another clone's persisted identity can be. |
| Guarantees.DeletionLeavesExactly | src/session_lifecycle.rs:43-52 | After a returned deletion a record of the family remains if and only if its persisted identity is still stored, which takes a superseded handle; if none remains, none ever comes back. |
| Deserialized.DeletionRemovesExactlyItsTarget | src/session.rs:391-399 | For a merely deserialized family, a record remains after the delete executes if and only if its original record is stored and the handle no longer carries that identifier; a seed stored once and gone never comes back. |
| Deserialized.OnlySeedIsStored | docs/session-lifecycle.md:3-6 | A deserialized family never has a stored record other than the one it came from, in any run. |
| Limits.DeserializedDeletionLeavesRecord | src/session.rs:762-773 | A run in which a deserialized, regenerated session is deleted successfully and its record stays. |
| Limits.SupersededDeletionLeavesRecord | src/session.rs:384-390 | A run in which a superseded clone is deleted successfully and the rotated record stays. |
| Limits.LostRaceForbidsDeletion | src/session.rs:344-356 | A run in which two clones rotate one source, the loser is refused before sending anything, and a deletion through the winner is then refused while its record is stored. |
| Guarantees.NoResurrection | src/sqlx_store.rs:186-233 | An identifier that was inserted and removed is never stored again, across all families, saves, rotations, deletions, clears and cleanups. |
| Guarantees.EntersAtMostOnce | src/memory_store.rs:122-159 | The log of insertions has no repetition, and only logged identifiers are present. |
| Guarantees.OneLiveRecordPerChain | docs/session-lifecycle.md:8-24 | At most one identifier per rotation root is stored; two identifiers never replaced the same one; a replaced one is gone and shares the root. |
| Guarantees.LiveIdentifiers | src/session_lifecycle.rs:98-124 | For created and loaded families, a stored identifier is the persisted identity, the target of the held write guard, or, only if the family is uncertain, the target of a dropped unsettled creation or rotation. Merely deserialized families are excluded: their seed may be stored with nothing persisted, and by `Deserialized.OnlySeedIsStored` nothing else. |
| Guarantees.GuardsAreFenced | src/session_lifecycle.rs:20-52 | Write and delete guards exclude each other, and while one is held the family is certain and no earlier creation or rotation that could outlive its future is unsettled. |
| Guarantees.UncertaintyIsForever | src/session_lifecycle.rs:118-124 | Once uncertain, a family stays so and no guard of it is ever granted again. |
| Guarantees.OneFirstSave | src/session.rs:306-322 | A family starts at most one save without origin over any run, and only a fresh family does. |
| Guarantees.CompletionPublishesTarget | src/session.rs:298-304 | A guarded save that finishes undestroyed leaves its own identifier as the persisted identity, in every reachable state. |
| Guarantees.SupersessionIsPermanent | src/session.rs:284-296 | A superseded handle stays superseded through every later step of the whole system. |
| Guarantees.ReturnedKeepsPersisted | src/session.rs:298-304 | After a returned deletion the family's identity never changes again, late completions included. |
| Invariant.RunKeeps | src/session_lifecycle.rs:20-124 | The invariant over all families and the backend holds in every state of every execution. |
| FamilyInvariant.StepKeeps | src/session_save.rs:128-179 | Every step of a family keeps its invariant, whatever the backend answers. |
| Identity.EqualIdsHaveEqualSources | src/session.rs:762-773 | Two clones, at any two moments, with the same identifier have the same rotation source. |
| Identity.IdentityNeverRollsBack | src/session.rs:298-304 | The persisted identities form a list that only grows, without repetition, each written by a handle whose source is the one before; the published identity is the last. |
| Identity.SupersededForever | src/session.rs:284-304 | A superseded clone is refused forever, through any regeneration, clone, save or late completion, and deletes only its own identifier. |
| Identity.CreationAuthorityIsLinear | src/session.rs:306-322 | A family is authorised at most once to insert without origin, a loaded or deserialized one never; after an authorised but unconfirmed insert every attempt is refused. |
| Identity.AdmissionIsExact | src/session.rs:284-322 | In every run an undestroyed family admits exactly the clones that carry the identity published last or were regenerated from it, with that identity as source, or, while nothing is published, every clone of a fresh family until one insertion is authorised. |
| Identity.DeletionTargetIsExact | src/session.rs:391-399 | In every run a deletion through such a clone removes the identity published last, and through any other clone its own identifier. |
| Identity.RegenerationKeepsStanding | src/session.rs:762-773 | Regenerating such a clone keeps it so, with the identity published last as source and deletion target, however often; no other clone gains that. |
| Progress.AdmittedCanComplete | src/memory_store.rs:122-159 | From any reachable state an admitted save of a certain family with a free lock, local or remote, whose write the backend can apply, can complete, with its identity published and its record in place of the source. |
| Progress.RotationCompletesInTwo | src/mongodb_store.rs:128-163 | A guarded rotation can complete in two statements. |
| Progress.CompensationReleases | src/mongodb_store.rs:154-159 | A write overtaken by destruction can remove its target and release the lock with the family still certain. |
| Progress.Deleted | src/session.rs:411-420 | From any reachable state a deletion of a certain family with a free lock can return, having removed its target. |
| Identity.MarkExtendsOrKeeps | src/session.rs:298-304 | Marking publishes a handle exactly when nothing is persisted or it descends from the persisted identity, and the published identity is new. |
| SaveTracking.NeverFalselyClean | src/session.rs:929-935 | Over every order of edits, captures, commits, acknowledgements and drops, data reported unchanged equals the last committed snapshot, or the initial values if none. |
| SaveTracking.OverrideDeclaresUnsavedClean | src/session.rs:973-979 | An edit followed by the explicit reset is reported clean although it was never saved. |
| SaveTracking.ActiveCountsTokens | src/session.rs:57-95 | The active count is the number of live tokens in every run, so it never underflows. |
| SaveTracking.StandaloneSaveRecovers | docs/custom-stores.md:41-49 | From any reachable state without live tokens, one capture, commit and acknowledgement is possible and leaves the family clean with exactly the current values committed. |
| SaveTracking.OverlapStaysDirty | src/session_save.rs:205-208 | While more than one token is live, the family is dirty, in every run. |
| SaveTracking.AbandonedStaysDirty | docs/custom-stores.md:41-46 | In every run an abandoned save leaves the family dirty until a save that did not overlap is acknowledged or tracking is reset. |
| SaveTracking.ReleasedIsDirty | src/session.rs:87-95 | A save captured and not confirmed leaves the family dirty, whatever was edited meanwhile. |
| SaveTracking.EditsAreCounted | src/session.rs:636-642 | Any sequence of edits leaves save accounting alone, and the revision stands still only if nothing changed. |
| SaveTracking.SavedUnlessEdited | src/session_save.rs:203-205 | A standalone save confirmed after edits of other clones leaves the family clean exactly if none of them changed a value. |
| SaveTracking.SaveRevision.Capture | src/session.rs:57-71 | A capture counts itself and taints overlapping saves; the token holds a reference to the data. |
| SaveTracking.SaveRevision.Acknowledge | src/session.rs:73-84 | A confirmed save clears uncertainty only when it did not overlap, and gives its slot back once. |
| SaveTracking.SaveRevision.Drop | src/session.rs:87-95 | A dropped save leaves the family dirty and gives its slot back; a completed one changes nothing. |
| SaveTracking.SessionData.Insert | src/session.rs:636-642 | The values gain exactly the entry, and the revision advances exactly when they change. |
| SaveTracking.SessionData.Remove | src/session.rs:701-706 | The values lose exactly the key, and the revision advances exactly when they change. |
| SaveTracking.SessionData.ResetChanged | src/session.rs:974-976 | The data part of the reset: the current revision is declared saved and uncertainty cleared; live tokens are untouched. |
| SaveTracking.SessionData.Rebase | src/session.rs:451-455 | A sole holder restarts tracking in place, with no token live and no slot taken. |
| Lifecycles.Write | src/session_lifecycle.rs:21-41 | A write guard is granted exactly to a family neither uncertain nor destroyed; uncertainty is reported first. |
| Lifecycles.LockForDelete | src/session_lifecycle.rs:43-52 | A delete guard is refused only for uncertainty, not for destruction. |
| Lifecycles.DeleteGuard.Drop | src/session_lifecycle.rs:132-151 | The lock is released and adds no uncertainty. |
| Lifecycles.WriteGuard.Finish | src/session_lifecycle.rs:98-107 | The write is settled in any case, and wins unless destruction was requested. |
| Lifecycles.WriteGuard.RequireCleanup | src/session_lifecycle.rs:109-111 | The write is unsettled again until its removal is confirmed. |
| Lifecycles.WriteGuard.ConfirmRemoved | src/session_lifecycle.rs:113-115 | The write is settled by its removal. |
| Lifecycles.WriteGuard.Drop | src/session_lifecycle.rs:118-124 | The lock is released, and the family becomes uncertain exactly if an outliving write is unsettled. |
| Sessions.Session.New | src/session.rs:483-500 | A new session has creation authority, its own family, a free and certain lock, and clean empty data; it starts as a new family of the protocol. |
| Sessions.Session.Deserialized | src/session.rs:232-243 | A session restored from a record shares nothing, has its values and expiry, and no persistence bookkeeping; it starts as a deserialized family of the protocol. |
| Sessions.Session.CloneOf | src/session.rs:186-202 | A clone has the same handle, shares data and family, and carries no outgoing cookie. |
| Sessions.Session.PersistenceOrigin | src/session.rs:284-296 | The check is the specification's, on the shared and the handle's fields. |
| Sessions.Session.PersistenceAttempt | src/session.rs:306-322 | An attempt checks destruction and origin and consumes the creation authority when there is no origin. |
| Sessions.Session.MarkPersisted | src/session.rs:298-304 | The persisted identity moves as `Identity.MarkPersisted` says and nothing else changes. |
| Sessions.Session.Regenerate | src/session.rs:762-773 | The handle takes the new identifier; its source moves to the persisted identity only for a handle that is current or descends from it. |
| Sessions.Session.PrepareDelete | src/session.rs:391-399 | The target is the persisted identity of a handle in good standing, else its own identifier; the family is destroyed. |
| Sessions.Session.SetExpiry | src/session.rs:831-836 | Metadata is marked changed exactly if the expiry differs. |
| Sessions.Session.BeginGuardedWrite | src/session.rs:338-357 | The guard is granted, refused or poisoned on a stale origin exactly as the protocol's acquire step does it. |
| Sessions.Session.BeginDelete | src/session.rs:411-420 | Destruction is marked first; the guard and the target it names, chosen under the lock, are those of the protocol's step. |
| Sessions.Session.PersistenceSnapshot | src/session.rs:246-251 | Snapshot and revision are taken together; the save becomes live. |
| Sessions.Session.AcknowledgeRevision | src/session.rs:279-282 | Only the captured revision is acknowledged; metadata is clean. |
| Sessions.Session.DataChanged | src/session.rs:929-935 | True exactly if metadata changed or the shared data is dirty. |
| Sessions.Session.ResetDataChanged | src/session.rs:973-978 | Data and metadata are declared saved. |
| Sessions.Session.ValidateLoaded | src/session.rs:433-466 | Misbound, expired and destroyed records are told apart; a valid one becomes clean, isolated and loaded, with a new family whose lock is free and certain, and starts as a loaded family of the protocol; its data is kept in place only when no save token is live. |
| SessionSaves.PrepareSave | src/session_save.rs:82-93 | A token exists exactly for an admitted save, captures the values before I/O and consumes the creation authority. |
| SessionSaves.SessionSave.BeginWrite | src/session_save.rs:128-140 | Only the first call can yield a guard, exactly when the family is certain, not destroyed and the origin current; the guard carries this token's receipt. |
| SessionSaves.SessionSave.CompleteWithGuard | src/session_save.rs:150-164 | It succeeds exactly with this token's guard and no destruction, and then publishes and acknowledges as the protocol's conclusion does; otherwise nothing is published, the slot is released, and its own creation or rotation stays uncertain. |
| SessionSaves.SessionSave.ConfirmRemoved | src/session_save.rs:173-179 | It succeeds exactly with this token's guard, then adds no uncertainty, and never acknowledges. |
| SessionSaves.SessionSave.ValidateCurrent | src/session_save.rs:187-195 | True exactly if the family is not destroyed and a captured origin is still the current one. |
| SessionSaves.SessionSave.Complete | src/session_save.rs:210-221 | A token that began a guarded write, or belongs to a destroyed family, publishes and acknowledges nothing here. |
| ExpiryIndex.Place | src/memory_store.rs:23-30 | Insertion adds exactly the entry and keeps the order. |
| ExpiryIndex.Displace | src/memory_store.rs:32-38 | Removal takes exactly the entry out and keeps the order. |
| MemoryStores.MemoryState.Insert | src/memory_store.rs:23-30 | The record is set, the previous one returned, and the index still holds exactly the records' expiries. |
| MemoryStores.MemoryState.Remove | src/memory_store.rs:32-38 | The record is gone, returned if it was there, and the index agrees. |
| MemoryStores.MemoryState.Clear | src/memory_store.rs:40-43 | Records and index are empty. |
| MemoryStores.MemoryState.ExpiredCandidates | src/memory_store.rs:45-63 | The result is the min(limit, expired) oldest expired identifiers in order, after looking at no more than min(limit, expired + 1) entries. |
| MemoryStores.AtomicStoreRefinesBackend | src/memory_store.rs:131-150 | The in-memory write is accepted exactly when the protocol's conditional effect is, and leaves the same identifiers. |
| MemoryStores.AtomicStoreIsExact | src/memory_store.rs:131-150 | A write applies exactly when its source, if any, is stored and its target is free or the source, and changes those two records alone. |
| MemoryStores.StoredIsLoaded | src/memory_store.rs:105-120 | After a save a load returns exactly the captured snapshot, or nothing once it expired; a rotated source is not found; no other record is disturbed. |
| MemoryStores.StoresKeepBound | src/memory_store.rs:145-152 | Removals, and writes of a record that carries its own identifier and no destruction mark, keep every record so. |
| MemoryStores.MemoryStore.LoadSession | src/memory_store.rs:105-120 | A load finds nothing exactly if there is no record or it has expired; what it returns is an isolated, clean, loaded session with the values and expiry of the record, ready to be saved or deleted. |
| MemoryStores.MemoryStore.StoreLocked | src/memory_store.rs:127-152 | Under the lock a write is refused unchanged, applied atomically, or undone when destruction won, with the exact records and family in each case. |
| MemoryStores.MemoryStore.StoreCaptured | src/memory_store.rs:122-159 | The exact result, records, identity and save accounting of an admitted save, for anything other tasks do before the guard, before the store lock and during the write, and any edits of other clones: it stores the identifier, expiry and values captured before, or leaves the family dirty. |
| MemoryStores.MemoryStore.StoreSession | src/memory_store.rs:122-159 | The same for the whole save, with destruction possible before the capture too; the outcome is `SaveOutcome`, which the lemmas below describe; on success the record under its identifier holds the old expiry and values, and a standalone save leaves the family clean exactly if no edit came in between. |
| MemoryStores.SaveIsAtomic | src/memory_store.rs:122-159 | A save succeeds exactly if admitted, granted, applicable to the records found under the store lock, and never met by destruction; those records then hold exactly the captured record, created, updated or rotated in. |
| MemoryStores.SavedIsLoaded | src/memory_store.rs:105-120 | Whatever other tasks did meanwhile, a load after a successful save returns what was captured before it. |
| MemoryStores.RefusedSaveLeavesNothing | src/memory_store.rs:131-152 | A refused save leaves everything as found, unless destruction came during its write: then target and source are absent, every other record is untouched, and no identity is published. |
| MemoryStores.SaveAlone | docs/session-lifecycle.md:31-40 | Undisturbed, a save succeeds exactly if admitted, applicable, certain and undestroyed, and publishes its identity; with destruction during the write exactly target and source are gone. |
| MemoryStores.SaveKeepsBound | src/memory_store.rs:122-159 | Records that carry their own identifier and no destruction mark stay so through any save among other tasks. |
| Sessions.Session.Publish | src/memory_store.rs:156-158 | Identity, acknowledgement and release of the lock at the end of a confirmed save, and nothing else. |
| MemoryStores.MemoryStore.DestroySession | src/memory_store.rs:161-166 | It removes exactly the delete target, or is refused for uncertainty with the records unchanged; destruction is marked in both cases. |
| MemoryStores.MemoryStore.ClearStore | src/memory_store.rs:168-172 | Nothing is left and the index agrees. |
| MemoryStores.MemoryStore.RemoveIfExpired | src/memory_store.rs:220-229 | A candidate goes exactly if its current expiry is before the cutoff. |
| MemoryStores.MemoryStore.RemoveExpiredCandidates | src/memory_store.rs:214-236 | For any effect of other tasks before each lock window: the windows chain from the records at the start to those at the end, cover all candidates in batches of at most 256, each removes exactly its candidates that are expired in what it found, invisibly to loads, and the count is exactly what they removed. |
| MemoryStores.MemoryStore.CleanupBatch | src/memory_store.rs:198-208 | The limit is checked; the candidates are the oldest expired at the start; the windows over them run as above among other tasks, and the result is the number removed, at most the limit; undisturbed, exactly the oldest expired records are gone. |
| MemoryStores.MemoryStore.RemoveWindow | src/memory_store.rs:216-231 | One window removes exactly its candidates that are still expired, and no load at the cutoff or later can tell. |
| MemoryStores.RunKeepsBound | src/memory_store.rs:214-236 | A cleanup among other tasks keeps records bound to their identifiers and free of the destruction mark. |
| MemoryStores.CleanupIsInvisible | src/memory_store.rs:105-120 | Removing records expired before the cutoff changes no load at that time or later. |
| MemoryStores.RoundsDrain | src/memory_store.rs:191-208 | After k undisturbed rounds exactly the expired records beyond k times the limit remain. |
| Journeys.SaveUndisturbed | src/memory_store.rs:122-159 | Alone, a save succeeds exactly if the family is undestroyed and certain and either nothing is persisted, the authority to create is unused and the identifier free, or the persisted record is stored and the session carries it or was regenerated from it to a free identifier; it then takes the source out, stores the session's fields and publishes its identifier, else nothing changes. |
| Journeys.CreateAndReload | src/memory_store.rs:103-159 | A new session saved with a value is loaded again with it. |
| Journeys.EditAndReload | src/memory_store.rs:103-159 | A loaded session that is edited and saved is loaded again with the edit; every other record is unchanged. |
| Journeys.RotateAndReload | docs/session-lifecycle.md:8-12 | A loaded session regenerated any number of times and saved is found under its last identifier with the same values and no longer under the old one. |
| Journeys.Logout | docs/session-lifecycle.md:31-41 | Deleting a loaded session, even after unsaved regenerations, removes exactly its record, and it can never be saved again. |
| Journeys.DiscardNew | src/session.rs:411-420 | Deleting a session that was never saved removes at most a record under its own identifier. |
| Journeys.LeaveCloneBehind | docs/session-lifecycle.md:9-12 | After one clone rotated the session, another can neither save nor delete the replacement, however often it is regenerated. |
| Journeys.ClaimOnce | docs/session-lifecycle.md:33-36 | Of two clones of a new session only the first save is admitted. |
| Journeys.CompleteToken | docs/custom-stores.md:15-40 | A loaded session saved through a token is published and clean, its lock free and certain. |
| Journeys.AbandonToken | docs/custom-stores.md:59-67 | After a token's guard is dropped, deletion is refused exactly if the write was a rotation, and the data is dirty. |
| Refinement.LockedWriteIsOneStep | src/memory_store.rs:127-150 | In a reachable family the locked write, with its re-read origin, is applied exactly when the protocol's local write is possible and accepted, and leaves the same identifiers. |
| Refinement.LockedWriteConcludes | src/memory_store.rs:149-158 | Concluding it publishes the identity and keeps the backend, or, if destruction came first, leaves exactly the undone records. |
| Refinement.TwoStatementsRotate | src/mongodb_store.rs:129-141 | Delete then insert passes through the records without the source and ends in the atomic rotation unless the target collides. |
| Refinement.ExpiredSaveRevokes | src/redis_store.rs:144-155 | An expired save leaves the records without the identifier it was persisted under. |
| RemoteStores.Table.SqlStore | src/sqlx_store.rs:178-233 | For a lost request or answer at any statement, exactly when the write happened, entirely or not at all, and exactly when it is reported. |
| RemoteStores.Table.RedisStore | src/redis_store.rs:132-208 | Exactly when the script or conditional set took effect and is reported; an expired save stores nothing and revokes its record unless its request was lost. |
| RemoteStores.Table.MongoStore | src/mongodb_store.rs:112-151 | Exactly when a write is whole, absent, or a rotation left with its source removed: when the target collides, the first answer or the second request is lost; source and target never coexist. |
| Expiries.DocumentExpiryIsCeiling | src/mongodb_store.rs:14-19 | The stored millisecond is the least one not before the instant, before the epoch too. |
| Expiries.TtlCoversRemainingTime | src/redis_store.rs:25-27 | The lifetime is at least one millisecond, covers the remaining time and exceeds a positive one by less than a millisecond; it overflows exactly beyond 64 bits. |
| Expiries.SecondsAreFloors | src/sqlx_store.rs:38-46 | Seconds are rounded down, before the epoch too. |
| Expiries.CoarseFilterIsExact | src/sqlx_store.rs:161-176 | The whole-second filter followed by exact validation answers what exact validation alone answers. |
| Expiries.CoarseCleanupIsSafe | src/sqlx_store.rs:135-149 | Cleanup takes exactly the rows that expired before the current whole second, so never a valid one. |
| RedisGlob.PrefixPattern | src/redis_store.rs:13-23 | The pattern built for a prefix matches exactly the keys that start with it. |
| RedisGlob.EscapedPrefixMatches | src/redis_store.rs:234-250 | For every prefix and key, escaping is exact under the glob semantics of star, question mark, class and backslash. |
| RedisGlob.EscapingIsNeeded | src/redis_store.rs:13-23 | Left unescaped, each metacharacter matches a key without the prefix or misses one with it. |
| SqliteName.IndexTarget | src/sqlx_store.rs:277-311 | The loop splits at the first dot outside quotes and trims both parts, or leaves the name untouched. |
| SqliteName.TrimIsExact | src/sqlx_store.rs:302-305 | Trimming takes white space off both ends and nothing else. |
| SqliteName.NameSplits | src/sqlx_store.rs:281-310 | For every name of bare characters and quoted identifiers in any order, the scan finds the dot that follows it, or none at its end. |
| SqliteName.QuotedSchemaSplits | src/sqlx_store.rs:283-306 | A quoted schema, with any dots and doubled delimiters inside, is split exactly after its closing delimiter. |
| SqliteName.QuotedTableIsWhole | src/sqlx_store.rs:283-310 | A lone quoted name is never split. |
| SqliteName.PlainNameSplits | src/sqlx_store.rs:295-306 | Without quotes the split is at the first dot, if there is one. |

## Left out

- Drivers, pools, SQL text, migrations, SCAN cursors and timeouts: external I/O; only the condition each statement relies on is modelled.
- Hashing, signing, random generation and serialization: library code; identifiers are taken from a fresh supply.
- Cookie stores: they keep no server-side state.
- Values inside the protocol machine: it tracks identifiers; which values a save stores among other tasks is proved of the in-memory store and of save tracking.
- Memory orderings, lock poisoning, panics and fairness of the lifecycle lock.
- Interleaved bodies of the remote `store_session` methods as objects: their awaits are steps of the protocol; `RemoteStores` gives each backend part alone.
- The unguarded `complete` and `prepare_delete` as a deletion protocol: documented as uncoordinated; only their own effects are modelled.
- MySQL and SQLite copies of the SQL store: the same conditions in another dialect.
- Default cleanup limits, counters, tracing, typed access and debug formatting: thin.
- MemoryStores.MemoryStore.StoreSession: other clones edit the data and change the shared fields during it, but do not capture or confirm saves of their own; overlapping saves are the machine of `SaveTracking`. Between the end of the store lock and the report nothing happens.
- RemoteStores.Table.RedisStore: the refusal of a lifetime beyond 64 bits of milliseconds, before anything is sent, is stated in `Expiries.TtlCoversRemainingTime` only; the two clock readings are one.
- RedisGlob.EscapedPrefixMatches: matches characters, not bytes.
- SqliteName.IndexTarget: positions count characters, not bytes; the hashed index name is a parameter.
- SaveTracking.NeverFalselyClean: a backend write that executes after its token was dropped is outside it, as the documentation says (docs/custom-stores.md:46-49).
- Redis `clear_store`: its deletion in batches is a loss of arbitrary records in the protocol.
