# Offline-first task list: browser store, task API and sync

This project models the core of a small offline-first task app (a
progressive web app). The browser keeps every task in an IndexedDB
object store keyed by `clientId`:

- `l:<token>` is a task created offline that the server does not know yet.
- `s:<id>` is a mirror of server task `id`.

Rows carry `dirty` (an edit still to send) and `deleted` (a tombstone of
a server task). The Express server keeps an in-memory task list
(`TASKS`) with an id counter (`NEXT_ID`) and serves `/api/tasks` and
`/api/sync`. `syncPendingTasks` reconciles the two in three phases:

1. It posts every `l:` row that is not a tombstone and swaps it for the
   server's task.
2. It sends a `DELETE` for each `s:` tombstone and a `PUT` for each
   dirty `s:` row.
3. It pulls the server's list and writes every task clean under
   `s:<id>`.

Modules, one per file:

- `Tasks` (Tasks.dfy): the task record shared by both sides. `Patch` is a
  JSON body in which a key may be missing. `Merge` is `Object.assign`
  and `AsPatch` is `JSON.stringify` of a row.
- `Api` (Api.dfy): the requests the browser sends and the JSON answers
  of the server.
- `Server` (Server.dfy): class `TaskApi` with the fields `tasks` and
  `nextId`, one method per route handler. Spec functions (`FindTask`,
  `Without`, `BatchStep`/`Batched`) specify the handlers, and lemmas
  prove what they promise. The invariant `Valid` says ids are distinct
  and below the counter.
- `LocalStore` (LocalStore.dfy): the store as a map from key to row. A
  function states each helper's effect, and class `TaskDb` performs
  each helper in place, proved against that function. `Keyed` (every row
  lies under its own `clientId`) and `Tagged` (a row has an id exactly
  when its key is `s:<id>`) are the invariants.
- `Remote` (Remote.dfy): class `Network` delivers a request to a
  `TaskApi` or fails, as a schedule dictates. Each `fetch` either throws
  or resolves with the handler's answer.
- `Sync` (Sync.dfy): each phase is specified by a function of the store
  it starts from, the listing it walks and the outcomes of its requests.
  The methods `CreatePhase`, `ChangePhase` and `PullPhase` are proved to
  follow them. `SyncPendingTasks` is proved to end in `SyncOf`, the
  whole sync, for a run `Fits` to it, and lemmas prove what a sync
  guarantees.

In these points the model follows what the code does:

- A request that throws in phase 1 or 2 is re-thrown and ends the whole
  sync (public/app.js:286, 299, 303). It does not skip to the next
  record, and phase 3 is not reached.
- Phase 2 treats any answer, whatever its status, as success
  (public/app.js:297-302).
- Phase 3 swallows its own errors (public/app.js:318). It never deletes
  a local `s:` row that the server no longer lists, and it stores a
  pulled task's `deleted` flag as it comes, so a clean tombstone can
  appear.
- No guard keeps two syncs from running at once.

## Model

| member | source | states |
|---|---|---|
| Tasks.Merge | server.js:75 | `Object.assign` keeps the task's id unless the body carries an `id` key, and then takes the body's. |
| Tasks.MergeWholeRow | server.js:75 | Merging the JSON of a whole row that has a key and an id turns any task into exactly that row. |
| Tasks.AsPatch | public/app.js:283 | The JSON body sent for a row carries every key of the row, the key and id exactly as the row has them. |
| Server.Seed | server.js:27-31 | The server starts with tasks 1 and 2, with distinct ids below the counter 3. |
| Server.Fresh | server.js:67 | A created task gets the given id, title and time. Its description is the body's or `''`, `completed` is true only for a body `true`, and its location is the body's or null. Its photo is null unless the body's is truthy. It has no client fields. |
| Server.FindTask | server.js:73 | Gives the index of the first task with the id, and none exactly when no task has it. |
| Server.Without | server.js:81 | The filtered list is no longer than the list. |
| Server.WithoutMembers | server.js:81 | The filter keeps exactly the tasks whose id differs from the one deleted. |
| Server.WithoutConcat | server.js:81 | The filter distributes over concatenation, so the order of the survivors is kept. |
| Server.WithoutShrinks | server.js:80-82 | The list gets shorter exactly when some task has the id, and is unchanged otherwise. |
| Server.WithoutIdempotent | server.js:81 | Filtering twice by the same id equals filtering once. |
| Server.WithoutKeepsFresh | server.js:81 | Deleting keeps ids distinct and below the counter. |
| Server.StepFacts | server.js:89-98 | A task with a truthy `_localId` and a falsy `id` is appended with the counter as id and its title or `Sin título`, and it gets a mapping entry. A task with an id keeps the count and every id. A task that matches nothing changes nothing. Positions stay in range. |
| Server.BatchStep | server.js:89-98 | One turn of the sync loop: a task with a truthy `_localId` and a falsy `id` is created with the counter as id and its title or `Sin título`, appended, listed as created and mapped. A task with a truthy `id` is merged into the first task with that id and listed as updated, if there is one. Any other task is ignored. |
| Server.Batched | server.js:86-99 | The incoming tasks are absorbed one after the other, in the order they arrive. |
| Server.BatchedFacts | server.js:86-100 | After a whole batch there is one new task and one mapping entry per task to create. They are numbered from the old counter on, in order, and appended after the old tasks. The old ids are kept. |
| Server.StepKeepsFresh | server.js:89-98 | One turn of the sync loop keeps ids distinct and below the counter. |
| Server.BatchedKeepsFresh | server.js:89-99 | `POST /api/sync` keeps ids distinct and below the counter. |
| Server.TaskApi.constructor | server.js:27-31 | The server starts with the two seed tasks and `NEXT_ID` 3, satisfying the id invariant. |
| Server.TaskApi.List | server.js:62 | `GET /api/tasks` answers the current list. |
| Server.TaskApi.Create | server.js:64-70 | A missing or empty title answers 400 `title required` and changes nothing. Otherwise exactly one fresh task is appended with the old counter as id, the counter grows by one, the answer is that task, and the id invariant holds. |
| Server.TaskApi.Update | server.js:72-77 | An unknown id answers 404 `not found` and changes nothing. Otherwise only the first task with the id is replaced by the merge, the answer is that task, and the id invariant holds when the body keeps the id. |
| Server.TaskApi.Delete | server.js:79-83 | The list becomes the filtered list. `deleted` is true exactly when a task had the id. The id invariant holds. |
| Server.TaskApi.Absorb | server.js:89-98 | One turn of the sync loop updates the list, counter and answer lists as the batch step says. |
| Server.TaskApi.SyncBatch | server.js:86-101 | The list and counter end as the batch function says. The answer lists the created and updated tasks as they are when it is sent, plus the mapping. The id invariant holds. |
| Server.DeleteTwice | server.js:79-83 | A second delete of the same id leaves the list as the first left it and answers `deleted: false`. |
| LocalStore.OneRowPerServerId | public/app.js:84 | In a tagged store, two rows with the same server id are the same row. |
| LocalStore.Put | public/app.js:32 | A put stores the row under its own key and changes no other key. |
| LocalStore.PutKeepsShape | public/app.js:32 | A put keeps the store keyed, and keeps it tagged when the new row is. |
| LocalStore.Remove | public/app.js:72 | A delete removes exactly that key and changes no other row. |
| LocalStore.Saved | public/app.js:26-31 | A saved row is dirty. A row without a key gets `l:<now>` as both `clientId` and `_localId`. A missing creation time becomes `now` and a present one is kept. No other field changes. |
| LocalStore.SaveLocal | public/app.js:22-34 | The store after `saveTaskLocal`: the saved row put under its key. |
| LocalStore.SaveLocalFreshKey | public/app.js:22-34 | Saving a task without a key adds a dirty row under `l:<now>` that carries its own local id. All other rows survive unless a row already held that key. |
| LocalStore.PutClean | public/app.js:37-44 | The row is stored clean under its key, with every other field as given, and no other row changes. |
| LocalStore.DeleteLocal | public/app.js:59-76 | An `s:` row becomes a dirty tombstone with every other field kept. An `l:` row is purged. A missing key changes nothing. No other row changes. |
| LocalStore.DeleteLocalKeepsShape | public/app.js:59-76 | Deleting keeps the store keyed and tagged. |
| LocalStore.Mirror | public/app.js:84-85 | The mirror of a server task lies under `s:<id>`, is clean, has no local id, and keeps every server field. |
| LocalStore.ReplaceWithServer | public/app.js:79-88 | The old key is gone, `s:<id>` holds the mirror, and no other row changes. |
| LocalStore.ReplaceKeepsShape | public/app.js:79-88 | The swap keeps the store keyed and tagged. |
| LocalStore.CheckboxEdit | public/app.js:145-150 | The edited row has the new `completed` and is dirty. When it was the stored row, nothing else in it changes. No other row changes. |
| LocalStore.CheckboxKeepsTombstone | public/app.js:145-150 | A tombstone stays a dirty tombstone through a checkbox edit. |
| LocalStore.NewestExists | public/app.js:53 | Any non-empty set of rows has a newest one. |
| LocalStore.TaskDb.constructor | public/app.js:5-19 | A new store is empty and keyed. |
| LocalStore.TaskDb.SaveTaskLocal | public/app.js:22-34 | The store and the answered row are as `Saved` says, and the store stays keyed. |
| LocalStore.TaskDb.PutTaskLocalNoDirty | public/app.js:37-44 | The store changes as `PutClean` says and stays keyed. |
| LocalStore.TaskDb.DeleteRow | public/app.js:298 | The store loses exactly that key and stays keyed. |
| LocalStore.TaskDb.DeleteTaskLocal | public/app.js:59-76 | The store changes as `DeleteLocal` says and stays keyed. |
| LocalStore.TaskDb.ReplaceLocalWithServer | public/app.js:79-88 | The store changes as `ReplaceWithServer` says and stays keyed. |
| LocalStore.TaskDb.CheckboxChanged | public/app.js:145-150 | The store changes as `CheckboxEdit` says and stays keyed. |
| LocalStore.TaskDb.GetAllTasksLocal | public/app.js:47-56 | The answer lists every row of the store exactly once, newest first. |
| Remote.Network.constructor | public/app.js:283 | A network starts with the given server, schedule and clock. |
| Remote.Network.Fetch | public/app.js:283-284 | A request lost on the way out throws and leaves the server alone. One whose answer is lost throws. A delivered one resolves. A list request changes nothing and resolves with the server's list. A create with a title resolves with a task. Requests that keep ids keep the server valid. |
| Sync.Pulled | public/app.js:314-315 | A pulled row lies under `s:<id>`, is clean, and keeps every other server field, `deleted` included. |
| Sync.CreateStep | public/app.js:282-286 | A post that throws ends the sync with the store as it was. An answer with a task swaps the `l:` row for the mirror of that task. Any other answer leaves the store as it was. |
| Sync.PushCreates | public/app.js:279-288 | Phase 1 over a listing: tombstones and `s:` rows are skipped, each posted row meets the next outcome in order, and after a throw nothing further happens. |
| Sync.ChangeRequest | public/app.js:295-301 | A tombstone is sent as a `DELETE` and a dirty row as a `PUT` of the whole row, both addressed to the id in its key. |
| Sync.ChangeStep | public/app.js:296-303 | A request that throws ends the sync with the store as it was. Any answer, whatever its status, purges a tombstone or stores a dirty row clean. |
| Sync.PushChanges | public/app.js:293-306 | Phase 2 over a listing: `l:` rows and `s:` rows that are clean and not tombstones are skipped, each sent row meets the next outcome in order, and after a throw nothing further happens. |
| Sync.Upsert | public/app.js:313-316 | The pulled tasks are written one after the other, each clean under `s:<id>`. |
| Sync.Pull | public/app.js:309-318 | A throw, or an answer without a task list, leaves the store as it was. A list is upserted. |
| Sync.SyncOf | public/app.js:274-321 | A throw in phase 1 or 2 ends the sync with the store as that phase left it. Otherwise phase 2 runs on the store phase 1 left, the pull follows, and the sync returns normally. |
| Sync.Fits | public/app.js:276-306 | Each push phase walks a newest-first listing of the whole store as the phase begins. A phase that throws stops at the record whose request threw, and one that does not walks every record. |
| Sync.PushCreatesKeepsShape | public/app.js:279-288 | Phase 1 keeps the store keyed and tagged. |
| Sync.CreatesThrowAborts | public/app.js:286 | Once a post has thrown, later records change nothing, whatever they are. |
| Sync.PushCreatesEffect | public/app.js:279-288 | Without a throw, phase 1 removes exactly the `l:` rows whose post answered a task. Other `l:` rows are unchanged. An `s:` row changes only when an answered task carries its id, and each such key holds a clean row under its own key. |
| Sync.ReplacedPosted | public/app.js:280-285 | Every key phase 1 replaces is the key of a row it posted. |
| Sync.PushCreatesLocal | public/app.js:280-285 | Without a throw, an `l:` row survives phase 1 exactly when it was not replaced, and unchanged. |
| Sync.PushCreatesServer | public/app.js:285 | Without a throw, phase 1 touches only the `s:` keys of answered tasks. |
| Sync.PushCreatesWrites | public/app.js:285 | Without a throw, each answered task is stored clean under its own `s:` key. |
| Sync.CreatesDrain | public/app.js:279-288 | When every post answers a task, phase 1 does not throw and leaves no non-tombstone `l:` row. |
| Sync.AllCreatedReplaces | public/app.js:279-288 | When every post answers a task, phase 1 does not throw and replaces every row it posts. |
| Sync.PushChangesKeepsShape | public/app.js:293-306 | Phase 2 keeps the store keyed and tagged. |
| Sync.ChangesThrowAborts | public/app.js:299-303 | Once a request of phase 2 has thrown, later records change nothing. |
| Sync.PushChangesEffect | public/app.js:293-306 | Without a throw, each tombstone sent is purged and each dirty row sent is stored clean. Every row not sent is unchanged, and no key is added. |
| Sync.PushChangesKeeps | public/app.js:293-306 | Phase 2 leaves every row it does not send as it was and adds no key. |
| Sync.PushChangesWrites | public/app.js:296-303 | Without a throw, each tombstone sent is purged and each dirty row sent is stored clean. |
| Sync.ChangesDrain | public/app.js:293-306 | Without a throw, phase 2 over the whole store leaves no dirty `s:` row or tombstone. |
| Sync.UpsertKeepsShape | public/app.js:313-316 | The pull keeps the store keyed and tagged. |
| Sync.PulledKeysCover | public/app.js:314 | Every pulled id is written under its `s:` key, and the pull writes only `s:` keys. |
| Sync.UpsertKeeps | public/app.js:313-316 | The pull removes no row. It leaves every row whose id the server did not send unchanged, `l:` rows included. |
| Sync.UpsertWrites | public/app.js:313-316 | Every key the pull writes holds a clean row under that key, and not a tombstone unless a pulled task is one. |
| Sync.UpsertMirrors | public/app.js:313-316 | With distinct ids, each pulled task ends stored exactly as pulled. |
| Sync.UpsertOverlays | public/app.js:313-316 | The pull overlays the pulled rows on the store. |
| Sync.UpsertIdempotent | public/app.js:313-316 | Pulling the same list twice equals pulling it once. |
| Sync.SyncKeepsShape | public/app.js:274-321 | A sync keeps the store keyed and tagged. |
| Sync.PullFindsNoPendingEdit | public/app.js:290-318 | When the sync returns normally, no `s:` row is dirty and no tombstone is left as the pull begins, so the pull overwrites only acknowledged rows. |
| Sync.SyncSettles | public/app.js:274-321 | When every post answers a task and the sync returns normally, no non-tombstone `l:` row and no dirty `s:` row is left. With no deleted task pulled, no tombstone is left either. |
| Sync.PhasesSettle | public/app.js:279-306 | Under the same premises, the pull begins with no row left to post or send. |
| Sync.ChangesSettle | public/app.js:293-306 | Phase 2 over a store with nothing to post leaves nothing to post or send when it does not throw. |
| Sync.PullSettles | public/app.js:309-318 | A pull into a store with nothing to post or send leaves nothing to post or send. It leaves no tombstone unless a pulled task is one. |
| Sync.SyncMirrors | public/app.js:309-318 | When the pull brings a list with distinct ids, the store ends with each of those tasks under `s:<id>`, clean, exactly as pulled. |
| Sync.NothingPending | public/app.js:279-306 | A store with nothing to post or send goes through phases 1 and 2 unchanged, without a request. |
| Sync.QuietSync | public/app.js:274-321 | A sync from a store with nothing to post or send only pulls. |
| Sync.SyncIdempotent | public/app.js:274-321 | A second sync right after a complete one, with the same tombstone-free pull, leaves the store as the first left it. |
| Sync.SendCreate | public/app.js:282-286 | Posting one row follows the phase 1 step. On a reliable network with a valid server, a titled row is answered with a task. |
| Sync.CreateTurn | public/app.js:280-287 | One turn of the phase 1 loop extends the phase 1 function by that record. It stops only at a post that threw. |
| Sync.CreatePhase | public/app.js:279-288 | The store ends as the phase 1 function says for the records walked, stopping at the first throw or walking all of them. On a reliable network with a valid server and titled rows, it does not throw and every post answers a task. |
| Sync.SendChange | public/app.js:296-303 | Sending one row follows the phase 2 step. On a reliable network with a valid server, a tagged row is answered. |
| Sync.ChangeTurn | public/app.js:294-305 | One turn of the phase 2 loop extends the phase 2 function by that record. It stops only at a request that threw. |
| Sync.ChangePhase | public/app.js:293-306 | The store ends as the phase 2 function says for the records walked, stopping at the first throw or walking all of them. On a reliable network with a valid server and a tagged store, it does not throw. |
| Sync.UpsertAll | public/app.js:313-316 | The store ends as the pulled list upserted in order. |
| Sync.PullPhase | public/app.js:309-318 | The store ends as the pull of the outcome says, and the server is unchanged. On a reliable network the outcome is the server's list. |
| Sync.SyncOnline | public/app.js:276-320 | The run made fits the store, and the store ends as the whole sync function says for that run. On a reliable network with a valid server and a tagged, titled store, it does not throw, every post answers a task, and the pull brings the server's list. |
| Sync.SyncAfterCreates | public/app.js:290-320 | Phases 2 and 3 after a phase 1 that did not throw end as the whole sync function says. |
| Sync.SyncPendingTasks | public/app.js:274-321 | Offline, it throws and changes nothing. Online, the store ends as the whole sync function says for a run that fits it. On a reliable network with a valid server and a tagged, titled store, it returns with no non-tombstone `l:` row, no dirty `s:` row, and every server task mirrored exactly. |

## Left out

- IndexedDB is modelled as one map updated atomically per helper. Transactions, `openDB`, asynchronous callbacks and storage errors are not modelled, and neither are promises resolving before the write commits.
- Interleaving is not modelled. UI edits that race with a running sync, and two syncs at once, are left out because the model runs one call at a time.
- The DOM, `renderTasks`, the status line and the create form are UI only, so they are left out. Their only bearing on the store, that the form refuses an empty title, appears as the `Titled` premise.
- Push notifications are left out as outside the task data: the VAPID keys, subscriptions, `urlBase64ToUint8Array`, the push handlers of public/sw.js and generate-vapid.js.
- The service worker's cache of `/api/` answers (public/sw.js:34-41) is not modelled. It answers a request from the network when it can and otherwise from the cache, so while the server is unreachable `GET /api/tasks` may resolve with the last cached list instead of throwing, and phase 3 then writes that stale list clean. `Remote.Network.Fetch` makes a lost request throw, so the model does not capture a pull of a stale list.
- The SSR routes and `escapeHtml` are left out because they only render.
- `setTimeout` and the `ts` field of `GET /api/tasks` are timing only.
- Clocks are parameters. `Date.now()` is a `now` argument, one per call (the two seed tasks share it), and the server's clock ticks once per request.
- Real-number coordinates are kept as a `real` pair that is never inspected.
- An absent `createdAt` is modelled as 0, and a null key as an absent one. Both are falsy in every test the code makes.
- A pulled task without a numeric id is not modelled. Server tasks always carry one.
- Ids are integers from the start. The `Number(...)` conversions of ids taken from a URL or a key are not modelled.
- LocalStore.TaskDb.GetAllTasksLocal: leaves the order of rows with equal `createdAt` open. The program orders such ties by key, since `getAll()` answers in ascending key order and the sort is stable (public/app.js:52-53); the model does not fix that order.
- Remote.Network.Fetch: states the server's answer only for the list request. The effect of the other requests is given by the `Server.TaskApi` handlers it calls.
- Sync.SyncPendingTasks: proves the settled store only for a reliable network, a valid server and a tagged, titled store. On other runs it states only that the store ends as the whole sync function says.
- LocalStore.SaveLocalFreshKey: two saves in the same millisecond collide on `l:<now>`. The lemma states that the second overwrites the first and does not exclude the case.
