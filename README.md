# Task store of task-mgmt-backend, in Dafny

The service keeps one ordered, process-wide collection of tasks (a name chosen
by the client and an id generated by the server) and serves it over two HTTP
routes: `/tasks` (list, create) and `/tasks/{id}` (get, update the name,
delete). This project models that collection and the handler logic that reads
and changes it, and proves what each operation does to it.

- `wrappers.dfy` — `Option`, the outcome of decoding a request body.
- `tasks.dfy` (module `Tasks`) — the `Task` record, the store invariant
  (non-empty, pairwise distinct ids) and the pure functions that specify the
  operations: `FirstIndex`/`Lookup` (first match, or the zero task and index 0
  on a miss), `RenameAt` (overwrite one slot's name) and `Without` (the
  order-preserving filter), with lemmas about them.
- `store.dfy` (module `Store`) — class `TaskStore` holding the collection as a
  `seq<Task>` field, with one method per store operation; `GetTaskById` and
  `Delete` are loops proved against `Lookup` and `Without`.
- `handlers.dfy` (module `Handlers`) — the two handlers as methods from a verb,
  the path id and the decoded body to a status code and an abstract body, and
  two client sessions: the documented create/list/rename/delete/list sequence,
  and the index-0 aliasing of a PUT on an unknown id.

The lookup's miss behaviour is kept as written: it returns the zero task and
index 0, so a GET on an unknown id replies 200 with an empty task, a PUT on
an unknown id renames the first task of a non-empty collection, and a PUT on
an empty collection indexes out of range. That last case is a Go panic: the
HTTP server recovers it and sends no reply, shown as `Aborted`. In PUT the
lookup runs before the body is decoded, so a body that fails to decode gives
500 even on an empty collection.

## Model

| member | source | states |
|---|---|---|
| `Tasks.FirstIndex` | main.go:136-140 | the result is at most the length; if it is below the length, that task has the id; no earlier task has it |
| `Tasks.Lookup` | main.go:135-143 | when some task has the id, the result is the task at the lowest such index, with that index; otherwise it is the zero task (empty name and id) with index 0 |
| `Tasks.MissAliasesSlotZero` | main.go:105-116 | on a miss in a non-empty collection the index used by the update is 0, slot 0 holds a different id, and renaming there rewrites the first task's name and keeps its id |
| `Tasks.RenameAt` | main.go:116 | same length; the slot gets the new name and keeps its id; every other slot is unchanged |
| `Tasks.Without` | main.go:128-130 | no longer than the input and no remaining task carries the deleted id |
| `Tasks.WithoutKeeps` | main.go:128-130 | a task remains exactly when it was in the collection and its id differs from the deleted one |
| `Tasks.WithoutAppend` | main.go:128-130 | deleting from a concatenation is concatenating the two deletions, so the kept tasks stay in their original relative order |
| `Tasks.WithoutAbsent` | main.go:128-130 | deleting an id no task has leaves the collection unchanged |
| `Tasks.WithoutIdempotent` | main.go:128-130 | deleting the same id twice equals deleting it once |
| `Tasks.WithoutRemovesOne` | main.go:128-130 | with distinct ids, deleting a present id removes exactly the task found by the lookup and keeps every other task in place |
| `Tasks.AppendWellFormed` | main.go:53-58 | appending a task with a fresh non-empty id keeps ids non-empty and pairwise distinct |
| `Tasks.RenameWellFormed` | main.go:116 | renaming a slot keeps ids non-empty and pairwise distinct |
| `Tasks.WithoutWellFormed` | main.go:128-130 | deleting keeps ids non-empty and pairwise distinct |
| `Store.TaskStore.constructor` | main.go:18 | the collection starts empty, and so satisfies the invariant |
| `Store.TaskStore.List` | main.go:62 | returns the whole collection, unchanged |
| `Store.TaskStore.GetTaskById` | main.go:135-143 | the scan returns what `Lookup` specifies: the first task with the id and its index, or the zero task and 0 on a miss |
| `Store.TaskStore.Create` | main.go:44-58 | a body that fails to decode leaves the collection as it was; otherwise exactly one task, with the decoded name and the generated id (replacing any id in the body), is appended at the end and returned; the invariant is kept |
| `Store.TaskStore.Update` | main.go:105-116 | a body that fails to decode changes nothing; on an empty collection the write is out of range and nothing changes; otherwise only the name at the looked-up index (index 0 on a miss) is replaced, and the new slot is returned; the invariant is kept |
| `Store.TaskStore.Delete` | main.go:128-130 | the new collection is the old one filtered of the id, as `Without` specifies; the invariant is kept |
| `Handlers.HandleTasks` | main.go:31-78 | OPTIONS: 200 with no body; GET: 200 with the whole collection; POST: 500 "Sorry! An error occurred" on a decode failure, else 200 with the created task, appended at the end; any other verb: 404 "Not Found!"; only a successful POST changes the collection |
| `Handlers.HandleTaskById` | main.go:80-133 | OPTIONS: 200 with no body; GET: 200 with the lookup's task (the zero task on a miss); PUT: 500 on a decode failure, no reply on an empty collection, else 200 with the renamed slot; DELETE: 204 with no body after filtering; any other verb: 200 with no body; only PUT and DELETE change the collection |
| `Handlers.Session` | main.go:42-131 | on a fresh store, POST "A", GET, PUT "B" by the id, DELETE, GET reply 200 with the task, 200 with the one-element list, 200 with the renamed task, 204, and 200 with the empty list; the store ends empty |
| `Handlers.MissedPut` | main.go:105-142 | with one task stored, a PUT under another id renames that task and replies with it; the same PUT on an empty store gets no reply |

## Left out

- Routing and server setup (`mux.NewRouter`, route registration, the CORS method middleware, `ListenAndServe` on port 8080): library plumbing. The router also answers methods not registered for a route before the handlers run; the handlers are modelled for every verb as written.
- Response headers (`Access-Control-Allow-Origin`, `Content-Type`) and the bytes written: only the status code and an abstract body are kept.
- JSON decoding: the decoded body is a parameter, `None` for a body that does not decode. A decoded body's own `id` is carried and then overwritten, as in the source.
- JSON encoding: marshalling a `Task` or a list of tasks (string fields only) does not fail, so the 500 branches after `json.Marshal` are not modelled.
- UUID generation: the new id is a parameter; that it is non-empty and not already in the collection is a precondition of `Create` and of POST in `HandleTasks`, standing for the uniqueness of `uuid.New()`.
- The unsynchronised access to the global collection from concurrent handlers: the model is sequential.
- Logging (`log.Println`).
- A panic in a handler is shown as `Aborted`; the recovery and connection handling of the HTTP server are not modelled.
- `slices.DeleteFunc` compacts in place inside the slice's backing array and zeroes the tail; the model builds the kept tasks into a new sequence, so aliasing of the backing array is not modelled.
