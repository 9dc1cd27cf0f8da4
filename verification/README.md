# Three-bin lifecycle engine of the task tracker, in Dafny

The tracker's server keeps each record in one of three MongoDB collections:
active tasks (`Task`), the history (`Backlog`) and recently deleted items
(`Trash`). Its route handlers move records between them. Each move copies the
record, drops `_id` and the source bin's own fields, stamps the destination's
timestamp (and `origen` for the trash), saves the copy and deletes the source.

This project models that engine as pure functions over three finite maps
`Id -> record`:

- `common.dfy` (`Common`): `Option`, `Id` (an opaque string token) and `Time` (an integer clock).
- `task.dfy` (`TaskSchema`): the task shape `TaskData`, a `Draft` with every field optional,
  and `Build`. `Build` is `new Task(doc).save()`: apply defaults, then run the
  validators (`required` strings must be present and non-empty; `estado` must be in
  `{pending, done}`).
- `backlog.dfy` (`BacklogSchema`), `trash.dfy` (`TrashSchema`): the same shape plus
  `fechaEliminacion`, and plus `fechaBorrado` and a free-string `origen`.
- `server.dfy` (`Server`): the store, the responses with their HTTP status, one function per
  mutating route, and one method per listing route.
- `listing.dfy` (`Listing`): listing a map in store order or sorted by a key, newest first.
  The result is stated as a permutation of the store's entries.
- `lifecycle.dfy` (`Lifecycle`): the routing table as one `Step` function, invariants every
  step keeps, the record count, and compositions of moves.
- `scenarios.dfy` (`Scenarios`): two concrete walks.

Inputs that come from outside are parameters:

- the clock (`now`);
- the identity the database assigns on insertion (`newId`, required to be used by no bin);
- the request body (`Draft`);
- the id taken from the URL.

Every move is atomic. It either saves the copy and deletes the source, or it
changes nothing.

Two behaviours of the code a reader might not expect, which the model follows:

- Restore keeps the record's original `fecha`. Only `_id`, `fechaBorrado` and `origen` are removed
  before the task is rebuilt, and the schema's `fecha` default applies only to a missing field.
  A reader might expect restore to restamp `fecha`; it does not. `Scenarios.CreateTrashRestore`
  shows that `fecha` is still the creation time.
- `origen` is any string with default `tasks`. It is not an enum.
- `GET /api/tasks` returns tasks in store order, unsorted.
- PATCH runs no validators, so `estado` can become any string. A later archive or trash of that
  task then fails validation in `save()`. The handler's catch answers 500 and, because `save()`
  throws before the delete, no store changes. `Lifecycle.ServerErrorOnlyFromBadEstado` states
  that this is the only way a move fails.

## Model

| member | source | states |
|---|---|---|
| TaskSchema.Build | back/models/task.js:5-27 | a document saves iff `titulo` and `tecnologia` are present and non-empty and `estado` is absent or in the enum; the saved record keeps the given fields, `estado` defaults to `pending`, `fecha` to `now`, and it is valid |
| TaskSchema.BuildToDraft | back/server.js:95-100 | rebuilding a stored record from its plain object gives back the same record, for any clock, exactly when it is valid |
| TaskSchema.BuildDefaults | back/models/task.js:18-26 | a body with required fields and no `estado` or `fecha` saves as `pending` at the creation time |
| BacklogSchema.Build | back/models/backlog.js:3-29 | a history document saves on exactly the task schema's conditions, with the task fields the task schema builds and `fechaEliminacion` defaulting to `now` |
| TrashSchema.Build | back/models/trash.js:3-33 | a trash document saves on the task schema's conditions; `fechaBorrado` defaults to `now`, `origen` defaults to `tasks` and otherwise keeps the given value |
| TrashSchema.OrigenUnconstrained | back/models/trash.js:29-32 | any `origen` string is accepted and stored unchanged |
| Server.Create | back/server.js:130-139 | 201 iff the body passes task validation, and then exactly one task is added under the new id with the body's fields and defaults, other stores unchanged; otherwise 400 and nothing changes |
| Server.Patch | back/server.js:142-158 | an absent id gives 404 and no change; otherwise only the target's `estado` changes, to the given string, and the updated task is returned |
| Server.Archive | back/server.js:162-188 | an absent id gives 404 and no change; a valid task leaves the tasks and goes into the backlog under the new id with the same content and `fechaEliminacion = now`; an invalid one gives 500 and no change |
| Server.TrashTask | back/server.js:111-127 | an absent id gives 404; a valid task leaves the tasks and goes into the trash with the same content, `fechaBorrado = now` and `origen = tasks`; an invalid one gives 500 and no change |
| Server.TrashBacklog | back/server.js:41-69 | an absent id gives 404; a history record leaves the backlog, loses `fechaEliminacion`, and goes into the trash with the same content, `fechaBorrado = now` and `origen = backlog` |
| Server.Restore | back/server.js:90-108 | an absent id gives 404; a trash record leaves the trash and becomes a task under the new id with the same content including the original `fecha`, without `fechaBorrado`/`origen` |
| Server.Purge | back/server.js:81-88 | the id is gone from the trash, every other trash record stays, tasks and backlog are untouched, an absent id changes nothing, and the answer is always the 200 confirmation |
| Server.ListTasks | back/server.js:21-28 | the reply lists every active task exactly once |
| Server.ListBacklog | back/server.js:31-38 | the reply is a permutation of the backlog sorted by `fechaEliminacion`, newest first |
| Server.ListTrash | back/server.js:72-79 | the reply is a permutation of the trash sorted by `fechaBorrado`, newest first |
| Listing.ListsMeans | back/server.js:31-38 | a listing shows each stored record under its own id, lists no id twice and lists every stored id |
| Lifecycle.StepPreservesWellFormed | back/server.js:41-188 | every route keeps ids disjoint across bins, required fields on every task, and backlog and trash records valid |
| Lifecycle.StepPreservesAllValid | back/server.js:41-188 | from a store whose records all satisfy the `estado` enum, every step except a PATCH to an out-of-enum value keeps them all inside it |
| Lifecycle.BadPatchBreaksEnum | back/server.js:142-158 | a PATCH of an existing task to an out-of-enum `estado` is accepted and leaves that task outside the enum |
| Lifecycle.ServerErrorOnlyFromBadEstado | back/server.js:162-188 | in a well-formed store a route answers 500 iff it archives or trashes an existing task whose `estado` is outside the enum, and then nothing changes |
| Lifecycle.StepTotal | back/server.js:41-188 | moves and patches keep the record count; a successful create adds one; purging a present id removes one |
| Lifecycle.PurgeIdempotent | back/server.js:81-88 | purging the same id twice leaves the same stores and answer as purging once |
| Lifecycle.PatchUndo | back/server.js:142-158 | patching `estado` and then patching it back restores the whole store |
| Lifecycle.TrashThenRestore | back/server.js:90-127 | trashing a valid task and restoring it yields the original stores with that task under a new id, `fecha` included |
| Lifecycle.ArchiveThenTrash | back/server.js:41-69 | archiving and then trashing the history record equals trashing the task directly, except `origen = backlog` |
| Lifecycle.RestoreArchiveTrash | back/server.js:41-108 | restore, archive, trash-from-history turns a trash record into one with the same content and `origen = backlog`, with tasks and backlog unchanged |
| Scenarios.CreateTrashRestore | back/server.js:90-139 | create without `estado` gives 201 and `pending`; trash leaves one trash record from `tasks`; restore empties the trash and keeps title, technology and creation `fecha` |
| Scenarios.BacklogNewestFirst | back/server.js:31-38 | three tasks archived through DELETE /api/tasks/:id at 1, 2 and 3 empty the tasks and are listed by GET /api/backlog as 3, 2, 1 |

## Left out

- Express, cors and dotenv setup, the MongoDB connection and `app.listen` (back/server.js:1-16, 190-195): I/O plumbing.
- Store failures: the 500 catch branches for connectivity or write errors. Also the window between `save()` and `findByIdAndDelete()`, where a crash leaves a duplicate. Every move is modelled as atomic.
- Concurrency between requests: the code does not coordinate overlapping requests, for example two archives of one id that both duplicate the record.
- Real `Date` values and ObjectId generation: an integer clock and an abstract new-id parameter replace them.
- Malformed ids (a CastError from `findById` or `findByIdAndUpdate`): ids are abstract tokens, so every id is well-formed.
- A PATCH body without `estado`: whether an undefined update key is stripped or stored depends on the library version, and the version is not part of this model.
- Type casting of body values, `null` values, unknown body fields that strict mode drops, a client-supplied `_id`, and the `__v` version key: the model's `Draft` carries only the schema's fields, each present or absent.
- The order of records with equal sort keys: only descending order and the permutation are stated.
- The browser page (front/script.js): rendering and `fetch` calls, with no engine logic.
