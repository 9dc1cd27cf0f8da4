/**
 * The route handlers as transitions over three stores: active tasks, the
 * history (backlog) and the recently-deleted bin (trash). Each transition takes
 * the clock reading `now` and, where it inserts, an identity no store uses yet.
 * Every move is atomic: the copy is saved and the source deleted together, or
 * nothing changes.
 */
module Server {
  import opened Common
  import opened TaskSchema
  import opened BacklogSchema
  import opened TrashSchema
  import Listing

  datatype Store = Store(
    tasks: map<Id, TaskData>,
    backlog: map<Id, BacklogItem>,
    trash: map<Id, TrashItem>)

  /** An identity the store may hand out: no record in any bin carries it. */
  predicate Fresh(s: Store, id: Id) {
    id !in s.tasks && id !in s.backlog && id !in s.trash
  }

  /** The number of records across the three bins. */
  function Total(s: Store): nat {
    |s.tasks| + |s.backlog| + |s.trash|
  }

  const MsgArchived: string := "Tarea movida al historial y eliminada correctamente"
  const MsgTrashed: string := "Movido a eliminados recientemente"
  const MsgRestored: string := "Tarea restaurada correctamente"
  const MsgPurged: string := "Eliminado permanentemente"

  /** What a handler sends back. */
  datatype Response =
    | Created(id: Id, task: TaskData)   // the saved task
    | Updated(task: TaskData)           // the task after the update
    | Message(text: string)             // a confirmation
    | NotFound                          // no record under the id
    | BadRequest                        // the body failed validation
    | ServerError                       // the copy failed validation on save

  /** The HTTP status the handler sets for each kind of response. */
  function StatusCode(r: Response): int {
    match r
    case Created(_, _) => 201
    case Updated(_) => 200
    case Message(_) => 200
    case NotFound => 404
    case BadRequest => 400
    case ServerError => 500
  }

  datatype Outcome = Outcome(store: Store, response: Response)

  /** POST /api/tasks: build a task from the body and save it under a fresh id. */
  function Create(s: Store, body: Draft, now: Time, newId: Id): (o: Outcome)
    requires Fresh(s, newId)
    ensures o.response.Created? <==>
      Supplied(body.titulo) && Supplied(body.tecnologia) && (body.estado.None? || body.estado.value in Estados)
    ensures o.response.Created? ==>
      && o.response.id == newId
      && o.store == s.(tasks := s.tasks[newId := o.response.task])
      && Valid(o.response.task)
      && o.response.task.titulo == body.titulo.value
      && o.response.task.tecnologia == body.tecnologia.value
      && o.response.task.descripcion == body.descripcion
      && o.response.task.estado == body.estado.GetOr(Pending)
      && o.response.task.fecha == body.fecha.GetOr(now)
      && StatusCode(o.response) == 201
    ensures !o.response.Created? ==> o == Outcome(s, BadRequest) && StatusCode(o.response) == 400
  {
    match TaskSchema.Build(body, now)
    case None => Outcome(s, BadRequest)
    case Some(t) => Outcome(s.(tasks := s.tasks[newId := t]), Created(newId, t))
  }

  /**
   * PATCH /api/tasks/:id: overwrite `estado` with whatever the body carries.
   * The update runs no validators, so the enum is not enforced here.
   */
  function Patch(s: Store, id: Id, estado: string): (o: Outcome)
    ensures id !in s.tasks ==> o == Outcome(s, NotFound) && StatusCode(o.response) == 404
    ensures id in s.tasks ==>
      && o.store.backlog == s.backlog && o.store.trash == s.trash
      && o.store.tasks.Keys == s.tasks.Keys
      && (forall k :: k in s.tasks && k != id ==> o.store.tasks[k] == s.tasks[k])
      && o.store.tasks[id].estado == estado
      && o.store.tasks[id].titulo == s.tasks[id].titulo
      && o.store.tasks[id].tecnologia == s.tasks[id].tecnologia
      && o.store.tasks[id].descripcion == s.tasks[id].descripcion
      && o.store.tasks[id].fecha == s.tasks[id].fecha
      && o.response == Updated(o.store.tasks[id])
      && StatusCode(o.response) == 200
  {
    if id !in s.tasks then Outcome(s, NotFound)
    else
      var t := s.tasks[id].(estado := estado);
      Outcome(s.(tasks := s.tasks[id := t]), Updated(t))
  }

  /**
   * DELETE /api/tasks/:id: copy the task into the history with a fresh id and
   * `fechaEliminacion = now`, then delete it from the active tasks.
   */
  function Archive(s: Store, id: Id, now: Time, newId: Id): (o: Outcome)
    requires Fresh(s, newId)
    ensures id !in s.tasks ==> o == Outcome(s, NotFound)
    ensures id in s.tasks && Valid(s.tasks[id]) ==>
      && o.store.tasks == s.tasks - {id}
      && o.store.backlog == s.backlog[newId := BacklogItem(s.tasks[id], now)]
      && o.store.trash == s.trash
      && o.response == Message(MsgArchived)
    ensures id in s.tasks && !Valid(s.tasks[id]) ==> o == Outcome(s, ServerError)
  {
    if id !in s.tasks then Outcome(s, NotFound)
    else
      BuildToDraft(s.tasks[id], now);
      match BacklogSchema.Build(ToDraft(s.tasks[id]), Some(now), now)
      case None => Outcome(s, ServerError)
      case Some(b) =>
        Outcome(Store(s.tasks - {id}, s.backlog[newId := b], s.trash), Message(MsgArchived))
  }

  /**
   * POST /api/tasks/:id/trash: copy the task into the trash with a fresh id,
   * `fechaBorrado = now` and `origen = 'tasks'`, then delete it from the tasks.
   */
  function TrashTask(s: Store, id: Id, now: Time, newId: Id): (o: Outcome)
    requires Fresh(s, newId)
    ensures id !in s.tasks ==> o == Outcome(s, NotFound)
    ensures id in s.tasks && Valid(s.tasks[id]) ==>
      && o.store.tasks == s.tasks - {id}
      && o.store.backlog == s.backlog
      && o.store.trash == s.trash[newId := TrashItem(s.tasks[id], now, FromTasks)]
      && o.response == Message(MsgTrashed)
    ensures id in s.tasks && !Valid(s.tasks[id]) ==> o == Outcome(s, ServerError)
  {
    if id !in s.tasks then Outcome(s, NotFound)
    else
      BuildToDraft(s.tasks[id], now);
      match TrashSchema.Build(ToDraft(s.tasks[id]), Some(now), Some(FromTasks), now)
      case None => Outcome(s, ServerError)
      case Some(t) =>
        Outcome(Store(s.tasks - {id}, s.backlog, s.trash[newId := t]), Message(MsgTrashed))
  }

  /**
   * DELETE /api/backlog/:id: drop `fechaEliminacion`, copy the history record
   * into the trash with `fechaBorrado = now` and `origen = 'backlog'`, then
   * delete it from the history.
   */
  function TrashBacklog(s: Store, id: Id, now: Time, newId: Id): (o: Outcome)
    requires Fresh(s, newId)
    ensures id !in s.backlog ==> o == Outcome(s, NotFound)
    ensures id in s.backlog && Valid(s.backlog[id].data) ==>
      && o.store.tasks == s.tasks
      && o.store.backlog == s.backlog - {id}
      && o.store.trash == s.trash[newId := TrashItem(s.backlog[id].data, now, FromBacklog)]
      && o.response == Message(MsgTrashed)
    ensures id in s.backlog && !Valid(s.backlog[id].data) ==> o == Outcome(s, ServerError)
  {
    if id !in s.backlog then Outcome(s, NotFound)
    else
      var data := s.backlog[id].data;
      BuildToDraft(data, now);
      match TrashSchema.Build(ToDraft(data), Some(now), Some(FromBacklog), now)
      case None => Outcome(s, ServerError)
      case Some(t) =>
        Outcome(Store(s.tasks, s.backlog - {id}, s.trash[newId := t]), Message(MsgTrashed))
  }

  /**
   * POST /api/trash/:id/restore: drop `fechaBorrado` and `origen` and save the
   * rest as a new task under a fresh id, then delete it from the trash. The
   * record still holds `fecha`, so the task schema's default does not apply
   * and the original creation time survives.
   */
  function Restore(s: Store, id: Id, now: Time, newId: Id): (o: Outcome)
    requires Fresh(s, newId)
    ensures id !in s.trash ==> o == Outcome(s, NotFound)
    ensures id in s.trash && Valid(s.trash[id].data) ==>
      && o.store.tasks == s.tasks[newId := s.trash[id].data]
      && o.store.tasks[newId].fecha == s.trash[id].data.fecha
      && o.store.backlog == s.backlog
      && o.store.trash == s.trash - {id}
      && o.response == Message(MsgRestored)
    ensures id in s.trash && !Valid(s.trash[id].data) ==> o == Outcome(s, ServerError)
  {
    if id !in s.trash then Outcome(s, NotFound)
    else
      var data := s.trash[id].data;
      BuildToDraft(data, now);
      match TaskSchema.Build(ToDraft(data), now)
      case None => Outcome(s, ServerError)
      case Some(t) =>
        Outcome(Store(s.tasks[newId := t], s.backlog, s.trash - {id}), Message(MsgRestored))
  }

  /**
   * DELETE /api/trash/:id: delete permanently. An absent id is not an error:
   * the confirmation is sent either way.
   */
  function Purge(s: Store, id: Id): (o: Outcome)
    ensures id !in o.store.trash
    ensures forall k :: k in s.trash && k != id ==> k in o.store.trash && o.store.trash[k] == s.trash[k]
    ensures o.store.trash.Keys <= s.trash.Keys
    ensures o.store.tasks == s.tasks && o.store.backlog == s.backlog
    ensures id !in s.trash ==> o.store == s
    ensures o.response == Message(MsgPurged) && StatusCode(o.response) == 200
  {
    Outcome(s.(trash := s.trash - {id}), Message(MsgPurged))
  }

  /** GET /api/tasks: every active task, in the store's own order. */
  method ListTasks(s: Store) returns (r: seq<(Id, TaskData)>)
    ensures Listing.Lists(r, s.tasks)
  {
    r := Listing.Enumerate(s.tasks);
  }

  function ArchivedAt(b: BacklogItem): Time { b.fechaEliminacion }
  function DeletedAt(t: TrashItem): Time { t.fechaBorrado }

  /** GET /api/backlog: every history record, most recently archived first. */
  method ListBacklog(s: Store) returns (r: seq<(Id, BacklogItem)>)
    ensures Listing.Lists(r, s.backlog)
    ensures Listing.SortedDesc(r, ArchivedAt)
  {
    r := Listing.ListSorted(s.backlog, ArchivedAt);
  }

  /** GET /api/trash: every trash record, most recently deleted first. */
  method ListTrash(s: Store) returns (r: seq<(Id, TrashItem)>)
    ensures Listing.Lists(r, s.trash)
    ensures Listing.SortedDesc(r, DeletedAt)
  {
    r := Listing.ListSorted(s.trash, DeletedAt);
  }
}
