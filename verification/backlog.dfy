/** The `Backlog` schema: the task shape plus the time the task entered the history. */
module BacklogSchema {
  import opened Common
  import opened TaskSchema

  datatype BacklogItem = BacklogItem(data: TaskData, fechaEliminacion: Time)

  /**
   * Constructing and saving a history document: the task fields follow the task
   * schema's defaults and validators, and `fechaEliminacion` defaults to `now`.
   */
  function Build(d: Draft, fechaEliminacion: Option<Time>, now: Time): (r: Option<BacklogItem>)
    ensures r.Some? <==>
      Supplied(d.titulo) && Supplied(d.tecnologia) && (d.estado.None? || d.estado.value in Estados)
    ensures r.Some? ==> Valid(r.value.data) && Some(r.value.data) == TaskSchema.Build(d, now)
    ensures r.Some? && fechaEliminacion.None? ==> r.value.fechaEliminacion == now
    ensures r.Some? && fechaEliminacion.Some? ==> r.value.fechaEliminacion == fechaEliminacion.value
  {
    match TaskSchema.Build(d, now)
    case None => None
    case Some(t) => Some(BacklogItem(t, fechaEliminacion.GetOr(now)))
  }
}
