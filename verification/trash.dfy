/**
 * The `Trash` schema: the task shape plus the time the record entered the trash
 * and `origen`, a free string (not an enum) naming the store it came from.
 */
module TrashSchema {
  import opened Common
  import opened TaskSchema

  /** The default `origen`. */
  const FromTasks: string := "tasks"
  /** The `origen` the history-to-trash move stamps. */
  const FromBacklog: string := "backlog"

  datatype TrashItem = TrashItem(data: TaskData, fechaBorrado: Time, origen: string)

  /**
   * Constructing and saving a trash document: the task fields follow the task
   * schema, `fechaBorrado` defaults to `now`, and `origen` defaults to `tasks`
   * and accepts any string.
   */
  function Build(d: Draft, fechaBorrado: Option<Time>, origen: Option<string>, now: Time): (r: Option<TrashItem>)
    ensures r.Some? <==>
      Supplied(d.titulo) && Supplied(d.tecnologia) && (d.estado.None? || d.estado.value in Estados)
    ensures r.Some? ==> Valid(r.value.data) && Some(r.value.data) == TaskSchema.Build(d, now)
    ensures r.Some? && fechaBorrado.None? ==> r.value.fechaBorrado == now
    ensures r.Some? && fechaBorrado.Some? ==> r.value.fechaBorrado == fechaBorrado.value
    ensures r.Some? && origen.None? ==> r.value.origen == FromTasks
    ensures r.Some? && origen.Some? ==> r.value.origen == origen.value
  {
    match TaskSchema.Build(d, now)
    case None => None
    case Some(t) => Some(TrashItem(t, fechaBorrado.GetOr(now), origen.GetOr(FromTasks)))
  }

  /** `origen` is not validated: any string, even an unknown store name, is stored as given. */
  lemma OrigenUnconstrained(t: TaskData, origen: string, now: Time)
    requires Valid(t)
    ensures Build(ToDraft(t), Some(now), Some(origen), now) == Some(TrashItem(t, now, origen))
  {
  }
}
