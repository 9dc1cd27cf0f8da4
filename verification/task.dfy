/**
 * The `Task` schema: the shape of an active task, which the backlog and trash
 * schemas repeat and extend, with its required fields, `estado` enum and defaults.
 */
module TaskSchema {
  import opened Common

  const Pending: string := "pending"
  const Done: string := "done"

  /** The values the `estado` enum admits; the three schemas share it. */
  const Estados: set<string> := {Pending, Done}

  /** A stored task: every field after the schema has applied its defaults. */
  datatype TaskData = TaskData(
    titulo: string,
    tecnologia: string,
    descripcion: Option<string>,
    estado: string,
    fecha: Time)

  /**
   * A document before the schema has applied defaults and validators: a request
   * body, or a stored record converted back to a plain object.
   */
  datatype Draft = Draft(
    titulo: Option<string>,
    tecnologia: Option<string>,
    descripcion: Option<string>,
    estado: Option<string>,
    fecha: Option<Time>)

  /** A `required` string path is satisfied by a present, non-empty string. */
  predicate Supplied(f: Option<string>) {
    f.Some? && f.value != ""
  }

  /** The required fields of a stored record hold values. */
  predicate HasRequired(t: TaskData) {
    t.titulo != "" && t.tecnologia != ""
  }

  /** A record passes every validator of the schema. */
  predicate Valid(t: TaskData) {
    HasRequired(t) && t.estado in Estados
  }

  /** A stored record as a plain object: every field it holds is present. */
  function ToDraft(t: TaskData): Draft {
    Draft(Some(t.titulo), Some(t.tecnologia), t.descripcion, Some(t.estado), Some(t.fecha))
  }

  /** The record the schema builds from a draft once defaults are applied (before validation). */
  function Fill(d: Draft, now: Time): TaskData
    requires d.titulo.Some? && d.tecnologia.Some?
  {
    TaskData(d.titulo.value, d.tecnologia.value, d.descripcion, d.estado.GetOr(Pending), d.fecha.GetOr(now))
  }

  /**
   * Constructing and saving a document: defaults first, then validation;
   * `None` is the validation error.
   */
  function Build(d: Draft, now: Time): (r: Option<TaskData>)
    ensures r.Some? <==>
      Supplied(d.titulo) && Supplied(d.tecnologia) && (d.estado.None? || d.estado.value in Estados)
    ensures r.Some? ==> Valid(r.value)
    ensures r.Some? ==>
      r.value.titulo == d.titulo.value && r.value.tecnologia == d.tecnologia.value
      && r.value.descripcion == d.descripcion
    ensures r.Some? && d.estado.None? ==> r.value.estado == Pending
    ensures r.Some? && d.estado.Some? ==> r.value.estado == d.estado.value
    ensures r.Some? && d.fecha.None? ==> r.value.fecha == now
    ensures r.Some? && d.fecha.Some? ==> r.value.fecha == d.fecha.value
  {
    if d.titulo.None? || d.tecnologia.None? then None
    else
      var t := Fill(d, now);
      if Valid(t) then Some(t) else None
  }

  /**
   * Saving a stored record again rebuilds it unchanged, whatever the clock says,
   * exactly when it is valid: defaults never overwrite a present field.
   */
  lemma BuildToDraft(t: TaskData, now: Time)
    ensures Build(ToDraft(t), now) == (if Valid(t) then Some(t) else None)
  {
  }

  /** A body that omits `estado` and `fecha` gets `pending` and the creation time. */
  lemma BuildDefaults(d: Draft, now: Time)
    requires Supplied(d.titulo) && Supplied(d.tecnologia)
    requires d.estado.None? && d.fecha.None?
    ensures Build(d, now).Some?
    ensures Build(d, now).value.estado == Pending && Build(d, now).value.fecha == now
  {
  }
}
