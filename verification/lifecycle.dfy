/**
 * Properties of the three-bin lifecycle as a whole: the routing table as one
 * step function, the invariants every step keeps, the record count each step
 * changes, and what sequences of moves add up to.
 */
module Lifecycle {
  import opened Common
  import opened TaskSchema
  import opened BacklogSchema
  import opened TrashSchema
  import opened Server

  /** The state-changing routes, with the parameters taken from the URL and the body. */
  datatype Request =
    | PostTask(body: Draft)                 // POST   /api/tasks
    | PatchTask(id: Id, estado: string)     // PATCH  /api/tasks/:id
    | DeleteTask(id: Id)                    // DELETE /api/tasks/:id
    | PostTaskTrash(id: Id)                 // POST   /api/tasks/:id/trash
    | DeleteBacklog(id: Id)                 // DELETE /api/backlog/:id
    | PostTrashRestore(id: Id)              // POST   /api/trash/:id/restore
    | DeleteTrash(id: Id)                   // DELETE /api/trash/:id

  /** Dispatches a request to its handler. */
  function Step(s: Store, req: Request, now: Time, newId: Id): Outcome
    requires Fresh(s, newId)
  {
    match req
    case PostTask(body) => Create(s, body, now, newId)
    case PatchTask(id, estado) => Patch(s, id, estado)
    case DeleteTask(id) => Archive(s, id, now, newId)
    case PostTaskTrash(id) => TrashTask(s, id, now, newId)
    case DeleteBacklog(id) => TrashBacklog(s, id, now, newId)
    case PostTrashRestore(id) => Restore(s, id, now, newId)
    case DeleteTrash(id) => Purge(s, id)
  }

  /** No identity is used in two bins: a record lives in exactly one place. */
  predicate Disjoint(s: Store) {
    && s.tasks.Keys !! s.backlog.Keys
    && s.tasks.Keys !! s.trash.Keys
    && s.backlog.Keys !! s.trash.Keys
  }

  /**
   * What the handlers keep true: ids are disjoint, every active task has its
   * required fields, and every history or trash record passed its schema on
   * save. Active tasks may carry an `estado` outside the enum after a PATCH.
   */
  predicate WellFormed(s: Store) {
    && Disjoint(s)
    && (forall k :: k in s.tasks ==> HasRequired(s.tasks[k]))
    && (forall k :: k in s.backlog ==> Valid(s.backlog[k].data))
    && (forall k :: k in s.trash ==> Valid(s.trash[k].data))
  }

  /** Every active task also satisfies the `estado` enum. */
  predicate AllValid(s: Store) {
    WellFormed(s) && forall k :: k in s.tasks ==> Valid(s.tasks[k])
  }

  /** Whether a request writes an `estado` outside the enum. */
  predicate WritesBadEstado(req: Request) {
    req.PatchTask? && req.estado !in Estados
  }

  /** Every route keeps the store well-formed, given an identity no bin uses. */
  lemma StepPreservesWellFormed(s: Store, req: Request, now: Time, newId: Id)
    requires WellFormed(s) && Fresh(s, newId)
    ensures WellFormed(Step(s, req, now, newId).store)
  {
  }

  /** Every route except a PATCH to an unknown `estado` keeps all records inside the enum. */
  lemma StepPreservesAllValid(s: Store, req: Request, now: Time, newId: Id)
    requires AllValid(s) && Fresh(s, newId) && !WritesBadEstado(req)
    ensures AllValid(Step(s, req, now, newId).store)
  {
  }

  /** A PATCH of an existing task to an unknown `estado` does leave it outside the enum. */
  lemma BadPatchBreaksEnum(s: Store, id: Id, estado: string)
    requires id in s.tasks && estado !in Estados
    ensures !Valid(Patch(s, id, estado).store.tasks[id])
  {
  }

  /**
   * In a well-formed store a move fails on save only when it starts from an
   * active task whose `estado` a PATCH pushed outside the enum; history and
   * trash records always move.
   */
  lemma ServerErrorOnlyFromBadEstado(s: Store, req: Request, now: Time, newId: Id)
    requires WellFormed(s) && Fresh(s, newId)
    ensures Step(s, req, now, newId).response.ServerError? <==>
      (req.DeleteTask? || req.PostTaskTrash?) && req.id in s.tasks && s.tasks[req.id].estado !in Estados
    ensures Step(s, req, now, newId).response.ServerError? ==> Step(s, req, now, newId).store == s
  {
  }

  /** Removing a present id shrinks a bin by one record. */
  lemma CardRemove<K, V>(m: map<K, V>, k: K)
    requires k in m
    ensures |m - {k}| == |m| - 1
  {
  }

  /** Inserting under an unused id grows a bin by one record. */
  lemma CardAdd<K, V>(m: map<K, V>, k: K, v: V)
    requires k !in m
    ensures |m[k := v]| == |m| + 1
  {
  }

  /**
   * Moves conserve the number of records; only a successful create adds one
   * and only purging a present id removes one.
   */
  lemma StepTotal(s: Store, req: Request, now: Time, newId: Id)
    requires Fresh(s, newId)
    ensures Total(Step(s, req, now, newId).store) ==
      Total(s)
      + (if Step(s, req, now, newId).response.Created? then 1 else 0)
      - (if req.DeleteTrash? && req.id in s.trash then 1 else 0)
  {
    var o := Step(s, req, now, newId);
    match req
    case PostTask(body) =>
      if o.response.Created? { CardAdd(s.tasks, newId, o.response.task); }
    case PatchTask(id, estado) =>
      if id in s.tasks { assert o.store.tasks.Keys == s.tasks.Keys; }
    case DeleteTask(id) =>
      if id in s.tasks && Valid(s.tasks[id]) {
        CardRemove(s.tasks, id);
        CardAdd(s.backlog, newId, BacklogItem(s.tasks[id], now));
      }
    case PostTaskTrash(id) =>
      if id in s.tasks && Valid(s.tasks[id]) {
        CardRemove(s.tasks, id);
        CardAdd(s.trash, newId, TrashItem(s.tasks[id], now, FromTasks));
      }
    case DeleteBacklog(id) =>
      if id in s.backlog && Valid(s.backlog[id].data) {
        CardRemove(s.backlog, id);
        CardAdd(s.trash, newId, TrashItem(s.backlog[id].data, now, FromBacklog));
      }
    case PostTrashRestore(id) =>
      if id in s.trash && Valid(s.trash[id].data) {
        CardRemove(s.trash, id);
        CardAdd(s.tasks, newId, s.trash[id].data);
      }
    case DeleteTrash(id) =>
      if id in s.trash { CardRemove(s.trash, id); }
  }

  /** Purging twice is purging once, and both calls answer the same. */
  lemma PurgeIdempotent(s: Store, id: Id)
    ensures Purge(Purge(s, id).store, id) == Outcome(Purge(s, id).store, Purge(s, id).response)
  {
  }

  /** Setting `estado` back to its previous value undoes a PATCH completely. */
  lemma PatchUndo(s: Store, id: Id, estado: string)
    requires id in s.tasks
    ensures Patch(Patch(s, id, estado).store, id, s.tasks[id].estado).store == s
  {
  }

  /**
   * Trashing a task and restoring it gives back the same task, `fecha`
   * included, under a new id; nothing else changes.
   */
  lemma TrashThenRestore(s: Store, id: Id, now1: Time, now2: Time, id1: Id, id2: Id)
    requires id in s.tasks && Valid(s.tasks[id])
    requires Fresh(s, id1) && Fresh(s, id2) && id1 != id2
    ensures Fresh(TrashTask(s, id, now1, id1).store, id2)
    ensures Restore(TrashTask(s, id, now1, id1).store, id1, now2, id2).store ==
      s.(tasks := (s.tasks - {id})[id2 := s.tasks[id]])
  {
  }

  /**
   * Archiving a task and then trashing the history record leaves the same
   * stores as trashing the task directly, except that `origen` says `backlog`.
   */
  lemma ArchiveThenTrash(s: Store, id: Id, now1: Time, now2: Time, id1: Id, id2: Id)
    requires id in s.tasks && Valid(s.tasks[id])
    requires Fresh(s, id1) && Fresh(s, id2) && id1 != id2
    ensures Fresh(Archive(s, id, now1, id1).store, id2)
    ensures TrashBacklog(Archive(s, id, now1, id1).store, id1, now2, id2).store ==
      TrashTask(s, id, now2, id2).store.(trash := s.trash[id2 := TrashItem(s.tasks[id], now2, FromBacklog)])
  {
  }

  /**
   * Restoring a trash record, archiving the task and trashing the history
   * record yields a trash record with the same content and `origen = 'backlog'`,
   * whatever `origen` it had.
   */
  lemma RestoreArchiveTrash(s: Store, id: Id, now1: Time, now2: Time, now3: Time, id1: Id, id2: Id, id3: Id)
    requires WellFormed(s) && id in s.trash
    requires Fresh(s, id1) && Fresh(s, id2) && Fresh(s, id3)
    requires id1 != id2 && id1 != id3 && id2 != id3
    ensures Fresh(Restore(s, id, now1, id1).store, id2)
    ensures Fresh(Archive(Restore(s, id, now1, id1).store, id1, now2, id2).store, id3)
    ensures
      var s3 := TrashBacklog(Archive(Restore(s, id, now1, id1).store, id1, now2, id2).store, id2, now3, id3).store;
      s3 == s.(trash := (s.trash - {id})[id3 := TrashItem(s.trash[id].data, now3, FromBacklog)])
  {
  }
}
