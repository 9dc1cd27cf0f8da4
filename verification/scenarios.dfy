/** Concrete walks through the lifecycle, with literal bodies, clocks and ids. */
module Scenarios {
  import opened Common
  import opened TaskSchema
  import opened BacklogSchema
  import opened TrashSchema
  import opened Server
  import Listing

  const Empty: Store := Store(map[], map[], map[])

  /**
   * Create a task without `estado`, trash it, restore it: the task comes back
   * `pending` with its title and technology under a third id, and its `fecha`
   * is still the creation time, not the restore time.
   */
  lemma CreateTrashRestore()
    ensures
      var body := Draft(Some("Write spec"), Some("design"), Some(""), None, None);
      var o1 := Create(Empty, body, 100, "a");
      var o2 := TrashTask(o1.store, "a", 200, "b");
      var o3 := Restore(o2.store, "b", 300, "c");
      && StatusCode(o1.response) == 201
      && o1.response.task.estado == Pending
      && o2.store.tasks == map[]
      && o2.store.trash.Keys == {"b"} && o2.store.trash["b"].origen == FromTasks
      && o3.store.trash == map[]
      && o3.store.tasks.Keys == {"c"}
      && o3.store.tasks["c"].titulo == "Write spec"
      && o3.store.tasks["c"].tecnologia == "design"
      && o3.store.tasks["c"].fecha == 100
  {
  }

  /** The stores after archiving three valid tasks `a`, `b`, `c` at times 1, 2 and 3. */
  function ArchivedThree(ta: TaskData, tb: TaskData, tc: TaskData): (s3: Store)
    requires Valid(ta) && Valid(tb) && Valid(tc)
    ensures s3.tasks == map[] && s3.trash == map[]
    ensures s3.backlog == map["x" := BacklogItem(ta, 1), "y" := BacklogItem(tb, 2), "z" := BacklogItem(tc, 3)]
  {
    var s0 := Store(map["a" := ta, "b" := tb, "c" := tc], map[], map[]);
    var s1 := Archive(s0, "a", 1, "x").store;
    assert s1.tasks == map["b" := tb, "c" := tc];
    var s2 := Archive(s1, "b", 2, "y").store;
    assert s2.tasks == map["c" := tc];
    Archive(s2, "c", 3, "z").store
  }

  /** A listing of three records with distinct keys 1, 2, 3, newest first, is fixed. */
  lemma ThreeSorted(ta: TaskData, tb: TaskData, tc: TaskData, r: seq<(Id, BacklogItem)>)
    requires
      var m := map["x" := BacklogItem(ta, 1), "y" := BacklogItem(tb, 2), "z" := BacklogItem(tc, 3)];
      Listing.Lists(r, m) && Listing.SortedDesc(r, ArchivedAt)
    ensures r == [("z", BacklogItem(tc, 3)), ("y", BacklogItem(tb, 2)), ("x", BacklogItem(ta, 1))]
  {
    var m := map["x" := BacklogItem(ta, 1), "y" := BacklogItem(tb, 2), "z" := BacklogItem(tc, 3)];
    Listing.ListsMeans(r, m);
    assert m.Keys == {"x", "y", "z"};
    assert |r| == 3;
    assert r[0].0 != r[1].0 && r[0].0 != r[2].0 && r[1].0 != r[2].0;
    assert ArchivedAt(r[0].1) >= ArchivedAt(r[1].1) >= ArchivedAt(r[2].1);
  }

  /** Tasks archived at 1, 2 and 3 are listed by the history route as 3, 2, 1. */
  lemma BacklogNewestFirst(ta: TaskData, tb: TaskData, tc: TaskData, r: seq<(Id, BacklogItem)>)
    requires Valid(ta) && Valid(tb) && Valid(tc)
    requires Listing.Lists(r, ArchivedThree(ta, tb, tc).backlog)
    requires Listing.SortedDesc(r, ArchivedAt)
    ensures ArchivedThree(ta, tb, tc).tasks == map[]
    ensures r == [("z", BacklogItem(tc, 3)), ("y", BacklogItem(tb, 2)), ("x", BacklogItem(ta, 1))]
  {
    ThreeSorted(ta, tb, tc, r);
  }
}
