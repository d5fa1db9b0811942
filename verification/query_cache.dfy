/**
 * The part of the query cache the tag tables drive: a map from (endpoint,
 * argument) to the last fetched value and a stale flag. A successful write
 * marks stale exactly the entries whose endpoint provides a tag the write
 * invalidates. The library applies a write's declared tags whether the request
 * is fulfilled or rejected with a value, and `fetchBaseQuery` reports every
 * HTTP error status and network failure as a value, so a failed write
 * invalidates as much as a successful one.
 */
module QueryCache {
  import opened Js
  import opened Tags

  /** A cached read: the endpoint and its normalised argument. */
  datatype Key = Key(op: Op, arg: string)

  datatype Entry = Entry(value: Json, stale: bool)

  type Cache = map<Key, Entry>

  /** The effect of a successful write `w` on the cache. */
  function ApplyMutation(c: Cache, w: Op): (d: Cache)
    ensures d.Keys == c.Keys
    ensures forall k :: k in d ==> d[k].value == c[k].value
    ensures forall k :: k in d ==> (d[k].stale <==> c[k].stale || MakesStale(w, k.op))
  {
    map k | k in c :: Entry(c[k].value, c[k].stale || MakesStale(w, k.op))
  }

  /**
   * How a write settles: with a result, with an error value (every failure
   * `fetchBaseQuery` reports), or with an exception escaping the base query.
   */
  datatype Settlement = Fulfilled | RejectedWithValue | Thrown

  /** A write that settles: array-form tags are applied unless an exception escaped. */
  function Commit(c: Cache, w: Op, s: Settlement): (d: Cache)
    ensures s.Thrown? ==> d == c
    ensures !s.Thrown? ==> d == ApplyMutation(c, w)
  {
    if s.Thrown? then c else ApplyMutation(c, w)
  }

  /**
   * A create-task request the server refuses still marks every cached task
   * list stale, exactly as a successful one does.
   */
  lemma FailedCreateTaskStalesTaskLists(c: Cache)
    ensures Commit(c, CreateTask, RejectedWithValue) == Commit(c, CreateTask, Fulfilled)
    ensures forall k :: k in c && k.op == GetAllTasks ==> Commit(c, CreateTask, RejectedWithValue)[k].stale
  {
    assert Tasks in Invalidates(CreateTask) * Provides(GetAllTasks);
  }

  /** An entry whose endpoint shares no tag with the write is left exactly as it was. */
  lemma UntouchedEntries(c: Cache, w: Op, k: Key)
    requires k in c && !MakesStale(w, k.op)
    ensures ApplyMutation(c, w)[k] == c[k]
  {
  }

  /** Repeating a write invalidates nothing more. */
  lemma ApplyMutationIdempotent(c: Cache, w: Op)
    ensures ApplyMutation(ApplyMutation(c, w), w) == ApplyMutation(c, w)
  {
    var d := ApplyMutation(c, w);
    var e := ApplyMutation(d, w);
    assert forall k :: k in e ==> e[k] == d[k];
  }

  /** The order in which two writes complete does not matter to staleness. */
  lemma ApplyMutationCommutes(c: Cache, w1: Op, w2: Op)
    ensures ApplyMutation(ApplyMutation(c, w1), w2) == ApplyMutation(ApplyMutation(c, w2), w1)
  {
    var c1, c2 := ApplyMutation(c, w1), ApplyMutation(c, w2);
    var a, b := ApplyMutation(c1, w2), ApplyMutation(c2, w1);
    forall k | k in a
      ensures a[k] == b[k]
    {
      assert a[k] == Entry(c[k].value, c[k].stale || MakesStale(w1, k.op) || MakesStale(w2, k.op));
    }
  }

  /** `autoAssignTask` declares no tags, so it leaves every cache unchanged. */
  lemma AutoAssignLeavesCache(c: Cache)
    ensures ApplyMutation(c, AutoAssignTask) == c
  {
    var d := ApplyMutation(c, AutoAssignTask);
    forall k | k in d
      ensures d[k] == c[k]
    {
      AutoAssignStalesNothing(k.op);
    }
  }

  /** A bulk reassignment makes cached dashboard statistics, activity logs and task lists stale. */
  lemma ReassignStalesDashboardLogsAndTasks(c: Cache, k: Key)
    requires k in c && k.op in {GetDashboardStats, GetActivityLogs, GetAllTasks, GetTaskById}
    ensures ApplyMutation(c, ReassignTasks)[k].stale
  {
    var both := Invalidates(ReassignTasks) * Provides(k.op);
    if k.op == GetActivityLogs {
      assert ActivityLogs in both;
    } else {
      assert Tasks in both;
    }
  }

  /** Deleting a project makes every cached task list stale. */
  lemma DeleteProjectStalesTaskLists(c: Cache, k: Key)
    requires k in c && k.op == GetAllTasks
    ensures ApplyMutation(c, DeleteProject)[k].stale
  {
    assert Tasks in Invalidates(DeleteProject) * Provides(k.op);
  }
}
