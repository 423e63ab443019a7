/**
 * The queries of the task repository, as functions of the tasks table.
 *
 * The table maps each task id to its row. The derived queries select rows by
 * column values, exactly as the generated SQL `WHERE` clauses do; the lists they
 * return carry no order, so they are sets of rows here.
 */
module TaskRepository {
  import opened Wrappers
  import opened Entities

  /** Every row is stored under its own id (the primary key). */
  ghost predicate Keyed(tasks: map<TaskId, Task>) {
    forall id :: id in tasks ==> tasks[id].id == id
  }

  /** The inherited findById: a primary-key lookup, present exactly for a stored id. */
  function FindById(tasks: map<TaskId, Task>, id: TaskId): (r: Option<Task>)
    ensures r.Some? <==> id in tasks
    ensures r.Some? ==> r.value == tasks[id]
    ensures Keyed(tasks) && r.Some? ==> r.value.id == id
  {
    if id in tasks then Some(tasks[id]) else None
  }

  /** The inherited findAll: every stored row, and nothing else. */
  function FindAll(tasks: map<TaskId, Task>): (r: set<Task>)
    ensures forall id :: id in tasks ==> tasks[id] in r
    ensures forall t :: t in r ==> exists id :: id in tasks && tasks[id] == t
    ensures Keyed(tasks) ==> forall t :: t in r ==> t.id in tasks && tasks[t.id] == t
  {
    tasks.Values
  }

  /** findByUserId: the stored rows whose owner column is `userId`. */
  function FindByUserId(tasks: map<TaskId, Task>, userId: UserId): (r: set<Task>)
    ensures r <= FindAll(tasks)
    ensures forall t :: t in r ==> t.owner == userId
    ensures forall id :: id in tasks && tasks[id].owner == userId ==> tasks[id] in r
  {
    set t | t in tasks.Values && t.owner == userId
  }

  /** findByUserIdAndStatus: the stored rows whose owner is `userId` and whose status is `status`. */
  function FindByUserIdAndStatus(tasks: map<TaskId, Task>, userId: UserId, status: TaskStatus): (r: set<Task>)
    ensures r <= FindAll(tasks)
    ensures forall t :: t in r ==> t.owner == userId && t.status == status
    ensures forall id :: id in tasks && tasks[id].owner == userId && tasks[id].status == status ==> tasks[id] in r
  {
    set t | t in tasks.Values && t.owner == userId && t.status == status
  }

  /** At most one row carries a given id, because ids are keys. */
  lemma RowWithIdIsKeyed(tasks: map<TaskId, Task>, t: Task)
    requires Keyed(tasks)
    requires t in tasks.Values
    ensures t.id in tasks && tasks[t.id] == t
  {
  }

  /**
   * findByIdAndUserId: the row whose id is `id` and whose owner is `userId`, if any.
   * It is present exactly when the task exists and is owned by `userId`, and then it
   * is the row findById returns.
   */
  function FindByIdAndUserId(tasks: map<TaskId, Task>, id: TaskId, userId: UserId): (r: Option<Task>)
    requires Keyed(tasks)
    ensures r.Some? <==> id in tasks && tasks[id].owner == userId
    ensures r.Some? ==> r == FindById(tasks, id)
  {
    var rows := set t | t in tasks.Values && t.id == id && t.owner == userId;
    if rows == {} then
      assert id in tasks ==> tasks[id] in rows || tasks[id].owner != userId;
      None
    else
      var t :| t in rows;
      RowWithIdIsKeyed(tasks, t);
      Some(t)
  }

  /** The owner query and the by-id-and-owner query agree on every row. */
  lemma OwnerQueriesAgree(tasks: map<TaskId, Task>, userId: UserId, t: Task)
    requires Keyed(tasks)
    ensures t in FindByUserId(tasks, userId) <==> FindByIdAndUserId(tasks, t.id, userId) == Some(t)
  {
  }

  /**
   * The status queries split the owner query: each lies inside it, two different
   * statuses share no row, and every row of the owner's is in the query for its status.
   */
  lemma StatusQueriesPartitionOwnerQuery(tasks: map<TaskId, Task>, userId: UserId, s1: TaskStatus, s2: TaskStatus)
    ensures FindByUserIdAndStatus(tasks, userId, s1) <= FindByUserId(tasks, userId)
    ensures s1 != s2 ==> FindByUserIdAndStatus(tasks, userId, s1) !! FindByUserIdAndStatus(tasks, userId, s2)
    ensures forall t :: t in FindByUserId(tasks, userId) ==> t in FindByUserIdAndStatus(tasks, userId, t.status)
  {
  }

  /** Different owners' query results are disjoint, and every row shows up in its own owner's. */
  lemma OwnerQueriesPartitionTable(tasks: map<TaskId, Task>, u: UserId, v: UserId)
    ensures u != v ==> FindByUserId(tasks, u) !! FindByUserId(tasks, v)
    ensures forall t :: t in FindAll(tasks) ==> t in FindByUserId(tasks, t.owner)
  {
  }
}
