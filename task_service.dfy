/**
 * The task service: role-based and ownership-based access to tasks.
 *
 * The caller is the user the authentication filter resolved for the request,
 * passed explicitly. An ADMIN sees and touches every task; anyone else only the
 * tasks they own. Reads by id of a task the caller may not see fail with
 * ResourceNotFound, exactly as for a missing id; updates and deletes of such a
 * task fail with Unauthorized.
 *
 * The read operations are functions of the two tables; the operations that write
 * are methods of `TaskService`, which holds the shared `Database`.
 */
module TaskManagement {
  import opened Wrappers
  import opened Entities
  import opened Errors
  import opened TaskRepository
  import opened Persistence

  datatype TaskRequest = TaskRequest(title: string, description: Option<string>, status: Option<TaskStatus>)

  datatype TaskResponse = TaskResponse(
    id: TaskId,
    title: string,
    description: Option<string>,
    status: TaskStatus,
    createdAt: Timestamp,
    updatedAt: Option<Timestamp>,
    userId: UserId,
    userName: string,
    userEmail: string)

  const UserTaskNotFoundMessage := "Task not found or access denied"

  function TaskNotFoundMessage(id: TaskId): string {
    "Task not found with id: " + id
  }

  function AccessDeniedMessage(id: TaskId): string {
    "Access denied to task with id: " + id
  }

  function UserNotFoundMessage(userId: UserId): string {
    "User not found with id: " + userId
  }

  /** The ownership policy: an ADMIN may act on every task, anyone else only on their own. */
  predicate MayAccess(caller: User, task: Task) {
    caller.role == ADMIN || task.owner == caller.id
  }

  /** The task columns a response carries. */
  function TaskOf(response: TaskResponse): Task {
    Task(response.id, response.title, response.description, response.status,
         response.createdAt, response.updatedAt, response.userId)
  }

  /**
   * mapToTaskResponse: the response carries every column of the task, and the
   * owner's name and email.
   */
  function MapToTaskResponse(task: Task, users: map<UserId, User>): (r: TaskResponse)
    requires task.owner in users
    ensures TaskOf(r) == task
    ensures r.userName == users[task.owner].name && r.userEmail == users[task.owner].email
  {
    var owner := users[task.owner];
    TaskResponse(task.id, task.title, task.description, task.status,
                 task.createdAt, task.updatedAt, task.owner, owner.name, owner.email)
  }

  /** The responses for a set of rows. */
  function Responses(rows: set<Task>, users: map<UserId, User>): set<TaskResponse>
    requires forall t :: t in rows ==> t.owner in users
  {
    set t | t in rows :: MapToTaskResponse(t, users)
  }

  /** getAllTasks: every task for an ADMIN, exactly the caller's own tasks for anyone else. */
  function GetAllTasks(tasks: map<TaskId, Task>, users: map<UserId, User>, caller: User): (r: set<TaskResponse>)
    requires TasksWellFormed(tasks, users)
    ensures r == set t | t in tasks.Values && MayAccess(caller, t) :: MapToTaskResponse(t, users)
  {
    var rows := if caller.role == ADMIN then FindAll(tasks) else FindByUserId(tasks, caller.id);
    Responses(rows, users)
  }

  /**
   * getTaskById: the task when it exists and the caller may see it. An ADMIN is
   * told a missing id is missing; anyone else gets one and the same error for a
   * missing task and for a task owned by someone else.
   */
  function GetTaskById(tasks: map<TaskId, Task>, users: map<UserId, User>, caller: User, id: TaskId)
    : (r: Result<TaskResponse, Error>)
    requires TasksWellFormed(tasks, users)
    ensures r.Success? <==> id in tasks && MayAccess(caller, tasks[id])
    ensures r.Success? ==> r.value == MapToTaskResponse(tasks[id], users)
    ensures caller.role == ADMIN && id !in tasks ==> r == Failure(ResourceNotFound(TaskNotFoundMessage(id)))
    ensures caller.role != ADMIN && r.Failure? ==> r == Failure(ResourceNotFound(UserTaskNotFoundMessage))
  {
    var found :=
      if caller.role == ADMIN then
        match FindById(tasks, id)
        case Some(t) => Success(t)
        case None => Failure(ResourceNotFound(TaskNotFoundMessage(id)))
      else
        match FindByIdAndUserId(tasks, id, caller.id)
        case Some(t) => Success(t)
        case None => Failure(ResourceNotFound(UserTaskNotFoundMessage));
    match found
    case Success(t) => Success(MapToTaskResponse(t, users))
    case Failure(e) => Failure(e)
  }

  /**
   * getTaskEntity, the guard in front of update and delete: the stored row when it
   * exists and the caller may touch it. An ADMIN is told a missing id is missing;
   * anyone else is refused with Unauthorized, whether the task is missing or
   * someone else's.
   */
  function GetTaskEntity(tasks: map<TaskId, Task>, caller: User, id: TaskId): (r: Result<Task, Error>)
    requires Keyed(tasks)
    ensures r.Success? <==> id in tasks && MayAccess(caller, tasks[id])
    ensures r.Success? ==> r.value == tasks[id]
    ensures caller.role == ADMIN && id !in tasks ==> r == Failure(ResourceNotFound(TaskNotFoundMessage(id)))
    ensures caller.role != ADMIN && r.Failure? ==> r == Failure(Unauthorized(AccessDeniedMessage(id)))
  {
    if caller.role == ADMIN then
      match FindById(tasks, id)
      case Some(t) => Success(t)
      case None => Failure(ResourceNotFound(TaskNotFoundMessage(id)))
    else
      match FindByIdAndUserId(tasks, id, caller.id)
      case Some(t) => Success(t)
      case None => Failure(Unauthorized(AccessDeniedMessage(id)))
  }

  /**
   * getTasksByUserId, behind the hasRole('ADMIN') guard of its endpoint: refused
   * for anyone but an ADMIN, ResourceNotFound for an unknown user, and otherwise
   * exactly that user's tasks.
   */
  function GetTasksByUserId(tasks: map<TaskId, Task>, users: map<UserId, User>, caller: User, userId: UserId)
    : (r: Result<set<TaskResponse>, Error>)
    requires TasksWellFormed(tasks, users)
    ensures caller.role != ADMIN ==> r == Failure(AccessDenied)
    ensures caller.role == ADMIN && userId !in users ==> r == Failure(ResourceNotFound(UserNotFoundMessage(userId)))
    ensures caller.role == ADMIN && userId in users ==>
              r == Success(set t | t in tasks.Values && t.owner == userId :: MapToTaskResponse(t, users))
  {
    if caller.role != ADMIN then
      Failure(AccessDenied)
    else if userId !in users then
      Failure(ResourceNotFound(UserNotFoundMessage(userId)))
    else
      var rows := FindByUserId(tasks, userId);
      assert Responses(rows, users) == set t | t in tasks.Values && t.owner == userId :: MapToTaskResponse(t, users) by {
        forall r ensures r in Responses(rows, users) <==> r in set t | t in tasks.Values && t.owner == userId :: MapToTaskResponse(t, users) {
          if r in Responses(rows, users) {
            var t :| t in rows && r == MapToTaskResponse(t, users);
          }
        }
      }
      Success(Responses(rows, users))
  }

  /** The row createTask stores: owned by the caller, status as requested or PENDING, no update time. */
  function CreatedTask(id: TaskId, caller: User, request: TaskRequest, now: Timestamp): Task {
    Task(id, request.title, request.description, StatusOrPending(request.status), now, None, caller.id)
  }

  /**
   * The row updateTask stores: title and description as requested, status only when
   * one is requested, the update time stamped; id, owner and creation time kept.
   */
  function UpdatedTask(stored: Task, request: TaskRequest, now: Timestamp): Task {
    stored.(title := request.title, description := request.description,
            status := if request.status.Some? then request.status.value else stored.status,
            updatedAt := Some(now))
  }

  class TaskService {
    const db: Database

    constructor (db: Database)
      ensures this.db == db
    {
      this.db := db;
    }

    /**
     * createTask: stores a new task owned by the caller, with the requested status or
     * PENDING, and returns its response; a title too long for its column is refused
     * and nothing is stored.
     */
    method CreateTask(caller: User, request: TaskRequest, freshId: TaskId, now: Timestamp)
      returns (r: Result<TaskResponse, Error>)
      requires db.Valid()
      requires caller.id in db.users && db.users[caller.id] == caller
      requires freshId !in db.tasks
      modifies db`tasks
      ensures db.Valid()
      ensures ImmutableColumnsKept(old(db.tasks), db.tasks)
      ensures TitleFits(request.title) ==>
                var row := CreatedTask(freshId, caller, request, now);
                db.tasks == old(db.tasks)[freshId := row] && r == Success(MapToTaskResponse(row, db.users))
      ensures !TitleFits(request.title) ==> db.tasks == old(db.tasks) && r == Failure(ConstraintViolation)
    {
      var status := if request.status.Some? then request.status else Some(PENDING);
      var entity := new TaskEntity.Build(request.title, request.description, status, caller.id);
      var saved := db.InsertTask(entity, freshId, now);
      match saved
      case Success(row) => r := Success(MapToTaskResponse(row, db.users));
      case Failure(e) => r := Failure(e);
    }

    /**
     * updateTask: behind the getTaskEntity guard, rewrites the title and description,
     * the status only when one is requested, and stamps the update time; every other
     * task, and the id, owner and creation time of this one, stay as they were.
     */
    method UpdateTask(caller: User, id: TaskId, request: TaskRequest, now: Timestamp)
      returns (r: Result<TaskResponse, Error>)
      requires db.Valid()
      modifies db`tasks
      ensures db.Valid()
      ensures ImmutableColumnsKept(old(db.tasks), db.tasks)
      ensures var found := GetTaskEntity(old(db.tasks), caller, id);
              if found.Failure? then
                db.tasks == old(db.tasks) && r == Failure(found.error)
              else if !TitleFits(request.title) then
                db.tasks == old(db.tasks) && r == Failure(ConstraintViolation)
              else
                var row := UpdatedTask(found.value, request, now);
                db.tasks == old(db.tasks)[id := row] && r == Success(MapToTaskResponse(row, db.users))
    {
      var found := GetTaskEntity(db.tasks, caller, id);
      if found.Failure? {
        return Failure(found.error);
      }
      var entity := new TaskEntity.Load(found.value);
      entity.title := request.title;
      entity.description := request.description;
      if request.status.Some? {
        entity.status := request.status;
      }
      var saved := db.UpdateTask(entity, now);
      match saved
      case Success(row) => r := Success(MapToTaskResponse(row, db.users));
      case Failure(e) => r := Failure(e);
    }

    /** deleteTask: behind the getTaskEntity guard, removes exactly that task. */
    method DeleteTask(caller: User, id: TaskId) returns (r: Result<(), Error>)
      requires db.Valid()
      modifies db`tasks
      ensures db.Valid()
      ensures ImmutableColumnsKept(old(db.tasks), db.tasks)
      ensures var found := GetTaskEntity(old(db.tasks), caller, id);
              if found.Failure? then db.tasks == old(db.tasks) && r == Failure(found.error)
              else db.tasks == old(db.tasks) - {id} && r == Success(())
    {
      var found := GetTaskEntity(db.tasks, caller, id);
      if found.Failure? {
        return Failure(found.error);
      }
      db.DeleteTask(found.value);
      r := Success(());
    }
  }

  /** A task can be read by id exactly when it is among the tasks the caller lists. */
  lemma ListedIffReadable(tasks: map<TaskId, Task>, users: map<UserId, User>, caller: User, id: TaskId)
    requires TasksWellFormed(tasks, users)
    ensures GetTaskById(tasks, users, caller, id).Success?
        <==> exists response :: response in GetAllTasks(tasks, users, caller) && response.id == id
  {
  }

  /**
   * For a caller who is not an ADMIN, someone else's task reads exactly as a missing
   * one does, while updating or deleting it is refused with Unauthorized.
   */
  lemma ForeignTaskHiddenFromReadsRefusedToWrites(tasks: map<TaskId, Task>, users: map<UserId, User>,
                                                 caller: User, id: TaskId)
    requires TasksWellFormed(tasks, users)
    requires caller.role != ADMIN
    requires id in tasks && tasks[id].owner != caller.id
    ensures GetTaskById(tasks, users, caller, id) == GetTaskById(tasks - {id}, users, caller, id)
                                                  == Failure(ResourceNotFound(UserTaskNotFoundMessage))
    ensures GetTaskEntity(tasks, caller, id) == Failure(Unauthorized(AccessDeniedMessage(id)))
  {
  }

  /** Reads and writes are guarded by the same ownership policy; only the errors differ. */
  lemma ReadAndWriteGuardsAgree(tasks: map<TaskId, Task>, users: map<UserId, User>, caller: User, id: TaskId)
    requires TasksWellFormed(tasks, users)
    ensures GetTaskById(tasks, users, caller, id).Success? <==> GetTaskEntity(tasks, caller, id).Success?
    ensures GetTaskEntity(tasks, caller, id).Success? ==>
              GetTaskById(tasks, users, caller, id).value == MapToTaskResponse(GetTaskEntity(tasks, caller, id).value, users)
    ensures caller.role == ADMIN ==> GetTaskById(tasks, users, caller, id).Failure? ==>
              GetTaskEntity(tasks, caller, id) == Failure(ResourceNotFound(TaskNotFoundMessage(id)))
  {
  }

  /** What an ADMIN lists for a non-admin user is exactly what that user lists for themselves. */
  lemma AdminListingMatchesOwnListing(tasks: map<TaskId, Task>, users: map<UserId, User>,
                                         admin: User, user: User)
    requires TasksWellFormed(tasks, users)
    requires admin.role == ADMIN
    requires user.role != ADMIN && user.id in users
    ensures GetTasksByUserId(tasks, users, admin, user.id) == Success(GetAllTasks(tasks, users, user))
  {
  }

  /** A task just created is readable by its creator and by ADMINs, and by nobody else. */
  lemma CreatedTaskVisibility(tasks: map<TaskId, Task>, users: map<UserId, User>, caller: User,
                              request: TaskRequest, freshId: TaskId, now: Timestamp, viewer: User)
    requires TasksWellFormed(tasks, users)
    requires caller.id in users && TitleFits(request.title)
    ensures TasksWellFormed(tasks[freshId := CreatedTask(freshId, caller, request, now)], users)
    ensures GetTaskById(tasks[freshId := CreatedTask(freshId, caller, request, now)], users, viewer, freshId).Success?
        <==> viewer.role == ADMIN || viewer.id == caller.id
  {
  }

  /** Once deleted, a task can be read by nobody. */
  lemma DeletedTaskIsGone(tasks: map<TaskId, Task>, users: map<UserId, User>, viewer: User, id: TaskId)
    requires TasksWellFormed(tasks, users)
    ensures TasksWellFormed(tasks - {id}, users)
    ensures GetTaskById(tasks - {id}, users, viewer, id).Failure?
  {
  }

  /**
   * A repeated update overwrites the first one completely, whenever it was made: the
   * same request sent twice stores what sending it once, at the later time, does.
   * A different second request wipes out the first as well, unless the first set a
   * status the second leaves alone.
   */
  lemma UpdateIsIdempotent(stored: Task, first: TaskRequest, second: TaskRequest, t1: Timestamp, t2: Timestamp)
    ensures UpdatedTask(UpdatedTask(stored, first, t1), first, t2) == UpdatedTask(stored, first, t2)
    ensures first.status.None? || second.status.Some? ==>
              UpdatedTask(UpdatedTask(stored, first, t1), second, t2) == UpdatedTask(stored, second, t2)
  {
  }
}
