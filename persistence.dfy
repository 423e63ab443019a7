/**
 * The relational store shared by both services: the users table, the tasks table,
 * the constraints the schema declares on them, and the repository calls that write
 * to them (save and delete).
 */
module Persistence {
  import opened Wrappers
  import opened Entities
  import opened Errors
  import opened TaskRepository

  /** Every user is stored under its own id, and no two users share an email. */
  ghost predicate UsersWellFormed(users: map<UserId, User>) {
    && (forall id :: id in users ==> users[id].id == id)
    && (forall a, b :: a in users && b in users && users[a].email == users[b].email ==> a == b)
  }

  /** Every task is keyed by its id, has a title that fits its column, and an owner that exists. */
  ghost predicate TasksWellFormed(tasks: map<TaskId, Task>, users: map<UserId, User>) {
    && Keyed(tasks)
    && (forall id :: id in tasks ==> tasks[id].owner in users && TitleFits(tasks[id].title))
  }

  /** The set of registered emails. */
  function Emails(users: map<UserId, User>): set<string> {
    set id | id in users :: users[id].email
  }

  /** existsByEmail of the user repository: the email is among the registered ones. */
  predicate ExistsByEmail(users: map<UserId, User>, email: string)
    ensures ExistsByEmail(users, email) <==> email in Emails(users)
  {
    exists id :: id in users && users[id].email == email
  }

  /**
   * findByEmail of the user repository: the one user with this email, if there is one.
   */
  function FindByEmail(users: map<UserId, User>, email: string): (r: Option<User>)
    requires UsersWellFormed(users)
    ensures r.Some? <==> ExistsByEmail(users, email)
    ensures r.Some? ==> r.value.id in users && users[r.value.id] == r.value && r.value.email == email
  {
    if ExistsByEmail(users, email) then
      var id :| id in users && users[id].email == email;
      Some(users[id])
    else
      None
  }

  /** A row the schema accepts is written; any other is refused. */
  function Checked(row: Task, users: map<UserId, User>): (r: Result<Task, Error>)
    ensures r.Success? <==> TitleFits(row.title) && row.owner in users
    ensures r.Success? ==> r.value == row
    ensures r.Failure? ==> r.error == ConstraintViolation
  {
    if TitleFits(row.title) && row.owner in users then Success(row) else Failure(ConstraintViolation)
  }

  /**
   * The schema check is exactly what keeps the tasks table well formed: a write of a
   * row to a well-formed table is accepted iff the table it leaves is well formed.
   */
  lemma CheckedIffKeepsTasksWellFormed(tasks: map<TaskId, Task>, users: map<UserId, User>, row: Task)
    requires TasksWellFormed(tasks, users)
    ensures Checked(row, users).Success? <==> TasksWellFormed(tasks[row.id := row], users)
  {
    if TasksWellFormed(tasks[row.id := row], users) {
      assert tasks[row.id := row][row.id] == row;
    }
  }

  /** The rows that outlive a write keep their owner and their creation time. */
  ghost predicate ImmutableColumnsKept(before: map<TaskId, Task>, after: map<TaskId, Task>) {
    forall id :: id in before && id in after ==>
      after[id].id == before[id].id && after[id].owner == before[id].owner && after[id].createdAt == before[id].createdAt
  }

  class Database {
    var users: map<UserId, User>
    var tasks: map<TaskId, Task>

    ghost predicate Valid()
      reads this
    {
      UsersWellFormed(users) && TasksWellFormed(tasks, users)
    }

    constructor ()
      ensures Valid() && users == map[] && tasks == map[]
    {
      users := map[];
      tasks := map[];
    }

    /**
     * save() of a new (transient) task entity: the store assigns the generated id,
     * the @PrePersist hook runs, and the row is inserted if the schema accepts it.
     */
    method InsertTask(entity: TaskEntity, freshId: TaskId, now: Timestamp) returns (r: Result<Task, Error>)
      requires Valid()
      requires entity.id.None?
      requires freshId !in tasks
      modifies this`tasks, entity`id, entity`createdAt, entity`status
      ensures Valid()
      ensures entity.Stored()
      ensures entity.Row() == Task(freshId, old(entity.title), old(entity.description), StatusOrPending(old(entity.status)),
                                   now, old(entity.updatedAt), old(entity.owner))
      ensures r == Checked(Task(freshId, old(entity.title), old(entity.description), StatusOrPending(old(entity.status)),
                                now, old(entity.updatedAt), old(entity.owner)), users)
      ensures tasks == if r.Success? then old(tasks)[freshId := r.value] else old(tasks)
    {
      entity.id := Some(freshId);
      entity.OnCreate(now);
      r := Checked(entity.Row(), users);
      if r.Success? {
        tasks := tasks[freshId := r.value];
      }
    }

    /**
     * save() of a managed task entity: the @PreUpdate hook runs and the row is
     * rewritten if the schema accepts it. created_at is not an updatable column, so
     * the stored creation time is kept whatever the entity holds.
     */
    method UpdateTask(entity: TaskEntity, now: Timestamp) returns (r: Result<Task, Error>)
      requires Valid()
      requires entity.id.Some? && entity.id.value in tasks
      modifies this`tasks, entity`updatedAt
      ensures Valid()
      ensures entity.updatedAt == Some(now)
      ensures var stored := old(tasks)[old(entity.id).value];
              r == if old(entity.status).None? then Failure(ConstraintViolation)
                   else Checked(stored.(title := old(entity.title), description := old(entity.description),
                                        status := old(entity.status).value, updatedAt := Some(now),
                                        owner := old(entity.owner)), users)
      ensures tasks == if r.Success? then old(tasks)[old(entity.id).value := r.value] else old(tasks)
    {
      var id := entity.id.value;
      entity.OnUpdate(now);
      if entity.status.None? {
        r := Failure(ConstraintViolation);
      } else {
        var stored := tasks[id];
        r := Checked(stored.(title := entity.title, description := entity.description,
                             status := entity.status.value, updatedAt := entity.updatedAt,
                             owner := entity.owner), users);
        if r.Success? {
          tasks := tasks[id := r.value];
        }
      }
    }

    /** delete() of a task: removes its row and no other. */
    method DeleteTask(task: Task)
      requires Valid()
      modifies this`tasks
      ensures Valid()
      ensures tasks == old(tasks) - {task.id}
    {
      tasks := tasks - {task.id};
    }

    /**
     * save() of a new user. The store is taken to refuse a second row with a taken
     * email (a unique email column); register checks the email before it saves, so it
     * never reaches that branch.
     */
    method SaveUser(user: User) returns (r: Result<User, Error>)
      requires Valid()
      requires user.id !in users
      modifies this`users
      ensures Valid()
      ensures r.Success? <==> !ExistsByEmail(old(users), user.email)
      ensures r.Success? ==> r.value == user && users == old(users)[user.id := user]
      ensures r.Failure? ==> r.error == ConstraintViolation && users == old(users)
    {
      if ExistsByEmail(users, user.email) {
        r := Failure(ConstraintViolation);
      } else {
        users := users[user.id := user];
        r := Success(user);
      }
    }
  }
}
