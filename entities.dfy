/**
 * The persistent entities: users, their roles, and tasks.
 *
 * A stored row of the tasks table is the value `Task`; the mutable JPA entity the
 * service builds, edits with setters and hands to the repository is the class
 * `TaskEntity`, whose lifecycle hooks run just before a row is inserted or updated.
 */
module Entities {
  import opened Wrappers

  /** A UUID, in its canonical text form. */
  type Uuid = string
  type UserId = Uuid
  type TaskId = Uuid

  /** A LocalDateTime, as an abstract instant supplied by the caller. */
  type Timestamp = int

  datatype Role = USER | ADMIN

  /** Enum.name() of a role, as it is handed to the token generator. */
  function RoleName(role: Role): string {
    match role
    case USER => "USER"
    case ADMIN => "ADMIN"
  }

  datatype TaskStatus = PENDING | IN_PROGRESS | COMPLETED

  /** A row of the users table. `password` holds the encoder's output, never the raw password. */
  datatype User = User(id: UserId, name: string, email: string, password: string, role: Role)

  /**
   * A row of the tasks table. Title and status are NOT NULL columns and the owner is a
   * mandatory foreign key, so none of them is optional here; description and updatedAt
   * are nullable.
   */
  datatype Task = Task(
    id: TaskId,
    title: string,
    description: Option<string>,
    status: TaskStatus,
    createdAt: Timestamp,
    updatedAt: Option<Timestamp>,
    owner: UserId)

  /** The declared length of the title column. */
  const MaxTitleLength := 200

  predicate TitleFits(title: string) {
    |title| <= MaxTitleLength
  }

  /** The status a new task gets: the requested one, or PENDING when none is given. */
  function StatusOrPending(status: Option<TaskStatus>): TaskStatus {
    match status
    case Some(given) => given
    case None => PENDING
  }

  /** The mutable task entity; null fields are `None`. */
  class TaskEntity {
    var id: Option<TaskId>
    var title: string
    var description: Option<string>
    var status: Option<TaskStatus>
    var createdAt: Option<Timestamp>
    var updatedAt: Option<Timestamp>
    var owner: UserId

    /** The entity `Task.builder()...build()` yields: not yet persisted, so no id and no timestamps. */
    constructor Build(title: string, description: Option<string>, status: Option<TaskStatus>, owner: UserId)
      ensures this.id == None && this.title == title && this.description == description
      ensures this.status == status && this.owner == owner
      ensures createdAt == None && updatedAt == None
    {
      this.id := None;
      this.title := title;
      this.description := description;
      this.status := status;
      this.createdAt := None;
      this.updatedAt := None;
      this.owner := owner;
    }

    /** The managed entity a repository lookup returns for a stored row. */
    constructor Load(row: Task)
      ensures Stored() && Row() == row
    {
      id := Some(row.id);
      title := row.title;
      description := row.description;
      status := Some(row.status);
      createdAt := Some(row.createdAt);
      updatedAt := row.updatedAt;
      owner := row.owner;
    }

    /** The entity has every field a stored row needs. */
    predicate Stored()
      reads this
    {
      id.Some? && status.Some? && createdAt.Some?
    }

    /** The row this entity writes. */
    function Row(): Task
      reads this
      requires Stored()
    {
      Task(id.value, title, description, status.value, createdAt.value, updatedAt, owner)
    }

    /** The @PrePersist hook: stamps the creation time and defaults a null status to PENDING. */
    method OnCreate(now: Timestamp)
      modifies this`createdAt, this`status
      ensures createdAt == Some(now)
      ensures old(status).None? ==> status == Some(PENDING)
      ensures old(status).Some? ==> status == old(status)
    {
      createdAt := Some(now);
      if status.None? {
        status := Some(PENDING);
      }
    }

    /** The @PreUpdate hook: stamps the update time and touches nothing else. */
    method OnUpdate(now: Timestamp)
      modifies this`updatedAt
      ensures updatedAt == Some(now)
    {
      updatedAt := Some(now);
    }
  }
}
