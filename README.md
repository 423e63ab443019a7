# Task Management System: authorization and ownership rules

This project models the core of a task-tracking API in which every task has one owner and
administrators manage everyone's tasks. It covers:

- the task service: create, list, read, update and delete tasks, and list another user's
  tasks (admin only), each governed by the caller's role and by ownership;
- the authentication service: registration (unique email, role USER, encoded password,
  a bearer token) and login (one error for every kind of bad credentials);
- the task entity with its lifecycle hooks (`@PrePersist`, `@PreUpdate`) and column constraints;
- the task repository's derived queries, as functions of the tasks table.

Layout, one module per file:

| file | module | models |
|---|---|---|
| `wrappers.dfy` | `Wrappers` | `Option` (null / `Optional`) and `Result` (a value or a thrown exception) |
| `errors.dfy` | `Errors` | the exception classes the services raise |
| `entities.dfy` | `Entities` | `User`, `Role`, `TaskStatus`, the stored row `Task`, the mutable entity `TaskEntity` and its hooks |
| `task_repository.dfy` | `TaskRepository` | `findById`, `findAll`, `findByUserId`, `findByUserIdAndStatus`, `findByIdAndUserId` |
| `persistence.dfy` | `Persistence` | the shared store `Database` (users and tasks tables), its schema constraints, `save`/`delete`, `existsByEmail`/`findByEmail` |
| `task_service.dfy` | `TaskManagement` | the task service; reads are functions of the tables, writes are methods of `TaskService` |
| `auth_service.dfy` | `Authentication` | the authentication service; `Register` is a method of `AuthService`, `Login` a function of the users table |

The model's terms:

- **Caller.** The user on whose behalf a request runs. The service obtains this user from the
  request's security context. Here it is an explicit `caller: User` argument.
- **Ownership policy.** `TaskManagement.MayAccess`: an ADMIN may act on every task; any other
  caller may act only on tasks whose owner id is their own id.
- **Reads versus writes.** A non-admin reading a task that is not theirs gets
  `ResourceNotFound("Task not found or access denied")`, the same error as for a missing id.
  Updating or deleting such a task gets `Unauthorized("Access denied to task with id: …")`.
  `ForeignTaskHiddenFromReadsRefusedToWrites` pins this asymmetry down.
- **Admin-only listing.** The `hasRole('ADMIN')` guard on the endpoint of `getTasksByUserId`
  becomes an explicit error branch, `AccessDenied`, in `GetTasksByUserId`.
- **Lifecycle hooks.** Saving a new entity assigns the generated id and runs `OnCreate`: the
  creation time is stamped and a null status becomes PENDING. Saving a loaded entity runs
  `OnUpdate`: the update time is stamped. `created_at` is not an updatable column, so the stored
  creation time survives every update. `ImmutableColumnsKept` states this, together with
  "the owner never changes".
- **Schema constraints.** The store accepts a row only if its title fits the 200-character
  column and its owner exists. Approved rows keep `Database.Valid()`: users keyed by id with
  unique emails, and tasks keyed by id with fitting titles and existing owners.
- **Collaborators.** `Crypto` supplies password encoding `encode(raw, salt)`, the matcher
  `matches(raw, encoded)` and `generateToken(email, roleName)` as plain functions. The
  encoder's randomness is the explicit `salt` argument. The only property assumed of them is
  `EncoderSound` (a password matches its own encoding), and only in `RegisterThenLogin`.
- **Inputs from outside.** The clock and the id generator become arguments (`now`, `freshId`).
  A fresh id is required not to be in its table already.

## Model

| member | source | states |
|---|---|---|
| `Entities.TaskEntity.Build` | src/main/java/com/assignment/TaskManagementSystem/service/impl/TaskServiceImpl.java:33-38 | the builder yields a transient entity: no id and no timestamps, with the given title, description, status and owner |
| `Entities.TaskEntity.Load` | src/main/java/com/assignment/TaskManagementSystem/service/impl/TaskServiceImpl.java:113-117 | the managed entity a lookup returns has every field of the stored row it was loaded from |
| `Entities.TaskEntity.OnCreate` | src/main/java/com/assignment/TaskManagementSystem/entity/Task.java:44-50 | stamps createdAt with the current time; a null status becomes PENDING, a non-null one is kept; the frame allows no other field to change |
| `Entities.TaskEntity.OnUpdate` | src/main/java/com/assignment/TaskManagementSystem/entity/Task.java:52-55 | stamps updatedAt and, by its frame, changes no other field |
| `TaskRepository.FindById` | src/main/java/com/assignment/TaskManagementSystem/service/impl/TaskServiceImpl.java:66-67 | the inherited primary-key lookup is present exactly for a stored id, and then is the row stored under it, whose id is that id |
| `TaskRepository.FindAll` | src/main/java/com/assignment/TaskManagementSystem/service/impl/TaskServiceImpl.java:50 | the inherited findAll holds every stored row and only stored rows; in a keyed table each sits under its own id |
| `TaskRepository.FindByUserId` | src/main/java/com/assignment/TaskManagementSystem/repository/TaskRepository.java:15 | exactly the stored rows whose owner is the user: a subset of findAll, all owned by the user, and none of the user's rows missing |
| `TaskRepository.FindByUserIdAndStatus` | src/main/java/com/assignment/TaskManagementSystem/repository/TaskRepository.java:17 | exactly the stored rows with that owner and that status, none missing |
| `TaskRepository.FindByIdAndUserId` | src/main/java/com/assignment/TaskManagementSystem/repository/TaskRepository.java:13-19 | the row-filtering query is present iff the task exists and is owned by the user, and then equals findById |
| `TaskRepository.RowWithIdIsKeyed` | src/main/java/com/assignment/TaskManagementSystem/entity/Task.java:19-21 | a stored row is the one stored under its own primary key |
| `TaskRepository.OwnerQueriesAgree` | src/main/java/com/assignment/TaskManagementSystem/repository/TaskRepository.java:15-19 | a row is in findByUserId(u) iff findByIdAndUserId(its id, u) returns it |
| `TaskRepository.StatusQueriesPartitionOwnerQuery` | src/main/java/com/assignment/TaskManagementSystem/repository/TaskRepository.java:15-17 | the status queries split findByUserId(u): each lies inside it, different statuses share no row, and each of u's rows is in the query for its own status |
| `TaskRepository.OwnerQueriesPartitionTable` | src/main/java/com/assignment/TaskManagementSystem/repository/TaskRepository.java:13-15 | different owners' findByUserId results are disjoint, and every row of findAll is in its owner's result |
| `Persistence.ExistsByEmail` | src/main/java/com/assignment/TaskManagementSystem/service/impl/AuthServiceImpl.java:28 | existsByEmail holds exactly when the email is among the registered emails |
| `Persistence.FindByEmail` | src/main/java/com/assignment/TaskManagementSystem/service/impl/AuthServiceImpl.java:54-56 | present iff some stored user has the email, and then it is that stored user |
| `Persistence.CheckedIffKeepsTasksWellFormed` | src/main/java/com/assignment/TaskManagementSystem/entity/Task.java:23-42 | the schema check (title of at most 200 characters, existing owner) accepts a row written to a well-formed tasks table exactly when the table it leaves is well formed |
| `Persistence.Database.InsertTask` | src/main/java/com/assignment/TaskManagementSystem/entity/Task.java:19-50 | saving a new entity stores exactly one row under the fresh id, with the PrePersist defaults (createdAt = now, status or PENDING), or stores nothing if the schema refuses it; the store stays valid; the entity itself now holds the fresh id, createdAt = now and the status or PENDING, its other fields as they were |
| `Persistence.Database.UpdateTask` | src/main/java/com/assignment/TaskManagementSystem/entity/Task.java:33-55 | saving a loaded entity rewrites only its own row, with the entity's columns, updatedAt = now and the stored createdAt kept; a null status or a refused row stores nothing; the entity's updatedAt is now, no other field of it changes |
| `Persistence.Database.DeleteTask` | src/main/java/com/assignment/TaskManagementSystem/service/impl/TaskServiceImpl.java:93 | removes exactly the task's row and no other |
| `Persistence.Database.SaveUser` | src/main/java/com/assignment/TaskManagementSystem/service/impl/AuthServiceImpl.java:39 | inserts the user iff its email is not taken (an assumed unique email column, see Left out); otherwise the table is unchanged; email uniqueness is preserved |
| `TaskManagement.MapToTaskResponse` | src/main/java/com/assignment/TaskManagementSystem/service/impl/TaskServiceImpl.java:127-138 | the response carries every column of the task, plus its owner's name and email |
| `TaskManagement.GetAllTasks` | src/main/java/com/assignment/TaskManagementSystem/service/impl/TaskServiceImpl.java:45-58 | the responses for exactly the tasks the caller may access: all of them for an ADMIN, the caller's own otherwise |
| `TaskManagement.GetTaskById` | src/main/java/com/assignment/TaskManagementSystem/service/impl/TaskServiceImpl.java:61-74 | succeeds iff the task exists and the caller may access it; an ADMIN's miss is "Task not found with id: …"; every other caller's failure is the one ResourceNotFound "Task not found or access denied" |
| `TaskManagement.GetTaskEntity` | src/main/java/com/assignment/TaskManagementSystem/service/impl/TaskServiceImpl.java:109-119 | returns the stored row iff it exists and the caller may access it; an ADMIN's miss is ResourceNotFound; every other caller's failure is Unauthorized "Access denied to task with id: …" |
| `TaskManagement.GetTasksByUserId` | src/main/java/com/assignment/TaskManagementSystem/service/impl/TaskServiceImpl.java:97-106 | refused unless the caller is an ADMIN (the guard of TaskController.java:62); ResourceNotFound for an unknown user id; otherwise exactly that user's tasks |
| `TaskManagement.TaskService.CreateTask` | src/main/java/com/assignment/TaskManagementSystem/service/impl/TaskServiceImpl.java:30-42 | stores one new task owned by the caller, with the requested status or PENDING and createdAt = now, and returns its response; a title too long for its column stores nothing |
| `TaskManagement.TaskService.UpdateTask` | src/main/java/com/assignment/TaskManagementSystem/service/impl/TaskServiceImpl.java:77-88 | behind the getTaskEntity guard, rewrites title and description, the status only when one is given, and sets updatedAt; id, owner and createdAt are kept, all other tasks unchanged; a refusal changes nothing |
| `TaskManagement.TaskService.DeleteTask` | src/main/java/com/assignment/TaskManagementSystem/service/impl/TaskServiceImpl.java:91-94 | behind the getTaskEntity guard, removes exactly the targeted task; a refusal changes nothing |
| `TaskManagement.ListedIffReadable` | src/main/java/com/assignment/TaskManagementSystem/service/impl/TaskServiceImpl.java:45-74 | a task is readable by id exactly when it appears in the caller's list of tasks |
| `TaskManagement.ForeignTaskHiddenFromReadsRefusedToWrites` | src/main/java/com/assignment/TaskManagementSystem/service/impl/TaskServiceImpl.java:68-117 | for a non-admin, another user's task reads exactly like a deleted one (ResourceNotFound), while update/delete of it fail with Unauthorized |
| `TaskManagement.ReadAndWriteGuardsAgree` | src/main/java/com/assignment/TaskManagementSystem/service/impl/TaskServiceImpl.java:61-119 | the read guard and the write guard let through the same (caller, task) pairs and the same row; for an ADMIN both report a miss as ResourceNotFound |
| `TaskManagement.AdminListingMatchesOwnListing` | src/main/java/com/assignment/TaskManagementSystem/service/impl/TaskServiceImpl.java:44-106 | what an ADMIN lists for a non-admin user is exactly that user's own getAllTasks |
| `TaskManagement.CreatedTaskVisibility` | src/main/java/com/assignment/TaskManagementSystem/service/impl/TaskServiceImpl.java:30-74 | a newly created task keeps the tables well formed and is readable by its creator and by ADMINs only |
| `TaskManagement.DeletedTaskIsGone` | src/main/java/com/assignment/TaskManagementSystem/service/impl/TaskServiceImpl.java:61-94 | after a delete, nobody can read the task by id |
| `TaskManagement.UpdateIsIdempotent` | src/main/java/com/assignment/TaskManagementSystem/service/impl/TaskServiceImpl.java:80-84 | a second update overwrites the first completely, at whatever times both are made: the same request twice stores what the later one alone does, and so does any second request unless the first set a status the second leaves alone |
| `Authentication.Respond` | src/main/java/com/assignment/TaskManagementSystem/dto/AuthResponse.java:13-14 | the response built from a token carries that token and the default token type "Bearer" |
| `Authentication.Login` | src/main/java/com/assignment/TaskManagementSystem/service/impl/AuthServiceImpl.java:52-73 | succeeds iff a stored user has the email and the password matches the stored encoding, then returns that user's token (email, role name) with type "Bearer"; every failure is the same Unauthorized "Invalid email or password"; the table is not written |
| `Authentication.AuthService.Register` | src/main/java/com/assignment/TaskManagementSystem/service/impl/AuthServiceImpl.java:26-49 | a taken email raises DuplicateResource "Email already exists" and adds nothing; otherwise adds exactly one user (name, email, encode(password), USER) and returns generateToken(email, "USER") with type "Bearer"; the tasks table is untouched |
| `Authentication.RegisterAddsOneEmail` | src/main/java/com/assignment/TaskManagementSystem/service/impl/AuthServiceImpl.java:28-39 | a successful register keeps emails unique, grows the email set by exactly the new email, and grows the table by one row |
| `Authentication.RegisteredEmailIsTaken` | src/main/java/com/assignment/TaskManagementSystem/service/impl/AuthServiceImpl.java:28-30 | after a register the email is taken, so a second register of it is refused |
| `Authentication.RegisterThenLogin` | src/main/java/com/assignment/TaskManagementSystem/service/impl/AuthServiceImpl.java:26-73 | with a sound encoder, logging in with freshly registered credentials succeeds and returns, with type "Bearer", a token generated for the same email and role USER, as register's did |
| `Authentication.LoginFailuresIndistinguishable` | src/main/java/com/assignment/TaskManagementSystem/service/impl/AuthServiceImpl.java:54-63 | login with an unknown email and login with a wrong password yield identical results |

## Left out

- Password hashing (BCrypt) and token signing: `JwtService` and the encoder are not part of this
  model. They are functions in `Crypto`. `generateToken` depends only on the subject and the
  role name, so the token's issued-at time and expiry are not modelled: tokens issued at
  different times for the same user are not told apart, and "login returns the token register
  returned" means "a token generated for the same email and role".
- The authentication filter, the filter chain with its path allow-list, and the HTTP status
  mapping are framework routing. `SecurityConfig.java`, `AuthController.java` and
  `TaskController.java` are not modelled, except the admin-only rule of TaskController.java:62.
  `OpenAPIConfig.java` is documentation metadata.
- The security-context lookup is left out: the caller is an explicit argument. `CreateTask`
  requires the caller to be the stored user with that id, as the authentication filter ensures.
- The clock and the UUID generator are left out: `now` and `freshId` are arguments. A fresh id is
  required to be absent from its table.
- The check-then-insert race in register is left out: the store is sequential.
- Persistence.Database.SaveUser: its refusal of a taken email stands for a unique constraint on the email
  column that is assumed, declared by no modelled file (`User.java` is not modelled, and
  AuthServiceImpl.java:39 is a bare save). Register never reaches that branch:
  its own existsByEmail check (AuthServiceImpl.java:28) already keeps emails unique in a
  sequential store.
- List order is left out. The queries and listings return sets because the repository queries
  have no ORDER BY.
- Persistence edge cases are left out. `Database.UpdateTask` runs the PreUpdate hook on every
  update save, whereas the persistence provider skips it when no column changed. `save` branches
  on whether the entity is new; that branch is modelled as two methods, `InsertTask` and
  `UpdateTask`.
- Request validation is left out. `TaskRequest` and `RegisterRequest` are not part of this model,
  so null request fields (null title, null email) are not modelled: their text fields are plain
  strings. A title over 200 characters is refused by the store's column constraint.
- `User.java`, `Role.java`, `TaskStatus.java` and `UserRepository.java` are not part of this
  model. The roles USER and ADMIN and the status PENDING are the values the code names. IN_PROGRESS
  and COMPLETED stand in for the other statuses; no property depends on them.
- A non-admin's write to someone else's task raises UnauthorizedException ("Access denied to
  task with id: …"), and so does a non-admin's write to a missing id (TaskServiceImpl.java:116-117);
  the model follows the code.
