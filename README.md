# Kanban business rules in Dafny

A model of the business-rule layer of the Kanban board backend
(`com.projeto.quadrokanban`). The layer has three workflows:

- **Task.** Create, update, delete and query tasks. Every create and update is first checked by the task rule validator:
  - a DONE task needs a responsible user;
  - a user may hold at most five DOING tasks.
  A task is attached only to a board that exists. A newly assigned responsible user is notified.
- **Board.** CRUD, task counting, status queries, and finalisation. Finalisation turns a board COMPLETED only when all of its tasks are DONE.
- **User.** CRUD behind an existence check.

There are two copies of the board-existence gate:
- `util.validation` reports a missing board as `BoardNotFound`; the board workflow uses it.
- `core.usecase` throws a plain runtime exception, modelled as `BoardMissing`; the task workflow uses it.

How the model is built:
- **Store.** The output ports are modelled by one object, `Store.Store`. It holds a map per entity keyed by id, an id counter per entity, and a ghost log of the notifications dispatched. Its `Valid()` invariant says:
  - every record sits under its own id;
  - every id is below the next id to hand out.
- **Operations that write.** Create, update, delete and finalize are methods on the store. Their postconditions state the whole new state and the result, including the error cases, in the order the code checks them.
- **Read-only operations.** The rule validator, the gates and the queries are functions over map snapshots.
- **Strings.** Status path parameters are upper-cased and matched against the enum names. Due dates are parsed in the pattern `yyyy-MM-dd`. Both steps are modelled in `Parsing`.

The SQL functions behind the ports (`count_doing_tasks_by_user`, `check_if_board_is_complete`, `countTasksByBoard`, `get_task_by_*`) are not part of this model. Each is defined in `Store` as the map predicate it evidently computes.

Where the documented design and the code disagree, the model follows the code:

- **The self-discount of the DOING cap.** The validator takes one off the user's DOING count when the record stored under the *payload's* id is DOING. It looks only at the stored status, not at the stored user.
  - `TaskRules.DoingPassesIffFewerThanFiveOthers` and `TaskRules.DoingCapPreserved` state the cap under the proviso this needs.
  - `TaskRules.ReassignedDoingTaskExceedsCap` and `TaskRules.DiscountOnOtherRecordExceedsCap` show a sixth DOING task getting through without it.
  - The documented design says that updating a task already DOING for a user does not count it twice. The code discounts only when the payload carries an id, and the update payloads the tests build have none. `TaskRules.PayloadWithoutIdCountsItself` shows that a user with five DOING tasks is then refused when saving one of them again as DOING.
- **`updateTask` validates the payload, not the merged record**, and it resolves the payload's board.
- **`createTaskWithBoard` attaches the board named by its id argument**, not the task's own board.
- **`updateBoard` copies the status verbatim**, so a COMPLETED board can be set back to ACTIVE. Only finalisation looks at the board's tasks.
- **The task workflow's gate throws a plain runtime exception** (`BoardMissing` here), not `BoardNotFound`.
- **Deleting a board removes its tasks**, following the documented ownership. The `pr_delete_board` procedure is not part of this model.

## Model

| member | source | states |
|---|---|---|
| TaskRules.ValidateTaskRules | src/main/java/com/projeto/quadrokanban/core/usecase/ValidateTaskRules.java:18-41 | A DONE task without a user fails with the DONE message. TODO tasks, DONE tasks with a user and DOING tasks without a user pass without reading the store. A DOING task with a user fails (with the limit message) exactly when the user's stored DOING count is at least 5, or at least 6 when the record stored under the task's id is DOING. |
| TaskRules.DoingPassesIffFewerThanFiveOthers | src/main/java/com/projeto/quadrokanban/core/usecase/ValidateTaskRules.java:24-39 | Unless the record under the task's id is another user's DOING task, a DOING task of u passes exactly when u has fewer than five other stored DOING tasks. |
| TaskRules.RulesIgnoreStoreUnlessDoing | src/main/java/com/projeto/quadrokanban/core/usecase/ValidateTaskRules.java:19-25 | For any task other than a DOING task with a user, the verdict is the same on every store. |
| TaskRules.DoingCapPreserved | src/main/java/com/projeto/quadrokanban/core/usecase/ValidateTaskRules.java:24-39 | The write that follows a passing validation leaves u with at most five DOING tasks. This holds when the write goes to the record the task's id names (or the task has no id) and that record is not another user's DOING task. |
| TaskRules.ReassignedDoingTaskExceedsCap | src/main/java/com/projeto/quadrokanban/core/usecase/ValidateTaskRules.java:29-35 | A user with five DOING tasks passes validation when taking over another user's DOING task, and the write leaves the user with six. |
| TaskRules.PayloadWithoutIdCountsItself | src/main/java/com/projeto/quadrokanban/core/usecase/ValidateTaskRules.java:29-38 | A DOING payload of u without id is refused when u already has five DOING tasks, even when the write would overwrite one of them and leave the count at five. |
| TaskRules.DiscountOnOtherRecordExceedsCap | src/main/java/com/projeto/quadrokanban/core/usecase/ValidateTaskRules.java:29-35 | An update whose path id differs from the payload's id can get through. The payload's id names a DOING task of u, and the written record k is stored but not a DOING task of u. Then a user with five DOING tasks passes validation and ends with six. |
| Store.CountDoingAfterWrite | src/main/java/com/projeto/quadrokanban/adapter/output/repository/TaskRepository.java:211-215 | Overwriting one task record changes the user's DOING count by what the new record adds minus what the old record contributed. |
| Store.Store.constructor | src/main/java/com/projeto/quadrokanban/adapter/output/repository/TaskRepository.java:30-33 | The store starts empty, with no notification sent, and satisfies its invariant. |
| Store.Store.SaveTask | src/main/java/com/projeto/quadrokanban/adapter/output/repository/TaskRepository.java:65-150 | Upsert. A task without id is stored under a fresh id; a task with an id overwrites that record. The saved task is returned with its id, and the invariant is kept. |
| Store.Store.DeleteTask | src/main/java/com/projeto/quadrokanban/adapter/output/repository/TaskRepository.java:153-164 | Exactly that key leaves the task map. |
| Store.Store.SaveBoard | src/main/java/com/projeto/quadrokanban/core/port/output/BoardOutputPort.java:16 | Upsert, like SaveTask: a board without id is stored under a fresh id, a board with an id overwrites that record, and the saved board is returned. |
| Store.Store.DeleteBoard | src/main/java/com/projeto/quadrokanban/core/port/output/BoardOutputPort.java:18 | The board leaves the board map, and exactly the tasks on that board leave the task map. |
| Store.Store.UpdateBoardStatus | src/main/java/com/projeto/quadrokanban/core/usecase/BoardUseCase.java:82 | Only the status of that one board changes. |
| Store.Store.SaveUser | src/main/java/com/projeto/quadrokanban/adapter/output/repository/UserRepository.java:51-81 | Upsert of id, name and email: a fresh id for a user without one, otherwise that record is overwritten. |
| Store.Store.DeleteUser | src/main/java/com/projeto/quadrokanban/adapter/output/repository/UserRepository.java:82-91 | Exactly that key leaves the user map. |
| Store.Store.Notify | src/main/java/com/projeto/quadrokanban/core/port/output/NotificationOutputPort.java:6 | The task is appended to the log of notifications. |
| UtilBoardValidator.ValidateBoardExists | src/main/java/com/projeto/quadrokanban/util/validation/BoardValidatorService.java:17-20 | Returns Ok exactly when an id is given and stored, and the value is the stored board. Otherwise the result is BoardNotFound("Board does not exist"). |
| CoreBoardValidator.ValidateBoardExists | src/main/java/com/projeto/quadrokanban/core/usecase/BoardValidatorService.java:16-19 | Accepts the same ids and returns the same board, but a missing board is BoardMissing("Board does not exist"). |
| CoreBoardValidator.GatesDifferOnlyInErrorKind | src/main/java/com/projeto/quadrokanban/core/usecase/BoardValidatorService.java:16-19 | The two gates agree on acceptance and on the board returned. On a miss they differ only in the error kind; the message is the same. |
| TaskUseCase.GetById | src/main/java/com/projeto/quadrokanban/core/usecase/TaskUseCase.java:42-45 | Returns Ok exactly when the id is stored, with the stored task; otherwise TaskNotFound("Task not found."). |
| TaskUseCase.UpdateTask | src/main/java/com/projeto/quadrokanban/core/usecase/TaskUseCase.java:52-73 | Errors come in order: the rule error, then TaskNotFound, then the gate's error. A failure writes nothing and notifies no one. When all three checks pass, the update succeeds and: <br>- id and timestamps are kept; <br>- title, description, status, due date and user come from the payload, and the board is the resolved board; <br>- exactly that record is overwritten; <br>- the updated task is notified exactly when the new user is set and differs from the previous one; <br>- a user stays within five DOING tasks when the payload has no id, or the path id, and that record was not another user's DOING task. |
| TaskUseCase.DeleteTask | src/main/java/com/projeto/quadrokanban/core/usecase/TaskUseCase.java:75-79 | Passes exactly when the id is stored and then removes exactly that key. Otherwise it fails with TaskNotFound and nothing changes. |
| TaskUseCase.CreateTaskWithBoard | src/main/java/com/projeto/quadrokanban/core/usecase/TaskUseCase.java:81-93 | The rule error comes first, then the gate's error for the id argument, and a failure writes nothing. When the rules pass and the board exists, the create succeeds. The saved task is the payload with the resolved board and an id, stored under that id. The saved task is notified exactly when it has a user. The user stays within five DOING tasks unless the payload's id names another user's DOING task. |
| TaskUseCase.GetByStatus | src/main/java/com/projeto/quadrokanban/core/usecase/TaskUseCase.java:95-102 | Fails with InvalidStatus("Invalid status.") exactly when the string is no status name in any case. Otherwise it returns exactly the stored tasks whose status name is the upper-cased argument. |
| TaskUseCase.GetTaskByBoard | src/main/java/com/projeto/quadrokanban/core/usecase/TaskUseCase.java:104-107 | Returns the gate's error exactly when the board is unknown; otherwise exactly the stored tasks on that board. |
| TaskUseCase.GetByBoardAndStatus | src/main/java/com/projeto/quadrokanban/core/usecase/TaskUseCase.java:109-117 | An unknown board is reported before a bad status. A stored board with a status that parses gives Ok, and the result is exactly the stored tasks on that board with that status. |
| TaskUseCase.WithinDayIffSameDate | src/main/java/com/projeto/quadrokanban/adapter/output/repository/TaskRepository.java:198-209 | A time of day lies between 00:00:00 and 23:59:59 of day d exactly when it falls on d. |
| TaskUseCase.GetByDueDate | src/main/java/com/projeto/quadrokanban/core/usecase/TaskUseCase.java:123-134 | Fails with InvalidDateFormat exactly when the text does not parse as yyyy-MM-dd. Otherwise it returns stored tasks only, with the records unchanged. Every task returned whose due time is a time of day falls on the parsed date, and every such task on that date is returned. |
| BoardUseCase.GetById | src/main/java/com/projeto/quadrokanban/core/usecase/BoardUseCase.java:31-33 | Returns Ok exactly when the id is stored, with the stored board; otherwise BoardNotFound. |
| BoardUseCase.CreatedBoard | src/main/java/com/projeto/quadrokanban/core/usecase/BoardUseCase.java:39-41 | Saves without checks. The board returned and stored has the caller's name and status; a board without id gets a fresh one. |
| BoardUseCase.UpdateBoard | src/main/java/com/projeto/quadrokanban/core/usecase/BoardUseCase.java:44-51 | An unknown id is BoardNotFound and nothing changes. Otherwise the board keeps its id and takes the new name and the new status verbatim, COMPLETED back to ACTIVE included. Exactly that record is overwritten. |
| BoardUseCase.DeleteBoard | src/main/java/com/projeto/quadrokanban/core/usecase/BoardUseCase.java:53-56 | An unknown id is BoardNotFound and nothing changes. Otherwise the board goes and so do exactly its tasks; every other task is untouched. |
| BoardUseCase.CountTasks | src/main/java/com/projeto/quadrokanban/core/usecase/BoardUseCase.java:58-61 | An unknown id is BoardNotFound. Otherwise the result is the number of stored ids whose task is on the board. It is at most the number of stored tasks, and 0 for a board without tasks. |
| BoardUseCase.GetByStatus | src/main/java/com/projeto/quadrokanban/core/usecase/BoardUseCase.java:67-74 | Fails with InvalidStatus exactly when the string is no board status name in any case. Otherwise it returns exactly the boards with that status. |
| BoardUseCase.Finalize | src/main/java/com/projeto/quadrokanban/core/usecase/BoardUseCase.java:77-86 | Three cases: <br>- an unknown board is BoardNotFound and nothing changes; <br>- a board whose tasks are all DONE becomes COMPLETED, with name and id kept and every other board unchanged; <br>- otherwise the result is BoardValidation("Cannot finalize board with pending tasks.") and the boards are unchanged. |
| BoardUseCase.FinalizedBoard | src/main/java/com/projeto/quadrokanban/core/usecase/BoardUseCase.java:77-86 | The outcome and the new boards are those of Finalize on the old store. |
| BoardUseCase.FinalizeIdempotent | src/main/java/com/projeto/quadrokanban/core/usecase/BoardUseCase.java:77-86 | Finalising again a board that was just finalised succeeds and changes nothing further. |
| UserUseCase.GetUserById | src/main/java/com/projeto/quadrokanban/core/usecase/UserUseCase.java:25-28 | Returns Ok exactly when the id is stored, with the stored user; otherwise UserNotFound("User not found."). |
| UserUseCase.CreatedUser | src/main/java/com/projeto/quadrokanban/core/usecase/UserUseCase.java:32-34 | Saves without checks. A new user gets a fresh id, and the name and email are the caller's. |
| UserUseCase.DeleteUser | src/main/java/com/projeto/quadrokanban/core/usecase/UserUseCase.java:37-41 | Passes exactly when the id is stored and then removes exactly that key. Otherwise it fails with UserNotFound and nothing changes. |
| UserUseCase.UpdateUser | src/main/java/com/projeto/quadrokanban/core/usecase/UserUseCase.java:43-49 | An unknown id is UserNotFound and nothing changes. Otherwise the id is kept, the name and email are overwritten, and exactly that record changes. |
| Parsing.UpperIgnoresCase | src/main/java/com/projeto/quadrokanban/core/usecase/TaskUseCase.java:97 | Upper-casing gives the same text whether the input was lower-cased first or upper-cased already. |
| Parsing.StatusParsingIgnoresCase | src/main/java/com/projeto/quadrokanban/core/usecase/TaskUseCase.java:95-102 | Task and board status parsing give the same result on a text, its lower-cased form and its upper-cased form. |
| Parsing.DotlessIAccepted | src/main/java/com/projeto/quadrokanban/core/usecase/BoardUseCase.java:67-74 | The dotless ı upper-cases to I, so "doıng" parses as DOING and "actıve" as ACTIVE. |
| Parsing.UpperOfLower | src/main/java/com/projeto/quadrokanban/core/usecase/TaskUseCase.java:97 | Upper-casing undoes lower-casing on a word of capital letters. |
| Parsing.ParseTaskStatus | src/main/java/com/projeto/quadrokanban/core/usecase/TaskUseCase.java:95-102 | Yields status st exactly when the upper-cased string is st's name. |
| Parsing.ParseBoardStatus | src/main/java/com/projeto/quadrokanban/core/usecase/BoardUseCase.java:67-74 | Yields status st exactly when the upper-cased string is st's name. |
| Parsing.TaskStatusParsesInAnyCase | src/main/java/com/projeto/quadrokanban/core/usecase/TaskUseCase.java:95-102 | Every task status is recognised from its name in upper and in lower case. |
| Parsing.BoardStatusParsesInAnyCase | src/main/java/com/projeto/quadrokanban/core/usecase/BoardUseCase.java:67-74 | Every board status is recognised from its name in upper and in lower case. |
| Parsing.TaskStatusRejectsOtherLengths | src/main/java/com/projeto/quadrokanban/core/usecase/TaskUseCase.java:95-102 | A string of any length other than 4 or 5 is rejected. |
| Parsing.ParseDate | src/main/java/com/projeto/quadrokanban/core/usecase/TaskUseCase.java:123-134 | Anything accepted has the shape DDDD-DD-DD and is a real calendar date with a four-digit year. |
| Parsing.FormatDate | src/main/java/com/projeto/quadrokanban/core/usecase/TaskUseCase.java:123-134 | The text has the shape DDDD-DD-DD. |
| Parsing.ParseFormatDate | src/main/java/com/projeto/quadrokanban/core/usecase/TaskUseCase.java:123-134 | Parsing the yyyy-MM-dd text of any valid date with a four-digit year gives the date back. |
| Parsing.SlashedDateRejected | src/main/java/com/projeto/quadrokanban/core/usecase/TaskUseCase.java:128-132 | "09/10/2025" is an invalid date format. |
| Parsing.IsoDateAccepted | src/main/java/com/projeto/quadrokanban/core/usecase/TaskUseCase.java:125-128 | "2025-10-09" parses to 9 October 2025. |
| Parsing.ShortMonthDayClamped | src/main/java/com/projeto/quadrokanban/core/usecase/TaskUseCase.java:125-128 | Day 30 of February is moved back to the 28th, or the 29th in a leap year. |
| Parsing.OutOfRangeFieldsRejected | src/main/java/com/projeto/quadrokanban/core/usecase/TaskUseCase.java:128-132 | Month 13, day 32 and year 0 are rejected. |

## Left out

- HTTP controllers, Swagger and the exception handler: they only translate the use cases' errors into responses.
- JDBC and the SQL functions and procedures: these are not part of this model. The store queries are defined as the map predicates they evidently compute:
  - a board without tasks counts as all DONE;
  - a board's task count is 0 when it has none.
- List order: query results are maps keyed by id. The order the SQL returns rows in is not modelled.
- `created_at` and `updated_at` are assigned by the database. The model keeps whatever the record holds.
- The console output of the notification adapter: only the fact that a notification is sent, and with which task, is recorded, in a ghost log.
- Concurrency: calls are sequential. Two concurrent DOING updates can both pass the cap in the real system.
- The pass-through queries `getAll`, `getByTitle`, `getLastCreatedTask`, `getAllBoards`, `getByName`, `getAllUsers` and `getUserByName`: each only forwards to a store query whose SQL is not part of this model.
- `getBoadsWithOverdueTasks`: it depends on the database clock.
- Parsing.ToUpperCase: maps the ASCII small letters and the dotless ı (U+0131) to capitals and keeps every other character. Java's full Unicode case mapping is not modelled. That includes characters that expand to several (ß to SS) and the Turkish and Azeri locales, where i upper-cases to İ and "doing" would not parse. The default locale is taken to be neither of those.
- Parsing.ParseDate: accepts four-digit years only. `java.time` also reads signed and longer years, which are rejected here.
- TaskUseCase.GetByDueDate: a due time with sub-second precision, or outside the 24-hour clock, is not described. Seconds are whole in the model.
- TaskUseCase.UpdateTask: requires a payload board. The code dereferences it and fails with a null-pointer error when it is absent, and that path is not modelled. A payload board without id is modelled as the gate's error.
- A null status string in `getByStatus` and `getByBoardAndStatus`: a null-pointer failure in the code; strings are never null here.
- The JDBC board adapter hands `upsert_board` only the id and the name. Whether the database then keeps a board's status on update is decided by SQL that is not part of this model. The store port is modelled as saving the whole board, as the use cases hand it over.
- The notification is sent before the save in `updateTask`. The model records which task is notified, not the order of the two calls.
- Integer widths: ids and counts are unbounded naturals. Java's `Long` does not overflow at realistic sizes.
