/**
 * Value types of the Kanban core: the three entities (Board, Task, User),
 * their status enumerations, calendar dates, and the error taxonomy that
 * the use cases raise. Java's nullable references become Option values.
 */
module Domain {

  datatype Option<+T> = None | Some(value: T)

  /** The exceptions the use cases throw, each with the message it carries. */
  datatype Error =
    | TaskNotFound(message: string)      // TaskNotFoundException
    | BoardNotFound(message: string)     // BoardNotFoundException (util.validation gate)
    | BoardMissing(message: string)      // plain RuntimeException (core.usecase gate)
    | UserNotFound(message: string)      // UserNotFoundException
    | TaskValidation(message: string)    // TaskValidationException
    | BoardValidation(message: string)   // BoardValidationException
    | InvalidStatus(message: string)     // InvalidStatusException
    | InvalidDateFormat(message: string) // InvalidDateFormatException

  /** A value-returning operation either returns normally or throws. */
  datatype Result<+T> = Ok(value: T) | Err(error: Error)

  /** A void operation either returns normally or throws. */
  datatype Outcome = Pass | Fail(error: Error)

  datatype TaskStatus = TODO | DOING | DONE
  datatype BoardStatus = ACTIVE | COMPLETED

  /** A calendar date (java.time.LocalDate). */
  datatype Date = Date(year: nat, month: nat, day: nat)

  /** A date with a time of day to the second (java.time.LocalDateTime). */
  datatype DateTime = DateTime(date: Date, hour: nat, minute: nat, second: nat)

  datatype Board = Board(id: Option<nat>, name: string, status: BoardStatus)

  datatype Task = Task(
    id: Option<nat>,
    title: string,
    description: string,
    createdAt: Option<DateTime>,
    updatedAt: Option<DateTime>,
    status: TaskStatus,
    board: Option<Board>,
    dueDate: Option<DateTime>,
    userId: Option<nat>)

  datatype User = User(id: Option<nat>, name: string, email: string)

  /** The most DOING tasks one user may hold. */
  const DoingLimit: nat := 5

  const DoneNeedsUserMessage: string := "Tasks with 'DONE' status must have a responsible user."
  const DoingLimitMessage: string := "User already has 5 tasks in 'Doing' status. Limit reached."
  const TaskNotFoundMessage: string := "Task not found."
  const BoardDoesNotExistMessage: string := "Board does not exist"
  const UserNotFoundMessage: string := "User not found."
  const PendingTasksMessage: string := "Cannot finalize board with pending tasks."
  const InvalidStatusMessage: string := "Invalid status."
  const InvalidDateMessage: string := "Invalid date format. Use yyyy-MM-dd."

  /** True when the task is attached to the board with id b. */
  predicate OnBoard(t: Task, b: nat)
  {
    t.board.Some? && t.board.value.id == Some(b)
  }

  /** True when the task is in DOING and assigned to user u. */
  predicate DoingFor(t: Task, u: nat)
  {
    t.status == DOING && t.userId == Some(u)
  }
}
