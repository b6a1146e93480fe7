/**
 * The task workflow (TaskUseCase): create, update and delete, which write
 * the store and may notify the responsible user, and the read-only queries,
 * which parse their string arguments and filter the stored tasks.
 */
module TaskUseCase {
  import opened Domain
  import opened Store
  import TaskRules
  import CoreBoardValidator
  import Parsing

  /** getById: the stored task, or TaskNotFound. */
  function GetById(tasks: map<nat, Task>, id: nat): (r: Result<Task>)
    ensures r.Ok? <==> id in tasks
    ensures r.Ok? ==> r.value == tasks[id]
    ensures r.Err? ==> r.error == TaskNotFound(TaskNotFoundMessage)
  {
    if id in tasks then Ok(tasks[id]) else Err(TaskNotFound(TaskNotFoundMessage))
  }

  /**
   * updateTask: validates the payload, finds the task, resolves the
   * payload's board, copies the six editable fields onto the stored record,
   * notifies a newly assigned user and saves. The first failing check wins
   * and a failure writes nothing and notifies no one.
   */
  method UpdateTask(store: Store, id: nat, t: Task) returns (r: Result<Task>)
    requires store.Valid()
    requires t.board.Some?
    modifies store`tasks, store`nextTaskId, store`notified
    ensures store.Valid()
    // the checks, in order
    ensures TaskRules.ValidateTaskRules(old(store.tasks), t).Fail? ==>
              r == Err(TaskRules.ValidateTaskRules(old(store.tasks), t).error)
    ensures TaskRules.ValidateTaskRules(old(store.tasks), t).Pass? && id !in old(store.tasks) ==>
              r == Err(TaskNotFound(TaskNotFoundMessage))
    ensures TaskRules.ValidateTaskRules(old(store.tasks), t).Pass? && id in old(store.tasks)
            && !(t.board.value.id.Some? && t.board.value.id.value in store.boards) ==>
              r == Err(BoardMissing(BoardDoesNotExistMessage))
    ensures (&& TaskRules.ValidateTaskRules(old(store.tasks), t).Pass? && id in old(store.tasks)
             && t.board.value.id.Some? && t.board.value.id.value in old(store.boards)) ==> r.Ok?
    ensures r.Err? ==> store.tasks == old(store.tasks) && store.notified == old(store.notified)
    // the merge
    ensures r.Ok? ==>
              && id in old(store.tasks)
              && t.board.value.id.Some? && t.board.value.id.value in store.boards
              && r.value.id == old(store.tasks)[id].id
              && r.value.createdAt == old(store.tasks)[id].createdAt
              && r.value.updatedAt == old(store.tasks)[id].updatedAt
              && r.value.title == t.title
              && r.value.description == t.description
              && r.value.status == t.status
              && r.value.board == Some(store.boards[t.board.value.id.value])
              && r.value.dueDate == t.dueDate
              && r.value.userId == t.userId
              && store.tasks == old(store.tasks)[id := r.value]
    // the notification
    ensures r.Ok? ==>
              store.notified == old(store.notified)
                                + (if t.userId.Some? && t.userId != old(store.tasks)[id].userId
                                   then [r.value] else [])
    // the DOING cap, for a payload without id or with the path id
    ensures forall u: nat :: r.Ok? && DoingFor(t, u) && (t.id.None? || t.id == Some(id))
              && !(t.id == Some(id) && old(store.tasks)[id].status == DOING
                   && old(store.tasks)[id].userId != Some(u))
              ==> CountDoing(store.tasks, u) <= DoingLimit
  {
    var rules := TaskRules.ValidateTaskRules(store.tasks, t);
    if rules.Fail? {
      return Err(rules.error);
    }
    var found := GetById(store.tasks, id);
    if found.Err? {
      return Err(found.error);
    }
    var existing := found.value;
    var oldUserId := existing.userId;
    var gate := CoreBoardValidator.ValidateBoardExists(store.boards, t.board.value.id);
    if gate.Err? {
      return Err(gate.error);
    }
    existing := existing.(title := t.title);
    existing := existing.(description := t.description);
    existing := existing.(status := t.status);
    existing := existing.(board := Some(gate.value));
    existing := existing.(dueDate := t.dueDate);
    existing := existing.(userId := t.userId);
    if t.userId.Some? && t.userId != oldUserId {
      store.Notify(existing);
    }
    var saved := store.SaveTask(existing);
    forall u: nat | DoingFor(t, u) && (t.id.None? || t.id == Some(id))
                 && !(t.id == Some(id) && old(store.tasks)[id].status == DOING
                      && old(store.tasks)[id].userId != Some(u))
      ensures CountDoing(store.tasks, u) <= DoingLimit
    {
      TaskRules.DoingCapPreserved(old(store.tasks), t, u, id, saved);
    }
    return Ok(saved);
  }

  /** deleteTask: deletes a stored task; an unknown id is TaskNotFound and deletes nothing. */
  method DeleteTask(store: Store, id: nat) returns (r: Outcome)
    requires store.Valid()
    modifies store`tasks
    ensures store.Valid()
    ensures r.Pass? <==> id in old(store.tasks)
    ensures r.Fail? ==> r.error == TaskNotFound(TaskNotFoundMessage) && store.tasks == old(store.tasks)
    ensures r.Pass? ==> store.tasks == old(store.tasks) - {id}
  {
    var found := GetById(store.tasks, id);
    if found.Err? {
      return Fail(found.error);
    }
    store.DeleteTask(id);
    return Pass;
  }

  /**
   * createTaskWithBoard: validates the task, resolves the board named by the
   * id argument (not the task's own board), attaches it and saves; a task
   * with a responsible user is then notified with the saved record.
   */
  method CreateTaskWithBoard(store: Store, t: Task, boardId: nat) returns (r: Result<Task>)
    requires store.Valid()
    modifies store`tasks, store`nextTaskId, store`notified
    ensures store.Valid()
    ensures TaskRules.ValidateTaskRules(old(store.tasks), t).Fail? ==>
              r == Err(TaskRules.ValidateTaskRules(old(store.tasks), t).error)
    ensures TaskRules.ValidateTaskRules(old(store.tasks), t).Pass? && boardId !in store.boards ==>
              r == Err(BoardMissing(BoardDoesNotExistMessage))
    ensures TaskRules.ValidateTaskRules(old(store.tasks), t).Pass? && boardId in old(store.boards) ==> r.Ok?
    ensures r.Err? ==> store.tasks == old(store.tasks) && store.notified == old(store.notified)
    ensures r.Ok? ==>
              && boardId in store.boards
              && r.value == t.(board := Some(store.boards[boardId]), id := r.value.id)
              && r.value.id.Some?
              && (t.id.Some? ==> r.value.id == t.id)
              && (t.id.None? ==> r.value.id.value !in old(store.tasks))
              && store.tasks == old(store.tasks)[r.value.id.value := r.value]
    ensures r.Ok? ==>
              store.notified == old(store.notified) + (if t.userId.Some? then [r.value] else [])
    // the DOING cap, unless the payload's id names another user's DOING task
    ensures forall u: nat :: r.Ok? && DoingFor(t, u)
              && !(t.id.Some? && t.id.value in old(store.tasks) && old(store.tasks)[t.id.value].status == DOING
                   && old(store.tasks)[t.id.value].userId != Some(u))
              ==> CountDoing(store.tasks, u) <= DoingLimit
  {
    var rules := TaskRules.ValidateTaskRules(store.tasks, t);
    if rules.Fail? {
      return Err(rules.error);
    }
    var gate := CoreBoardValidator.ValidateBoardExists(store.boards, Some(boardId));
    if gate.Err? {
      return Err(gate.error);
    }
    var task := t.(board := Some(gate.value));
    var saved := store.SaveTask(task);
    forall u: nat | DoingFor(t, u)
                 && !(t.id.Some? && t.id.value in old(store.tasks) && old(store.tasks)[t.id.value].status == DOING
                      && old(store.tasks)[t.id.value].userId != Some(u))
      ensures CountDoing(store.tasks, u) <= DoingLimit
    {
      TaskRules.DoingCapPreserved(old(store.tasks), t, u, saved.id.value, saved);
    }
    if t.userId.Some? {
      store.Notify(saved);
    }
    return Ok(saved);
  }

  /** getByStatus: the tasks whose status name equals the upper-cased argument. */
  function GetByStatus(tasks: map<nat, Task>, status: string): (r: Result<map<nat, Task>>)
    ensures r.Err? <==> Parsing.ParseTaskStatus(status).None?
    ensures r.Err? ==> r.error == InvalidStatus(InvalidStatusMessage)
    ensures r.Ok? ==> forall k :: k in r.value <==>
              k in tasks && Parsing.TaskStatusName(tasks[k].status) == Parsing.ToUpperCase(status)
    ensures r.Ok? ==> forall k :: k in r.value ==> r.value[k] == tasks[k]
  {
    match Parsing.ParseTaskStatus(status)
    case None => Err(InvalidStatus(InvalidStatusMessage))
    case Some(s) => Ok(TasksWithStatus(tasks, s))
  }

  /** getTaskByBoard: the tasks of an existing board. */
  function GetTaskByBoard(tasks: map<nat, Task>, boards: map<nat, Board>, boardId: nat)
    : (r: Result<map<nat, Task>>)
    ensures r.Err? <==> boardId !in boards
    ensures r.Err? ==> r.error == BoardMissing(BoardDoesNotExistMessage)
    ensures r.Ok? ==> forall k :: k in r.value <==> k in tasks && OnBoard(tasks[k], boardId)
    ensures r.Ok? ==> forall k :: k in r.value ==> r.value[k] == tasks[k]
  {
    var gate := CoreBoardValidator.ValidateBoardExists(boards, Some(boardId));
    if gate.Err? then Err(gate.error) else Ok(TasksOnBoard(tasks, boardId))
  }

  /** getByBoardAndStatus: the board is checked before the status is parsed. */
  function GetByBoardAndStatus(tasks: map<nat, Task>, boards: map<nat, Board>, boardId: nat, status: string)
    : (r: Result<map<nat, Task>>)
    ensures boardId !in boards ==> r == Err(BoardMissing(BoardDoesNotExistMessage))
    ensures boardId in boards && Parsing.ParseTaskStatus(status).None? ==>
              r == Err(InvalidStatus(InvalidStatusMessage))
    ensures boardId in boards && Parsing.ParseTaskStatus(status).Some? ==> r.Ok?
    ensures r.Ok? ==> forall k :: k in r.value <==>
              && k in tasks && OnBoard(tasks[k], boardId)
              && Parsing.TaskStatusName(tasks[k].status) == Parsing.ToUpperCase(status)
    ensures r.Ok? ==> forall k :: k in r.value ==> r.value[k] == tasks[k]
  {
    var gate := CoreBoardValidator.ValidateBoardExists(boards, Some(boardId));
    if gate.Err? then Err(gate.error)
    else
      match Parsing.ParseTaskStatus(status)
      case None => Err(InvalidStatus(InvalidStatusMessage))
      case Some(s) => Ok(TasksOnBoardWithStatus(tasks, boardId, s))
  }

  function StartOfDay(d: Date): DateTime
  {
    DateTime(d, 0, 0, 0)
  }

  function EndOfDay(d: Date): DateTime
  {
    DateTime(d, 23, 59, 59)
  }

  predicate TimeOfDay(dt: DateTime)
  {
    dt.hour < 24 && dt.minute < 60 && dt.second < 60
  }

  /** A time of day lies between the start and the end of day d exactly when it falls on d. */
  lemma WithinDayIffSameDate(dt: DateTime, d: Date)
    requires TimeOfDay(dt)
    ensures NotAfter(StartOfDay(d), dt) && NotAfter(dt, EndOfDay(d)) <==> dt.date == d
  {
  }

  /**
   * getByDueDate: parses yyyy-MM-dd and returns the tasks due between the
   * start and the end of that day; other text is InvalidDateFormat and no
   * query is made.
   */
  function GetByDueDate(tasks: map<nat, Task>, dueDate: string): (r: Result<map<nat, Task>>)
    ensures r.Err? <==> Parsing.ParseDate(dueDate).None?
    ensures r.Err? ==> r.error == InvalidDateFormat(InvalidDateMessage)
    ensures r.Ok? ==> forall k :: k in r.value ==>
              && k in tasks && r.value[k] == tasks[k] && tasks[k].dueDate.Some?
              && (TimeOfDay(tasks[k].dueDate.value) ==>
                    tasks[k].dueDate.value.date == Parsing.ParseDate(dueDate).value)
    ensures r.Ok? ==> forall k ::
              (&& k in tasks && tasks[k].dueDate.Some?
               && TimeOfDay(tasks[k].dueDate.value)
               && tasks[k].dueDate.value.date == Parsing.ParseDate(dueDate).value) ==> k in r.value
  {
    match Parsing.ParseDate(dueDate)
    case None => Err(InvalidDateFormat(InvalidDateMessage))
    case Some(d) =>
      var due := TasksDueBetween(tasks, StartOfDay(d), EndOfDay(d));
      assert forall k :: k in tasks && tasks[k].dueDate.Some? && TimeOfDay(tasks[k].dueDate.value) ==>
        (k in due <==> tasks[k].dueDate.value.date == d) by {
        forall k | k in tasks && tasks[k].dueDate.Some? && TimeOfDay(tasks[k].dueDate.value) {
          WithinDayIffSameDate(tasks[k].dueDate.value, d);
        }
      }
      Ok(due)
  }
}
