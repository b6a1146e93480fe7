/**
 * The entity store the use cases talk to through their output ports,
 * modelled in memory: one map per entity keyed by id, one id sequence per
 * entity for inserts, and a log of the notifications dispatched.
 *
 * The SQL functions the ports call are defined here as the map predicates
 * they evidently compute (countDoingTasksByUserId, areAllTasksDone,
 * countTasksByBoard and the filtered finders).
 */
module Store {
  import opened Domain

  /** count_doing_tasks_by_user: the number of stored DOING tasks of user u. */
  function CountDoing(tasks: map<nat, Task>, u: nat): nat
  {
    |DoingKeys(tasks, u)|
  }

  /** The ids of the stored DOING tasks of user u. */
  function DoingKeys(tasks: map<nat, Task>, u: nat): set<nat>
  {
    set k | k in tasks && DoingFor(tasks[k], u)
  }

  /** check_if_board_is_complete: every stored task on board b is DONE
    * (vacuously true for a board without tasks). */
  predicate AllTasksDone(tasks: map<nat, Task>, b: nat)
  {
    forall k :: k in tasks && OnBoard(tasks[k], b) ==> tasks[k].status == DONE
  }

  function TasksWithStatus(tasks: map<nat, Task>, s: TaskStatus): map<nat, Task>
  {
    map k | k in tasks && tasks[k].status == s :: tasks[k]
  }

  /** The stored tasks on board b; countTasksByBoard is the size of this map. */
  function TasksOnBoard(tasks: map<nat, Task>, b: nat): map<nat, Task>
  {
    map k | k in tasks && OnBoard(tasks[k], b) :: tasks[k]
  }

  function TasksOnBoardWithStatus(tasks: map<nat, Task>, b: nat, s: TaskStatus): map<nat, Task>
  {
    map k | k in tasks && OnBoard(tasks[k], b) && tasks[k].status == s :: tasks[k]
  }

  function BoardsWithStatus(boards: map<nat, Board>, s: BoardStatus): map<nat, Board>
  {
    map k | k in boards && boards[k].status == s :: boards[k]
  }

  /** Lexicographic order on calendar dates. */
  predicate DateBefore(a: Date, b: Date)
  {
    a.year < b.year
    || (a.year == b.year && (a.month < b.month || (a.month == b.month && a.day < b.day)))
  }

  /** a is not later than b. */
  predicate NotAfter(a: DateTime, b: DateTime)
  {
    DateBefore(a.date, b.date)
    || (a.date == b.date
        && (a.hour < b.hour
            || (a.hour == b.hour
                && (a.minute < b.minute || (a.minute == b.minute && a.second <= b.second)))))
  }

  /** get_task_by_due_date: the stored tasks whose due date lies in [start, end]. */
  function TasksDueBetween(tasks: map<nat, Task>, start: DateTime, end: DateTime): map<nat, Task>
  {
    map k | k in tasks && tasks[k].dueDate.Some?
                       && NotAfter(start, tasks[k].dueDate.value)
                       && NotAfter(tasks[k].dueDate.value, end) :: tasks[k]
  }

  /** Taking one element out of a set lowers its size by one exactly when it was in. */
  lemma CardRemove(s: set<nat>, k: nat)
    ensures |s| == |s - {k}| + (if k in s then 1 else 0)
  {
    if k in s {
      assert s == (s - {k}) + {k};
    } else {
      assert s - {k} == s;
    }
  }

  /** Away from key k, overwriting record k leaves the DOING keys of u alone. */
  lemma DoingKeysAwayFromWrite(tasks: map<nat, Task>, k: nat, w: Task, u: nat)
    ensures DoingKeys(tasks[k := w], u) - {k} == DoingKeys(tasks, u) - {k}
  {
    var m := tasks[k := w];
    forall j | j != k
      ensures j in DoingKeys(m, u) <==> j in DoingKeys(tasks, u)
    {
      if j in tasks {
        assert m[j] == tasks[j];
      }
    }
  }

  /** Overwriting one task record moves the DOING count of u by the
    * difference between what the old and the new record contribute. */
  lemma CountDoingAfterWrite(tasks: map<nat, Task>, k: nat, w: Task, u: nat)
    ensures CountDoing(tasks[k := w], u)
         == CountDoing(tasks, u)
            - (if k in tasks && DoingFor(tasks[k], u) then 1 else 0)
            + (if DoingFor(w, u) then 1 else 0)
  {
    var m := tasks[k := w];
    DoingKeysAwayFromWrite(tasks, k, w, u);
    CardRemove(DoingKeys(tasks, u), k);
    CardRemove(DoingKeys(m, u), k);
    assert k in DoingKeys(tasks, u) <==> k in tasks && DoingFor(tasks[k], u);
    assert k in DoingKeys(m, u) <==> DoingFor(w, u);
  }

  /** The store behind every output port. */
  class Store {
    var tasks: map<nat, Task>
    var boards: map<nat, Board>
    var users: map<nat, User>
    var nextTaskId: nat
    var nextBoardId: nat
    var nextUserId: nat
    /** Every task handed to the notification port, oldest first. */
    ghost var notified: seq<Task>

    /** Every record sits under its own id, below the next id to hand out. */
    ghost predicate Valid()
      reads this
    {
      && (forall k :: k in tasks ==> k < nextTaskId && tasks[k].id == Some(k))
      && (forall k :: k in boards ==> k < nextBoardId && boards[k].id == Some(k))
      && (forall k :: k in users ==> k < nextUserId && users[k].id == Some(k))
    }

    constructor ()
      ensures Valid()
      ensures tasks == map[] && boards == map[] && users == map[] && notified == []
    {
      tasks, boards, users := map[], map[], map[];
      nextTaskId, nextBoardId, nextUserId := 1, 1, 1;
      notified := [];
    }

    /** TaskOutputPort.save: an upsert. A task without id is inserted under
      * a fresh id, a task with an id overwrites (or creates) that record. */
    method SaveTask(t: Task) returns (saved: Task)
      requires Valid()
      modifies this`tasks, this`nextTaskId
      ensures Valid()
      ensures saved.id.Some? && tasks == old(tasks)[saved.id.value := saved]
      ensures t.id.Some? ==> saved == t
      ensures t.id.None? ==> saved == t.(id := saved.id) && saved.id.value !in old(tasks)
    {
      var k: nat;
      if t.id.Some? {
        k := t.id.value;
        saved := t;
        if nextTaskId <= k {
          nextTaskId := k + 1;
        }
      } else {
        k := nextTaskId;
        saved := t.(id := Some(k));
        nextTaskId := nextTaskId + 1;
      }
      tasks := tasks[k := saved];
    }

    /** TaskOutputPort.deleteById. */
    method DeleteTask(id: nat)
      requires Valid()
      modifies this`tasks
      ensures Valid()
      ensures tasks == old(tasks) - {id}
    {
      tasks := tasks - {id};
    }

    /** BoardOutputPort.save: an upsert, like SaveTask. */
    method SaveBoard(b: Board) returns (saved: Board)
      requires Valid()
      modifies this`boards, this`nextBoardId
      ensures Valid()
      ensures saved.id.Some? && boards == old(boards)[saved.id.value := saved]
      ensures b.id.Some? ==> saved == b
      ensures b.id.None? ==> saved == b.(id := saved.id) && saved.id.value !in old(boards)
    {
      var k: nat;
      if b.id.Some? {
        k := b.id.value;
        saved := b;
        if nextBoardId <= k {
          nextBoardId := k + 1;
        }
      } else {
        k := nextBoardId;
        saved := b.(id := Some(k));
        nextBoardId := nextBoardId + 1;
      }
      boards := boards[k := saved];
    }

    /** BoardOutputPort.deleteById: the board goes, and the tasks it owns with it. */
    method DeleteBoard(id: nat)
      requires Valid()
      modifies this`boards, this`tasks
      ensures Valid()
      ensures boards == old(boards) - {id}
      ensures tasks == map k | k in old(tasks) && !OnBoard(old(tasks)[k], id) :: old(tasks)[k]
    {
      boards := boards - {id};
      tasks := map k | k in tasks && !OnBoard(tasks[k], id) :: tasks[k];
    }

    /** updateBoardStatus: sets the status of a stored board. */
    method UpdateBoardStatus(id: nat, s: BoardStatus)
      requires Valid() && id in boards
      modifies this`boards
      ensures Valid()
      ensures boards == old(boards)[id := old(boards)[id].(status := s)]
    {
      boards := boards[id := boards[id].(status := s)];
    }

    /** UserOutputPort.savedUser: an upsert, like SaveTask. */
    method SaveUser(u: User) returns (saved: User)
      requires Valid()
      modifies this`users, this`nextUserId
      ensures Valid()
      ensures saved.id.Some? && users == old(users)[saved.id.value := saved]
      ensures u.id.Some? ==> saved == u
      ensures u.id.None? ==> saved == u.(id := saved.id) && saved.id.value !in old(users)
    {
      var k: nat;
      if u.id.Some? {
        k := u.id.value;
        saved := u;
        if nextUserId <= k {
          nextUserId := k + 1;
        }
      } else {
        k := nextUserId;
        saved := u.(id := Some(k));
        nextUserId := nextUserId + 1;
      }
      users := users[k := saved];
    }

    /** UserOutputPort.deleteUserById. */
    method DeleteUser(id: nat)
      requires Valid()
      modifies this`users
      ensures Valid()
      ensures users == old(users) - {id}
    {
      users := users - {id};
    }

    /** NotificationOutputPort.notifyUser: records the dispatch. */
    method Notify(t: Task)
      modifies this`notified
      ensures notified == old(notified) + [t]
    {
      notified := notified + [t];
    }
  }
}
