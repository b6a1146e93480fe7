/**
 * The board workflow (BoardUseCase): board CRUD through the util.validation
 * existence gate, task counting, status queries, and finalisation, the one
 * operation that consults the states of a board's tasks.
 */
module BoardUseCase {
  import opened Domain
  import opened Store
  import UtilBoardValidator
  import Parsing

  /** getById: the stored board, or BoardNotFound. */
  function GetById(boards: map<nat, Board>, id: nat): (r: Result<Board>)
    ensures r.Ok? <==> id in boards
    ensures r.Ok? ==> r.value == boards[id]
    ensures r.Err? ==> r.error == BoardNotFound(BoardDoesNotExistMessage)
  {
    UtilBoardValidator.ValidateBoardExists(boards, Some(id))
  }

  /** createdBoard: saves the board as given, without any check. */
  method CreatedBoard(store: Store, b: Board) returns (saved: Board)
    requires store.Valid()
    modifies store`boards, store`nextBoardId
    ensures store.Valid()
    ensures saved.name == b.name && saved.status == b.status
    ensures saved.id.Some? && (b.id.Some? ==> saved.id == b.id)
    ensures b.id.None? ==> saved.id.value !in old(store.boards)
    ensures store.boards == old(store.boards)[saved.id.value := saved]
  {
    saved := store.SaveBoard(b);
  }

  /**
   * updateBoard: overwrites the name and the status of an existing board,
   * verbatim (a COMPLETED board may be set back to ACTIVE), and saves; an
   * unknown id is BoardNotFound and nothing is saved.
   */
  method UpdateBoard(store: Store, id: nat, updates: Board) returns (r: Result<Board>)
    requires store.Valid()
    modifies store`boards, store`nextBoardId
    ensures store.Valid()
    ensures r.Err? <==> id !in old(store.boards)
    ensures r.Err? ==> r.error == BoardNotFound(BoardDoesNotExistMessage) && store.boards == old(store.boards)
    ensures r.Ok? ==>
              && r.value.id == old(store.boards)[id].id
              && r.value.name == updates.name
              && r.value.status == updates.status
              && store.boards == old(store.boards)[id := r.value]
  {
    var found := UtilBoardValidator.ValidateBoardExists(store.boards, Some(id));
    if found.Err? {
      return Err(found.error);
    }
    var existing := found.value;
    existing := existing.(name := updates.name);
    existing := existing.(status := updates.status);
    var saved := store.SaveBoard(existing);
    return Ok(saved);
  }

  /** deleteBoard: deletes an existing board and its tasks; an unknown id is
    * BoardNotFound and nothing is deleted. */
  method DeleteBoard(store: Store, id: nat) returns (r: Outcome)
    requires store.Valid()
    modifies store`boards, store`tasks
    ensures store.Valid()
    ensures r.Pass? <==> id in old(store.boards)
    ensures r.Fail? ==>
              && r.error == BoardNotFound(BoardDoesNotExistMessage)
              && store.boards == old(store.boards) && store.tasks == old(store.tasks)
    ensures r.Pass? ==>
              && store.boards == old(store.boards) - {id}
              && (forall k :: k in store.tasks <==> k in old(store.tasks) && !OnBoard(old(store.tasks)[k], id))
              && (forall k :: k in store.tasks ==> store.tasks[k] == old(store.tasks)[k])
  {
    var found := UtilBoardValidator.ValidateBoardExists(store.boards, Some(id));
    if found.Err? {
      return Fail(found.error);
    }
    store.DeleteBoard(id);
    return Pass;
  }

  /** countTasks: the number of tasks of an existing board, 0 when it has
    * none; an unknown id is BoardNotFound and nothing is counted. */
  function CountTasks(tasks: map<nat, Task>, boards: map<nat, Board>, id: nat): (r: Result<nat>)
    ensures r.Err? <==> id !in boards
    ensures r.Err? ==> r.error == BoardNotFound(BoardDoesNotExistMessage)
    ensures r.Ok? ==> r.value == |set k | k in tasks && OnBoard(tasks[k], id)|
    ensures r.Ok? ==> r.value <= |tasks|
    ensures r.Ok? && (forall k :: k in tasks ==> !OnBoard(tasks[k], id)) ==> r.value == 0
  {
    var gate := UtilBoardValidator.ValidateBoardExists(boards, Some(id));
    if gate.Err? then Err(gate.error)
    else
      var onBoard := TasksOnBoard(tasks, id);
      assert onBoard.Keys == set k | k in tasks && OnBoard(tasks[k], id);
      assert onBoard.Keys <= tasks.Keys;
      CardSubset(onBoard.Keys, tasks.Keys);
      Ok(|onBoard|)
  }

  lemma CardSubset(a: set<nat>, b: set<nat>)
    requires a <= b
    ensures |a| <= |b|
  {
    if a != {} {
      var x :| x in a;
      CardSubset(a - {x}, b - {x});
    }
  }

  /** getByStatus: the boards whose status name equals the upper-cased argument. */
  function GetByStatus(boards: map<nat, Board>, status: string): (r: Result<map<nat, Board>>)
    ensures r.Err? <==> Parsing.ParseBoardStatus(status).None?
    ensures r.Err? ==> r.error == InvalidStatus(InvalidStatusMessage)
    ensures r.Ok? ==> forall k :: k in r.value <==>
              k in boards && Parsing.BoardStatusName(boards[k].status) == Parsing.ToUpperCase(status)
    ensures r.Ok? ==> forall k :: k in r.value ==> r.value[k] == boards[k]
  {
    match Parsing.ParseBoardStatus(status)
    case None => Err(InvalidStatus(InvalidStatusMessage))
    case Some(s) => Ok(BoardsWithStatus(boards, s))
  }

  /**
   * What finalizedBoard does to the boards: an unknown board is BoardNotFound
   * (the tasks are not consulted), a board whose tasks are all DONE becomes
   * COMPLETED, any other board is refused with BoardValidation. Only the
   * finalised board's status can change.
   */
  function Finalize(tasks: map<nat, Task>, boards: map<nat, Board>, id: nat)
    : (res: (Outcome, map<nat, Board>))
    ensures id !in boards ==> res == (Fail(BoardNotFound(BoardDoesNotExistMessage)), boards)
    ensures id in boards && AllTasksDone(tasks, id) ==>
              res.0 == Pass && res.1.Keys == boards.Keys
              && res.1[id].status == COMPLETED
              && res.1[id].name == boards[id].name && res.1[id].id == boards[id].id
              && forall k :: k in boards && k != id ==> res.1[k] == boards[k]
    ensures id in boards && !AllTasksDone(tasks, id) ==>
              res == (Fail(BoardValidation(PendingTasksMessage)), boards)
  {
    var gate := UtilBoardValidator.ValidateBoardExists(boards, Some(id));
    if gate.Err? then (Fail(gate.error), boards)
    else if AllTasksDone(tasks, id) then (Pass, boards[id := boards[id].(status := COMPLETED)])
    else (Fail(BoardValidation(PendingTasksMessage)), boards)
  }

  /** finalizedBoard. */
  method FinalizedBoard(store: Store, id: nat) returns (r: Outcome)
    requires store.Valid()
    modifies store`boards
    ensures store.Valid()
    ensures (r, store.boards) == Finalize(store.tasks, old(store.boards), id)
  {
    var gate := UtilBoardValidator.ValidateBoardExists(store.boards, Some(id));
    if gate.Err? {
      return Fail(gate.error);
    }
    var allTasksDone := AllTasksDone(store.tasks, id);
    if allTasksDone {
      store.UpdateBoardStatus(id, COMPLETED);
      return Pass;
    } else {
      return Fail(BoardValidation(PendingTasksMessage));
    }
  }

  /** Finalising again a board already finalised succeeds and changes nothing. */
  lemma FinalizeIdempotent(tasks: map<nat, Task>, boards: map<nat, Board>, id: nat)
    requires Finalize(tasks, boards, id).0 == Pass
    ensures Finalize(tasks, Finalize(tasks, boards, id).1, id) == Finalize(tasks, boards, id)
  {
    var once := Finalize(tasks, boards, id).1;
    assert once[id := once[id].(status := COMPLETED)] == once;
  }
}
