/**
 * The board-existence gate of package util.validation, used by the board
 * use cases: a missing board is reported as BoardNotFound.
 */
module UtilBoardValidator {
  import opened Domain

  /** validateBoardExists: the stored board, or BoardNotFound. An absent
    * (null) id finds no board. Reads the store and changes nothing. */
  function ValidateBoardExists(boards: map<nat, Board>, boardId: Option<nat>): (r: Result<Board>)
    ensures r.Ok? <==> boardId.Some? && boardId.value in boards
    ensures r.Ok? ==> r.value == boards[boardId.value]
    ensures r.Err? ==> r.error == BoardNotFound(BoardDoesNotExistMessage)
  {
    if boardId.Some? && boardId.value in boards then
      Ok(boards[boardId.value])
    else
      Err(BoardNotFound(BoardDoesNotExistMessage))
  }
}
