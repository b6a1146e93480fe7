/**
 * The board-existence gate of package core.usecase, used by the task use
 * cases: a missing board is reported as a plain runtime error (BoardMissing),
 * not as BoardNotFound.
 */
module CoreBoardValidator {
  import opened Domain
  import UtilBoardValidator

  /** validateBoardExists: the stored board, or BoardMissing. An absent
    * (null) id finds no board. Reads the store and changes nothing. */
  function ValidateBoardExists(boards: map<nat, Board>, boardId: Option<nat>): (r: Result<Board>)
    ensures r.Ok? <==> boardId.Some? && boardId.value in boards
    ensures r.Ok? ==> r.value == boards[boardId.value]
    ensures r.Err? ==> r.error == BoardMissing(BoardDoesNotExistMessage)
  {
    if boardId.Some? && boardId.value in boards then
      Ok(boards[boardId.value])
    else
      Err(BoardMissing(BoardDoesNotExistMessage))
  }

  /** The two gates accept the same ids and return the same board; they
    * differ only in the kind of error a missing board raises. */
  lemma GatesDifferOnlyInErrorKind(boards: map<nat, Board>, boardId: Option<nat>)
    ensures ValidateBoardExists(boards, boardId).Ok?
        <==> UtilBoardValidator.ValidateBoardExists(boards, boardId).Ok?
    ensures ValidateBoardExists(boards, boardId).Ok? ==>
              ValidateBoardExists(boards, boardId).value
              == UtilBoardValidator.ValidateBoardExists(boards, boardId).value
    ensures ValidateBoardExists(boards, boardId).Err? ==>
              && ValidateBoardExists(boards, boardId).error.BoardMissing?
              && UtilBoardValidator.ValidateBoardExists(boards, boardId).error.BoardNotFound?
              && ValidateBoardExists(boards, boardId).error.message
                 == UtilBoardValidator.ValidateBoardExists(boards, boardId).error.message
  {
  }
}
