/** The HTTP status codes the modelled endpoints answer with. */
module Http {

  datatype HttpStatus = Ok | Created | BadRequest | Forbidden | NotFound | InternalError {
    function Code(): int {
      match this
      case Ok => 200
      case Created => 201
      case BadRequest => 400
      case Forbidden => 403
      case NotFound => 404
      case InternalError => 500
    }
  }
}
