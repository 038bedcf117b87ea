/** Values shared by every handler: optional values, results and the error replies. */
module Common {

  datatype Option<+T> = None | Some(value: T) {
    function GetOr(default: T): T {
      match this
      case Some(v) => v
      case None => default
    }
  }

  datatype Result<+T, +E> = Success(value: T) | Failure(error: E)

  /** The error replies the handlers send; `Status` gives the HTTP code of each. */
  datatype ApiError =
    | InvalidInput          // malformed or missing request fields
    | TotalMismatch         // client total disagrees with the recomputed one
    | EstimatorUnavailable  // the shipping estimator returned null
    | InvalidCaptureAmount  // the captured amount is not a number
    | EmptyCart             // the user's cart has no rows
    | DuplicateReview       // the user already reviewed that product
    | NotFound              // missing product
    | Internal              // any other error caught by the handler

  function Status(e: ApiError): nat {
    match e
    case InvalidInput => 400
    case TotalMismatch => 400
    case DuplicateReview => 400
    case EmptyCart => 404
    case NotFound => 404
    case EstimatorUnavailable => 500
    case InvalidCaptureAmount => 500
    case Internal => 500
  }

  function Abs(x: int): nat {
    if x < 0 then -x else x
  }
}
