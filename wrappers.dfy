/** Option/Result wrappers shared by the other modules. */
module Wrappers {
  datatype Option<+T> = None | Some(value: T)

  datatype Result<+R, +E> = Success(value: R) | Failure(error: E) {
    function ToOption(): (o: Option<R>)
    {
      match this
      case Success(v) => Some(v)
      case Failure(_) => None
    }
  }
}
