/**
 The vocabulary shared by every stage of the updater: what an HTTP request
 hands back, what a Python call hands back, and the optional value that
 stands for Python's `None`.
 */
module Responses {

  /** A value or Python's `None`. */
  datatype Option<T> = None | Some(value: T)

  /** The outcome of one HTTP request made through the client library: either a
      reply carrying a status code and its decoded body, or an exception raised
      by the library (connection error, timeout, ...). */
  datatype Reply<T> = Answer(status: int, body: T) | Raised

  /** The outcome of calling a Python function that does not catch the
      exception its request may raise. */
  datatype Call<T> = Returned(value: T) | Threw

  /** The one status code every stage treats as success. */
  const StatusOk: int := 200

  predicate IsOk<T>(r: Reply<T>)
  {
    r.Answer? && r.status == StatusOk
  }
}
