/** Vocabulary shared by the ID resolver, the request wrappers, the default
    CRUD handlers and the route composer: HTTP methods, the uniform error
    response, resources and the small Option/Result wrappers. */
module Http {

  datatype Option<+T> = None | Some(value: T)

  datatype Result<+T, +E> = Success(value: T) | Failure(error: E)

  /** The HTTP methods the route composer and the status-code override table
      are keyed by; custom routes may use any other method name. */
  datatype Method = GET | POST | PUT | PATCH | DELETE | OtherMethod(name: string)

  /** A resource instance. Only its identifier matters to the routing engine;
      everything else about it is the caller's type and is kept abstract. */
  datatype Resource = Resource(id: string, data: string)

  /** The uniform error response. The first five are the taxonomy of the
      library; `Custom` is an error response built by caller code (a hook or a
      patcher), which the handlers pass through unchanged. */
  datatype ErrResponse =
    | InvalidRequest(cause: string)
    | NotFound
    | MethodNotAllowed
    | InternalError(cause: string)
    | RenderError(cause: string)
    | Custom(code: int, cause: string)
  {
    /** The HTTP status code this error is rendered with. */
    function Status(): int {
      match this
      case InvalidRequest(_) => 400
      case NotFound => 404
      case MethodNotAllowed => 405
      case InternalError(_) => 500
      case RenderError(_) => 422
      case Custom(code, _) => code
    }
  }

  const StatusOK: int := 200
  const StatusCreated: int := 201
  const StatusNoContent: int := 204
}
