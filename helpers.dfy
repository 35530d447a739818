/** The request-wrapper decision logic of helpers.go: resolving the ID of the
    addressed resource, fetching it, reading the request body, and the
    short-circuit pipelines that turn these into a reply. Writing to the
    response and calling the next handler are modelled as returned values. */
module Helpers {
  import opened Http
  import opened Ids
  import Storage

  /** The parts of an API descriptor the handlers consult. `hasParent` says
      whether the API was registered as a child of another; `codes` is the
      status-code override table; `shape` and `listShape` stand for the
      optional single-resource and collection response wrappers. */
  datatype Config = Config(
    name: string,
    base: string,
    hasParent: bool,
    patchable: bool,
    codes: map<Method, int>,
    shape: Option<string>,
    listShape: Option<string>)

  /** Where the handler finds the request's resource: already decoded into
      the request context by earlier middleware, or still to be bound from the
      body, with the outcome of that binding (success or the parse/validation
      error). */
  datatype BodySource = InContext(resource: Resource) | Raw(bound: Result<Resource, string>)

  /** The request as the core sees it: method, raw URL path, the router's
      typed path parameters, and the body. */
  datatype Request = Request(verb: Method, path: string, params: map<string, string>, body: BodySource)

  /** What a handler hands to the renderer. */
  datatype View =
    | Plain(resource: Resource)
    | Shaped(shape: string, resource: Resource)
    | ItemList(items: seq<View>)
    | CustomList(shape: string, resources: seq<Resource>)

  /** What a handler produces: 204 already written, a bare status with an
      empty body, a value to render with a status, an error response, or
      nothing at all (a nil renderer with nothing written). */
  datatype Reply = NoContent | StatusOnly(code: int) | Render(status: int, view: View) | Fail(err: ErrResponse) | Nothing

  /** What a renderer-returning action gives back: the renderer (None for
      nil) and the status it set on the request, if any. */
  datatype Rendered = Rendered(view: Option<View>, status: Option<int>)

  /** The status `render.Render` writes: the one set on the request, else 200. */
  function StatusOr200(st: Option<int>): (code: int)
    ensures st.Some? ==> code == st.value
    ensures st.None? ==> code == StatusOK
  {
    if st.Some? then st.value else StatusOK
  }

  /** What a body-reading action returns: the resource to respond with (None
      for a nil result) and the status it set, or an error. */
  datatype Outcome = Done(value: Option<Resource>, status: Option<int>) | Failed(err: ErrResponse)

  /** What an ID-scoped middleware decides: pass the (possibly updated)
      request on to the next handler, or stop with a rendered error. */
  datatype Step = Continue(request: Request) | Stop(err: ErrResponse)

  datatype Body = Empty | Shown(view: View) | Problem(err: ErrResponse)

  /** What reaches the client. */
  datatype Response = Response(status: int, body: Body)

  /** `chi.URLParam`: the typed path parameter, "" when absent. */
  function UrlParam(params: map<string, string>, key: string): (v: string)
    ensures key in params ==> v == params[key]
    ensures key !in params ==> v == ""
  {
    if key in params then params[key] else ""
  }

  /** `API.GetIDParam`: the typed parameter when it is set; otherwise, for a
      child API only, the segment after the API's base in the raw path. */
  function GetIdParam(cfg: Config, req: Request): (id: string)
    ensures UrlParam(req.params, IdParamKey(cfg.name)) != "" ==> id == UrlParam(req.params, IdParamKey(cfg.name))
    ensures UrlParam(req.params, IdParamKey(cfg.name)) == "" && !cfg.hasParent ==> id == ""
    ensures UrlParam(req.params, IdParamKey(cfg.name)) == "" && cfg.hasParent ==> id == FindIdParam(req.path, cfg.base)
    ensures UrlParam(req.params, IdParamKey(cfg.name)) == "" ==> '/' !in id
  {
    var param := UrlParam(req.params, IdParamKey(cfg.name));
    if param == "" && cfg.hasParent then FindIdParam(req.path, cfg.base) else param
  }

  /** A child API whose typed parameter is not visible (a parent's
      middleware runs before the child's route is matched) still finds its ID
      in a path of the form pre/base/id/..., where `pre` is the parent's part
      of the path and does not contain the child's base. */
  lemma ChildIdFromPath(cfg: Config, req: Request, pre: string, id: string, rest: string)
    requires cfg.hasParent && IdParamKey(cfg.name) !in req.params
    requires '/' !in id && (rest == [] || rest[0] == '/')
    requires req.path == pre + cfg.base + "/" + id + rest
    requires forall j :: 0 <= j < |pre| ==> !OccursAt(req.path, cfg.base, j)
    ensures GetIdParam(cfg, req) == id
  {
    FindIdParamNested(pre, cfg.base, id, rest);
  }

  /** How a storage error surfaces: not-found becomes the 404 response, any
      other failure an internal error carrying its cause. */
  function FromStorage(e: Storage.StoreError): (r: ErrResponse)
    ensures r.Status() == 404 <==> e.ErrNotFound?
    ensures e.Backend? ==> r == InternalError(e.cause)
  {
    match e
    case ErrNotFound => NotFound
    case Backend(cause) => InternalError(cause)
  }

  /** `API.GetRequestedResource`: the resource stored under the request's ID. */
  function GetRequestedResource(cfg: Config, store: Storage.Store, req: Request, fault: Option<string>): (r: Result<Resource, ErrResponse>)
    ensures fault.Some? ==> r == Failure(InternalError(fault.value))
    ensures fault.None? ==> (r.Success? <==> GetIdParam(cfg, req) in store)
    ensures r.Success? ==> r.value == store[GetIdParam(cfg, req)]
    ensures fault.None? && r.Failure? ==> r.error == NotFound
  {
    match Storage.Get(store, GetIdParam(cfg, req), fault)
    case Success(x) => Success(x)
    case Failure(e) => Failure(FromStorage(e))
  }

  /** `GetFromRequest`: a resource already in the request context wins;
      otherwise the body is bound, and a binding error is an invalid request. */
  function GetFromRequest(src: BodySource): (r: Result<Resource, ErrResponse>)
    ensures src.InContext? ==> r == Success(src.resource)
    ensures src.Raw? ==> (r.Success? <==> src.bound.Success?)
    ensures src.Raw? && r.Success? ==> r.value == src.bound.value
    ensures src.Raw? && r.Failure? ==> r.error == InvalidRequest(src.bound.error)
  {
    match src
    case InContext(x) => Success(x)
    case Raw(Success(x)) => Success(x)
    case Raw(Failure(e)) => Failure(InvalidRequest(e))
  }

  /** The API's single-resource response wrapper. */
  function Wrap(cfg: Config, x: Resource): (v: View)
    ensures cfg.shape.None? ==> v == Plain(x)
    ensures v.Plain? || v.Shaped?
    ensures v.resource == x
  {
    if cfg.shape.Some? then Shaped(cfg.shape.value, x) else Plain(x)
  }

  /** The success status of a handler for `m`: the override if one is
      registered, else the handler's default. */
  function SuccessStatus(cfg: Config, m: Method, default: int): (code: int)
    ensures m in cfg.codes ==> code == cfg.codes[m]
    ensures m !in cfg.codes ==> code == default
  {
    if m in cfg.codes then cfg.codes[m] else default
  }

  /** The status a handler sets for `m`: the override, if one is registered. */
  function Override(cfg: Config, m: Method): (code: Option<int>)
    ensures code.Some? <==> m in cfg.codes
    ensures code.Some? ==> code.value == cfg.codes[m]
  {
    if m in cfg.codes then Some(cfg.codes[m]) else None
  }

  /** How `API.ReadRequestBodyAndDo` turns the action's result into a reply:
      an error is passed on, a nil result is "no content", and a resource is
      wrapped and rendered with the status the action set (200 when none). */
  function Respond(cfg: Config, o: Outcome): (r: Reply)
    ensures o.Failed? <==> r.Fail?
    ensures o.Failed? ==> r.err == o.err
    ensures o.Done? && o.value.None? <==> r.NoContent?
    ensures o.Done? && o.value.Some? ==> r == Render(StatusOr200(o.status), Wrap(cfg, o.value.value))
  {
    match o
    case Failed(e) => Fail(e)
    case Done(None, _) => NoContent
    case Done(Some(x), st) => Render(StatusOr200(st), Wrap(cfg, x))
  }

  /** `API.ReadRequestBodyAndDo`: read the body, run the action, respond. */
  function ReadRequestBodyAndDo(cfg: Config, src: BodySource, act: Resource -> Outcome): (r: Reply)
    ensures GetFromRequest(src).Failure? ==> r == Fail(GetFromRequest(src).error)
    ensures src.Raw? && src.bound.Failure? ==> r == Fail(InvalidRequest(src.bound.error))
    ensures GetFromRequest(src).Success? ==> r == Respond(cfg, act(GetFromRequest(src).value))
  {
    match GetFromRequest(src)
    case Failure(e) => Fail(e)
    case Success(x) => Respond(cfg, act(x))
  }

  /** A decoding failure decides the reply before the action is consulted:
      any two actions give the same reply. */
  lemma DecodeFailureSkipsAction(cfg: Config, e: string, act1: Resource -> Outcome, act2: Resource -> Outcome)
    ensures ReadRequestBodyAndDo(cfg, Raw(Failure(e)), act1) == ReadRequestBodyAndDo(cfg, Raw(Failure(e)), act2)
    ensures ReadRequestBodyAndDo(cfg, Raw(Failure(e)), act1).Fail?
  {
  }

  /** The free-standing `ReadRequestBodyAndDo`: the action's renderer is
      rendered as it is, with the status the action set (200 when none); a
      nil renderer writes nothing. */
  function ReadRequestBodyAndRender(src: BodySource, act: Resource -> Result<Rendered, ErrResponse>): (r: Reply)
    ensures GetFromRequest(src).Failure? ==> r == Fail(GetFromRequest(src).error)
    ensures GetFromRequest(src).Success? ==>
      var out := act(GetFromRequest(src).value);
      (out.Failure? ==> r == Fail(out.error)) &&
      (out.Success? && out.value.view.None? ==> r == Nothing) &&
      (out.Success? && out.value.view.Some? ==> r == Render(StatusOr200(out.value.status), out.value.view.value))
    ensures !r.NoContent?
  {
    match GetFromRequest(src)
    case Failure(e) => Fail(e)
    case Success(x) =>
      match act(x)
      case Failure(e) => Fail(e)
      case Success(Rendered(None, _)) => Nothing
      case Success(Rendered(Some(v), st)) => Render(StatusOr200(st), v)
  }

  /** `API.GetRequestedResourceAndDo`: fetch the addressed resource, run the
      action on it, respond; a nil renderer is "no content". */
  function GetRequestedResourceAndDo(cfg: Config, store: Storage.Store, req: Request, fault: Option<string>,
                                     act: Resource -> Result<Rendered, ErrResponse>): (r: Reply)
    ensures GetRequestedResource(cfg, store, req, fault).Failure? ==>
      r == Fail(GetRequestedResource(cfg, store, req, fault).error)
    ensures fault.None? && GetIdParam(cfg, req) !in store ==> r == Fail(NotFound)
    ensures fault.None? && GetIdParam(cfg, req) in store ==>
      var out := act(store[GetIdParam(cfg, req)]);
      (out.Failure? ==> r == Fail(out.error)) &&
      (out.Success? && out.value.view.None? ==> r == NoContent) &&
      (out.Success? && out.value.view.Some? ==> r == Render(StatusOr200(out.value.status), out.value.view.value))
  {
    match GetRequestedResource(cfg, store, req, fault)
    case Failure(e) => Fail(e)
    case Success(x) =>
      match act(x)
      case Failure(e) => Fail(e)
      case Success(Rendered(None, _)) => NoContent
      case Success(Rendered(Some(v), st)) => Render(StatusOr200(st), v)
  }

  /** `API.GetRequestedResourceAndDoMiddleware`: the request goes on to the
      next handler when the resource was fetched and the action accepted it,
      or when the resource is missing and the request is a PUT (which may
      create it); every other failure stops the request with its error. */
  function GetRequestedResourceAndDoMiddleware(cfg: Config, store: Storage.Store, req: Request, fault: Option<string>,
                                               act: (Request, Resource) -> Result<Request, ErrResponse>): (r: Step)
    ensures r.Continue? <==>
      (GetRequestedResource(cfg, store, req, fault).Success? &&
       act(req, GetRequestedResource(cfg, store, req, fault).value).Success?) ||
      (GetRequestedResource(cfg, store, req, fault) == Failure(NotFound) && req.verb == PUT)
    ensures r.Stop? && GetRequestedResource(cfg, store, req, fault).Failure? ==>
      r.err == GetRequestedResource(cfg, store, req, fault).error && !(r.err == NotFound && req.verb == PUT)
    ensures r.Continue? && GetRequestedResource(cfg, store, req, fault).Failure? ==> r.request == req
    ensures GetRequestedResource(cfg, store, req, fault).Success? ==>
      var out := act(req, GetRequestedResource(cfg, store, req, fault).value);
      (out.Success? ==> r == Continue(out.value)) && (out.Failure? ==> r == Stop(out.error))
  {
    match GetRequestedResource(cfg, store, req, fault)
    case Failure(e) =>
      if e == NotFound && req.verb == PUT then Continue(req) else Stop(e)
    case Success(x) =>
      match act(req, x)
      case Failure(e) => Stop(e)
      case Success(req') => Continue(req')
  }

  /** The resource-existence check guarding every ID-scoped route: the
      middleware above with an action that accepts the request unchanged. */
  function ResourceExists(cfg: Config, store: Storage.Store, req: Request, fault: Option<string>): (r: Step)
    ensures r.Continue? <==>
      GetRequestedResource(cfg, store, req, fault).Success? ||
      (GetRequestedResource(cfg, store, req, fault) == Failure(NotFound) && req.verb == PUT)
    ensures r.Continue? ==> r.request == req
    ensures r.Stop? ==> r.err == GetRequestedResource(cfg, store, req, fault).error
  {
    GetRequestedResourceAndDoMiddleware(cfg, store, req, fault, (q: Request, x: Resource) => Success(q))
  }

  /** With a healthy backend, a request for an identifier that is not stored
      is stopped with NotFound, unless it is a PUT, which goes on unchanged. */
  lemma MissingResourceStopsAllButPut(cfg: Config, store: Storage.Store, req: Request)
    requires GetIdParam(cfg, req) !in store
    ensures req.verb == PUT ==> ResourceExists(cfg, store, req, None) == Continue(req)
    ensures req.verb != PUT ==> ResourceExists(cfg, store, req, None) == Stop(NotFound)
  {
  }

  /** The fallback response when rendering fails. */
  function RenderFailure(cause: string): Response {
    Response(RenderError(cause).Status(), Problem(RenderError(cause)))
  }

  /** `Handler`: a nil reply writes nothing more; a value or an error is
      rendered with its status; if rendering fails, the client still gets the
      render-error response. When nothing at all was written, the HTTP server
      answers 200 with an empty body. */
  function Handler(reply: Reply, renderFault: Option<string>): (resp: Response)
    ensures reply.NoContent? ==> resp == Response(StatusNoContent, Empty)
    ensures reply.StatusOnly? ==> resp == Response(reply.code, Empty)
    ensures reply.Nothing? ==> resp == Response(StatusOK, Empty)
    ensures (reply.Render? || reply.Fail?) && renderFault.Some? ==>
      resp == RenderFailure(renderFault.value)
    ensures reply.Fail? && renderFault.None? ==> resp == Response(reply.err.Status(), Problem(reply.err))
    ensures reply.Render? && renderFault.None? ==> resp == Response(reply.status, Shown(reply.view))
  {
    match reply
    case NoContent => Response(StatusNoContent, Empty)
    case StatusOnly(code) => Response(code, Empty)
    case Nothing => Response(StatusOK, Empty)
    case Render(status, view) =>
      if renderFault.Some? then RenderFailure(renderFault.value) else Response(status, Shown(view))
    case Fail(e) =>
      if renderFault.Some? then RenderFailure(renderFault.value) else Response(e.Status(), Problem(e))
  }

  /** No error is swallowed: an error reply always reaches the client as an
      error body with an error status. */
  lemma ErrorsAreRendered(e: ErrResponse, renderFault: Option<string>)
    requires e.Custom? ==> e.code >= 400
    ensures Handler(Fail(e), renderFault).body.Problem?
    ensures Handler(Fail(e), renderFault).status >= 400
  {
  }
}
