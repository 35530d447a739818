# babyapi core, modelled in Dafny

babyapi is a generic REST-resource routing engine. From one resource type and
one storage backend it derives a full set of CRUD routes:

- POST and GET on the collection;
- GET, DELETE, PUT and PATCH on `/{<name>ID}`.

It nests child APIs under their parent's ID path, and it lets callers add
middlewares, custom routes, response wrappers, status-code overrides and hooks.

This project models the core of that engine:

- `http.dfy` holds the shared vocabulary: HTTP methods, the uniform error
  response with its status codes, resources, and Option/Result.
- `storage.dfy` holds the storage backend as the handlers see it: a map from
  identifier to resource with a not-found error. A backend failure is an
  explicit `fault` parameter.
- `ids.dfy` holds the ID resolver: the parameter key `<name>ID`,
  `strings.Index`, `strings.TrimPrefix`, and the raw-path scan `findIDParam`.
- `helpers.dfy` holds the request wrappers of `helpers.go` as pure decision
  functions:
  - ID resolution and resource lookup;
  - reading the body;
  - the "read body / act / respond" and "fetch / act / respond" wrappers;
  - the ID-scoped middleware, with its PUT exception;
  - `Handler`, with its fallback render-error path.
- `handlers.dfy` holds the default CRUD handlers of `router.go`:
  - an `Api` class whose `store` the mutating handlers update in place;
  - a `calls` trace that records, in order, the storage writes and hook calls
    each handler made;
  - `defaultGetAll`'s loop, kept as a loop;
  - the end-to-end widget scenario.
- `routes.dfy` holds route composition:
  - `Routes` describes, as a set, every registration `API.Route` makes for a
    tree of API descriptors;
  - a `Router` class registers entries in order;
  - its `Route`, `DoCustomRoutes` and helper methods are proved to register
    exactly that set;
  - lemmas state where routes land, who owns the CRUD routes, and that the
    default middleware appears only at the top.

Registrations are specified as a set because custom routes keep their
handlers in a Go map, and Go's map iteration order is unspecified. The
`entries` sequence still records the order actually taken.

## Model

| member | source | states |
|---|---|---|
| Ids.IdParamKey | helpers.go:17-19 | the key is the resource name followed by "ID" |
| Ids.IdParamKeyInjective | helpers.go:17-19 | two resource names give the same parameter key exactly when they are equal |
| Ids.WidgetKey | helpers.go:17-19 | the key of the resource "widget" is "widgetID" |
| Ids.IndexOf | helpers.go:54 | `strings.Index`: -1 exactly when the substring occurs nowhere; otherwise an occurrence with none before it |
| Ids.TrimSlash | helpers.go:60 | one leading '/' is removed when there is one; otherwise the text is unchanged |
| Ids.FindIdParam | helpers.go:53-70 | the result holds no '/'; it is "" when the base does not occur; otherwise it is the prefix of the text after the base (one leading '/' dropped) that ends at that text's end or just before a '/' |
| Ids.FindIdParamNested | helpers.go:53-70 | for a path pre + base + "/" + id + rest, where the base does not occur earlier, id holds no '/' and rest is empty or starts with '/', the scan yields id |
| Ids.FindIdParamMatchesSubstring | helpers.go:54-67 | the base is matched as a substring, not as a path segment: a path that starts with a longer base extending it (parent "/users", child "/user") yields the extra characters ("s"), whatever follows |
| Ids.FindIdParamAtBase | helpers.go:59-64 | a path that ends at its first occurrence of the base yields "" |
| Ids.FindIdParamAbsent | helpers.go:54-57 | a path in which the base never occurs yields "" |
| Storage.Get | helpers.go:196-203 | a backend fault is returned as it is; otherwise success exactly when the ID is stored, with the stored value, and not-found otherwise |
| Storage.Set | router.go:158-162 | a fault leaves a failure; otherwise the resource is stored under its own ID and every other entry is kept |
| Storage.Delete | router.go:260-269 | a fault leaves a failure; a missing ID is not-found; otherwise exactly that ID is removed and the rest is kept |
| Storage.SetThenGet | router.go:158 | what is stored reads back |
| Storage.DeleteThenGet | router.go:260 | a deleted ID reads back as not-found |
| Helpers.UrlParam | helpers.go:23 | the typed path parameter when present, else "" |
| Helpers.GetIdParam | helpers.go:37-43 | a non-empty typed parameter wins; otherwise an API with no parent gets "" and a child API gets the result of the raw-path scan |
| Helpers.ChildIdFromPath | helpers.go:37-70 | a child API whose typed parameter is missing resolves its ID from a path pre/base/id/..., where pre (the parent's part of the path) does not contain the child's base |
| Helpers.FromStorage | helpers.go:197-202 | the error is a 404 exactly when storage reported not-found; any other storage error becomes an internal error with the same cause |
| Helpers.GetRequestedResource | helpers.go:193-206 | a backend fault is a 500; otherwise success exactly when the resolved ID is stored, with the stored value; NotFound otherwise |
| Helpers.GetFromRequest | helpers.go:177-190 | a resource in the request context wins; otherwise success exactly when binding succeeded, and a binding error becomes InvalidRequest |
| Helpers.Wrap | router.go:113 | the response wrapper keeps the resource and is the plain resource when no wrapper is configured |
| Helpers.SuccessStatus | router.go:164-169 | the override for the method if one is registered, else the handler's default |
| Helpers.Override | router.go:195-198 | an override is set exactly when one is registered for the method |
| Helpers.Respond | helpers.go:140-150 | an action error is the reply; a nil result, and only that, is "no content"; a resource is rendered through the response wrapper with the status the action set, else 200 |
| Helpers.ReadRequestBodyAndDo | helpers.go:133-152 | a body error is the reply without running the action; otherwise the action's outcome is turned into the reply |
| Helpers.DecodeFailureSkipsAction | helpers.go:135-138 | when binding fails, the reply is an error and does not depend on the action |
| Helpers.ReadRequestBodyAndRender | helpers.go:155-169 | body and action errors are the reply; a renderer is rendered with the status the action set, else 200; a nil renderer writes nothing; it never writes 204 |
| Helpers.GetRequestedResourceAndDo | helpers.go:74-96 | a lookup error is the reply; a missing ID is NotFound; otherwise the action's error, its renderer with the status the action set (else 200), or "no content" for a nil renderer |
| Helpers.GetRequestedResourceAndDoMiddleware | helpers.go:101-130 | the request goes on exactly when the lookup and the action both succeed, or when the lookup was NotFound and the method is PUT; after a successful lookup the request the action returned goes on, or the action's error stops it; any other lookup failure stops it with that error |
| Helpers.ResourceExists | router.go:61 | the existence check before every ID-scoped route: the request goes on unchanged exactly when the resource was found, or was not found and the method is PUT; otherwise it stops with the lookup error |
| Helpers.MissingResourceStopsAllButPut | helpers.go:107-119 | with a healthy backend, a missing ID stops every method with NotFound except PUT, which goes on unchanged |
| Helpers.Handler | helpers.go:208-228 | a value or an error is rendered with its status; when rendering fails, the render-error response is sent instead; a nil reply with nothing written leaves the server's implicit 200 with an empty body |
| Helpers.ErrorsAreRendered | helpers.go:217-226 | an error reply always reaches the client as an error body with a status of at least 400, even when rendering fails |
| Handlers.Api.DefaultGet | router.go:98-115 | the stored resource, wrapped, with the GET override or 200; NotFound for a missing ID; 500 on a backend fault |
| Handlers.Api.DefaultGetAll | router.go:117-146 | a listing failure is a 500; otherwise the collection wrapper if configured, else one wrapped item per resource in the backend's order, with the GET override or 200 |
| Handlers.Api.DefaultPost | router.go:148-173 | a body error touches nothing; a hook error is returned and nothing is stored; otherwise the resource is stored under its ID and answered with the POST override or 201, or 500 if the write fails; storage changes only on success |
| Handlers.Api.DefaultPut | router.go:175-202 | a body ID that differs from the path ID is InvalidRequest before the hook or storage is touched; otherwise as create, answered with the PUT override or 200 |
| Handlers.Api.DefaultPatch | router.go:204-245 | fetch, patchability check (405), patch, hook, store, in that order: the first failure is the reply and the later steps do not run; on success the patched resource is stored and answered with the PATCH override or 200 |
| Handlers.Api.DefaultDelete | router.go:247-286 | a before-hook error stops it; a missing ID is NotFound and a backend fault is a 500, with storage unchanged; after a removal the after-hook runs, and success is 204 or, as intended, the DELETE override with an empty body |
| Handlers.DeleteSuccessAsWritten | router.go:277-284 | the success reply as written: with a DELETE override nothing is written; otherwise 204 |
| Handlers.DeleteSuccess | router.go:277-284 | the success reply as intended: the client gets the DELETE override, else 204, with an empty body |
| Handlers.DeleteOverrideIsLost | router.go:277-284 | as written, a DELETE override other than 200 never reaches the client, while the intended reply carries it; without an override both send 204 |
| Handlers.DeleteThenGet | router.go:247-286 | with a passing before-hook and a healthy backend, a GET after DELETE on the same ID is NotFound |
| Handlers.PutThenGet | router.go:175-202 | after a successful PUT, a GET on the same path returns the resource that was sent |
| Handlers.WidgetLifecycle | router.go:148-286 | the widget scenario: create is 201, read and a no-op patch are 200 with the same resource, delete is 204, and a second read is NotFound |
| Routes.CustomSet | router.go:90-96 | the registrations of a list of custom routes, as a set |
| Routes.CustomSetMembers | router.go:90-96 | a registration is among them exactly when one of the custom routes declares it |
| Routes.CustomSetShape | router.go:90-96 | custom routes register only handlers, each at a path under the scope they are mounted at |
| Routes.Routes | router.go:22-80 | the set of registrations `Route` makes for a descriptor tree: the API's middlewares; for the top API its root routes and the default middleware at its base; then either the children under the base (root API) or the six default routes, the existence check and ID-scoped middlewares, the children, the custom ID routes and the custom routes |
| Routes.CrudOwner | router.go:51-73 | every CRUD route in a tree belongs to an API of that tree that is not a root API |
| Routes.KidsOwner | router.go:71-73 | every CRUD route mounted by the children belongs to one of the children's trees |
| Routes.RootApiHasNoCrudRoutes | router.go:51-56 | a root API registers no default route of its own |
| Routes.NonRootApiCrudRoutes | router.go:58-69 | a non-root API's own default routes are exactly POST and GET on the collection and GET, DELETE, PUT and PATCH on the item |
| Routes.NoDefaultMiddlewareBelow | router.go:45-49 | an API with a parent never registers the default middleware |
| Routes.NoDefaultMiddlewareInKids | router.go:71-73 | no child subtree registers the default middleware |
| Routes.DefaultMiddlewareOnlyAtTop | router.go:45-49 | the default middleware is registered at a scope exactly when the API has no parent and the scope is its base |
| Routes.UnderPrefix | router.go:37-79 | every registration of a tree lies under the prefix the tree was mounted at |
| Routes.KidsUnder | router.go:71-73 | every registration of the children lies under the scope they are mounted at |
| Routes.ChildMounted | router.go:51-73 | each child's whole subtree is registered, as an API with a parent, under the parent's ID path (or under a root API's base) |
| Routes.KidsContain | router.go:71-73 | each child's subtree is part of what the children register |
| Routes.Router.Register | router.go:93 | one entry is appended and the registered set grows by it |
| Routes.Router.UseAll | router.go:37-39 | one registration per middleware at the scope |
| Routes.Router.DoCustomRoutes | router.go:90-96 | one registration per (method, handler) pair of every route, at scope + pattern; the number of entries added is the total handler count |
| Routes.Router.RegisterCustom | router.go:92-94 | one registration per method of a custom route, whatever order the map yields |
| Routes.Router.Route | router.go:22-80 | the router's registrations grow by exactly `Routes(d, prefix, top)` |
| Routes.Router.RegisterOwn | router.go:58-69 | the six default routes, the existence check at the ID path and the ID-scoped middlewares |
| Routes.Router.RegisterCollection | router.go:58-59 | POST and GET on the collection path |
| Routes.Router.RegisterItem | router.go:66-69 | GET, DELETE, PUT and PATCH on the item path |
| Routes.Router.MountAll | router.go:71-73 | every child's routes are registered under the scope |

## Left out

- Replacing `render.Respond` with an HTML-aware responder under a mutex (router.go:23-35). This is process-global I/O configuration, and content negotiation is not modelled.
- `MustRenderHTML` and `MustRenderHTMLMap`. Template rendering is outside the core.
- Logging throughout. It has no effect on replies.
- Path-pattern matching by the routing library. Routes are registered as (method, pattern) entries, and matching a request against them is not modelled.
- Binding the body (`render.Bind`) and the resource's own validation. Their outcome is the `Raw(bound)` parameter.
- The storage backend. It is a map plus injected faults, and `GetAll`'s filter is the backend's: `DefaultGetAll` takes the listing it returned.
- The `onCreateOrUpdate`, `beforeDelete` and `afterDelete` hooks, and the resource's `Patch`. Their results are parameters. Whether a resource type is a patcher is the `patchable` flag.
- The bodies of the existence-check middleware and the default middleware, which live outside `helpers.go` and `router.go`. The existence check is modelled as `Helpers.ResourceExists`; in `routes.dfy` both are named registrations.
- `requestBodyMiddleware` on POST, PUT and PATCH. Its placement is not recorded in the route entries.
- Routes.Router.Route: its contract is a set, so it does not state the order of registrations, and the routing library's rule that a router refuses `Use` once it has routes is not modelled. A child API registers its middlewares (router.go:37-39) on its parent's ID sub-router after the parent's GET, DELETE, PUT and PATCH were registered there (router.go:66-73). A child of a root API does the same after any earlier sibling's routes. So a child API that carries middlewares makes the program panic at registration time when it sits under a non-root API, or follows a sibling under a root API. For those trees the contract still describes a complete registration.
- Handlers.Api.DefaultPatch: the source patches the fetched resource in place (router.go:214-219), while the model computes a new value. "Storage changes only on success" therefore holds only for a backend whose `Get` returns a copy. With a backend that hands out shared objects, `Patch` has already changed the stored object when the hook or the write fails afterwards, or when `Patch` itself fails after a partial change.
- Http.ErrResponse: the render-error status 422 and the other error constructors are defined in errors.go, which is not part of this model.
- Helpers.Respond: Go compares the result with the zero value of `T`. The model uses `None` for the nil pointer result and does not model non-pointer resource types.

## Findings

| source | as written | input that shows it | evidently intended | confidence | as-written member | corrected member |
|---|---|---|---|---|---|---|
| router.go:277-284 | on success with a DELETE override, the handler only sets the status on the request and returns nil, so `Handler` writes nothing and the server sends its implicit 200 with an empty body | a DELETE override of 202 and a successful delete; `Handlers.DeleteOverrideIsLost` shows the status sent is not 202 | the override status with an empty body | not executed; depends on the server answering 200 when a handler writes nothing | Handlers.DeleteSuccessAsWritten | Handlers.DeleteSuccess |

`Handlers.Api.DefaultDelete` uses the corrected reply.
