/** The default CRUD handlers of router.go. An `Api` holds its descriptor
    and the storage it writes through; the handlers that change storage are
    methods, and `calls` records, in order, the side-effecting steps each one
    took (storage writes and caller hooks), so that "this step never ran" can
    be stated. Hook results and backend failures are the caller's, passed in
    an `Env`. */
module Handlers {
  import opened Http
  import opened Helpers
  import Storage

  /** A side-effecting step taken by a handler. */
  datatype Call = Fetch(id: string) | PatchApplied | Hook | Save(id: string) | BeforeDeleteHook | Remove(id: string) | AfterDeleteHook

  /** The results the caller's hooks and the storage backend give for one
      request: `onCreateOrUpdate`, `beforeDelete` and `afterDelete` are the
      hooks' error responses (None for success); the faults are backend
      failures of `Get`, `Set` and `Delete`. */
  datatype Env = Env(
    getFault: Option<string>,
    setFault: Option<string>,
    deleteFault: Option<string>,
    onCreateOrUpdate: Option<ErrResponse>,
    beforeDelete: Option<ErrResponse>,
    afterDelete: Option<ErrResponse>)

  /** Every hook succeeds and the backend never fails. */
  const Healthy: Env := Env(None, None, None, None, None, None)

  /** The error the replace handler gives when the body's ID is not the path's. */
  const IdMismatch: string := "id must match URL path"

  class Api {
    const cfg: Config
    var store: Storage.Store
    var calls: seq<Call>

    constructor (cfg: Config, store: Storage.Store)
      ensures this.cfg == cfg && this.store == store && calls == []
    {
      this.cfg := cfg;
      this.store := store;
      calls := [];
    }

    /** `defaultGet`: the stored resource, with the GET override status if
        one is registered; 404 when the ID is not stored, 500 on a backend
        failure. */
    function DefaultGet(req: Request, fault: Option<string>): (r: Reply)
      reads this
      ensures fault.Some? ==> r == Fail(InternalError(fault.value))
      ensures fault.None? && GetIdParam(cfg, req) !in store ==> r == Fail(NotFound)
      ensures fault.None? && GetIdParam(cfg, req) in store ==>
        r == Render(SuccessStatus(cfg, GET, StatusOK), Wrap(cfg, store[GetIdParam(cfg, req)]))
    {
      match GetRequestedResource(cfg, store, req, fault)
      case Failure(e) => Fail(e)
      case Success(x) => Render(SuccessStatus(cfg, GET, StatusOK), Wrap(cfg, x))
    }

    /** `defaultGetAll`: `listing` is what the backend's `GetAll` returned for
        the request's filter. A failure is a 500; otherwise the collection
        wrapper is applied if there is one, else each resource is wrapped in
        turn, in the backend's order. */
    method DefaultGetAll(listing: Result<seq<Resource>, string>) returns (reply: Reply)
      ensures listing.Failure? ==> reply == Fail(InternalError(listing.error))
      ensures listing.Success? ==> reply.Render? && reply.status == SuccessStatus(cfg, GET, StatusOK)
      ensures listing.Success? && cfg.listShape.Some? ==>
        reply.view == CustomList(cfg.listShape.value, listing.value)
      ensures listing.Success? && cfg.listShape.None? ==>
        reply.view.ItemList? && |reply.view.items| == |listing.value| &&
        forall i :: 0 <= i < |listing.value| ==> reply.view.items[i] == Wrap(cfg, listing.value[i])
    {
      if listing.Failure? {
        reply := Fail(InternalError(listing.error));
        return;
      }
      var resources := listing.value;
      var resp: View;
      if cfg.listShape.Some? {
        resp := CustomList(cfg.listShape.value, resources);
      } else {
        var items: seq<View> := [];
        for i := 0 to |resources|
          invariant |items| == i
          invariant forall k :: 0 <= k < i ==> items[k] == Wrap(cfg, resources[k])
        {
          items := items + [Wrap(cfg, resources[i])];
        }
        resp := ItemList(items);
      }
      reply := Render(SuccessStatus(cfg, GET, StatusOK), resp);
    }

    /** `defaultPost`: read the body, run the create-or-update hook, store.
        A hook error is returned as it is and nothing is stored; a storage
        failure is a 500; on success the resource is stored under its own ID
        and answered with the POST override status, else 201. */
    method DefaultPost(req: Request, env: Env) returns (reply: Reply)
      modifies this
      ensures !reply.Render? ==> store == old(store)
      ensures GetFromRequest(req.body).Failure? ==>
        reply == Fail(GetFromRequest(req.body).error) && calls == old(calls)
      ensures GetFromRequest(req.body).Success? && env.onCreateOrUpdate.Some? ==>
        reply == Fail(env.onCreateOrUpdate.value) && calls == old(calls) + [Hook]
      ensures GetFromRequest(req.body).Success? && env.onCreateOrUpdate.None? ==>
        var x := GetFromRequest(req.body).value;
        calls == old(calls) + [Hook, Save(x.id)] &&
        (env.setFault.Some? ==> reply == Fail(InternalError(env.setFault.value))) &&
        (env.setFault.None? ==>
          store == old(store)[x.id := x] &&
          reply == Render(SuccessStatus(cfg, POST, StatusCreated), Wrap(cfg, x)))
    {
      var bound := GetFromRequest(req.body);
      if bound.Failure? {
        reply := Fail(bound.error);
        return;
      }
      var x := bound.value;
      var out: Outcome;
      calls := calls + [Hook];
      if env.onCreateOrUpdate.Some? {
        out := Failed(env.onCreateOrUpdate.value);
      } else {
        calls := calls + [Save(x.id)];
        var written := Storage.Set(store, x, env.setFault);
        if written.Failure? {
          out := Failed(InternalError(written.error.cause));
        } else {
          store := written.value;
          out := Done(Some(x), Some(SuccessStatus(cfg, POST, StatusCreated)));
        }
      }
      reply := Respond(cfg, out);
    }

    /** `defaultPut`: the body's ID must equal the ID in the path, or the
        request is invalid and neither the hook nor storage is touched; then
        as create, with the PUT override status, else 200. On success the
        path's ID maps to the body's resource. */
    method DefaultPut(req: Request, env: Env) returns (reply: Reply)
      modifies this
      ensures !reply.Render? ==> store == old(store)
      ensures GetFromRequest(req.body).Failure? ==>
        reply == Fail(GetFromRequest(req.body).error) && calls == old(calls)
      ensures GetFromRequest(req.body).Success? && GetFromRequest(req.body).value.id != GetIdParam(cfg, req) ==>
        reply == Fail(InvalidRequest(IdMismatch)) && calls == old(calls)
      ensures GetFromRequest(req.body).Success? && GetFromRequest(req.body).value.id == GetIdParam(cfg, req) ==>
        var x := GetFromRequest(req.body).value;
        (env.onCreateOrUpdate.Some? ==> reply == Fail(env.onCreateOrUpdate.value) && calls == old(calls) + [Hook]) &&
        (env.onCreateOrUpdate.None? ==> calls == old(calls) + [Hook, Save(x.id)]) &&
        (env.onCreateOrUpdate.None? && env.setFault.Some? ==> reply == Fail(InternalError(env.setFault.value))) &&
        (env.onCreateOrUpdate.None? && env.setFault.None? ==>
          store == old(store)[GetIdParam(cfg, req) := x] &&
          reply == Render(SuccessStatus(cfg, PUT, StatusOK), Wrap(cfg, x)))
    {
      var bound := GetFromRequest(req.body);
      if bound.Failure? {
        reply := Fail(bound.error);
        return;
      }
      var x := bound.value;
      var out: Outcome;
      if x.id != GetIdParam(cfg, req) {
        out := Failed(InvalidRequest(IdMismatch));
      } else {
        calls := calls + [Hook];
        if env.onCreateOrUpdate.Some? {
          out := Failed(env.onCreateOrUpdate.value);
        } else {
          calls := calls + [Save(x.id)];
          var written := Storage.Set(store, x, env.setFault);
          if written.Failure? {
            out := Failed(InternalError(written.error.cause));
          } else {
            store := written.value;
            out := Done(Some(x), Override(cfg, PUT));
          }
        }
      }
      reply := Respond(cfg, out);
    }

    /** `defaultPatch`: fetch the addressed resource, check that the resource
        type can be patched (405 otherwise), apply the patch, run the hook,
        store. The steps run in that order and the first failure ends the
        request, so storage changes only when every step succeeded. */
    method DefaultPatch(req: Request, patch: (Resource, Resource) -> Result<Resource, ErrResponse>, env: Env)
      returns (reply: Reply)
      modifies this
      ensures !reply.Render? ==> store == old(store)
      ensures !cfg.patchable ==> reply.Fail?
      ensures GetFromRequest(req.body).Failure? ==>
        reply == Fail(GetFromRequest(req.body).error) && calls == old(calls)
      ensures GetFromRequest(req.body).Success? ==>
        var patchRequest := GetFromRequest(req.body).value;
        var fetched := GetRequestedResource(cfg, old(store), req, env.getFault);
        var pre := old(calls) + [Fetch(GetIdParam(cfg, req))];
        (fetched.Failure? ==> reply == Fail(fetched.error) && calls == pre) &&
        (fetched.Success? && !cfg.patchable ==> reply == Fail(MethodNotAllowed) && calls == pre) &&
        (fetched.Success? && cfg.patchable ==>
          var patched := patch(fetched.value, patchRequest);
          (patched.Failure? ==> reply == Fail(patched.error) && calls == pre + [PatchApplied]) &&
          (patched.Success? && env.onCreateOrUpdate.Some? ==>
            reply == Fail(env.onCreateOrUpdate.value) && calls == pre + [PatchApplied, Hook]) &&
          (patched.Success? && env.onCreateOrUpdate.None? ==>
            var x := patched.value;
            calls == pre + [PatchApplied, Hook, Save(x.id)] &&
            (env.setFault.Some? ==> reply == Fail(InternalError(env.setFault.value))) &&
            (env.setFault.None? ==>
              store == old(store)[x.id := x] &&
              reply == Render(SuccessStatus(cfg, PATCH, StatusOK), Wrap(cfg, x)))))
    {
      var bound := GetFromRequest(req.body);
      if bound.Failure? {
        reply := Fail(bound.error);
        return;
      }
      var patchRequest := bound.value;
      var out: Outcome;
      calls := calls + [Fetch(GetIdParam(cfg, req))];
      var fetched := GetRequestedResource(cfg, store, req, env.getFault);
      if fetched.Failure? {
        out := Failed(fetched.error);
      } else if !cfg.patchable {
        out := Failed(MethodNotAllowed);
      } else {
        calls := calls + [PatchApplied];
        var patched := patch(fetched.value, patchRequest);
        if patched.Failure? {
          out := Failed(patched.error);
        } else {
          var x := patched.value;
          calls := calls + [Hook];
          if env.onCreateOrUpdate.Some? {
            out := Failed(env.onCreateOrUpdate.value);
          } else {
            calls := calls + [Save(x.id)];
            var written := Storage.Set(store, x, env.setFault);
            if written.Failure? {
              out := Failed(InternalError(written.error.cause));
            } else {
              store := written.value;
              out := Done(Some(x), Override(cfg, PATCH));
            }
          }
        }
      }
      reply := Respond(cfg, out);
    }

    /** `defaultDelete`: the before-delete hook, then the storage delete
        (404 when the ID is not stored, 500 on a backend failure), then the
        after-delete hook, which runs only once the delete succeeded. Success
        is 204 with no content, or the DELETE override status with an empty
        body. */
    method DefaultDelete(req: Request, env: Env) returns (reply: Reply)
      modifies this
      ensures env.beforeDelete.Some? ==>
        reply == Fail(env.beforeDelete.value) && store == old(store) && calls == old(calls) + [BeforeDeleteHook]
      ensures env.beforeDelete.None? ==>
        var id := GetIdParam(cfg, req);
        var removed := Storage.Delete(old(store), id, env.deleteFault);
        (removed.Failure? ==>
          store == old(store) && calls == old(calls) + [BeforeDeleteHook, Remove(id)] &&
          reply == Fail(FromStorage(removed.error))) &&
        (removed.Success? ==>
          store == old(store) - {id} && id !in store &&
          calls == old(calls) + [BeforeDeleteHook, Remove(id), AfterDeleteHook] &&
          (env.afterDelete.Some? ==> reply == Fail(env.afterDelete.value)) &&
          (env.afterDelete.None? && DELETE in cfg.codes ==> reply == StatusOnly(cfg.codes[DELETE])) &&
          (env.afterDelete.None? && DELETE !in cfg.codes ==> reply == NoContent))
      ensures env.beforeDelete.None? && env.deleteFault.None? && GetIdParam(cfg, req) !in old(store) ==>
        reply == Fail(NotFound)
    {
      calls := calls + [BeforeDeleteHook];
      if env.beforeDelete.Some? {
        reply := Fail(env.beforeDelete.value);
        return;
      }
      var id := GetIdParam(cfg, req);
      calls := calls + [Remove(id)];
      var removed := Storage.Delete(store, id, env.deleteFault);
      if removed.Failure? {
        reply := Fail(FromStorage(removed.error));
        return;
      }
      store := removed.value;
      calls := calls + [AfterDeleteHook];
      if env.afterDelete.Some? {
        reply := Fail(env.afterDelete.value);
        return;
      }
      reply := DeleteSuccess(cfg);
    }
  }

  /** The reply of a successful delete as the handler writes it: with a
      DELETE override it only sets the status on the request and returns nil,
      so nothing is written; without one it writes 204. */
  function DeleteSuccessAsWritten(cfg: Config): (r: Reply)
    ensures DELETE in cfg.codes ==> r == Nothing
    ensures DELETE !in cfg.codes ==> r == NoContent
  {
    if DELETE in cfg.codes then Nothing else NoContent
  }

  /** The reply of a successful delete as intended: the override status with
      an empty body, else 204. */
  function DeleteSuccess(cfg: Config): (r: Reply)
    ensures Handler(r, None) == Response(SuccessStatus(cfg, DELETE, StatusNoContent), Empty)
    ensures DELETE in cfg.codes ==> r == StatusOnly(cfg.codes[DELETE])
    ensures DELETE !in cfg.codes ==> r == NoContent
  {
    if DELETE in cfg.codes then StatusOnly(cfg.codes[DELETE]) else NoContent
  }

  /** As written, a DELETE override other than 200 never reaches the client:
      the server's implicit 200 is sent instead; the intended reply carries
      the override. Without an override both send 204. */
  lemma DeleteOverrideIsLost(cfg: Config)
    ensures DELETE in cfg.codes && cfg.codes[DELETE] != StatusOK ==>
      Handler(DeleteSuccessAsWritten(cfg), None).status != cfg.codes[DELETE] &&
      Handler(DeleteSuccess(cfg), None).status == cfg.codes[DELETE]
    ensures DELETE !in cfg.codes ==>
      Handler(DeleteSuccessAsWritten(cfg), None) == Handler(DeleteSuccess(cfg), None) == Response(StatusNoContent, Empty)
  {
  }

  /** A delete is effective at once: with the before-delete hook passing and
      a healthy backend, reading the same ID afterwards is NotFound, whether
      or not it was stored before. */
  method DeleteThenGet(api: Api, req: Request, env: Env) returns (deleted: Reply, read: Reply)
    modifies api
    ensures env.beforeDelete.None? && env.deleteFault.None? ==> read == Fail(NotFound)
    ensures deleted.NoContent? || deleted.StatusOnly? ==> read == Fail(NotFound)
  {
    deleted := api.DefaultDelete(req, env);
    read := api.DefaultGet(req, None);
  }

  /** A successful replace is visible at once: reading the same path gives
      back the resource that was sent. */
  method PutThenGet(api: Api, req: Request, env: Env) returns (replaced: Reply, read: Reply)
    modifies api
    ensures replaced.Render? ==>
      GetFromRequest(req.body).Success? &&
      read == Render(SuccessStatus(api.cfg, GET, StatusOK), Wrap(api.cfg, GetFromRequest(req.body).value))
  {
    replaced := api.DefaultPut(req, env);
    read := api.DefaultGet(req, None);
  }

  /** A widget's life: create it, read it back, apply a no-op patch, delete
      it, and read it again. */
  method WidgetLifecycle(x: Resource) returns (created: Reply, read: Reply, patched: Reply, deleted: Reply, gone: Reply)
    ensures created == Render(StatusCreated, Plain(x))
    ensures read == Render(StatusOK, Plain(x))
    ensures patched == Render(StatusOK, Plain(x))
    ensures deleted == NoContent
    ensures gone == Fail(NotFound)
  {
    var cfg := Config("widget", "/widgets", false, true, map[], None, None);
    var api := new Api(cfg, map[]);
    var path := "/widgets/" + x.id;
    var params := map[Ids.IdParamKey("widget") := x.id];
    var noBody := Raw(Failure("empty body"));
    created := api.DefaultPost(Request(POST, "/widgets", map[], InContext(x)), Healthy);
    read := api.DefaultGet(Request(GET, path, params, noBody), None);
    patched := api.DefaultPatch(Request(PATCH, path, params, InContext(x)),
                                (current: Resource, request: Resource) => Success(current), Healthy);
    deleted := api.DefaultDelete(Request(DELETE, path, params, noBody), Healthy);
    gone := api.DefaultGet(Request(GET, path, params, noBody), None);
  }
}
