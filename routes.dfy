/** Route composition (router.go): how a tree of API descriptors becomes the
    registrations made on the router. A registration either attaches a
    middleware to every route under a scope, or handles one method at one
    path. Custom routes keep their handlers in a Go map, whose iteration order
    is unspecified, so what `Route` registers is specified as a set. */
module Routes {
  import opened Http
  import opened Ids

  /** The default handler behind a CRUD route. */
  datatype Op = Create | ReadAll | ReadOne | Replace | Update | Remove

  datatype Handler = Crud(api: string, op: Op) | CustomHandler(id: string)

  datatype Middleware = Named(id: string) | DefaultMiddleware | ResourceExists(api: string)

  datatype Entry = Use(scope: string, mw: Middleware) | Handle(verb: Method, path: string, handler: Handler)

  /** A caller-declared route: a pattern and a handler per method. */
  datatype CustomRoute = CustomRoute(pattern: string, handlers: map<Method, string>)

  /** An API descriptor and, in order, the child APIs registered on it. */
  datatype ApiDesc = ApiDesc(
    name: string,
    base: string,
    rootApi: bool,
    middlewares: seq<string>,
    idMiddlewares: seq<string>,
    rootRoutes: seq<CustomRoute>,
    customRoutes: seq<CustomRoute>,
    customIdRoutes: seq<CustomRoute>,
    subApis: seq<ApiDesc>)

  /** The collection path of `d` mounted under `prefix`. */
  function CollectionPath(d: ApiDesc, prefix: string): string {
    prefix + d.base + "/"
  }

  /** The ID-scoped mount point of `d` under `prefix`: base/{<name>ID}. */
  function IdPath(d: ApiDesc, prefix: string): string {
    prefix + d.base + "/{" + IdParamKey(d.name) + "}"
  }

  /** Where a registration applies. */
  function Location(e: Entry): string {
    if e.Use? then e.scope else e.path
  }

  function Uses(scope: string, mws: seq<string>): set<Entry> {
    set m | m in mws :: Use(scope, Named(m))
  }

  /** The registrations of one custom route mounted at `scope`. */
  function OneCustom(cr: CustomRoute, scope: string): set<Entry> {
    set m | m in cr.handlers :: Handle(m, scope + cr.pattern, CustomHandler(cr.handlers[m]))
  }

  /** `doCustomRoutes`: every (method, handler) entry of every route, and
      nothing else. */
  function CustomSet(routes: seq<CustomRoute>, scope: string): set<Entry>
    decreases |routes|
  {
    if routes == [] then {}
    else CustomSet(routes[..|routes| - 1], scope) + OneCustom(routes[|routes| - 1], scope)
  }

  /** How many registrations `doCustomRoutes` makes. */
  function HandlerCount(routes: seq<CustomRoute>): nat
    decreases |routes|
  {
    if routes == [] then 0
    else HandlerCount(routes[..|routes| - 1]) + |routes[|routes| - 1].handlers.Keys|
  }

  /** The six default routes of a non-root API. */
  function CrudRoutes(d: ApiDesc, prefix: string): set<Entry> {
    var collection := CollectionPath(d, prefix);
    var item := IdPath(d, prefix) + "/";
    { Handle(POST, collection, Crud(d.name, Create)),
      Handle(GET, collection, Crud(d.name, ReadAll)),
      Handle(GET, item, Crud(d.name, ReadOne)),
      Handle(DELETE, item, Crud(d.name, Remove)),
      Handle(PUT, item, Crud(d.name, Replace)),
      Handle(PATCH, item, Crud(d.name, Update)) }
  }

  /** Everything `d.Route` registers when called on a router mounted at
      `prefix`; `top` says that `d` has no parent. */
  function Routes(d: ApiDesc, prefix: string, top: bool): set<Entry>
    decreases d, |d.subApis| + 1
  {
    var mount := prefix + d.base;
    Uses(prefix, d.middlewares)
    + (if top then CustomSet(d.rootRoutes, prefix) + {Use(mount, DefaultMiddleware)} else {})
    + (if d.rootApi then Kids(d, |d.subApis|, mount)
       else
         var idPath := IdPath(d, prefix);
         CrudRoutes(d, prefix)
         + {Use(idPath, ResourceExists(d.name))}
         + Uses(idPath, d.idMiddlewares)
         + Kids(d, |d.subApis|, idPath)
         + CustomSet(d.customIdRoutes, idPath)
         + CustomSet(d.customRoutes, mount))
  }

  /** The routes of the first `n` children of `d`, each mounted at `scope`. */
  function Kids(d: ApiDesc, n: nat, scope: string): set<Entry>
    requires n <= |d.subApis|
    decreases d, n
  {
    if n == 0 then {} else Kids(d, n - 1, scope) + Routes(d.subApis[n - 1], scope, false)
  }

  /** The names of the APIs in the tree of `d` that have CRUD routes. */
  function CrudNames(d: ApiDesc): set<string>
    decreases d, |d.subApis| + 1
  {
    (if d.rootApi then {} else {d.name}) + KidsCrudNames(d, |d.subApis|)
  }

  function KidsCrudNames(d: ApiDesc, n: nat): set<string>
    requires n <= |d.subApis|
    decreases d, n
  {
    if n == 0 then {} else KidsCrudNames(d, n - 1) + CrudNames(d.subApis[n - 1])
  }

  /** `e` is a default CRUD route of the API named `name`. */
  predicate IsCrudOf(e: Entry, name: string) {
    e.Handle? && e.handler.Crud? && e.handler.api == name
  }

  /** A registration comes from the custom routes exactly when one of them
      declares it. */
  lemma {:induction false} CustomSetMembers(routes: seq<CustomRoute>, scope: string, e: Entry)
    ensures e in CustomSet(routes, scope) <==> exists i :: 0 <= i < |routes| && e in OneCustom(routes[i], scope)
    decreases |routes|
  {
    if routes != [] {
      var init := routes[..|routes| - 1];
      CustomSetMembers(init, scope, e);
      if e in CustomSet(init, scope) {
        var i :| 0 <= i < |init| && e in OneCustom(init[i], scope);
        assert routes[i] == init[i];
      }
      if exists i :: 0 <= i < |routes| && e in OneCustom(routes[i], scope) {
        var i :| 0 <= i < |routes| && e in OneCustom(routes[i], scope);
        if i < |init| {
          assert init[i] == routes[i];
        }
      }
    }
  }

  /** Custom routes only ever add handlers, each under the given scope. */
  lemma {:induction false} CustomSetShape(routes: seq<CustomRoute>, scope: string)
    ensures forall e :: e in CustomSet(routes, scope) ==>
      e.Handle? && e.handler.CustomHandler? && scope <= e.path
    decreases |routes|
  {
    if routes != [] {
      CustomSetShape(routes[..|routes| - 1], scope);
    }
  }

  /** Every default CRUD route in the tree of `d` belongs to an API of that
      tree that is not a root API. */
  lemma {:induction false} CrudOwner(d: ApiDesc, prefix: string, top: bool)
    ensures forall e :: e in Routes(d, prefix, top) && e.Handle? && e.handler.Crud? ==> e.handler.api in CrudNames(d)
    decreases d, |d.subApis| + 1
  {
    var mount := prefix + d.base;
    CustomSetShape(d.rootRoutes, prefix);
    CustomSetShape(d.customRoutes, mount);
    CustomSetShape(d.customIdRoutes, IdPath(d, prefix));
    if d.rootApi {
      KidsOwner(d, |d.subApis|, mount);
    } else {
      KidsOwner(d, |d.subApis|, IdPath(d, prefix));
    }
  }

  lemma {:induction false} KidsOwner(d: ApiDesc, n: nat, scope: string)
    requires n <= |d.subApis|
    ensures forall e :: e in Kids(d, n, scope) && e.Handle? && e.handler.Crud? ==> e.handler.api in KidsCrudNames(d, n)
    decreases d, n
  {
    if n > 0 {
      KidsOwner(d, n - 1, scope);
      CrudOwner(d.subApis[n - 1], scope, false);
    }
  }

  /** A root API registers no CRUD route of its own: when no API below it
      shares its name, no route handled by its default handlers exists. */
  lemma RootApiHasNoCrudRoutes(d: ApiDesc, prefix: string, top: bool)
    requires d.rootApi && d.name !in KidsCrudNames(d, |d.subApis|)
    ensures forall e :: e in Routes(d, prefix, top) ==> !IsCrudOf(e, d.name)
  {
    CrudOwner(d, prefix, top);
  }

  /** A non-root API registers exactly the six default routes: POST and GET
      on the collection, GET, DELETE, PUT and PATCH on the item, when no API
      below it shares its name. */
  lemma NonRootApiCrudRoutes(d: ApiDesc, prefix: string, top: bool)
    requires !d.rootApi && d.name !in KidsCrudNames(d, |d.subApis|)
    ensures (set e | e in Routes(d, prefix, top) && IsCrudOf(e, d.name)) == CrudRoutes(d, prefix)
  {
    var idPath := IdPath(d, prefix);
    CustomSetShape(d.rootRoutes, prefix);
    CustomSetShape(d.customRoutes, prefix + d.base);
    CustomSetShape(d.customIdRoutes, idPath);
    KidsOwner(d, |d.subApis|, idPath);
  }

  /** Custom routes never register a middleware. */
  lemma {:induction false} NoDefaultMiddlewareBelow(d: ApiDesc, prefix: string)
    ensures forall s :: Use(s, DefaultMiddleware) !in Routes(d, prefix, false)
    decreases d, |d.subApis| + 1
  {
    var mount := prefix + d.base;
    CustomSetShape(d.customRoutes, mount);
    CustomSetShape(d.customIdRoutes, IdPath(d, prefix));
    if d.rootApi {
      NoDefaultMiddlewareInKids(d, |d.subApis|, mount);
    } else {
      NoDefaultMiddlewareInKids(d, |d.subApis|, IdPath(d, prefix));
    }
  }

  lemma {:induction false} NoDefaultMiddlewareInKids(d: ApiDesc, n: nat, scope: string)
    requires n <= |d.subApis|
    ensures forall s :: Use(s, DefaultMiddleware) !in Kids(d, n, scope)
    decreases d, n
  {
    if n > 0 {
      NoDefaultMiddlewareInKids(d, n - 1, scope);
      NoDefaultMiddlewareBelow(d.subApis[n - 1], scope);
    }
  }

  /** The default middleware is applied exactly once in a tree: at the base
      of the API that has no parent. */
  lemma DefaultMiddlewareOnlyAtTop(d: ApiDesc, prefix: string, top: bool, s: string)
    ensures Use(s, DefaultMiddleware) in Routes(d, prefix, top) <==> top && s == prefix + d.base
  {
    NoDefaultMiddlewareBelow(d, prefix);
    CustomSetShape(d.rootRoutes, prefix);
    if top {
      assert Routes(d, prefix, true) == Routes(d, prefix, false) + CustomSet(d.rootRoutes, prefix) + {Use(prefix + d.base, DefaultMiddleware)};
    }
  }

  /** Every registration of the tree of `d` lies under the prefix it was
      mounted at. */
  lemma {:induction false} UnderPrefix(d: ApiDesc, prefix: string, top: bool)
    ensures forall e :: e in Routes(d, prefix, top) ==> prefix <= Location(e)
    decreases d, |d.subApis| + 1
  {
    var mount := prefix + d.base;
    var idPath := IdPath(d, prefix);
    CustomSetShape(d.rootRoutes, prefix);
    CustomSetShape(d.customRoutes, mount);
    CustomSetShape(d.customIdRoutes, idPath);
    assert prefix <= mount;
    assert mount <= idPath;
    if d.rootApi {
      KidsUnder(d, |d.subApis|, mount);
    } else {
      KidsUnder(d, |d.subApis|, idPath);
    }
    forall e | e in Routes(d, prefix, top) ensures prefix <= Location(e) {
      PrefixTransitive(prefix, mount, idPath, Location(e));
    }
  }

  lemma {:induction false} KidsUnder(d: ApiDesc, n: nat, scope: string)
    requires n <= |d.subApis|
    ensures forall e :: e in Kids(d, n, scope) ==> scope <= Location(e)
    decreases d, n
  {
    if n > 0 {
      var kid := d.subApis[n - 1];
      var earlier := Kids(d, n - 1, scope);
      var own := Routes(kid, scope, false);
      KidsUnder(d, n - 1, scope);
      UnderPrefix(kid, scope, false);
      assert Kids(d, n, scope) == earlier + own;
    }
  }

  lemma PrefixTransitive(a: string, b: string, c: string, s: string)
    requires a <= b <= c
    requires b <= s || c <= s || a <= s
    ensures a <= s
  {
  }

  /** Children are mounted, in full, under their parent's ID path (or under
      the base of a root API), as APIs with a parent. */
  lemma ChildMounted(d: ApiDesc, prefix: string, top: bool, i: nat)
    requires i < |d.subApis|
    ensures Routes(d.subApis[i], if d.rootApi then prefix + d.base else IdPath(d, prefix), false)
            <= Routes(d, prefix, top)
  {
    KidsContain(d, |d.subApis|, i, if d.rootApi then prefix + d.base else IdPath(d, prefix));
  }

  lemma {:induction false} KidsContain(d: ApiDesc, n: nat, i: nat, scope: string)
    requires i < n <= |d.subApis|
    ensures Routes(d.subApis[i], scope, false) <= Kids(d, n, scope)
    decreases n
  {
    if i < n - 1 {
      KidsContain(d, n - 1, i, scope);
    }
  }

  /** The registrations of a root API, term by term. */
  lemma RoutesOfRoot(d: ApiDesc, prefix: string, top: bool)
    requires d.rootApi
    ensures Routes(d, prefix, top) ==
      Uses(prefix, d.middlewares)
      + (if top then CustomSet(d.rootRoutes, prefix) + {Use(prefix + d.base, DefaultMiddleware)} else {})
      + Kids(d, |d.subApis|, prefix + d.base)
  {
  }

  /** The registrations of a non-root API, term by term. */
  lemma RoutesOfNonRoot(d: ApiDesc, prefix: string, top: bool)
    requires !d.rootApi
    ensures Routes(d, prefix, top) ==
      Uses(prefix, d.middlewares)
      + (if top then CustomSet(d.rootRoutes, prefix) + {Use(prefix + d.base, DefaultMiddleware)} else {})
      + (CrudRoutes(d, prefix) + {Use(IdPath(d, prefix), ResourceExists(d.name))} + Uses(IdPath(d, prefix), d.idMiddlewares)
         + Kids(d, |d.subApis|, IdPath(d, prefix)) + CustomSet(d.customIdRoutes, IdPath(d, prefix))
         + CustomSet(d.customRoutes, prefix + d.base))
  {
  }

  lemma KidsStep(d: ApiDesc, i: nat, scope: string)
    requires i < |d.subApis|
    ensures Kids(d, i + 1, scope) == Kids(d, i, scope) + Routes(d.subApis[i], scope, false)
  {
  }

  lemma CustomStep(routes: seq<CustomRoute>, i: nat, scope: string)
    requires i < |routes|
    ensures CustomSet(routes[..i + 1], scope) == CustomSet(routes[..i], scope) + OneCustom(routes[i], scope)
    ensures HandlerCount(routes[..i + 1]) == HandlerCount(routes[..i]) + |routes[i].handlers.Keys|
  {
    assert routes[..i + 1][..i] == routes[..i];
  }

  /** The router: the registrations made on it, in the order they were made. */
  class Router {
    var entries: seq<Entry>
    /** The registrations made, as a set. */
    ghost var registered: set<Entry>

    ghost predicate Valid()
      reads this
    {
      registered == set e | e in entries
    }

    constructor ()
      ensures Valid() && entries == []
    {
      entries := [];
      registered := {};
    }

    method Register(e: Entry)
      requires Valid()
      modifies this
      ensures Valid()
      ensures entries == old(entries) + [e]
      ensures registered == old(registered) + {e}
    {
      entries := entries + [e];
      registered := registered + {e};
    }

    /** `r.Use(m)` for each middleware, in order. */
    method UseAll(scope: string, mws: seq<string>)
      requires Valid()
      modifies this
      ensures Valid()
      ensures |entries| == |old(entries)| + |mws|
      ensures registered == old(registered) + Uses(scope, mws)
    {
      for i := 0 to |mws|
        invariant Valid()
        invariant |entries| == |old(entries)| + i
        invariant registered == old(registered) + Uses(scope, mws[..i])
      {
        Register(Use(scope, Named(mws[i])));
        assert mws[..i + 1] == mws[..i] + [mws[i]];
      }
      assert mws[..|mws|] == mws;
    }

    /** `doCustomRoutes`: one registration per (method, handler) entry of
        each route, at `scope` + the route's pattern. */
    method DoCustomRoutes(scope: string, routes: seq<CustomRoute>)
      requires Valid()
      modifies this
      ensures Valid()
      ensures |entries| == |old(entries)| + HandlerCount(routes)
      ensures registered == old(registered) + CustomSet(routes, scope)
    {
      ghost var added: set<Entry> := {};
      ghost var count: nat := 0;
      for i := 0 to |routes|
        invariant Valid()
        invariant added == CustomSet(routes[..i], scope) && count == HandlerCount(routes[..i])
        invariant registered == old(registered) + added
        invariant |entries| == |old(entries)| + count
      {
        RegisterCustom(scope, routes[i]);
        CustomStep(routes, i, scope);
        added := added + OneCustom(routes[i], scope);
        count := count + |routes[i].handlers.Keys|;
      }
      assert routes[..|routes|] == routes;
    }

    /** One registration per (method, handler) entry of a custom route, in
        the map's unspecified order. */
    method RegisterCustom(scope: string, cr: CustomRoute)
      requires Valid()
      modifies this
      ensures Valid()
      ensures |entries| == |old(entries)| + |cr.handlers.Keys|
      ensures registered == old(registered) + OneCustom(cr, scope)
    {
      var left := cr.handlers.Keys;
      ghost var done: set<Method> := {};
      while left != {}
        invariant Valid()
        invariant done + left == cr.handlers.Keys && done !! left
        invariant |entries| == |old(entries)| + |done|
        invariant registered == old(registered) + (set m | m in done :: Handle(m, scope + cr.pattern, CustomHandler(cr.handlers[m])))
        decreases left
      {
        var m :| m in left;
        Register(Handle(m, scope + cr.pattern, CustomHandler(cr.handlers[m])));
        left := left - {m};
        done := done + {m};
      }
      assert done == cr.handlers.Keys;
    }

    /** `API.Route`: register the tree of `d` on a router mounted at
        `prefix`; `top` says that `d` has no parent. */
    method Route(d: ApiDesc, prefix: string, top: bool)
      requires Valid()
      modifies this
      ensures Valid()
      ensures registered == old(registered) + Routes(d, prefix, top)
      decreases d, 1
    {
      var mount := prefix + d.base;
      UseAll(prefix, d.middlewares);
      ghost var common := Uses(prefix, d.middlewares);
      if top {
        DoCustomRoutes(prefix, d.rootRoutes);
        Register(Use(mount, DefaultMiddleware));
        common := common + (CustomSet(d.rootRoutes, prefix) + {Use(mount, DefaultMiddleware)});
      }
      assert registered == old(registered) + common;
      if d.rootApi {
        MountAll(d, mount);
        RoutesOfRoot(d, prefix, top);
        return;
      }
      var idPath := IdPath(d, prefix);
      RegisterOwn(d, prefix);
      ghost var own := CrudRoutes(d, prefix) + {Use(idPath, ResourceExists(d.name))} + Uses(idPath, d.idMiddlewares);
      MountAll(d, idPath);
      own := own + Kids(d, |d.subApis|, idPath);
      DoCustomRoutes(idPath, d.customIdRoutes);
      own := own + CustomSet(d.customIdRoutes, idPath);
      DoCustomRoutes(mount, d.customRoutes);
      own := own + CustomSet(d.customRoutes, mount);
      assert registered == old(registered) + common + own;
      RoutesOfNonRoot(d, prefix, top);
    }

    /** The default routes of a non-root API, with the existence check and
        the ID-scoped middlewares in front of the item routes. */
    method RegisterOwn(d: ApiDesc, prefix: string)
      requires Valid()
      modifies this
      ensures Valid()
      ensures registered == old(registered) + CrudRoutes(d, prefix)
        + {Use(IdPath(d, prefix), ResourceExists(d.name))} + Uses(IdPath(d, prefix), d.idMiddlewares)
    {
      var idPath := IdPath(d, prefix);
      ghost var collection := RegisterCollection(d, prefix);
      Register(Use(idPath, ResourceExists(d.name)));
      UseAll(idPath, d.idMiddlewares);
      ghost var item := RegisterItem(d, idPath + "/");
      assert CrudRoutes(d, prefix) == collection + item;
    }

    /** POST and GET on the collection path. */
    method RegisterCollection(d: ApiDesc, prefix: string) returns (ghost added: set<Entry>)
      requires Valid()
      modifies this
      ensures Valid()
      ensures added == {Handle(POST, CollectionPath(d, prefix), Crud(d.name, Create)),
                        Handle(GET, CollectionPath(d, prefix), Crud(d.name, ReadAll))}
      ensures registered == old(registered) + added
    {
      var collection := CollectionPath(d, prefix);
      Register(Handle(POST, collection, Crud(d.name, Create)));
      Register(Handle(GET, collection, Crud(d.name, ReadAll)));
      added := {Handle(POST, collection, Crud(d.name, Create)), Handle(GET, collection, Crud(d.name, ReadAll))};
    }

    /** GET, DELETE, PUT and PATCH on the item path. */
    method RegisterItem(d: ApiDesc, item: string) returns (ghost added: set<Entry>)
      requires Valid()
      modifies this
      ensures Valid()
      ensures added == {Handle(GET, item, Crud(d.name, ReadOne)), Handle(DELETE, item, Crud(d.name, Remove)),
                        Handle(PUT, item, Crud(d.name, Replace)), Handle(PATCH, item, Crud(d.name, Update))}
      ensures registered == old(registered) + added
    {
      Register(Handle(GET, item, Crud(d.name, ReadOne)));
      Register(Handle(DELETE, item, Crud(d.name, Remove)));
      Register(Handle(PUT, item, Crud(d.name, Replace)));
      Register(Handle(PATCH, item, Crud(d.name, Update)));
      added := {Handle(GET, item, Crud(d.name, ReadOne)), Handle(DELETE, item, Crud(d.name, Remove)),
                Handle(PUT, item, Crud(d.name, Replace)), Handle(PATCH, item, Crud(d.name, Update))};
    }

    /** `subAPI.Route(r)` for each child, in order. */
    method MountAll(d: ApiDesc, scope: string)
      requires Valid()
      modifies this
      ensures Valid()
      ensures registered == old(registered) + Kids(d, |d.subApis|, scope)
      decreases d, 0
    {
      ghost var mounted: set<Entry> := {};
      for i := 0 to |d.subApis|
        invariant Valid()
        invariant mounted == Kids(d, i, scope)
        invariant registered == old(registered) + mounted
      {
        ghost var kid := Routes(d.subApis[i], scope, false);
        Route(d.subApis[i], scope, false);
        KidsStep(d, i, scope);
        mounted := mounted + kid;
      }
    }
  }
}
