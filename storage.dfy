/** The storage backend as the handlers see it: a map from identifier to
    resource, with a distinguished not-found error. A backend failure (I/O,
    network) is not something the map can produce, so each call takes it as a
    parameter: `fault == Some(cause)` means the backend failed with `cause`. A
    failed write leaves the map as it was. */
module Storage {
  import opened Http

  datatype StoreError = ErrNotFound | Backend(cause: string)

  type Store = map<string, Resource>

  /** `Storage.Get(ctx, id)`. */
  function Get(m: Store, id: string, fault: Option<string>): (r: Result<Resource, StoreError>)
    ensures fault.Some? ==> r == Failure(Backend(fault.value))
    ensures fault.None? ==> (r.Success? <==> id in m)
    ensures fault.None? && r.Success? ==> r.value == m[id]
    ensures fault.None? && r.Failure? ==> r.error == ErrNotFound
  {
    if fault.Some? then Failure(Backend(fault.value))
    else if id in m then Success(m[id])
    else Failure(ErrNotFound)
  }

  /** `Storage.Set(resource)`: stores the resource under its own identifier. */
  function Set(m: Store, x: Resource, fault: Option<string>): (r: Result<Store, StoreError>)
    ensures fault.Some? <==> r.Failure?
    ensures r.Failure? ==> r.error == Backend(fault.value)
    ensures r.Success? ==> x.id in r.value && r.value[x.id] == x
    ensures r.Success? ==> forall k :: k in m && k != x.id ==> k in r.value && r.value[k] == m[k]
    ensures r.Success? ==> r.value.Keys == m.Keys + {x.id}
  {
    if fault.Some? then Failure(Backend(fault.value)) else Success(m[x.id := x])
  }

  /** `Storage.Delete(id)`: removing an identifier that is not stored is
      reported as not-found. */
  function Delete(m: Store, id: string, fault: Option<string>): (r: Result<Store, StoreError>)
    ensures fault.Some? ==> r == Failure(Backend(fault.value))
    ensures fault.None? ==> (r.Success? <==> id in m)
    ensures fault.None? && r.Failure? ==> r.error == ErrNotFound
    ensures r.Success? ==> r.value.Keys == m.Keys - {id}
    ensures r.Success? ==> forall k :: k in r.value ==> r.value[k] == m[k]
  {
    if fault.Some? then Failure(Backend(fault.value))
    else if id in m then Success(m - {id})
    else Failure(ErrNotFound)
  }

  /** What is written is what is read back. */
  lemma SetThenGet(m: Store, x: Resource)
    ensures Set(m, x, None).Success?
    ensures Get(Set(m, x, None).value, x.id, None) == Success(x)
  {
  }

  /** A deleted identifier reads back as not-found. */
  lemma DeleteThenGet(m: Store, id: string)
    requires id in m
    ensures Delete(m, id, None).Success?
    ensures Get(Delete(m, id, None).value, id, None) == Failure(ErrNotFound)
  {
  }
}
