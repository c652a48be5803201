/**
 * What every runtime handle of the framework works with: the entry point
 * (the service's registry and the calling user), the authorization
 * predicates of the resources and links, and the mapping of the test
 * resources and test links onto the in-memory storage.  Also the checks of
 * `RootResourceCollection.get`, which link validation runs on the target
 * collection, and the loop shape the handles share.
 */
module Access {
  import opened Values
  import opened Errors
  import opened Interfaces
  import opened Storage
  import Schemas
  import Services

  /**
   * The `can_*` predicates of the resources (by resource name) and of the
   * links (by link name), with the arguments the framework passes them.
   */
  datatype Policy = Policy(
    canGetData: (string, Value, Value, Record) -> bool,          // resource, user, pk, data
    canDiscover: (string, Value, Value) -> bool,                 // resource, user, pk
    canGetUris: (string, Value) -> bool,                         // resource, user
    canUpdate: (string, Value, Value, Record) -> bool,           // resource, user, pk, data
    canCreate: (string, Value, Record) -> bool,                  // resource, user, data
    canDelete: (string, Value, Value) -> bool,                   // resource, user, pk
    linkCanGetData: (string, Value, Value, Value, Record) -> bool, // link, user, pk, rel_pk, data
    linkCanDiscover: (string, Value, Value, Value) -> bool,      // link, user, pk, rel_pk
    linkCanGetUris: (string, Value, Value) -> bool,              // link, user, pk
    linkCanUpdate: (string, Value, Value, Value, Record) -> bool,  // link, user, pk, rel_pk, data
    linkCanCreate: (string, Value, Value, Value, Record) -> bool,  // link, user, pk, rel_pk, data
    linkCanDelete: (string, Value, Value, Value) -> bool)        // link, user, pk, rel_pk

  /** The predicates a resource or link inherits when it overrides none: everything is allowed. */
  const AllowAll := Policy(
    (q, u, pk, d) => true, (q, u, pk) => true, (q, u) => true,
    (q, u, pk, d) => true, (q, u, d) => true, (q, u, pk) => true,
    (l, u, pk, rel, d) => true, (l, u, pk, rel) => true, (l, u, pk) => true,
    (l, u, pk, rel, d) => true, (l, u, pk, rel, d) => true, (l, u, pk, rel) => true)

  /** An entry point: the service it belongs to, its user, and the predicates in force. */
  datatype Ctx = Ctx(reg: Services.Registry, user: Value, pol: Policy)

  // ---------------------------------------------------------------------
  // The test backends' namespaces
  // ---------------------------------------------------------------------

  /** A test resource keeps its records under its own name. */
  function ResNs(r: Resource): Namespace
  {
    ResourceNs(r.name)
  }

  /** A link's `get_name`. */
  function NameOf(l: Link): string
  {
    LinkName(l.source, l.name)
  }

  /** A test link keeps the links of one source under (source pk, link name), keyed by target pk. */
  function LinkNsOf(l: Link, pk: Value): Namespace
  {
    LinkNs(pk, NameOf(l))
  }

  /** Fields an update may not touch: readonly ones and unchangeable ones. */
  const UnchangeableQuery: map<string, Value> := map["readonly" := VBool(true), "changeable" := VBool(false)]

  /** A failed operation: its error, and the store as the failure left it. */
  function Stop<T>(ram: Ram, e: Error): (o: Out<T>)
  {
    Out(Err(e), ram)
  }

  /** `query_schema.deserialize(params, with_errors=False, validate_required_constraint=False)`. */
  function Lenient(s: Schemas.Schema, params: Record): Result<Record>
  {
    Schemas.Deserialize(s, VDict(params), false, false)
  }

  // ---------------------------------------------------------------------
  // RootResourceCollection.get
  // ---------------------------------------------------------------------

  const PkValidationFailed := "PK validation failed: %s"
  const NoResourceWithPk := "Resource with pk %r does not exist."

  /**
   * The checks of `get`: the pk is deserialized by the uri policy, must be
   * stored, and must be discoverable by the user.  The result is the
   * deserialized pk the new resource instance carries.
   */
  function ResourceGet(ctx: Ctx, r: Resource, ram: Ram, pk: Value): (o: Out<Value>)
    ensures o.ram.items == ram.items
    ensures o.res.Err? ==> o.res.error.kind == DoesNotExist
  {
    match DeserializePk(r, pk)
    case Err(e) => Stop(ram, Error(DoesNotExist, Fmt(PkValidationFailed, [Cause(e)])))
    case Ok(p) =>
      var ex := ExistsSpec(ram, ResNs(r), p);
      if !ex.res.value || !ctx.pol.canDiscover(r.name, ctx.user, p) then
        Stop(ex.ram, Error(DoesNotExist, Fmt(NoResourceWithPk, [Val(p)])))
      else Out(Ok(p), ex.ram)
  }

  /**
   * `get` fails exactly on its three paths: a pk the uri policy rejects, a
   * pk the backend does not hold, a pk the user may not discover.  It
   * succeeds with the deserialized pk otherwise, and asks the backend only
   * when the pk deserialized.
   */
  lemma ResourceGetPaths(ctx: Ctx, r: Resource, ram: Ram, pk: Value)
    ensures DeserializePk(r, pk).Err? ==>
              ResourceGet(ctx, r, ram, pk) ==
              Stop(ram, Error(DoesNotExist, Fmt(PkValidationFailed, [Cause(DeserializePk(r, pk).error)])))
    ensures DeserializePk(r, pk).Ok? ==>
              var p := DeserializePk(r, pk).value;
              ResourceGet(ctx, r, ram, pk).ram.log == ram.log + [ExistsCall(ResNs(r), p)] &&
              (ResourceGet(ctx, r, ram, pk).res.Ok? <==> Has(ram, ResNs(r), p) && ctx.pol.canDiscover(r.name, ctx.user, p)) &&
              (ResourceGet(ctx, r, ram, pk).res.Ok? ==> ResourceGet(ctx, r, ram, pk).res.value == p) &&
              (ResourceGet(ctx, r, ram, pk).res.Err? ==>
                 ResourceGet(ctx, r, ram, pk).res.error == Error(DoesNotExist, Fmt(NoResourceWithPk, [Val(p)])))
  {
  }

  /** The checks of `get` as the handle runs them against the store. */
  method GetPk(ctx: Ctx, r: Resource, store: RamStorage, pk: Value) returns (res: Result<Value>)
    modifies store
    ensures Out(res, store.Model()) == ResourceGet(ctx, r, old(store.Model()), pk)
  {
    var p := DeserializePk(r, pk);
    if p.Err? {
      return Err(Error(DoesNotExist, Fmt(PkValidationFailed, [Cause(p.error)])));
    }
    var ex := store.Exists(ResNs(r), p.value);
    if !ex || !ctx.pol.canDiscover(r.name, ctx.user, p.value) {
      return Err(Error(DoesNotExist, Fmt(NoResourceWithPk, [Val(p.value)])));
    }
    res := Ok(p.value);
  }

  // ---------------------------------------------------------------------
  // A loop over a sequence against the store
  // ---------------------------------------------------------------------

  /**
   * f applied in turn to the first n elements of xs, threading the store
   * and an accumulator, stopping at the first exception.
   */
  function Run<E, A>(ram: Ram, acc: A, xs: seq<E>, n: nat, f: (Ram, A, E) -> Out<A>): (o: Out<A>)
    requires n <= |xs|
  {
    if n == 0 then Out(Ok(acc), ram)
    else
      var o := Run(ram, acc, xs, n - 1, f);
      if o.res.Err? then o else f(o.ram, o.res.value, xs[n - 1])
  }

  /** Once an element fails, that failure is the outcome of the whole loop. */
  lemma {:induction false} RunErr<E, A>(ram: Ram, acc: A, xs: seq<E>, f: (Ram, A, E) -> Out<A>, n: nat, j: nat)
    requires n <= j <= |xs| && Run(ram, acc, xs, n, f).res.Err?
    ensures Run(ram, acc, xs, j, f) == Run(ram, acc, xs, n, f)
    decreases j - n
  {
    if j > n {
      RunErr(ram, acc, xs, f, n, j - 1);
    }
  }

  /** One more element: the step applied to where the loop stands. */
  lemma RunStep<E, A>(ram: Ram, acc: A, xs: seq<E>, n: nat, f: (Ram, A, E) -> Out<A>, a: A, m: Ram)
    requires n < |xs| && Run(ram, acc, xs, n, f) == Out(Ok(a), m)
    ensures Run(ram, acc, xs, n + 1, f) == f(m, a, xs[n])
  {
  }

  /**
   * A loop whose every step adds one element to the accumulator, and whose
   * every failing step reports an error tagged with the count so far,
   * counts its elements when it succeeds and otherwise fails with the tag
   * of one of them.
   */
  lemma {:induction false} RunTagged<E, T>(ram: Ram, xs: seq<E>, n: nat, f: (Ram, seq<T>, E) -> Out<seq<T>>, tagged: (Error, nat) -> bool)
    requires n <= |xs|
    requires forall m, a, x :: f(m, a, x).res.Ok? ==> |f(m, a, x).res.value| == |a| + 1
    requires forall m, a, x :: f(m, a, x).res.Err? ==> tagged(f(m, a, x).res.error, |a|)
    ensures Run(ram, [], xs, n, f).res.Ok? ==> |Run(ram, [], xs, n, f).res.value| == n
    ensures Run(ram, [], xs, n, f).res.Err? ==> exists i :: 0 <= i < n && tagged(Run(ram, [], xs, n, f).res.error, i)
  {
    if n > 0 {
      RunTagged(ram, xs, n - 1, f, tagged);
      var o := Run(ram, [], xs, n - 1, f);
      if o.res.Err? {
        var i :| 0 <= i < n - 1 && tagged(o.res.error, i);
        assert 0 <= i < n && tagged(Run(ram, [], xs, n, f).res.error, i);
      } else {
        assert Run(ram, [], xs, n, f) == f(o.ram, o.res.value, xs[n - 1]);
        StepTagged(f, tagged, o.ram, o.res.value, xs[n - 1]);
      }
    }
  }

  /** The hypotheses of `RunTagged`, at one step. */
  lemma StepTagged<E, T>(f: (Ram, seq<T>, E) -> Out<seq<T>>, tagged: (Error, nat) -> bool, m: Ram, a: seq<T>, x: E)
    requires forall m, a, x :: f(m, a, x).res.Ok? ==> |f(m, a, x).res.value| == |a| + 1
    requires forall m, a, x :: f(m, a, x).res.Err? ==> tagged(f(m, a, x).res.error, |a|)
    ensures f(m, a, x).res.Ok? ==> |f(m, a, x).res.value| == |a| + 1
    ensures f(m, a, x).res.Err? ==> tagged(f(m, a, x).res.error, |a|)
  {
  }

  /** The hypothesis of `RunNamed`, at one step. */
  lemma StepNamed<V>(f: (Ram, map<string, V>, string) -> Out<map<string, V>>, m: Ram, a: map<string, V>, x: string)
    requires forall m, a, x :: f(m, a, x).res.Ok? ==> f(m, a, x).res.value.Keys == a.Keys + {x}
    ensures f(m, a, x).res.Ok? ==> f(m, a, x).res.value.Keys == a.Keys + {x}
  {
  }

  /** A loop whose every step adds its element as a key builds a map keyed by the elements seen. */
  lemma {:induction false} RunNamed<V>(ram: Ram, xs: seq<string>, n: nat, f: (Ram, map<string, V>, string) -> Out<map<string, V>>)
    requires n <= |xs|
    requires forall m, a, x :: f(m, a, x).res.Ok? ==> f(m, a, x).res.value.Keys == a.Keys + {x}
    ensures Run(ram, map[], xs, n, f).res.Ok? ==> Run(ram, map[], xs, n, f).res.value.Keys == Schemas.Prefix(xs, n)
  {
    if n > 0 {
      RunNamed(ram, xs, n - 1, f);
      Schemas.PrefixStep(xs, n);
      var o := Run(ram, map[], xs, n - 1, f);
      if o.res.Ok? {
        assert Run(ram, map[], xs, n, f) == f(o.ram, o.res.value, xs[n - 1]);
        StepNamed(f, o.ram, o.res.value, xs[n - 1]);
      }
    } else {
      assert Schemas.Prefix(xs, 0) == {};
    }
  }

  /** A loop whose every step leaves the stored records alone leaves them alone. */
  lemma {:induction false} RunReads<E, A>(ram: Ram, acc: A, xs: seq<E>, n: nat, f: (Ram, A, E) -> Out<A>)
    requires n <= |xs|
    requires forall m, a, x :: f(m, a, x).ram.items == m.items
    ensures Run(ram, acc, xs, n, f).ram.items == ram.items
  {
    if n > 0 {
      RunReads(ram, acc, xs, n - 1, f);
    }
  }

  /** A loop whose every step leaves a namespace alone leaves it alone. */
  lemma {:induction false} RunFrame<E, A>(ram: Ram, acc: A, xs: seq<E>, n: nat, f: (Ram, A, E) -> Out<A>, ns: Namespace)
    requires n <= |xs|
    requires forall m, a, x :: TableOf(f(m, a, x).ram, ns) == TableOf(m, ns)
    ensures TableOf(Run(ram, acc, xs, n, f).ram, ns) == TableOf(ram, ns)
  {
    if n > 0 {
      RunFrame(ram, acc, xs, n - 1, f, ns);
    }
  }

  /**
   * A relation each successful step establishes between the store it starts
   * from and the store it leaves, and that later successful steps keep,
   * holds at the end of a successful loop for every element, from the store
   * that element's step started with.  An invariant of the store that every
   * successful step keeps holds at every point the loop reaches.
   */
  lemma {:induction false} RunKeeps<E, A>(ram: Ram, acc: A, xs: seq<E>, n: nat, f: (Ram, A, E) -> Out<A>,
                                          inv: Ram -> bool, q: (Ram, E, Ram) -> bool)
    requires n <= |xs| && inv(ram)
    requires forall m, a, x :: inv(m) && f(m, a, x).res.Ok? ==> inv(f(m, a, x).ram) && q(m, x, f(m, a, x).ram)
    requires forall m0, y, m, a, x :: inv(m) && q(m0, y, m) && f(m, a, x).res.Ok? ==> q(m0, y, f(m, a, x).ram)
    ensures Run(ram, acc, xs, n, f).res.Ok? ==>
              forall i :: 0 <= i <= n ==> Run(ram, acc, xs, i, f).res.Ok? && inv(Run(ram, acc, xs, i, f).ram)
    ensures Run(ram, acc, xs, n, f).res.Ok? ==>
              forall i :: 0 <= i < n ==> q(Run(ram, acc, xs, i, f).ram, xs[i], Run(ram, acc, xs, n, f).ram)
  {
    if n > 0 && Run(ram, acc, xs, n, f).res.Ok? {
      RunKeeps(ram, acc, xs, n - 1, f, inv, q);
      var o := Run(ram, acc, xs, n - 1, f);
      assert o.res.Ok?;
      var o' := f(o.ram, o.res.value, xs[n - 1]);
      assert Run(ram, acc, xs, n, f) == o';
      forall i | 0 <= i < n
        ensures q(Run(ram, acc, xs, i, f).ram, xs[i], o'.ram)
      {
        if i < n - 1 {
          assert q(Run(ram, acc, xs, i, f).ram, xs[i], o.ram);
        }
      }
    }
  }
}
