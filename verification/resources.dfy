/**
 * The resource handles: a resource collection (listing, count, filter),
 * the root collection's `get` and `create`, and a resource instance's
 * `data`, `update` and `delete`, each as a function of the store.
 */
module Resources {
  import opened Values
  import opened Errors
  import opened Interfaces
  import opened Storage
  import opened Access
  import Schemas
  import Links

  const ListNotAllowed := "Resource collection retrivial is not allowed"
  const CountNotAllowed := "Resource collection count retrivial is not allowed"

  /** The first `__iter__` of a collection: `can_get_uris`, the lenient query, the stored pks. */
  function Fetch(ctx: Ctx, r: Resource, params: Record, ram: Ram): (o: Out<seq<Value>>)
    ensures o.ram.items == ram.items
  {
    if !ctx.pol.canGetUris(r.name, ctx.user) then Stop(ram, Error(AuthorizationError, Text(ListNotAllowed)))
    else
      match Lenient(r.querySchema, params)
      case Err(e) => Stop(ram, e)
      case Ok(p) => GetKeysSpec(ram, ResNs(r), Some(p))
  }

  /** `count`: the same gate with its own message, then the number of stored pks. */
  function Count(ctx: Ctx, r: Resource, params: Record, ram: Ram): (o: Out<int>)
    ensures o.ram.items == ram.items
  {
    if !ctx.pol.canGetUris(r.name, ctx.user) then Stop(ram, Error(AuthorizationError, Text(CountNotAllowed)))
    else
      match Lenient(r.querySchema, params)
      case Err(e) => Stop(ram, e)
      case Ok(p) =>
        var ks := GetKeysSpec(ram, ResNs(r), Some(p));
        Out(Ok(|ks.res.value|), ks.ram)
  }

  /** `filter`: the collection's parameters updated with the new ones. */
  function Merge(params: Record, update: Record): (r: Record)
    ensures r.Keys == params.Keys + update.Keys
    ensures forall k :: k in r ==> r[k] == if k in update then update[k] else params[k]
  {
    params + update
  }

  const CreationNotAllowed := "Resource creation is not allowed"
  const ReadonlySet := "Readonly fields can not be set: %s"
  const PkConflict := "Resource with PK %r already exists"

  /** The checks of `create` that need no store: deserialization with required fields, `can_create`, no readonly field. */
  function Checked(ctx: Ctx, r: Resource, data: Value): (d: Result<Record>)
  {
    match Schemas.Deserialize(r.schema, data, true, true)
    case Err(e) => Err(e)
    case Ok(d) =>
      if !ctx.pol.canCreate(r.name, ctx.user, d) then TextFail(AuthorizationError, CreationNotAllowed)
      else
        var ro := Schemas.FindFields(r.schema, ReadonlyQuery) * d.Keys;
        if ro != {} then Fail(ValidationError, Fmt(ReadonlySet, [Names(ro)]))
        else Ok(d)
  }

  /**
   * The base record's write: with no pk in the data the backend creates
   * the record under None and returns None; otherwise a stored pk is a
   * conflict.  The result is the new resource's pk.
   */
  function WriteBase(r: Resource, ram: Ram, d: Record): (o: Out<Value>)
  {
    var pk := GeneratePk(r, d);
    if pk == VNone then Out(Ok(VNone), SetSpec(ram, ResNs(r), VNone, Some(d)))
    else
      var ex := ExistsSpec(ram, ResNs(r), pk);
      if ex.res.value then Stop(ex.ram, Error(DataConflictError, Fmt(PkConflict, [Val(pk)])))
      else Out(Ok(pk), SetSpec(ex.ram, ResNs(r), pk, Some(d)))
  }

  /**
   * `create`: the checks, the links' validation (under no pk yet), the
   * base record, then the links stored under the new pk.  The result is
   * the pk of the new resource instance.
   */
  function Create(ctx: Ctx, r: Resource, ram: Ram, data: Value, linkData: Value): (o: Out<Value>)
  {
    match Checked(ctx, r, data)
    case Err(e) => Stop(ram, e)
    case Ok(d) => CreateChecked(ctx, r, ram, d, linkData)
  }

  /** What `create` does once the data are checked. */
  function CreateChecked(ctx: Ctx, r: Resource, ram: Ram, d: Record, linkData: Value): (o: Out<Value>)
  {
    var v := Links.ValidateLinks(ctx, r, VNone, ram, linkData);
    if v.res.Err? then Stop(v.ram, v.res.error)
    else
      var w := WriteBase(r, v.ram, d);
      if w.res.Err? then w
      else
        var s := Links.StoreLinks(ctx, r, w.res.value, w.ram, v.res.value);
        if s.res.Err? then Stop(s.ram, s.res.error) else Out(Ok(w.res.value), s.ram)
  }

  const FetchNotAllowed := "Resource fetching is not allowed"

  /** `data`: the stored record, if `can_get_data` allows the user to see it. */
  function Data(ctx: Ctx, r: Resource, pk: Value, ram: Ram): (o: Out<Record>)
    ensures o.ram.items == ram.items
  {
    var g := GetSpec(ram, ResNs(r), pk);
    if g.res.Err? || ctx.pol.canGetData(r.name, ctx.user, pk, g.res.value) then g
    else Stop(g.ram, Error(AuthorizationError, Text(FetchNotAllowed)))
  }

  const UpdateNotAllowed := "Resource updating is not allowed"
  const UnchangeableFields := "Unchangeable fields: %s"

  /** `update`: deserialization without required fields, `can_update`, no unchangeable field, then the write. */
  function Update(ctx: Ctx, r: Resource, pk: Value, ram: Ram, data: Value): (o: Out<()>)
  {
    match Schemas.Deserialize(r.schema, data, false, true)
    case Err(e) => Stop(ram, e)
    case Ok(d) =>
      if !ctx.pol.canUpdate(r.name, ctx.user, pk, d) then Stop(ram, Error(AuthorizationError, Text(UpdateNotAllowed)))
      else
        var u := Schemas.FindFields(r.schema, UnchangeableQuery) * d.Keys;
        if u != {} then Stop(ram, Error(ValidationError, Fmt(UnchangeableFields, [Names(u)])))
        else Out(Ok(()), SetSpec(ram, ResNs(r), pk, Some(d)))
  }

  const DeletionNotAllowed := "Resource deletion is not allowed"

  /** `delete`: `can_delete`, every outgoing link cleared, then the base record. */
  function Delete(ctx: Ctx, r: Resource, pk: Value, ram: Ram): (o: Out<()>)
  {
    if !ctx.pol.canDelete(r.name, ctx.user, pk) then Stop(ram, Error(AuthorizationError, Text(DeletionNotAllowed)))
    else
      var c := Links.ClearLinks(ctx, r, pk, ram);
      if c.res.Err? then c else DeleteSpec(c.ram, ResNs(r), pk)
  }

  // ---------------------------------------------------------------------
  // The rules
  // ---------------------------------------------------------------------

  /**
   * Listing and counting ask `can_get_uris` before the backend is called;
   * past it the query never fails, every stored pk is listed in storage
   * order, and the count is the listing's length.
   */
  lemma ListingGated(ctx: Ctx, r: Resource, params: Record, ram: Ram)
    ensures !ctx.pol.canGetUris(r.name, ctx.user) ==>
              Fetch(ctx, r, params, ram) == Stop(ram, Error(AuthorizationError, Text(ListNotAllowed))) &&
              Count(ctx, r, params, ram) == Stop(ram, Error(AuthorizationError, Text(CountNotAllowed)))
    ensures ctx.pol.canGetUris(r.name, ctx.user) ==>
              Fetch(ctx, r, params, ram).res == Ok(TableOf(ram, ResNs(r)).keys) &&
              Count(ctx, r, params, ram).res == Ok(|TableOf(ram, ResNs(r)).keys|)
  {
    Schemas.DeserializeLenient(r.querySchema, params, false);
  }

  /**
   * Nothing is written before the data, `can_create`, the readonly fields
   * and the links' data are all accepted: a refusal of any of them leaves
   * every record as it was.
   */
  lemma CreateChecksFirst(ctx: Ctx, r: Resource, ram: Ram, data: Value, linkData: Value)
    ensures Checked(ctx, r, data).Err? ==> Create(ctx, r, ram, data, linkData) == Stop(ram, Checked(ctx, r, data).error)
    ensures Checked(ctx, r, data).Ok? && Links.ValidateLinks(ctx, r, VNone, ram, linkData).res.Err? ==>
              Create(ctx, r, ram, data, linkData).res == Err(Links.ValidateLinks(ctx, r, VNone, ram, linkData).res.error) &&
              Create(ctx, r, ram, data, linkData).ram.items == ram.items
  {
  }

  /** `create` refuses data without `can_create`, and data setting a readonly field. */
  lemma CheckedRules(ctx: Ctx, r: Resource, data: Value)
    ensures Schemas.Deserialize(r.schema, data, true, true).Err? ==> Checked(ctx, r, data).Err? && Checked(ctx, r, data).error.kind == ValidationError
    ensures Schemas.Deserialize(r.schema, data, true, true).Ok? ==>
              var d := Schemas.Deserialize(r.schema, data, true, true).value;
              (Checked(ctx, r, data).Ok? <==>
                 ctx.pol.canCreate(r.name, ctx.user, d) && Schemas.FindFields(r.schema, ReadonlyQuery) * d.Keys == {}) &&
              (!ctx.pol.canCreate(r.name, ctx.user, d) ==> Checked(ctx, r, data) == TextFail(AuthorizationError, CreationNotAllowed)) &&
              (Checked(ctx, r, data).Ok? ==> Checked(ctx, r, data).value == d)
  {
  }

  /**
   * A pk given in the data that is already stored is a conflict, and the
   * stored records stay as they were.
   */
  lemma PkConflictWritesNothing(ctx: Ctx, r: Resource, ram: Ram, data: Value, linkData: Value)
    requires Checked(ctx, r, data).Ok?
    requires Links.ValidateLinks(ctx, r, VNone, ram, linkData).res.Ok?
    requires var pk := GeneratePk(r, Checked(ctx, r, data).value); pk != VNone && Has(ram, ResNs(r), pk)
    ensures Create(ctx, r, ram, data, linkData).res ==
              Fail(DataConflictError, Fmt(PkConflict, [Val(GeneratePk(r, Checked(ctx, r, data).value))]))
    ensures Create(ctx, r, ram, data, linkData).ram.items == ram.items
  {
  }

  /**
   * The base record's write: the pk is the one the data give (None when
   * they give none), and the data are merged into what was stored under
   * it, which for a given pk is nothing.
   */
  lemma WriteBaseRules(r: Resource, ram: Ram, d: Record)
    ensures var w := WriteBase(r, ram, d);
            var pk := GeneratePk(r, d);
            (w.res.Ok? <==> pk == VNone || !Has(ram, ResNs(r), pk)) &&
            (w.res.Ok? ==> w.res.value == pk && Has(w.ram, ResNs(r), pk) &&
                           Stored(w.ram, ResNs(r), pk) == Stored(ram, ResNs(r), pk) + d) &&
            (w.res.Err? ==> w.ram.items == ram.items && w.res.error.kind == DataConflictError)
  {
  }

  /**
   * Past the data checks, a created resource's pk is the one its data
   * give, and its record is stored under that pk: storing the links
   * touches no record. Every validated link is then stored under that
   * same pk.
   */
  lemma CreateCheckedStores(ctx: Ctx, r: Resource, ram: Ram, d: Record, linkData: Value)
    requires CreateChecked(ctx, r, ram, d, linkData).res.Ok?
    ensures var o := CreateChecked(ctx, r, ram, d, linkData);
            o.res.value == GeneratePk(r, d) &&
            Has(o.ram, ResNs(r), o.res.value) &&
            Stored(o.ram, ResNs(r), o.res.value) == Stored(ram, ResNs(r), o.res.value) + d
    ensures var v := Links.ValidateLinks(ctx, r, VNone, ram, linkData);
            var o := CreateChecked(ctx, r, ram, d, linkData);
            v.res.Ok? && Links.LinksStored(ctx, r, o.res.value, v.res.value, o.ram)
  {
    var v := Links.ValidateLinks(ctx, r, VNone, ram, linkData);
    var w := WriteBase(r, v.ram, d);
    var st := Links.StoreLinks(ctx, r, w.res.value, w.ram, v.res.value);
    assert CreateChecked(ctx, r, ram, d, linkData) == Out(Ok(w.res.value), st.ram);
    WriteBaseRules(r, v.ram, d);
    Links.StoreLinksKeepsRecords(ctx, r, w.res.value, w.ram, v.res.value, r.name);
    Links.StoreLinksStores(ctx, r, w.res.value, w.ram, v.res.value);
    assert TableOf(v.ram, ResNs(r)) == TableOf(ram, ResNs(r));
  }

  /**
   * A created resource's pk is the one its data give, and its record is
   * stored under that pk; every validated link is stored under that same
   * pk.
   */
  lemma CreateStoresRecord(ctx: Ctx, r: Resource, ram: Ram, data: Value, linkData: Value)
    requires Create(ctx, r, ram, data, linkData).res.Ok?
    ensures Checked(ctx, r, data).Ok?
    ensures var d := Checked(ctx, r, data).value;
            var o := Create(ctx, r, ram, data, linkData);
            o.res.value == GeneratePk(r, d) &&
            Has(o.ram, ResNs(r), o.res.value) &&
            Stored(o.ram, ResNs(r), o.res.value) == Stored(ram, ResNs(r), o.res.value) + d
    ensures var v := Links.ValidateLinks(ctx, r, VNone, ram, linkData);
            var o := Create(ctx, r, ram, data, linkData);
            v.res.Ok? && Links.LinksStored(ctx, r, o.res.value, v.res.value, o.ram)
  {
    CreateCheckedStores(ctx, r, ram, Checked(ctx, r, data).value, linkData);
  }

  /**
   * `data` reads the record and returns it when `can_get_data` allows it;
   * an absent pk is the backend's KeyError.
   */
  lemma DataRules(ctx: Ctx, r: Resource, pk: Value, ram: Ram)
    ensures var o := Data(ctx, r, pk, ram);
            o.ram.log == ram.log + [GetCall(ResNs(r), pk)] &&
            (!Has(ram, ResNs(r), pk) ==> o.res == Fail(KeyError, Val(pk))) &&
            (o.res.Ok? <==> Has(ram, ResNs(r), pk) && ctx.pol.canGetData(r.name, ctx.user, pk, Stored(ram, ResNs(r), pk))) &&
            (o.res.Ok? ==> o.res.value == Stored(ram, ResNs(r), pk))
  {
  }

  /**
   * `update` asks `can_update` before it looks for unchangeable fields
   * (the opposite order to a link's update); a refusal changes nothing,
   * and a success merges the deserialized data into the record.
   */
  lemma UpdateRules(ctx: Ctx, r: Resource, pk: Value, ram: Ram, data: Value)
    ensures var o := Update(ctx, r, pk, ram, data);
            var d := Schemas.Deserialize(r.schema, data, false, true);
            (o.res.Err? ==> o.ram == ram) &&
            (o.res.Ok? ==> d.Ok? && o.ram == SetSpec(ram, ResNs(r), pk, Some(d.value))) &&
            (d.Ok? && !ctx.pol.canUpdate(r.name, ctx.user, pk, d.value) ==>
               o.res == Fail(AuthorizationError, Text(UpdateNotAllowed))) &&
            (d.Ok? && ctx.pol.canUpdate(r.name, ctx.user, pk, d.value) ==>
               (o.res.Ok? <==> Schemas.FindFields(r.schema, UnchangeableQuery) * d.value.Keys == {}))
  {
  }

  /** A successful update leaves every given field with its new value and every other field as it was. */
  lemma UpdateMerges(ctx: Ctx, r: Resource, pk: Value, ram: Ram, data: Value, k: string)
    requires Update(ctx, r, pk, ram, data).res.Ok?
    ensures Schemas.Deserialize(r.schema, data, false, true).Ok?
    ensures var d := Schemas.Deserialize(r.schema, data, false, true).value;
            var after := Stored(Update(ctx, r, pk, ram, data).ram, ResNs(r), pk);
            (k in d ==> k in after && after[k] == d[k]) &&
            (k !in d ==> (k in after <==> k in Stored(ram, ResNs(r), pk)))
  {
    var d := Schemas.Deserialize(r.schema, data, false, true).value;
    SetMerges(ram, ResNs(r), pk, d, k);
  }

  /**
   * `delete` asks `can_delete` before anything else, clears every link
   * of the resource, and removes the record last; a success leaves no
   * record under the pk, removes nothing it did not clear, and leaves
   * every link collection of the instance empty, and every link to one
   * whose held targets were all discoverable.
   */
  lemma DeleteRules(ctx: Ctx, r: Resource, pk: Value, ram: Ram)
    ensures !ctx.pol.canDelete(r.name, ctx.user, pk) ==>
              Delete(ctx, r, pk, ram) == Stop(ram, Error(AuthorizationError, Text(DeletionNotAllowed)))
    ensures Delete(ctx, r, pk, ram).res.Ok? ==>
              Links.ClearLinks(ctx, r, pk, ram).res.Ok? &&
              !Has(Delete(ctx, r, pk, ram).ram, ResNs(r), pk) &&
              Delete(ctx, r, pk, ram).ram.log == Links.ClearLinks(ctx, r, pk, ram).ram.log + [DeleteCall(ResNs(r), pk)]
  ensures Valid(ram) && Delete(ctx, r, pk, ram).res.Ok? ==>
            Shrinks(ram, Delete(ctx, r, pk, ram).ram) && Links.LinksEmptied(ctx, r, pk, ram, Delete(ctx, r, pk, ram).ram)
  {
    if Delete(ctx, r, pk, ram).res.Ok? {
      var c := Links.ClearLinks(ctx, r, pk, ram);
      DeleteRemoves(c.ram, ResNs(r), pk, ResNs(r), pk);
      DeleteShrinks(c.ram, ResNs(r), pk);
      if Valid(ram) {
        Links.ClearLinksClears(ctx, r, pk, ram);
        forall n | n in r.linkDecls
          ensures Links.NamedEmptied(ctx, r, pk, n, ram, Delete(ctx, r, pk, ram).ram)
        {
          Links.NamedEmptiedShrinks(ctx, r, pk, n, ram, c.ram, Delete(ctx, r, pk, ram).ram);
        }
      }
    }
  }
}
