/**
 * The handles as the program uses them: methods that run each link and
 * resource operation against the in-memory store, and the objects that
 * keep state between calls (the collections' cached listing and cursor,
 * the pk a resource instance and its link holder carry).  Every method
 * is proved to do to the store what the operation's function says.
 */
module Handles {
  import opened Values
  import opened Errors
  import opened Interfaces
  import opened Storage
  import opened Access
  import Schemas
  import Links
  import Resources

  // ---------------------------------------------------------------------
  // LinkInstance
  // ---------------------------------------------------------------------

  /** `do` of `LinkInstance._validate` against the store. */
  method CheckAtMaster(ctx: Ctx, side: Links.Side, store: RamStorage, payload: Record, t: Value, validateConflict: bool)
    returns (r: Result<Record>)
    modifies store
    ensures Out(r, store.Model()) == Links.MasterCheck(ctx, side, old(store.Model()), payload, t, validateConflict)
  {
    if !ctx.pol.linkCanCreate(NameOf(side.link), ctx.user, side.src, side.trg, payload) {
      return Err(Error(AuthorizationError, Text(Links.LinkingNotAllowed)));
    }
    var stored := store.Exists(LinkNsOf(side.link, side.src), side.trg);
    if stored && validateConflict {
      return Err(Error(DataConflictError, Text(Links.LinkExists)));
    }
    var d := Schemas.Deserialize(side.link.schema, VDict(payload), true, true);
    if d.Err? {
      return Err(d.error);
    }
    var readonly := Schemas.FindFields(side.link.schema, ReadonlyQuery) * d.value.Keys;
    if readonly != {} {
      return Err(Error(ValidationError, Fmt(Links.ReadonlySet, [Names(readonly)])));
    }
    r := Ok(d.value[Links.TargetKey := t]);
  }

  /** `LinkInstance._validate` against the store. */
  method ValidateLink(ctx: Ctx, h: Links.Handle, store: RamStorage, data: Value, validateConflict: bool)
    returns (r: Result<Record>)
    modifies store
    ensures Out(r, store.Model()) == Links.Validate(ctx, h, old(store.Model()), data, validateConflict)
  {
    var shape := Links.Shape(h, data);
    if shape.Err? {
      return Err(shape.error);
    }
    var (t, payload) := shape.value;
    var got := GetPk(ctx, h.target, store, t);
    if got.Err? {
      return Links.TargetError(got.error);
    }
    var side := Links.MasterSide(h, t, "can_create");
    if side.Err? {
      return Err(side.error);
    }
    r := CheckAtMaster(ctx, side.value, store, payload, t, validateConflict);
  }

  /** `LinkInstance._set` against the store. */
  method SetLink(h: Links.Handle, t: Value, store: RamStorage, payload: Record) returns (r: Result<()>)
    modifies store
    ensures Out(r, store.Model()) == Links.Store(h, t, old(store.Model()), payload)
  {
    if h.fwd.master {
      store.Set(LinkNsOf(h.fwd, h.src), t, Some(payload));
      if h.bwd.Some? {
        store.Set(LinkNsOf(h.bwd.value, t), h.src, None);
      }
      r := Ok(());
    } else if h.bwd.None? {
      r := Err(Error(AttributeError, Text("create")));
    } else {
      store.Set(LinkNsOf(h.bwd.value, t), h.src, Some(payload));
      store.Set(LinkNsOf(h.fwd, h.src), t, None);
      r := Ok(());
    }
  }

  /** `LinkInstance._create` against the store; the result is the new link's target pk. */
  method CreateLink(h: Links.Handle, store: RamStorage, valid: Record) returns (r: Result<Value>)
    modifies store
    ensures Out(r, store.Model()) == Links.Create(h, old(store.Model()), valid)
  {
    if Links.TargetKey !in valid {
      return Err(Error(KeyError, Val(VStr(Links.TargetKey))));
    }
    var t := valid[Links.TargetKey];
    var s := SetLink(h, t, store, valid - {Links.TargetKey});
    if s.Err? {
      return Err(s.error);
    }
    r := Ok(t);
  }

  /** `LinkInstance._delete` against the store. */
  method DeleteEntries(h: Links.Handle, t: Value, store: RamStorage) returns (r: Result<()>)
    modifies store
    ensures Out(r, store.Model()) == Links.Detach(h, t, old(store.Model()))
  {
    r := store.Delete(LinkNsOf(h.fwd, h.src), t);
    if r.Ok? && h.bwd.Some? {
      r := store.Delete(LinkNsOf(h.bwd.value, t), h.src);
    }
  }

  /** `LinkInstance.data` against the store. */
  method LinkData(ctx: Ctx, h: Links.Handle, t: Value, store: RamStorage) returns (r: Result<Record>)
    modifies store
    ensures Out(r, store.Model()) == Links.Data(ctx, h, t, old(store.Model()))
  {
    var side := Links.MasterSide(h, t, "get_data");
    if side.Err? {
      return Err(side.error);
    }
    var m := side.value;
    r := store.Get(LinkNsOf(m.link, m.src), m.trg);
    if r.Ok? && !ctx.pol.linkCanGetData(NameOf(h.fwd), ctx.user, m.src, m.trg, r.value) {
      r := Err(Error(AuthorizationError, Text(Links.DataNotAllowed)));
    }
  }

  /** `LinkInstance.delete` against the store. */
  method DeleteLink(ctx: Ctx, h: Links.Handle, t: Value, store: RamStorage) returns (r: Result<()>)
    modifies store
    ensures Out(r, store.Model()) == Links.Delete(ctx, h, t, old(store.Model()))
  {
    var gate := Links.ValidateChangability(h.fwd, h.bwd, Links.OpMsg("delete"));
    if gate.Err? {
      return Err(gate.error);
    }
    var bwdRequired := Links.BackwardRequired(h);
    if bwdRequired.Err? {
      return Err(bwdRequired.error);
    }
    if Links.RequiredOne(h.fwd) || bwdRequired.value {
      return Err(Error(Forbidden, Text(Links.RequiredNotRemovable)));
    }
    var side := Links.MasterSide(h, t, "can_delete");
    if side.Err? {
      return Err(side.error);
    }
    var m := side.value;
    if !ctx.pol.linkCanDelete(NameOf(m.link), ctx.user, m.src, m.trg) {
      return Err(Error(AuthorizationError, Text(Links.UnlinkNotAllowed)));
    }
    r := DeleteEntries(h, t, store);
  }

  /** `LinkInstance.update` against the store. */
  method UpdateLink(ctx: Ctx, h: Links.Handle, t: Value, store: RamStorage, data: Value) returns (r: Result<()>)
    modifies store
    ensures Out(r, store.Model()) == Links.Update(ctx, h, t, old(store.Model()), data)
  {
    var gate := Links.ValidateChangability(h.fwd, h.bwd, Links.OpMsg("update"));
    if gate.Err? {
      return Err(gate.error);
    }
    var side := Links.MasterSide(h, t, "schema");
    if side.Err? {
      return Err(side.error);
    }
    var m := side.value;
    var v := Schemas.Deserialize(m.link.schema, data, false, true);
    if v.Err? {
      return Err(v.error);
    }
    var unchangeable := Schemas.FindFields(m.link.schema, UnchangeableQuery) * v.value.Keys;
    if unchangeable != {} {
      return Err(Error(ValidationError, Fmt(Links.UnchangeableFields, [Names(unchangeable)])));
    }
    if !ctx.pol.linkCanUpdate(NameOf(m.link), ctx.user, m.src, m.trg, v.value) {
      return Err(Error(AuthorizationError, Text(Links.UpdateNotAllowed)));
    }
    store.Set(LinkNsOf(m.link, m.src), m.trg, Some(v.value));
    r := Ok(());
  }

  /** Clearing the link to t: the target's record first when the link cascades, then `_delete`. */
  method UnlinkTarget(h: Links.Handle, t: Value, store: RamStorage) returns (r: Result<()>)
    modifies store
    ensures Out(r, store.Model()) == Links.Unlink(h, t, old(store.Model()))
  {
    if Links.Cascades(h) {
      r := store.Delete(ResNs(h.target), t);
      if r.Err? {
        return;
      }
    }
    r := DeleteEntries(h, t, store);
  }

  // ---------------------------------------------------------------------
  // LinkToOne
  // ---------------------------------------------------------------------

  /** `LinkToOne._get_item` against the store; the item is its target pk. */
  method ItemOrNone(ctx: Ctx, h: Links.Handle, store: RamStorage) returns (r: Result<Option<Value>>)
    modifies store
    ensures Out(r, store.Model()) == Links.GetItem(ctx, h, old(store.Model()))
  {
    var pks := store.GetKeys(LinkNsOf(h.fwd, h.src), None);
    if |pks| == 1 {
      r := Ok(if Links.Discoverable(ctx, h, pks[0]) then Some(pks[0]) else None);
    } else if |pks| == 0 {
      r := Ok(None);
    } else {
      r := Err(Error(MultipleFound, Text(Links.SeveralFound)));
    }
  }

  /** `LinkToOne.item` against the store. */
  method LinkItem(ctx: Ctx, h: Links.Handle, store: RamStorage) returns (r: Result<Value>)
    modifies store
    ensures Out(r, store.Model()) == Links.Item(ctx, h, old(store.Model()))
  {
    var g := ItemOrNone(ctx, h, store);
    if g.Err? {
      return Err(g.error);
    }
    if g.value.None? {
      return Err(Error(DoesNotExist, Text(Links.OneMissing)));
    }
    r := Ok(g.value.value);
  }

  /** `LinkToOne._clear` against the store. */
  method ClearOne(ctx: Ctx, h: Links.Handle, store: RamStorage) returns (r: Result<()>)
    modifies store
    ensures Out(r, store.Model()) == Links.ClearOne(ctx, h, old(store.Model()))
  {
    var g := ItemOrNone(ctx, h, store);
    if g.Err? {
      return Err(g.error);
    }
    if g.value.None? {
      return Ok(());
    }
    r := UnlinkTarget(h, g.value.value, store);
  }

  /** `LinkToOne.set` against the store. */
  method SetOne(ctx: Ctx, h: Links.Handle, store: RamStorage, data: Value) returns (r: Result<()>)
    modifies store
    ensures Out(r, store.Model()) == Links.SetOne(ctx, h, old(store.Model()), data)
    ensures r.Ok? && Storage.Valid(old(store.Model())) && Links.NamesApart(h) && Links.ItemsVisible(ctx, h, old(store.Model())) ==>
              data.VDict? && Links.TargetKey in data.entries &&
              TableOf(store.Model(), LinkNsOf(h.fwd, h.src)).keys == [data.entries[Links.TargetKey]] &&
              Links.Linked(h, store.Model(), data.entries[Links.TargetKey])
  {
    ghost var ram0 := store.Model();
    var valid := ValidateLink(ctx, h, store, data, false);
    if valid.Err? {
      return Err(valid.error);
    }
    var item := ItemOrNone(ctx, h, store);
    if item.Err? {
      return Err(item.error);
    }
    var gate := Links.ValidateChangability(h.fwd, h.bwd, Links.OpMsg("set"));
    if gate.Err? {
      return Err(gate.error);
    }
    if item.value.Some? {
      r := DeleteLink(ctx, h, item.value.value, store);
      if r.Err? {
        return;
      }
    }
    var c := CreateLink(h, store, valid.value);
    r := if c.Err? then Err(c.error) else Ok(());
    if r.Ok? && Storage.Valid(ram0) && Links.NamesApart(h) && Links.ItemsVisible(ctx, h, ram0) {
      Links.SetOneReplaces(ctx, h, ram0, data);
    }
  }

  // ---------------------------------------------------------------------
  // Collections
  // ---------------------------------------------------------------------

  /** Python's list indexing: a negative key counts from the end; anything else out of range is an IndexError. */
  function Position(n: nat, key: int): (p: Result<nat>)
    ensures p.Ok? <==> -(n as int) <= key < n
    ensures p.Ok? ==> p.value < n && (p.value == key || p.value == key + n)
    ensures p.Err? ==> p.error.kind == IndexError
  {
    if 0 <= key < n then Ok(key)
    else if -(n as int) <= key < 0 then Ok(n + key)
    else TextFail(IndexError, "list index out of range")
  }

  /**
   * `LinkCollection`, and `RootLinkCollection` when `root` holds: the
   * query parameters, and the listing fetched by the first `__iter__`
   * with the position `next` has reached in it.
   */
  class LinkCollection {
    const ctx: Ctx
    const handle: Links.Handle
    const store: RamStorage
    const root: bool
    var params: Record
    var items: Option<seq<Value>>
    var cursor: nat

    constructor (ctx: Ctx, handle: Links.Handle, store: RamStorage, root: bool, params: Record)
      ensures this.ctx == ctx && this.handle == handle && this.store == store && this.root == root
      ensures this.params == params && items.None? && cursor == 0
    {
      this.ctx := ctx;
      this.handle := handle;
      this.store := store;
      this.root := root;
      this.params := params;
      items := None;
      cursor := 0;
    }

    /** `__iter__`: the first call fetches the listing and keeps it; later calls change nothing. */
    method Iter() returns (r: Result<()>)
      modifies this, store
      ensures params == old(params)
      ensures old(items).Some? ==> r.Ok? && items == old(items) && cursor == old(cursor) && store.Model() == old(store.Model())
      ensures old(items).None? ==>
                var f := Links.Fetch(ctx, handle, params, old(store.Model()));
                store.Model() == f.ram &&
                (f.res.Err? ==> r == Err(f.res.error) && items.None? && cursor == old(cursor)) &&
                (f.res.Ok? ==> r.Ok? && items == Some(f.res.value) && cursor == 0)
    {
      if items.Some? {
        return Ok(());
      }
      if !ctx.pol.linkCanGetUris(NameOf(handle.fwd), ctx.user, handle.src) {
        return Err(Error(AuthorizationError, Text(Links.ListNotAllowed)));
      }
      Schemas.DeserializeLenient(handle.fwd.querySchema, params, false);
      var p := Lenient(handle.fwd.querySchema, params).value;
      var pks := store.GetKeys(LinkNsOf(handle.fwd, handle.src), Some(p));
      items := Some(pks);
      cursor := 0;
      r := Ok(());
    }

    /**
     * `next`: the next listed link, None for one the user may not
     * discover; StopIteration past the end, and AttributeError before
     * the first `__iter__`.
     */
    method Next() returns (r: Result<Option<Value>>)
      modifies this
      ensures params == old(params) && items == old(items)
      ensures old(items).None? ==> r == Fail(AttributeError, Text("next")) && cursor == old(cursor)
      ensures old(items).Some? && old(cursor) >= |old(items).value| ==> r.Err? && r.error.kind == StopIteration && cursor == old(cursor)
      ensures old(items).Some? && old(cursor) < |old(items).value| ==>
                r == Ok(Links.Elements(ctx, handle, items.value)[old(cursor)]) && cursor == old(cursor) + 1
    {
      if items.None? {
        return Fail(AttributeError, Text("next"));
      }
      if cursor >= |items.value| {
        return TextFail(StopIteration, "");
      }
      r := Ok(Links.Elements(ctx, handle, items.value)[cursor]);
      cursor := cursor + 1;
    }

    /** `__len__`: the length of the listing, fetched if need be. */
    method Len() returns (r: Result<nat>)
      modifies this, store
      ensures params == old(params)
      ensures old(items).Some? ==> items == old(items) && cursor == old(cursor) && store.Model() == old(store.Model())
      ensures old(items).None? ==>
                var f := Links.Fetch(ctx, handle, params, old(store.Model()));
                store.Model() == f.ram &&
                (f.res.Err? ==> r == Err(f.res.error) && items.None? && cursor == old(cursor)) &&
                (f.res.Ok? ==> items == Some(f.res.value) && cursor == 0)
      ensures items.Some? ==> r == Ok(|items.value|)
    {
      var it := Iter();
      if it.Err? {
        return Err(it.error);
      }
      r := Ok(|items.value|);
    }

    /** `__getitem__`: the listed link at a Python index, fetched if need be. */
    method At(key: int) returns (r: Result<Option<Value>>)
      modifies this, store
      ensures params == old(params)
      ensures old(items).Some? ==> items == old(items) && cursor == old(cursor) && store.Model() == old(store.Model())
      ensures old(items).None? ==>
                var f := Links.Fetch(ctx, handle, params, old(store.Model()));
                store.Model() == f.ram &&
                (f.res.Err? ==> r == Err(f.res.error) && items.None? && cursor == old(cursor)) &&
                (f.res.Ok? ==> items == Some(f.res.value) && cursor == 0)
      ensures r.Ok? ==> items.Some? && -|items.value| <= key < |items.value|
      ensures items.Some? && !(-|items.value| <= key < |items.value|) ==> r.Err? && r.error.kind == IndexError
      ensures items.Some? && -|items.value| <= key < |items.value| ==>
                var k := if key < 0 then |items.value| + key else key;
                r == Ok(if Links.Discoverable(ctx, handle, items.value[k]) then Some(items.value[k]) else None)
    {
      var it := Iter();
      if it.Err? {
        return Err(it.error);
      }
      var p := Position(|items.value|, key);
      if p.Err? {
        return Err(p.error);
      }
      var t := items.value[p.value];
      r := Ok(if Links.Discoverable(ctx, handle, t) then Some(t) else None);
    }

    /** `filter`: a new, non-root collection over the same link, with the parameters updated. */
    method Filter(update: Record) returns (c: LinkCollection)
      ensures fresh(c)
      ensures c.ctx == ctx && c.handle == handle && c.store == store && !c.root
      ensures c.params == Resources.Merge(params, update) && c.items.None?
    {
      c := new LinkCollection(ctx, handle, store, false, Resources.Merge(params, update));
    }

    /** `count`: asked of the backend each time, never from the listing. */
    method Count() returns (r: Result<int>)
      modifies store
      ensures Out(r, store.Model()) == Links.Count(ctx, handle, params, old(store.Model()))
    {
      if !ctx.pol.linkCanGetUris(NameOf(handle.fwd), ctx.user, handle.src) {
        return Err(Error(AuthorizationError, Text(Links.CountNotAllowed)));
      }
      Schemas.DeserializeLenient(handle.fwd.querySchema, params, false);
      var p := Lenient(handle.fwd.querySchema, params).value;
      var pks := store.GetKeys(LinkNsOf(handle.fwd, handle.src), Some(p));
      r := Ok(|pks|);
    }

    /** `RootLinkCollection._clear`, on the fresh root collection a link holder hands out. */
    method Clear() returns (r: Result<()>)
      requires root && params == map[] && items.None?
      modifies this, store
      ensures Out(r, store.Model()) == Links.ClearMany(ctx, handle, old(store.Model()))
      ensures r.Ok? && Storage.Valid(old(store.Model())) ==>
                Shrinks(old(store.Model()), store.Model()) && Storage.Valid(store.Model()) &&
                Empty(store.Model(), LinkNsOf(handle.fwd, handle.src)) &&
                Links.ClearedFrom(ctx, handle, old(store.Model()), store.Model())
    {
      ghost var ram0 := store.Model();
      var it := Iter();
      if it.Err? {
        return Err(it.error);
      }
      r := ClearEach(ctx, handle, store, items.value);
      if Storage.Valid(ram0) {
        Links.ClearManyClears(ctx, handle, ram0);
      }
    }

    /** `RootLinkCollection._validate`: each element validated in turn, with the conflict check. */
    method ValidateList(data: Value) returns (r: Result<seq<Record>>)
      modifies store
      ensures Out(r, store.Model()) == Links.ValidateMany(ctx, handle, old(store.Model()), data)
    {
      if !data.VList? {
        return Err(Error(ValidationError, Text(Links.LinksNotList)));
      }
      r := ValidateEach(ctx, handle, store, data.items);
    }

    /** `RootLinkCollection._set`: each validated element created in turn. */
    method SetList(recs: seq<Record>) returns (r: Result<()>)
      modifies store
      ensures Out(r, store.Model()) == Links.StoreMany(handle, old(store.Model()), recs)
      ensures r.Ok? ==> Grows(old(store.Model()), store.Model()) &&
                        forall i :: 0 <= i < |recs| ==> Links.RecLinked(handle, store.Model(), recs[i])
    {
      ghost var ram0 := store.Model();
      r := CreateEach(handle, store, recs);
      Links.StoreManyLinks(handle, ram0, recs);
    }

    /** `RootLinkCollection.get`: the link to an existing, discoverable target. */
    method Get(t: Value) returns (r: Result<Value>)
      requires root
      modifies store
      ensures Out(r, store.Model()) == Links.GetLink(ctx, handle, old(store.Model()), t)
    {
      r := GetPk(ctx, handle.target, store, t);
      if r.Err? {
        return;
      }
      var stored := store.Exists(LinkNsOf(handle.fwd, handle.src), r.value);
      if !stored || !Links.Discoverable(ctx, handle, r.value) {
        return Err(Error(DoesNotExist, Text(Links.LinkMissing)));
      }
    }

    /** `RootLinkCollection.create`: validated with the conflict check, then changeability, then created. */
    method Create(data: Value) returns (r: Result<Value>)
      requires root
      modifies store
      ensures Out(r, store.Model()) == Links.CreateIn(ctx, handle, old(store.Model()), data)
    {
      var valid := ValidateLink(ctx, handle, store, data, true);
      if valid.Err? {
        return Err(valid.error);
      }
      var gate := Links.ValidateChangability(handle.fwd, handle.bwd, Text(Links.UnchangeableCollection));
      if gate.Err? {
        return Err(gate.error);
      }
      r := CreateLink(handle, store, valid.value);
    }
  }

  /** One iteration of the loop of `RootLinkCollection._validate` against the store. */
  method ValidateElement(ctx: Ctx, h: Links.Handle, store: RamStorage, valid: seq<Record>, data: Value)
    returns (r: Result<seq<Record>>)
    modifies store
    ensures Out(r, store.Model()) == Links.ValidateStep(ctx, h)(old(store.Model()), valid, data)
    ensures r.Ok? ==> |r.value| == |valid| + 1
  {
    var v := ValidateLink(ctx, h, store, data, true);
    if v.Err? {
      return Err(Links.ElementError(|valid|, v.error));
    }
    r := Ok(valid + [v.value]);
  }

  /** One element of `RootLinkCollection._clear` against the store. */
  method ClearAt(ctx: Ctx, h: Links.Handle, t: Value, store: RamStorage) returns (r: Result<()>)
    modifies store
    ensures Out(r, store.Model()) == Links.ClearAt(ctx, h, t, old(store.Model()))
  {
    if !Links.Discoverable(ctx, h, t) {
      return Err(Error(AttributeError, Text(if Links.Cascades(h) then "_target_pk" else "_delete")));
    }
    r := UnlinkTarget(h, t, store);
  }

  /** The loop of `RootLinkCollection._clear` over the fetched pks. */
  method ClearEach(ctx: Ctx, h: Links.Handle, store: RamStorage, pks: seq<Value>) returns (r: Result<()>)
    modifies store
    ensures Out(r, store.Model()) == Run(old(store.Model()), (), pks, |pks|, Links.ClearStep(ctx, h))
  {
    ghost var ram0 := store.Model();
    r := Ok(());
    var i := 0;
    while i < |pks|
      invariant 0 <= i <= |pks| && r.Ok?
      invariant Run(ram0, (), pks, i, Links.ClearStep(ctx, h)) == Out(r, store.Model())
    {
      RunStep(ram0, (), pks, i, Links.ClearStep(ctx, h), r.value, store.Model());
      r := ClearAt(ctx, h, pks[i], store);
      if r.Err? {
        RunErr(ram0, (), pks, Links.ClearStep(ctx, h), i + 1, |pks|);
        return;
      }
      i := i + 1;
    }
  }

  /** The loop of `RootLinkCollection._validate`: the elements validated so far, or the first failure. */
  method ValidateEach(ctx: Ctx, h: Links.Handle, store: RamStorage, xs: seq<Value>) returns (r: Result<seq<Record>>)
    modifies store
    ensures Out(r, store.Model()) == Run(old(store.Model()), [], xs, |xs|, Links.ValidateStep(ctx, h))
  {
    ghost var ram0 := store.Model();
    var valid: seq<Record> := [];
    var count := 0;
    while count < |xs|
      invariant 0 <= count <= |xs|
      invariant Run(ram0, [], xs, count, Links.ValidateStep(ctx, h)) == Out(Ok(valid), store.Model())
    {
      RunStep(ram0, [], xs, count, Links.ValidateStep(ctx, h), valid, store.Model());
      var v := ValidateElement(ctx, h, store, valid, xs[count]);
      if v.Err? {
        RunErr(ram0, [], xs, Links.ValidateStep(ctx, h), count + 1, |xs|);
        return v;
      }
      valid := v.value;
      count := count + 1;
    }
    r := Ok(valid);
  }

  /** The loop of `RootLinkCollection._set`. */
  method CreateEach(h: Links.Handle, store: RamStorage, recs: seq<Record>) returns (r: Result<()>)
    modifies store
    ensures Out(r, store.Model()) == Links.StoreMany(h, old(store.Model()), recs)
  {
    ghost var ram0 := store.Model();
    var i := 0;
    while i < |recs|
      invariant 0 <= i <= |recs|
      invariant Run(ram0, (), recs, i, Links.CreateStep(h)) == Out(Ok(()), store.Model())
    {
      RunStep(ram0, (), recs, i, Links.CreateStep(h), (), store.Model());
      ghost var before := store.Model();
      var c := CreateLink(h, store, recs[i]);
      assert Links.CreateStep(h)(before, (), recs[i]).ram == store.Model();
      if c.Err? {
        RunErr(ram0, (), recs, Links.CreateStep(h), i + 1, |recs|);
        return Err(c.error);
      }
      i := i + 1;
    }
    r := Ok(());
  }

  // ---------------------------------------------------------------------
  // LinkHolder
  // ---------------------------------------------------------------------

  /** `LinkHolder`: the links of one resource instance, under the pk it was given. */
  class LinkHolder {
    const ctx: Ctx
    const res: Resource
    const store: RamStorage
    var pk: Value

    constructor (ctx: Ctx, res: Resource, store: RamStorage, pk: Value)
      ensures this.ctx == ctx && this.res == res && this.store == store && this.pk == pk
    {
      this.ctx := ctx;
      this.res := res;
      this.store := store;
      this.pk := pk;
    }

    /** `_set_pk`: the pk a created resource instance receives. */
    method SetPk(pk: Value)
      modifies this
      ensures this.pk == pk
    {
      this.pk := pk;
    }

    /** `_validate`: every link's data validated, in name order. */
    method Validate(linksData: Value) returns (r: Result<map<string, Links.Payload>>)
      modifies store
      ensures Out(r, store.Model()) == Links.ValidateLinks(ctx, res, pk, old(store.Model()), linksData)
    {
      var data := Or(linksData, VDict(map[]));
      if !data.VDict? {
        return Err(Error(ValidationError, Text(Links.LinksNotDict)));
      }
      var missing := Links.RequiredLinks(res) - data.entries.Keys;
      if missing != {} {
        return Err(Error(ValidationError, Fmt(Links.LinksMissing, [Names(missing)])));
      }
      r := ValidateEachNamed(ctx, res, pk, store, data.entries, SortedKeys(data.entries.Keys));
    }

    /** `_set`: every validated link stored, in name order. */
    method Set(valid: map<string, Links.Payload>) returns (r: Result<()>)
      modifies store
      ensures Out(r, store.Model()) == Links.StoreLinks(ctx, res, pk, old(store.Model()), valid)
      ensures r.Ok? ==> Grows(old(store.Model()), store.Model()) && Links.LinksStored(ctx, res, pk, valid, store.Model())
    {
      ghost var ram0 := store.Model();
      r := StoreEachNamed(ctx, res, pk, store, valid, SortedKeys(valid.Keys));
      Links.StoreLinksStores(ctx, res, pk, ram0, valid);
    }

    /** `_clear`: every declared link cleared, in name order. */
    method Clear() returns (r: Result<()>)
      modifies store
      ensures Out(r, store.Model()) == Links.ClearLinks(ctx, res, pk, old(store.Model()))
      ensures r.Ok? && Storage.Valid(old(store.Model())) ==>
                Shrinks(old(store.Model()), store.Model()) && Storage.Valid(store.Model()) &&
                Links.LinksEmptied(ctx, res, pk, old(store.Model()), store.Model())
    {
      ghost var ram0 := store.Model();
      r := ClearEachNamed(ctx, res, pk, store, SortedKeys(res.linkDecls.Keys));
      if Storage.Valid(ram0) {
        Links.ClearLinksClears(ctx, res, pk, ram0);
      }
    }
  }

  /** One iteration of the loop of `LinkHolder._validate`, through the handle `__getattr__` gives. */
  method ValidateNamed(ctx: Ctx, r: Resource, pk: Value, store: RamStorage, data: Record,
                       acc: map<string, Links.Payload>, name: string) returns (o: Result<map<string, Links.Payload>>)
    modifies store
    ensures Out(o, store.Model()) == Links.ValidateNamedStep(ctx, r, pk, data)(old(store.Model()), acc, name)
  {
    if name !in data {
      return Err(Error(KeyError, Val(VStr(name))));
    }
    var h := Links.HandleOf(ctx, r, pk, name);
    if h.Err? {
      return Err(Links.LinkError(name, h.error));
    }
    if h.value.fwd.cardinality == One {
      var v := ValidateLink(ctx, h.value, store, data[name], false);
      if v.Err? {
        return Err(Links.LinkError(name, v.error));
      }
      o := Ok(acc[name := Links.OnePayload(v.value)]);
    } else {
      var c := new LinkCollection(ctx, h.value, store, true, map[]);
      var v := c.ValidateList(data[name]);
      if v.Err? {
        return Err(Links.LinkError(name, v.error));
      }
      o := Ok(acc[name := Links.ManyPayload(v.value)]);
    }
  }

  /** The loop of `LinkHolder._validate`. */
  method ValidateEachNamed(ctx: Ctx, r: Resource, pk: Value, store: RamStorage, data: Record, names: seq<string>)
    returns (o: Result<map<string, Links.Payload>>)
    modifies store
    ensures Out(o, store.Model()) == Run(old(store.Model()), map[], names, |names|, Links.ValidateNamedStep(ctx, r, pk, data))
  {
    ghost var ram0 := store.Model();
    var valid: map<string, Links.Payload> := map[];
    var i := 0;
    while i < |names|
      invariant 0 <= i <= |names|
      invariant Run(ram0, map[], names, i, Links.ValidateNamedStep(ctx, r, pk, data)) == Out(Ok(valid), store.Model())
    {
      RunStep(ram0, map[], names, i, Links.ValidateNamedStep(ctx, r, pk, data), valid, store.Model());
      var v := ValidateNamed(ctx, r, pk, store, data, valid, names[i]);
      if v.Err? {
        RunErr(ram0, map[], names, Links.ValidateNamedStep(ctx, r, pk, data), i + 1, |names|);
        return v;
      }
      valid := v.value;
      i := i + 1;
    }
    o := Ok(valid);
  }

  /** One iteration of the loop of `LinkHolder._set`. */
  method StoreNamed(ctx: Ctx, r: Resource, pk: Value, store: RamStorage, valid: map<string, Links.Payload>, name: string)
    returns (o: Result<()>)
    modifies store
    ensures Out(o, store.Model()) == Links.StoreNamedStep(ctx, r, pk, valid)(old(store.Model()), (), name)
  {
    if name !in valid {
      return Err(Error(KeyError, Val(VStr(name))));
    }
    var h := Links.HandleOf(ctx, r, pk, name);
    if h.Err? {
      return Err(h.error);
    }
    match valid[name]
    case OnePayload(rec) =>
      if h.value.fwd.cardinality != One {
        return Err(Error(TypeError, Text(name)));
      }
      var c := CreateLink(h.value, store, rec);
      o := if c.Err? then Err(c.error) else Ok(());
    case ManyPayload(recs) =>
      if h.value.fwd.cardinality == One {
        return Err(Error(TypeError, Text(name)));
      }
      var c := new LinkCollection(ctx, h.value, store, true, map[]);
      o := c.SetList(recs);
  }

  /** The loop of `LinkHolder._set`. */
  method StoreEachNamed(ctx: Ctx, r: Resource, pk: Value, store: RamStorage, valid: map<string, Links.Payload>, names: seq<string>)
    returns (o: Result<()>)
    modifies store
    ensures Out(o, store.Model()) == Run(old(store.Model()), (), names, |names|, Links.StoreNamedStep(ctx, r, pk, valid))
  {
    ghost var ram0 := store.Model();
    o := Ok(());
    var i := 0;
    while i < |names|
      invariant 0 <= i <= |names| && o.Ok?
      invariant Run(ram0, (), names, i, Links.StoreNamedStep(ctx, r, pk, valid)) == Out(o, store.Model())
    {
      RunStep(ram0, (), names, i, Links.StoreNamedStep(ctx, r, pk, valid), o.value, store.Model());
      o := StoreNamed(ctx, r, pk, store, valid, names[i]);
      if o.Err? {
        RunErr(ram0, (), names, Links.StoreNamedStep(ctx, r, pk, valid), i + 1, |names|);
        return;
      }
      i := i + 1;
    }
  }

  /** One iteration of the loop of `LinkHolder._clear`: a link to one or a fresh root collection. */
  method ClearNamed(ctx: Ctx, r: Resource, pk: Value, store: RamStorage, name: string) returns (o: Result<()>)
    modifies store
    ensures Out(o, store.Model()) == Links.ClearNamed(ctx, r, pk, old(store.Model()), name)
  {
    var h := Links.HandleOf(ctx, r, pk, name);
    if h.Err? {
      return Err(h.error);
    }
    if h.value.fwd.cardinality == One {
      o := ClearOne(ctx, h.value, store);
    } else {
      var c := new LinkCollection(ctx, h.value, store, true, map[]);
      o := c.Clear();
    }
  }

  /** The loop of `LinkHolder._clear` advanced by one link. */
  method ClearNextNamed(ctx: Ctx, r: Resource, pk: Value, store: RamStorage, names: seq<string>, i: nat, ghost ram0: Ram)
    returns (o: Result<()>)
    requires i < |names|
    requires Run(ram0, (), names, i, Links.ClearNamedStep(ctx, r, pk)).res.Ok?
    requires Run(ram0, (), names, i, Links.ClearNamedStep(ctx, r, pk)).ram == store.Model()
    modifies store
    ensures Out(o, store.Model()) == Run(ram0, (), names, i + 1, Links.ClearNamedStep(ctx, r, pk))
  {
    ghost var u := Run(ram0, (), names, i, Links.ClearNamedStep(ctx, r, pk)).res.value;
    RunStep(ram0, (), names, i, Links.ClearNamedStep(ctx, r, pk), u, store.Model());
    o := ClearNamed(ctx, r, pk, store, names[i]);
  }

  /** The loop of `LinkHolder._clear`. */
  method ClearEachNamed(ctx: Ctx, r: Resource, pk: Value, store: RamStorage, names: seq<string>) returns (o: Result<()>)
    modifies store
    ensures Out(o, store.Model()) == Run(old(store.Model()), (), names, |names|, Links.ClearNamedStep(ctx, r, pk))
  {
    ghost var ram0 := store.Model();
    o := Ok(());
    var i := 0;
    while i < |names|
      invariant 0 <= i <= |names| && o.Ok?
      invariant Run(ram0, (), names, i, Links.ClearNamedStep(ctx, r, pk)) == Out(o, store.Model())
    {
      o := ClearNextNamed(ctx, r, pk, store, names, i, ram0);
      if o.Err? {
        RunErr(ram0, (), names, Links.ClearNamedStep(ctx, r, pk), i + 1, |names|);
        return;
      }
      i := i + 1;
    }
  }

  // ---------------------------------------------------------------------
  // Resources
  // ---------------------------------------------------------------------

  /** The base record's write in `create`: the new resource's pk, unless the pk is taken. */
  method WriteBase(res: Resource, store: RamStorage, d: Record) returns (r: Result<Value>)
    modifies store
    ensures Out(r, store.Model()) == Resources.WriteBase(res, old(store.Model()), d)
  {
    var pk := GeneratePk(res, d);
    if pk != VNone {
      var stored := store.Exists(ResNs(res), pk);
      if stored {
        return Err(Error(DataConflictError, Fmt(Resources.PkConflict, [Val(pk)])));
      }
    }
    store.Set(ResNs(res), pk, Some(d));
    r := Ok(pk);
  }

  /**
   * The rest of `create` once the data are checked: the links validated by
   * the new instance's holder while it has no pk, the record, the pk given
   * to the instance, then its links stored.
   */
  method CreateChecked(ctx: Ctx, res: Resource, store: RamStorage, d: Record, linkData: Value) returns (r: Result<ResourceInstance>)
    modifies store
    ensures Out(if r.Ok? then Ok(r.value.pk) else Err(r.error), store.Model()) ==
              Resources.CreateChecked(ctx, res, old(store.Model()), d, linkData)
    ensures r.Ok? ==> fresh(r.value) && fresh(r.value.links) && r.value.Valid()
    ensures r.Ok? ==> r.value.ctx == ctx && r.value.res == res && r.value.store == store
    ensures r.Ok? ==> r.value.pk == GeneratePk(res, d) && Has(store.Model(), ResNs(res), r.value.pk) &&
                      var v := Links.ValidateLinks(ctx, res, VNone, old(store.Model()), linkData);
                      v.res.Ok? && Links.LinksStored(ctx, res, r.value.pk, v.res.value, store.Model())
  {
    ghost var ram0 := store.Model();
    var inst := new ResourceInstance(ctx, res, store, VNone);
    var valid := inst.links.Validate(linkData);
    if valid.Err? {
      return Err(valid.error);
    }
    var pk := WriteBase(res, store, d);
    if pk.Err? {
      return Err(pk.error);
    }
    inst.SetPk(pk.value);
    var s := inst.links.Set(valid.value);
    if s.Err? {
      return Err(s.error);
    }
    r := Ok(inst);
    Resources.CreateCheckedStores(ctx, res, ram0, d, linkData);
  }

  /** `ResourceInstance`: a resource's pk, and the link holder that carries the same pk. */
  class ResourceInstance {
    const ctx: Ctx
    const res: Resource
    const store: RamStorage
    var pk: Value
    const links: LinkHolder

    /** The instance and its link holder agree on everything. */
    ghost predicate Valid()
      reads this, links
    {
      links.ctx == ctx && links.res == res && links.store == store && links.pk == pk
    }

    constructor (ctx: Ctx, res: Resource, store: RamStorage, pk: Value)
      ensures this.ctx == ctx && this.res == res && this.store == store && this.pk == pk
      ensures fresh(links) && Valid()
    {
      this.ctx := ctx;
      this.res := res;
      this.store := store;
      this.pk := pk;
      links := new LinkHolder(ctx, res, store, pk);
    }

    /** `_set_pk`: the instance and its link holder take the new pk together. */
    method SetPk(pk: Value)
      requires Valid()
      modifies this, links
      ensures this.pk == pk && Valid()
    {
      this.pk := pk;
      links.SetPk(pk);
    }

    /** `data` against the store. */
    method Data() returns (r: Result<Record>)
      modifies store
      ensures Out(r, store.Model()) == Resources.Data(ctx, res, pk, old(store.Model()))
    {
      r := store.Get(ResNs(res), pk);
      if r.Ok? && !ctx.pol.canGetData(res.name, ctx.user, pk, r.value) {
        r := Err(Error(AuthorizationError, Text(Resources.FetchNotAllowed)));
      }
    }

    /** `update` against the store. */
    method Update(data: Value) returns (r: Result<()>)
      modifies store
      ensures Out(r, store.Model()) == Resources.Update(ctx, res, pk, old(store.Model()), data)
    {
      var d := Schemas.Deserialize(res.schema, data, false, true);
      if d.Err? {
        return Err(d.error);
      }
      if !ctx.pol.canUpdate(res.name, ctx.user, pk, d.value) {
        return Err(Error(AuthorizationError, Text(Resources.UpdateNotAllowed)));
      }
      var unchangeable := Schemas.FindFields(res.schema, UnchangeableQuery) * d.value.Keys;
      if unchangeable != {} {
        return Err(Error(ValidationError, Fmt(Resources.UnchangeableFields, [Names(unchangeable)])));
      }
      store.Set(ResNs(res), pk, Some(d.value));
      r := Ok(());
    }

    /** `delete` against the store: the links first, then the record. */
    method Delete() returns (r: Result<()>)
      requires Valid()
      modifies store
      ensures Out(r, store.Model()) == Resources.Delete(ctx, res, pk, old(store.Model()))
      ensures r.Ok? && Storage.Valid(old(store.Model())) ==>
                !Has(store.Model(), ResNs(res), pk) && Shrinks(old(store.Model()), store.Model()) &&
                Links.LinksEmptied(ctx, res, pk, old(store.Model()), store.Model())
    {
      ghost var ram0 := store.Model();
      if !ctx.pol.canDelete(res.name, ctx.user, pk) {
        return Err(Error(AuthorizationError, Text(Resources.DeletionNotAllowed)));
      }
      r := links.Clear();
      if r.Err? {
        return;
      }
      r := store.Delete(ResNs(res), pk);
      Resources.DeleteRules(ctx, res, pk, ram0);
    }
  }

  /**
   * `ResourceCollection`, and `RootResourceCollection` when `root` holds:
   * the query parameters, and the listing fetched by the first `__iter__`
   * with the position `next` has reached in it.
   */
  class ResourceCollection {
    const ctx: Ctx
    const res: Resource
    const store: RamStorage
    const root: bool
    var params: Record
    var items: Option<seq<Value>>
    var cursor: nat

    constructor (ctx: Ctx, res: Resource, store: RamStorage, root: bool, params: Record)
      ensures this.ctx == ctx && this.res == res && this.store == store && this.root == root
      ensures this.params == params && items.None? && cursor == 0
    {
      this.ctx := ctx;
      this.res := res;
      this.store := store;
      this.root := root;
      this.params := params;
      items := None;
      cursor := 0;
    }

    /** An instance of this collection's resource, under pk. */
    ghost predicate Holds(inst: ResourceInstance, pk: Value)
      reads inst, inst.links
    {
      inst.ctx == ctx && inst.res == res && inst.store == store && inst.pk == pk && inst.Valid()
    }

    /** `__iter__`: the first call fetches the listing and keeps it; later calls change nothing. */
    method Iter() returns (r: Result<()>)
      modifies this, store
      ensures params == old(params)
      ensures old(items).Some? ==> r.Ok? && items == old(items) && cursor == old(cursor) && store.Model() == old(store.Model())
      ensures old(items).None? ==>
                var f := Resources.Fetch(ctx, res, params, old(store.Model()));
                store.Model() == f.ram &&
                (f.res.Err? ==> r == Err(f.res.error) && items.None? && cursor == old(cursor)) &&
                (f.res.Ok? ==> r.Ok? && items == Some(f.res.value) && cursor == 0)
    {
      if items.Some? {
        return Ok(());
      }
      if !ctx.pol.canGetUris(res.name, ctx.user) {
        return Err(Error(AuthorizationError, Text(Resources.ListNotAllowed)));
      }
      Schemas.DeserializeLenient(res.querySchema, params, false);
      var p := Lenient(res.querySchema, params).value;
      var pks := store.GetKeys(ResNs(res), Some(p));
      items := Some(pks);
      cursor := 0;
      r := Ok(());
    }

    /** `next`: an instance for the next listed pk; StopIteration past the end, AttributeError before `__iter__`. */
    method Next() returns (r: Result<ResourceInstance>)
      modifies this
      ensures params == old(params) && items == old(items)
      ensures old(items).None? ==> r == Fail(AttributeError, Text("next")) && cursor == old(cursor)
      ensures old(items).Some? && old(cursor) >= |old(items).value| ==> r.Err? && r.error.kind == StopIteration && cursor == old(cursor)
      ensures old(items).Some? && old(cursor) < |old(items).value| ==>
                r.Ok? && fresh(r.value) && Holds(r.value, items.value[old(cursor)]) && cursor == old(cursor) + 1
    {
      if items.None? {
        return Fail(AttributeError, Text("next"));
      }
      if cursor >= |items.value| {
        return TextFail(StopIteration, "");
      }
      var inst := new ResourceInstance(ctx, res, store, items.value[cursor]);
      cursor := cursor + 1;
      r := Ok(inst);
    }

    /** `__len__`: the length of the listing, fetched if need be. */
    method Len() returns (r: Result<nat>)
      modifies this, store
      ensures params == old(params)
      ensures old(items).Some? ==> items == old(items) && cursor == old(cursor) && store.Model() == old(store.Model())
      ensures old(items).None? ==>
                var f := Resources.Fetch(ctx, res, params, old(store.Model()));
                store.Model() == f.ram &&
                (f.res.Err? ==> r == Err(f.res.error) && items.None? && cursor == old(cursor)) &&
                (f.res.Ok? ==> items == Some(f.res.value) && cursor == 0)
      ensures items.Some? ==> r == Ok(|items.value|)
    {
      var it := Iter();
      if it.Err? {
        return Err(it.error);
      }
      r := Ok(|items.value|);
    }

    /** `__getitem__`: an instance for the listed pk at a Python index, fetched if need be. */
    method At(key: int) returns (r: Result<ResourceInstance>)
      modifies this, store
      ensures params == old(params)
      ensures old(items).Some? ==> items == old(items) && cursor == old(cursor) && store.Model() == old(store.Model())
      ensures old(items).None? ==>
                var f := Resources.Fetch(ctx, res, params, old(store.Model()));
                store.Model() == f.ram &&
                (f.res.Err? ==> r == Err(f.res.error) && items.None? && cursor == old(cursor)) &&
                (f.res.Ok? ==> items == Some(f.res.value) && cursor == 0)
      ensures r.Ok? ==> items.Some? && -|items.value| <= key < |items.value|
      ensures items.Some? && !(-|items.value| <= key < |items.value|) ==> r.Err? && r.error.kind == IndexError
      ensures items.Some? && -|items.value| <= key < |items.value| ==>
                r.Ok? && fresh(r.value) && Holds(r.value, items.value[if key < 0 then |items.value| + key else key])
    {
      var it := Iter();
      if it.Err? {
        return Err(it.error);
      }
      var p := Position(|items.value|, key);
      if p.Err? {
        return Err(p.error);
      }
      var inst := new ResourceInstance(ctx, res, store, items.value[p.value]);
      r := Ok(inst);
    }

    /** `filter`: a new, non-root collection of the same resource, with the parameters updated. */
    method Filter(update: Record) returns (c: ResourceCollection)
      ensures fresh(c)
      ensures c.ctx == ctx && c.res == res && c.store == store && !c.root
      ensures c.params == Resources.Merge(params, update) && c.items.None?
    {
      c := new ResourceCollection(ctx, res, store, false, Resources.Merge(params, update));
    }

    /** `count`: asked of the backend each time, never from the listing. */
    method Count() returns (r: Result<int>)
      modifies store
      ensures Out(r, store.Model()) == Resources.Count(ctx, res, params, old(store.Model()))
    {
      if !ctx.pol.canGetUris(res.name, ctx.user) {
        return Err(Error(AuthorizationError, Text(Resources.CountNotAllowed)));
      }
      Schemas.DeserializeLenient(res.querySchema, params, false);
      var p := Lenient(res.querySchema, params).value;
      var pks := store.GetKeys(ResNs(res), Some(p));
      r := Ok(|pks|);
    }

    /** `RootResourceCollection.get`: an instance for an existing, discoverable pk. */
    method Get(pk: Value) returns (r: Result<ResourceInstance>)
      requires root
      modifies store
      ensures Out(if r.Ok? then Ok(r.value.pk) else Err(r.error), store.Model()) == ResourceGet(ctx, res, old(store.Model()), pk)
      ensures r.Ok? ==> fresh(r.value) && Holds(r.value, r.value.pk)
    {
      var p := GetPk(ctx, res, store, pk);
      if p.Err? {
        return Err(p.error);
      }
      var inst := new ResourceInstance(ctx, res, store, p.value);
      r := Ok(inst);
    }

    /**
     * `RootResourceCollection.create`: the data checked, then the rest
     * as `CreateChecked` does it.
     */
    method Create(data: Value, linkData: Value) returns (r: Result<ResourceInstance>)
      requires root
      modifies store
      ensures Out(if r.Ok? then Ok(r.value.pk) else Err(r.error), store.Model()) ==
                Resources.Create(ctx, res, old(store.Model()), data, linkData)
      ensures r.Ok? ==> fresh(r.value) && Holds(r.value, r.value.pk)
      ensures r.Ok? ==> Resources.Checked(ctx, res, data).Ok? &&
                        r.value.pk == GeneratePk(res, Resources.Checked(ctx, res, data).value) &&
                        Has(store.Model(), ResNs(res), r.value.pk) &&
                        var v := Links.ValidateLinks(ctx, res, VNone, old(store.Model()), linkData);
                        v.res.Ok? && Links.LinksStored(ctx, res, r.value.pk, v.res.value, store.Model())
    {
      var d := Resources.Checked(ctx, res, data);
      if d.Err? {
        return Err(d.error);
      }
      r := CreateChecked(ctx, res, store, d.value, linkData);
    }
  }
}
