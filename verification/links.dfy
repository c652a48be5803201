/**
 * The link handles: a link instance (one source, one target), a link to
 * one, a link collection and the link holder of a resource instance.
 * Every operation is given as a function of the store, with the handle
 * that runs it against the store proved equal to it, and the
 * relationship rules as lemmas about the functions.
 */
module Links {
  import opened Values
  import opened Errors
  import opened Interfaces
  import opened Storage
  import opened Access
  import Schemas
  import Services

  /**
   * What every link handle holds: the target resource (its root
   * collection), the forward link, the backward link (`related_link`,
   * None for a one-way link) and the source pk.
   */
  datatype Handle = Handle(target: Resource, fwd: Link, bwd: Option<Link>, src: Value)

  /** A side of a link seen from the link that holds the data: that link, and the pks in its direction. */
  datatype Side = Side(link: Link, src: Value, trg: Value)

  /** Attribute access on the missing backward link of a one-way link. */
  function NoneAttribute<T>(attr: string): (r: Result<T>)
  {
    Fail(AttributeError, Text(attr))
  }

  // ---------------------------------------------------------------------
  // The gates
  // ---------------------------------------------------------------------

  const ReadonlyForward := "The link is readonly (forward link is readonly)"
  const ReadonlyBackward := "The link is readonly (backward link is readonly)"
  const UnchangeableForward := "%s (forward link is unchangeable)"
  const UnchangeableBackward := "%s (backward link is unchangeable)"
  const UnchangeableOp := "It is not allowed to %s unchangeable links"
  const UnchangeableCollection := "It is not allowed to create links in unchangeable collections"

  /** `_validate_readonly`: the forward link, then the backward one unless the link is one-way. */
  function ValidateReadonly(fwd: Link, bwd: Option<Link>): (r: Result<()>)
  {
    if Truthy(fwd.readonly) then TextFail(Forbidden, ReadonlyForward)
    else if fwd.oneWay then Ok(())
    else if bwd.None? then NoneAttribute("readonly")
    else if Truthy(bwd.value.readonly) then TextFail(Forbidden, ReadonlyBackward)
    else Ok(())
  }

  /** The default message of `_validate_changability` for an operation. */
  function OpMsg(op: string): Msg
  {
    Fmt(UnchangeableOp, [Text(op)])
  }

  /** `_validate_changability`: the readonly gate, then the forward link, then the backward one unless one-way. */
  function ValidateChangability(fwd: Link, bwd: Option<Link>, msg: Msg): (r: Result<()>)
  {
    match ValidateReadonly(fwd, bwd)
    case Err(e) => Err(e)
    case Ok(_) =>
      if !fwd.changeable then Fail(Forbidden, Fmt(UnchangeableForward, [msg]))
      else if fwd.oneWay then Ok(())
      else if bwd.None? then NoneAttribute("changeable")
      else if !bwd.value.changeable then Fail(Forbidden, Fmt(UnchangeableBackward, [msg]))
      else Ok(())
  }

  /**
   * The link that holds the data of a link between the handle's source
   * and target t: the forward link when it is master, else the backward
   * link with the two pks swapped.
   */
  function MasterSide(h: Handle, t: Value, attr: string): (r: Result<Side>)
  {
    if h.fwd.master then Ok(Side(h.fwd, h.src, t))
    else if h.bwd.None? then NoneAttribute(attr)
    else Ok(Side(h.bwd.value, t, h.src))
  }

  /** A required link to one. */
  predicate RequiredOne(l: Link)
  {
    l.required && l.cardinality == One
  }

  /** Both the link's and the target resource's `can_discover` allow the user to see target t. */
  predicate Discoverable(ctx: Ctx, h: Handle, t: Value)
  {
    ctx.pol.linkCanDiscover(NameOf(h.fwd), ctx.user, h.src, t) && ctx.pol.canDiscover(h.target.name, ctx.user, t)
  }

  // ---------------------------------------------------------------------
  // LinkInstance._validate
  // ---------------------------------------------------------------------

  const OneToMany := "It is forbiddened to create one to many links. Try creating from another end of the relationship"
  const LinkDataNotDict := "Link data must be a dict"
  const TargetNotDefined := "Target is not defined"
  const TargetKey := "@target"
  const TargetPrefix := "Target: %s"
  const LinkingNotAllowed := "Linking is not allowed"
  const LinkExists := "Link already exists"
  const ReadonlySet := "Readonly fields can not be set: %s"

  /**
   * The checks that need no store: the readonly gate, no link to many
   * whose mirror is a link to one, a dict holding "@target".  The result
   * is the target pk and the rest of the data.
   */
  function Shape(h: Handle, data: Value): (r: Result<(Value, Record)>)
  {
    match ValidateReadonly(h.fwd, h.bwd)
    case Err(e) => Err(e)
    case Ok(_) =>
      if h.bwd.Some? && h.bwd.value.cardinality == One && h.fwd.cardinality == Many then TextFail(Forbidden, OneToMany)
      else if !data.VDict? then TextFail(ValidationError, LinkDataNotDict)
      else if TargetKey !in data.entries then TextFail(ValidationError, TargetNotDefined)
      else Ok((data.entries[TargetKey], data.entries - {TargetKey}))
  }

  /** A target the target collection's `get` refuses is a validation error of the link. */
  function TargetError<T>(e: Error): (r: Result<T>)
  {
    if e.kind == DoesNotExist then Fail(ValidationError, Fmt(TargetPrefix, [Cause(e)])) else Err(e)
  }

  /**
   * `do` of `_validate`, on the master side: `can_create`, the conflict
   * check (the existence query is always made), the payload's
   * deserialization, no readonly field; the result carries the raw target
   * pk under "@target".
   */
  function MasterCheck(ctx: Ctx, side: Side, ram: Ram, payload: Record, t: Value, validateConflict: bool): (o: Out<Record>)
    ensures o.ram.items == ram.items
  {
    if !ctx.pol.linkCanCreate(NameOf(side.link), ctx.user, side.src, side.trg, payload) then
      Stop(ram, Error(AuthorizationError, Text(LinkingNotAllowed)))
    else
      var ex := ExistsSpec(ram, LinkNsOf(side.link, side.src), side.trg);
      if ex.res.value && validateConflict then Stop(ex.ram, Error(DataConflictError, Text(LinkExists)))
      else
        match Schemas.Deserialize(side.link.schema, VDict(payload), true, true)
        case Err(e) => Stop(ex.ram, e)
        case Ok(rval) =>
          var ro := Schemas.FindFields(side.link.schema, ReadonlyQuery) * rval.Keys;
          if ro != {} then Stop(ex.ram, Error(ValidationError, Fmt(ReadonlySet, [Names(ro)])))
          else Out(Ok(rval[TargetKey := t]), ex.ram)
  }

  /** `LinkInstance._validate`: the shape, the target's `get`, then the master side's checks. */
  function Validate(ctx: Ctx, h: Handle, ram: Ram, data: Value, validateConflict: bool): (o: Out<Record>)
    ensures o.ram.items == ram.items
  {
    match Shape(h, data)
    case Err(e) => Stop(ram, e)
    case Ok(st) =>
      var got := ResourceGet(ctx, h.target, ram, st.0);
      if got.res.Err? then Out(TargetError(got.res.error), got.ram)
      else
        match MasterSide(h, st.0, "can_create")
        case Err(e) => Stop(got.ram, e)
        case Ok(side) => MasterCheck(ctx, side, got.ram, st.1, st.0, validateConflict)
  }

  // ---------------------------------------------------------------------
  // LinkInstance: _create, _set, _delete, data, delete, update
  // ---------------------------------------------------------------------

  /** `_set` of a link to t: the payload at the master side, a None marker at the other side if there is one. */
  function Store(h: Handle, t: Value, ram: Ram, payload: Record): (o: Out<()>)
  {
    if h.fwd.master then
      var ram1 := SetSpec(ram, LinkNsOf(h.fwd, h.src), t, Some(payload));
      Out(Ok(()), if h.bwd.Some? then SetSpec(ram1, LinkNsOf(h.bwd.value, t), h.src, None) else ram1)
    else if h.bwd.None? then Stop(ram, Error(AttributeError, Text("create")))
    else
      var ram1 := SetSpec(ram, LinkNsOf(h.bwd.value, t), h.src, Some(payload));
      Out(Ok(()), SetSpec(ram1, LinkNsOf(h.fwd, h.src), t, None))
  }

  /** `_create`: takes the target out of validated data and stores the rest; the result is the target pk. */
  function Create(h: Handle, ram: Ram, valid: Record): (o: Out<Value>)
  {
    if TargetKey !in valid then Stop(ram, Error(KeyError, Val(VStr(TargetKey))))
    else
      var s := Store(h, valid[TargetKey], ram, valid - {TargetKey});
      if s.res.Err? then Stop(s.ram, s.res.error) else Out(Ok(valid[TargetKey]), s.ram)
  }

  /** `_delete`: the forward entry, then the backward one if there is a backward link. */
  function Detach(h: Handle, t: Value, ram: Ram): (o: Out<()>)
  {
    var d := DeleteSpec(ram, LinkNsOf(h.fwd, h.src), t);
    if d.res.Err? || h.bwd.None? then d else DeleteSpec(d.ram, LinkNsOf(h.bwd.value, t), h.src)
  }

  const DataNotAllowed := "Fetching link's data is not allowed"

  /** `data`: read at the master side, authorized by the forward link's `can_get_data`. */
  function Data(ctx: Ctx, h: Handle, t: Value, ram: Ram): (o: Out<Record>)
    ensures o.ram.items == ram.items
  {
    match MasterSide(h, t, "get_data")
    case Err(e) => Stop(ram, e)
    case Ok(side) =>
      var g := GetSpec(ram, LinkNsOf(side.link, side.src), side.trg);
      if g.res.Err? || ctx.pol.linkCanGetData(NameOf(h.fwd), ctx.user, side.src, side.trg, g.res.value) then g
      else Stop(g.ram, Error(AuthorizationError, Text(DataNotAllowed)))
  }

  const RequiredNotRemovable := "It is forbidden to remove required links"
  const UnlinkNotAllowed := "Unlinking is not allowed"

  /** Whether the backward side makes the link undeletable: a two-way link whose mirror is a required link to one. */
  function BackwardRequired(h: Handle): (r: Result<bool>)
  {
    if h.fwd.oneWay then Ok(false)
    else if h.bwd.None? then NoneAttribute("required")
    else Ok(RequiredOne(h.bwd.value))
  }

  /** `delete`: changeability, no required link to one on either side, `can_delete` at the master, then `_delete`. */
  function Delete(ctx: Ctx, h: Handle, t: Value, ram: Ram): (o: Out<()>)
  {
    match ValidateChangability(h.fwd, h.bwd, OpMsg("delete"))
    case Err(e) => Stop(ram, e)
    case Ok(_) =>
      match BackwardRequired(h)
      case Err(e) => Stop(ram, e)
      case Ok(bwdRequired) =>
        if RequiredOne(h.fwd) || bwdRequired then Stop(ram, Error(Forbidden, Text(RequiredNotRemovable)))
        else
          match MasterSide(h, t, "can_delete")
          case Err(e) => Stop(ram, e)
          case Ok(side) =>
            if !ctx.pol.linkCanDelete(NameOf(side.link), ctx.user, side.src, side.trg) then
              Stop(ram, Error(AuthorizationError, Text(UnlinkNotAllowed)))
            else Detach(h, t, ram)
  }

  const UnchangeableFields := "Unchangeable fields: %s"
  const UpdateNotAllowed := "Link data update is not allowed"

  /**
   * `do` of `update` on the master side: lenient-on-required
   * deserialization, no unchangeable field, `can_update`, then the write.
   */
  function MasterUpdate(ctx: Ctx, side: Side, ram: Ram, data: Value): (o: Out<()>)
  {
    match Schemas.Deserialize(side.link.schema, data, false, true)
    case Err(e) => Stop(ram, e)
    case Ok(v) =>
      var u := Schemas.FindFields(side.link.schema, UnchangeableQuery) * v.Keys;
      if u != {} then Stop(ram, Error(ValidationError, Fmt(UnchangeableFields, [Names(u)])))
      else if !ctx.pol.linkCanUpdate(NameOf(side.link), ctx.user, side.src, side.trg, v) then
        Stop(ram, Error(AuthorizationError, Text(UpdateNotAllowed)))
      else Out(Ok(()), SetSpec(ram, LinkNsOf(side.link, side.src), side.trg, Some(v)))
  }

  /** `update`: changeability first, then the master side's update. */
  function Update(ctx: Ctx, h: Handle, t: Value, ram: Ram, data: Value): (o: Out<()>)
  {
    match ValidateChangability(h.fwd, h.bwd, OpMsg("update"))
    case Err(e) => Stop(ram, e)
    case Ok(_) =>
      match MasterSide(h, t, "schema")
      case Err(e) => Stop(ram, e)
      case Ok(side) => MasterUpdate(ctx, side, ram, data)
  }

  // ---------------------------------------------------------------------
  // Clearing one link (LinkToOne._clear and one step of RootLinkCollection._clear)
  // ---------------------------------------------------------------------

  /**
   * Whether clearing a link first deletes its target: the mirror is a
   * required link to one.  A one-way link has no mirror and never cascades.
   */
  predicate Cascades(h: Handle)
  {
    h.bwd.Some? && RequiredOne(h.bwd.value)
  }

  /** Clearing the link to t: the target's own record when the link cascades, then `_delete`. */
  function Unlink(h: Handle, t: Value, ram: Ram): (o: Out<()>)
  {
    if Cascades(h) then
      var d := DeleteSpec(ram, ResNs(h.target), t);
      if d.res.Err? then d else Detach(h, t, d.ram)
    else Detach(h, t, ram)
  }

  // ---------------------------------------------------------------------
  // LinkToOne
  // ---------------------------------------------------------------------

  const SeveralFound := "Several instances of a link with cardinality ONE were found"
  const OneMissing := "Link to one does not exist"

  /** `_get_item`: no stored target, one (seen only if discoverable), or several (an error). */
  function GetItem(ctx: Ctx, h: Handle, ram: Ram): (o: Out<Option<Value>>)
    ensures o.ram.items == ram.items
  {
    var ks := GetKeysSpec(ram, LinkNsOf(h.fwd, h.src), None);
    var pks := ks.res.value;
    if |pks| == 1 then Out(Ok(if Discoverable(ctx, h, pks[0]) then Some(pks[0]) else None), ks.ram)
    else if |pks| == 0 then Out(Ok(None), ks.ram)
    else Stop(ks.ram, Error(MultipleFound, Text(SeveralFound)))
  }

  /** `item`: the target of the link, or DoesNotExist. */
  function Item(ctx: Ctx, h: Handle, ram: Ram): (o: Out<Value>)
  {
    var g := GetItem(ctx, h, ram);
    if g.res.Err? then Stop(g.ram, g.res.error)
    else if g.res.value.None? then Stop(g.ram, Error(DoesNotExist, Text(OneMissing)))
    else Out(Ok(g.res.value.value), g.ram)
  }

  /** `_clear` of a link to one: nothing when there is no visible item, else unlink it. */
  function ClearOne(ctx: Ctx, h: Handle, ram: Ram): (o: Out<()>)
  {
    var g := GetItem(ctx, h, ram);
    if g.res.Err? then Stop(g.ram, g.res.error)
    else if g.res.value.None? then Out(Ok(()), g.ram)
    else Unlink(h, g.res.value.value, g.ram)
  }

  /** `set`: validate (no conflict check), look up the item, changeability, delete the old link, create the new one. */
  function SetOne(ctx: Ctx, h: Handle, ram: Ram, data: Value): (o: Out<()>)
  {
    var v := Validate(ctx, h, ram, data, false);
    if v.res.Err? then Stop(v.ram, v.res.error)
    else
      var g := GetItem(ctx, h, v.ram);
      if g.res.Err? then Stop(g.ram, g.res.error)
      else
        match ValidateChangability(h.fwd, h.bwd, OpMsg("set"))
        case Err(e) => Stop(g.ram, e)
        case Ok(_) =>
          var d := if g.res.value.Some? then Delete(ctx, h, g.res.value.value, g.ram) else Out(Ok(()), g.ram);
          if d.res.Err? then d
          else
            var c := Create(h, d.ram, v.res.value);
            Out(if c.res.Err? then Err(c.res.error) else Ok(()), c.ram)
  }

  // ---------------------------------------------------------------------
  // LinkCollection and RootLinkCollection
  // ---------------------------------------------------------------------

  const ListNotAllowed := "Fetching link collection is not allowed"
  const CountNotAllowed := "Fetching link collection count is not allowed"

  /** The first `__iter__` of a collection: `can_get_uris`, the lenient query, the target pks. */
  function Fetch(ctx: Ctx, h: Handle, params: Record, ram: Ram): (o: Out<seq<Value>>)
    ensures o.ram.items == ram.items
  {
    if !ctx.pol.linkCanGetUris(NameOf(h.fwd), ctx.user, h.src) then Stop(ram, Error(AuthorizationError, Text(ListNotAllowed)))
    else
      match Lenient(h.fwd.querySchema, params)
      case Err(e) => Stop(ram, e)
      case Ok(p) => GetKeysSpec(ram, LinkNsOf(h.fwd, h.src), Some(p))
  }

  /** `count`: the same gate with its own message, then the number of target pks. */
  function Count(ctx: Ctx, h: Handle, params: Record, ram: Ram): (o: Out<int>)
  {
    if !ctx.pol.linkCanGetUris(NameOf(h.fwd), ctx.user, h.src) then Stop(ram, Error(AuthorizationError, Text(CountNotAllowed)))
    else
      match Lenient(h.fwd.querySchema, params)
      case Err(e) => Stop(ram, e)
      case Ok(p) =>
        var ks := GetKeysSpec(ram, LinkNsOf(h.fwd, h.src), Some(p));
        Out(Ok(|ks.res.value|), ks.ram)
  }

  /** `_get` of each fetched pk: the link instance, or None when it is not discoverable. */
  function Elements(ctx: Ctx, h: Handle, pks: seq<Value>): (r: seq<Option<Value>>)
    ensures |r| == |pks|
    ensures forall i :: 0 <= i < |pks| ==> (r[i].Some? <==> Discoverable(ctx, h, pks[i])) && (r[i].Some? ==> r[i].value == pks[i])
  {
    seq(|pks|, i requires 0 <= i < |pks| => if Discoverable(ctx, h, pks[i]) then Some(pks[i]) else None)
  }

  /** One element of `RootLinkCollection._clear`: a non-discoverable element is None and fails. */
  function ClearAt(ctx: Ctx, h: Handle, t: Value, ram: Ram): (o: Out<()>)
  {
    if !Discoverable(ctx, h, t) then Stop(ram, Error(AttributeError, Text(if Cascades(h) then "_target_pk" else "_delete")))
    else Unlink(h, t, ram)
  }

  function ClearStep(ctx: Ctx, h: Handle): (step: (Ram, (), Value) -> Out<()>)
  {
    (ram, u, t) => ClearAt(ctx, h, t, ram)
  }

  /** `RootLinkCollection._clear`: the fetched pks, each cleared in turn. */
  function ClearMany(ctx: Ctx, h: Handle, ram: Ram): (o: Out<()>)
  {
    var f := Fetch(ctx, h, map[], ram);
    if f.res.Err? then Stop(f.ram, f.res.error)
    else Run(f.ram, (), f.res.value, |f.res.value|, ClearStep(ctx, h))
  }

  const LinksNotList := "Links must be passed as a list of dicts"
  const ElementPrefix := "@Element %d: %s"

  /** A framework error while validating element i becomes a validation error naming i. */
  function ElementError(i: int, e: Error): (r: Error)
  {
    if IsFrameworkError(e.kind) then Error(ValidationError, Fmt(ElementPrefix, [Num(i), Cause(e)])) else e
  }

  /** Validating the next element of a list of links; the count so far is the number validated. */
  function ValidateAt(ctx: Ctx, h: Handle, ram: Ram, acc: seq<Record>, d: Value): (o: Out<seq<Record>>)
    ensures o.ram.items == ram.items
    ensures o.res.Ok? ==> |o.res.value| == |acc| + 1 && o.res.value[..|acc|] == acc
    ensures o.res.Err? ==> exists e :: o.res.error == ElementError(|acc|, e)
  {
    var v := Validate(ctx, h, ram, d, true);
    if v.res.Err? then Stop(v.ram, ElementError(|acc|, v.res.error)) else Out(Ok(acc + [v.res.value]), v.ram)
  }

  function ValidateStep(ctx: Ctx, h: Handle): (step: (Ram, seq<Record>, Value) -> Out<seq<Record>>)
  {
    (ram, acc, d) => ValidateAt(ctx, h, ram, acc, d)
  }

  /** `RootLinkCollection._validate`: a list, each element validated with the conflict check. */
  function ValidateMany(ctx: Ctx, h: Handle, ram: Ram, data: Value): (o: Out<seq<Record>>)
    ensures o.ram.items == ram.items
  {
    if !data.VList? then Stop(ram, Error(ValidationError, Text(LinksNotList)))
    else
      RunReads(ram, [], data.items, |data.items|, ValidateStep(ctx, h));
      Run(ram, [], data.items, |data.items|, ValidateStep(ctx, h))
  }

  function CreateStep(h: Handle): (step: (Ram, (), Record) -> Out<()>)
  {
    (ram, u, rec) => var c := Create(h, ram, rec); Out(if c.res.Err? then Err(c.res.error) else Ok(()), c.ram)
  }

  /** `RootLinkCollection._set`: each validated element created in turn. */
  function StoreMany(h: Handle, ram: Ram, recs: seq<Record>): (o: Out<()>)
  {
    Run(ram, (), recs, |recs|, CreateStep(h))
  }

  const LinkMissing := "Link does not exist"

  /** `RootLinkCollection.get`: the target's `get`, then the link must be stored and discoverable. */
  function GetLink(ctx: Ctx, h: Handle, ram: Ram, t: Value): (o: Out<Value>)
    ensures o.ram.items == ram.items
  {
    var g := ResourceGet(ctx, h.target, ram, t);
    if g.res.Err? then g
    else
      var ex := ExistsSpec(g.ram, LinkNsOf(h.fwd, h.src), g.res.value);
      if !ex.res.value || !Discoverable(ctx, h, g.res.value) then Stop(ex.ram, Error(DoesNotExist, Text(LinkMissing)))
      else Out(Ok(g.res.value), ex.ram)
  }

  /** `RootLinkCollection.create`: validate with the conflict check, changeability, then `_create`. */
  function CreateIn(ctx: Ctx, h: Handle, ram: Ram, data: Value): (o: Out<Value>)
  {
    var v := Validate(ctx, h, ram, data, true);
    if v.res.Err? then Stop(v.ram, v.res.error)
    else
      match ValidateChangability(h.fwd, h.bwd, Text(UnchangeableCollection))
      case Err(e) => Stop(v.ram, e)
      case Ok(_) => Create(h, v.ram, v.res.value)
  }

  // ---------------------------------------------------------------------
  // LinkHolder
  // ---------------------------------------------------------------------

  const LinkUndefined := "Link %r is not defined"

  /**
   * `__getattr__`: the link must be defined; the handle gets the target's
   * root collection from the entry point and the link's mirror.
   */
  function HandleOf(ctx: Ctx, r: Resource, pk: Value, name: string): (h: Result<Handle>)
  {
    if name !in r.links then Fail(DoesNotExist, Fmt(LinkUndefined, [Val(VStr(name))]))
    else
      match Services.ResourceByName(ctx.reg, r.links[name].target)
      case Err(e) => Err(e)
      case Ok(tc) =>
        Ok(Handle(tc, r.links[name], Services.Mirror(ctx.reg.resourcesPy, ctx.reg.wiring, LinkRef(r.name, name)), pk))
  }

  /** Validated link data: one record for a link to one, a list for a link collection. */
  datatype Payload = OnePayload(rec: Record) | ManyPayload(recs: seq<Record>)

  const LinksNotDict := "Links' data must be a dict"
  const LinksMissing := "Required links are missing: %s"
  const LinkPrefix := "@Link %s: %s"

  /** The links whose class declares them required. */
  function RequiredLinks(r: Resource): (s: set<string>)
    ensures forall n :: n in s <==> n in r.linkDecls && Truthy(r.linkDecls[n].required)
  {
    set n | n in r.linkDecls && Truthy(r.linkDecls[n].required)
  }

  /** A framework error while validating link `name` becomes a validation error naming it. */
  function LinkError(name: string, e: Error): (r: Error)
  {
    if IsFrameworkError(e.kind) then Error(ValidationError, Fmt(LinkPrefix, [Text(name), Cause(e)])) else e
  }

  /** Validating the data of one named link, by the cardinality of the link. */
  function ValidateNamed(ctx: Ctx, r: Resource, pk: Value, data: Record, ram: Ram, acc: map<string, Payload>, name: string)
    : (o: Out<map<string, Payload>>)
    ensures o.ram.items == ram.items
  {
    if name !in data then Stop(ram, Error(KeyError, Val(VStr(name))))
    else
      match HandleOf(ctx, r, pk, name)
      case Err(e) => Stop(ram, LinkError(name, e))
      case Ok(h) =>
        if h.fwd.cardinality == One then
          var v := Validate(ctx, h, ram, data[name], false);
          if v.res.Err? then Stop(v.ram, LinkError(name, v.res.error)) else Out(Ok(acc[name := OnePayload(v.res.value)]), v.ram)
        else
          var v := ValidateMany(ctx, h, ram, data[name]);
          if v.res.Err? then Stop(v.ram, LinkError(name, v.res.error)) else Out(Ok(acc[name := ManyPayload(v.res.value)]), v.ram)
  }

  function ValidateNamedStep(ctx: Ctx, r: Resource, pk: Value, data: Record)
    : (step: (Ram, map<string, Payload>, string) -> Out<map<string, Payload>>)
  {
    (ram, acc, name) => ValidateNamed(ctx, r, pk, data, ram, acc, name)
  }

  /**
   * `LinkHolder._validate`: None stands for no links; a dict; every
   * required link present; each link's data validated in name order.
   */
  function ValidateLinks(ctx: Ctx, r: Resource, pk: Value, ram: Ram, linksData: Value): (o: Out<map<string, Payload>>)
    ensures o.ram.items == ram.items
  {
    var data := Or(linksData, VDict(map[]));
    if !data.VDict? then Stop(ram, Error(ValidationError, Text(LinksNotDict)))
    else
      var missing := RequiredLinks(r) - data.entries.Keys;
      if missing != {} then Stop(ram, Error(ValidationError, Fmt(LinksMissing, [Names(missing)])))
      else
        var names := SortedKeys(data.entries.Keys);
        RunReads(ram, map[], names, |names|, ValidateNamedStep(ctx, r, pk, data.entries));
        Run(ram, map[], names, |names|, ValidateNamedStep(ctx, r, pk, data.entries))
  }

  /** Storing the validated data of one named link. */
  function StoreNamed(ctx: Ctx, r: Resource, pk: Value, valid: map<string, Payload>, ram: Ram, name: string): (o: Out<()>)
  {
    if name !in valid then Stop(ram, Error(KeyError, Val(VStr(name))))
    else
      match HandleOf(ctx, r, pk, name)
      case Err(e) => Stop(ram, e)
      case Ok(h) =>
        match valid[name]
        case OnePayload(rec) =>
          if h.fwd.cardinality != One then Stop(ram, Error(TypeError, Text(name)))
          else var c := Create(h, ram, rec); Out(if c.res.Err? then Err(c.res.error) else Ok(()), c.ram)
        case ManyPayload(recs) =>
          if h.fwd.cardinality == One then Stop(ram, Error(TypeError, Text(name)))
          else StoreMany(h, ram, recs)
  }

  function StoreNamedStep(ctx: Ctx, r: Resource, pk: Value, valid: map<string, Payload>): (step: (Ram, (), string) -> Out<()>)
  {
    (ram, u, name) => StoreNamed(ctx, r, pk, valid, ram, name)
  }

  /** `LinkHolder._set`: each validated link stored in name order. */
  function StoreLinks(ctx: Ctx, r: Resource, pk: Value, ram: Ram, valid: map<string, Payload>): (o: Out<()>)
  {
    var names := SortedKeys(valid.Keys);
    Run(ram, (), names, |names|, StoreNamedStep(ctx, r, pk, valid))
  }

  /** Clearing one named link: a link to one or a collection, by its cardinality. */
  function ClearNamed(ctx: Ctx, r: Resource, pk: Value, ram: Ram, name: string): (o: Out<()>)
  {
    match HandleOf(ctx, r, pk, name)
    case Err(e) => Stop(ram, e)
    case Ok(h) => if h.fwd.cardinality == One then ClearOne(ctx, h, ram) else ClearMany(ctx, h, ram)
  }

  function ClearNamedStep(ctx: Ctx, r: Resource, pk: Value): (step: (Ram, (), string) -> Out<()>)
  {
    (ram, u, name) => ClearNamed(ctx, r, pk, ram, name)
  }

  /** `LinkHolder._clear`: every declared link of the resource cleared, in name order. */
  function ClearLinks(ctx: Ctx, r: Resource, pk: Value, ram: Ram): (o: Out<()>)
  {
    var names := SortedKeys(r.linkDecls.Keys);
    Run(ram, (), names, |names|, ClearNamedStep(ctx, r, pk))
  }

  // ---------------------------------------------------------------------
  // The gates' rules
  // ---------------------------------------------------------------------

  /**
   * The readonly gate refuses a readonly forward link, and a readonly
   * backward link only when the link is two-way.  It runs first: when it
   * refuses, the changeability gate refuses with the same error.
   */
  lemma ReadonlyGate(fwd: Link, bwd: Option<Link>, msg: Msg)
    ensures Truthy(fwd.readonly) ==> ValidateReadonly(fwd, bwd) == TextFail(Forbidden, ReadonlyForward)
    ensures !Truthy(fwd.readonly) && !fwd.oneWay && bwd.Some? && Truthy(bwd.value.readonly) ==>
              ValidateReadonly(fwd, bwd) == TextFail(Forbidden, ReadonlyBackward)
    ensures ValidateReadonly(fwd, bwd).Ok? <==>
              !Truthy(fwd.readonly) && (fwd.oneWay || (bwd.Some? && !Truthy(bwd.value.readonly)))
    ensures ValidateReadonly(fwd, bwd).Err? ==> ValidateChangability(fwd, bwd, msg) == Err(ValidateReadonly(fwd, bwd).error)
  {
  }

  /**
   * Past the readonly gate, the changeability gate refuses, with
   * Forbidden, exactly an unchangeable forward link or an unchangeable
   * backward link of a two-way link.
   */
  lemma UnchangeableGate(fwd: Link, bwd: Option<Link>, msg: Msg)
    requires ValidateReadonly(fwd, bwd).Ok?
    ensures !fwd.oneWay ==> bwd.Some?
    ensures ValidateChangability(fwd, bwd, msg).Ok? <==> fwd.changeable && (fwd.oneWay || bwd.value.changeable)
    ensures ValidateChangability(fwd, bwd, msg).Err? ==> ValidateChangability(fwd, bwd, msg).error.kind == Forbidden
  {
  }

  /** A link one of whose sides is unchangeable. */
  predicate Frozen(h: Handle)
  {
    !h.fwd.changeable || (!h.fwd.oneWay && h.bwd.Some? && !h.bwd.value.changeable)
  }

  /**
   * A link past the readonly gate with an unchangeable side can be neither
   * deleted nor updated: Forbidden, with nothing read or written.
   */
  lemma FrozenLinkRefusesChange(ctx: Ctx, h: Handle, t: Value, ram: Ram, data: Value)
    requires ValidateReadonly(h.fwd, h.bwd).Ok? && Frozen(h)
    ensures Delete(ctx, h, t, ram).res.Err? && Delete(ctx, h, t, ram).res.error.kind == Forbidden
    ensures Delete(ctx, h, t, ram).ram == ram
    ensures Update(ctx, h, t, ram, data).res.Err? && Update(ctx, h, t, ram, data).res.error.kind == Forbidden
    ensures Update(ctx, h, t, ram, data).ram == ram
  {
  }

  /** Nor may a frozen link be set or created in a collection: no record is written. */
  lemma FrozenLinkRefusesNew(ctx: Ctx, h: Handle, ram: Ram, data: Value)
    requires ValidateReadonly(h.fwd, h.bwd).Ok? && Frozen(h)
    ensures SetOne(ctx, h, ram, data).res.Err? && SetOne(ctx, h, ram, data).ram.items == ram.items
    ensures CreateIn(ctx, h, ram, data).res.Err? && CreateIn(ctx, h, ram, data).ram.items == ram.items
  {
  }

  /** The handle with both sides made changeable. */
  function Thawed(h: Handle): (r: Handle)
    ensures !Frozen(r)
  {
    Handle(h.target, h.fwd.(changeable := true), if h.bwd.Some? then Some(h.bwd.value.(changeable := true)) else None, h.src)
  }

  /**
   * Validation does not look at changeability: this is why links given to
   * a resource's `create` are stored even when unchangeable.
   */
  lemma ValidateIgnoresChangeability(ctx: Ctx, h: Handle, ram: Ram, data: Value, validateConflict: bool)
    ensures Validate(ctx, h, ram, data, validateConflict) == Validate(ctx, Thawed(h), ram, data, validateConflict)
  {
    var h' := Thawed(h);
    assert ValidateReadonly(h.fwd, h.bwd) == ValidateReadonly(h'.fwd, h'.bwd);
    assert Shape(h, data) == Shape(h', data);
    if Shape(h, data).Ok? {
      var t := Shape(h, data).value.0;
      var m := MasterSide(h, t, "can_create");
      var m' := MasterSide(h', t, "can_create");
      assert m.Ok? <==> m'.Ok?;
      if m.Ok? {
        var got := ResourceGet(ctx, h.target, ram, t);
        MasterCheckSeesNameAndSchema(ctx, m.value, m'.value, got.ram, Shape(h, data).value.1, t, validateConflict);
      }
    }
  }

  /** The master side's checks depend on its link only through the link's name and schema. */
  lemma MasterCheckSeesNameAndSchema(ctx: Ctx, a: Side, b: Side, ram: Ram, payload: Record, t: Value, validateConflict: bool)
    requires NameOf(a.link) == NameOf(b.link) && a.link.schema == b.link.schema
    requires a.src == b.src && a.trg == b.trg
    ensures MasterCheck(ctx, a, ram, payload, t, validateConflict) == MasterCheck(ctx, b, ram, payload, t, validateConflict)
  {
  }

  // ---------------------------------------------------------------------
  // The rules of validation
  // ---------------------------------------------------------------------

  /**
   * Past the readonly gate, validation refuses, in this order, a link to
   * many whose mirror is a link to one, data that is not a dict, data
   * without "@target", and a target the target collection does not
   * return, the last as a validation error carrying the lookup's error.
   * None of them writes a record.
   */
  lemma ValidateRefuses(ctx: Ctx, h: Handle, ram: Ram, data: Value, validateConflict: bool)
    requires ValidateReadonly(h.fwd, h.bwd).Ok?
    ensures var o := Validate(ctx, h, ram, data, validateConflict);
            if h.bwd.Some? && h.bwd.value.cardinality == One && h.fwd.cardinality == Many then
              o == Stop(ram, Error(Forbidden, Text(OneToMany)))
            else if !data.VDict? then o == Stop(ram, Error(ValidationError, Text(LinkDataNotDict)))
            else if TargetKey !in data.entries then o == Stop(ram, Error(ValidationError, Text(TargetNotDefined)))
            else
              var got := ResourceGet(ctx, h.target, ram, data.entries[TargetKey]);
              got.res.Err? ==> o == Out(Fail(ValidationError, Fmt(TargetPrefix, [Cause(got.res.error)])), got.ram)
  {
  }

  /** The link that holds the data of a link to t, and the pks in its direction. */
  function MasterOf(h: Handle, t: Value): (m: Side)
    requires h.fwd.master || h.bwd.Some?
    ensures m.link == (if h.fwd.master then h.fwd else h.bwd.value)
    ensures m.src == (if h.fwd.master then h.src else t) && m.trg == (if h.fwd.master then t else h.src)
  {
    if h.fwd.master then Side(h.fwd, h.src, t) else Side(h.bwd.value, t, h.src)
  }

  /**
   * The master side's checks: `can_create` is asked first, with the pks
   * in the master link's direction; past it the existence query goes to
   * the master link's namespace, a stored link is a conflict only when
   * conflicts are checked, and the validated data carry the raw target pk.
   */
  lemma MasterCheckRules(ctx: Ctx, side: Side, ram: Ram, payload: Record, t: Value, validateConflict: bool)
    ensures var allowed := ctx.pol.linkCanCreate(NameOf(side.link), ctx.user, side.src, side.trg, payload);
            var o := MasterCheck(ctx, side, ram, payload, t, validateConflict);
            ((o.res.Err? && o.res.error.kind == AuthorizationError) <==> !allowed) &&
            (!allowed ==> o.ram == ram) &&
            (allowed ==> o.ram.log == ram.log + [ExistsCall(LinkNsOf(side.link, side.src), side.trg)]) &&
            ((o.res.Err? && o.res.error.kind == DataConflictError) <==>
               allowed && validateConflict && Has(ram, LinkNsOf(side.link, side.src), side.trg)) &&
            (o.res.Ok? ==> TargetKey in o.res.value && o.res.value[TargetKey] == t)
  {
  }

  /** Once the target is found, validation is the master side's checks on the rest of the data. */
  lemma ValidateReachesMaster(ctx: Ctx, h: Handle, ram: Ram, data: Value, validateConflict: bool)
    requires Shape(h, data).Ok? && data.VDict? && TargetKey in data.entries
    requires ResourceGet(ctx, h.target, ram, data.entries[TargetKey]).res.Ok?
    requires h.fwd.master || h.bwd.Some?
    ensures var t := data.entries[TargetKey];
            var got := ResourceGet(ctx, h.target, ram, t).ram;
            got.items == ram.items &&
            Validate(ctx, h, ram, data, validateConflict) == MasterCheck(ctx, MasterOf(h, t), got, data.entries - {TargetKey}, t, validateConflict)
  {
    var t := data.entries[TargetKey];
    assert Shape(h, data).value == (t, data.entries - {TargetKey});
    assert MasterSide(h, t, "can_create") == Ok(MasterOf(h, t));
  }

  /** A link to one validates without the conflict check: an existing link is never a conflict. */
  lemma NoConflictWithoutCheck(ctx: Ctx, h: Handle, ram: Ram, data: Value)
    ensures Validate(ctx, h, ram, data, false).res.Err? ==> Validate(ctx, h, ram, data, false).res.error.kind != DataConflictError
  {
    if Shape(h, data).Ok? && (h.fwd.master || h.bwd.Some?) {
      var t := data.entries[TargetKey];
      var got := ResourceGet(ctx, h.target, ram, t);
      if got.res.Ok? {
        ValidateReachesMaster(ctx, h, ram, data, false);
        MasterCheckRules(ctx, MasterOf(h, t), got.ram, data.entries - {TargetKey}, t, false);
      }
    }
  }

  // ---------------------------------------------------------------------
  // The rules of storing and removing
  // ---------------------------------------------------------------------

  /** The two namespaces of a link to t: its own and its mirror's, which differ. */
  predicate Apart(h: Handle, t: Value)
  {
    h.bwd.Some? ==> LinkNsOf(h.fwd, h.src) != LinkNsOf(h.bwd.value, t)
  }

  /**
   * Storing a link merges the payload into the master side's entry and
   * leaves an empty entry at the other side; no other namespace changes.
   */
  lemma StoreAtMaster(h: Handle, t: Value, ram: Ram, payload: Record)
    requires (h.fwd.master || h.bwd.Some?) && Apart(h, t)
    ensures var o := Store(h, t, ram, payload);
            var m := MasterOf(h, t);
            o.res.Ok? && Has(o.ram, LinkNsOf(m.link, m.src), m.trg) &&
            Stored(o.ram, LinkNsOf(m.link, m.src), m.trg) == Stored(ram, LinkNsOf(m.link, m.src), m.trg) + payload
    ensures var o := Store(h, t, ram, payload);
            h.bwd.Some? ==>
              var s := if h.fwd.master then Side(h.bwd.value, t, h.src) else Side(h.fwd, h.src, t);
              Has(o.ram, LinkNsOf(s.link, s.src), s.trg) && Stored(o.ram, LinkNsOf(s.link, s.src), s.trg) == map[]
    ensures forall ns :: ns != LinkNsOf(h.fwd, h.src) && (h.bwd.None? || ns != LinkNsOf(h.bwd.value, t)) ==>
              TableOf(Store(h, t, ram, payload).ram, ns) == TableOf(ram, ns)
  {
    var m := MasterOf(h, t);
    if h.fwd.master {
      var ram1 := SetSpec(ram, LinkNsOf(h.fwd, h.src), t, Some(payload));
      if h.bwd.Some? {
        SetFrame(ram1, LinkNsOf(h.bwd.value, t), h.src, None, LinkNsOf(h.fwd, h.src), t);
      }
    } else {
      var ram1 := SetSpec(ram, LinkNsOf(h.bwd.value, t), h.src, Some(payload));
      SetFrame(ram1, LinkNsOf(h.fwd, h.src), t, None, LinkNsOf(h.bwd.value, t), h.src);
    }
  }

  /** `_delete` touches no namespace but the two entries'. */
  lemma DetachFrame(h: Handle, t: Value, ram: Ram, ns: Namespace)
    requires ns != LinkNsOf(h.fwd, h.src) && (h.bwd.None? || ns != LinkNsOf(h.bwd.value, t))
    ensures TableOf(Detach(h, t, ram).ram, ns) == TableOf(ram, ns)
  {
  }

  /** `_delete` succeeds exactly when both entries are stored, and removes both. */
  lemma DetachRemovesBoth(h: Handle, t: Value, ram: Ram)
    requires Apart(h, t)
    ensures var o := Detach(h, t, ram);
            (o.res.Ok? <==> Has(ram, LinkNsOf(h.fwd, h.src), t) && (h.bwd.Some? ==> Has(ram, LinkNsOf(h.bwd.value, t), h.src))) &&
            (o.res.Ok? ==> !Has(o.ram, LinkNsOf(h.fwd, h.src), t) && (h.bwd.Some? ==> !Has(o.ram, LinkNsOf(h.bwd.value, t), h.src)))
  {
    var fns := LinkNsOf(h.fwd, h.src);
    if Has(ram, fns, t) && h.bwd.Some? {
      var bns := LinkNsOf(h.bwd.value, t);
      DeleteRemoves(ram, fns, t, bns, h.src);
      var d := DeleteSpec(ram, fns, t);
      if Has(d.ram, bns, h.src) {
        DeleteRemoves(d.ram, bns, h.src, fns, t);
      }
    }
  }

  /**
   * `delete` past the changeability gate: a required link to one on
   * either side of a two-way link is Forbidden; otherwise `can_delete` is
   * asked at the master side, and only then are both entries removed.
   */
  lemma DeleteRules(ctx: Ctx, h: Handle, t: Value, ram: Ram)
    requires ValidateChangability(h.fwd, h.bwd, OpMsg("delete")).Ok? && (h.fwd.master || h.bwd.Some?)
    ensures !h.fwd.oneWay ==> h.bwd.Some?
    ensures RequiredOne(h.fwd) || (!h.fwd.oneWay && RequiredOne(h.bwd.value)) ==>
              Delete(ctx, h, t, ram) == Stop(ram, Error(Forbidden, Text(RequiredNotRemovable)))
    ensures !RequiredOne(h.fwd) && (h.fwd.oneWay || !RequiredOne(h.bwd.value)) ==>
              var m := MasterOf(h, t);
              Delete(ctx, h, t, ram) ==
                if ctx.pol.linkCanDelete(NameOf(m.link), ctx.user, m.src, m.trg) then Detach(h, t, ram)
                else Stop(ram, Error(AuthorizationError, Text(UnlinkNotAllowed)))
  {
  }

  /**
   * `set` on a link to one whose item is there and that is required
   * fails: the old link goes through `delete`, which refuses to remove a
   * required link, and nothing is written.
   */
  lemma SetRequiredOneFails(ctx: Ctx, h: Handle, ram: Ram, data: Value, t: Value)
    requires RequiredOne(h.fwd)
    requires Validate(ctx, h, ram, data, false).res.Ok?
    requires GetItem(ctx, h, Validate(ctx, h, ram, data, false).ram).res == Ok(Some(t))
    requires ValidateChangability(h.fwd, h.bwd, OpMsg("set")).Ok?
    ensures SetOne(ctx, h, ram, data).res == Fail(Forbidden, Text(RequiredNotRemovable))
    ensures SetOne(ctx, h, ram, data).ram.items == ram.items
  {
    assert ValidateChangability(h.fwd, h.bwd, OpMsg("delete")).Ok?;
  }

  /**
   * `update` past the changeability gate works on the master side only:
   * its deserialized data are written there and nowhere else; an
   * unchangeable field is refused before `can_update` is asked; a refusal
   * changes nothing.
   */
  lemma UpdateRules(ctx: Ctx, h: Handle, t: Value, ram: Ram, data: Value)
    requires ValidateChangability(h.fwd, h.bwd, OpMsg("update")).Ok? && (h.fwd.master || h.bwd.Some?)
    ensures var m := MasterOf(h, t);
            var o := Update(ctx, h, t, ram, data);
            var d := Schemas.Deserialize(m.link.schema, data, false, true);
            (o.res.Err? ==> o.ram == ram) &&
            (o.res.Ok? ==> d.Ok? && o.ram == SetSpec(ram, LinkNsOf(m.link, m.src), m.trg, Some(d.value))) &&
            (d.Ok? && Schemas.FindFields(m.link.schema, UnchangeableQuery) * d.value.Keys != {} ==>
               o.res.Err? && o.res.error.kind == ValidationError) &&
            (d.Ok? && Schemas.FindFields(m.link.schema, UnchangeableQuery) * d.value.Keys == {} ==>
               (o.res.Ok? <==> ctx.pol.linkCanUpdate(NameOf(m.link), ctx.user, m.src, m.trg, d.value)))
  {
  }

  /**
   * `data` reads the master side's entry and returns it when the forward
   * link's `can_get_data` allows it.
   */
  lemma DataRules(ctx: Ctx, h: Handle, t: Value, ram: Ram)
    requires h.fwd.master || h.bwd.Some?
    ensures var m := MasterOf(h, t);
            var o := Data(ctx, h, t, ram);
            o.ram.log == ram.log + [GetCall(LinkNsOf(m.link, m.src), m.trg)] &&
            (o.res.Ok? <==> Has(ram, LinkNsOf(m.link, m.src), m.trg) &&
                            ctx.pol.linkCanGetData(NameOf(h.fwd), ctx.user, m.src, m.trg, Stored(ram, LinkNsOf(m.link, m.src), m.trg))) &&
            (o.res.Ok? ==> o.res.value == Stored(ram, LinkNsOf(m.link, m.src), m.trg))
  {
  }

  // ---------------------------------------------------------------------
  // The rules of a link to one
  // ---------------------------------------------------------------------

  /**
   * The item of a link to one: none stored gives None (and `item` raises
   * DoesNotExist); one stored gives it when discoverable and None
   * otherwise; several raise MultipleFound.
   */
  lemma GetItemCases(ctx: Ctx, h: Handle, ram: Ram)
    ensures var ks := TableOf(ram, LinkNsOf(h.fwd, h.src)).keys;
            var g := GetItem(ctx, h, ram);
            (|ks| == 0 ==> g.res == Ok(None) && Item(ctx, h, ram).res == Fail(DoesNotExist, Text(OneMissing))) &&
            (|ks| == 1 ==> g.res == Ok(if Discoverable(ctx, h, ks[0]) then Some(ks[0]) else None)) &&
            (|ks| > 1 ==> g.res == Fail(MultipleFound, Text(SeveralFound)))
  {
  }

  /** The link and its mirror have different names, so their entries never share a namespace. */
  predicate NamesApart(h: Handle)
  {
    h.bwd.Some? ==> NameOf(h.bwd.value) != NameOf(h.fwd)
  }

  /** Every target stored under the link is one the user can discover. */
  ghost predicate ItemsVisible(ctx: Ctx, h: Handle, ram: Ram)
  {
    forall k :: Has(ram, LinkNsOf(h.fwd, h.src), k) ==> Discoverable(ctx, h, k)
  }

  /** Validated data are a dict naming a target, and carry that target under "@target". */
  lemma ValidateTarget(ctx: Ctx, h: Handle, ram: Ram, data: Value, validateConflict: bool)
    requires Validate(ctx, h, ram, data, validateConflict).res.Ok?
    ensures data.VDict? && TargetKey in data.entries
    ensures var v := Validate(ctx, h, ram, data, validateConflict).res.value;
            TargetKey in v && v[TargetKey] == data.entries[TargetKey]
  {
    var t := data.entries[TargetKey];
    ValidateReachesMaster(ctx, h, ram, data, validateConflict);
    MasterCheckRules(ctx, MasterOf(h, t), ResourceGet(ctx, h.target, ram, t).ram, data.entries - {TargetKey}, t, validateConflict);
  }

  /**
   * `_create` of a link whose mirror has another name appends a new
   * target to the link's pk order and leaves a stored one in place; the
   * store stays well formed.
   */
  lemma CreateAppends(h: Handle, ram: Ram, valid: Record)
    requires NamesApart(h)
    ensures Valid(ram) ==> Valid(Create(h, ram, valid).ram)
    ensures var o := Create(h, ram, valid);
            var before := TableOf(ram, LinkNsOf(h.fwd, h.src));
            o.res.Ok? ==>
              TargetKey in valid && o.res.value == valid[TargetKey] &&
              TableOf(o.ram, LinkNsOf(h.fwd, h.src)).keys ==
                (if valid[TargetKey] in before.rows then before.keys else before.keys + [valid[TargetKey]])
  {
    if TargetKey in valid {
      var t := valid[TargetKey];
      var payload := valid - {TargetKey};
      if h.fwd.master {
        var ram1 := SetSpec(ram, LinkNsOf(h.fwd, h.src), t, Some(payload));
        if Valid(ram) {
          SetKeepsValid(ram, LinkNsOf(h.fwd, h.src), t, Some(payload));
          if h.bwd.Some? {
            SetKeepsValid(ram1, LinkNsOf(h.bwd.value, t), h.src, None);
          }
        }
      } else if h.bwd.Some? {
        var ram1 := SetSpec(ram, LinkNsOf(h.bwd.value, t), h.src, Some(payload));
        assert TableOf(ram1, LinkNsOf(h.fwd, h.src)) == TableOf(ram, LinkNsOf(h.fwd, h.src));
        if Valid(ram) {
          SetKeepsValid(ram, LinkNsOf(h.bwd.value, t), h.src, Some(payload));
          SetKeepsValid(ram1, LinkNsOf(h.fwd, h.src), t, None);
        }
      }
    }
  }

  /** Deleting the only target of a link whose mirror has another name leaves the link with none. */
  lemma DeleteOnly(ctx: Ctx, h: Handle, k: Value, ram: Ram)
    requires NamesApart(h) && Valid(ram) && TableOf(ram, LinkNsOf(h.fwd, h.src)).keys == [k]
    ensures var o := Delete(ctx, h, k, ram);
            o.res.Ok? ==> Valid(o.ram) && TableOf(o.ram, LinkNsOf(h.fwd, h.src)).keys == []
  {
    var o := Delete(ctx, h, k, ram);
    if o.res.Ok? {
      var fns := LinkNsOf(h.fwd, h.src);
      assert o == Detach(h, k, ram);
      var d := DeleteSpec(ram, fns, k);
      DeleteKeepsValid(ram, fns, k);
      assert Without([k], k) == [];
      assert TableOf(d.ram, fns).keys == [];
      if h.bwd.Some? {
        DeleteKeepsValid(d.ram, LinkNsOf(h.bwd.value, k), h.src);
      }
    }
  }

  /**
   * A successful `set` on a link to one whose held target is
   * discoverable leaves exactly the new target stored, linked on both
   * sides, and it is the item the link then returns when the user can
   * discover it.
   */
  lemma SetOneReplaces(ctx: Ctx, h: Handle, ram: Ram, data: Value)
    requires Valid(ram) && NamesApart(h) && ItemsVisible(ctx, h, ram)
    requires SetOne(ctx, h, ram, data).res.Ok?
    ensures data.VDict? && TargetKey in data.entries
    ensures var t := data.entries[TargetKey];
            var o := SetOne(ctx, h, ram, data);
            Valid(o.ram) && TableOf(o.ram, LinkNsOf(h.fwd, h.src)).keys == [t] && Linked(h, o.ram, t) &&
            GetItem(ctx, h, o.ram).res == Ok(if Discoverable(ctx, h, t) then Some(t) else None)
  {
    var fns := LinkNsOf(h.fwd, h.src);
    var v := Validate(ctx, h, ram, data, false);
    ValidateTarget(ctx, h, ram, data, false);
    var g := GetItem(ctx, h, v.ram);
    GetItemCases(ctx, h, v.ram);
    var ks := TableOf(ram, fns).keys;
    assert TableOf(v.ram, fns) == TableOf(ram, fns);
    assert g.res.value.None? ==> |ks| == 0 by {
      if g.res.value.None? && |ks| == 1 {
        assert Has(ram, fns, ks[0]);
      }
    }
    var d := if g.res.value.Some? then Delete(ctx, h, g.res.value.value, g.ram) else Out(Ok(()), g.ram);
    if g.res.value.Some? {
      DeleteOnly(ctx, h, g.res.value.value, g.ram);
    }
    assert Valid(d.ram) && TableOf(d.ram, fns).keys == [];
    assert data.entries[TargetKey] !in TableOf(d.ram, fns).rows;
    CreateAppends(h, d.ram, v.res.value);
    CreateLinks(h, d.ram, v.res.value);
    GetItemCases(ctx, h, SetOne(ctx, h, ram, data).ram);
  }

  /**
   * `set` on a link to one whose only stored target k the user cannot
   * discover keeps k: the item reads as None, so no old link is deleted.
   * A new target other than k leaves two targets, which `item` then
   * refuses with MultipleFound.
   */
  lemma SetOneKeepsHidden(ctx: Ctx, h: Handle, ram: Ram, data: Value, k: Value)
    requires Valid(ram) && NamesApart(h)
    requires TableOf(ram, LinkNsOf(h.fwd, h.src)).keys == [k] && !Discoverable(ctx, h, k)
    requires SetOne(ctx, h, ram, data).res.Ok?
    ensures data.VDict? && TargetKey in data.entries
    ensures var t := data.entries[TargetKey];
            var o := SetOne(ctx, h, ram, data);
            Has(o.ram, LinkNsOf(h.fwd, h.src), k) && Linked(h, o.ram, t) &&
            (t != k ==> TableOf(o.ram, LinkNsOf(h.fwd, h.src)).keys == [k, t] &&
                        GetItem(ctx, h, o.ram).res == Fail(MultipleFound, Text(SeveralFound)))
  {
    var fns := LinkNsOf(h.fwd, h.src);
    var v := Validate(ctx, h, ram, data, false);
    ValidateTarget(ctx, h, ram, data, false);
    GetItemCases(ctx, h, v.ram);
    assert TableOf(v.ram, fns) == TableOf(ram, fns);
    assert Has(ram, fns, k);
    var t := data.entries[TargetKey];
    assert t != k ==> t !in TableOf(ram, fns).rows;
    CreateAppends(h, v.ram, v.res.value);
    CreateLinks(h, v.ram, v.res.value);
    GetItemCases(ctx, h, SetOne(ctx, h, ram, data).ram);
  }

  // ---------------------------------------------------------------------
  // The rules of clearing
  // ---------------------------------------------------------------------

  /**
   * The namespaces clearing a handle may touch: the target resource's
   * records and the entries of the link and of its mirror.
   */
  predicate ClearTouches(h: Handle, ns: Namespace)
  {
    ns == ResNs(h.target) || (ns.LinkNs? && (ns.link == NameOf(h.fwd) || (h.bwd.Some? && ns.link == NameOf(h.bwd.value))))
  }

  /**
   * Unlinking deletes the target's record when the mirror is a required
   * link to one, and otherwise leaves the target's records alone; it
   * touches nothing but the target's records and the two entries, so the
   * cascade is one level deep: the target's own links are not cleared.
   */
  lemma UnlinkRules(h: Handle, t: Value, ram: Ram)
    ensures forall ns :: !ClearTouches(h, ns) ==> TableOf(Unlink(h, t, ram).ram, ns) == TableOf(ram, ns)
    ensures !Cascades(h) ==> TableOf(Unlink(h, t, ram).ram, ResNs(h.target)) == TableOf(ram, ResNs(h.target))
    ensures Cascades(h) && Unlink(h, t, ram).res.Ok? ==> !Has(Unlink(h, t, ram).ram, ResNs(h.target), t)
    ensures Unlink(h, t, ram).res.Ok? && Apart(h, t) ==> !Has(Unlink(h, t, ram).ram, LinkNsOf(h.fwd, h.src), t)
  {
    var base := if Cascades(h) then DeleteSpec(ram, ResNs(h.target), t).ram else ram;
    forall ns | !ClearTouches(h, ns) || (!Cascades(h) && ns == ResNs(h.target))
      ensures TableOf(Detach(h, t, base).ram, ns) == TableOf(base, ns)
    {
      DetachFrame(h, t, base, ns);
    }
    if Cascades(h) && DeleteSpec(ram, ResNs(h.target), t).res.Ok? {
      DetachFrame(h, t, base, ResNs(h.target));
    }
    if Apart(h, t) {
      DetachRemovesBoth(h, t, base);
    }
  }

  /** Clearing a link to one touches only what unlinking its item may touch. */
  lemma ClearOneFrame(ctx: Ctx, h: Handle, ram: Ram, ns: Namespace)
    requires !ClearTouches(h, ns)
    ensures TableOf(ClearOne(ctx, h, ram).ram, ns) == TableOf(ram, ns)
  {
    var g := GetItem(ctx, h, ram);
    if g.res.Ok? && g.res.value.Some? {
      UnlinkRules(h, g.res.value.value, g.ram);
    }
  }

  /** Clearing a link collection touches only what unlinking its elements may touch. */
  lemma ClearManyFrame(ctx: Ctx, h: Handle, ram: Ram, ns: Namespace)
    requires !ClearTouches(h, ns)
    ensures TableOf(ClearMany(ctx, h, ram).ram, ns) == TableOf(ram, ns)
  {
    var f := Fetch(ctx, h, map[], ram);
    if f.res.Ok? {
      forall m, u, t ensures TableOf(ClearStep(ctx, h)(m, u, t).ram, ns) == TableOf(m, ns) {
        UnlinkRules(h, t, m);
      }
      RunFrame(f.ram, (), f.res.value, |f.res.value|, ClearStep(ctx, h), ns);
    }
  }

  /** Nothing of the link to t is left: neither entry, nor the target's record when the link cascades. */
  predicate Detached(h: Handle, ram: Ram, t: Value)
  {
    !Has(ram, LinkNsOf(h.fwd, h.src), t) && (h.bwd.Some? ==> !Has(ram, LinkNsOf(h.bwd.value, t), h.src)) &&
    (Cascades(h) ==> !Has(ram, ResNs(h.target), t))
  }

  /** Every target the link held before and the user can discover is detached afterwards. */
  ghost predicate ClearedFrom(ctx: Ctx, h: Handle, before: Ram, after: Ram)
  {
    forall k :: Has(before, LinkNsOf(h.fwd, h.src), k) && Discoverable(ctx, h, k) ==> Detached(h, after, k)
  }

  /** Unlinking only removes entries, keeps the store well formed, and on success detaches the target. */
  lemma UnlinkDetaches(h: Handle, t: Value, ram: Ram)
    ensures Shrinks(ram, Unlink(h, t, ram).ram)
    ensures Valid(ram) ==> Valid(Unlink(h, t, ram).ram)
    ensures Unlink(h, t, ram).res.Ok? ==> Detached(h, Unlink(h, t, ram).ram, t)
  {
    var base := if Cascades(h) then DeleteSpec(ram, ResNs(h.target), t).ram else ram;
    if Cascades(h) {
      DeleteShrinks(ram, ResNs(h.target), t);
      if Valid(ram) {
        DeleteKeepsValid(ram, ResNs(h.target), t);
      }
    }
    var d := DeleteSpec(base, LinkNsOf(h.fwd, h.src), t);
    DeleteShrinks(base, LinkNsOf(h.fwd, h.src), t);
    if Valid(base) {
      DeleteKeepsValid(base, LinkNsOf(h.fwd, h.src), t);
    }
    if h.bwd.Some? {
      DeleteShrinks(d.ram, LinkNsOf(h.bwd.value, t), h.src);
      if Valid(d.ram) {
        DeleteKeepsValid(d.ram, LinkNsOf(h.bwd.value, t), h.src);
      }
    }
  }

  /**
   * A successful `RootLinkCollection._clear` found every target
   * discoverable and detached each of them: the link holds no target
   * afterwards, each mirror entry is gone and each cascaded target's
   * record is deleted.  Nothing is added on the way.
   */
  lemma ClearManyClears(ctx: Ctx, h: Handle, ram: Ram)
    requires Valid(ram)
    ensures var o := ClearMany(ctx, h, ram);
            o.res.Ok? ==>
              Shrinks(ram, o.ram) && Valid(o.ram) && Empty(o.ram, LinkNsOf(h.fwd, h.src)) &&
              ItemsVisible(ctx, h, ram) && ClearedFrom(ctx, h, ram, o.ram)
  {
    var fns := LinkNsOf(h.fwd, h.src);
    var f := Fetch(ctx, h, map[], ram);
    FetchRules(ctx, h, map[], ram);
    if f.res.Ok? {
      var ks := f.res.value;
      var step := ClearStep(ctx, h);
      var inv := (m: Ram) => Valid(m) && Shrinks(f.ram, m);
      var q := (m0: Ram, t: Value, m: Ram) => Discoverable(ctx, h, t) && Detached(h, m, t);
      forall m, a, x | inv(m) && step(m, a, x).res.Ok?
        ensures inv(step(m, a, x).ram) && q(m, x, step(m, a, x).ram)
      {
        UnlinkDetaches(h, x, m);
      }
      forall m0, y, m, a, x | inv(m) && q(m0, y, m) && step(m, a, x).res.Ok?
        ensures q(m0, y, step(m, a, x).ram)
      {
        UnlinkDetaches(h, x, m);
      }
      RunKeeps(f.ram, (), ks, |ks|, step, inv, q);
      var o := ClearMany(ctx, h, ram);
      if o.res.Ok? {
        assert o == Run(f.ram, (), ks, |ks|, step);
        assert inv(Run(f.ram, (), ks, |ks|, step).ram);
        forall k | Has(ram, fns, k)
          ensures Discoverable(ctx, h, k) && Detached(h, o.ram, k)
        {
          var i :| 0 <= i < |ks| && ks[i] == k;
          assert q(Run(f.ram, (), ks, i, step).ram, ks[i], o.ram);
        }
      }
    }
  }

  /**
   * A successful `LinkToOne._clear` only removes entries and detaches the
   * item it sees; a link whose held targets are all discoverable holds
   * none afterwards.
   */
  lemma ClearOneClears(ctx: Ctx, h: Handle, ram: Ram)
    requires Valid(ram)
    ensures var o := ClearOne(ctx, h, ram);
            o.res.Ok? ==>
              Shrinks(ram, o.ram) && Valid(o.ram) && ClearedFrom(ctx, h, ram, o.ram) &&
              (ItemsVisible(ctx, h, ram) ==> Empty(o.ram, LinkNsOf(h.fwd, h.src)))
  {
    var fns := LinkNsOf(h.fwd, h.src);
    var g := GetItem(ctx, h, ram);
    GetItemCases(ctx, h, ram);
    var ks := TableOf(ram, fns).keys;
    assert forall k :: Has(ram, fns, k) ==> k in ks;
    if g.res.Ok? && g.res.value.Some? {
      UnlinkDetaches(h, g.res.value.value, g.ram);
    }
  }

  /**
   * A link to one whose only target the user cannot discover is left as
   * it is by `_clear`: the item reads as None and nothing is removed.
   */
  lemma ClearOneKeepsHidden(ctx: Ctx, h: Handle, ram: Ram, k: Value)
    requires TableOf(ram, LinkNsOf(h.fwd, h.src)).keys == [k] && !Discoverable(ctx, h, k)
    ensures ClearOne(ctx, h, ram).res.Ok?
    ensures ClearOne(ctx, h, ram).ram.items == ram.items
  {
    GetItemCases(ctx, h, ram);
  }

  /**
   * Clearing one named link detaches what it clears and removes nothing
   * else of it: a collection holds no target afterwards, and so does a
   * link to one whose held targets are all discoverable.
   */
  lemma ClearNamedClears(ctx: Ctx, r: Resource, pk: Value, ram: Ram, name: string)
    requires Valid(ram)
    ensures var o := ClearNamed(ctx, r, pk, ram, name);
            o.res.Ok? ==>
              Shrinks(ram, o.ram) && Valid(o.ram) && HandleOf(ctx, r, pk, name).Ok? &&
              var h := HandleOf(ctx, r, pk, name).value;
              ClearedFrom(ctx, h, ram, o.ram) &&
              (h.fwd.cardinality != One || ItemsVisible(ctx, h, ram) ==> Empty(o.ram, LinkNsOf(h.fwd, pk)))
  {
    if HandleOf(ctx, r, pk, name).Ok? {
      var h := HandleOf(ctx, r, pk, name).value;
      if h.fwd.cardinality == One {
        ClearOneClears(ctx, h, ram);
      } else {
        ClearManyClears(ctx, h, ram);
      }
    }
  }

  /**
   * Link `n` of the instance is found, and holds no target in `after`
   * when it is a collection or everything it held in `before` was
   * discoverable.
   */
  ghost predicate NamedEmptied(ctx: Ctx, r: Resource, pk: Value, n: string, before: Ram, after: Ram)
  {
    HandleOf(ctx, r, pk, n).Ok? &&
    var h := HandleOf(ctx, r, pk, n).value;
    (h.fwd.cardinality != One || ItemsVisible(ctx, h, before) ==> Empty(after, LinkNsOf(h.fwd, pk)))
  }

  /** Every declared link of the instance is emptied, in the sense of `NamedEmptied`. */
  ghost predicate LinksEmptied(ctx: Ctx, r: Resource, pk: Value, before: Ram, after: Ram)
  {
    forall n :: n in r.linkDecls ==> NamedEmptied(ctx, r, pk, n, before, after)
  }

  /** An emptied link stays empty while the store only shrinks. */
  lemma NamedEmptiedShrinks(ctx: Ctx, r: Resource, pk: Value, n: string, before: Ram, m: Ram, m': Ram)
    requires NamedEmptied(ctx, r, pk, n, before, m) && Shrinks(m, m')
    ensures NamedEmptied(ctx, r, pk, n, before, m')
  {
  }

  /** A link whose targets are all discoverable keeps that while the store only shrinks. */
  lemma ItemsVisibleShrinks(ctx: Ctx, h: Handle, m: Ram, m': Ram)
    requires ItemsVisible(ctx, h, m) && Shrinks(m, m')
    ensures ItemsVisible(ctx, h, m')
  {
  }

  /** One step of `LinkHolder._clear`, from a store that has only shrunk since the start. */
  lemma ClearNamedStepEmpties(ctx: Ctx, r: Resource, pk: Value, ram: Ram, m: Ram, name: string)
    requires Valid(m) && Shrinks(ram, m)
    ensures var o := ClearNamed(ctx, r, pk, m, name);
            o.res.Ok? ==> Valid(o.ram) && Shrinks(ram, o.ram) && NamedEmptied(ctx, r, pk, name, m, o.ram)
  {
    ClearNamedClears(ctx, r, pk, m, name);
  }

  /**
   * `LinkHolder._clear`: a success found every declared link, removed
   * nothing but entries and records, and left every collection empty, and
   * every link to one whose held targets were all discoverable.
   */
  lemma ClearLinksClears(ctx: Ctx, r: Resource, pk: Value, ram: Ram)
    requires Valid(ram)
    ensures var o := ClearLinks(ctx, r, pk, ram);
            o.res.Ok? ==> Shrinks(ram, o.ram) && Valid(o.ram) && LinksEmptied(ctx, r, pk, ram, o.ram)
  {
    var names := SortedKeys(r.linkDecls.Keys);
    var step := ClearNamedStep(ctx, r, pk);
    var inv := (m: Ram) => Valid(m) && Shrinks(ram, m);
    var q := (m0: Ram, n: string, m: Ram) => NamedEmptied(ctx, r, pk, n, m0, m);
    forall m, a, x | inv(m) && step(m, a, x).res.Ok?
      ensures inv(step(m, a, x).ram) && q(m, x, step(m, a, x).ram)
    {
      ClearNamedStepEmpties(ctx, r, pk, ram, m, x);
    }
    forall m0, y, m, a, x | inv(m) && q(m0, y, m) && step(m, a, x).res.Ok?
      ensures q(m0, y, step(m, a, x).ram)
    {
      ClearNamedClears(ctx, r, pk, m, x);
      NamedEmptiedShrinks(ctx, r, pk, y, m0, m, step(m, a, x).ram);
    }
    RunKeeps(ram, (), names, |names|, step, inv, q);
    var o := ClearLinks(ctx, r, pk, ram);
    if o.res.Ok? {
      assert inv(Run(ram, (), names, |names|, step).ram);
      forall n | n in r.linkDecls
        ensures NamedEmptied(ctx, r, pk, n, ram, o.ram)
      {
        var i :| 0 <= i < |names| && names[i] == n;
        var mi := Run(ram, (), names, i, step).ram;
        assert inv(mi) && q(mi, names[i], o.ram);
        var h := HandleOf(ctx, r, pk, n).value;
        if ItemsVisible(ctx, h, ram) {
          ItemsVisibleShrinks(ctx, h, ram, mi);
        }
      }
    }
  }

  // ---------------------------------------------------------------------
  // The rules of a link collection
  // ---------------------------------------------------------------------

  /** `count` and the length of a listing agree, and fail together. */
  lemma CountIsLength(ctx: Ctx, h: Handle, params: Record, ram: Ram)
    ensures Count(ctx, h, params, ram).res.Ok? <==> Fetch(ctx, h, params, ram).res.Ok?
    ensures Fetch(ctx, h, params, ram).res.Ok? ==>
              Count(ctx, h, params, ram).res.value == |Fetch(ctx, h, params, ram).res.value|
  {
  }

  /**
   * Listing asks `can_get_uris` before the backend is called; past it,
   * the query is deserialized leniently (it never fails) and every stored
   * target pk is returned.
   */
  lemma FetchRules(ctx: Ctx, h: Handle, params: Record, ram: Ram)
    ensures !ctx.pol.linkCanGetUris(NameOf(h.fwd), ctx.user, h.src) ==>
              Fetch(ctx, h, params, ram) == Stop(ram, Error(AuthorizationError, Text(ListNotAllowed)))
    ensures ctx.pol.linkCanGetUris(NameOf(h.fwd), ctx.user, h.src) ==>
              Fetch(ctx, h, params, ram).res == Ok(TableOf(ram, LinkNsOf(h.fwd, h.src)).keys)
  {
    Schemas.DeserializeLenient(h.fwd.querySchema, params, false);
  }

  /**
   * `get` of a link collection fails with DoesNotExist unless the target
   * exists, the link is stored and both are discoverable; the result is
   * the deserialized target pk.
   */
  lemma GetLinkRules(ctx: Ctx, h: Handle, ram: Ram, t: Value)
    ensures GetLink(ctx, h, ram, t).res.Err? ==> GetLink(ctx, h, ram, t).res.error.kind == DoesNotExist
    ensures ResourceGet(ctx, h.target, ram, t).res.Err? ==> GetLink(ctx, h, ram, t) == ResourceGet(ctx, h.target, ram, t)
    ensures ResourceGet(ctx, h.target, ram, t).res.Ok? ==>
              var p := ResourceGet(ctx, h.target, ram, t).res.value;
              (GetLink(ctx, h, ram, t).res.Ok? <==> Has(ram, LinkNsOf(h.fwd, h.src), p) && Discoverable(ctx, h, p)) &&
              (GetLink(ctx, h, ram, t).res.Ok? ==> GetLink(ctx, h, ram, t).res.value == p)
  {
  }

  /**
   * The element loop validates in order: on success one validated record
   * per element; on failure the error of the first failing element, a
   * framework error wrapped with that element's index.
   */
  lemma ValidatePrefix(ctx: Ctx, h: Handle, ram: Ram, xs: seq<Value>, n: nat)
    requires n <= |xs|
    ensures var o := Run(ram, [], xs, n, ValidateStep(ctx, h));
            (o.res.Ok? ==> |o.res.value| == n) &&
            (o.res.Err? ==> exists i, e :: 0 <= i < n && o.res.error == ElementError(i, e))
  {
    var tagged := (err: Error, i: nat) => exists e :: err == ElementError(i, e);
    forall m, a, x
      ensures ValidateStep(ctx, h)(m, a, x).res.Err? ==> tagged(ValidateStep(ctx, h)(m, a, x).res.error, |a|)
    {
    }
    RunTagged(ram, xs, n, ValidateStep(ctx, h), tagged);
    var o := Run(ram, [], xs, n, ValidateStep(ctx, h));
    if o.res.Err? {
      var i :| 0 <= i < n && tagged(o.res.error, i);
      var e :| o.res.error == ElementError(i, e);
    }
  }

  /** Validating link data for a collection: a list is required, and each element is accounted for. */
  lemma ValidateManyRules(ctx: Ctx, h: Handle, ram: Ram, data: Value)
    ensures !data.VList? ==> ValidateMany(ctx, h, ram, data) == Stop(ram, Error(ValidationError, Text(LinksNotList)))
    ensures ValidateMany(ctx, h, ram, data).res.Ok? ==> data.VList? && |ValidateMany(ctx, h, ram, data).res.value| == |data.items|
    ensures data.VList? && ValidateMany(ctx, h, ram, data).res.Err? ==>
              exists i, e :: 0 <= i < |data.items| && ValidateMany(ctx, h, ram, data).res.error == ElementError(i, e)
  {
    if data.VList? {
      ValidatePrefix(ctx, h, ram, data.items, |data.items|);
    }
  }

  /**
   * Creating in a collection: the data are validated with the conflict
   * check before changeability is looked at; then the link is stored at
   * its master side and the result is the raw "@target".
   */
  lemma CreateInRules(ctx: Ctx, h: Handle, ram: Ram, data: Value)
    requires (h.fwd.master || h.bwd.Some?)
    requires Validate(ctx, h, ram, data, true).res.Ok?
    requires ValidateChangability(h.fwd, h.bwd, Text(UnchangeableCollection)).Ok?
    requires data.VDict? && TargetKey in data.entries && Apart(h, data.entries[TargetKey])
    ensures var o := CreateIn(ctx, h, ram, data);
            var t := data.entries[TargetKey];
            var m := MasterOf(h, t);
            o.res == Ok(t) && Has(o.ram, LinkNsOf(m.link, m.src), m.trg)
  {
    var t := data.entries[TargetKey];
    var v := Validate(ctx, h, ram, data, true);
    ValidateReachesMaster(ctx, h, ram, data, true);
    MasterCheckRules(ctx, MasterOf(h, t), ResourceGet(ctx, h.target, ram, t).ram, data.entries - {TargetKey}, t, true);
    StoreAtMaster(h, t, v.ram, v.res.value - {TargetKey});
  }

  // ---------------------------------------------------------------------
  // The rules of a link holder
  // ---------------------------------------------------------------------

  /** The loop of `LinkHolder._validate` collects one entry per link name seen. */
  lemma ValidateNamedPrefix(ctx: Ctx, r: Resource, pk: Value, data: Record, ram: Ram, names: seq<string>, n: nat)
    requires n <= |names|
    ensures Run(ram, map[], names, n, ValidateNamedStep(ctx, r, pk, data)).res.Ok? ==>
              Run(ram, map[], names, n, ValidateNamedStep(ctx, r, pk, data)).res.value.Keys == Schemas.Prefix(names, n)
  {
    var f := ValidateNamedStep(ctx, r, pk, data);
    forall m, a, x ensures f(m, a, x).res.Ok? ==> f(m, a, x).res.value.Keys == a.Keys + {x} {
    }
    RunNamed(ram, names, n, f);
  }

  /**
   * `LinkHolder._validate`: no data stands for no links; anything but a
   * dict is refused; a missing required link is refused before any link
   * is looked at.
   */
  lemma ValidateLinksRules(ctx: Ctx, r: Resource, pk: Value, ram: Ram, linksData: Value)
    ensures !Truthy(linksData) ==>
              ValidateLinks(ctx, r, pk, ram, linksData) ==
                if RequiredLinks(r) == {} then Out(Ok(map[]), ram)
                else Stop(ram, Error(ValidationError, Fmt(LinksMissing, [Names(RequiredLinks(r))])))
    ensures Truthy(linksData) && !linksData.VDict? ==>
              ValidateLinks(ctx, r, pk, ram, linksData) == Stop(ram, Error(ValidationError, Text(LinksNotDict)))
    ensures linksData.VDict? && RequiredLinks(r) - linksData.entries.Keys != {} ==>
              ValidateLinks(ctx, r, pk, ram, linksData) ==
                Stop(ram, Error(ValidationError, Fmt(LinksMissing, [Names(RequiredLinks(r) - linksData.entries.Keys)])))
  {
    if !Truthy(linksData) {
      assert Or(linksData, VDict(map[])) == VDict(map[]);
      var none: map<string, Value> := map[];
      assert RequiredLinks(r) - none.Keys == RequiredLinks(r);
      assert SortedKeys(none.Keys) == [];
    }
  }

  /** On success every given link has its validated data, and no other name has any. */
  lemma ValidateLinksKeys(ctx: Ctx, r: Resource, pk: Value, ram: Ram, linksData: Value)
    ensures ValidateLinks(ctx, r, pk, ram, linksData).res.Ok? && linksData.VDict? ==>
              ValidateLinks(ctx, r, pk, ram, linksData).res.value.Keys == linksData.entries.Keys
  {
    if linksData.VDict? && Truthy(linksData) {
      var names := SortedKeys(linksData.entries.Keys);
      ValidateNamedPrefix(ctx, r, pk, linksData.entries, ram, names, |names|);
      Schemas.PrefixAll(names, linksData.entries.Keys);
    }
  }

  /** Storing one named link writes only link entries: no resource record changes. */
  lemma StoreNamedKeepsRecords(ctx: Ctx, r: Resource, pk: Value, valid: map<string, Payload>, ram: Ram, name: string, q: string)
    ensures TableOf(StoreNamed(ctx, r, pk, valid, ram, name).ram, ResourceNs(q)) == TableOf(ram, ResourceNs(q))
  {
    if name in valid {
      var h := HandleOf(ctx, r, pk, name);
      if h.Ok? {
        match valid[name]
        case OnePayload(rec) =>
          CreateKeepsRecords(h.value, ram, rec, q);
        case ManyPayload(recs) =>
          var ns := ResourceNs(q);
          forall m, u, rec ensures TableOf(CreateStep(h.value)(m, u, rec).ram, ns) == TableOf(m, ns) {
            CreateKeepsRecords(h.value, m, rec, q);
          }
          RunFrame(ram, (), recs, |recs|, CreateStep(h.value), ns);
      }
    }
  }

  /** Creating a link writes only link entries: no resource record changes. */
  lemma CreateKeepsRecords(h: Handle, ram: Ram, rec: Record, q: string)
    ensures TableOf(Create(h, ram, rec).ram, ResourceNs(q)) == TableOf(ram, ResourceNs(q))
  {
  }

  /** Storing links writes only link entries: no resource record changes. */
  lemma StoreLinksKeepsRecords(ctx: Ctx, r: Resource, pk: Value, ram: Ram, valid: map<string, Payload>, q: string)
    ensures TableOf(StoreLinks(ctx, r, pk, ram, valid).ram, ResourceNs(q)) == TableOf(ram, ResourceNs(q))
  {
    var ns := ResourceNs(q);
    forall m, u, name ensures TableOf(StoreNamedStep(ctx, r, pk, valid)(m, u, name).ram, ns) == TableOf(m, ns) {
      StoreNamedKeepsRecords(ctx, r, pk, valid, m, name, q);
    }
    var names := SortedKeys(valid.Keys);
    RunFrame(ram, (), names, |names|, StoreNamedStep(ctx, r, pk, valid), ns);
  }

  /** Both entries of the link to t are stored: the handle's own, and its mirror's when there is one. */
  predicate Linked(h: Handle, ram: Ram, t: Value)
  {
    Has(ram, LinkNsOf(h.fwd, h.src), t) && (h.bwd.Some? ==> Has(ram, LinkNsOf(h.bwd.value, t), h.src))
  }

  /** A validated link record whose "@target" is linked. */
  predicate RecLinked(h: Handle, ram: Ram, rec: Record)
  {
    TargetKey in rec && Linked(h, ram, rec[TargetKey])
  }

  /** The validated data of one link are stored: its one record, or every record of the list. */
  ghost predicate PayloadLinked(h: Handle, ram: Ram, p: Payload)
  {
    match p
    case OnePayload(rec) => RecLinked(h, ram, rec)
    case ManyPayload(recs) => forall i :: 0 <= i < |recs| ==> RecLinked(h, ram, recs[i])
  }

  /** Every validated link is stored, through the handle its name gives on the instance with this pk. */
  ghost predicate LinksStored(ctx: Ctx, r: Resource, pk: Value, valid: map<string, Payload>, ram: Ram)
  {
    forall n :: n in valid ==> HandleOf(ctx, r, pk, n).Ok? && PayloadLinked(HandleOf(ctx, r, pk, n).value, ram, valid[n])
  }

  /** Stored links stay stored while the store only grows. */
  lemma PayloadLinkedGrows(h: Handle, p: Payload, m: Ram, m': Ram)
    requires PayloadLinked(h, m, p) && Grows(m, m')
    ensures PayloadLinked(h, m', p)
  {
  }

  /** `_set` of a link only adds entries, and on success both entries of the link are stored. */
  lemma StoreLinksBoth(h: Handle, t: Value, ram: Ram, payload: Record)
    ensures Grows(ram, Store(h, t, ram, payload).ram)
    ensures Store(h, t, ram, payload).res.Ok? ==> Linked(h, Store(h, t, ram, payload).ram, t)
  {
    if h.fwd.master {
      var ram1 := SetSpec(ram, LinkNsOf(h.fwd, h.src), t, Some(payload));
      SetGrows(ram, LinkNsOf(h.fwd, h.src), t, Some(payload));
      if h.bwd.Some? {
        SetGrows(ram1, LinkNsOf(h.bwd.value, t), h.src, None);
      }
    } else if h.bwd.Some? {
      var ram1 := SetSpec(ram, LinkNsOf(h.bwd.value, t), h.src, Some(payload));
      SetGrows(ram, LinkNsOf(h.bwd.value, t), h.src, Some(payload));
      SetGrows(ram1, LinkNsOf(h.fwd, h.src), t, None);
    }
  }

  /** `_create` only adds entries, and on success the record's target is linked. */
  lemma CreateLinks(h: Handle, ram: Ram, rec: Record)
    ensures Grows(ram, Create(h, ram, rec).ram)
    ensures Create(h, ram, rec).res.Ok? ==> RecLinked(h, Create(h, ram, rec).ram, rec)
  {
    if TargetKey in rec {
      StoreLinksBoth(h, rec[TargetKey], ram, rec - {TargetKey});
    }
  }

  /** `RootLinkCollection._set` stores every validated record's link, and removes nothing. */
  lemma StoreManyLinks(h: Handle, ram: Ram, recs: seq<Record>)
    ensures var o := StoreMany(h, ram, recs);
            o.res.Ok? ==> Grows(ram, o.ram) && forall i :: 0 <= i < |recs| ==> RecLinked(h, o.ram, recs[i])
  {
    var f := CreateStep(h);
    var inv := (m: Ram) => Grows(ram, m);
    var q := (m0: Ram, rec: Record, m: Ram) => RecLinked(h, m, rec);
    forall m, a, x | inv(m) && f(m, a, x).res.Ok?
      ensures inv(f(m, a, x).ram) && q(m, x, f(m, a, x).ram)
    {
      CreateLinks(h, m, x);
    }
    forall m0, y, m, a, x | inv(m) && q(m0, y, m) && f(m, a, x).res.Ok?
      ensures q(m0, y, f(m, a, x).ram)
    {
      CreateLinks(h, m, x);
    }
    RunKeeps(ram, (), recs, |recs|, f, inv, q);
  }

  /** Storing one named link stores its validated data through the handle the name gives. */
  lemma StoreNamedLinks(ctx: Ctx, r: Resource, pk: Value, valid: map<string, Payload>, ram: Ram, name: string)
    ensures var o := StoreNamed(ctx, r, pk, valid, ram, name);
            o.res.Ok? ==> Grows(ram, o.ram) && name in valid && HandleOf(ctx, r, pk, name).Ok? &&
                          PayloadLinked(HandleOf(ctx, r, pk, name).value, o.ram, valid[name])
  {
    if name in valid && HandleOf(ctx, r, pk, name).Ok? {
      var h := HandleOf(ctx, r, pk, name).value;
      match valid[name]
      case OnePayload(rec) => CreateLinks(h, ram, rec);
      case ManyPayload(recs) => StoreManyLinks(h, ram, recs);
    }
  }

  /**
   * `LinkHolder._set` stores every validated link, each through the handle
   * its name gives on the instance with this pk.
   */
  lemma StoreLinksStores(ctx: Ctx, r: Resource, pk: Value, ram: Ram, valid: map<string, Payload>)
    ensures var o := StoreLinks(ctx, r, pk, ram, valid);
            o.res.Ok? ==> Grows(ram, o.ram) && LinksStored(ctx, r, pk, valid, o.ram)
  {
    var names := SortedKeys(valid.Keys);
    var f := StoreNamedStep(ctx, r, pk, valid);
    var inv := (m: Ram) => Grows(ram, m);
    var q := (m0: Ram, n: string, m: Ram) =>
      n in valid && HandleOf(ctx, r, pk, n).Ok? && PayloadLinked(HandleOf(ctx, r, pk, n).value, m, valid[n]);
    forall m, a, x | inv(m) && f(m, a, x).res.Ok?
      ensures inv(f(m, a, x).ram) && q(m, x, f(m, a, x).ram)
    {
      StoreNamedLinks(ctx, r, pk, valid, m, x);
    }
    forall m0, y, m, a, x | inv(m) && q(m0, y, m) && f(m, a, x).res.Ok?
      ensures q(m0, y, f(m, a, x).ram)
    {
      StoreNamedLinks(ctx, r, pk, valid, m, x);
      PayloadLinkedGrows(HandleOf(ctx, r, pk, y).value, valid[y], m, f(m, a, x).ram);
    }
    RunKeeps(ram, (), names, |names|, f, inv, q);
    var o := StoreLinks(ctx, r, pk, ram, valid);
    if o.res.Ok? {
      forall n | n in valid
        ensures HandleOf(ctx, r, pk, n).Ok? && PayloadLinked(HandleOf(ctx, r, pk, n).value, o.ram, valid[n])
      {
        var i :| 0 <= i < |names| && names[i] == n;
        assert q(Run(ram, (), names, i, f).ram, names[i], o.ram);
      }
    }
  }

  // ---------------------------------------------------------------------
  // As written: clearing a one-way link
  // ---------------------------------------------------------------------

  /**
   * `LinkToOne._clear` as written: the mirror's `required` is read before
   * asking whether there is a mirror, so a one-way link with an item
   * raises AttributeError.
   */
  function ClearOneAsWritten(ctx: Ctx, h: Handle, ram: Ram): (o: Out<()>)
  {
    var g := GetItem(ctx, h, ram);
    if g.res.Err? then Stop(g.ram, g.res.error)
    else if g.res.value.None? then Out(Ok(()), g.ram)
    else if h.bwd.None? then Stop(g.ram, Error(AttributeError, Text("required")))
    else Unlink(h, g.res.value.value, g.ram)
  }

  /** One element of `RootLinkCollection._clear` as written: the same read of the mirror's `required`. */
  function ClearAtAsWritten(ctx: Ctx, h: Handle, t: Value, ram: Ram): (o: Out<()>)
  {
    if h.bwd.None? then Stop(ram, Error(AttributeError, Text("required")))
    else ClearAt(ctx, h, t, ram)
  }

  /**
   * As written, clearing a one-way link that has an item fails, so
   * deleting a resource whose one-way link is set fails.
   */
  lemma OneWayClearAsWrittenFails(ctx: Ctx, h: Handle, ram: Ram, t: Value)
    requires h.bwd.None? && GetItem(ctx, h, ram).res == Ok(Some(t))
    ensures ClearOneAsWritten(ctx, h, ram).res == Fail(AttributeError, Text("required"))
    ensures ClearAtAsWritten(ctx, h, t, ram).res == Fail(AttributeError, Text("required"))
  {
  }

  /**
   * Corrected, a one-way link is cleared like a link whose mirror is not
   * required: its visible item's entry is removed and no resource record
   * is deleted.
   */
  lemma OneWayClearDetaches(ctx: Ctx, h: Handle, ram: Ram, t: Value)
    requires Storage.Valid(ram) && h.bwd.None?
    requires GetItem(ctx, h, ram).res == Ok(Some(t))
    ensures ClearOne(ctx, h, ram).res.Ok?
    ensures !Has(ClearOne(ctx, h, ram).ram, LinkNsOf(h.fwd, h.src), t)
    ensures TableOf(ClearOne(ctx, h, ram).ram, ResNs(h.target)) == TableOf(ram, ResNs(h.target))
  {
    var ns := LinkNsOf(h.fwd, h.src);
    KeysAreStored(ram, ns, None);
    var g := GetItem(ctx, h, ram);
    DetachRemovesBoth(h, t, g.ram);
  }

  /** Corrected, an element of a one-way collection that is visible and stored is detached. */
  lemma OneWayClearAtDetaches(ctx: Ctx, h: Handle, t: Value, ram: Ram)
    requires h.bwd.None? && Discoverable(ctx, h, t) && Has(ram, LinkNsOf(h.fwd, h.src), t)
    ensures ClearAt(ctx, h, t, ram).res.Ok?
    ensures !Has(ClearAt(ctx, h, t, ram).ram, LinkNsOf(h.fwd, h.src), t)
    ensures TableOf(ClearAt(ctx, h, t, ram).ram, ResNs(h.target)) == TableOf(ram, ResNs(h.target))
  {
    DetachRemovesBoth(h, t, ram);
  }
}
