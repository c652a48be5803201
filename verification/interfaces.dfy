/**
 * Resource and link declarations and what instantiating them checks and
 * computes: the readonly stripping every interface applies to its schema,
 * the pk policy of a resource, the flag checks of a link, and the
 * documents `get_schema` returns for a link.
 */
module Interfaces {
  import opened Values
  import opened Errors
  import Fields
  import Schemas

  datatype Cardinality = One | Many

  /** A resource name and one of its link names: what a `related_link` reference designates. */
  datatype LinkRef = LinkRef(resource: string, link: string)

  /** A Schema or QuerySchema inner class: its declared fields and whether undeclared keys pass through. */
  datatype SchemaDecl = SchemaDecl(fields: map<string, Fields.Field>, hasAdditionalFields: bool)

  /**
   * A link class as declared inside a resource's Links, with its class
   * attributes unchecked.  `source` (the owning resource's qualified name)
   * and `name` (the attribute name) are what the resource metaclass
   * assigns; `home` is the module the link class is defined in.
   */
  datatype LinkDecl = LinkDecl(home: string, source: string, name: string,
                               target: Option<string>, relatedName: Option<string>, cardinality: Value,
                               master: Value, required: Value, oneWay: Value, changeable: Value,
                               readonly: Value, schema: SchemaDecl, querySchema: SchemaDecl)

  /** The link class defaults: MANY, not master, not required, two-way, changeable, not readonly. */
  function DefaultLinkDecl(home: string, source: string, name: string): (d: LinkDecl)
  {
    LinkDecl(home, source, name, None, None, VStr(ManyText), VBool(false), VBool(false), VBool(false),
             VBool(true), VBool(false), SchemaDecl(map[], false), SchemaDecl(map[], false))
  }

  /**
   * An instantiated link: flags checked, names qualified, schemas built.
   * Its reference to its mirror link lives in the service's registry.
   */
  datatype Link = Link(source: string, name: string, target: string, relatedName: Option<string>,
                       cardinality: Cardinality, master: bool, required: bool, oneWay: bool,
                       changeable: bool, readonly: Value, schema: Schemas.Schema,
                       querySchema: Schemas.Schema)

  /** A resource class as declared: its qualified name (module + "." + class name), schemas and link classes. */
  datatype ResourceDecl = ResourceDecl(name: string, schema: SchemaDecl, querySchema: SchemaDecl,
                                       links: map<string, LinkDecl>)

  /**
   * An instantiated resource: schemas built, the pk field found, and the
   * link instances (empty until the service's setup instantiates them).
   */
  datatype Resource = Resource(name: string, schema: Schemas.Schema, querySchema: Schemas.Schema,
                               pkName: string, pkField: Fields.Field, linkDecls: map<string, LinkDecl>,
                               links: map<string, Link>)

  const OneText := "ONE"
  const ManyText := "MANY"

  /** `get_name` of a link class: source resource name, a colon, attribute name. */
  function LinkName(source: string, name: string): (n: string)
    ensures |n| == |source| + 1 + |name| && n[|source|] == ':'
  {
    source + ":" + name
  }

  // ---------------------------------------------------------------------
  // Readonly stripping (every interface's constructor)
  // ---------------------------------------------------------------------

  const ReadonlyQuery: map<string, Value> := map["readonly" := VBool(true)]

  /** The schema with the fields named in R made optional, without default, and out of the required names and defaults. */
  function Stripped(s: Schemas.Schema, R: set<string>): (r: Schemas.Schema)
  {
    Schemas.Schema(map n | n in s.fields :: if n in R then s.fields[n].(default := VNone, required := false) else s.fields[n],
                   s.requiredFields - R, s.defaults - R, s.hasAdditionalFields)
  }

  /** Stripping one more name extends the stripped set by it. */
  lemma StripStep(s: Schemas.Schema, R: set<string>, n: string)
    requires n in s.fields
    ensures var t := Stripped(s, R);
            Schemas.Schema(t.fields[n := t.fields[n].(default := VNone, required := false)],
                           t.requiredFields - {n}, t.defaults - {n}, t.hasAdditionalFields)
            == Stripped(s, R + {n})
  {
    var t := Stripped(s, R);
    var u := Stripped(s, R + {n});
    assert t.fields[n := t.fields[n].(default := VNone, required := false)] == u.fields;
  }

  /** Stripping no name leaves the schema as it is. */
  lemma StripNone(s: Schemas.Schema, names: seq<string>)
    ensures Stripped(s, Schemas.Prefix(names, 0)) == s
  {
    assert Schemas.Prefix(names, 0) == {};
    assert Stripped(s, {}).fields == s.fields;
  }

  /** Stripping the next name of the order extends the stripping of the names before it. */
  lemma StripNext(s: Schemas.Schema, names: seq<string>, i: nat)
    requires i < |names| && names[i] in s.fields
    ensures var t := Stripped(s, Schemas.Prefix(names, i));
            Schemas.Schema(t.fields[names[i] := t.fields[names[i]].(default := VNone, required := false)],
                           t.requiredFields - {names[i]}, t.defaults - {names[i]}, t.hasAdditionalFields)
            == Stripped(s, Schemas.Prefix(names, i + 1))
  {
    StripStep(s, Schemas.Prefix(names, i), names[i]);
    Schemas.PrefixStep(names, i + 1);
  }

  /**
   * The readonly loop of the interface constructor: every field whose
   * `readonly` option equals True loses its required flag and its default,
   * in the field and in the schema's bookkeeping.
   */
  method StripReadonly(s: Schemas.Schema) returns (r: Schemas.Schema)
    ensures r == Stripped(s, Schemas.FindFields(s, ReadonlyQuery))
  {
    var found := Schemas.FindFields(s, ReadonlyQuery);
    var names := SortedKeys(found);
    r := StripEach(s, names);
    Schemas.PrefixAll(names, found);
  }

  /** The loop itself: the names stripped one at a time, in order. */
  method StripEach(s: Schemas.Schema, names: seq<string>) returns (r: Schemas.Schema)
    requires forall i :: 0 <= i < |names| ==> names[i] in s.fields
    ensures r == Stripped(s, Schemas.Prefix(names, |names|))
  {
    r := s;
    StripNone(s, names);
    var i := 0;
    while i < |names|
      invariant 0 <= i <= |names|
      invariant r == Stripped(s, Schemas.Prefix(names, i))
    {
      StripNext(s, names, i);
      r := Schemas.Schema(r.fields[names[i] := r.fields[names[i]].(default := VNone, required := false)],
                          r.requiredFields - {names[i]}, r.defaults - {names[i]}, r.hasAdditionalFields);
      i := i + 1;
    }
  }

  /** The schema an interface instance holds for a declaration. */
  function SchemaOf(d: SchemaDecl): (s: Schemas.Schema)
  {
    var declared := Schemas.Declared(d.fields, d.fields.Keys, d.hasAdditionalFields);
    Stripped(declared, Schemas.FindFields(declared, ReadonlyQuery))
  }

  method NewInterfaceSchema(d: SchemaDecl) returns (s: Schemas.Schema)
    ensures s == SchemaOf(d)
  {
    var declared := Schemas.NewSchema(d.fields, d.hasAdditionalFields);
    s := StripReadonly(declared);
  }

  /**
   * A readonly field is neither required nor defaulted, in the field and in
   * the schema; every other field is kept as declared; the schema stays valid.
   */
  lemma ReadonlyNeitherRequiredNorDefaulted(d: SchemaDecl, n: string)
    requires n in d.fields
    ensures var s := SchemaOf(d);
            s.fields.Keys == d.fields.Keys && Schemas.Valid(s) &&
            (Schemas.Matches(d.fields[n], "readonly", VBool(true)) ==>
               n !in s.requiredFields && n !in s.defaults &&
               !s.fields[n].required && s.fields[n].default == VNone) &&
            (!Schemas.Matches(d.fields[n], "readonly", VBool(true)) ==>
               s.fields[n] == d.fields[n] &&
               (n in s.requiredFields <==> d.fields[n].required))
  {
    var declared := Schemas.Declared(d.fields, d.fields.Keys, d.hasAdditionalFields);
    Schemas.DeclaredAll(d.fields, d.hasAdditionalFields);
    Schemas.FindFieldsSingle(declared, "readonly", VBool(true), n);
  }

  // ---------------------------------------------------------------------
  // Resources and the pk policy
  // ---------------------------------------------------------------------

  const PkQuery: map<string, Value> := map["pk" := VBool(true)]
  const NoPk := "PK field is not defined"
  const MultiplePks := "Multiple PKs found: %s"

  /** The one element of a singleton set. */
  function Single(s: set<string>): (x: string)
    requires |s| == 1
    ensures s == {x}
  {
    var x :| x in s;
    assert s - {x} == {} by { assert |s - {x}| == 0; }
    x
  }

  /**
   * `Resource.__init__`: build the schemas, then the pk policy looks for
   * the fields whose `pk` option equals True: none, or more than one, is a
   * declaration error; otherwise that field is the pk.  Link classes stay
   * uninstantiated until setup.
   */
  function ResourceOf(d: ResourceDecl): (r: Result<Resource>)
  {
    var schema := SchemaOf(d.schema);
    var found := Schemas.FindFields(schema, PkQuery);
    if |found| == 0 then TextFail(ResourceDeclarationError(d.name), NoPk)
    else if |found| == 1 then
      var pk := Single(found);
      Ok(Resource(d.name, schema, SchemaOf(d.querySchema), pk, schema.fields[pk], d.links, map[]))
    else Fail(ResourceDeclarationError(d.name), Fmt(MultiplePks, [Names(found)]))
  }

  method NewResource(d: ResourceDecl) returns (r: Result<Resource>)
    ensures r == ResourceOf(d)
  {
    var schema := NewInterfaceSchema(d.schema);
    var querySchema := NewInterfaceSchema(d.querySchema);
    var found := Schemas.FindFields(schema, PkQuery);
    if |found| == 0 {
      r := TextFail(ResourceDeclarationError(d.name), NoPk);
    } else if |found| == 1 {
      var pk := Single(found);
      r := Ok(Resource(d.name, schema, querySchema, pk, schema.fields[pk], d.links, map[]));
    } else {
      r := Fail(ResourceDeclarationError(d.name), Fmt(MultiplePks, [Names(found)]));
    }
  }

  /** A resource instantiates exactly when one field is marked as pk, and that field is its pk. */
  lemma ExactlyOnePk(d: ResourceDecl)
    ensures var found := Schemas.FindFields(SchemaOf(d.schema), PkQuery);
            (ResourceOf(d).Ok? <==> |found| == 1) &&
            (ResourceOf(d).Ok? ==>
               var r := ResourceOf(d).value;
               found == {r.pkName} && r.pkName in r.schema.fields && r.pkField == r.schema.fields[r.pkName] &&
               r.name == d.name && r.links == map[] && r.linkDecls == d.links)
  {
  }

  /** `generate_pk`: the value the data holds under the pk field's name, None when absent. */
  function GeneratePk(r: Resource, data: Record): (pk: Value)
    ensures r.pkName in data ==> pk == data[r.pkName]
    ensures r.pkName !in data ==> pk == VNone
  {
    Get(data, r.pkName)
  }

  /** The uri policy's `deserialize`: the pk field's own deserialization. */
  function DeserializePk(r: Resource, pk: Value): (p: Result<Value>)
    ensures p.Err? ==> p.error.kind == ValidationError
  {
    Fields.Deserialize(r.pkField, pk)
  }

  // ---------------------------------------------------------------------
  // Links
  // ---------------------------------------------------------------------

  /** A class attribute name qualified with the module when it holds no dot. */
  function Qualify(home: string, n: string): (q: string)
    ensures '.' in n ==> q == n
    ensures '.' !in n ==> q == home + "." + n
  {
    if '.' in n then n else home + "." + n
  }

  const MustBeBoolean := "%s must be boolean"
  const NoRelatedName := "related_name is not defined"
  const NoTarget := "target is not defined"
  const ManyRequired := "Link to many can't be required"
  const BadCardinality := "cardinality must be ONE or MANY is %r"

  /** The four flags that must be booleans, in the order they are checked. */
  function FlagChecks(d: LinkDecl): (r: Result<()>)
    ensures r.Ok? <==> d.master.VBool? && d.required.VBool? && d.oneWay.VBool? && d.changeable.VBool?
  {
    var who := ResourceDeclarationError(LinkName(d.source, d.name));
    if !d.master.VBool? then Fail(who, Fmt(MustBeBoolean, [Text("master")]))
    else if !d.required.VBool? then Fail(who, Fmt(MustBeBoolean, [Text("required")]))
    else if !d.oneWay.VBool? then Fail(who, Fmt(MustBeBoolean, [Text("one_way")]))
    else if !d.changeable.VBool? then Fail(who, Fmt(MustBeBoolean, [Text("changeable")]))
    else Ok(())
  }

  /**
   * `Link.__init__`: the schemas are built; the four flags must be booleans;
   * a one-way link becomes master, a two-way one needs a related name; the
   * target must be set; a link to many cannot be required; source and
   * target are qualified with the module; the cardinality must be ONE or
   * MANY.  The readonly flag is not checked.
   */
  function LinkOf(d: LinkDecl): (r: Result<Link>)
  {
    var who := ResourceDeclarationError(LinkName(d.source, d.name));
    match FlagChecks(d)
    case Err(e) => Err(e)
    case Ok(_) =>
      if !d.oneWay.b && d.relatedName.None? then TextFail(who, NoRelatedName)
      else if d.target.None? then TextFail(who, NoTarget)
      else if d.required.b && PyEq(d.cardinality, VStr(ManyText)) then TextFail(who, ManyRequired)
      else
        var source := Qualify(d.home, d.source);
        var target := Qualify(d.home, d.target.value);
        if !PyEq(d.cardinality, VStr(OneText)) && !PyEq(d.cardinality, VStr(ManyText)) then
          Fail(ResourceDeclarationError(LinkName(source, d.name)), Fmt(BadCardinality, [Val(d.cardinality)]))
        else
          Ok(Link(source, d.name, target, d.relatedName,
                  if PyEq(d.cardinality, VStr(OneText)) then One else Many,
                  d.oneWay.b || d.master.b, d.required.b, d.oneWay.b, d.changeable.b, d.readonly,
                  SchemaOf(d.schema), SchemaOf(d.querySchema)))
  }

  method NewLink(d: LinkDecl) returns (r: Result<Link>)
    ensures r == LinkOf(d)
  {
    var schema := NewInterfaceSchema(d.schema);
    var querySchema := NewInterfaceSchema(d.querySchema);
    var flags := FlagChecks(d);
    if flags.Err? {
      return Err(flags.error);
    }
    var who := ResourceDeclarationError(LinkName(d.source, d.name));
    var master := d.master.b;
    if d.oneWay.b {
      master := true;
    } else if d.relatedName.None? {
      return TextFail(who, NoRelatedName);
    }
    if d.target.None? {
      return TextFail(who, NoTarget);
    }
    if d.required.b && PyEq(d.cardinality, VStr(ManyText)) {
      return TextFail(who, ManyRequired);
    }
    var source := Qualify(d.home, d.source);
    var target := Qualify(d.home, d.target.value);
    if !PyEq(d.cardinality, VStr(OneText)) && !PyEq(d.cardinality, VStr(ManyText)) {
      return Fail(ResourceDeclarationError(LinkName(source, d.name)), Fmt(BadCardinality, [Val(d.cardinality)]));
    }
    var card := if PyEq(d.cardinality, VStr(OneText)) then One else Many;
    r := Ok(Link(source, d.name, target, d.relatedName, card, master, d.required.b, d.oneWay.b,
                 d.changeable.b, d.readonly, schema, querySchema));
  }

  /** The conditions under which a link class instantiates, and what the instance then holds. */
  predicate WellFormedDecl(d: LinkDecl)
  {
    d.master.VBool? && d.required.VBool? && d.oneWay.VBool? && d.changeable.VBool? &&
    (d.oneWay.b || d.relatedName.Some?) && d.target.Some? &&
    (PyEq(d.cardinality, VStr(OneText)) || PyEq(d.cardinality, VStr(ManyText))) &&
    !(d.required.b && PyEq(d.cardinality, VStr(ManyText)))
  }

  /**
   * A link class instantiates exactly when it is well formed.  Then a
   * one-way link is master, a required link is a link to one, the target
   * is qualified, and readonly is kept as declared
   * whatever its type.
   */
  lemma LinkOkIff(d: LinkDecl)
    ensures LinkOf(d).Ok? <==> WellFormedDecl(d)
    ensures LinkOf(d).Ok? ==>
              var l := LinkOf(d).value;
              (l.oneWay ==> l.master) && (!l.oneWay ==> l.master == d.master.b && l.relatedName.Some?) &&
              (l.required ==> l.cardinality == One) &&
              '.' in l.target && l.readonly == d.readonly &&
              l.name == d.name && l.changeable == d.changeable.b
  {
    if LinkOf(d).Ok? {
      var l := LinkOf(d).value;
      if l.required {
        assert !PyEq(d.cardinality, VStr(ManyText));
      }
      assert '.' in Qualify(d.home, d.target.value) by {
        var t := d.target.value;
        if '.' !in t {
          var q := d.home + "." + t;
          assert q[|d.home|] == '.';
        }
      }
    }
  }

  /** A link declared with a flag that is not a boolean fails on the first such flag, in the order master, required, one_way, changeable. */
  lemma NonBooleanFlagRejected(d: LinkDecl)
    requires !d.required.VBool? && d.master.VBool?
    ensures LinkOf(d) == Fail(ResourceDeclarationError(LinkName(d.source, d.name)), Fmt(MustBeBoolean, [Text("required")]))
  {
  }

  // ---------------------------------------------------------------------
  // Link documents (`Link.get_schema`)
  // ---------------------------------------------------------------------

  /** How a link document names its pairing: one-way, or the mirror's attribute name. */
  datatype Pairing = OneWay | RelatedName(name: Option<string>)

  /** The part of `get_schema` of a link this model keeps (descriptions and meta are left out). */
  datatype LinkDoc = LinkDoc(target: string, schema: Schemas.Schema, required: bool, cardinality: Cardinality,
                             changeable: bool, readonly: Value, querySchema: Option<Schemas.Schema>,
                             pairing: Pairing)

  /** A schema's document is empty when it has no field and does not admit extra keys. */
  predicate EmptyDoc(s: Schemas.Schema)
  {
    s.fields == map[] && !s.hasAdditionalFields
  }

  /**
   * `Link.get_schema`: a master link documents its own schemas, any other
   * link its mirror's (an AttributeError when no mirror is wired); the
   * query schema appears only for a link to many and only when non-empty.
   */
  function LinkDocOf(l: Link, mirror: Option<Link>): (r: Result<LinkDoc>)
  {
    if !l.master && mirror.None? then TextFail(AttributeError, "related_link")
    else
      var owner := if l.master then l else mirror.value;
      var qs := if l.cardinality == Many && !EmptyDoc(owner.querySchema) then Some(owner.querySchema) else None;
      Ok(LinkDoc(l.target, owner.schema, l.required, l.cardinality, l.changeable, l.readonly, qs,
                 if l.oneWay then OneWay else RelatedName(l.relatedName)))
  }

  /** Who owns a link's data schema, and when its query schema is shown. */
  lemma LinkDocSchemas(l: Link, mirror: Option<Link>)
    requires l.master || mirror.Some?
    ensures LinkDocOf(l, mirror).Ok?
    ensures var doc := LinkDocOf(l, mirror).value;
            (l.master ==> doc.schema == l.schema) &&
            (!l.master ==> doc.schema == mirror.value.schema) &&
            (doc.querySchema.Some? <==>
               l.cardinality == Many && !EmptyDoc(if l.master then l.querySchema else mirror.value.querySchema)) &&
            (doc.pairing == OneWay <==> l.oneWay) && doc.target == l.target
  {
  }
}
