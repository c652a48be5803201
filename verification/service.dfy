/**
 * The service: the registry of resources under their qualified and human
 * names, the two-phase setup that instantiates every link class and wires
 * each two-way link to its mirror, the lookups entry points make, and the
 * schema document of the whole service.
 */
module Services {
  import opened Values
  import opened Errors
  import opened Interfaces
  import Schemas
  import opened InOrder

  /**
   * The registry.  `resources` maps a human name to the qualified name of
   * the resource registered under it (both dicts of the source hold the
   * same instance); `resourcesPy` holds the instances by qualified name;
   * `wiring` holds the `related_link` reference of every wired link instance.
   */
  datatype Registry = Registry(resources: map<string, string>, resourcesPy: map<string, Resource>,
                               pythonToHuman: map<string, string>, wiring: map<LinkRef, LinkRef>, ready: bool)

  const EmptyRegistry := Registry(map[], map[], map[], map[], false)

  /** What registration maintains: every human name and every registered class has its instance and human name. */
  ghost predicate Valid(reg: Registry)
  {
    (forall h :: h in reg.resources ==> reg.resources[h] in reg.resourcesPy) &&
    (forall q :: q in reg.resourcesPy ==> q in reg.pythonToHuman && reg.resourcesPy[q].name == q)
  }

  /** The registry after an operation, with the operation's result. */
  datatype Step<T> = Step(res: Result<T>, reg: Registry)

  const NotReady := "service's setup method was not called"
  const NoSuchResource := "Resource %s does not exist"
  const TargetNotRegistered := "target resource %r is not registered"
  const RelatedUndefined := "Unable to link %s:%s to %s:%s. Related link undefiend."
  const NoMaster := "this or related link must be a master one"
  const TwoMasters := "this and related link cannot be master ones at the same time"

  // ---------------------------------------------------------------------
  // register
  // ---------------------------------------------------------------------

  /** The name a resource is registered under: the given one, or its qualified name when none (or "") is given. */
  function HumanName(d: ResourceDecl, name: Option<string>): (h: string)
  {
    if name.Some? && name.value != "" then name.value else d.name
  }

  /**
   * `register`: the human name is recorded first; then the resource is
   * instantiated (which may fail on its pk declaration) and stored under
   * both names.
   */
  function RegisterSpec(reg: Registry, d: ResourceDecl, name: Option<string>): (r: Step<()>)
  {
    var h := HumanName(d, name);
    var reg1 := reg.(pythonToHuman := reg.pythonToHuman[d.name := h]);
    match ResourceOf(d)
    case Err(e) => Step(Err(e), reg1)
    case Ok(inst) =>
      Step(Ok(()), reg1.(resources := reg1.resources[h := d.name], resourcesPy := reg1.resourcesPy[d.name := inst]))
  }

  /**
   * Registering stores the one instance under the human name and the
   * qualified name, remembers the human name, keeps the registry valid and
   * leaves readiness alone; a failing instantiation registers nothing but
   * the human name.
   */
  lemma RegisterStoresOnce(reg: Registry, d: ResourceDecl, name: Option<string>)
    requires Valid(reg)
    ensures var s := RegisterSpec(reg, d, name);
            var h := HumanName(d, name);
            Valid(s.reg) && s.reg.ready == reg.ready &&
            s.reg.pythonToHuman == reg.pythonToHuman[d.name := h] &&
            (s.res.Ok? <==> ResourceOf(d).Ok?) &&
            (s.res.Ok? ==> s.reg.resources[h] == d.name && s.reg.resourcesPy[d.name] == ResourceOf(d).value) &&
            (s.res.Err? ==> s.reg.resources == reg.resources && s.reg.resourcesPy == reg.resourcesPy)
  {
    if ResourceOf(d).Ok? {
      ExactlyOnePk(d);
    }
  }

  // ---------------------------------------------------------------------
  // Lookups of an entry point
  // ---------------------------------------------------------------------

  /** `get_resource_by_name`: refused before setup; a human name first, then a qualified name. */
  function ResourceByName(reg: Registry, name: string): (r: Result<Resource>)
  {
    if !reg.ready then TextFail(DeclarationError, NotReady)
    else if name in reg.resources then
      (if reg.resources[name] in reg.resourcesPy then Ok(reg.resourcesPy[reg.resources[name]])
       else Fail(KeyError, Val(VStr(reg.resources[name]))))
    else if name in reg.resourcesPy then Ok(reg.resourcesPy[name])
    else Fail(DoesNotExist, Fmt(NoSuchResource, [Text(name)]))
  }

  /** `get_resource`: refused before setup; by the class's qualified name only. */
  function ResourceByClass(reg: Registry, q: string): (r: Result<Resource>)
  {
    if !reg.ready then TextFail(DeclarationError, NotReady)
    else if q in reg.resourcesPy then Ok(reg.resourcesPy[q])
    else Fail(DoesNotExist, Fmt(NoSuchResource, [Text(q)]))
  }

  /**
   * Before setup every lookup fails with a declaration error.  After it, a
   * human name reaches the instance registered under it, a qualified name
   * that is not also a human name reaches its own instance, and any other
   * name does not exist.
   */
  lemma LookupRules(reg: Registry, name: string)
    requires Valid(reg)
    ensures !reg.ready ==> ResourceByName(reg, name) == TextFail(DeclarationError, NotReady) &&
                           ResourceByClass(reg, name) == TextFail(DeclarationError, NotReady)
    ensures reg.ready && name in reg.resources ==>
              ResourceByName(reg, name) == ResourceByClass(reg, reg.resources[name])
    ensures reg.ready && name !in reg.resources ==> ResourceByName(reg, name) == ResourceByClass(reg, name)
    ensures reg.ready && ResourceByName(reg, name).Ok? ==> ResourceByName(reg, name).value.name in reg.resourcesPy
    ensures reg.ready && name !in reg.resources && name !in reg.resourcesPy ==>
              ResourceByName(reg, name).Err? && ResourceByName(reg, name).error.kind == DoesNotExist
  {
  }

  // ---------------------------------------------------------------------
  // setup, phase 1: instantiate every link class
  // ---------------------------------------------------------------------

  /** Phase 1 for one link class: its instantiation. */
  function LinkStep(n: string, d: LinkDecl): (r: Result<Link>)
  {
    LinkOf(d)
  }

  /** The link classes of one resource instantiated in name order: all of them, or the first failure. */
  function LinksOf(decls: map<string, LinkDecl>): (r: Result<map<string, Link>>)
    ensures r.Ok? ==> r.value.Keys == decls.Keys && forall n :: n in decls ==> LinkOf(decls[n]) == Ok(r.value[n])
  {
    Collect(decls, LinkStep)
  }

  /** Phase 1 for one resource: the instance with every link class instantiated. */
  function ResourceStep(q: string, r: Resource): (out: Result<Resource>)
  {
    match LinksOf(r.linkDecls)
    case Err(e) => Err(e)
    case Ok(links) => Ok(r.(links := links))
  }

  /** Phase 1 over every resource in name order: each with all its links instantiated, or the first failure. */
  function Phase1(py: map<string, Resource>): (r: Result<map<string, Resource>>)
    ensures r.Ok? ==> r.value.Keys == py.Keys &&
                      forall q :: q in py ==> LinksOf(py[q].linkDecls) == Ok(r.value[q].links) &&
                                              r.value[q] == py[q].(links := r.value[q].links)
  {
    Collect(py, ResourceStep)
  }

  // ---------------------------------------------------------------------
  // setup, phase 2: connect the links
  // ---------------------------------------------------------------------

  /** Mirror references: the `related_link` of each wired link instance. */
  type Wiring = map<LinkRef, LinkRef>

  /** The registered link a reference designates, if any. */
  function Lookup(py: map<string, Resource>, ref: LinkRef): (l: Option<Link>)
    ensures l.Some? <==> ref.resource in py && ref.link in py[ref.resource].links
  {
    if ref.resource in py && ref.link in py[ref.resource].links then Some(py[ref.resource].links[ref.link])
    else None
  }

  /** The link wired as the mirror of a link, if any. */
  function Mirror(py: map<string, Resource>, w: Wiring, ref: LinkRef): (m: Option<Link>)
    ensures m.Some? ==> ref in w && Lookup(py, w[ref]) == m
  {
    if ref in w then Lookup(py, w[ref]) else None
  }

  /**
   * `_connect_links` for link n of resource q: the target must be
   * registered; a one-way link stops there; the mirror named by
   * `related_name` must exist on the target; a link already wired is
   * skipped; otherwise both references are set and exactly one of the two
   * must be master.
   */
  function ConnectLink(py: map<string, Resource>, w: Wiring, q: string, n: string): (r: Result<Wiring>)
    requires Lookup(py, LinkRef(q, n)).Some?
  {
    var field := py[q].links[n];
    if field.target !in py then
      Fail(ResourceDeclarationError(LinkName(field.source, field.name)), Fmt(TargetNotRegistered, [Text(field.target)]))
    else if field.oneWay then Ok(w)
    else
      var rn := field.relatedName;
      if rn.None? || rn.value !in py[field.target].links then
        Fail(ResourceDeclarationError(q), Fmt(RelatedUndefined,
             [Text(field.source), Text(field.name), Text(field.target), if rn.None? then Val(VNone) else Text(rn.value)]))
      else if LinkRef(q, n) in w then Ok(w)
      else
        var here := LinkRef(q, n);
        var there := LinkRef(field.target, rn.value);
        var rel := py[field.target].links[rn.value];
        if !field.master && !rel.master then TextFail(ResourceDeclarationError(q), NoMaster)
        else if field.master && rel.master then TextFail(ResourceDeclarationError(q), TwoMasters)
        else Ok(w[here := there][there := here])
  }

  /**
   * The loop step of `_connect_links` for resource q.  The names are q's own
   * link names, so the attribute is always found; a missing one would be an
   * AttributeError.
   */
  function ConnectStep(py: map<string, Resource>, q: string): (step: (Wiring, string) -> Result<Wiring>)
  {
    (w: Wiring, n: string) =>
      if Lookup(py, LinkRef(q, n)).Some? then ConnectLink(py, w, q, n)
      else Fail(AttributeError, Text(n))
  }

  /** `_connect_links` of resource q: all its links in name order. */
  function ConnectAll(py: map<string, Resource>, w: Wiring, q: string): (r: Result<Wiring>)
    requires q in py
  {
    var names := SortedKeys(py[q].links.Keys);
    Fold(w, names, |names|, ConnectStep(py, q))
  }

  /** The loop step of phase 2: connect the links of one resource (its name always registered). */
  function Phase2Step(py: map<string, Resource>): (step: (Wiring, string) -> Result<Wiring>)
  {
    (w: Wiring, q: string) =>
      if q in py then ConnectAll(py, w, q) else Fail(KeyError, Val(VStr(q)))
  }

  /** Phase 2: every resource connected, in name order, starting with no reference set. */
  function Phase2(py: map<string, Resource>): (r: Result<Wiring>)
  {
    var qs := SortedKeys(py.Keys);
    Fold(map[], qs, |qs|, Phase2Step(py))
  }

  /**
   * `setup`: nothing when already done; otherwise every link class is
   * instantiated (fresh instances, so no reference is set), every link
   * connected, and the service becomes ready.  On failure the registry is
   * left as it was.
   */
  function SetupSpec(reg: Registry): (r: Result<Registry>)
  {
    if reg.ready then Ok(reg)
    else
      match Phase1(reg.resourcesPy)
      case Err(e) => Err(e)
      case Ok(py) =>
        match Phase2(py)
        case Err(e) => Err(e)
        case Ok(w) => Ok(reg.(resourcesPy := py, wiring := w, ready := true))
  }

  // ----- what connecting guarantees -----

  /** Every reference joins two registered links whose master flags differ. */
  ghost predicate WiringSound(py: map<string, Resource>, w: Wiring)
  {
    forall a :: a in w ==>
      Lookup(py, a).Some? && Lookup(py, w[a]).Some? && Lookup(py, a).value.master != Lookup(py, w[a]).value.master
  }

  /** A link that setup has dealt with: its target is registered and, unless one-way, it has a mirror. */
  ghost predicate Connected(py: map<string, Resource>, w: Wiring, ref: LinkRef)
  {
    Lookup(py, ref).Some? && Lookup(py, ref).value.target in py && (!Lookup(py, ref).value.oneWay ==> ref in w)
  }

  /** Connecting one link keeps the references sound, keeps every reference set, and connects it. */
  lemma ConnectLinkSound(py: map<string, Resource>, w: Wiring, q: string, n: string)
    requires Lookup(py, LinkRef(q, n)).Some? && WiringSound(py, w)
    requires ConnectLink(py, w, q, n).Ok?
    ensures WiringSound(py, ConnectLink(py, w, q, n).value)
    ensures Connected(py, ConnectLink(py, w, q, n).value, LinkRef(q, n))
    ensures w.Keys <= ConnectLink(py, w, q, n).value.Keys
  {
  }

  /** Connecting a prefix of a resource's links keeps the references sound and connects every link of the prefix. */
  lemma {:induction false} ConnectPrefixSound(py: map<string, Resource>, w: Wiring, q: string, names: seq<string>, k: nat)
    requires k <= |names| && q in py && forall i :: 0 <= i < |names| ==> names[i] in py[q].links
    requires WiringSound(py, w) && Fold(w, names, k, ConnectStep(py, q)).Ok?
    ensures WiringSound(py, Fold(w, names, k, ConnectStep(py, q)).value)
    ensures w.Keys <= Fold(w, names, k, ConnectStep(py, q)).value.Keys
    ensures forall i :: 0 <= i < k ==> Connected(py, Fold(w, names, k, ConnectStep(py, q)).value, LinkRef(q, names[i]))
  {
    if k > 0 {
      ConnectPrefixSound(py, w, q, names, k - 1);
      var m := Fold(w, names, k - 1, ConnectStep(py, q)).value;
      assert Fold(w, names, k, ConnectStep(py, q)) == ConnectLink(py, m, q, names[k - 1]);
      ConnectLinkSound(py, m, q, names[k - 1]);
    }
  }

  /** Connecting a resource keeps the references sound, keeps every reference set, and connects each of its links. */
  lemma ConnectAllSound(py: map<string, Resource>, w: Wiring, q: string)
    requires q in py && WiringSound(py, w) && ConnectAll(py, w, q).Ok?
    ensures WiringSound(py, ConnectAll(py, w, q).value)
    ensures w.Keys <= ConnectAll(py, w, q).value.Keys
    ensures forall l :: l in py[q].links ==> Connected(py, ConnectAll(py, w, q).value, LinkRef(q, l))
  {
    var names := SortedKeys(py[q].links.Keys);
    ConnectPrefixSound(py, w, q, names, |names|);
    forall l | l in py[q].links ensures Connected(py, ConnectAll(py, w, q).value, LinkRef(q, l)) {
      var i :| 0 <= i < |names| && names[i] == l;
    }
  }

  /** Every link of the first n resources of qs is connected. */
  ghost predicate ResourcesConnected(py: map<string, Resource>, w: Wiring, qs: seq<string>, n: nat)
    requires n <= |qs|
  {
    forall i, l :: 0 <= i < n && qs[i] in py && l in py[qs[i]].links ==> Connected(py, w, LinkRef(qs[i], l))
  }

  /** Connecting one more resource, keeping every reference set, extends what is connected by its links. */
  lemma ResourcesConnectedStep(py: map<string, Resource>, m: Wiring, r: Wiring, qs: seq<string>, n: nat, q: string)
    requires 0 < n <= |qs| && q == qs[n - 1] && q in py && m.Keys <= r.Keys && ResourcesConnected(py, m, qs, n - 1)
    requires forall l :: l in py[q].links ==> Connected(py, r, LinkRef(q, l))
    ensures ResourcesConnected(py, r, qs, n)
  {
  }

  /** Phase 2 over a prefix of the resources keeps references sound and connects every link of those resources. */
  lemma {:induction false} Phase2Sound(py: map<string, Resource>, qs: seq<string>, n: nat)
    requires n <= |qs| && forall i :: 0 <= i < |qs| ==> qs[i] in py
    requires Fold(map[], qs, n, Phase2Step(py)).Ok?
    ensures WiringSound(py, Fold(map[], qs, n, Phase2Step(py)).value)
    ensures ResourcesConnected(py, Fold(map[], qs, n, Phase2Step(py)).value, qs, n)
  {
    if n > 0 {
      Phase2Sound(py, qs, n - 1);
      var m := Fold(map[], qs, n - 1, Phase2Step(py)).value;
      var q := qs[n - 1];
      assert Fold(map[], qs, n, Phase2Step(py)) == ConnectAll(py, m, q);
      ConnectAllSound(py, m, q);
      ResourcesConnectedStep(py, m, ConnectAll(py, m, q).value, qs, n, q);
    }
  }

  /**
   * A successful setup makes the service ready, keeps the registered
   * resources, and instantiates every declared link exactly as its class
   * declares it.
   */
  lemma SetupInstantiates(reg: Registry, q: string, l: string)
    requires !reg.ready && SetupSpec(reg).Ok?
    ensures var after := SetupSpec(reg).value;
            after.ready && after.resourcesPy.Keys == reg.resourcesPy.Keys &&
            (q in after.resourcesPy ==> after.resourcesPy[q].links.Keys == after.resourcesPy[q].linkDecls.Keys) &&
            (q in after.resourcesPy && l in after.resourcesPy[q].linkDecls ==>
               Ok(after.resourcesPy[q].links[l]) == LinkOf(after.resourcesPy[q].linkDecls[l]))
  {
  }

  /**
   * After a successful setup every link has its target registered, every
   * two-way link has a mirror, and every wired link is paired with one of
   * the other master flag.
   */
  lemma SetupWires(reg: Registry, q: string, l: string)
    requires !reg.ready && SetupSpec(reg).Ok?
    ensures var after := SetupSpec(reg).value;
            WiringSound(after.resourcesPy, after.wiring) &&
            (q in after.resourcesPy && l in after.resourcesPy[q].links ==>
               Connected(after.resourcesPy, after.wiring, LinkRef(q, l)))
  {
    Phase2Wires(Phase1(reg.resourcesPy).value, q, l);
  }

  /** Phase 2 as a whole: sound references, and every link of every resource connected. */
  lemma Phase2Wires(py: map<string, Resource>, q: string, l: string)
    requires Phase2(py).Ok?
    ensures WiringSound(py, Phase2(py).value)
    ensures q in py && l in py[q].links ==> Connected(py, Phase2(py).value, LinkRef(q, l))
  {
    var qs := SortedKeys(py.Keys);
    Phase2Sound(py, qs, |qs|);
    if q in py {
      var i :| 0 <= i < |qs| && qs[i] == q;
      assert ResourcesConnected(py, Phase2(py).value, qs, |qs|);
    }
  }

  /** Setup is idempotent: once it has succeeded, running it again changes nothing. */
  lemma SetupIdempotent(reg: Registry)
    requires SetupSpec(reg).Ok?
    ensures SetupSpec(reg).value.ready
    ensures SetupSpec(SetupSpec(reg).value) == SetupSpec(reg)
  {
  }

  /** A link whose target is not registered makes connecting it fail, one-way or not. */
  lemma UnregisteredTargetRejected(py: map<string, Resource>, w: Wiring, q: string, n: string)
    requires Lookup(py, LinkRef(q, n)).Some? && py[q].links[n].target !in py
    ensures ConnectLink(py, w, q, n).Err? && ConnectLink(py, w, q, n).error.kind.ResourceDeclarationError?
  {
  }

  /** An unwired two-way link whose mirror has the same master flag makes connecting fail. */
  lemma SameMastersRejected(py: map<string, Resource>, w: Wiring, q: string, n: string)
    requires Lookup(py, LinkRef(q, n)).Some?
    requires var f := py[q].links[n];
             f.target in py && !f.oneWay && LinkRef(q, n) !in w && f.relatedName.Some? &&
             f.relatedName.value in py[f.target].links &&
             py[f.target].links[f.relatedName.value].master == f.master
    ensures ConnectLink(py, w, q, n) == TextFail(ResourceDeclarationError(q), if py[q].links[n].master then TwoMasters else NoMaster)
  {
  }

  /** A link already wired (by its mirror) is skipped: connecting it checks nothing further and changes nothing. */
  lemma WiredLinkSkipped(py: map<string, Resource>, w: Wiring, q: string, n: string)
    requires Lookup(py, LinkRef(q, n)).Some? && LinkRef(q, n) in w
    requires var f := py[q].links[n];
             f.target in py && !f.oneWay && f.relatedName.Some? && f.relatedName.value in py[f.target].links
    ensures ConnectLink(py, w, q, n) == Ok(w)
  {
  }

  /** Wiring an unwired two-way link points each of the pair at the other. */
  lemma WiringIsMutual(py: map<string, Resource>, w: Wiring, q: string, n: string)
    requires Lookup(py, LinkRef(q, n)).Some? && LinkRef(q, n) !in w
    requires var f := py[q].links[n];
             f.target in py && !f.oneWay && f.relatedName.Some? && f.relatedName.value in py[f.target].links
    requires ConnectLink(py, w, q, n).Ok?
    ensures var f := py[q].links[n];
            var r := ConnectLink(py, w, q, n).value;
            var there := LinkRef(f.target, f.relatedName.value);
            r[there] == LinkRef(q, n) && (there != LinkRef(q, n) ==> r[LinkRef(q, n)] == there)
  {
  }

  /** A one-way link is never pointed at its target by its own connection. */
  lemma OneWaySkipped(py: map<string, Resource>, w: Wiring, q: string, n: string)
    requires Lookup(py, LinkRef(q, n)).Some? && py[q].links[n].oneWay && py[q].links[n].target in py
    ensures ConnectLink(py, w, q, n) == Ok(w)
  {
  }

  // ---------------------------------------------------------------------
  // get_schema
  // ---------------------------------------------------------------------

  /** The part of a resource's `get_schema` this model keeps. */
  datatype ResourceDoc = ResourceDoc(schema: Schemas.Schema, uriPolicy: string, querySchema: Option<Schemas.Schema>,
                                     links: map<string, LinkDoc>)

  const PkPolicy := "pk_policy"
  const Unbound := "unbound method get_schema()"

  /** The document of link n of resource `home`, with the mirror it is wired to. */
  function LinkDocStep(py: map<string, Resource>, w: Wiring, home: string): (step: (string, Link) -> Result<LinkDoc>)
  {
    (n: string, l: Link) => LinkDocOf(l, Mirror(py, w, LinkRef(home, n)))
  }

  /**
   * `Resource.get_schema`: the query schema only when non-empty; the link
   * documents, the first failing link (in name order) raising.  Before
   * setup the links are still classes, whose `get_schema` cannot be called
   * unbound: a TypeError for any resource that declares links.
   */
  function ResourceDocOf(py: map<string, Resource>, w: Wiring, r: Resource): (d: Result<ResourceDoc>)
    ensures d.Ok? ==> d.value.links.Keys == r.links.Keys == r.linkDecls.Keys && d.value.schema == r.schema
    ensures d.Ok? ==> forall n :: n in r.links ==> LinkDocOf(r.links[n], Mirror(py, w, LinkRef(r.name, n))) == Ok(d.value.links[n])
  {
    if r.links.Keys != r.linkDecls.Keys then TextFail(TypeError, Unbound)
    else
      match Collect(r.links, LinkDocStep(py, w, r.name))
      case Err(e) => Err(e)
      case Ok(links) =>
        Ok(ResourceDoc(r.schema, PkPolicy, if EmptyDoc(r.querySchema) then None else Some(r.querySchema), links))
  }

  /** The loop step of the documents: one resource's own document. */
  function DocStep(py: map<string, Resource>, w: Wiring): (step: (string, Resource) -> Result<ResourceDoc>)
  {
    (q: string, r: Resource) => ResourceDocOf(py, w, r)
  }

  /** The documents of every registered resource, by qualified name; the first failing resource (in name order) raises. */
  function Docs(py: map<string, Resource>, w: Wiring): (r: Result<map<string, ResourceDoc>>)
    ensures r.Ok? ==> r.value.Keys == py.Keys && forall q :: q in py ==> ResourceDocOf(py, w, py[q]) == Ok(r.value[q])
  {
    Collect(py, DocStep(py, w))
  }

  /** A link document's target renamed to its human name; an unknown target raises KeyError. */
  function TargetStep(p2h: map<string, string>): (step: (string, LinkDoc) -> Result<LinkDoc>)
  {
    (n: string, ld: LinkDoc) =>
      if ld.target in p2h then Ok(ld.(target := p2h[ld.target])) else Fail(KeyError, Val(VStr(ld.target)))
  }

  /** A document with every link target replaced by its human name; an unknown target raises KeyError. */
  function RenameTargets(doc: ResourceDoc, p2h: map<string, string>): (r: Result<ResourceDoc>)
    ensures r.Ok? ==> r.value.links.Keys == doc.links.Keys &&
                      forall n :: n in doc.links ==>
                        doc.links[n].target in p2h && r.value.links[n] == doc.links[n].(target := p2h[doc.links[n].target])
    ensures r.Ok? ==> r.value.(links := doc.links) == doc
    ensures r.Err? <==> exists n :: n in doc.links && doc.links[n].target !in p2h
  {
    CollectFails(doc.links, TargetStep(p2h));
    match Collect(doc.links, TargetStep(p2h))
    case Err(e) => Err(e)
    case Ok(links) => Ok(doc.(links := links))
  }

  /**
   * The loop step of the human-named schema: the resource's document with
   * its targets renamed, stored under its human name.  The names are the
   * documents' own keys; a resource without a human name raises KeyError.
   */
  function RenameStep(docs: map<string, ResourceDoc>, p2h: map<string, string>)
    : (step: (map<string, ResourceDoc>, string) -> Result<map<string, ResourceDoc>>)
  {
    (acc: map<string, ResourceDoc>, q: string) =>
      if q !in docs then Fail(KeyError, Val(VStr(q)))
      else
        match RenameTargets(docs[q], p2h)
        case Err(e) => Err(e)
        case Ok(d) => if q !in p2h then Fail(KeyError, Val(VStr(q))) else Ok(acc[p2h[q] := d])
  }

  /** `get_schema`: documents by qualified name, or (human) by human name with link targets renamed too. */
  function SchemaSpec(reg: Registry, human: bool): (r: Result<map<string, ResourceDoc>>)
  {
    match Docs(reg.resourcesPy, reg.wiring)
    case Err(e) => Err(e)
    case Ok(docs) =>
      if !human then Ok(docs)
      else
        var ks := SortedKeys(docs.Keys);
        Fold(map[], ks, |ks|, RenameStep(docs, reg.pythonToHuman))
  }

  /** Renaming keys every document by the human name of its resource, and only by those. */
  lemma {:induction false} RenamePrefixKeys(docs: map<string, ResourceDoc>, p2h: map<string, string>, ks: seq<string>, n: nat)
    requires n <= |ks| && forall i :: 0 <= i < |ks| ==> ks[i] in docs && ks[i] in p2h
    requires Fold(map[], ks, n, RenameStep(docs, p2h)).Ok?
    ensures Fold(map[], ks, n, RenameStep(docs, p2h)).value.Keys == set i | 0 <= i < n :: p2h[ks[i]]
    ensures forall h :: h in Fold(map[], ks, n, RenameStep(docs, p2h)).value ==>
              forall l :: l in Fold(map[], ks, n, RenameStep(docs, p2h)).value[h].links ==>
                Fold(map[], ks, n, RenameStep(docs, p2h)).value[h].links[l].target in p2h.Values
  {
    if n > 0 {
      RenamePrefixKeys(docs, p2h, ks, n - 1);
      var acc := Fold(map[], ks, n - 1, RenameStep(docs, p2h)).value;
      var d := RenameTargets(docs[ks[n - 1]], p2h).value;
      assert Fold(map[], ks, n, RenameStep(docs, p2h)) == Ok(acc[p2h[ks[n - 1]] := d]);
      forall l | l in d.links ensures d.links[l].target in p2h.Values {
        var t := docs[ks[n - 1]].links[l].target;
        assert p2h[t] in p2h.Values;
      }
    }
  }

  /** The human names of a listing of every document are the human names of the documented resources. */
  lemma HumanNames(docs: map<string, ResourceDoc>, p2h: map<string, string>, ks: seq<string>)
    requires (forall q :: q in docs ==> q in p2h) && forall q :: q in ks <==> q in docs
    ensures (set i | 0 <= i < |ks| :: p2h[ks[i]]) == set q | q in docs :: p2h[q]
  {
    var A := set i | 0 <= i < |ks| :: p2h[ks[i]];
    forall q | q in docs ensures p2h[q] in A {
      var i :| 0 <= i < |ks| && ks[i] == q;
    }
  }

  /** The renaming loop as a whole: every document under its resource's human name, every target a human name. */
  lemma RenameAll(docs: map<string, ResourceDoc>, p2h: map<string, string>)
    requires forall q :: q in docs ==> q in p2h
    requires Fold(map[], SortedKeys(docs.Keys), |docs|, RenameStep(docs, p2h)).Ok?
    ensures Fold(map[], SortedKeys(docs.Keys), |docs|, RenameStep(docs, p2h)).value.Keys == set q | q in docs :: p2h[q]
    ensures var r := Fold(map[], SortedKeys(docs.Keys), |docs|, RenameStep(docs, p2h)).value;
            forall h, l :: h in r && l in r[h].links ==> r[h].links[l].target in p2h.Values
  {
    var ks := SortedKeys(docs.Keys);
    RenamePrefixKeys(docs, p2h, ks, |ks|);
    HumanNames(docs, p2h, ks);
  }

  /** The schema document by qualified name covers exactly the registered resources. */
  lemma SchemaByClass(reg: Registry)
    requires SchemaSpec(reg, false).Ok?
    ensures SchemaSpec(reg, false).value.Keys == reg.resourcesPy.Keys
  {
  }

  /**
   * The human-named schema document covers the human name of every
   * registered resource, and nothing else, with every link target named by
   * a human name.
   */
  lemma SchemaNames(reg: Registry)
    requires Valid(reg) && SchemaSpec(reg, true).Ok?
    ensures SchemaSpec(reg, true).value.Keys == set q | q in reg.resourcesPy :: reg.pythonToHuman[q]
    ensures forall h, l :: h in SchemaSpec(reg, true).value && l in SchemaSpec(reg, true).value[h].links ==>
              SchemaSpec(reg, true).value[h].links[l].target in reg.pythonToHuman.Values
  {
    var docs := Docs(reg.resourcesPy, reg.wiring).value;
    RenameAll(docs, reg.pythonToHuman);
  }

  /** Before setup, a resource that declares links has no document. */
  lemma SchemaNeedsSetup(reg: Registry, r: Resource)
    requires r.links == map[] && r.linkDecls != map[]
    ensures ResourceDocOf(reg.resourcesPy, reg.wiring, r) == TextFail(TypeError, Unbound)
  {
    var n :| n in r.linkDecls;
  }

  /**
   * `setup`: nothing when already done; otherwise the loop instantiating
   * the link classes of every resource, then the loop connecting every
   * resource's links.
   */
  method SetupRegistry(reg: Registry) returns (r: Result<Registry>)
    ensures r == SetupSpec(reg)
  {
    if reg.ready {
      return Ok(reg);
    }
    var py := CollectInOrder(reg.resourcesPy, ResourceStep);
    if py.Err? {
      return Err(py.error);
    }
    var qs := SortedKeys(py.value.Keys);
    var w := FoldInOrder(map[], qs, Phase2Step(py.value));
    if w.Err? {
      return Err(w.error);
    }
    r := Ok(reg.(resourcesPy := py.value, wiring := w.value, ready := true));
  }

  // ---------------------------------------------------------------------
  // The service object
  // ---------------------------------------------------------------------

  class Service {
    var resources: map<string, string>
    var resourcesPy: map<string, Resource>
    var pythonToHuman: map<string, string>
    var wiring: map<LinkRef, LinkRef>
    var ready: bool

    function Reg(): Registry
      reads this
    {
      Registry(resources, resourcesPy, pythonToHuman, wiring, ready)
    }

    constructor ()
      ensures Reg() == EmptyRegistry && Valid(Reg())
    {
      resources := map[];
      resourcesPy := map[];
      pythonToHuman := map[];
      wiring := map[];
      ready := false;
    }

    method Register(d: ResourceDecl, name: Option<string>) returns (r: Result<()>)
      modifies this
      ensures Step(r, Reg()) == RegisterSpec(old(Reg()), d, name)
    {
      var h := HumanName(d, name);
      pythonToHuman := pythonToHuman[d.name := h];
      var inst := NewResource(d);
      if inst.Err? {
        return Err(inst.error);
      }
      resources := resources[h := d.name];
      resourcesPy := resourcesPy[d.name := inst.value];
      r := Ok(());
    }

    /** `setup`, as `SetupRegistry` computes it, applied to the service's fields; a failure leaves them alone. */
    method Setup() returns (r: Result<()>)
      modifies this
      ensures var s := SetupSpec(old(Reg()));
              (r.Ok? <==> s.Ok?) && (s.Ok? ==> Reg() == s.value) && (s.Err? ==> r == Err(s.error) && Reg() == old(Reg()))
    {
      var s := SetupRegistry(Reg());
      if s.Err? {
        return Err(s.error);
      }
      resources := s.value.resources;
      resourcesPy := s.value.resourcesPy;
      pythonToHuman := s.value.pythonToHuman;
      wiring := s.value.wiring;
      ready := s.value.ready;
      r := Ok(());
    }

    /** `get_schema`: every resource's document, then (human) the renaming loop. */
    method GetSchema(human: bool) returns (r: Result<map<string, ResourceDoc>>)
      ensures r == SchemaSpec(Reg(), human)
    {
      var docs := CollectInOrder(resourcesPy, DocStep(resourcesPy, wiring));
      if docs.Err? || !human {
        return docs;
      }
      var ks := SortedKeys(docs.value.Keys);
      r := FoldInOrder(map[], ks, RenameStep(docs.value, pythonToHuman));
    }
  }
}
