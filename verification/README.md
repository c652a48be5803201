# resource_api: relationship consistency, modelled in Dafny

`resource_api` exposes a registry of resources (entities with a schema,
a primary key and a set of links) to an authorized user. The framework
validates incoming data against declarative schemas, asks per-user
`can_*` predicates before every operation, and keeps the two halves of
a bidirectional link (the forward link and its `related_name` mirror)
consistent. Link data are stored once, on the master side. Required
links to one cannot be removed, and clearing a resource's links cascades
into the targets of required backward links.

This project models that engine in Dafny and proves properties of the
model:

- **Values and fields** (`values.dfy`, `fields.dfy`). Python values are
  a datatype. Integer, string, boolean and list fields follow the
  declaration-time checks of `IndexableField`, `DigitField` and
  `StringField`, and their `_to_python` / `_validate` / `deserialize` /
  `serialize`.
- **Schemas** (`schema.dfy`). Schema construction from declared fields,
  `find_fields`, `deserialize` (unknown keys, per-field errors, the
  required phase, `with_errors`) and `serialize`.
- **Interfaces** (`interfaces.dfy`). The readonly stripping of
  `BaseInterface.__init__`, the pk uri policy, and a link class's
  declaration checks and `get_schema`.
- **Service** (`service.dfy`). `register`, the two-phase `setup` that
  instantiates links and wires each link to its mirror, lookup by name
  and by class, and `get_schema` with human names.
- **Storage** (`storage.dfy`). The `RamStorage` simulator as a class over
  a `Ram` value: namespaced tables in insertion order plus a call log.
  Each method is proved equal to a pure specification.
- **Engine** (`access.dfy`, `links.dfy`, `resources.dfy`). Every
  operation of `RootResourceCollection`, `ResourceInstance`,
  `LinkHolder`, `LinkInstance`, `LinkToOne` and `RootLinkCollection`,
  over the test backends of `tests/simulators.py`. Each is a pure function
  from the store to `Out(result, store)`; the lemmas state the rules.
- **Runtime objects** (`handles.dfy`, `inorder.dfy`). Classes for
  collections, resource instances and link holders, and loop methods that
  run against a `RamStorage`. Each is proved to produce exactly the result
  and store of the engine's specification.

Dict iteration uses the sorted order of the keys wherever the source
iterates a dict. Attribute names from `dir()` are sorted in Python too.
Errors keep their kind and a structured message (template plus
arguments); text is not rendered.

## Model

| member | source | states |
|---|---|---|
| `Values.FirstIndex` | src/resource_api/schema.py:455 | `list.index` returns the first position holding a value Python-equal to the element, and no earlier position holds one |
| `Values.SortedKeys` | src/resource_api/interfaces.py:205-212 | the names visited are exactly the set's members, each once, in strictly increasing order |
| `Values.ParseIntText` | src/resource_api/schema.py:178-184 | parsing the decimal text of any integer gives that integer back |
| `Fields.Convert` | src/resource_api/schema.py:178-184 | conversion keeps None as None, yields a value of the field's type, leaves a value already of that type unchanged, and fails only with ValidationError |
| `Fields.ConvertIntText` | src/resource_api/schema.py:297-300 | an integer field converts the text of n to n |
| `Fields.ToPython` | src/resource_api/schema.py:297-300 | the kind's `_to_python` fails only with ValidationError |
| `Fields.Validate` | src/resource_api/schema.py:251-266 | `_validate` refuses only with ValidationError |
| `Fields.ValidateAdmissible` | src/resource_api/schema.py:251-386 | a value passes `_validate` iff it is not a missing required value and meets the declared choices, invalid choices, numeric range and length range |
| `Fields.Deserialize` | src/resource_api/schema.py:45-49 | a field's deserialization fails only with ValidationError |
| `Fields.ItemsAllOk` | src/resource_api/schema.py:443-458 | when every element deserializes, the list result is the elements' results in order, with no error |
| `Fields.ItemsErrorPositions` | src/resource_api/schema.py:451-455 | the list errors are exactly one per failing element, in list order, each under that element's own position with its own message |
| `Fields.ItemsFailure` | src/resource_api/schema.py:451-457 | one failing element is enough to make the list fail |
| `Fields.ItemsAsWrittenRepeatsPosition` | src/resource_api/schema.py:455 | with `val.index(item)` two equal failing elements are both reported at the first one's position |
| `Fields.DeserializeList` | src/resource_api/schema.py:443-458 | the element loop returns exactly the list field's deserialization: required check, None passed through, non-list rejected, errors collected per element |
| `Fields.Serialize` | src/resource_api/schema.py:51-53 | a simple field serializes a value to itself |
| `Fields.SerializeAll` | src/resource_api/schema.py:465-466 | serializing a list succeeds iff every element serializes, and then element i of the result is the item field's serialization of element i |
| `Fields.SerializeSimpleList` | src/resource_api/schema.py:465-466 | a list under a simple item field serializes to itself |
| `Fields.RoundTrip` | src/resource_api/schema.py:443-466 | serializing what deserialization accepted gives back the given value, for any value already in deserialized form (None or the field's type; for a list field, a list of such elements), nested list fields included |
| `Fields.ListNoneNotSerializable` | src/resource_api/schema.py:443-466 | a list field that is not required deserializes None to None, and serializing that None fails with TypeError |
| `Fields.ConvertPrefix` | src/resource_api/schema.py:212-217 | a choice list converts iff every element converts; the result is the element-wise conversion; a failure is a DeclarationError caused by some element |
| `Fields.ConvertChoices` | src/resource_api/schema.py:209-218 | the conversion loop computes the element-wise conversion of the choice list, stopping at the first failing element |
| `Fields.OptionList` | src/resource_api/schema.py:209-228 | a converted option list has one element per given element; None is kept only for an option not given |
| `Fields.NewOptionList` | src/resource_api/schema.py:209-228 | an option list is None when not given, rejected when not a list, otherwise converted element by element to a list of the same length |
| `Fields.NotAListError` | src/resource_api/schema.py:211 | a choice option that is not a list is a DeclarationError |
| `Fields.Common` | src/resource_api/schema.py:237-240 | the common elements are exactly the choices also found among the invalid choices |
| `Fields.LabelsCheck` | src/resource_api/schema.py:220-224 | labels are accepted iff absent, or a list as long as the given choices |
| `Fields.ChoiceChecks` | src/resource_api/schema.py:230-240 | when accepted, a given default is not among the invalid choices, is among the choices, and no choice is also an invalid choice; refusals are DeclarationErrors |
| `Fields.DefaultDecl` | src/resource_api/schema.py:171-176 | the declared default is the field's conversion of the given default; a failed conversion is a DeclarationError |
| `Fields.ChoicesFinish` | src/resource_api/schema.py:230-242 | the finished choices are the converted lists, and they pass the choice checks |
| `Fields.ZeroMinimumSlipsThrough` | src/resource_api/schema.py:282-284 | `min_val or max_val` misses a minimum of 0: choices with min_val=0 pass the check as written |
| `Fields.RangeChecks` | src/resource_api/schema.py:282-293 | when accepted: no choices together with a range, min <= max, and a default within the range |
| `Fields.BoundDecl` | src/resource_api/schema.py:279-280 | a bound is None exactly when none is given |
| `Fields.NewIntegerField` | src/resource_api/schema.py:277-295 | the declaration, with its option lists converted by loops, equals the integer field's declaration function |
| `Fields.IntegerFieldDeclWellDeclared` | src/resource_api/schema.py:207-295 | every accepted integer field has its default in its choices and outside its invalid choices, disjoint choice lists, and a consistent range containing the default |
| `Fields.LengthDecl` | src/resource_api/schema.py:349-355 | a length limit is None exactly when none is given; an unconvertible limit is a DeclarationError |
| `Fields.ZeroLengthSlipsThrough` | src/resource_api/schema.py:357-360 | `min_length or max_length` misses a limit of 0: choices with max_length=0 pass the check as written |
| `Fields.NewStringField` | src/resource_api/schema.py:346-364 | the declaration, with its option lists converted by loops, equals the string field's declaration function |
| `Fields.StringFieldFinishShape` | src/resource_api/schema.py:357-364 | an accepted string field keeps the checked choices and default, and never has non-empty choices together with a length limit |
| `Fields.StringFieldDeclWellDeclared` | src/resource_api/schema.py:346-364 | every accepted string field is well declared: default within the choices, disjoint choice lists, no choices together with length limits |
| `Fields.BooleanFieldDecl` | src/resource_api/schema.py:397-405 | a boolean field is accepted iff its default is None or a bool |
| `Fields.ListFieldDecl` | src/resource_api/schema.py:439-441 | a list field wraps its item field and has no default |
| `Fields.LabelsMustMatch` | src/resource_api/schema.py:220-224 | accepted labels always come with a choice list of the same length |
| `Schemas.AddFieldStep` | src/resource_api/schema.py:556-562 | adding one more declared field gives the schema of the larger set of names |
| `Schemas.DeclaredAll` | src/resource_api/schema.py:543-554 | the schema holds exactly the declared fields, and its required set and defaults agree with them |
| `Schemas.NewSchema` | src/resource_api/schema.py:543-562 | the constructor loop builds exactly the schema of all declared fields, and that schema is consistent |
| `Schemas.FindFieldsUnion` | src/resource_api/schema.py:564-571 | a query with several keys finds the union of what each key finds |
| `Schemas.FindFieldsSingle` | src/resource_api/schema.py:564-571 | a field is found iff its kwargs hold the value; a field without the key is never found for a non-None value |
| `Schemas.FindFields` | src/resource_api/schema.py:564-571 | `find_fields` returns only declared field names |
| `Schemas.Deserialize` | src/resource_api/schema.py:587-588 | anything but a dict is rejected with the `__all__` message; failures are ValidationErrors |
| `Schemas.ScanKeys` | src/resource_api/schema.py:593-606 | the key loop computes the transformed data and the errors of the scan |
| `Schemas.RequirePhase` | src/resource_api/schema.py:608-611 | the required loop computes the required phase's errors |
| `Schemas.DeserializeData` | src/resource_api/schema.py:573-616 | the loop method returns exactly the schema's deserialization |
| `Schemas.ScanTransformed` | src/resource_api/schema.py:590-606 | after any prefix of keys, transformed is the defaults overridden by every accepted value seen |
| `Schemas.ScanClean` | src/resource_api/schema.py:593-606 | the scan has no error iff every key seen is accepted |
| `Schemas.ScanErrorsGrow` | src/resource_api/schema.py:593-606 | errors only accumulate: a key's error list only grows as the scan proceeds |
| `Schemas.UndeclaredKeyError` | src/resource_api/schema.py:596-600 | an undeclared key without additional fields adds "not defined" under `__all__` |
| `Schemas.ScanFieldErrors` | src/resource_api/schema.py:603-606 | a field has an error iff it was seen and its value fails, and the error list is exactly that failure's message |
| `Schemas.FieldErrorExactly` | src/resource_api/schema.py:603-606 | over the whole data, a field has an error iff it is given, declared and failing, with exactly that message |
| `Schemas.ScanAllTransformed` | src/resource_api/schema.py:590-606 | the scan's transformed data are defaults plus every accepted value, and it is clean iff every key is accepted |
| `Schemas.RequireScanSpec` | src/resource_api/schema.py:608-611 | the required phase keeps earlier errors and reports exactly the required fields missing from the transformed data |
| `Schemas.FinalErrorsSpec` | src/resource_api/schema.py:590-611 | a field ends with an error iff it failed or is required and missing, the latter with exactly "Required field is missing" |
| `Schemas.DeserializeValue` | src/resource_api/schema.py:587-616 | a successful deserialization is of a dict and yields defaults plus the accepted values |
| `Schemas.FinalErrorsEmpty` | src/resource_api/schema.py:608-614 | no final error iff no key failed and every required field has a non-None value |
| `Schemas.DeserializeOkIff` | src/resource_api/schema.py:613-616 | with errors on, deserialization succeeds iff the data are clean |
| `Schemas.DeserializeLenient` | src/resource_api/schema.py:613-616 | with errors off, deserialization always succeeds with the defaults plus the accepted values |
| `Schemas.DefaultSatisfiesRequired` | src/resource_api/schema.py:590-611 | a required field with a default is never reported missing |
| `Schemas.MissingRequiredReported` | src/resource_api/schema.py:608-614 | a required field without default or value fails deserialization with "Required field is missing" under its name |
| `Schemas.AdditionalKeyCopied` | src/resource_api/schema.py:596-598 | with additional fields allowed, an undeclared key is copied unchanged |
| `Schemas.UndeclaredKeyRejected` | src/resource_api/schema.py:599-614 | without additional fields, an undeclared key makes deserialization fail with an `__all__` entry |
| `Schemas.SerializeScanSpec` | src/resource_api/schema.py:630-637 | the serialize loop succeeds iff every declared field serializes, keeps exactly the kept keys, and serializes declared ones |
| `Schemas.SerializeSpec` | src/resource_api/schema.py:627-638 | `serialize` keeps declared keys (serialized) and, with additional fields, undeclared ones unchanged; it drops the rest |
| `Interfaces.LinkName` | src/resource_api/interfaces.py:379-380 | a link's name is its source, a colon, then its attribute name |
| `Interfaces.StripReadonly` | src/resource_api/interfaces.py:59-64 | the stripping loop yields the schema with every readonly field neither required nor defaulted |
| `Interfaces.StripEach` | src/resource_api/interfaces.py:59-64 | the loop over the found names strips exactly those names |
| `Interfaces.NewInterfaceSchema` | src/resource_api/interfaces.py:48-64 | an interface's schema is its declared schema with readonly fields stripped |
| `Interfaces.ReadonlyNeitherRequiredNorDefaulted` | src/resource_api/interfaces.py:59-64 | a readonly field is neither required nor defaulted; every other field is unchanged |
| `Interfaces.NewResource` | src/resource_api/interfaces.py:197-202 | instantiating a resource equals its declaration function |
| `Interfaces.ExactlyOnePk` | src/resource_api/interfaces.py:139-152 | a resource is accepted iff exactly one field is marked pk; that field becomes its pk field |
| `Interfaces.GeneratePk` | src/resource_api/interfaces.py:158-159 | the generated pk is the data's pk field, or None when absent |
| `Interfaces.DeserializePk` | src/resource_api/interfaces.py:161-162 | pk deserialization fails only with ValidationError |
| `Interfaces.Qualify` | src/resource_api/interfaces.py:340-344 | a name containing a dot is kept; any other is prefixed with the module |
| `Interfaces.FlagChecks` | src/resource_api/interfaces.py:326-328 | the flags pass iff master, required, one_way and changeable are all booleans |
| `Interfaces.NewLink` | src/resource_api/interfaces.py:322-349 | instantiating a link equals its declaration function |
| `Interfaces.LinkOkIff` | src/resource_api/interfaces.py:322-349 | a link is accepted iff well formed; one-way links are masters, required links are to one, and the target is qualified |
| `Interfaces.NonBooleanFlagRejected` | src/resource_api/interfaces.py:326-328 | a non-boolean `required` is refused with "required must be boolean" |
| `Interfaces.LinkDocSchemas` | src/resource_api/interfaces.py:353-376 | a link's schema comes from its master side, has a query schema only for non-empty links to many, and is one-way iff the link is |
| `Storage.RamStorage.constructor` | src/tests/simulators.py:14-17 | a new store is empty with an empty log |
| `Storage.RamStorage.Set` | src/tests/simulators.py:19-26 | `set` produces exactly the set specification's store |
| `Storage.RamStorage.Get` | src/tests/simulators.py:28-30 | `get` returns and logs as its specification says |
| `Storage.RamStorage.Exists` | src/tests/simulators.py:32-34 | `exists` returns and logs as its specification says |
| `Storage.RamStorage.Delete` | src/tests/simulators.py:36-38 | `delete` returns and updates as its specification says |
| `Storage.RamStorage.GetKeys` | src/tests/simulators.py:40-42 | `get_keys` returns and logs as its specification says |
| `Storage.SetKeepsValid` | src/tests/simulators.py:19-26 | `set` keeps every table's keys distinct and equal to its rows |
| `Storage.DeleteKeepsValid` | src/tests/simulators.py:36-38 | `delete` keeps every table's keys distinct and equal to its rows |
| `Storage.KeysAreStored` | src/tests/simulators.py:40-42 | `get_keys` lists each stored pk exactly once |
| `Storage.SetNoneEmpties` | src/tests/simulators.py:21-22 | `set` with None stores an empty record |
| `Storage.SetMerges` | src/tests/simulators.py:23-26 | `set` merges: given keys take the new values, others keep what was stored |
| `Storage.SetFrame` | src/tests/simulators.py:19-26 | `set` changes no other namespace or pk |
| `Storage.SetGrows` | src/tests/simulators.py:19-26 | `set` stores the pk and removes nothing |
| `Storage.DeleteShrinks` | src/tests/simulators.py:36-38 | `delete` leaves the pk absent and adds nothing |
| `Storage.DeleteRemoves` | src/tests/simulators.py:36-38 | deleting a stored pk succeeds, removes it, and touches nothing else |
| `Storage.MissingKeyFails` | src/tests/simulators.py:28-38 | `get` or `delete` of an absent pk is a KeyError that changes no record |
| `Storage.DeleteUndoesSet` | src/tests/simulators.py:19-38 | deleting a freshly set pk restores every table |
| `Storage.OneLogEntryPerCall` | src/tests/simulators.py:19-42 | every call appends exactly its own entry to the log |
| `Storage.ReadsChangeNoRecord` | src/tests/simulators.py:28-42 | `get`, `exists` and `get_keys` change no record |
| `Storage.KeysIgnoreParams` | src/tests/simulators.py:40-42 | `get_keys` ignores its filter parameters |
| `Services.RegisterStoresOnce` | src/resource_api/service.py:121-132 | registering records the human name, and on success maps it to the class name and the instantiated resource; a failed instantiation registers no resource |
| `Services.LookupRules` | src/resource_api/service.py:23-57 | lookups fail before setup; a human name resolves to its class; an unknown name is DoesNotExist |
| `Services.LinksOf` | src/resource_api/service.py:141-143 | instantiating links gives each declared link its instantiated value |
| `Services.Phase1` | src/resource_api/service.py:141-143 | the first setup phase gives every registered resource its instantiated links and changes nothing else |
| `Services.ConnectLinkSound` | src/resource_api/service.py:91-119 | connecting one link keeps the mirror references sound, connects the link and only adds references |
| `Services.ConnectAllSound` | src/resource_api/service.py:91-119 | `_connect_links` connects every link of the resource and keeps references sound |
| `Services.Phase2Wires` | src/resource_api/service.py:144-145 | after the second phase every link of every resource is connected |
| `Services.SetupInstantiates` | src/resource_api/service.py:134-146 | a successful setup marks the service ready and instantiates every declared link |
| `Services.SetupWires` | src/resource_api/service.py:134-146 | after setup every mirror reference is sound and every link is connected |
| `Services.SetupIdempotent` | src/resource_api/service.py:139-140 | a second setup changes nothing |
| `Services.UnregisteredTargetRejected` | src/resource_api/service.py:95-96 | a link to an unregistered target is a ResourceDeclarationError |
| `Services.SameMastersRejected` | src/resource_api/service.py:116-119 | two masters, or two non-masters, are refused with the source's message |
| `Services.WiredLinkSkipped` | src/resource_api/service.py:108-109 | a link already wired is left as it is |
| `Services.WiringIsMutual` | src/resource_api/service.py:111-112 | wiring a link points it and its mirror at each other |
| `Services.OneWaySkipped` | src/resource_api/service.py:99-100 | a one-way link is not wired |
| `Services.ResourceDocOf` | src/resource_api/interfaces.py:217-233 | a resource's schema document has one entry per link, each that link's document |
| `Services.Docs` | src/resource_api/service.py:155 | the class-named documents cover every registered resource |
| `Services.RenameTargets` | src/resource_api/service.py:160-161 | link targets are renamed to human names and nothing else changes; unknown targets fail |
| `Services.RenameAll` | src/resource_api/service.py:158-163 | the human schema is keyed by human names, and every link target is a human name |
| `Services.SchemaByClass` | src/resource_api/service.py:155-157 | the non-human schema is keyed by the registered class names |
| `Services.SchemaNames` | src/resource_api/service.py:148-163 | `get_schema` is keyed by the human names, and every link target is a human name |
| `Services.SchemaNeedsSetup` | src/resource_api/interfaces.py:231 | documenting links before setup raises the unbound-method TypeError |
| `Services.SetupRegistry` | src/resource_api/service.py:134-146 | the two setup loops compute exactly the setup specification |
| `Services.Service.constructor` | src/resource_api/service.py:69-73 | a new service has an empty registry and is not ready |
| `Services.Service.Register` | src/resource_api/service.py:121-132 | `register` updates the registry as its specification says |
| `Services.Service.Setup` | src/resource_api/service.py:134-146 | `setup` succeeds iff the specification does, and installs the set-up registry |
| `Services.Service.GetSchema` | src/resource_api/service.py:148-163 | `get_schema` returns the schema specification |
| `Access.ResourceGet` | src/resource_api/resource.py:110-125 | `get` changes no record and fails only with DoesNotExist |
| `Access.ResourceGetPaths` | src/resource_api/resource.py:110-125 | a bad pk fails without a call; otherwise one `exists` call, and success iff stored and discoverable, with the deserialized pk |
| `Access.GetPk` | src/resource_api/resource.py:110-125 | the method returns exactly what `get` specifies, with the same store effect |
| `Links.MasterCheck` | src/resource_api/link.py:137-148 | the master's checks read the store and write no record; what they decide is stated by `Links.MasterCheckRules` |
| `Links.Validate` | src/resource_api/link.py:109-153 | link validation writes no record; its refusals are stated by `Links.ValidateRefuses` and its hand-over to the master's checks by `Links.ValidateReachesMaster` |
| `Links.Data` | src/resource_api/link.py:192-212 | reading link data writes no record; what it reads and returns is stated by `Links.DataRules` |
| `Links.GetItem` | src/resource_api/link.py:288-301 | looking up a link to one's item writes no record; its cases (none, one, several stored) are stated by `Links.GetItemCases` |
| `Links.Fetch` | src/resource_api/link.py:384-392 | listing a link collection writes no record; the permission gate and the listed pks are stated by `Links.FetchRules` |
| `Links.Elements` | src/resource_api/link.py:376-382 | each listed pk yields its link exactly when it is discoverable |
| `Links.ValidateAt` | src/resource_api/link.py:474-479 | validating one element adds one record; a failure is tagged with the element's index |
| `Links.ValidateMany` | src/resource_api/link.py:469-480 | validating a link list writes no record; the list requirement and per-element results are stated by `Links.ValidateManyRules` |
| `Links.GetLink` | src/resource_api/link.py:486-501 | `get` on a link collection writes no record; when it succeeds and what it returns is stated by `Links.GetLinkRules` |
| `Links.RequiredLinks` | src/resource_api/link.py:49 | the required links are exactly the declared links whose `required` is truthy |
| `Links.ValidateLinks` | src/resource_api/link.py:48-62 | `LinkHolder._validate` writes no record; its refusals are stated by `Links.ValidateLinksRules` and the names of its result by `Links.ValidateLinksKeys` |
| `Links.ReadonlyGate` | src/resource_api/link.py:79-85 | a readonly forward link, or a readonly backward link of a two-way link, is Forbidden; changeability checks it first |
| `Links.UnchangeableGate` | src/resource_api/link.py:87-93 | past the readonly gate, a change is allowed iff both sides are changeable, else Forbidden |
| `Links.FrozenLinkRefusesChange` | src/resource_api/link.py:214-276 | delete and update of an unchangeable link are Forbidden and leave the store untouched |
| `Links.FrozenLinkRefusesNew` | src/resource_api/link.py:335-350 | `set` and `create` on an unchangeable link fail without writing a record |
| `Links.Thawed` | src/resource_api/link.py:87-93 | the same link with both sides changeable passes the changeability check |
| `Links.ValidateIgnoresChangeability` | src/resource_api/link.py:109-153 | validation does not depend on changeability |
| `Links.MasterCheckSeesNameAndSchema` | src/resource_api/link.py:137-148 | the master's checks depend only on the link's name, schema and pks |
| `Links.ValidateRefuses` | src/resource_api/link.py:113-133 | one-to-many creation is Forbidden; non-dict data, a missing `@target` and an unknown target are ValidationErrors |
| `Links.MasterOf` | src/resource_api/link.py:150-153 | the master side is the forward link when it is master, else the backward one with the pks swapped |
| `Links.MasterCheckRules` | src/resource_api/link.py:137-148 | `can_create` refusal is AuthorizationError; a conflict needs the check enabled and an existing link; success keeps `@target` |
| `Links.ValidateReachesMaster` | src/resource_api/link.py:130-153 | once the target is found, validation is the master side's check on the remaining data |
| `Links.NoConflictWithoutCheck` | src/resource_api/link.py:311-313 | a link to one never reports a data conflict |
| `Links.StoreAtMaster` | src/resource_api/link.py:162-174 | `_set` stores the data at the master side, an empty entry at the slave side, and touches nothing else |
| `Links.DetachFrame` | src/resource_api/link.py:176-179 | `_delete` touches only the two entries' namespaces |
| `Links.DetachRemovesBoth` | src/resource_api/link.py:176-179 | `_delete` succeeds iff both entries exist and removes both |
| `Links.DeleteRules` | src/resource_api/link.py:214-248 | removing a required link to one is Forbidden; otherwise `can_delete` at the master, then both entries go |
| `Links.SetRequiredOneFails` | src/resource_api/link.py:335-350 | `set` on a required link to one that holds an item is Forbidden and writes no record |
| `Links.UpdateRules` | src/resource_api/link.py:250-276 | at the master side, readonly or unchangeable fields are a ValidationError before `can_update` is asked; a refusal changes nothing; success merges the data into the master entry |
| `Links.DataRules` | src/resource_api/link.py:192-212 | data are read from the master side and authorized by the forward link's `can_get_data` |
| `Links.GetItemCases` | src/resource_api/link.py:288-333 | no entry gives None (and `item` DoesNotExist); one gives it if discoverable; several are MultipleFound |
| `Links.UnlinkRules` | src/resource_api/link.py:303-309 | clearing one link touches only the target's records and the two entries; it deletes the target only for a required backward link to one |
| `Links.ClearOneFrame` | src/resource_api/link.py:303-309 | clearing a link to one touches only those namespaces |
| `Links.ClearManyFrame` | src/resource_api/link.py:454-459 | clearing a link collection touches only those namespaces |
| `Links.CountIsLength` | src/resource_api/link.py:399-440 | `count` succeeds iff listing does, and equals the number of listed pks |
| `Links.FetchRules` | src/resource_api/link.py:384-392 | listing needs `can_get_uris`, and then yields the stored target pks |
| `Links.GetLinkRules` | src/resource_api/link.py:486-501 | `get` fails with DoesNotExist unless the target exists, the link exists and it is discoverable |
| `Links.ValidatePrefix` | src/resource_api/link.py:474-479 | the element loop yields one record per element, or the error of an element with its index |
| `Links.ValidateManyRules` | src/resource_api/link.py:469-480 | non-lists are refused; success has one record per element; a failure names a valid index |
| `Links.CreateInRules` | src/resource_api/link.py:503-513 | a validated, changeable `create` returns the target pk and stores the link at the master |
| `Links.ValidateNamedPrefix` | src/resource_api/link.py:57-61 | the link-name loop yields one entry per name seen |
| `Links.ValidateNamed` | src/resource_api/link.py:57-61 | validating one named link writes no record |
| `Links.ValidateLinksRules` | src/resource_api/link.py:48-55 | falsy data count as none; non-dicts and missing required links are ValidationErrors |
| `Links.ValidateLinksKeys` | src/resource_api/link.py:56-62 | on success every given link has its validated data, and no other name has any |
| `Links.StoreNamedKeepsRecords` | src/resource_api/link.py:65-66 | storing one link's data writes no resource record |
| `Links.CreateKeepsRecords` | src/resource_api/link.py:155-160 | `_create` writes no resource record |
| `Links.StoreLinksKeepsRecords` | src/resource_api/link.py:64-66 | `LinkHolder._set` writes no resource record |
| `Links.OneWayClearAsWrittenFails` | src/resource_api/link.py:303-309 | as written, clearing a one-way link that holds an item reads `required` on None and fails with AttributeError |
| `Links.OneWayClearDetaches` | src/resource_api/link.py:303-309 | corrected: clearing a one-way link to one removes the entry and leaves the target's records alone |
| `Links.OneWayClearAtDetaches` | src/resource_api/link.py:454-459 | corrected: clearing a one-way collection element removes the entry and leaves the target's records alone |
| `Links.ValidateTarget` | src/resource_api/link.py:130-153 | validated data were a dict naming a target, and carry that target under `@target` |
| `Links.CreateAppends` | src/resource_api/link.py:155-174 | `_create` appends a new target to the link's pk order, leaves a stored one in place, and keeps the store well formed |
| `Links.DeleteOnly` | src/resource_api/link.py:176-179 | deleting the only target of a link leaves the link with none |
| `Links.SetOneReplaces` | src/resource_api/link.py:335-350 | after a successful `set`, the new target is the link's only target, stored at both sides, and it is the item when discoverable (None otherwise) |
| `Links.SetOneKeepsHidden` | src/resource_api/link.py:288-301 | `set` keeps a held target the user cannot discover; a different new target leaves two, and `_get_item` then raises MultipleFound |
| `Links.StoreLinksBoth` | src/resource_api/link.py:162-174 | `_set` only adds entries, and stores both the link's own entry and its mirror's |
| `Links.CreateLinks` | src/resource_api/link.py:155-160 | `_create` only adds entries, and on success links the record's target |
| `Links.StoreManyLinks` | src/resource_api/link.py:482-484 | a collection's `_set` removes nothing and links the target of every validated record |
| `Links.StoreNamedLinks` | src/resource_api/link.py:64-66 | storing one named link links its validated data through the handle its name gives |
| `Links.StoreLinksStores` | src/resource_api/link.py:64-66 | `LinkHolder._set` removes nothing and stores every validated link under the holder's pk |
| `Links.UnlinkDetaches` | src/resource_api/link.py:303-309 | unlinking only removes; on success neither entry is left, nor the target's record when the link cascades |
| `Links.ClearManyClears` | src/resource_api/link.py:454-459 | a successful collection clear found every target discoverable and detached each; the link holds no target afterwards |
| `Links.ClearOneClears` | src/resource_api/link.py:303-309 | a successful link-to-one clear only removes and detaches the item it sees; the link is then empty when every target it held was discoverable |
| `Links.ClearOneKeepsHidden` | src/resource_api/link.py:288-309 | a link to one whose only target is hidden from the user is left as it is by `_clear` |
| `Links.ClearNamedClears` | src/resource_api/link.py:43-46 | clearing one named link detaches what it clears; a collection ends empty, and so does a link to one whose targets were all discoverable |
| `Links.ClearLinksClears` | src/resource_api/link.py:43-46 | `LinkHolder._clear` finds every declared link, only removes, and empties every collection and every link to one whose targets were all discoverable |
| `Resources.Fetch` | src/resource_api/resource.py:41-49 | listing writes no record; the `can_get_uris` gate and the listed pks are stated by `Resources.ListingGated` |
| `Resources.Count` | src/resource_api/resource.py:79-96 | counting writes no record; the `can_get_uris` gate and the count as the listing's length are stated by `Resources.ListingGated` |
| `Resources.Merge` | src/resource_api/resource.py:73-76 | the filtered collection's params are the old ones overridden by the new ones |
| `Resources.ListingGated` | src/resource_api/resource.py:41-96 | listing and counting need `can_get_uris`, and then give the stored pks and their number |
| `Resources.CreateChecksFirst` | src/resource_api/resource.py:137-145 | failed data or link checks stop `create` before any record is written |
| `Resources.CheckedRules` | src/resource_api/resource.py:137-144 | `create` needs valid data, `can_create`, and no readonly field |
| `Resources.PkConflictWritesNothing` | src/resource_api/resource.py:146-151 | a pk already stored is a DataConflictError and writes no record |
| `Resources.WriteBaseRules` | src/resource_api/resource.py:146-153 | the record is merged under the generated pk; a taken pk is a conflict that writes nothing |
| `Resources.CreateCheckedStores` | src/resource_api/resource.py:145-155 | past the data checks, the pk is the generated one, the record holds the data, and every validated link is stored under that pk |
| `Resources.CreateStoresRecord` | src/resource_api/resource.py:127-155 | a created resource has the generated pk, its record holds the data, and every validated link is stored under that pk at both sides |
| `Resources.DataRules` | src/resource_api/resource.py:181-190 | `data` returns the stored record iff it exists and `can_get_data` allows it |
| `Resources.Data` | src/resource_api/resource.py:181-190 | `data` writes no record; what it reads and returns, and the KeyError for an absent pk, are stated by `Resources.DataRules` |
| `Resources.UpdateRules` | src/resource_api/resource.py:201-215 | `can_update` is asked on the deserialized data, then any readonly or unchangeable field is a ValidationError; a refusal changes nothing; success merges the data into the record |
| `Resources.UpdateMerges` | src/resource_api/resource.py:208-215 | after an update, given fields hold their new values and others are as they were |
| `Resources.DeleteRules` | src/resource_api/resource.py:217-228 | `can_delete` first, then every link cleared, then the record removed; on a well-formed store nothing is added and every collection, and every link to one whose targets were all discoverable, ends empty |
| `Handles.CheckAtMaster` | src/resource_api/link.py:137-148 | the method does exactly what the master check specifies |
| `Handles.ValidateLink` | src/resource_api/link.py:109-153 | the method does exactly what link validation specifies |
| `Handles.SetLink` | src/resource_api/link.py:162-174 | the method does exactly what `_set` specifies |
| `Handles.CreateLink` | src/resource_api/link.py:155-160 | the method does exactly what `_create` specifies |
| `Handles.DeleteEntries` | src/resource_api/link.py:176-179 | the method does exactly what `_delete` specifies |
| `Handles.LinkData` | src/resource_api/link.py:192-212 | the method does exactly what `data` specifies |
| `Handles.DeleteLink` | src/resource_api/link.py:214-248 | the method does exactly what `delete` specifies |
| `Handles.UpdateLink` | src/resource_api/link.py:250-276 | the method does exactly what `update` specifies |
| `Handles.UnlinkTarget` | src/resource_api/link.py:456-459 | the method unlinks one target exactly as specified |
| `Handles.ItemOrNone` | src/resource_api/link.py:288-301 | the method does exactly what `_get_item` specifies |
| `Handles.LinkItem` | src/resource_api/link.py:319-333 | the method does exactly what `item` specifies |
| `Handles.ClearOne` | src/resource_api/link.py:303-309 | the method does exactly what the corrected `_clear` of a link to one specifies |
| `Handles.SetOne` | src/resource_api/link.py:335-350 | the method does exactly what `set` specifies; on a well-formed store whose held targets are discoverable, the new target is then the only one, stored at both sides |
| `Handles.Position` | src/resource_api/link.py:394-397 | indexing accepts exactly keys in [-n, n), and negative keys count from the end; others are IndexError |
| `Handles.LinkCollection.constructor` | src/resource_api/link.py:370-374 | a new collection has its params and nothing fetched |
| `Handles.LinkCollection.Iter` | src/resource_api/link.py:384-392 | the first call fetches (gated by `can_get_uris`); later calls change nothing |
| `Handles.LinkCollection.Next` | src/resource_api/link.py:403-404 | before iteration AttributeError; at the end StopIteration; otherwise the next element, with the cursor advanced |
| `Handles.LinkCollection.Len` | src/resource_api/link.py:399-401 | `__iter__` first: a kept listing is reused unchanged, otherwise the gated fetch is stored (or its error returned); the result is the listing's length |
| `Handles.LinkCollection.At` | src/resource_api/link.py:394-397 | `__iter__` first, as for `Len`; a key outside [-n, n) is IndexError; otherwise the link at that Python index of the listing, or None when it is not discoverable |
| `Handles.LinkCollection.Filter` | src/resource_api/link.py:406-421 | a fresh non-root collection over the merged params, nothing fetched |
| `Handles.LinkCollection.Count` | src/resource_api/link.py:423-440 | the method does exactly what `count` specifies |
| `Handles.LinkCollection.Clear` | src/resource_api/link.py:454-459 | the method does exactly what the corrected `_clear` of a collection specifies; on a well-formed store it only removes, leaves the link empty and detaches every target it held |
| `Handles.LinkCollection.ValidateList` | src/resource_api/link.py:469-480 | the method does exactly what `_validate` of a collection specifies |
| `Handles.LinkCollection.SetList` | src/resource_api/link.py:482-484 | the method does exactly what `_set` of a collection specifies; on success nothing is removed and every record's target is linked at both sides |
| `Handles.LinkCollection.Get` | src/resource_api/link.py:486-501 | the method does exactly what `get` specifies |
| `Handles.LinkCollection.Create` | src/resource_api/link.py:503-513 | the method does exactly what `create` specifies |
| `Handles.ValidateElement` | src/resource_api/link.py:461-463 | one element's validation, adding exactly one record on success |
| `Handles.ClearAt` | src/resource_api/link.py:455-459 | clears one collection element exactly as specified |
| `Handles.ClearEach` | src/resource_api/link.py:455-459 | the loop clears the elements in order, stopping at the first failure |
| `Handles.ValidateEach` | src/resource_api/link.py:474-479 | the loop validates the elements in order, stopping at the first failure |
| `Handles.CreateEach` | src/resource_api/link.py:482-484 | the loop creates the links in order, stopping at the first failure |
| `Handles.LinkHolder.constructor` | src/resource_api/link.py:24-27 | a holder for the resource and its pk |
| `Handles.LinkHolder.SetPk` | src/resource_api/link.py:40-41 | the holder's pk is replaced |
| `Handles.LinkHolder.Validate` | src/resource_api/link.py:48-62 | the method does exactly what `_validate` specifies |
| `Handles.LinkHolder.Set` | src/resource_api/link.py:64-66 | the method does exactly what `_set` specifies; on success nothing is removed and every validated link is stored under the holder's pk |
| `Handles.LinkHolder.Clear` | src/resource_api/link.py:43-46 | the method does exactly what `_clear` specifies; on a well-formed store it only removes and empties every collection, and every link to one whose targets were all discoverable |
| `Handles.ValidateNamed` | src/resource_api/link.py:57-61 | one link name's validation, wrapped with the link's name |
| `Handles.ValidateEachNamed` | src/resource_api/link.py:56-62 | the loop validates the given links in name order |
| `Handles.StoreNamed` | src/resource_api/link.py:65-66 | one link name's data stored as specified |
| `Handles.StoreEachNamed` | src/resource_api/link.py:64-66 | the loop stores every validated link in name order |
| `Handles.ClearNamed` | src/resource_api/link.py:45-46 | one link name cleared as specified |
| `Handles.ClearNextNamed` | src/resource_api/link.py:45-46 | one more step of the clearing loop, as specified |
| `Handles.ClearEachNamed` | src/resource_api/link.py:43-46 | the loop clears every link in name order |
| `Handles.WriteBase` | src/resource_api/resource.py:146-152 | the base record's write as specified |
| `Handles.CreateChecked` | src/resource_api/resource.py:145-155 | after the data checks: links validated, record written, links stored; a fresh valid instance carries the generated pk, its record is stored, and every validated link is stored under it |
| `Handles.ResourceInstance.constructor` | src/resource_api/resource.py:165-168 | a new instance with its pk and a fresh link holder that agrees with it |
| `Handles.ResourceInstance.SetPk` | src/resource_api/resource.py:170-173 | the instance and its link holder get the new pk together |
| `Handles.ResourceInstance.Data` | src/resource_api/resource.py:181-190 | the method does exactly what `data` specifies |
| `Handles.ResourceInstance.Update` | src/resource_api/resource.py:201-215 | the method does exactly what `update` specifies |
| `Handles.ResourceInstance.Delete` | src/resource_api/resource.py:217-228 | the method does exactly what `delete` specifies; on a well-formed store no record is left under the pk, nothing is added, and the links end empty as `Resources.DeleteRules` states |
| `Handles.ResourceCollection.constructor` | src/resource_api/resource.py:33-36 | a new collection has its params and nothing fetched |
| `Handles.ResourceCollection.Iter` | src/resource_api/resource.py:41-49 | the first call fetches (gated by `can_get_uris`); later calls change nothing |
| `Handles.ResourceCollection.Next` | src/resource_api/resource.py:60-61 | before iteration AttributeError; at the end StopIteration; otherwise a fresh instance of the next pk |
| `Handles.ResourceCollection.Len` | src/resource_api/resource.py:56-58 | `__iter__` first: a kept listing is reused unchanged, otherwise the gated fetch is stored (or its error returned); the result is the listing's length |
| `Handles.ResourceCollection.At` | src/resource_api/resource.py:51-54 | `__iter__` first, as for `Len`; a key outside [-n, n) is IndexError; otherwise a fresh instance of the pk at that Python index of the listing |
| `Handles.ResourceCollection.Filter` | src/resource_api/resource.py:63-77 | a fresh non-root collection over the merged params, nothing fetched |
| `Handles.ResourceCollection.Count` | src/resource_api/resource.py:79-96 | the method does exactly what `count` specifies |
| `Handles.ResourceCollection.Get` | src/resource_api/resource.py:110-125 | `get` as specified, returning a fresh instance with the deserialized pk |
| `Handles.ResourceCollection.Create` | src/resource_api/resource.py:127-155 | `create` as specified, returning a fresh instance with the generated pk, its record stored and every validated link stored under it |

## Left out

- Date, time, duration and float fields, `ObjectField`, regular expressions (`regex` is taken as not given), descriptions, `Meta` and the `get_schema` renderings of fields: they are text or floating-point formatting, outside the consistency engine. Schema documents carry the schema values themselves.
- Python 2 dict order is unspecified. Dicts are visited in sorted key order wherever the source iterates one. The simulator's tables keep insertion order.
- Python's `1 == True` key collision in dicts and sets is not modelled: values of different types are different keys.
- `long()` of a string also accepts surrounding whitespace and an `L` suffix. The model parses an optional sign (`+` or `-`) followed by at least one digit, with no whitespace and no suffix.
- `defaultdict` namespaces that `get`/`exists` create as a side effect are not modelled as stored entries, because no operation can observe them.
- Services.Service.Setup: on a failed setup the registry is left as it was. The source may leave links half instantiated, which is observable only through `get_schema`.
- Registering a class twice under two human names, or registering after `setup`, is not modelled separately: the registry keeps one resource per class name.
- Link targets given as classes rather than strings, non-link attributes of `Links`, and link names starting with `_` are not modelled: link declarations are a map of link names.
- Backends other than the test simulators (`TestResource`, `TestLink` over `RamStorage`) are not part of this model, and neither are `_get_context` and `_get_user`: the user and the `can_*` predicates are parameters (`Access.Ctx`).
- `serialize` and `serialize_pk` of instances and collections are not modelled; field and schema `serialize` are.
- `LinkInstance` and `ResourceInstance` objects returned by iteration are represented by their pks and their handle, not by separate objects. A link instance's `target` property is `get` on the target pk.
- Links.Validate keeps the raw `@target` value in the validated data, as the source does, rather than the deserialized pk.
- Handles.LinkCollection.Clear: requires a fresh root collection (no params, nothing fetched). `LinkHolder._clear` only ever calls it on one, and iteration inside `_clear` does not advance a cursor that any caller can see.
- Links.ClearOne, Links.ClearAt and Handles.ClearOne: these model the corrected `_clear`, which skips the cascade for a one-way link. The source's version is `Links.ClearOneAsWritten` / `Links.ClearAtAsWritten` (see Findings).
- Links.Unlink: the corrected per-target unlink. For a one-way link it does not read `required` on the missing backward link, where the source raises AttributeError (link.py:306, 456).
- Links.ClearMany: built on the corrected Links.ClearAt, so clearing a non-empty one-way collection succeeds where the source raises AttributeError.
- Links.ClearLinks: built on the corrected clears, so a holder with a one-way link that holds items is cleared where the source raises AttributeError. In the source, links earlier in name order would stay cleared.
- Resources.Delete: built on the corrected Links.ClearLinks. Deleting a resource whose one-way link holds an item succeeds and removes the record, where the source stops at the AttributeError (resource.py:227) with the record still stored.
- Handles.UnlinkTarget: equals the corrected Links.Unlink, not the source's version.
- Handles.ClearAt: equals the corrected Links.ClearAt, not the source's version.
- Handles.ClearEach: runs the corrected Links.ClearAt on each element.
- Handles.LinkCollection.Clear: equals the corrected Links.ClearMany. It also requires a fresh root collection (no params, nothing fetched). `LinkHolder._clear` only ever calls it on one, and iteration inside `_clear` does not advance a cursor that any caller can see.
- Handles.ClearNamed: equals one step of the corrected Links.ClearLinks.
- Handles.ClearNextNamed: one step of the corrected clearing loop.
- Handles.ClearEachNamed: the corrected clearing loop.
- Handles.LinkHolder.Clear: equals the corrected Links.ClearLinks.
- Handles.ResourceInstance.Delete: equals the corrected Resources.Delete. It also requires the instance's invariant (its link holder has its pk); the class constructor and `SetPk` always keep it.
- Fields.Deserialize: a list field reports each failing element at its own position (the corrected loop `Fields.Items`), not at `val.index(item)` as schema.py:455 does. Schemas.Deserialize inherits this.
- Fields.DeserializeList: equals Fields.Deserialize, so it uses the same corrected positions.
- Schemas.Deserialize: a list field's element errors appear at each element's own position, via the corrected `Fields.Deserialize`, not at `val.index(item)` as schema.py:455 does.
- Schemas.DeserializeData: equals Schemas.Deserialize, so it reports list-field element errors at the same corrected positions.
- Fields.RoundTrip: does not cover a list field given None. There the design's round trip does not hold: schema.py:443-446 lets None through, and schema.py:465-466 then iterates it and raises TypeError (`Fields.ListNoneNotSerializable`).
- Fields.RangeChecks: states the corrected range test (any given bound counts), not `min_val or max_val` (schema.py:281), which lets choices with `min_val=0` through.
- Fields.NewIntegerField: equals the integer declaration with the corrected range test, so `IntegerField(choices=[1, 2], min_val=0)` is refused where the source accepts it.
- Fields.IntegerFieldDeclWellDeclared: "no choices together with a bound" holds only of the corrected range test.
- Fields.StringFieldFinishShape: states the corrected length test (any given limit counts), not `min_length or max_length or regex` (schema.py:357), which lets choices with `max_length=0` through.
- Fields.NewStringField: equals the string declaration with the corrected length test, so `StringField(choices=["a"], max_length=0)` is refused where the source accepts it.
- Fields.StringFieldDeclWellDeclared: "no choices together with a length limit" holds only of the corrected length test.
- Links.SetOneReplaces: assumes that every target the link holds is discoverable. Otherwise the source keeps the hidden target, as Links.SetOneKeepsHidden states. It also assumes that the link and its mirror have different names, so that their entries never share a namespace. Handles.SetOne states its second postcondition under the same assumptions.
- Links.ClearOneClears: promises an empty link only when every target it held was discoverable. A hidden target is kept, as Links.ClearOneKeepsHidden states. The same limit holds for Links.ClearNamedClears, Links.ClearLinksClears, Resources.DeleteRules, Handles.LinkHolder.Clear and Handles.ResourceInstance.Delete.
- Links.ClearLinksClears: states the removed mirror entries and cascaded targets one link at a time, through Links.ClearNamedClears, and not over the whole loop. A link cleared earlier in name order can remove entries that a later link holds.
- Links.ClearManyClears, Links.ClearOneClears, Links.ClearNamedClears, Links.ClearLinksClears, Links.SetOneReplaces and Links.SetOneKeepsHidden: require a well-formed store (`Storage.Valid`). `Storage.RamStorage` establishes it and keeps it.
- Handles.LinkCollection.Get and Handles.LinkCollection.Create: require a root collection, since only `RootLinkCollection` defines them. The same holds for Handles.ResourceCollection.Get and Handles.ResourceCollection.Create on `RootResourceCollection`.

## Findings

| source | as written | input that shows it | evidently intended | confidence | as-written member | corrected member |
|---|---|---|---|---|---|---|
| src/resource_api/link.py:303-309 | `LinkToOne._clear` reads `self._backward_link_instance.required`, which is None for a one-way link | a resource with a one-way link to one that holds an item is deleted; `_clear` raises AttributeError before unlinking | a one-way link has no backward side, so no cascade: just remove the entry | not executed | `Links.OneWayClearAsWrittenFails` (over `Links.ClearOneAsWritten`) | `Links.OneWayClearDetaches` (over `Links.ClearOne`) |
| src/resource_api/link.py:454-459 | `RootLinkCollection._clear` reads `self._backward_link_instance.required` for each element, None for a one-way link | a resource with a non-empty one-way link collection is deleted; the first element raises AttributeError | remove each entry, with no cascade for a one-way link | not executed | `Links.OneWayClearAsWrittenFails` (over `Links.ClearAtAsWritten`) | `Links.OneWayClearAtDetaches` (over `Links.ClearAt`) |
| src/resource_api/schema.py:282-284 | `min_val or max_val` is the range test, so a minimum of 0 counts as no range | `IntegerField(choices=[1, 2], min_val=0)` is accepted | choices together with any given bound are refused | not executed | `Fields.ZeroMinimumSlipsThrough` (over `Fields.RangeGivenAsWritten`) | `Fields.RangeChecks` (over `Fields.RangeGiven`) |
| src/resource_api/schema.py:357-360 | `min_length or max_length or regex` is the limit test, so a limit of 0 counts as no limit | `StringField(choices=["a"], max_length=0)` is accepted | choices together with any given length limit are refused | not executed | `Fields.ZeroLengthSlipsThrough` (over `Fields.LengthGivenAsWritten`) | `Fields.StringFieldFinishShape` (over `Fields.LengthGiven`) |
| src/resource_api/schema.py:455 | a failing list element is reported at `val.index(item)`, the first equal element | `ListField(IntegerField(min_val=5))` given `[1, 1]` reports position 0 twice | each failure is reported at its own position | not executed | `Fields.ItemsAsWrittenRepeatsPosition` (over `Fields.ItemsAsWritten`) | `Fields.ItemsErrorPositions` (over `Fields.Items`) |
