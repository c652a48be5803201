/**
 * A document schema: a set of named fields, the names that are required,
 * the defaults of the simple fields, and whether undeclared keys may pass
 * through.  Deserialization builds the result from the defaults, runs
 * every incoming key through its field and collects the errors per key.
 */
module Schemas {
  import opened Values
  import opened Errors
  import Fields

  datatype Schema = Schema(fields: map<string, Fields.Field>, requiredFields: set<string>,
                           defaults: Record, hasAdditionalFields: bool)

  /** Errors collected per key; a key is present only once something was appended to it. */
  type ErrorMap = map<string, seq<Msg>>

  /** The key under which errors not tied to one declared field are reported. */
  const AllKey := "__all__"
  const HasToBeDict := "Has to be a dict"
  const NotDefined := "Field %r is not defined"
  const RequiredMissing := "Required field is missing"

  /** What a constructed schema satisfies: required names and defaults belong to declared fields, defaults are not None. */
  predicate Valid(s: Schema)
  {
    s.requiredFields <= s.fields.Keys &&
    (forall n :: n in s.defaults ==> n in s.fields && Fields.IsSimple(s.fields[n]) && s.defaults[n] != VNone)
  }

  // ---------------------------------------------------------------------
  // Construction
  // ---------------------------------------------------------------------

  /** `_add_field`: record the field; a required field joins the required names, a simple field's default the defaults. */
  function AddField(s: Schema, name: string, f: Fields.Field): (r: Schema)
  {
    Schema(s.fields[name := f],
           if f.required then s.requiredFields + {name} else s.requiredFields,
           if Fields.IsSimple(f) && f.default != VNone then s.defaults[name := f.default] else s.defaults,
           s.hasAdditionalFields)
  }

  /** The schema holding exactly the declared fields named in K. */
  function Declared(decls: map<string, Fields.Field>, K: set<string>, hasAdditionalFields: bool): (s: Schema)
  {
    Schema(map n | n in decls && n in K :: decls[n],
           set n | n in decls && n in K && decls[n].required,
           map n | n in decls && n in K && Fields.IsSimple(decls[n]) && decls[n].default != VNone :: decls[n].default,
           hasAdditionalFields)
  }

  /** Adding one more declared field with `_add_field` extends the schema by that field. */
  lemma AddFieldStep(decls: map<string, Fields.Field>, K: set<string>, name: string, hasAdditionalFields: bool)
    requires name in decls
    ensures AddField(Declared(decls, K, hasAdditionalFields), name, decls[name]) ==
            Declared(decls, K + {name}, hasAdditionalFields)
  {
    var s := Declared(decls, K, hasAdditionalFields);
    var t := Declared(decls, K + {name}, hasAdditionalFields);
    var r := AddField(s, name, decls[name]);
    assert r.fields == t.fields;
    assert r.requiredFields == t.requiredFields;
    assert r.defaults == t.defaults;
  }

  /** With every name declared, the schema holds exactly the declarations and is valid. */
  lemma DeclaredAll(decls: map<string, Fields.Field>, hasAdditionalFields: bool)
    ensures Declared(decls, decls.Keys, hasAdditionalFields).fields == decls
    ensures Valid(Declared(decls, decls.Keys, hasAdditionalFields))
  {
  }

  /** Before any name is added the schema is empty. */
  lemma DeclaredNone(decls: map<string, Fields.Field>, names: seq<string>, hasAdditionalFields: bool)
    ensures Declared(decls, Prefix(names, 0), hasAdditionalFields) == Schema(map[], {}, map[], hasAdditionalFields)
  {
    var s := Declared(decls, Prefix(names, 0), hasAdditionalFields);
    assert Prefix(names, 0) == {};
    assert s.fields == map[];
    assert s.defaults == map[];
  }

  /** Adding the next name of the order extends the schema of the names before it. */
  lemma DeclaredNext(decls: map<string, Fields.Field>, names: seq<string>, i: nat, hasAdditionalFields: bool)
    requires i < |names| && names[i] in decls
    ensures AddField(Declared(decls, Prefix(names, i), hasAdditionalFields), names[i], decls[names[i]]) ==
            Declared(decls, Prefix(names, i + 1), hasAdditionalFields)
  {
    AddFieldStep(decls, Prefix(names, i), names[i], hasAdditionalFields);
    PrefixStep(names, i + 1);
  }

  /**
   * `Schema.__init__`: every declared field, in name order, is added with
   * `_add_field`.  The result holds exactly the declared fields, the
   * required ones, and the defaults that are not None.
   */
  method NewSchema(decls: map<string, Fields.Field>, hasAdditionalFields: bool) returns (s: Schema)
    ensures s == Declared(decls, decls.Keys, hasAdditionalFields)
    ensures s.fields == decls && Valid(s)
  {
    var names := SortedKeys(decls.Keys);
    s := Schema(map[], {}, map[], hasAdditionalFields);
    DeclaredNone(decls, names, hasAdditionalFields);
    var i := 0;
    while i < |names|
      invariant 0 <= i <= |names|
      invariant s == Declared(decls, Prefix(names, i), hasAdditionalFields)
    {
      DeclaredNext(decls, names, i, hasAdditionalFields);
      s := AddField(s, names[i], decls[names[i]]);
      i := i + 1;
    }
    PrefixAll(names, decls.Keys);
    DeclaredAll(decls, hasAdditionalFields);
  }

  // ---------------------------------------------------------------------
  // find_fields
  // ---------------------------------------------------------------------

  /** One keyword pair matches a field when `field.kwargs.get(key) == value`. */
  predicate Matches(f: Fields.Field, key: string, value: Value)
  {
    PyEq(Get(f.kwargs, key), value)
  }

  /** `find_fields(**query)`: the names of the fields matching at least one keyword pair. */
  function FindFields(s: Schema, query: map<string, Value>): (r: set<string>)
    ensures r <= s.fields.Keys
  {
    set n, k | n in s.fields && k in query && Matches(s.fields[n], k, query[k]) :: n
  }

  /** Selection is a union: the fields found for two sets of keyword pairs together are those found for either. */
  lemma FindFieldsUnion(s: Schema, q1: map<string, Value>, q2: map<string, Value>)
    requires q1.Keys !! q2.Keys
    ensures FindFields(s, q1 + q2) == FindFields(s, q1) + FindFields(s, q2)
  {
    var q := q1 + q2;
    forall n | n in FindFields(s, q) ensures n in FindFields(s, q1) + FindFields(s, q2) {
      var k :| k in q && Matches(s.fields[n], k, q[k]);
      if k in q1 { assert n in FindFields(s, q1); } else { assert n in FindFields(s, q2); }
    }
    forall n | n in FindFields(s, q1) + FindFields(s, q2) ensures n in FindFields(s, q) {
      if n in FindFields(s, q1) {
        var k :| k in q1 && Matches(s.fields[n], k, q1[k]);
        assert k in q && q[k] == q1[k];
      } else {
        var k :| k in q2 && Matches(s.fields[n], k, q2[k]);
        assert k in q && q[k] == q2[k];
      }
    }
  }

  /** With one keyword pair, exactly the fields whose option equals the value are found; a field without the option matches only None. */
  lemma FindFieldsSingle(s: Schema, key: string, value: Value, n: string)
    ensures n in FindFields(s, map[key := value]) <==> n in s.fields && Matches(s.fields[n], key, value)
    ensures n in s.fields && key !in s.fields[n].kwargs && value != VNone ==> n !in FindFields(s, map[key := value])
  {
    if n in s.fields && Matches(s.fields[n], key, value) {
      assert key in map[key := value];
    }
  }

  // ---------------------------------------------------------------------
  // deserialize
  // ---------------------------------------------------------------------

  /** `errors[key].append(m)` on a defaultdict of lists. */
  function AddError(errs: ErrorMap, key: string, m: Msg): (r: ErrorMap)
  {
    errs[key := (if key in errs then errs[key] else []) + [m]]
  }

  /** The state of the key loop: the document being built and the errors so far. */
  datatype Acc = Acc(transformed: Record, errors: ErrorMap)

  /**
   * One incoming key: an undeclared key is copied through when the schema
   * allows extra keys and is an `__all__` error otherwise; a declared key
   * stores its deserialized value or records the field's error message.
   */
  function ScanKey(s: Schema, key: string, value: Value, a: Acc): (r: Acc)
  {
    if key !in s.fields then
      if s.hasAdditionalFields then Acc(a.transformed[key := value], a.errors)
      else Acc(a.transformed, AddError(a.errors, AllKey, Fmt(NotDefined, [Val(VStr(key))])))
    else
      match Fields.Deserialize(s.fields[key], value)
      case Ok(w) => Acc(a.transformed[key := w], a.errors)
      case Err(e) => Acc(a.transformed, AddError(a.errors, key, e.msg))
  }

  /** The key loop over the first n keys of ks, starting from the defaults and no errors. */
  function Scan(s: Schema, data: Record, ks: seq<string>, n: nat): (r: Acc)
    requires n <= |ks| && forall i :: 0 <= i < |ks| ==> ks[i] in data
  {
    if n == 0 then Acc(s.defaults, map[])
    else ScanKey(s, ks[n - 1], data[ks[n - 1]], Scan(s, data, ks, n - 1))
  }

  /** The required phase over the first n required names: a name whose value is None or missing, and that has no error yet, gets one. */
  function RequireScan(t: Record, errs: ErrorMap, rs: seq<string>, n: nat): (r: ErrorMap)
    requires n <= |rs|
  {
    if n == 0 then errs
    else
      var e := RequireScan(t, errs, rs, n - 1);
      if Get(t, rs[n - 1]) == VNone && rs[n - 1] !in e then e[rs[n - 1] := [Text(RequiredMissing)]] else e
  }

  /** The key loop over all incoming keys, in name order. */
  function ScanAll(s: Schema, data: Record): (r: Acc)
  {
    var ks := SortedKeys(data.Keys);
    Scan(s, data, ks, |ks|)
  }

  /** The errors deserialize ends with: the key loop's, then the required phase's when it is on. */
  function FinalErrors(s: Schema, data: Record, validateRequired: bool): (r: ErrorMap)
  {
    var a := ScanAll(s, data);
    if validateRequired then
      var rs := SortedKeys(s.requiredFields);
      RequireScan(a.transformed, a.errors, rs, |rs|)
    else a.errors
  }

  /** The ValidationError payload: a dict from key to the list of its messages. */
  function ErrorsMsg(errs: ErrorMap): (m: Msg)
  {
    MsgDict(map k | k in errs :: MsgList(errs[k]))
  }

  /**
   * `Schema.deserialize(data, validate_required_constraint, with_errors)`:
   * anything but a dict is rejected outright; otherwise the document built
   * by the key loop is returned, unless errors were collected and
   * `with_errors` is on.
   */
  function Deserialize(s: Schema, data: Value, validateRequired: bool, withErrors: bool): (r: Result<Record>)
    ensures !data.VDict? ==> r == Fail(ValidationError, MsgDict(map[AllKey := Text(HasToBeDict)]))
    ensures r.Err? ==> r.error.kind == ValidationError
  {
    if !data.VDict? then Fail(ValidationError, MsgDict(map[AllKey := Text(HasToBeDict)]))
    else
      var errs := FinalErrors(s, data.entries, validateRequired);
      if errs != map[] && withErrors then Fail(ValidationError, ErrorsMsg(errs))
      else Ok(ScanAll(s, data.entries).transformed)
  }

  /** The loop over the incoming keys of `Schema.deserialize`. */
  method ScanKeys(s: Schema, m: Record) returns (a: Acc)
    ensures a == ScanAll(s, m)
  {
    var ks := SortedKeys(m.Keys);
    a := Acc(s.defaults, map[]);
    var i := 0;
    while i < |ks|
      invariant 0 <= i <= |ks|
      invariant a == Scan(s, m, ks, i)
    {
      a := ScanKey(s, ks[i], m[ks[i]], a);
      i := i + 1;
    }
  }

  /** The loop over the required names of `Schema.deserialize`. */
  method RequirePhase(t: Record, scanned: ErrorMap, rs: seq<string>) returns (errors: ErrorMap)
    ensures errors == RequireScan(t, scanned, rs, |rs|)
  {
    errors := scanned;
    var j := 0;
    while j < |rs|
      invariant 0 <= j <= |rs|
      invariant errors == RequireScan(t, scanned, rs, j)
    {
      if Get(t, rs[j]) == VNone && rs[j] !in errors {
        errors := errors[rs[j] := [Text(RequiredMissing)]];
      }
      j := j + 1;
    }
  }

  /** `Schema.deserialize` as the source runs it: the loop over the incoming keys, then the loop over the required names. */
  method DeserializeData(s: Schema, data: Value, validateRequired: bool, withErrors: bool) returns (r: Result<Record>)
    ensures r == Deserialize(s, data, validateRequired, withErrors)
  {
    if !data.VDict? {
      return Fail(ValidationError, MsgDict(map[AllKey := Text(HasToBeDict)]));
    }
    var a := ScanKeys(s, data.entries);
    var errors := a.errors;
    if validateRequired {
      errors := RequirePhase(a.transformed, a.errors, SortedKeys(s.requiredFields));
    }
    assert errors == FinalErrors(s, data.entries, validateRequired);
    if errors != map[] && withErrors {
      r := Fail(ValidationError, ErrorsMsg(errors));
    } else {
      r := Ok(a.transformed);
    }
  }

  // ----- what the key loop computes -----

  /** An incoming key is accepted when it is declared and deserializes, or undeclared and extra keys are allowed. */
  predicate Accepts(s: Schema, key: string, value: Value)
  {
    if key in s.fields then Fields.Deserialize(s.fields[key], value).Ok? else s.hasAdditionalFields
  }

  /** The value stored for an accepted key: the deserialized value, or the raw value of an extra key. */
  function AcceptedValue(s: Schema, key: string, value: Value): (v: Value)
    requires Accepts(s, key, value)
  {
    if key in s.fields then Fields.Deserialize(s.fields[key], value).value else value
  }

  /** The accepted keys among K with their stored values. */
  function AcceptedIn(s: Schema, data: Record, K: set<string>): (r: Record)
  {
    map k | k in K && k in data && Accepts(s, k, data[k]) :: AcceptedValue(s, k, data[k])
  }

  /** The set of the first n keys. */
  function Prefix(ks: seq<string>, n: nat): (K: set<string>)
    requires n <= |ks|
  {
    set i | 0 <= i < n :: ks[i]
  }

  lemma PrefixStep(ks: seq<string>, n: nat)
    requires 0 < n <= |ks|
    ensures Prefix(ks, n) == Prefix(ks, n - 1) + {ks[n - 1]}
  {
    forall x | x in Prefix(ks, n) ensures x in Prefix(ks, n - 1) + {ks[n - 1]} {
      var i :| 0 <= i < n && ks[i] == x;
      if i < n - 1 { assert x in Prefix(ks, n - 1); }
    }
  }

  /** Every element of ks is in the set of its first |ks| elements, and nothing else. */
  lemma PrefixAll(ks: seq<string>, K: set<string>)
    requires forall x :: x in ks <==> x in K
    ensures Prefix(ks, |ks|) == K
  {
    forall x | x in K ensures x in Prefix(ks, |ks|) {
      var i :| 0 <= i < |ks| && ks[i] == x;
    }
  }

  lemma AcceptedStep(s: Schema, data: Record, K: set<string>, key: string)
    requires key in data
    ensures Accepts(s, key, data[key]) ==>
              AcceptedIn(s, data, K + {key}) == AcceptedIn(s, data, K)[key := AcceptedValue(s, key, data[key])]
    ensures !Accepts(s, key, data[key]) ==> AcceptedIn(s, data, K + {key}) == AcceptedIn(s, data, K)
  {
  }

  /** The key loop builds the defaults overridden by every accepted key seen so far. */
  lemma {:induction false} ScanTransformed(s: Schema, data: Record, ks: seq<string>, n: nat)
    requires n <= |ks| && forall i :: 0 <= i < |ks| ==> ks[i] in data
    ensures Scan(s, data, ks, n).transformed == s.defaults + AcceptedIn(s, data, Prefix(ks, n))
  {
    if n > 0 {
      ScanTransformed(s, data, ks, n - 1);
      PrefixStep(ks, n);
      var key := ks[n - 1];
      var a := Scan(s, data, ks, n - 1);
      var A := AcceptedIn(s, data, Prefix(ks, n - 1));
      AcceptedStep(s, data, Prefix(ks, n - 1), key);
      ScanKeyTransformed(s, key, data[key], a);
      if Accepts(s, key, data[key]) {
        UnionUpdate(s.defaults, A, key, AcceptedValue(s, key, data[key]));
      }
    }
  }

  /** The key loop's step stores the accepted value of an accepted key and nothing otherwise. */
  lemma ScanKeyTransformed(s: Schema, key: string, value: Value, a: Acc)
    ensures Accepts(s, key, value) ==> ScanKey(s, key, value, a).transformed == a.transformed[key := AcceptedValue(s, key, value)]
    ensures !Accepts(s, key, value) ==> ScanKey(s, key, value, a).transformed == a.transformed
  {
  }

  /** Updating a union updates its right-hand side. */
  lemma UnionUpdate(d: Record, m: Record, key: string, v: Value)
    ensures (d + m)[key := v] == d + m[key := v]
  {
  }

  /** The key loop records an error exactly when some key seen so far was rejected. */
  lemma {:induction false} ScanClean(s: Schema, data: Record, ks: seq<string>, n: nat)
    requires n <= |ks| && forall i :: 0 <= i < |ks| ==> ks[i] in data
    ensures Scan(s, data, ks, n).errors == map[] <==> forall i :: 0 <= i < n ==> Accepts(s, ks[i], data[ks[i]])
  {
    if n > 0 {
      ScanClean(s, data, ks, n - 1);
      var key := ks[n - 1];
      if !Accepts(s, key, data[key]) {
        if key in s.fields {
          assert key in Scan(s, data, ks, n).errors;
        } else {
          assert AllKey in Scan(s, data, ks, n).errors;
        }
      } else if Scan(s, data, ks, n - 1).errors != map[] {
        var k :| k in Scan(s, data, ks, n - 1).errors;
        assert k in Scan(s, data, ks, n).errors;
      }
    }
  }

  /** The key loop never drops an error once recorded, and only ever appends to a key's messages. */
  lemma {:induction false} ScanErrorsGrow(s: Schema, data: Record, ks: seq<string>, n: nat, m: nat, k: string)
    requires m <= n <= |ks| && forall i :: 0 <= i < |ks| ==> ks[i] in data
    requires k in Scan(s, data, ks, m).errors
    ensures k in Scan(s, data, ks, n).errors
    ensures Scan(s, data, ks, m).errors[k] <= Scan(s, data, ks, n).errors[k]
  {
    if m < n {
      ScanErrorsGrow(s, data, ks, n - 1, m, k);
      ScanKeyKeepsErrors(s, ks[n - 1], data[ks[n - 1]], Scan(s, data, ks, n - 1), k);
    }
  }

  /** One step of the key loop keeps every recorded error and only appends to its messages. */
  lemma ScanKeyKeepsErrors(s: Schema, key: string, value: Value, a: Acc, k: string)
    requires k in a.errors
    ensures k in ScanKey(s, key, value, a).errors
    ensures a.errors[k] <= ScanKey(s, key, value, a).errors[k]
  {
  }

  /** An undeclared key, when extra keys are not allowed, is reported under `__all__`. */
  lemma UndeclaredKeyError(s: Schema, data: Record, k: string)
    requires k in data && k !in s.fields && !s.hasAdditionalFields
    ensures AllKey in ScanAll(s, data).errors
    ensures Fmt(NotDefined, [Val(VStr(k))]) in ScanAll(s, data).errors[AllKey]
  {
    var ks := SortedKeys(data.Keys);
    var i :| 0 <= i < |ks| && ks[i] == k;
    var msg := Fmt(NotDefined, [Val(VStr(k))]);
    UndeclaredKeyStep(s, k, data[k], Scan(s, data, ks, i));
    var m := Scan(s, data, ks, i + 1).errors[AllKey];
    ScanErrorsGrow(s, data, ks, |ks|, i + 1, AllKey);
    var final := ScanAll(s, data).errors[AllKey];
    assert final[|m| - 1] == msg;
  }

  /** The key loop's step on an undeclared key, when extra keys are not allowed, ends the `__all__` messages with it. */
  lemma UndeclaredKeyStep(s: Schema, k: string, value: Value, a: Acc)
    requires k !in s.fields && !s.hasAdditionalFields
    ensures AllKey in ScanKey(s, k, value, a).errors
    ensures var m := ScanKey(s, k, value, a).errors[AllKey];
            |m| > 0 && m[|m| - 1] == Fmt(NotDefined, [Val(VStr(k))])
  {
  }

  /**
   * A declared key other than `__all__` carries an error exactly when its
   * field rejects the incoming value, and then exactly that field's message
   * (each key is visited once).
   */
  lemma {:induction false} ScanFieldErrors(s: Schema, data: Record, ks: seq<string>, n: nat, k: string)
    requires n <= |ks| && forall i :: 0 <= i < |ks| ==> ks[i] in data
    requires forall i, j :: 0 <= i < j < |ks| ==> ks[i] != ks[j]
    requires k != AllKey
    ensures k in Scan(s, data, ks, n).errors <==>
              k in Prefix(ks, n) && k in s.fields && Fields.Deserialize(s.fields[k], data[k]).Err?
    ensures k in Scan(s, data, ks, n).errors ==>
              Scan(s, data, ks, n).errors[k] == [Fields.Deserialize(s.fields[k], data[k]).error.msg]
  {
    if n > 0 {
      ScanFieldErrors(s, data, ks, n - 1, k);
      PrefixStep(ks, n);
      if ks[n - 1] == k {
        assert k !in Prefix(ks, n - 1);
      }
    }
  }

  /** The whole key loop: each declared key other than `__all__` has an error exactly when its field rejects it. */
  lemma FieldErrorExactly(s: Schema, data: Record, k: string)
    requires k != AllKey
    ensures k in ScanAll(s, data).errors <==>
              k in data && k in s.fields && Fields.Deserialize(s.fields[k], data[k]).Err?
    ensures k in ScanAll(s, data).errors ==>
              ScanAll(s, data).errors[k] == [Fields.Deserialize(s.fields[k], data[k]).error.msg]
  {
    var ks := SortedKeys(data.Keys);
    forall i, j | 0 <= i < j < |ks| ensures ks[i] != ks[j] { SortedDistinct(ks, i, j); }
    ScanFieldErrors(s, data, ks, |ks|, k);
    PrefixAll(ks, data.Keys);
  }

  /** The key loop's document over all incoming keys. */
  lemma ScanAllTransformed(s: Schema, data: Record)
    ensures ScanAll(s, data).transformed == s.defaults + AcceptedIn(s, data, data.Keys)
    ensures ScanAll(s, data).errors == map[] <==> forall k :: k in data ==> Accepts(s, k, data[k])
  {
    ScanAllDocument(s, data);
    ScanAllClean(s, data);
  }

  lemma ScanAllDocument(s: Schema, data: Record)
    ensures ScanAll(s, data).transformed == s.defaults + AcceptedIn(s, data, data.Keys)
  {
    var ks := SortedKeys(data.Keys);
    ScanTransformed(s, data, ks, |ks|);
    PrefixAll(ks, data.Keys);
  }

  lemma ScanAllClean(s: Schema, data: Record)
    ensures ScanAll(s, data).errors == map[] <==> forall k :: k in data ==> Accepts(s, k, data[k])
  {
    var ks := SortedKeys(data.Keys);
    ScanClean(s, data, ks, |ks|);
    if forall i :: 0 <= i < |ks| ==> Accepts(s, ks[i], data[ks[i]]) {
      forall k | k in data ensures Accepts(s, k, data[k]) {
        var i :| 0 <= i < |ks| && ks[i] == k;
      }
    }
  }

  /**
   * The required phase: a required name with no value (or None) and no
   * error so far gets "Required field is missing"; every earlier error is
   * kept as it was; nothing else is added.
   */
  lemma {:induction false} RequireScanSpec(t: Record, errs: ErrorMap, rs: seq<string>, n: nat, f: string)
    requires n <= |rs|
    ensures forall k :: k in errs ==> k in RequireScan(t, errs, rs, n) && RequireScan(t, errs, rs, n)[k] == errs[k]
    ensures f in RequireScan(t, errs, rs, n) <==> f in errs || (f in rs[..n] && Get(t, f) == VNone)
    ensures f !in errs && f in RequireScan(t, errs, rs, n) ==> RequireScan(t, errs, rs, n)[f] == [Text(RequiredMissing)]
  {
    if n > 0 {
      RequireScanSpec(t, errs, rs, n - 1, f);
      assert rs[..n] == rs[..n - 1] + [rs[n - 1]];
    }
  }

  /** The required phase over all required names of the schema. */
  lemma FinalErrorsSpec(s: Schema, data: Record, f: string)
    ensures var a := ScanAll(s, data);
            var errs := FinalErrors(s, data, true);
            (forall k :: k in a.errors ==> k in errs && errs[k] == a.errors[k]) &&
            (f in errs <==> f in a.errors || (f in s.requiredFields && Get(a.transformed, f) == VNone)) &&
            (f !in a.errors && f in errs ==> errs[f] == [Text(RequiredMissing)])
  {
    var a := ScanAll(s, data);
    var rs := SortedKeys(s.requiredFields);
    RequireScanSpec(a.transformed, a.errors, rs, |rs|, f);
    assert rs[..|rs|] == rs;
  }

  // ----- what deserialize returns -----

  /** Every key is accepted, and (when required checking is on) every required name has a value other than None. */
  predicate Clean(s: Schema, data: Record, validateRequired: bool)
  {
    (forall k :: k in data ==> Accepts(s, k, data[k])) &&
    (validateRequired ==>
       forall f :: f in s.requiredFields ==> Get(s.defaults + AcceptedIn(s, data, data.Keys), f) != VNone)
  }

  /** A successful deserialize returns the defaults overridden by every accepted key. */
  lemma DeserializeValue(s: Schema, data: Value, validateRequired: bool, withErrors: bool)
    requires Deserialize(s, data, validateRequired, withErrors).Ok?
    ensures data.VDict?
    ensures Deserialize(s, data, validateRequired, withErrors).value ==
              s.defaults + AcceptedIn(s, data.entries, data.entries.Keys)
  {
    ScanAllTransformed(s, data.entries);
  }

  /** After the required phase no error remains exactly when the key loop found none and every required name has a value. */
  lemma FinalErrorsEmpty(s: Schema, data: Record)
    ensures FinalErrors(s, data, true) == map[] <==>
              ScanAll(s, data).errors == map[] &&
              forall f :: f in s.requiredFields ==> Get(ScanAll(s, data).transformed, f) != VNone
  {
    var a := ScanAll(s, data);
    var errs := FinalErrors(s, data, true);
    if errs == map[] {
      forall f | f in s.requiredFields ensures Get(a.transformed, f) != VNone {
        FinalErrorsSpec(s, data, f);
      }
      if a.errors != map[] {
        var k :| k in a.errors;
        FinalErrorsSpec(s, data, k);
      }
    } else {
      var f :| f in errs;
      FinalErrorsSpec(s, data, f);
    }
  }

  /** With errors raised, deserialize of a dict succeeds exactly when the document is clean. */
  lemma DeserializeOkIff(s: Schema, data: Record, validateRequired: bool)
    ensures Deserialize(s, VDict(data), validateRequired, true).Ok? <==> Clean(s, data, validateRequired)
  {
    ScanAllTransformed(s, data);
    if validateRequired { FinalErrorsEmpty(s, data); }
  }

  /** With `with_errors=False` deserialize of a dict never fails, and returns defaults plus the accepted keys only. */
  lemma DeserializeLenient(s: Schema, data: Record, validateRequired: bool)
    ensures Deserialize(s, VDict(data), validateRequired, false) ==
              Ok(s.defaults + AcceptedIn(s, data, data.Keys))
  {
    ScanAllTransformed(s, data);
  }

  /**
   * A required field with a default is satisfied by the default when the
   * document leaves it out: the required phase adds nothing under its name
   * (which then has no error at all, unless it is `__all__`).
   */
  lemma DefaultSatisfiesRequired(s: Schema, data: Record, f: string)
    requires Valid(s) && f in s.requiredFields && f in s.defaults && f !in data
    ensures f in FinalErrors(s, data, true) <==> f in ScanAll(s, data).errors
    ensures f != AllKey ==> f !in FinalErrors(s, data, true)
  {
    ScanAllTransformed(s, data);
    assert Get(ScanAll(s, data).transformed, f) == s.defaults[f];
    FinalErrorsSpec(s, data, f);
    if f != AllKey { FieldErrorExactly(s, data, f); }
  }

  /**
   * A required field left out with no default fails with "Required field
   * is missing" under its own name, when it has no other error.
   */
  lemma MissingRequiredReported(s: Schema, data: Record, f: string)
    requires f in s.requiredFields && f !in s.defaults && f !in data && f != AllKey
    ensures var r := Deserialize(s, VDict(data), true, true);
            r.Err? && r.error.msg.MsgDict? && f in r.error.msg.entries &&
            r.error.msg.entries[f] == MsgList([Text(RequiredMissing)])
  {
    ScanAllTransformed(s, data);
    FieldErrorExactly(s, data, f);
    FinalErrorsSpec(s, data, f);
  }

  /** With extra keys allowed, an undeclared key is copied through unchanged. */
  lemma AdditionalKeyCopied(s: Schema, data: Record, k: string, validateRequired: bool, withErrors: bool)
    requires k in data && k !in s.fields && s.hasAdditionalFields
    requires Deserialize(s, VDict(data), validateRequired, withErrors).Ok?
    ensures var r := Deserialize(s, VDict(data), validateRequired, withErrors).value;
            k in r && r[k] == data[k]
  {
    ScanAllTransformed(s, data);
  }

  /** Without extra keys allowed, an undeclared key makes deserialize fail when errors are raised. */
  lemma UndeclaredKeyRejected(s: Schema, data: Record, k: string, validateRequired: bool)
    requires k in data && k !in s.fields && !s.hasAdditionalFields
    ensures var r := Deserialize(s, VDict(data), validateRequired, true);
            r.Err? && r.error.msg.MsgDict? && AllKey in r.error.msg.entries
  {
    UndeclaredKeyError(s, data, k);
    if validateRequired { FinalErrorsSpec(s, data, AllKey); }
  }

  // ---------------------------------------------------------------------
  // serialize
  // ---------------------------------------------------------------------

  /** The key loop of `serialize` over the first n keys: declared keys through their field, extra keys copied when allowed, others dropped. */
  function SerializeScan(s: Schema, val: Record, ks: seq<string>, n: nat): (r: Result<Record>)
    requires n <= |ks| && forall i :: 0 <= i < |ks| ==> ks[i] in val
  {
    if n == 0 then Ok(map[])
    else
      match SerializeScan(s, val, ks, n - 1)
      case Err(e) => Err(e)
      case Ok(prev) =>
        var key := ks[n - 1];
        if key in s.fields then
          match Fields.Serialize(s.fields[key], val[key])
          case Err(e) => Err(e)
          case Ok(w) => Ok(prev[key := w])
        else if s.hasAdditionalFields then Ok(prev[key := val[key]])
        else Ok(prev)
  }

  /** `Schema.serialize`: keys are visited in name order; a field that cannot serialize its value fails the whole call. */
  function Serialize(s: Schema, val: Record): (r: Result<Record>)
  {
    var ks := SortedKeys(val.Keys);
    SerializeScan(s, val, ks, |ks|)
  }

  /** The keys serialize keeps: the declared ones, and the others only when extra keys are allowed. */
  predicate Kept(s: Schema, k: string)
  {
    k in s.fields || s.hasAdditionalFields
  }

  lemma {:induction false} SerializeScanSpec(s: Schema, val: Record, ks: seq<string>, n: nat)
    requires n <= |ks| && forall i :: 0 <= i < |ks| ==> ks[i] in val
    ensures SerializeScan(s, val, ks, n).Ok? <==>
              forall i :: 0 <= i < n && ks[i] in s.fields ==> Fields.Serialize(s.fields[ks[i]], val[ks[i]]).Ok?
    ensures SerializeScan(s, val, ks, n).Ok? ==>
              var r := SerializeScan(s, val, ks, n).value;
              (forall k :: k in r <==> k in Prefix(ks, n) && Kept(s, k)) &&
              (forall k :: k in r && k in s.fields ==> r[k] == Fields.Serialize(s.fields[k], val[k]).value) &&
              (forall k :: k in r && k !in s.fields ==> r[k] == val[k])
  {
    if n > 0 {
      SerializeScanSpec(s, val, ks, n - 1);
      PrefixStep(ks, n);
    }
  }

  /**
   * `serialize` succeeds exactly when every declared key's field can
   * serialize its value; the result keeps the declared keys (serialized by
   * their fields) and, when extra keys are allowed, the others unchanged.
   */
  lemma SerializeSpec(s: Schema, val: Record)
    ensures Serialize(s, val).Ok? <==>
              forall k :: k in val && k in s.fields ==> Fields.Serialize(s.fields[k], val[k]).Ok?
    ensures Serialize(s, val).Ok? ==>
              var r := Serialize(s, val).value;
              (forall k :: k in r <==> k in val && Kept(s, k)) &&
              (forall k :: k in r && k in s.fields ==> r[k] == Fields.Serialize(s.fields[k], val[k]).value) &&
              (forall k :: k in r && k !in s.fields ==> r[k] == val[k])
  {
    var ks := SortedKeys(val.Keys);
    SerializeScanSpec(s, val, ks, |ks|);
    PrefixAll(ks, val.Keys);
    if forall k :: k in val && k in s.fields ==> Fields.Serialize(s.fields[k], val[k]).Ok? {
      assert forall i :: 0 <= i < |ks| && ks[i] in s.fields ==> Fields.Serialize(s.fields[ks[i]], val[ks[i]]).Ok?;
    }
  }
}
