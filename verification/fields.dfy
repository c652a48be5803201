/**
 * Document fields: how a field converts and validates one incoming value,
 * and the consistency checks a field declaration must pass.  Integer,
 * string (length limits only) and boolean fields, and lists of fields.
 */
module Fields {
  import opened Values
  import opened Errors

  /** The Python type a simple field converts its values to. */
  datatype SimpleType = IntType | StrType | BoolType

  /** A field kind with its declared constraints, as stored after declaration-time conversion. */
  datatype FieldKind =
    | IntegerField(choices: Option<seq<Value>>, invalidChoices: Option<seq<Value>>,
                   minVal: Option<int>, maxVal: Option<int>)
    | StringField(choices: Option<seq<Value>>, invalidChoices: Option<seq<Value>>,
                  minLength: Option<int>, maxLength: Option<int>)
    | BooleanField
    | ListField(item: Field)

  /**
   * A declared field.  `default` is VNone when the field has none (a list
   * field never has one); `kwargs` holds the extra declaration options such
   * as `pk`, `readonly` and `changeable`.
   */
  datatype Field = Field(kind: FieldKind, required: bool, default: Value, kwargs: map<string, Value>)

  /** Simple fields (not lists) may contribute a default to a schema. */
  predicate IsSimple(f: Field) { !f.kind.ListField? }

  /** The value has the Python type t converts to. */
  predicate HasType(t: SimpleType, v: Value)
  {
    match t
    case IntType => v.VInt?
    case StrType => v.VStr?
    case BoolType => v.VBool?
  }

  const NotADigit := "Has to be a digit or a string convertable to digit"

  /**
   * `_to_python` of a simple field: None stays None; an integer field accepts
   * strings, ints and bools (True is 1) and parses strings; a string field
   * accepts strings; a boolean field accepts bools (its error text is the
   * integer field's, as in the declaration it copies).
   */
  function Convert(t: SimpleType, v: Value): (r: Result<Value>)
    ensures r.Ok? ==> (r.value == VNone <==> v == VNone)
    ensures r.Ok? && r.value != VNone ==> HasType(t, r.value)
    ensures r.Ok? && HasType(t, v) ==> r.value == v
    ensures r.Err? ==> r.error.kind == ValidationError
  {
    match t
    case IntType =>
      (match v
       case VNone => Ok(VNone)
       case VBool(b) => Ok(VInt(BoolInt(b)))
       case VInt(_) => Ok(v)
       case VStr(s) =>
         (match ParseInt(s)
          case Some(n) => Ok(VInt(n))
          case None => Fail(ValidationError, Fmt("Conversion of value %r failed", [Val(v)])))
       case _ => TextFail(ValidationError, NotADigit))
    case StrType =>
      if v.VNone? || v.VStr? then Ok(v) else TextFail(ValidationError, "Has to be string")
    case BoolType =>
      if v.VNone? || v.VBool? then Ok(v) else TextFail(ValidationError, NotADigit)
  }

  /** `long(v)` of an integer field on the text of a number gives the number back. */
  lemma ConvertIntText(n: int)
    ensures Convert(IntType, VStr(IntText(n))) == Ok(VInt(n))
  {
    ParseIntText(n);
  }

  /** The conversion of each kind; a list field does no conversion of its own. */
  function ToPython(k: FieldKind, v: Value): (r: Result<Value>)
    ensures r.Err? ==> r.error.kind == ValidationError
  {
    match k
    case IntegerField(_, _, _, _) => Convert(IntType, v)
    case StringField(_, _, _, _) => Convert(StrType, v)
    case BooleanField => Convert(BoolType, v)
    case ListField(_) => Ok(v)
  }

  /** A choice list constrains only when it is given and non-empty (Python truthiness). */
  predicate Constrains(cs: Option<seq<Value>>)
  {
    cs.Some? && cs.value != []
  }

  /**
   * `_validate` of a field on an already converted value, with the source's
   * messages in the source's order: required, choices, invalid choices, then
   * the numeric range or the length range.  The maximum-length message
   * repeats the minimum-length wording, as in the source.
   */
  function Validate(f: Field, v: Value): (r: Result<()>)
    ensures r.Err? ==> r.error.kind == ValidationError
  {
    if f.required && v == VNone then TextFail(ValidationError, "Value is required and thus cannot be None")
    else if v == VNone then Ok(())
    else match f.kind
      case IntegerField(cs, ics, lo, hi) =>
        if Constrains(cs) && !PyIn(v, cs.value) then
          Fail(ValidationError, Fmt("Val %r must be one of %r", [Val(v), Val(VList(cs.value))]))
        else if Constrains(ics) && PyIn(v, ics.value) then
          Fail(ValidationError, Fmt("Val %r must NOT be one of %r", [Val(v), Val(VList(ics.value))]))
        else if v.VInt? && lo.Some? && v.i < lo.value then
          Fail(ValidationError, Fmt("Digit %r is too small. Has to be at least %r.", [Val(v), Num(lo.value)]))
        else if v.VInt? && hi.Some? && v.i > hi.value then
          Fail(ValidationError, Fmt("Digit %r is too big. Has to be at max %r.", [Val(v), Num(hi.value)]))
        else Ok(())
      case StringField(cs, ics, lo, hi) =>
        if Constrains(cs) && !PyIn(v, cs.value) then
          Fail(ValidationError, Fmt("Val %r must be one of %r", [Val(v), Val(VList(cs.value))]))
        else if Constrains(ics) && PyIn(v, ics.value) then
          Fail(ValidationError, Fmt("Val %r must NOT be one of %r", [Val(v), Val(VList(ics.value))]))
        else if v.VStr? && lo.Some? && |v.s| < lo.value then
          Fail(ValidationError, Fmt("Length is too small. Is %r has to be at least %r.", [Num(|v.s|), Num(lo.value)]))
        else if v.VStr? && hi.Some? && |v.s| > hi.value then
          Fail(ValidationError, Fmt("Length is too small. Is %r has to be at least %r.", [Num(|v.s|), Num(hi.value)]))
        else Ok(())
      case _ => Ok(())
  }

  /** The constraints a converted value must meet, stated as one conjunction. */
  predicate Admissible(f: Field, v: Value)
  {
    (v == VNone ==> !f.required) &&
    (v != VNone ==>
      match f.kind
      case IntegerField(cs, ics, lo, hi) =>
        (Constrains(cs) ==> PyIn(v, cs.value)) &&
        (Constrains(ics) ==> !PyIn(v, ics.value)) &&
        (v.VInt? && lo.Some? ==> lo.value <= v.i) &&
        (v.VInt? && hi.Some? ==> v.i <= hi.value)
      case StringField(cs, ics, lo, hi) =>
        (Constrains(cs) ==> PyIn(v, cs.value)) &&
        (Constrains(ics) ==> !PyIn(v, ics.value)) &&
        (v.VStr? && lo.Some? ==> lo.value <= |v.s|) &&
        (v.VStr? && hi.Some? ==> |v.s| <= hi.value)
      case _ => true)
  }

  /** A value passes a field's validation exactly when it meets every declared constraint. */
  lemma ValidateAdmissible(f: Field, v: Value)
    ensures Validate(f, v).Ok? <==> Admissible(f, v)
  {
  }

  /** How one list element failed: its position and the element's own error message. */
  function ItemError(pos: nat, m: Msg): Msg
  {
    MsgList([Num(pos), m])
  }

  datatype ItemsOut = ItemsOut(vals: seq<Value>, errs: seq<Msg>)

  /**
   * `deserialize` of a field: conversion then validation for a simple field;
   * for a list field the required check, None passed through, a non-list
   * rejected, and every element deserialized with the element field, the
   * failures collected as [position, message] pairs.
   */
  function Deserialize(f: Field, v: Value): (r: Result<Value>)
    ensures r.Err? ==> r.error.kind == ValidationError
    decreases f, 0
  {
    match f.kind
    case ListField(item) =>
      if f.required && v == VNone then TextFail(ValidationError, "Value is required and thus cannot be None")
      else if v == VNone then Ok(VNone)
      else if !v.VList? then TextFail(ValidationError, "Has to be list")
      else
        var out := Items(item, v.items, |v.items|);
        if out.errs != [] then Fail(ValidationError, MsgList(out.errs)) else Ok(VList(out.vals))
    case _ =>
      match ToPython(f.kind, v)
      case Err(e) => Err(e)
      case Ok(w) =>
        match Validate(f, w)
        case Err(e) => Err(e)
        case Ok(_) => Ok(w)
  }

  /**
   * The loop over the first n elements of a list: successful results in
   * order, and one error per failing element, tagged with its position.
   */
  function Items(item: Field, xs: seq<Value>, n: nat): (out: ItemsOut)
    requires n <= |xs|
    ensures |out.vals| + |out.errs| == n
    decreases item, 1, n
  {
    if n == 0 then ItemsOut([], [])
    else
      var prev := Items(item, xs, n - 1);
      match Deserialize(item, xs[n - 1])
      case Ok(w) => ItemsOut(prev.vals + [w], prev.errs)
      case Err(e) => ItemsOut(prev.vals, prev.errs + [ItemError(n - 1, e.msg)])
  }

  /**
   * The element loop as the source writes it: the position recorded for a
   * failing element is `val.index(item)`, the first element EQUAL to it.
   */
  function ItemsAsWritten(item: Field, xs: seq<Value>, n: nat): (out: ItemsOut)
    requires n <= |xs|
    ensures |out.vals| + |out.errs| == n
    decreases n
  {
    if n == 0 then ItemsOut([], [])
    else
      var prev := ItemsAsWritten(item, xs, n - 1);
      match Deserialize(item, xs[n - 1])
      case Ok(w) => ItemsOut(prev.vals + [w], prev.errs)
      case Err(e) => ItemsOut(prev.vals, prev.errs + [ItemError(FirstIndex(xs, n - 1), e.msg)])
  }

  /** A list whose elements all deserialize yields their results, element by element, and no error. */
  lemma {:induction false} ItemsAllOk(item: Field, xs: seq<Value>, n: nat)
    requires n <= |xs|
    requires forall i :: 0 <= i < n ==> Deserialize(item, xs[i]).Ok?
    ensures Items(item, xs, n).errs == []
    ensures |Items(item, xs, n).vals| == n
    ensures forall i :: 0 <= i < n ==> Items(item, xs, n).vals[i] == Deserialize(item, xs[i]).value
  {
    if n > 0 { ItemsAllOk(item, xs, n - 1); }
  }

  /** The positions of the failing elements among the first n, in increasing order. */
  function FailingIndices(item: Field, xs: seq<Value>, n: nat): (ps: seq<nat>)
    requires n <= |xs|
    ensures forall k :: 0 <= k < |ps| ==> ps[k] < n && Deserialize(item, xs[ps[k]]).Err?
    ensures forall k, l :: 0 <= k < l < |ps| ==> ps[k] < ps[l]
    ensures forall i :: 0 <= i < n && Deserialize(item, xs[i]).Err? ==> i in ps
  {
    if n == 0 then []
    else
      var prev := FailingIndices(item, xs, n - 1);
      if Deserialize(item, xs[n - 1]).Err? then prev + [n - 1] else prev
  }

  /**
   * The errors of the list loop are exactly one per failing element, in
   * list order, each under that element's own position with its own message.
   */
  lemma {:induction false} ItemsErrorPositions(item: Field, xs: seq<Value>, n: nat)
    requires n <= |xs|
    ensures var errs := Items(item, xs, n).errs;
            var ps := FailingIndices(item, xs, n);
            |errs| == |ps| &&
            forall k :: 0 <= k < |ps| ==> errs[k] == ItemError(ps[k], Deserialize(item, xs[ps[k]]).error.msg)
  {
    if n > 0 { ItemsErrorPositions(item, xs, n - 1); }
  }

  /** A list with a failing element makes the whole list fail. */
  lemma {:induction false} ItemsFailure(item: Field, xs: seq<Value>, n: nat, i: nat)
    requires i < n <= |xs| && Deserialize(item, xs[i]).Err?
    ensures Items(item, xs, n).errs != []
  {
    if i < n - 1 { ItemsFailure(item, xs, n - 1, i); }
  }

  /**
   * The source's position for a repeated failing element points at the first
   * copy: in [1, 1] under an integer field with minimum 5, both failures are
   * reported at position 0, whereas the corrected loop reports 0 and 1.
   */
  lemma ItemsAsWrittenRepeatsPosition()
    ensures var item := Field(IntegerField(None, None, Some(5), None), true, VNone, map[]);
            var xs := [VInt(1), VInt(1)];
            ItemsAsWritten(item, xs, 2).errs[1].items[0] == Num(0) &&
            Items(item, xs, 2).errs[1].items[0] == Num(1)
  {
    var item := Field(IntegerField(None, None, Some(5), None), true, VNone, map[]);
    var xs := [VInt(1), VInt(1)];
    assert PyEq(xs[0], xs[1]);
    assert FirstIndex(xs, 1) == 0;
  }

  /**
   * The list-field loop written as a loop: each element is deserialized in
   * turn, successes appended to the result, failures to the error list.
   */
  method DeserializeList(f: Field, v: Value) returns (r: Result<Value>)
    requires f.kind.ListField?
    ensures r == Deserialize(f, v)
  {
    if f.required && v == VNone {
      return TextFail(ValidationError, "Value is required and thus cannot be None");
    }
    if v == VNone {
      return Ok(VNone);
    }
    if !v.VList? {
      return TextFail(ValidationError, "Has to be list");
    }
    var item := f.kind.item;
    var xs := v.items;
    var vals: seq<Value> := [];
    var errs: seq<Msg> := [];
    var i := 0;
    while i < |xs|
      invariant 0 <= i <= |xs|
      invariant ItemsOut(vals, errs) == Items(item, xs, i)
    {
      var d := Deserialize(item, xs[i]);
      if d.Ok? {
        vals := vals + [d.value];
      } else {
        errs := errs + [ItemError(i, d.error.msg)];
      }
      i := i + 1;
    }
    if errs != [] {
      r := Fail(ValidationError, MsgList(errs));
    } else {
      r := Ok(VList(vals));
    }
  }

  /**
   * `serialize` of a field: the value itself, except that a list field
   * serializes each element of what it iterates (a string iterates its
   * characters; a dict its keys, in this model's name order); iterating
   * anything else is a TypeError.
   */
  function Serialize(f: Field, v: Value): (r: Result<Value>)
    ensures !f.kind.ListField? ==> r == Ok(v)
    decreases f, 0
  {
    match f.kind
    case ListField(item) =>
      (match Iterate(v)
       case None => TextFail(TypeError, "object is not iterable")
       case Some(xs) => SerializeAll(item, xs))
    case _ => Ok(v)
  }

  /** What `for x in v` visits: a list's elements, a string's characters, a dict's keys. */
  function Iterate(v: Value): (r: Option<seq<Value>>)
    ensures v.VList? ==> r == Some(v.items)
  {
    match v
    case VList(ys) => Some(ys)
    case VStr(s) => Some(seq(|s|, i requires 0 <= i < |s| => VStr([s[i]])))
    case VDict(m) => var ks := SortedKeys(m.Keys); Some(seq(|ks|, i requires 0 <= i < |ks| => VStr(ks[i])))
    case _ => None
  }

  function SerializeAll(item: Field, xs: seq<Value>): (r: Result<Value>)
    ensures r.Ok? ==> r.value.VList? && |r.value.items| == |xs|
    ensures r.Ok? ==> forall i :: 0 <= i < |xs| ==> Serialize(item, xs[i]) == Ok(r.value.items[i])
    ensures r.Err? <==> exists i :: 0 <= i < |xs| && Serialize(item, xs[i]).Err?
    decreases item, 1, |xs|
  {
    if xs == [] then Ok(VList([]))
    else
      var init := xs[..|xs| - 1];
      assert forall i :: 0 <= i < |init| ==> init[i] == xs[i];
      match SerializeAll(item, init)
      case Err(e) => Err(e)
      case Ok(prev) =>
        match Serialize(item, xs[|xs| - 1])
        case Err(e) => Err(e)
        case Ok(w) => Ok(VList(prev.items + [w]))
  }

  /** A list of simple values serializes to itself. */
  lemma {:induction false} SerializeSimpleList(item: Field, xs: seq<Value>)
    requires IsSimple(item)
    ensures SerializeAll(item, xs) == Ok(VList(xs))
  {
    if xs != [] {
      var init, last := xs[..|xs| - 1], xs[|xs| - 1];
      assert init + [last] == xs;
      SerializeSimpleList(item, init);
      var w := Serialize(item, last);
      assert w == Ok(last);
      assert SerializeAll(item, xs) == Ok(VList(init + [last]));
    }
  }

  /**
   * A value already in the form deserialization produces for the field:
   * None or a value of the field's type for a simple field, and for a list
   * field a list whose every element is in that form for the element field.
   */
  predicate Canonical(f: Field, x: Value)
    decreases f
  {
    match f.kind
    case IntegerField(_, _, _, _) => x == VNone || HasType(IntType, x)
    case StringField(_, _, _, _) => x == VNone || HasType(StrType, x)
    case BooleanField => x == VNone || HasType(BoolType, x)
    case ListField(item) => x.VList? && forall i :: 0 <= i < |x.items| ==> Canonical(item, x.items[i])
  }

  /**
   * Serializing what deserialization accepted gives back the value it was
   * given, when that value is already in deserialized form; nested list
   * fields included.
   */
  lemma {:induction false} RoundTrip(f: Field, x: Value)
    requires Canonical(f, x) && Deserialize(f, x).Ok?
    ensures Serialize(f, Deserialize(f, x).value) == Ok(x)
    decreases f
  {
    match f.kind
    case ListField(item) =>
      var xs := x.items;
      forall i | 0 <= i < |xs|
        ensures Deserialize(item, xs[i]).Ok?
      {
        if Deserialize(item, xs[i]).Err? { ItemsFailure(item, xs, |xs|, i); }
      }
      ItemsAllOk(item, xs, |xs|);
      var ys := Items(item, xs, |xs|).vals;
      assert Deserialize(f, x) == Ok(VList(ys));
      forall i | 0 <= i < |xs|
        ensures Serialize(item, ys[i]) == Ok(xs[i])
      {
        RoundTrip(item, xs[i]);
      }
      var r := SerializeAll(item, ys);
      assert r.Ok?;
      assert r.value.items == xs;
    case _ =>
  }

  /**
   * The round trip breaks for a list field that is not required: None
   * deserializes to None, and serializing None then fails because None
   * cannot be iterated.
   */
  lemma ListNoneNotSerializable(f: Field)
    requires f.kind.ListField? && !f.required
    ensures Deserialize(f, VNone) == Ok(VNone)
    ensures Serialize(f, VNone).Err? && Serialize(f, VNone).error.kind == TypeError
  {
  }

  // ---------------------------------------------------------------------
  // Declaration-time checks
  // ---------------------------------------------------------------------

  /**
   * The loop converting a declared choice list: element i's conversion
   * failure becomes DeclarationError("[i]: ...").
   */
  function ConvertPrefix(t: SimpleType, xs: seq<Value>, n: nat): (r: Result<seq<Value>>)
    requires n <= |xs|
    ensures r.Ok? ==> |r.value| == n && forall i :: 0 <= i < n ==> Convert(t, xs[i]) == Ok(r.value[i])
    ensures r.Err? ==> r.error.kind == DeclarationError && exists i :: 0 <= i < n && Convert(t, xs[i]).Err?
    ensures (forall i :: 0 <= i < n ==> Convert(t, xs[i]).Ok?) ==> r.Ok?
  {
    if n == 0 then Ok([])
    else
      match ConvertPrefix(t, xs, n - 1)
      case Err(e) => Err(e)
      case Ok(ys) =>
        match Convert(t, xs[n - 1])
        case Err(e) => Fail(DeclarationError, Fmt("[%d]: %s", [Num(n - 1), Cause(e)]))
        case Ok(y) => Ok(ys + [y])
  }

  /** Once a prefix of the choice list fails, every longer prefix fails with the same error. */
  lemma {:induction false} ConvertPrefixFailureSticks(t: SimpleType, xs: seq<Value>, i: nat, n: nat)
    requires i <= n <= |xs| && ConvertPrefix(t, xs, i).Err?
    ensures ConvertPrefix(t, xs, n) == ConvertPrefix(t, xs, i)
  {
    if n > i { ConvertPrefixFailureSticks(t, xs, i, n - 1); }
  }

  /** The choice-conversion loop: elements converted in order, stopping at the first failure. */
  method ConvertChoices(t: SimpleType, xs: seq<Value>) returns (r: Result<seq<Value>>)
    ensures r == ConvertPrefix(t, xs, |xs|)
  {
    var ys: seq<Value> := [];
    var i := 0;
    while i < |xs|
      invariant 0 <= i <= |xs|
      invariant ConvertPrefix(t, xs, i) == Ok(ys)
    {
      var c := Convert(t, xs[i]);
      if c.Err? {
        assert ConvertPrefix(t, xs, i + 1) == Fail(DeclarationError, Fmt("[%d]: %s", [Num(i), Cause(c.error)]));
        r := Fail(DeclarationError, Fmt("[%d]: %s", [Num(i), Cause(c.error)]));
        ConvertPrefixFailureSticks(t, xs, i + 1, |xs|);
        return;
      }
      ys := ys + [c.value];
      i := i + 1;
    }
    r := Ok(ys);
  }

  /** The error for a choices option that is not a list (the labels option reuses the choices wording). */
  function NotAListError<T>(isInvalid: bool): (r: Result<T>)
    ensures r.Err? && r.error.kind == DeclarationError
  {
    if isInvalid then TextFail(DeclarationError, "invalid_choices has to be a list or tuple")
    else TextFail(DeclarationError, "choices has to be a list or tuple")
  }

  /** A declared option list: None when not given, otherwise converted element by element. */
  function OptionList(t: SimpleType, xs: Value, isInvalid: bool): (r: Result<Option<seq<Value>>>)
    ensures r.Ok? && r.value.Some? ==> xs.VList? && |r.value.value| == |xs.items|
    ensures r.Ok? && r.value.None? ==> xs == VNone
  {
    if xs == VNone then Ok(None)
    else if !xs.VList? then NotAListError(isInvalid)
    else match ConvertPrefix(t, xs.items, |xs.items|)
      case Err(e) => Err(e)
      case Ok(ys) => Ok(Some(ys))
  }

  /** The elements of cs that also occur in ics. */
  function Common(cs: seq<Value>, ics: seq<Value>): (r: seq<Value>)
    ensures forall x :: x in r ==> x in cs && PyIn(x, ics)
    ensures forall i :: 0 <= i < |cs| && PyIn(cs[i], ics) ==> cs[i] in r
  {
    if cs == [] then []
    else (if PyIn(cs[0], ics) then [cs[0]] else []) + Common(cs[1..], ics)
  }

  /** `choice_labels`, when given, must be a list as long as the (given) choices. */
  function LabelsCheck(cs: Option<seq<Value>>, labels: Value): (r: Result<()>)
    ensures r.Ok? <==> labels == VNone || (labels.VList? && cs.Some? && |cs.value| == |labels.items|)
  {
    if labels == VNone then Ok(())
    else if !labels.VList? then TextFail(DeclarationError, "choices has to be a list or tuple")
    else if cs.None? || |cs.value| != |labels.items| then
      TextFail(DeclarationError, "length of choice_labels has to match with choices.")
    else Ok(())
  }

  /** The default must not be an invalid choice, must be a choice, and no value may be both. */
  function ChoiceChecks(default: Value, cs: Option<seq<Value>>, ics: Option<seq<Value>>): (r: Result<()>)
    ensures r.Ok? ==> default != VNone && Constrains(ics) ==> !PyIn(default, ics.value)
    ensures r.Ok? ==> default != VNone && Constrains(cs) ==> PyIn(default, cs.value)
    ensures r.Ok? ==> Constrains(cs) && Constrains(ics) ==> forall i :: 0 <= i < |cs.value| ==> !PyIn(cs.value[i], ics.value)
    ensures r.Err? ==> r.error.kind == DeclarationError
  {
    if default != VNone && Constrains(ics) && PyIn(default, ics.value) then
      TextFail(DeclarationError, "default value is in invalid_choices")
    else if default != VNone && Constrains(cs) && !PyIn(default, cs.value) then
      TextFail(DeclarationError, "default value is not in choices")
    else if Constrains(cs) && Constrains(ics) && Common(cs.value, ics.value) != [] then
      Fail(DeclarationError, Fmt("these choices are stated as both valid and invalid: %r",
                                 [Val(VList(Common(cs.value, ics.value)))]))
    else Ok(())
  }

  /** Converted choices and invalid choices of an indexable field. */
  datatype Choices = Choices(cs: Option<seq<Value>>, ics: Option<seq<Value>>)

  /** `BaseSimpleField.__init__`: a default the field cannot convert is a DeclarationError. */
  function DefaultDecl(t: SimpleType, default: Value): (r: Result<Value>)
    ensures r.Ok? ==> Convert(t, default) == Ok(r.value)
    ensures r.Err? ==> r.error.kind == DeclarationError
  {
    match Convert(t, default)
    case Err(e) => Fail(DeclarationError, Fmt("default: %s", [Cause(e)]))
    case Ok(d) => Ok(d)
  }

  /**
   * `IndexableField.__init__` after the default: choices, labels, invalid
   * choices, then their consistency.  The option lists are passed already
   * converted; converting has no effect beyond its result, so taking the
   * first failure in source order gives the source's outcome.
   */
  function ChoicesFrom(default: Value, cs: Result<Option<seq<Value>>>, labels: Value,
                       ics: Result<Option<seq<Value>>>): (r: Result<Choices>)
  {
    match cs
    case Err(e) => Err(e)
    case Ok(c) =>
      match LabelsCheck(c, labels)
      case Err(e) => Err(e)
      case Ok(_) =>
        match ics
        case Err(e) => Err(e)
        case Ok(ic) => ChoicesFinish(default, c, ic)
  }

  function ChoicesDecl(t: SimpleType, default: Value, choices: Value, labels: Value, invalid: Value): (r: Result<Choices>)
  {
    ChoicesFrom(default, OptionList(t, choices, false), labels, OptionList(t, invalid, true))
  }

  function ChoicesFinish(default: Value, cs: Option<seq<Value>>, ics: Option<seq<Value>>): (r: Result<Choices>)
    ensures r.Ok? ==> r.value == Choices(cs, ics) && ChoiceChecks(default, cs, ics).Ok?
  {
    match ChoiceChecks(default, cs, ics)
    case Err(e) => Err(e)
    case Ok(_) => Ok(Choices(cs, ics))
  }

  /**
   * The test that forbids choices together with a range, as the source
   * writes it for integer fields: `min_val or max_val` is not None, which
   * misses a minimum of 0 (falsy) when no maximum is given.
   */
  predicate RangeGivenAsWritten(lo: Option<int>, hi: Option<int>)
  {
    (lo.Some? && lo.value != 0) || hi.Some?
  }

  /** The evidently intended test: a minimum or a maximum is given. */
  predicate RangeGiven(lo: Option<int>, hi: Option<int>)
  {
    lo.Some? || hi.Some?
  }

  /** An integer field declared with choices and min_val=0 passes the source's check, but not the intended one. */
  lemma ZeroMinimumSlipsThrough()
    ensures !RangeGivenAsWritten(Some(0), None) && RangeGiven(Some(0), None)
  {
  }

  /** The declared value range, after the numeric consistency checks of DigitField. */
  function RangeChecks(default: Value, cs: Option<seq<Value>>, lo: Option<int>, hi: Option<int>): (r: Result<()>)
    ensures r.Ok? ==> !(cs.Some? && RangeGiven(lo, hi))
    ensures r.Ok? ==> lo.Some? && hi.Some? ==> lo.value <= hi.value
    ensures r.Ok? ==> default.VInt? && lo.Some? ==> lo.value <= default.i
    ensures r.Ok? ==> default.VInt? && hi.Some? ==> default.i <= hi.value
    ensures r.Err? ==> r.error.kind == DeclarationError
  {
    if cs.Some? && RangeGiven(lo, hi) then
      TextFail(DeclarationError, "choices and min or max value limits do not make sense together")
    else if lo.Some? && hi.Some? && hi.value < lo.value then
      TextFail(DeclarationError, "max val is less than min_val")
    else if default.VInt? && lo.Some? && default.i < lo.value then
      TextFail(DeclarationError, "default value is too small")
    else if default.VInt? && hi.Some? && default.i > hi.value then
      TextFail(DeclarationError, "default value is too big")
    else Ok(())
  }

  /** A converted integer bound: None or the integer it converts to (an unconvertible bound fails as a ValidationError, uncaught). */
  function BoundDecl(v: Value): (r: Result<Option<int>>)
    ensures r.Ok? ==> (r.value.None? <==> v == VNone)
  {
    match Convert(IntType, v)
    case Err(e) => Err(e)
    case Ok(w) => if w.VInt? then Ok(Some(w.i)) else Ok(None)
  }

  /** `IntegerField(...)`: the declaration checks of BaseSimpleField, IndexableField and DigitField, in that order. */
  function IntegerFieldDecl(required: bool, default: Value, choices: Value, labels: Value, invalid: Value,
                            minVal: Value, maxVal: Value, kwargs: map<string, Value>): (r: Result<Field>)
  {
    IntegerFieldFrom(required, DefaultDecl(IntType, default), OptionList(IntType, choices, false), labels,
                     OptionList(IntType, invalid, true), minVal, maxVal, kwargs)
  }

  function IntegerFieldFrom(required: bool, d: Result<Value>, cs: Result<Option<seq<Value>>>, labels: Value,
                            ics: Result<Option<seq<Value>>>, minVal: Value, maxVal: Value,
                            kwargs: map<string, Value>): (r: Result<Field>)
  {
    match d
    case Err(e) => Err(e)
    case Ok(dv) =>
      match ChoicesFrom(dv, cs, labels, ics)
      case Err(e) => Err(e)
      case Ok(ch) => IntegerFieldFinish(required, dv, ch, minVal, maxVal, kwargs)
  }

  function IntegerFieldFinish(required: bool, d: Value, ch: Choices, minVal: Value, maxVal: Value,
                              kwargs: map<string, Value>): (r: Result<Field>)
  {
    match BoundDecl(minVal)
    case Err(e) => Err(e)
    case Ok(lo) =>
      match BoundDecl(maxVal)
      case Err(e) => Err(e)
      case Ok(hi) =>
        match RangeChecks(d, ch.cs, lo, hi)
        case Err(e) => Err(e)
        case Ok(_) => Ok(Field(IntegerField(ch.cs, ch.ics, lo, hi), required, d, kwargs))
  }

  /** The declaration of an integer field, with the choice lists converted by a loop. */
  method NewIntegerField(required: bool, default: Value, choices: Value, labels: Value, invalid: Value,
                         minVal: Value, maxVal: Value, kwargs: map<string, Value>) returns (r: Result<Field>)
    ensures r == IntegerFieldDecl(required, default, choices, labels, invalid, minVal, maxVal, kwargs)
  {
    var cs := NewOptionList(IntType, choices, false);
    var ics := NewOptionList(IntType, invalid, true);
    r := IntegerFieldFrom(required, DefaultDecl(IntType, default), cs, labels, ics, minVal, maxVal, kwargs);
  }

  method NewOptionList(t: SimpleType, xs: Value, isInvalid: bool) returns (r: Result<Option<seq<Value>>>)
    ensures r == OptionList(t, xs, isInvalid)
  {
    if xs == VNone { return Ok(None); }
    if !xs.VList? { return NotAListError(isInvalid); }
    var ys := ConvertChoices(t, xs.items);
    if ys.Err? { return Err(ys.error); }
    r := Ok(Some(ys.value));
  }

  /** `int(v)` for a length limit: ints, bools and decimal strings convert; anything else raises. */
  function IntOf(v: Value): (r: Option<int>)
    ensures v.VInt? ==> r == Some(v.i)
  {
    match v
    case VInt(n) => Some(n)
    case VBool(b) => Some(BoolInt(b))
    case VStr(s) => ParseInt(s)
    case _ => None
  }

  /** A length limit after `_set(name, int, val)`: None stays None, a failed `int()` is a DeclarationError. */
  function LengthDecl(name: string, v: Value): (r: Result<Option<int>>)
    ensures r.Ok? ==> (r.value.None? <==> v == VNone)
    ensures r.Err? ==> r.error.kind == DeclarationError
  {
    if v == VNone then Ok(None)
    else match IntOf(v)
      case Some(n) => Ok(Some(n))
      case None => Fail(DeclarationError, Fmt("%s: %s", [Text(name), Text("invalid literal for int()")]))
  }

  /**
   * The test that forbids choices together with length limits, as the source
   * writes it: choices non-empty and `min_length or max_length or regex` not
   * None, which misses limits of 0.
   */
  predicate LengthGivenAsWritten(minLength: Value, maxLength: Value)
  {
    Truthy(minLength) || Truthy(maxLength)
  }

  /** The evidently intended test: a length limit is given. */
  predicate LengthGiven(minLength: Value, maxLength: Value)
  {
    minLength != VNone || maxLength != VNone
  }

  /** A string field declared with choices and max_length=0 passes the source's check, but not the intended one. */
  lemma ZeroLengthSlipsThrough()
    ensures !LengthGivenAsWritten(VNone, VInt(0)) && LengthGiven(VNone, VInt(0))
  {
  }

  /** `StringField(...)`: BaseSimpleField and IndexableField checks, then the length limits. */
  function StringFieldDecl(required: bool, default: Value, choices: Value, labels: Value, invalid: Value,
                           minLength: Value, maxLength: Value, kwargs: map<string, Value>): (r: Result<Field>)
  {
    StringFieldFrom(required, DefaultDecl(StrType, default), OptionList(StrType, choices, false), labels,
                    OptionList(StrType, invalid, true), minLength, maxLength, kwargs)
  }

  function StringFieldFrom(required: bool, d: Result<Value>, cs: Result<Option<seq<Value>>>, labels: Value,
                           ics: Result<Option<seq<Value>>>, minLength: Value, maxLength: Value,
                           kwargs: map<string, Value>): (r: Result<Field>)
  {
    match d
    case Err(e) => Err(e)
    case Ok(dv) =>
      match ChoicesFrom(dv, cs, labels, ics)
      case Err(e) => Err(e)
      case Ok(ch) => StringFieldFinish(required, dv, ch, minLength, maxLength, kwargs)
  }

  function StringFieldFinish(required: bool, d: Value, ch: Choices, minLength: Value, maxLength: Value,
                             kwargs: map<string, Value>): (r: Result<Field>)
  {
    if Constrains(ch.cs) && LengthGiven(minLength, maxLength) then
      TextFail(DeclarationError, "choices and value checkers do not make sense together")
    else
      match LengthDecl("min_length", minLength)
      case Err(e) => Err(e)
      case Ok(lo) =>
        match LengthDecl("max_length", maxLength)
        case Err(e) => Err(e)
        case Ok(hi) => Ok(Field(StringField(ch.cs, ch.ics, lo, hi), required, d, kwargs))
  }

  /** The declaration of a string field, with the choice lists converted by a loop. */
  method NewStringField(required: bool, default: Value, choices: Value, labels: Value, invalid: Value,
                        minLength: Value, maxLength: Value, kwargs: map<string, Value>) returns (r: Result<Field>)
    ensures r == StringFieldDecl(required, default, choices, labels, invalid, minLength, maxLength, kwargs)
  {
    var cs := NewOptionList(StrType, choices, false);
    var ics := NewOptionList(StrType, invalid, true);
    r := StringFieldFrom(required, DefaultDecl(StrType, default), cs, labels, ics, minLength, maxLength, kwargs);
  }

  /** `BooleanField(...)`: only the default is checked. */
  function BooleanFieldDecl(required: bool, default: Value, kwargs: map<string, Value>): (r: Result<Field>)
    ensures r.Ok? <==> default.VNone? || default.VBool?
    ensures r.Ok? ==> r.value == Field(BooleanField, required, default, kwargs)
  {
    match DefaultDecl(BoolType, default)
    case Err(e) => Err(e)
    case Ok(d) => Ok(Field(BooleanField, required, d, kwargs))
  }

  /** `ListField(item_type)`: a list field has no default and no checks of its own. */
  function ListFieldDecl(item: Field, required: bool, kwargs: map<string, Value>): (r: Field)
    ensures r.kind == ListField(item) && r.default == VNone
  {
    Field(ListField(item), required, VNone, kwargs)
  }

  /**
   * What every declared field satisfies: its default, when it has one, has
   * the field's type and meets its choices and range; choices and invalid
   * choices are disjoint; the range is not empty and not combined with choices.
   */
  predicate WellDeclared(f: Field)
  {
    match f.kind
    case IntegerField(cs, ics, lo, hi) =>
      (f.default != VNone ==> f.default.VInt? && Admissible(f.(required := false), f.default)) &&
      (Constrains(cs) && Constrains(ics) ==> forall i :: 0 <= i < |cs.value| ==> !PyIn(cs.value[i], ics.value)) &&
      (lo.Some? && hi.Some? ==> lo.value <= hi.value) &&
      !(cs.Some? && RangeGiven(lo, hi))
    case StringField(cs, ics, lo, hi) =>
      (f.default != VNone ==>
        (f.default.VStr? && (Constrains(cs) ==> PyIn(f.default, cs.value)) &&
         (Constrains(ics) ==> !PyIn(f.default, ics.value)))) &&
      (Constrains(cs) && Constrains(ics) ==> forall i :: 0 <= i < |cs.value| ==> !PyIn(cs.value[i], ics.value)) &&
      !(Constrains(cs) && (lo.Some? || hi.Some?))
    case BooleanField => f.default == VNone || f.default.VBool?
    case ListField(_) => f.default == VNone
  }

  /** Every integer field the declaration accepts is well declared. */
  lemma IntegerFieldDeclWellDeclared(required: bool, default: Value, choices: Value, labels: Value, invalid: Value,
                                     minVal: Value, maxVal: Value, kwargs: map<string, Value>)
    requires IntegerFieldDecl(required, default, choices, labels, invalid, minVal, maxVal, kwargs).Ok?
    ensures WellDeclared(IntegerFieldDecl(required, default, choices, labels, invalid, minVal, maxVal, kwargs).value)
  {
    var d := DefaultDecl(IntType, default).value;
    var ch := ChoicesDecl(IntType, d, choices, labels, invalid).value;
    assert ChoiceChecks(d, ch.cs, ch.ics).Ok?;
  }

  /** Every string field the declaration accepts is well declared. */
  lemma StringFieldDeclWellDeclared(required: bool, default: Value, choices: Value, labels: Value, invalid: Value,
                                    minLength: Value, maxLength: Value, kwargs: map<string, Value>)
    requires StringFieldDecl(required, default, choices, labels, invalid, minLength, maxLength, kwargs).Ok?
    ensures WellDeclared(StringFieldDecl(required, default, choices, labels, invalid, minLength, maxLength, kwargs).value)
  {
    var d := DefaultDecl(StrType, default).value;
    var ch := ChoicesDecl(StrType, d, choices, labels, invalid).value;
    assert ChoiceChecks(d, ch.cs, ch.ics).Ok?;
    StringFieldFinishShape(required, d, ch, minLength, maxLength, kwargs);
  }

  /** The last step of a string field's declaration keeps the choices and the default, and refuses limits beside choices. */
  lemma StringFieldFinishShape(required: bool, d: Value, ch: Choices, minLength: Value, maxLength: Value,
                               kwargs: map<string, Value>)
    requires StringFieldFinish(required, d, ch, minLength, maxLength, kwargs).Ok?
    ensures var f := StringFieldFinish(required, d, ch, minLength, maxLength, kwargs).value;
            f.kind.StringField? && f.kind.choices == ch.cs && f.kind.invalidChoices == ch.ics && f.default == d &&
            !(Constrains(ch.cs) && (f.kind.minLength.Some? || f.kind.maxLength.Some?))
  {
  }

  /** Choice-label lists of the wrong length are rejected at declaration. */
  lemma LabelsMustMatch(t: SimpleType, default: Value, choices: Value, labels: Value, invalid: Value)
    requires ChoicesDecl(t, default, choices, labels, invalid).Ok?
    ensures labels != VNone ==> choices.VList? && labels.VList? && |choices.items| == |labels.items|
  {
    var cs := OptionList(t, choices, false).value;
    assert LabelsCheck(cs, labels).Ok?;
  }
}
