/**
 * The in-memory storage every test resource and test link keeps its data
 * in: records grouped by namespace and keyed by primary key, plus a log of
 * every call made to it.  A resource's namespace is its qualified name; a
 * link's namespace is the pair (source pk, link name), keyed by target pk.
 */
module Storage {
  import opened Values
  import opened Errors

  datatype Namespace = ResourceNs(resource: string) | LinkNs(pk: Value, link: string)

  /** One entry of the call log, in the order the calls were made. */
  datatype Call =
    | SetCall(ns: Namespace, pk: Value, value: Option<Record>)
    | GetCall(ns: Namespace, pk: Value)
    | ExistsCall(ns: Namespace, pk: Value)
    | DeleteCall(ns: Namespace, pk: Value)
    | GetKeysCall(ns: Namespace, params: Option<Record>)

  /** The records of one namespace, with their pks in the order they were first stored. */
  datatype Table = Table(keys: seq<Value>, rows: map<Value, Record>)

  /** The pk order lists every stored pk exactly once. */
  ghost predicate TableValid(t: Table)
  {
    Distinct(t.keys) && (forall k :: k in t.keys <==> k in t.rows)
  }

  /** The whole store: namespaces (a missing one reads as empty) and the call log. */
  datatype Ram = Ram(items: map<Namespace, Table>, log: seq<Call>)

  /** The outcome of an operation on the store: its result and the store afterwards. */
  datatype Out<T> = Out(res: Result<T>, ram: Ram)

  ghost predicate Valid(ram: Ram)
  {
    forall ns :: ns in ram.items ==> TableValid(ram.items[ns])
  }

  function TableOf(ram: Ram, ns: Namespace): Table
  {
    if ns in ram.items then ram.items[ns] else Table([], map[])
  }

  /** The pk is stored in the namespace. */
  predicate Has(ram: Ram, ns: Namespace, pk: Value)
  {
    pk in TableOf(ram, ns).rows
  }

  /** The stored record, or the empty record when the pk is absent. */
  function Stored(ram: Ram, ns: Namespace, pk: Value): Record
  {
    if Has(ram, ns, pk) then TableOf(ram, ns).rows[pk] else map[]
  }

  function Logged(ram: Ram, c: Call): (r: Ram)
    ensures r.items == ram.items && r.log == ram.log + [c]
  {
    ram.(log := ram.log + [c])
  }

  /** The pk order without pk. */
  function Without(ks: seq<Value>, pk: Value): (r: seq<Value>)
    ensures forall k :: k in r <==> k in ks && k != pk
  {
    if ks == [] then []
    else if ks[0] == pk then Without(ks[1..], pk)
    else [ks[0]] + Without(ks[1..], pk)
  }

  /** No pk occurs twice. */
  ghost predicate Distinct(ks: seq<Value>)
  {
    forall i, j :: 0 <= i < j < |ks| ==> ks[i] != ks[j]
  }

  lemma {:induction false} WithoutDistinct(ks: seq<Value>, pk: Value)
    requires Distinct(ks)
    ensures Distinct(Without(ks, pk))
  {
    if ks != [] {
      var tail := ks[1..];
      assert Distinct(tail) by {
        forall i, j | 0 <= i < j < |tail| ensures tail[i] != tail[j] {
          assert tail[i] == ks[i + 1] && tail[j] == ks[j + 1];
        }
      }
      WithoutDistinct(tail, pk);
      var rest := Without(tail, pk);
      if ks[0] != pk {
        assert ks[0] !in tail by {
          forall j | 0 <= j < |tail| ensures tail[j] != ks[0] { assert tail[j] == ks[j + 1]; }
        }
        var r := [ks[0]] + rest;
        assert Without(ks, pk) == r;
        forall a, b | 0 <= a < b < |r| ensures r[a] != r[b] {
          if a == 0 {
            assert r[0] == ks[0];
            assert r[b] == rest[b - 1];
            assert rest[b - 1] in rest;
          } else {
            assert r[a] == rest[a - 1] && r[b] == rest[b - 1];
          }
        }
      }
    }
  }

  function Put(t: Table, pk: Value, r: Record): Table
  {
    Table(if pk in t.rows then t.keys else t.keys + [pk], t.rows[pk := r])
  }

  function Drop(t: Table, pk: Value): Table
  {
    Table(Without(t.keys, pk), t.rows - {pk})
  }

  // ---------------------------------------------------------------------
  // The five storage calls
  // ---------------------------------------------------------------------

  /**
   * `set`: None stores an empty record; a dict is merged into the stored
   * record (an empty one when the pk is new), its keys winning.
   */
  function SetSpec(ram: Ram, ns: Namespace, pk: Value, value: Option<Record>): (r: Ram)
  {
    var rec := match value case None => map[] case Some(v) => Stored(ram, ns, pk) + v;
    Ram(ram.items[ns := Put(TableOf(ram, ns), pk, rec)], ram.log + [SetCall(ns, pk, value)])
  }

  /** `get`: a copy of the stored record; a missing pk raises KeyError. */
  function GetSpec(ram: Ram, ns: Namespace, pk: Value): (r: Out<Record>)
  {
    var ram' := Logged(ram, GetCall(ns, pk));
    if Has(ram, ns, pk) then Out(Ok(TableOf(ram, ns).rows[pk]), ram')
    else Out(Fail(KeyError, Val(pk)), ram')
  }

  /** `exists`: whether the pk is stored; the call is logged. */
  function ExistsSpec(ram: Ram, ns: Namespace, pk: Value): (r: Out<bool>)
  {
    Out(Ok(Has(ram, ns, pk)), Logged(ram, ExistsCall(ns, pk)))
  }

  /** `delete`: removes the record; a missing pk raises KeyError. */
  function DeleteSpec(ram: Ram, ns: Namespace, pk: Value): (r: Out<()>)
  {
    if Has(ram, ns, pk) then
      Out(Ok(()), Ram(ram.items[ns := Drop(TableOf(ram, ns), pk)], ram.log + [DeleteCall(ns, pk)]))
    else Out(Fail(KeyError, Val(pk)), Logged(ram, DeleteCall(ns, pk)))
  }

  /** `get_keys`: every stored pk of the namespace; the parameters are logged and otherwise ignored. */
  function GetKeysSpec(ram: Ram, ns: Namespace, params: Option<Record>): (r: Out<seq<Value>>)
  {
    Out(Ok(TableOf(ram, ns).keys), Logged(ram, GetKeysCall(ns, params)))
  }

  // ---------------------------------------------------------------------
  // The store as an object
  // ---------------------------------------------------------------------

  class RamStorage {
    var items: map<Namespace, Table>
    var callLog: seq<Call>

    function Model(): Ram
      reads this
    {
      Ram(items, callLog)
    }

    constructor ()
      ensures Model() == Ram(map[], []) && Valid(Model())
    {
      items := map[];
      callLog := [];
    }

    method Set(ns: Namespace, pk: Value, value: Option<Record>)
      modifies this
      ensures Model() == SetSpec(old(Model()), ns, pk, value)
    {
      callLog := callLog + [SetCall(ns, pk, value)];
      var t := if ns in items then items[ns] else Table([], map[]);
      var data: Record := map[];
      if value.Some? {
        if pk in t.rows {
          data := t.rows[pk];
        }
        data := data + value.value;
      }
      items := items[ns := Put(t, pk, data)];
    }

    method Get(ns: Namespace, pk: Value) returns (r: Result<Record>)
      modifies this
      ensures Out(r, Model()) == GetSpec(old(Model()), ns, pk)
    {
      callLog := callLog + [GetCall(ns, pk)];
      var t := if ns in items then items[ns] else Table([], map[]);
      if pk in t.rows {
        r := Ok(t.rows[pk]);
      } else {
        r := Fail(KeyError, Val(pk));
      }
    }

    method Exists(ns: Namespace, pk: Value) returns (b: bool)
      modifies this
      ensures Out(Ok(b), Model()) == ExistsSpec(old(Model()), ns, pk)
    {
      callLog := callLog + [ExistsCall(ns, pk)];
      var t := if ns in items then items[ns] else Table([], map[]);
      b := pk in t.rows;
    }

    method Delete(ns: Namespace, pk: Value) returns (r: Result<()>)
      modifies this
      ensures Out(r, Model()) == DeleteSpec(old(Model()), ns, pk)
    {
      callLog := callLog + [DeleteCall(ns, pk)];
      var t := if ns in items then items[ns] else Table([], map[]);
      if pk in t.rows {
        items := items[ns := Drop(t, pk)];
        r := Ok(());
      } else {
        r := Fail(KeyError, Val(pk));
      }
    }

    method GetKeys(ns: Namespace, params: Option<Record>) returns (ks: seq<Value>)
      modifies this
      ensures Out(Ok(ks), Model()) == GetKeysSpec(old(Model()), ns, params)
    {
      callLog := callLog + [GetKeysCall(ns, params)];
      ks := if ns in items then items[ns].keys else [];
    }
  }

  // ---------------------------------------------------------------------
  // Properties of the store
  // ---------------------------------------------------------------------

  /** Adding a pk to a consistent table keeps it consistent. */
  lemma PutKeepsTableValid(t: Table, pk: Value, r: Record)
    requires TableValid(t)
    ensures TableValid(Put(t, pk, r))
  {
    if pk !in t.rows {
      var ks := t.keys + [pk];
      forall i, j | 0 <= i < j < |ks| ensures ks[i] != ks[j] {
        if j == |ks| - 1 {
          assert ks[i] == t.keys[i] && t.keys[i] in t.keys;
        } else {
          assert ks[i] == t.keys[i] && ks[j] == t.keys[j];
        }
      }
    }
  }

  /** Removing a pk from a consistent table keeps it consistent. */
  lemma DropKeepsTableValid(t: Table, pk: Value)
    requires TableValid(t)
    ensures TableValid(Drop(t, pk))
  {
    WithoutDistinct(t.keys, pk);
  }

  /** A consistent store stays consistent when one namespace is replaced by a consistent table. */
  lemma ReplaceKeepsValid(ram: Ram, ns: Namespace, t: Table, log: seq<Call>)
    requires Valid(ram) && TableValid(t)
    ensures Valid(Ram(ram.items[ns := t], log))
  {
  }

  /** `set` keeps the pk order consistent with the stored records. */
  lemma SetKeepsValid(ram: Ram, ns: Namespace, pk: Value, value: Option<Record>)
    requires Valid(ram)
    ensures Valid(SetSpec(ram, ns, pk, value))
  {
    var t := TableOf(ram, ns);
    var rec := match value case None => map[] case Some(v) => Stored(ram, ns, pk) + v;
    PutKeepsTableValid(t, pk, rec);
    ReplaceKeepsValid(ram, ns, Put(t, pk, rec), ram.log + [SetCall(ns, pk, value)]);
  }

  /** `delete` keeps the pk order consistent with the stored records. */
  lemma DeleteKeepsValid(ram: Ram, ns: Namespace, pk: Value)
    requires Valid(ram)
    ensures Valid(DeleteSpec(ram, ns, pk).ram)
  {
    if Has(ram, ns, pk) {
      var t := TableOf(ram, ns);
      DropKeepsTableValid(t, pk);
      ReplaceKeepsValid(ram, ns, Drop(t, pk), ram.log + [DeleteCall(ns, pk)]);
    }
  }

  /** `get_keys` lists exactly the stored pks, each once. */
  lemma KeysAreStored(ram: Ram, ns: Namespace, params: Option<Record>)
    requires Valid(ram)
    ensures var ks := GetKeysSpec(ram, ns, params).res.value;
            (forall k :: k in ks <==> Has(ram, ns, k)) &&
            Distinct(ks)
  {
  }

  /** Setting None stores an empty record, whatever was stored before. */
  lemma SetNoneEmpties(ram: Ram, ns: Namespace, pk: Value)
    ensures Has(SetSpec(ram, ns, pk, None), ns, pk)
    ensures GetSpec(SetSpec(ram, ns, pk, None), ns, pk).res == Ok(map[])
  {
  }

  /** Setting a dict merges: its keys take its values, other stored keys keep theirs. */
  lemma SetMerges(ram: Ram, ns: Namespace, pk: Value, v: Record, k: string)
    ensures var got := GetSpec(SetSpec(ram, ns, pk, Some(v)), ns, pk).res;
            got.Ok? &&
            (k in v ==> k in got.value && got.value[k] == v[k]) &&
            (k !in v ==> (k in got.value <==> k in Stored(ram, ns, pk)))
  {
  }

  /** A set touches only its own namespace and pk. */
  lemma SetFrame(ram: Ram, ns: Namespace, pk: Value, value: Option<Record>, ns': Namespace, pk': Value)
    requires ns' != ns || pk' != pk
    ensures Has(SetSpec(ram, ns, pk, value), ns', pk') == Has(ram, ns', pk')
    ensures Stored(SetSpec(ram, ns, pk, value), ns', pk') == Stored(ram, ns', pk')
  {
  }

  /** A delete of a stored pk removes exactly that record. */
  lemma DeleteRemoves(ram: Ram, ns: Namespace, pk: Value, ns': Namespace, pk': Value)
    requires Has(ram, ns, pk)
    ensures DeleteSpec(ram, ns, pk).res.Ok?
    ensures !Has(DeleteSpec(ram, ns, pk).ram, ns, pk)
    ensures ns' != ns || pk' != pk ==>
              Has(DeleteSpec(ram, ns, pk).ram, ns', pk') == Has(ram, ns', pk') &&
              Stored(DeleteSpec(ram, ns, pk).ram, ns', pk') == Stored(ram, ns', pk')
  {
  }

  /** Every pk stored before is still stored after. */
  ghost predicate Grows(before: Ram, after: Ram)
  {
    forall ns, pk :: Has(before, ns, pk) ==> Has(after, ns, pk)
  }

  /** Nothing is stored after that was not stored before. */
  ghost predicate Shrinks(before: Ram, after: Ram)
  {
    forall ns, pk :: Has(after, ns, pk) ==> Has(before, ns, pk)
  }

  /** No pk is stored in the namespace. */
  ghost predicate Empty(ram: Ram, ns: Namespace)
  {
    forall pk :: !Has(ram, ns, pk)
  }

  /** `set` only adds: the pk it writes is stored afterwards, and so is everything stored before. */
  lemma SetGrows(ram: Ram, ns: Namespace, pk: Value, value: Option<Record>)
    ensures Has(SetSpec(ram, ns, pk, value), ns, pk)
    ensures Grows(ram, SetSpec(ram, ns, pk, value))
  {
  }

  /** `delete` only removes: the pk it names is not stored afterwards, whether or not it was before. */
  lemma DeleteShrinks(ram: Ram, ns: Namespace, pk: Value)
    ensures !Has(DeleteSpec(ram, ns, pk).ram, ns, pk)
    ensures Shrinks(ram, DeleteSpec(ram, ns, pk).ram)
  {
  }

  /** Getting or deleting a pk that is not stored raises KeyError and changes no record. */
  lemma MissingKeyFails(ram: Ram, ns: Namespace, pk: Value)
    requires !Has(ram, ns, pk)
    ensures GetSpec(ram, ns, pk).res == Fail(KeyError, Val(pk))
    ensures DeleteSpec(ram, ns, pk).res == Fail(KeyError, Val(pk))
    ensures DeleteSpec(ram, ns, pk).ram.items == ram.items
  {
  }

  /** Removing a pk just added to a consistent table gives the table back. */
  lemma DropUndoesPut(t: Table, pk: Value, r: Record)
    requires TableValid(t) && pk !in t.rows
    ensures Drop(Put(t, pk, r), pk) == t
  {
    assert pk !in t.keys;
    WithoutLast(t.keys, pk);
    WithoutAbsent(t.keys, pk);
  }

  /** Deleting a freshly set pk leaves every namespace as it was. */
  lemma DeleteUndoesSet(ram: Ram, ns: Namespace, pk: Value, value: Option<Record>, ns': Namespace)
    requires Valid(ram) && !Has(ram, ns, pk)
    ensures TableOf(DeleteSpec(SetSpec(ram, ns, pk, value), ns, pk).ram, ns') == TableOf(ram, ns')
  {
    var t := TableOf(ram, ns);
    var rec := match value case None => map[] case Some(v) => Stored(ram, ns, pk) + v;
    assert SetSpec(ram, ns, pk, value).items == ram.items[ns := Put(t, pk, rec)];
    DropUndoesPut(t, pk, rec);
  }

  lemma {:induction false} WithoutAbsent(ks: seq<Value>, pk: Value)
    requires pk !in ks
    ensures Without(ks, pk) == ks
  {
    if ks != [] {
      WithoutAbsent(ks[1..], pk);
      assert ks == [ks[0]] + ks[1..];
    }
  }

  lemma {:induction false} WithoutLast(ks: seq<Value>, pk: Value)
    ensures Without(ks + [pk], pk) == Without(ks, pk)
  {
    if ks == [] {
      assert Without([pk], pk) == Without([], pk);
    } else {
      assert (ks + [pk])[1..] == ks[1..] + [pk];
      WithoutLast(ks[1..], pk);
    }
  }

  /** Every call appends exactly one entry to the log, describing that call. */
  lemma OneLogEntryPerCall(ram: Ram, ns: Namespace, pk: Value, value: Option<Record>, params: Option<Record>)
    ensures SetSpec(ram, ns, pk, value).log == ram.log + [SetCall(ns, pk, value)]
    ensures GetSpec(ram, ns, pk).ram.log == ram.log + [GetCall(ns, pk)]
    ensures ExistsSpec(ram, ns, pk).ram.log == ram.log + [ExistsCall(ns, pk)]
    ensures DeleteSpec(ram, ns, pk).ram.log == ram.log + [DeleteCall(ns, pk)]
    ensures GetKeysSpec(ram, ns, params).ram.log == ram.log + [GetKeysCall(ns, params)]
  {
  }

  /** Only `set` and `delete` change records; the three reads only log. */
  lemma ReadsChangeNoRecord(ram: Ram, ns: Namespace, pk: Value, params: Option<Record>)
    ensures GetSpec(ram, ns, pk).ram.items == ram.items
    ensures ExistsSpec(ram, ns, pk).ram.items == ram.items
    ensures GetKeysSpec(ram, ns, params).ram.items == ram.items
  {
  }

  /** `get_keys` ignores its parameters. */
  lemma KeysIgnoreParams(ram: Ram, ns: Namespace, p1: Option<Record>, p2: Option<Record>)
    ensures GetKeysSpec(ram, ns, p1).res == GetKeysSpec(ram, ns, p2).res
  {
  }
}
