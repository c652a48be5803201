/**
 * Python values as they flow through the resource framework: documents,
 * primary keys, query parameters and declaration options.  Only the value
 * kinds the framework core inspects are represented (floats, dates and
 * tuples are not).
 */
module Values {

  datatype Option<T> = None | Some(value: T)

  /** A Python value: None, bool, int/long, unicode string, list or dict with string keys. */
  datatype Value =
    | VNone
    | VBool(b: bool)
    | VInt(i: int)
    | VStr(s: string)
    | VList(items: seq<Value>)
    | VDict(entries: map<string, Value>)

  /** A stored or validated document: a dict with string keys. */
  type Record = map<string, Value>

  /** Python truthiness (`if v:`, `a or b`). */
  predicate Truthy(v: Value)
  {
    match v
    case VNone => false
    case VBool(b) => b
    case VInt(i) => i != 0
    case VStr(s) => s != []
    case VList(xs) => xs != []
    case VDict(m) => m != map[]
  }

  /** Python `a or b`: the first operand when it is truthy, otherwise the second. */
  function Or(a: Value, b: Value): (r: Value)
    ensures Truthy(a) ==> r == a
    ensures !Truthy(a) ==> r == b
  {
    if Truthy(a) then a else b
  }

  /** `dict.get(key)`: the stored value, or None when the key is absent. */
  function Get(m: Record, key: string): (r: Value)
    ensures key in m ==> r == m[key]
    ensures key !in m ==> r == VNone
  {
    if key in m then m[key] else VNone
  }

  /** The integer a bool stands for in arithmetic and comparisons (True is 1). */
  function BoolInt(b: bool): int { if b then 1 else 0 }

  /**
   * Python `==` on values: structural, except that a bool equals the integer
   * it stands for (`True == 1`, `False == 0`), also inside lists and dicts.
   */
  predicate PyEq(a: Value, b: Value)
  {
    match a
    case VNone => b.VNone?
    case VBool(x) => (b.VBool? && b.b == x) || (b.VInt? && b.i == BoolInt(x))
    case VInt(n) => (b.VInt? && b.i == n) || (b.VBool? && n == BoolInt(b.b))
    case VStr(s) => b.VStr? && b.s == s
    case VList(xs) =>
      b.VList? && |xs| == |b.items| && forall i :: 0 <= i < |xs| ==> PyEq(xs[i], b.items[i])
    case VDict(m) =>
      b.VDict? && m.Keys == b.entries.Keys && forall k :: k in m ==> PyEq(m[k], b.entries[k])
  }

  lemma {:induction false} PyEqRefl(a: Value)
    ensures PyEq(a, a)
  {
    match a
    case VList(xs) =>
      forall i | 0 <= i < |xs| ensures PyEq(xs[i], xs[i]) { PyEqRefl(xs[i]); }
    case VDict(m) =>
      forall k | k in m ensures PyEq(m[k], m[k]) { PyEqRefl(m[k]); }
    case _ =>
  }

  lemma {:induction false} PyEqSym(a: Value, b: Value)
    requires PyEq(a, b)
    ensures PyEq(b, a)
  {
    match a
    case VList(xs) =>
      forall i | 0 <= i < |xs| ensures PyEq(b.items[i], xs[i]) { PyEqSym(xs[i], b.items[i]); }
    case VDict(m) =>
      forall k | k in b.entries ensures PyEq(b.entries[k], m[k]) { PyEqSym(m[k], b.entries[k]); }
    case _ =>
  }

  /** Python `x in xs` on a list: membership up to `==`. */
  predicate PyIn(x: Value, xs: seq<Value>)
  {
    exists i :: 0 <= i < |xs| && PyEq(xs[i], x)
  }

  /**
   * Python `xs.index(xs[i])`: the position of the FIRST element equal to the
   * element at position i, which may lie before i when the list repeats a value.
   */
  function FirstIndex(xs: seq<Value>, i: nat): (j: nat)
    requires i < |xs|
    ensures j <= i && PyEq(xs[j], xs[i])
    ensures forall k :: 0 <= k < j ==> !PyEq(xs[k], xs[i])
  {
    FirstIndexFrom(xs, i, 0)
  }

  function FirstIndexFrom(xs: seq<Value>, i: nat, from: nat): (j: nat)
    requires i < |xs| && from <= i
    requires forall k :: 0 <= k < from ==> !PyEq(xs[k], xs[i])
    ensures from <= j <= i && PyEq(xs[j], xs[i])
    ensures forall k :: 0 <= k < j ==> !PyEq(xs[k], xs[i])
    decreases i - from
  {
    if from == i then PyEqRefl(xs[i]); i
    else if PyEq(xs[from], xs[i]) then from
    else FirstIndexFrom(xs, i, from + 1)
  }

  // ---------------------------------------------------------------------
  // Lexicographic order on strings.  Python's `dir()` lists attribute names
  // in this order; where the framework iterates over a dict, whose order
  // Python leaves unspecified, this model fixes the same order.
  // ---------------------------------------------------------------------

  predicate StrLt(a: string, b: string)
  {
    if |a| == 0 then |b| > 0
    else |b| > 0 && (a[0] < b[0] || (a[0] == b[0] && StrLt(a[1..], b[1..])))
  }

  lemma {:induction false} StrLtIrreflexive(a: string)
    ensures !StrLt(a, a)
  {
    if |a| > 0 { StrLtIrreflexive(a[1..]); }
  }

  lemma {:induction false} StrLtTransitive(a: string, b: string, c: string)
    requires StrLt(a, b) && StrLt(b, c)
    ensures StrLt(a, c)
  {
    if |a| > 0 && a[0] == b[0] && b[0] == c[0] {
      StrLtTransitive(a[1..], b[1..], c[1..]);
    }
  }

  lemma {:induction false} StrLtAsymmetric(a: string, b: string)
    requires StrLt(a, b)
    ensures !StrLt(b, a)
  {
    if |a| > 0 && a[0] == b[0] {
      StrLtAsymmetric(a[1..], b[1..]);
    }
  }

  lemma {:induction false} StrLtTotal(a: string, b: string)
    ensures a == b || StrLt(a, b) || StrLt(b, a)
  {
    if |a| > 0 && |b| > 0 && a[0] == b[0] {
      StrLtTotal(a[1..], b[1..]);
      if a[1..] == b[1..] {
        assert a == [a[0]] + a[1..] && b == [b[0]] + b[1..];
      }
    }
  }

  /** m is the least element of s. */
  predicate IsMinimum(m: string, s: set<string>)
  {
    m in s && forall x :: x in s && x != m ==> StrLt(m, x)
  }

  lemma {:induction false} MinimumExists(s: set<string>) returns (m: string)
    requires s != {}
    ensures IsMinimum(m, s)
    decreases |s|
  {
    var y :| y in s;
    if s - {y} == {} {
      assert forall x :: x in s && x != y ==> x in s - {y};
      m := y;
    } else {
      var m' := MinimumExists(s - {y});
      StrLtTotal(m', y);
      if StrLt(m', y) {
        m := m';
      } else {
        forall x | x in s && x != y ensures StrLt(y, x) {
          if x != m' {
            assert x in s - {y};
            StrLtTransitive(y, m', x);
          }
        }
        m := y;
      }
    }
  }

  lemma HasMinimum(s: set<string>)
    requires s != {}
    ensures exists m :: IsMinimum(m, s)
  {
    var m := MinimumExists(s);
  }

  /** The least string of a non-empty finite set. */
  function Minimum(s: set<string>): (m: string)
    requires s != {}
    ensures m in s
    ensures forall x :: x in s && x != m ==> StrLt(m, x)
  {
    HasMinimum(s);
    assert forall a, b :: IsMinimum(a, s) && IsMinimum(b, s) ==> a == b by {
      forall a, b | IsMinimum(a, s) && IsMinimum(b, s) ensures a == b {
        if a != b { StrLtAsymmetric(a, b); }
      }
    }
    var m :| IsMinimum(m, s);
    m
  }

  /** The elements of a finite set of names in ascending order, each exactly once. */
  function SortedKeys(s: set<string>): (r: seq<string>)
    ensures |r| == |s|
    ensures forall x :: x in r <==> x in s
    ensures forall i, j :: 0 <= i < j < |r| ==> StrLt(r[i], r[j])
    decreases |s|
  {
    if s == {} then []
    else
      var m := Minimum(s);
      var rest := SortedKeys(s - {m});
      assert forall x :: x in rest ==> StrLt(m, x);
      [m] + rest
  }

  /** Strictly ascending sequences repeat no element. */
  lemma SortedDistinct(r: seq<string>, i: int, j: int)
    requires forall a, b :: 0 <= a < b < |r| ==> StrLt(r[a], r[b])
    requires 0 <= i < |r| && 0 <= j < |r| && i != j
    ensures r[i] != r[j]
  {
    if i < j { StrLtIrreflexive(r[i]); } else { StrLtIrreflexive(r[j]); }
  }

  /**
   * Walking a set in ascending order, the first element found in a subset
   * is that subset's least element: the first failure of a loop over
   * sorted names is the least failing name.
   */
  lemma FirstInOrder(s: set<string>, bad: set<string>, i: nat)
    requires bad <= s
    requires i < |SortedKeys(s)| && SortedKeys(s)[i] in bad
    requires forall j :: 0 <= j < i ==> SortedKeys(s)[j] !in bad
    ensures Minimum(bad) == SortedKeys(s)[i]
  {
    var ks := SortedKeys(s);
    var m := ks[i];
    forall x | x in bad && x != m ensures StrLt(m, x) {
      var j :| 0 <= j < |ks| && ks[j] == x;
      if j < i { assert ks[j] !in bad; }
    }
    var mm := Minimum(bad);
    if mm != m {
      StrLtAsymmetric(m, mm);
    }
  }

  // ---------------------------------------------------------------------
  // Integer conversion of strings (Python's `long(s)` for decimal text).
  // ---------------------------------------------------------------------

  predicate IsDigit(c: char) { '0' <= c <= '9' }

  /** The value of a string of decimal digits, most significant first. */
  function DigitsValue(ds: string): (n: nat)
    requires forall i :: 0 <= i < |ds| ==> IsDigit(ds[i])
  {
    if ds == [] then 0
    else
      assert IsDigit(ds[|ds| - 1]);
      10 * DigitsValue(ds[..|ds| - 1]) + (ds[|ds| - 1] as int - '0' as int)
  }

  predicate AllDigits(ds: string)
  {
    ds != [] && forall i :: 0 <= i < |ds| ==> IsDigit(ds[i])
  }

  /** `long(s)`: an optional sign followed by at least one decimal digit; anything else fails. */
  function ParseInt(s: string): (r: Option<int>)
    ensures r.Some? ==> |s| > 0
  {
    if |s| > 0 && (s[0] == '-' || s[0] == '+') then
      if AllDigits(s[1..]) then
        Some(if s[0] == '-' then -(DigitsValue(s[1..]) as int) else DigitsValue(s[1..]))
      else None
    else if AllDigits(s) then Some(DigitsValue(s))
    else None
  }

  /** Decimal text of a natural number (what `str(n)` prints). */
  function NatDigits(n: nat): (ds: string)
    ensures ds != []
    ensures forall i :: 0 <= i < |ds| ==> IsDigit(ds[i])
  {
    if n < 10 then [('0' as int + n) as char]
    else NatDigits(n / 10) + [('0' as int + n % 10) as char]
  }

  /** Decimal text of an integer, with a leading minus sign when negative. */
  function IntText(n: int): (s: string)
  {
    if n < 0 then "-" + NatDigits(-n) else NatDigits(n)
  }

  lemma {:induction false} NatDigitsValue(n: nat)
    ensures DigitsValue(NatDigits(n)) == n
  {
    if n >= 10 {
      NatDigitsValue(n / 10);
      var ds := NatDigits(n);
      assert ds[..|ds| - 1] == NatDigits(n / 10);
    }
  }

  /** Decimal text converts back to the integer it was printed from: `long(str(n)) == n`. */
  lemma {:induction false} ParseIntText(n: int)
    ensures ParseInt(IntText(n)) == Some(n)
  {
    if n < 0 {
      NatDigitsValue(-n);
      var s := IntText(n);
      assert s[0] == '-' && s[1..] == NatDigits(-n);
      assert AllDigits(s[1..]);
    } else {
      NatDigitsValue(n);
      var s := NatDigits(n);
      assert AllDigits(s);
      assert s[0] != '-' && s[0] != '+' by { assert IsDigit(s[0]); }
    }
  }
}
