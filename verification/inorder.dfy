/**
 * The two loop shapes the framework uses over names: apply an operation to
 * every entry of a dict in name order, stopping at the first exception;
 * and thread a state through a list of names, stopping at the first
 * exception.  Each is given once as a function, with the loop that
 * computes it proved equal to it.
 */
module InOrder {
  import opened Values
  import opened Errors

  // ---------------------------------------------------------------------
  // Collect: every entry of a dict, in name order
  // ---------------------------------------------------------------------

  /** The names of the entries of m on which f fails. */
  function Failing<D, T>(m: map<string, D>, f: (string, D) -> Result<T>): (bad: set<string>)
    ensures bad <= m.Keys
    ensures forall k :: k in m ==> (k in bad <==> f(k, m[k]).Err?)
  {
    set k | k in m && f(k, m[k]).Err?
  }

  /**
   * f applied to every entry of m: all its results, or the error of the
   * failing entry whose name comes first.
   */
  function Collect<D, T>(m: map<string, D>, f: (string, D) -> Result<T>): (r: Result<map<string, T>>)
    ensures r.Ok? ==> r.value.Keys == m.Keys && forall k :: k in m ==> f(k, m[k]) == Ok(r.value[k])
  {
    var bad := Failing(m, f);
    if bad != {} then
      var k := Minimum(bad);
      Err(f(k, m[k]).error)
    else
      Ok(map k | k in m :: f(k, m[k]).value)
  }

  /**
   * Collecting fails exactly when some entry fails, and then with the error
   * of a failing entry no earlier-named entry of which fails.
   */
  lemma CollectFails<D, T>(m: map<string, D>, f: (string, D) -> Result<T>)
    ensures Collect(m, f).Err? <==> exists k :: k in m && f(k, m[k]).Err?
    ensures Collect(m, f).Err? ==>
              exists k :: k in m && f(k, m[k]) == Err(Collect(m, f).error) &&
                          forall j :: j in m && StrLt(j, k) ==> f(j, m[j]).Ok?
  {
    var bad := Failing(m, f);
    if bad != {} {
      var k := Minimum(bad);
      forall j | j in m && StrLt(j, k) ensures f(j, m[j]).Ok? {
        if j in bad { StrLtAsymmetric(j, k); }
      }
    }
  }

  /** When every entry succeeds, the results are what collecting gives. */
  lemma CollectOk<D, T>(m: map<string, D>, f: (string, D) -> Result<T>, acc: map<string, T>)
    requires acc.Keys == m.Keys && forall k :: k in acc ==> f(k, m[k]) == Ok(acc[k])
    ensures Collect(m, f) == Ok(acc)
  {
    assert Failing(m, f) == {};
    var r := Collect(m, f).value;
    assert forall k | k in r :: r[k] == acc[k];
    assert r == acc;
  }

  /** The first entry to fail, in name order, decides the error. */
  lemma CollectFirstErr<D, T>(m: map<string, D>, f: (string, D) -> Result<T>, i: nat)
    requires i < |SortedKeys(m.Keys)| && f(SortedKeys(m.Keys)[i], m[SortedKeys(m.Keys)[i]]).Err?
    requires forall j :: 0 <= j < i ==> f(SortedKeys(m.Keys)[j], m[SortedKeys(m.Keys)[j]]).Ok?
    ensures Collect(m, f) == Err(f(SortedKeys(m.Keys)[i], m[SortedKeys(m.Keys)[i]]).error)
  {
    FirstInOrder(m.Keys, Failing(m, f), i);
  }

  /** A subset of M holding every element of a listing of M is M. */
  lemma Covered(ks: seq<string>, A: set<string>, M: set<string>)
    requires A <= M && (forall x :: x in ks <==> x in M) && forall j :: 0 <= j < |ks| ==> ks[j] in A
    ensures A == M
  {
    forall k | k in M ensures k in A {
      var j :| 0 <= j < |ks| && ks[j] == k;
    }
  }

  /** The loop: entries in name order, returning at the first failure. */
  method CollectInOrder<D, T>(m: map<string, D>, f: (string, D) -> Result<T>) returns (out: Result<map<string, T>>)
    ensures out == Collect(m, f)
  {
    var ks := SortedKeys(m.Keys);
    var acc: map<string, T> := map[];
    var i := 0;
    while i < |ks|
      invariant 0 <= i <= |ks|
      invariant acc.Keys <= m.Keys
      invariant forall j :: 0 <= j < i ==> ks[j] in acc
      invariant forall k :: k in acc ==> f(k, m[k]) == Ok(acc[k])
    {
      var r := f(ks[i], m[ks[i]]);
      if r.Err? {
        CollectFirstErr(m, f, i);
        return Err(r.error);
      }
      acc := acc[ks[i] := r.value];
      i := i + 1;
    }
    Covered(ks, acc.Keys, m.Keys);
    CollectOk(m, f, acc);
    out := Ok(acc);
  }

  // ---------------------------------------------------------------------
  // Fold: a state threaded through a list of names
  // ---------------------------------------------------------------------

  /** f applied to the state for each of the first n names in turn, stopping at the first error. */
  function Fold<S>(s: S, ks: seq<string>, n: nat, f: (S, string) -> Result<S>): (r: Result<S>)
    requires n <= |ks|
  {
    if n == 0 then Ok(s)
    else
      match Fold(s, ks, n - 1, f)
      case Err(e) => Err(e)
      case Ok(t) => f(t, ks[n - 1])
  }

  /** Once a step fails, that failure is the result of the whole fold. */
  lemma {:induction false} FoldErr<S>(s: S, ks: seq<string>, f: (S, string) -> Result<S>, n: nat, j: nat)
    requires n <= j <= |ks| && Fold(s, ks, n, f).Err?
    ensures Fold(s, ks, j, f) == Fold(s, ks, n, f)
    decreases j - n
  {
    if j > n {
      FoldErr(s, ks, f, n, j - 1);
    }
  }

  /**
   * A property every successful step keeps, and the initial state has,
   * holds of the fold's result.
   */
  lemma {:induction false} FoldKeeps<S>(s: S, ks: seq<string>, n: nat, f: (S, string) -> Result<S>, P: S -> bool)
    requires n <= |ks| && P(s)
    requires forall t, k :: P(t) && f(t, k).Ok? ==> P(f(t, k).value)
    ensures Fold(s, ks, n, f).Ok? ==> P(Fold(s, ks, n, f).value)
  {
    if n > 0 {
      FoldKeeps(s, ks, n - 1, f, P);
    }
  }

  /** The loop: the names in order, returning at the first failure. */
  method FoldInOrder<S>(s: S, ks: seq<string>, f: (S, string) -> Result<S>) returns (out: Result<S>)
    ensures out == Fold(s, ks, |ks|, f)
  {
    var t := s;
    var i := 0;
    while i < |ks|
      invariant 0 <= i <= |ks|
      invariant Fold(s, ks, i, f) == Ok(t)
    {
      var r := f(t, ks[i]);
      if r.Err? {
        FoldErr(s, ks, f, i + 1, |ks|);
        return r;
      }
      t := r.value;
      i := i + 1;
    }
    out := Ok(t);
  }
}
