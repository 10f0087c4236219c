/** Vocabulary shared by every model: optional values, rounding and sums over tables. */
module Common {

  datatype Option<+T> = None | Some(value: T)

  function Or<T>(v: Option<T>, default: T): T {
    if v.Some? then v.value else default
  }

  function Min(a: int, b: int): int {
    if a < b then a else b
  }

  function Max(a: int, b: int): int {
    if a < b then b else a
  }

  ghost predicate Distinct<T>(s: seq<T>) {
    forall i, j :: 0 <= i < j < |s| ==> s[i] != s[j]
  }

  function Abs(x: int): nat {
    if x < 0 then -x else x
  }

  /** n / d rounded to the nearest integer, ties away from zero: how a NUMERIC column stores a longer decimal. */
  function RoundHalfAway(n: int, d: nat): (r: int)
    requires d > 0
    ensures 2 * Abs(n - d * r) <= d
  {
    if n >= 0 then (2 * n + d) / (2 * d) else -((-2 * n + d) / (2 * d))
  }

  /** Math.round of n / d: to the nearest, halves upwards. */
  function MathRound(n: int, d: nat): (r: int)
    requires d > 0
    ensures 0 - d <= 2 * (n - d * r) < d
  {
    (2 * n + d) / (2 * d)
  }

  /** Math.round of a real number. */
  function RoundReal(x: real): (r: int)
    ensures r as real - 0.5 <= x < r as real + 0.5
  {
    (x + 0.5).Floor
  }

  /** The total of the amounts of a table, in no particular order. */
  ghost function Sum<K>(m: map<K, int>): int
    decreases |m|
  {
    if m.Keys == {} then 0 else
      var k :| k in m;
      assert (m - {k}).Keys == m.Keys - {k};
      m[k] + Sum(m - {k})
  }

  /** Sum does not depend on which row is taken first. */
  lemma {:induction false} SumRemove<K>(m: map<K, int>, k: K)
    requires k in m
    ensures Sum(m) == m[k] + Sum(m - {k})
    decreases |m|
  {
    var j :| j in m && Sum(m) == m[j] + Sum(m - {j});
    assert (m - {k}).Keys == m.Keys - {k};
    assert (m - {j}).Keys == m.Keys - {j};
    if j != k {
      SumRemove(m - {j}, k);
      SumRemove(m - {k}, j);
      assert (m - {j}) - {k} == (m - {k}) - {j};
    }
  }

  lemma SumInsert<K>(m: map<K, int>, k: K, v: int)
    requires k !in m
    ensures Sum(m[k := v]) == Sum(m) + v
  {
    SumRemove(m[k := v], k);
    assert m[k := v] - {k} == m;
  }

  lemma SumEmpty<K>(m: map<K, int>)
    requires m.Keys == {}
    ensures Sum(m) == 0
  {}

  lemma {:induction false} SumMerge<K>(a: map<K, int>, b: map<K, int>)
    requires a.Keys !! b.Keys
    ensures Sum(a + b) == Sum(a) + Sum(b)
    decreases |a|
  {
    hide Sum;
    if a.Keys == {} {
      SumEmpty(a);
      assert a + b == b;
    } else {
      var k :| k in a;
      var rest := a - {k};
      assert rest.Keys == a.Keys - {k};
      SumMerge(rest, b);
      SumRemove(a, k);
      MergeSplit(a, b, k);
      SumInsert(rest + b, k, a[k]);
    }
  }

  lemma MergeSplit<K>(a: map<K, int>, b: map<K, int>, k: K)
    requires a.Keys !! b.Keys && k in a
    ensures a + b == (a - {k} + b)[k := a[k]]
  {}

  function Image<K, L>(keys: set<K>, f: K -> L): set<L> {
    set k | k in keys :: f(k)
  }

  lemma {:induction false} ImageSize<K, L>(keys: set<K>, f: K -> L)
    requires OneToOne(keys, f)
    ensures |Image(keys, f)| == |keys|
    decreases |keys|
  {
    if keys == {} {
      assert Image(keys, f) == {};
    } else {
      var k :| k in keys;
      ImageSize(keys - {k}, f);
      assert Image(keys, f) == Image(keys - {k}, f) + {f(k)};
      assert f(k) !in Image(keys - {k}, f);
    }
  }

  /** A key that f renames to l; the only one when f is one to one on the keys. */
  ghost function Origin<K, L>(keys: set<K>, f: K -> L, l: L): K
    requires l in Image(keys, f)
  {
    var k :| k in keys && f(k) == l;
    k
  }

  ghost predicate OneToOne<K, L>(keys: set<K>, f: K -> L) {
    forall p, q :: p in keys && q in keys && f(p) == f(q) ==> p == q
  }

  /** The table m with each key k replaced by f(k). */
  ghost function Renamed<K, L>(m: map<K, int>, f: K -> L): map<L, int> {
    map l | l in Image(m.Keys, f) :: m[Origin(m.Keys, f, l)]
  }

  lemma OriginOf<K, L>(keys: set<K>, f: K -> L, k: K)
    requires OneToOne(keys, f) && k in keys
    ensures f(k) in Image(keys, f) && Origin(keys, f, f(k)) == k
  {}

  /** Renaming the rows of a table one to one keeps its total. */
  lemma {:induction false} SumRename<K, L>(m: map<K, int>, f: K -> L)
    requires OneToOne(m.Keys, f)
    ensures Sum(Renamed(m, f)) == Sum(m)
    decreases |m|
  {
    hide Sum;
    if m.Keys == {} {
      SumEmpty(m);
      SumEmpty(Renamed(m, f));
    } else {
      var k :| k in m;
      var rest := m - {k};
      assert rest.Keys == m.Keys - {k};
      SumRename(rest, f);
      SumRemove(m, k);
      RenameSplit(m, f, k);
      SumInsert(Renamed(rest, f), f(k), m[k]);
    }
  }

  lemma RenameSplit<K, L>(m: map<K, int>, f: K -> L, k: K)
    requires k in m && OneToOne(m.Keys, f)
    ensures f(k) !in Renamed(m - {k}, f)
    ensures Renamed(m, f) == Renamed(m - {k}, f)[f(k) := m[k]]
  {
    var rest := m - {k};
    forall j | j in m ensures f(j) in Image(m.Keys, f) && Origin(m.Keys, f, f(j)) == j {
      OriginOf(m.Keys, f, j);
    }
    forall j | j in rest ensures f(j) in Image(rest.Keys, f) && Origin(rest.Keys, f, f(j)) == j {
      OriginOf(rest.Keys, f, j);
    }
  }
}
