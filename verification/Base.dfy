// Small shared vocabulary: an optional value and sums over finite maps.

module Base {

  datatype Option<+T> = None | Some(value: T) {
    function GetOr(default: T): T {
      if Some? then value else default
    }
  }

  /** Membership of a key with a default, the reading Go gives to a map lookup. */
  function GetOr<K, V>(m: map<K, V>, k: K, default: V): V
  {
    if k in m then m[k] else default
  }

  function Max(a: int, b: int): int {
    if a < b then b else a
  }

  function Min(a: int, b: int): int {
    if a < b then a else b
  }
}

/** The total of a weight over all entries of a finite map, and how it moves when one entry does. */
module Sums {

  ghost function Pick<T>(s: set<T>): T
    requires s != {}
  {
    var x :| x in s; x
  }

  ghost function SumBy<K, V>(m: map<K, V>, weight: (K, V) -> int): int
    decreases |m|
  {
    if m.Keys == {} then 0 else
      var k := Pick(m.Keys);
      assert |m - {k}| < |m| by { assert m.Keys == (m - {k}).Keys + {k}; }
      weight(k, m[k]) + SumBy(m - {k}, weight)
  }

  /** The total does not depend on the order in which entries are taken. */
  lemma {:induction false} SumRemove<K, V>(m: map<K, V>, weight: (K, V) -> int, k: K)
    requires k in m
    ensures SumBy(m, weight) == weight(k, m[k]) + SumBy(m - {k}, weight)
    decreases |m|
  {
    var c := Pick(m.Keys);
    if c != k {
      assert m.Keys == (m - {c}).Keys + {c} && m.Keys == (m - {k}).Keys + {k};
      SumRemove(m - {c}, weight, k);
      SumRemove(m - {k}, weight, c);
      assert m - {c} - {k} == m - {k} - {c};
    }
  }

  lemma SumPut<K, V>(m: map<K, V>, weight: (K, V) -> int, k: K, v: V)
    ensures SumBy(m[k := v], weight)
         == SumBy(m, weight) + weight(k, v) - (if k in m then weight(k, m[k]) else 0)
  {
    SumRemove(m[k := v], weight, k);
    if k in m {
      SumRemove(m, weight, k);
      assert m[k := v] - {k} == m - {k};
    } else {
      assert m[k := v] - {k} == m;
    }
  }

  /** Entries that keep their weight keep the total. */
  lemma {:induction false} SumSame<K, V, W>(m: map<K, V>, f: (K, V) -> int, n: map<K, W>, g: (K, W) -> int)
    requires m.Keys == n.Keys
    requires forall k :: k in m ==> f(k, m[k]) == g(k, n[k])
    ensures SumBy(m, f) == SumBy(n, g)
    decreases |m|
  {
    if m.Keys != {} {
      var k := Pick(m.Keys);
      assert m.Keys == (m - {k}).Keys + {k};
      assert (m - {k}).Keys == (n - {k}).Keys;
      SumSame(m - {k}, f, n - {k}, g);
    }
  }

  lemma {:induction false} SumAtMost<K, V>(m: map<K, V>, f: (K, V) -> int, g: (K, V) -> int)
    requires forall k :: k in m ==> f(k, m[k]) <= g(k, m[k])
    ensures SumBy(m, f) <= SumBy(m, g)
    ensures SumBy(m, f) == SumBy(m, g) <==> forall k :: k in m ==> f(k, m[k]) == g(k, m[k])
    decreases |m|
  {
    if m.Keys != {} {
      var k := Pick(m.Keys);
      var rest := m - {k};
      assert m.Keys == rest.Keys + {k};
      SumAtMost(rest, f, g);
      assert forall j :: j in rest ==> j in m && rest[j] == m[j];
      if SumBy(m, f) == SumBy(m, g) {
        forall j | j in m ensures f(j, m[j]) == g(j, m[j]) {
          if j != k { assert j in rest; }
        }
      }
    }
  }
}
