/** Stock datatypes shared by the models. */
module Prelude {

  datatype Option<+T> = None | Some(value: T)

  function Get<K, V>(m: map<K, V>, k: K): (r: Option<V>)
    ensures r.Some? <==> k in m
    ensures k in m ==> r.value == m[k]
  {
    if k in m then Some(m[k]) else None
  }

  /** A part of a set has no more elements. */
  lemma {:induction false} Cardinality<T>(a: set<T>, b: set<T>)
    requires a <= b
    ensures |a| <= |b|
    decreases a
  {
    if a != {} {
      var x :| x in a;
      Cardinality(a - {x}, b - {x});
    }
  }

  /** One of some keys that is due first among them. */
  ghost predicate IsFirst<T>(due: map<T, int>, s: set<T>, x: T)
    requires s <= due.Keys
  {
    x in s && forall y :: y in s ==> due[x] <= due[y]
  }

  lemma {:induction false} SomeIsFirst<T>(due: map<T, int>, s: set<T>) returns (x: T)
    requires s != {} && s <= due.Keys
    ensures IsFirst(due, s, x)
    decreases s
  {
    var z :| z in s;
    x := z;
    if s - {z} != {} {
      var y := SomeIsFirst(due, s - {z});
      if due[y] < due[z] { x := y; }
    }
    forall y | y in s ensures due[x] <= due[y] { assert y == z || y in s - {z}; }
  }

  /** At most n keys of a map, those that are due first, and all of them if there are no more; which ones of
    * several that are due at once is left open. */
  method Earliest<T(==)>(due: map<T, int>, n: nat) returns (chosen: set<T>)
    ensures chosen <= due.Keys && |chosen| <= n && (|chosen| == n || chosen == due.Keys)
    ensures forall x, y :: x in chosen && y in due.Keys - chosen ==> due[x] <= due[y]
  {
    chosen := {};
    var rest := due.Keys;
    while rest != {} && |chosen| < n
      invariant chosen + rest == due.Keys && chosen !! rest && |chosen| <= n
      invariant forall x, y :: x in chosen && y in rest ==> due[x] <= due[y]
      decreases rest
    {
      ghost var first := SomeIsFirst(due, rest);
      var x :| x in rest && forall y :: y in rest ==> due[x] <= due[y];
      chosen, rest := chosen + {x}, rest - {x};
    }
  }

  /** Moving one element from what follows to what is done. */
  lemma Appended<T>(a: seq<T>, x: T, b: seq<T>)
    ensures a + [x] + b == a + ([x] + b)
  {
  }

  /** A sequence from its start on is itself, and so is one with nothing before it. */
  lemma Whole<S, T>(s: seq<S>, t: seq<T>)
    ensures s[0..] == s && [] + t == t
  {
  }
}
