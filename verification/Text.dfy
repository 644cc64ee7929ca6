/** Text as its code points, in the order in which strings are compared. */
module Text {

  type Str = seq<int>

  /** Code points of an ASCII literal. */
  function Codes(s: string): (r: Str)
    ensures |r| == |s| && forall i :: 0 <= i < |s| ==> r[i] == s[i] as int
  {
    seq(|s|, i requires 0 <= i < |s| => s[i] as int)
  }

  // ---------------------------------------------------------------- lexicographic order

  predicate LexLe(a: Str, b: Str) {
    a == [] || (b != [] && (a[0] < b[0] || (a[0] == b[0] && LexLe(a[1..], b[1..]))))
  }

  predicate LexLess(a: Str, b: Str) {
    LexLe(a, b) && a != b
  }

  lemma {:induction false} LexTotal(a: Str, b: Str)
    ensures LexLe(a, b) || LexLe(b, a)
  {
    if a != [] && b != [] { LexTotal(a[1..], b[1..]); }
  }

  lemma {:induction false} LexAntisymmetric(a: Str, b: Str)
    requires LexLe(a, b) && LexLe(b, a)
    ensures a == b
  {
    if a != [] {
      LexAntisymmetric(a[1..], b[1..]);
      assert a == [a[0]] + a[1..] && b == [b[0]] + b[1..];
    }
  }

  lemma {:induction false} LexTransitive(a: Str, b: Str, c: Str)
    requires LexLe(a, b) && LexLe(b, c)
    ensures LexLe(a, c)
  {
    if a != [] && a[0] == b[0] == c[0] { LexTransitive(a[1..], b[1..], c[1..]); }
  }

  /** The order of texts: a text comes before those that it starts, and before those that have a greater
    * code point at the first place where they differ. */
  lemma {:induction false} LexOrder(a: Str, b: Str, i: nat)
    requires i <= |a| && i <= |b| && a[..i] == b[..i]
    requires i == |a| || i == |b| || a[i] != b[i]
    ensures LexLe(a, b) <==> i == |a| || (i < |b| && a[i] < b[i])
  {
    if i > 0 {
      assert a[0] == a[..i][0] && b[0] == b[..i][0];
      assert a[1..][..i - 1] == a[..i][1..] && b[1..][..i - 1] == b[..i][1..];
      LexOrder(a[1..], b[1..], i - 1);
    }
  }

  // ---------------------------------------------------------------- sorting a set

  predicate IsLeast(k: Str, s: set<Str>) {
    k in s && forall x | x in s :: LexLe(k, x)
  }

  lemma {:induction false} LeastExists(s: set<Str>)
    requires s != {}
    ensures exists k :: IsLeast(k, s)
    decreases |s|
  {
    var x :| x in s;
    if s == {x} {
      LexTotal(x, x);
      assert IsLeast(x, s);
    } else {
      var rest := s - {x};
      LeastExists(rest);
      var k :| IsLeast(k, rest);
      LexTotal(x, k);
      LexTotal(x, x);
      if LexLe(x, k) {
        forall y | y in s ensures LexLe(x, y) {
          if y != x { LexTransitive(x, k, y); }
        }
        assert IsLeast(x, s);
      } else {
        assert IsLeast(k, s);
      }
    }
  }

  function Least(s: set<Str>): (k: Str)
    requires s != {}
    ensures IsLeast(k, s)
  {
    LeastExists(s);
    assert forall k, j | k in s && IsLeast(k, s) && j in s && IsLeast(j, s) :: k == j by {
      forall k, j | k in s && IsLeast(k, s) && j in s && IsLeast(j, s) ensures k == j { LexAntisymmetric(k, j); }
    }
    var k :| k in s && IsLeast(k, s);
    k
  }

  /** Strictly increasing, hence without repetition. */
  ghost predicate Increasing(ks: seq<Str>) {
    forall i, j :: 0 <= i < j < |ks| ==> LexLess(ks[i], ks[j])
  }

  ghost function Members(ks: seq<Str>): set<Str> {
    set k | k in ks
  }

  lemma MembersOfCons(k: Str, ks: seq<Str>)
    ensures Members([k] + ks) == {k} + Members(ks)
  {
    forall x ensures x in Members([k] + ks) <==> x in {k} + Members(ks) {
      assert x in [k] + ks <==> x == k || x in ks;
    }
  }

  lemma LeastThenSorted(s: set<Str>, k: Str, rest: seq<Str>)
    requires IsLeast(k, s) && Members(rest) == s - {k} && Increasing(rest)
    ensures Increasing([k] + rest)
  {
    var ks := [k] + rest;
    forall i, j | 0 <= i < j < |ks| ensures LexLess(ks[i], ks[j]) {
      assert ks[j] == rest[j - 1] && rest[j - 1] in Members(rest);
      if i > 0 { assert ks[i] == rest[i - 1]; }
    }
  }

  /** The elements of a set in increasing order. */
  function Sorted(s: set<Str>): (ks: seq<Str>)
    ensures Members(ks) == s && Increasing(ks) && |ks| == |s|
    decreases |s|
  {
    if s == {} then [] else
    var k := Least(s);
    var rest := Sorted(s - {k});
    MembersOfCons(k, rest);
    LeastThenSorted(s, k, rest);
    [k] + rest
  }

  // ---------------------------------------------------------------- parts of texts

  /** Each text without its first element. */
  function Tails(keys: seq<Str>): (ids: seq<Str>)
    ensures |ids| == |keys|
  {
    if keys == [] then [] else [if keys[0] == [] then [] else keys[0][1..]] + Tails(keys[1..])
  }

  /** The parts of a text between separators. */
  function Split(s: Str, separator: int): (parts: seq<Str>)
    ensures parts != []
  {
    if s == [] then [[]]
    else
      var rest := Split(s[1..], separator);
      if s[0] == separator then [[]] + rest else [[s[0]] + rest[0]] + rest[1..]
  }

  lemma {:induction false} SplitClean(s: Str, separator: int)
    ensures forall i :: 0 <= i < |Split(s, separator)| ==> separator !in Split(s, separator)[i]
  {
    if s != [] { SplitClean(s[1..], separator); }
  }

  lemma {:induction false} SplitOne(t: Str, separator: int)
    requires separator !in t
    ensures Split(t, separator) == [t]
  {
    if t != [] {
      assert t[0] in t;
      SplitOne(t[1..], separator);
      assert t == [t[0]] + t[1..];
    }
  }

  lemma {:induction false} SplitFirst(t: Str, rest: Str, separator: int)
    requires separator !in t
    ensures Split(t + [separator] + rest, separator) == [t] + Split(rest, separator)
  {
    var s := t + [separator] + rest;
    if t == [] {
      assert s[1..] == rest;
    } else {
      assert t[0] in t;
      SplitFirst(t[1..], rest, separator);
      assert s[1..] == t[1..] + [separator] + rest;
      assert ([t[1..]] + Split(rest, separator))[1..] == Split(rest, separator);
      assert t == [t[0]] + t[1..];
    }
  }

  /** The parts with separators between them. */
  function Join(parts: seq<Str>, separator: int): Str {
    if parts == [] then []
    else if |parts| == 1 then parts[0]
    else parts[0] + [separator] + Join(parts[1..], separator)
  }

  lemma {:induction false} JoinSplit(s: Str, separator: int)
    ensures Join(Split(s, separator), separator) == s
  {
    if s != [] {
      var rest := Split(s[1..], separator);
      JoinSplit(s[1..], separator);
      if s[0] == separator {
        assert ([[]] + rest)[1..] == rest;
        assert [] + [separator] + Join(rest, separator) == s;
      } else {
        var all := [[s[0]] + rest[0]] + rest[1..];
        assert all[1..] == rest[1..];
        assert s == [s[0]] + s[1..];
        if |rest| > 1 { assert Join(all, separator) == [s[0]] + rest[0] + [separator] + Join(rest[1..], separator); }
      }
    }
  }
}
