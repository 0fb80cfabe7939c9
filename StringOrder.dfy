/** The ordering `Array.prototype.sort` uses when it is given no comparator
    (character by character, a proper prefix first), and a sort by it. */
module StringOrder {

  /** `a` sorts no later than `b`. */
  predicate Below(a: string, b: string)
    decreases |a|
  {
    if a == [] then true
    else if b == [] then false
    else if a[0] != b[0] then a[0] < b[0]
    else Below(a[1..], b[1..])
  }

  lemma {:induction false} BelowTotal(a: string, b: string)
    ensures Below(a, b) || Below(b, a)
    decreases |a|
  {
    if a != [] && b != [] && a[0] == b[0] {
      BelowTotal(a[1..], b[1..]);
    }
  }

  lemma {:induction false} BelowAntisymmetric(a: string, b: string)
    requires Below(a, b) && Below(b, a)
    ensures a == b
    decreases |a|
  {
    if a != [] {
      BelowAntisymmetric(a[1..], b[1..]);
      assert a == [a[0]] + a[1..] && b == [b[0]] + b[1..];
    }
  }

  lemma {:induction false} BelowTransitive(a: string, b: string, c: string)
    requires Below(a, b) && Below(b, c)
    ensures Below(a, c)
    decreases |a|
  {
    if a != [] && a[0] == b[0] && b[0] == c[0] {
      BelowTransitive(a[1..], b[1..], c[1..]);
    }
  }

  ghost predicate Sorted(s: seq<string>) {
    forall i, j :: 0 <= i < j < |s| ==> Below(s[i], s[j])
  }

  ghost predicate Distinct(s: seq<string>) {
    forall i, j :: 0 <= i < j < |s| ==> s[i] != s[j]
  }

  lemma ConsSorted(y: string, t: seq<string>)
    requires Sorted(t)
    requires forall z :: z in t ==> Below(y, z)
    ensures Sorted([y] + t)
  {
    var r := [y] + t;
    forall i, j | 0 <= i < j < |r| ensures Below(r[i], r[j]) {
      if i == 0 { assert r[j] == t[j - 1] && t[j - 1] in t; }
      else { assert r[i] == t[i - 1] && r[j] == t[j - 1]; }
    }
  }

  lemma ConsDistinct(y: string, t: seq<string>)
    requires Distinct(t) && y !in t
    ensures Distinct([y] + t)
  {
    var r := [y] + t;
    forall i, j | 0 <= i < j < |r| ensures r[i] != r[j] {
      if i == 0 { assert r[j] == t[j - 1] && t[j - 1] in t; }
      else { assert r[i] == t[i - 1] && r[j] == t[j - 1]; }
    }
  }

  lemma SameElements(t: seq<string>, u: seq<string>, x: string, z: string)
    requires multiset(t) == multiset(u) + multiset{x}
    ensures z in t <==> z == x || z in u
  {
    assert z in t <==> z in multiset(t);
    assert z in u <==> z in multiset(u);
  }

  /** The recursive case of insertion: `s[0]` goes in front of `t`, the
      insertion of `x` into the rest. */
  lemma InsertStep(x: string, s: seq<string>, t: seq<string>)
    requires s != [] && !Below(x, s[0])
    requires multiset(t) == multiset(s[1..]) + multiset{x}
    ensures Sorted(s) && Sorted(t) ==> Sorted([s[0]] + t)
    ensures Distinct(s) && x !in s && Distinct(t) ==> Distinct([s[0]] + t)
  {
    forall z ensures z in t <==> z == x || z in s[1..] {
      SameElements(t, s[1..], x, z);
    }
    if Sorted(s) && Sorted(t) {
      BelowTotal(x, s[0]);
      forall z | z in t ensures Below(s[0], z) {
        if z != x {
          var k :| 0 <= k < |s[1..]| && s[1..][k] == z;
          assert s[k + 1] == z;
        }
      }
      ConsSorted(s[0], t);
    }
    if Distinct(s) && x !in s && Distinct(t) {
      assert s[0] !in s[1..] by {
        forall k | 0 <= k < |s[1..]| ensures s[1..][k] != s[0] {
          assert s[1..][k] == s[k + 1];
        }
      }
      assert s[0] != x by { assert s[0] in s; }
      ConsDistinct(s[0], t);
    }
  }

  lemma Tail(s: seq<string>)
    requires s != []
    ensures Sorted(s) ==> Sorted(s[1..])
    ensures Distinct(s) ==> Distinct(s[1..]) && s[0] !in s[1..]
  {
    var u := s[1..];
    assert forall i :: 0 <= i < |u| ==> u[i] == s[i + 1];
  }

  /** The base case of insertion: `x` goes in front. */
  lemma InsertFront(x: string, s: seq<string>)
    requires s == [] || Below(x, s[0])
    ensures Sorted(s) ==> Sorted([x] + s)
    ensures Distinct(s) && x !in s ==> Distinct([x] + s)
  {
    if Sorted(s) {
      forall z | z in s ensures Below(x, z) {
        var k :| 0 <= k < |s| && s[k] == z;
        if k > 0 { BelowTransitive(x, s[0], z); }
      }
      ConsSorted(x, s);
    }
    if Distinct(s) && x !in s { ConsDistinct(x, s); }
  }

  /** Places `x` into the sorted sequence `s`. */
  function Insert(x: string, s: seq<string>): (r: seq<string>)
    ensures multiset(r) == multiset(s) + multiset{x}
    ensures Sorted(s) ==> Sorted(r)
    ensures Distinct(s) && x !in s ==> Distinct(r)
  {
    if s == [] || Below(x, s[0]) then
      InsertFront(x, s);
      [x] + s
    else
      Tail(s);
      var t := Insert(x, s[1..]);
      assert s == [s[0]] + s[1..];
      InsertStep(x, s, t);
      [s[0]] + t
  }

  /** Insertion sort: a sorted permutation of `s`. */
  function Sort(s: seq<string>): (r: seq<string>)
    ensures multiset(r) == multiset(s)
    ensures Sorted(r)
    ensures Distinct(s) ==> Distinct(r)
  {
    if s == [] then []
    else
      Tail(s);
      var t := Sort(s[1..]);
      assert s == [s[0]] + s[1..];
      assert s[0] in t <==> s[0] in s[1..] by {
        assert s[0] in t <==> s[0] in multiset(t);
        assert s[0] in s[1..] <==> s[0] in multiset(s[1..]);
      }
      Insert(s[0], t)
  }
}
