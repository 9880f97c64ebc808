/** Types shared by every module: optional values, results, identifiers, money. */
module Common {

  datatype Option<+T> = None | Some(value: T)

  /** The success value of an operation, or the error it is rejected with. */
  datatype Result<+T, +E> = Ok(value: T) | Err(error: E)

  type Id = string

  /** A hexadecimal SHA-256 digest. */
  type Digest = string

  /** Milliseconds since 1970-01-01T00:00:00Z. */
  type Instant = int

  datatype Money = Money(amount: nat, currency: string)

  /** The members of `s` that satisfy `p`, in order, as `Array.prototype.filter` returns them. */
  function Filter<T(!new)>(s: seq<T>, p: T -> bool): (r: seq<T>)
    ensures |r| <= |s|
    ensures forall x :: x in r <==> x in s && p(x)
  {
    if s == [] then []
    else
      var rest := Filter(s[..|s| - 1], p);
      assert s == s[..|s| - 1] + [s[|s| - 1]];
      if p(s[|s| - 1]) then rest + [s[|s| - 1]] else rest
  }

  lemma FilterAppend<T(!new)>(s: seq<T>, x: T, p: T -> bool)
    ensures Filter(s + [x], p) == if p(x) then Filter(s, p) + [x] else Filter(s, p)
  {
    assert (s + [x])[..|s|] == s;
  }

  lemma {:induction false} NoneFiltered<T(!new)>(s: seq<T>, p: T -> bool)
    requires forall x :: x in s ==> !p(x)
    ensures Filter(s, p) == []
  {
    if s != [] { NoneFiltered(s[..|s| - 1], p); }
  }

  lemma FilterThree<T(!new)>(x: T, y: T, z: T, p: T -> bool)
    ensures Filter([x, y, z], p)
         == (if p(x) then [x] else []) + (if p(y) then [y] else []) + (if p(z) then [z] else [])
  {
    FilterAppend([], x, p);
    FilterAppend([x], y, p);
    FilterAppend([x, y], z, p);
    assert [] + [x] == [x] && [x] + [y] == [x, y] && [x, y] + [z] == [x, y, z];
  }

  lemma OccursTwice<T>(s: seq<T>, i: nat, j: nat)
    requires i < j < |s|
    ensures s[i] == s[j] ==> multiset(s)[s[i]] >= 2
  {
    assert s == s[..i] + [s[i]] + s[i + 1..j] + [s[j]] + s[j + 1..];
  }

  ghost predicate NoDuplicates<T(!new)>(s: seq<T>) {
    forall i, j :: 0 <= i < j < |s| ==> s[i] != s[j]
  }

  lemma {:induction false} NoDuplicatesCardinality<T(!new)>(s: seq<T>)
    requires NoDuplicates(s)
    ensures |set x | x in s| == |s|
  {
    if s != [] {
      var t := s[..|s| - 1];
      NoDuplicatesCardinality(t);
      assert s == t + [s[|s| - 1]];
      assert (set x | x in s) == (set x | x in t) + {s[|s| - 1]};
    }
  }

  lemma {:induction false} NoDuplicatesMultiset<T(!new)>(s: seq<T>)
    requires NoDuplicates(s)
    ensures forall x :: multiset(s)[x] == if x in s then 1 else 0
  {
    if s != [] {
      var t := s[..|s| - 1];
      NoDuplicatesMultiset(t);
      assert s == t + [s[|s| - 1]];
    }
  }

  /** A duplicate-free sequence of as many members of a duplicate-free `s` is a permutation of it. */
  lemma Pigeonhole<T(!new)>(s: seq<T>, c: seq<T>)
    requires NoDuplicates(s) && NoDuplicates(c) && |c| == |s|
    requires forall x :: x in c ==> x in s
    ensures multiset(c) == multiset(s)
  {
    NoDuplicatesCardinality(s);
    NoDuplicatesCardinality(c);
    var ss, cs := set x | x in s, set x | x in c;
    assert cs <= ss;
    SubsetOfEqualSize(cs, ss);
    NoDuplicatesMultiset(s);
    NoDuplicatesMultiset(c);
    forall x ensures multiset(c)[x] == multiset(s)[x] {
      assert x in cs <==> x in ss;
    }
  }

  lemma SubsetOfEqualSize<T>(a: set<T>, b: set<T>)
    requires a <= b && |a| == |b|
    ensures a == b
  {
    assert b == a + (b - a);
    assert |b| == |a| + |b - a|;
  }

  lemma SameMembers<T>(a: seq<T>, b: seq<T>)
    requires multiset(a) == multiset(b)
    ensures |a| == |b|
    ensures forall x :: x in a <==> x in b
  {
    assert |multiset(a)| == |multiset(b)|;
    forall x ensures x in a <==> x in b {
      assert x in a <==> x in multiset(a);
      assert x in b <==> x in multiset(b);
    }
  }
}
