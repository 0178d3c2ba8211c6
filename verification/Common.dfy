/** Identifiers, dictionaries with a default, and exact sums over dictionaries. */
module Common {

  /** Venue, outcome, account, order and group ids: opaque tokens with equality
      and a total order. */
  type Id = nat

  datatype Option<+T> = None | Some(value: T)

  function Min(a: real, b: real): real { if b < a then b else a }

  function Max(a: real, b: real): real { if b > a then b else a }

  function Abs(a: real): real { if a < 0.0 then -a else a }

  /** A `defaultdict` of decimals: a missing key reads as zero. */
  function At(m: map<Id, real>, k: Id): real { if k in m then m[k] else 0.0 }

  // ---- products of reals ------------------------------------------------

  lemma MulNonNeg(a: real, b: real)
    requires a >= 0.0 && b >= 0.0
    ensures a * b >= 0.0
  {
  }

  lemma MulPos(a: real, b: real)
    requires a > 0.0 && b > 0.0
    ensures a * b > 0.0
  {
  }

  lemma MulLe(a: real, b: real, c: real)
    requires a <= b && c >= 0.0
    ensures a * c <= b * c
  {
    MulNonNeg(b - a, c);
    assert (b - a) * c == b * c - a * c;
  }

  lemma MulLt(a: real, b: real, c: real)
    requires a < b && c > 0.0
    ensures a * c < b * c
  {
    MulPos(b - a, c);
    assert (b - a) * c == b * c - a * c;
  }

  lemma ZeroTimes(x: real)
    ensures 0.0 * x == 0.0
  {
  }

  // ---- sums over a dictionary -------------------------------------------

  ghost function Sum(m: map<Id, real>): real
    decreases |m|
  {
    if m == map[] then 0.0
    else
      var k :| k in m;
      m[k] + Sum(m - {k})
  }

  lemma {:induction false} SumPick(m: map<Id, real>, k: Id)
    requires k in m
    ensures Sum(m) == m[k] + Sum(m - {k})
    decreases |m|
  {
    var j :| j in m && Sum(m) == m[j] + Sum(m - {j});
    if j != k {
      SumPick(m - {j}, k);
      SumPick(m - {k}, j);
      assert m - {j} - {k} == m - {k} - {j};
    }
  }

  /** Writing one key moves the sum by exactly the change at that key. */
  lemma SumUpdate(m: map<Id, real>, k: Id, v: real)
    ensures Sum(m[k := v]) == Sum(m) - At(m, k) + v
  {
    SumPick(m[k := v], k);
    assert m[k := v] - {k} == m - {k};
    if k in m {
      SumPick(m, k);
    } else {
      assert m - {k} == m;
    }
  }

  /** The same, for a dictionary known only key by key. */
  lemma SumMoved(m: map<Id, real>, n: map<Id, real>, k: Id)
    requires k in n && n.Keys == m.Keys + {k}
    requires forall j :: j in m && j != k ==> n[j] == m[j]
    ensures Sum(n) == Sum(m) - At(m, k) + n[k]
  {
    SumUpdate(m, k, n[k]);
    assert n == m[k := n[k]];
  }

  lemma {:induction false} SumNonNegative(m: map<Id, real>)
    requires forall k :: k in m ==> m[k] >= 0.0
    ensures Sum(m) >= 0.0
    decreases |m|
  {
    if m != map[] {
      var k :| k in m;
      SumPick(m, k);
      SumNonNegative(m - {k});
    }
  }

  /** Two dictionaries that read the same everywhere sum the same. */
  lemma {:induction false} SumSame(m: map<Id, real>, n: map<Id, real>)
    requires forall k: Id :: At(m, k) == At(n, k)
    ensures Sum(m) == Sum(n)
    decreases |m| + |n|
  {
    if m != map[] {
      var k :| k in m;
      SumPick(m, k);
      SumDrop(n, k);
      SameWithout(m, n, k);
      SumSame(m - {k}, n - {k});
    } else if n != map[] {
      var k :| k in n;
      SumPick(n, k);
      assert At(m, k) == 0.0;
      SameWithout(m, n, k);
      assert m - {k} == m;
      SumSame(m, n - {k});
    }
  }

  lemma SumDrop(m: map<Id, real>, k: Id)
    ensures Sum(m) == At(m, k) + Sum(m - {k})
  {
    if k in m { SumPick(m, k); } else { assert m - {k} == m; }
  }

  lemma SameWithout(m: map<Id, real>, n: map<Id, real>, k: Id)
    requires forall j: Id :: At(m, j) == At(n, j)
    ensures forall j: Id :: At(m - {k}, j) == At(n - {k}, j)
  {
    forall j: Id ensures At(m - {k}, j) == At(n - {k}, j) {
      assert At(m, j) == At(n, j);
    }
  }

  lemma {:induction false} SumLe(m: map<Id, real>, n: map<Id, real>)
    requires forall j: Id :: At(m, j) <= At(n, j)
    ensures Sum(m) <= Sum(n)
    decreases |m| + |n|
  {
    hide Sum;
    if m != map[] || n != map[] {
      var k :| k in m || k in n;
      SumDrop(m, k);
      SumDrop(n, k);
      LeWithout(m, n, k);
      SmallerWithout(m, k);
      SmallerWithout(n, k);
      SumLe(m - {k}, n - {k});
    }
  }

  lemma SmallerWithout(m: map<Id, real>, k: Id)
    ensures |m - {k}| == if k in m then |m| - 1 else |m|
  {
    assert (m - {k}).Keys == m.Keys - {k};
  }

  /** A dictionary that reads no less anywhere sums to no less, by at least the
      gap at any one key: equal sums mean equal readings. */
  lemma SumGap(m: map<Id, real>, n: map<Id, real>, k: Id)
    requires forall j: Id :: At(m, j) <= At(n, j)
    ensures Sum(n) - Sum(m) >= At(n, k) - At(m, k)
  {
    SumDrop(m, k);
    SumDrop(n, k);
    LeWithout(m, n, k);
    SumLe(m - {k}, n - {k});
  }

  lemma LeWithout(m: map<Id, real>, n: map<Id, real>, k: Id)
    requires forall j: Id :: At(m, j) <= At(n, j)
    ensures forall j: Id :: At(m - {k}, j) <= At(n - {k}, j)
  {
    forall j: Id ensures At(m - {k}, j) <= At(n - {k}, j) { assert At(m, j) <= At(n, j); }
  }

  // ---- sets in order ------------------------------------------------------

  function Least(s: set<Id>): (k: Id)
    requires s != {}
    ensures k in s && forall x :: x in s ==> k <= x
  {
    LeastExists(s);
    var k :| k in s && forall x :: x in s ==> k <= x;
    k
  }

  lemma LeastExists(s: set<Id>)
    requires s != {}
    ensures exists k :: k in s && forall x :: x in s ==> k <= x
  {
    var k := FindLeast(s);
  }

  lemma {:induction false} FindLeast(s: set<Id>) returns (k: Id)
    requires s != {}
    ensures k in s && forall x :: x in s ==> k <= x
    decreases |s|
  {
    k :| k in s;
    var rest := s - {k};
    assert forall x :: x in s ==> x == k || x in rest;
    if rest != {} {
      var j := FindLeast(rest);
      if j < k { k := j; }
    }
  }

  /** A set in ascending order. */
  function Ascending(s: set<Id>): (q: seq<Id>)
    ensures forall x :: x in q <==> x in s
    ensures forall i, j :: 0 <= i < j < |q| ==> q[i] < q[j]
    decreases |s|
  {
    if s == {} then [] else [Least(s)] + Ascending(s - {Least(s)})
  }

  lemma {:induction false} SubsetSize(s: set<Id>, t: set<Id>)
    requires s <= t
    ensures |s| <= |t|
    decreases |s|
  {
    if s != {} {
      var x :| x in s;
      SubsetSize(s - {x}, t - {x});
    }
  }
}
