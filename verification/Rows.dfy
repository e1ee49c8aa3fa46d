/** Ascending row lists.

The engine passes row ids around as `std::vector<i64>` that are sorted and free of
repeats, and as `std::set<i64>` walked in order. Both are ascending sequences here. */
module Rows {

  /** Strictly increasing. */
  ghost predicate Ascending(s: seq<int>) {
    forall i, j | 0 <= i < j < |s| :: s[i] < s[j]
  }

  ghost predicate Pair(s: seq<int>, i: int, j: int) {
    0 <= i < j < |s|
  }

  /** Ascending, as a fact that large contexts carry around: it compares two positions only
  where `Pair` names them. */
  ghost predicate Sorted(s: seq<int>) {
    forall i, j {:trigger Pair(s, i, j)} | Pair(s, i, j) :: s[i] < s[j]
  }

  lemma SortedAscends(s: seq<int>)
    ensures Sorted(s) <==> Ascending(s)
  {
    if Sorted(s) {
      forall i, j | 0 <= i < j < |s| ensures s[i] < s[j] { assert Pair(s, i, j); }
    }
  }

  ghost predicate Distinct<T>(s: seq<T>) {
    forall i, j | 0 <= i < j < |s| :: s[i] != s[j]
  }

  /** Prefix sums. */
  function Sum(counts: seq<int>, k: nat): int
    requires k <= |counts|
  {
    if k == 0 then 0 else Sum(counts, k - 1) + counts[k - 1]
  }

  lemma {:induction false} SumMonotone(counts: seq<int>, i: nat, j: nat)
    requires i <= j <= |counts| && forall g | 0 <= g < |counts| :: counts[g] >= 0
    ensures Sum(counts, i) <= Sum(counts, j)
    decreases j
  {
    if i < j { SumMonotone(counts, i, j - 1); }
  }

  /** The first `k` parts, one after the other. */
  function Flatten<T>(parts: seq<seq<T>>, k: nat): seq<T>
    requires k <= |parts|
  {
    if k == 0 then [] else Flatten(parts, k - 1) + parts[k - 1]
  }

  lemma FlattenLength<T>(parts: seq<seq<T>>, k: nat)
    requires 0 < k <= |parts|
    ensures |Flatten(parts, k)| == |Flatten(parts, k - 1)| + |parts[k - 1]|
  {
  }

  lemma {:induction false} FlattenFrame<T>(a: seq<seq<T>>, b: seq<seq<T>>, k: nat)
    requires k <= |a| && k <= |b| && forall i | 0 <= i < k :: a[i] == b[i]
    ensures Flatten(a, k) == Flatten(b, k)
  {
    if k > 0 { FlattenFrame(a, b, k - 1); }
  }

  /** Every row of `sub` is a row of `sup`. */
  ghost predicate Within(sub: seq<int>, sup: seq<int>) {
    forall x {:trigger x in sup} | x in sub :: x in sup
  }

  /** The rows `lo, lo + 1, ..., hi - 1`. */
  function Interval(lo: int, hi: int): (r: seq<int>)
    ensures |r| == if lo < hi then hi - lo else 0
    ensures forall i | 0 <= i < |r| :: r[i] == lo + i
    ensures Ascending(r)
    ensures forall x :: x in r <==> lo <= x < hi
    decreases hi - lo
  {
    if lo < hi then
      var s := Interval(lo, hi - 1) + [hi - 1];
      assert forall x :: x in s <==> x in Interval(lo, hi - 1) || x == hi - 1;
      s
    else []
  }

  /** `std::set::insert` on an ascending list. */
  function Insert(s: seq<int>, x: int): (r: seq<int>)
    requires Ascending(s)
    ensures Ascending(r)
    ensures forall y :: y in r <==> y == x || y in s
  {
    if s == [] then [x]
    else if x < s[0] then [x] + s
    else if x == s[0] then s
    else
      assert s == [s[0]] + s[1..];
      var t := Insert(s[1..], x);
      assert forall i | 0 <= i < |t| :: t[i] in t && s[0] < t[i];
      [s[0]] + t
  }

  /** Inserting a whole range into a set. */
  function Union(s: seq<int>, t: seq<int>): (r: seq<int>)
    requires Ascending(s)
    ensures Ascending(r)
    ensures forall y :: y in r <==> y in s || y in t
    decreases |t|
  {
    if t == [] then s
    else
      assert t == [t[0]] + t[1..];
      Union(Insert(s, t[0]), t[1..])
  }

  /** Two ascending lists with the same rows are the same list. */
  lemma {:induction false} SameRows(a: seq<int>, b: seq<int>)
    requires Ascending(a) && Ascending(b)
    requires forall x :: x in a <==> x in b
    ensures a == b
  {
    assert |a| > 0 ==> a[0] in a && a[0] in b;
    assert |b| > 0 ==> b[0] in b && b[0] in a;
    if a != [] {
      assert a[0] == b[0];
      var a', b' := a[1..], b[1..];
      forall x ensures x in a' <==> x in b' {
        if x in a' { assert x in a && x != a[0]; assert x in b; }
        if x in b' { assert x in b && x != b[0]; assert x in a; }
      }
      SameRows(a', b');
      assert a == [a[0]] + a' && b == [b[0]] + b';
    }
  }

  /** The row at position `i` of a sorted list stands at `i` or later in any sorted superset. */
  lemma {:induction false} IndexAtLeast(sub: seq<int>, sup: seq<int>, i: nat, j: nat)
    requires Ascending(sub) && Ascending(sup) && Within(sub, sup)
    requires i < |sub| && j < |sup| && sup[j] == sub[i]
    ensures i <= j
  {
    if i > 0 {
      assert sub[i - 1] in sup;
      var j' :| 0 <= j' < |sup| && sup[j'] == sub[i - 1];
      IndexAtLeast(sub, sup, i - 1, j');
    }
  }

  /** A sorted superset is pointwise no greater than its subset. */
  lemma SupersetPointwise(sub: seq<int>, sup: seq<int>, i: nat)
    requires Ascending(sub) && Ascending(sup) && Within(sub, sup)
    requires i < |sub|
    ensures i < |sup| && sup[i] <= sub[i]
  {
    assert sub[i] in sub && sub[i] in sup;
    var j :| 0 <= j < |sup| && sup[j] == sub[i];
    IndexAtLeast(sub, sup, i, j);
  }

  /** A sorted superset is at least as long, and no longer only if it is the same. */
  lemma {:induction false} SupersetLength(sub: seq<int>, sup: seq<int>)
    requires Ascending(sub) && Ascending(sup) && Within(sub, sup)
    ensures |sub| <= |sup|
    ensures |sub| == |sup| <==> sub == sup
    decreases |sub|
  {
    if sub != [] {
      var last := |sub| - 1;
      SupersetPointwise(sub, sup, last);
      if |sub| == |sup| {
        assert sub[last] in sup;
        var j :| 0 <= j < |sup| && sup[j] == sub[last];
        IndexAtLeast(sub, sup, last, j);
        forall x | x in sub[..last] ensures x in sup[..last] {
          assert x in sub && x < sub[last] && x in sup;
          var i :| 0 <= i < |sup| && sup[i] == x;
        }
        SupersetLength(sub[..last], sup[..last]);
        assert sub == sub[..last] + [sub[last]] && sup == sup[..last] + [sup[last]];
      }
    }
  }

  lemma {:induction false} AscendsBy(s: seq<int>, i: nat)
    requires Ascending(s) && i < |s|
    ensures s[0] + i <= s[i]
  {
    if i > 0 { AscendsBy(s, i - 1); }
  }

  /** The rows of an interval stand at the front of a sorted superset exactly if it has none below them. */
  lemma FrontRows(lo: int, hi: int, s: seq<int>)
    requires Ascending(s) && Within(Interval(lo, hi), s) && lo < hi
    ensures hi - lo <= |s|
    ensures (forall i | 0 <= i < hi - lo :: s[i] == lo + i) <==> forall y | y in s :: lo <= y
  {
    SupersetLength(Interval(lo, hi), s);
    assert forall y | y in s :: s[0] <= y;
    if forall y | y in s :: lo <= y {
      assert s[0] in s;
      forall i | 0 <= i < hi - lo ensures s[i] == lo + i {
        SupersetPointwise(Interval(lo, hi), s, i);
        AscendsBy(s, i);
      }
    }
  }

  /** `n` rows of `sub` lie among the first `a` rows of `sup`, the others come later. */
  ghost predicate Received(sub: seq<int>, sup: seq<int>, a: nat, n: nat) {
    && a <= |sup| && n <= |sub|
    && (n > 0 ==> a > 0 && sub[n - 1] <= sup[a - 1])
    && (n < |sub| ==> a < |sup| && sup[a] <= sub[n])
  }

  /** One more row of `sup` arrives: it is the next row of `sub`, or no row of `sub` at all. */
  lemma ReceiveOne(sub: seq<int>, sup: seq<int>, a: nat, n: nat)
    requires Ascending(sub) && Ascending(sup) && Within(sub, sup)
    requires Received(sub, sup, a, n) && a < |sup|
    ensures n < |sub| ==> sup[a] <= sub[n]
    ensures n < |sub| && sup[a] == sub[n] ==> Received(sub, sup, a + 1, n + 1)
    ensures !(n < |sub| && sup[a] == sub[n]) ==> Received(sub, sup, a + 1, n)
  {
    var n' := if n < |sub| && sup[a] == sub[n] then n + 1 else n;
    if n' < |sub| {
      assert sub[n'] in sup;
      var j :| 0 <= j < |sup| && sup[j] == sub[n'];
      assert sup[a] < sub[n'];
      assert a < j;
    }
  }

  /** Position of `x` in `s`, or `|s|`. */
  function IndexOf<T(==)>(s: seq<T>, x: T): (k: nat)
    ensures k <= |s|
    ensures k < |s| ==> s[k] == x
    ensures forall j | 0 <= j < k :: s[j] != x
    ensures k < |s| <==> x in s
  {
    if s == [] then 0 else if s[0] == x then 0 else 1 + IndexOf(s[1..], x)
  }
}
