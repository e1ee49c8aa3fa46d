/** The client's topological sort of a graph of ops, from the sink upwards and back down. */
module Toposort {
  import opened Rows

  /** Ops are numbered. `inputs[c]` are the ops that op `c` reads from, with repeats; those of a source do
  not count. */
  datatype Graph = Graph(inputs: seq<seq<nat>>, isSource: seq<bool>)

  ghost predicate GraphOk(g: Graph) {
    |g.isSource| == |g.inputs| && forall c, i | 0 <= c < |g.inputs| &&
      0 <= i < |g.inputs[c]| :: g.inputs[c][i] < |g.inputs|
  }

  /** `rank` shows that there are no cycles. */
  ghost predicate Acyclic(g: Graph, rank: nat -> nat)
    requires GraphOk(g)
  {
    forall c, i | 0 <= c < |g.inputs| && !g.isSource[c] && 0 <= i < |g.inputs[c]| :: rank(g.inputs[c][i]) < rank(c)
  }

  /** A set of ops with everything they read from. */
  ghost predicate Closed(g: Graph, s: set<nat>)
    requires GraphOk(g)
  {
    forall c, i | c in s && c < |g.inputs| && !g.isSource[c] && 0 <= i < |g.inputs[c]| :: g.inputs[c][i] in s
  }

  // ---- Counting ----------------------------------------------------------------------------

  /** How often `x` occurs among the first `k`. */
  function Occ(s: seq<nat>, x: nat, k: nat): nat
    requires k <= |s|
  {
    if k == 0 then 0 else Occ(s, x, k - 1) + (if s[k - 1] == x then 1 else 0)
  }

  /** How many of the first `k` are not in `done`. */
  ghost function Open(s: seq<nat>, done: set<nat>, k: nat): nat
    requires k <= |s|
  {
    if k == 0 then 0 else Open(s, done, k - 1) + (if s[k - 1] in done then 0 else 1)
  }

  lemma {:induction false} OpenMinus(s: seq<nat>, done: set<nat>, p: nat, k: nat)
    requires k <= |s| && p !in done
    ensures Open(s, done, k) == Open(s, done + {p}, k) + Occ(s, p, k)
  {
    if k > 0 { OpenMinus(s, done, p, k - 1); }
  }

  lemma {:induction false} OpenZero(s: seq<nat>, done: set<nat>, k: nat)
    requires k <= |s|
    ensures Open(s, done, k) == 0 <==> forall i | 0 <= i < k :: s[i] in done
    ensures done == {} ==> Open(s, done, k) == k
  {
    if k > 0 { OpenZero(s, done, k - 1); }
  }

  lemma {:induction false} OccFrame(a: seq<nat>, b: seq<nat>, x: nat, k: nat)
    requires k <= |a| && k <= |b| && forall i | 0 <= i < k :: a[i] == b[i]
    ensures Occ(a, x, k) == Occ(b, x, k)
  {
    if k > 0 { OccFrame(a, b, x, k - 1); }
  }

  lemma OccAppend(s: seq<nat>, y: nat, x: nat)
    ensures Occ(s + [y], x, |s| + 1) == Occ(s, x, |s|) + (if x == y then 1 else 0)
  {
    OccFrame(s + [y], s, x, |s|);
  }

  lemma {:induction false} OccMonotone(s: seq<nat>, x: nat, j: nat, k: nat)
    requires j <= k <= |s|
    ensures Occ(s, x, j) <= Occ(s, x, k)
    decreases k
  {
    if j < k { OccMonotone(s, x, j, k - 1); }
  }

  // ---- Up from the sink --------------------------------------------------------------------

  function Edges(edges: map<nat, seq<nat>>, p: nat): seq<nat> {
    if p in edges then edges[p] else []
  }

  function Left(left: map<nat, int>, c: nat): int {
    if c in left then left[c] else 0
  }

  /** Op `c` has recorded its edges: once under `p` for every time it reads from `p`. */
  ghost predicate EdgesOk(g: Graph, explored: set<nat>, edges: map<nat, seq<nat>>, p: nat, c: nat)
    requires GraphOk(g)
  {
    Occ(Edges(edges, p), c, |Edges(edges, p)|) ==
    if c in explored && c < |g.inputs| && !g.isSource[c] then Occ(g.inputs[c], p, |g.inputs[c]|) else 0
  }

  ghost predicate LeftOk(g: Graph, explored: set<nat>, left: map<nat, int>, c: nat)
    requires GraphOk(g)
  {
    Left(left, c) == if c in explored && c < |g.inputs| && !g.isSource[c] then |g.inputs[c]| else 0
  }

  /** Some op that was explored reads from `x`. */
  ghost predicate ReadBy(g: Graph, explored: set<nat>, x: nat)
    requires GraphOk(g)
  {
    exists c, i :: c in explored && c < |g.inputs| && !g.isSource[c] && 0 <= i < |g.inputs[c]| && g.inputs[c][i] == x
  }

  /** What the search has found: ops that every closed set around the root contains, and the edges of
  those explored. */
  ghost predicate Searched(g: Graph, explored: set<nat>, edges: map<nat, seq<nat>>, left: map<nat, int>,
                           sources: seq<nat>)
    requires GraphOk(g)
  {
    && (forall x | x in explored :: x < |g.inputs|)
    && (forall p, c {:trigger EdgesOk(g, explored, edges, p, c)} :: EdgesOk(g, explored, edges, p, c))
    && (forall c {:trigger LeftOk(g, explored, left, c)} :: LeftOk(g, explored, left, c))
    && (forall x :: x in sources <==> x in explored && x < |g.inputs| && g.isSource[x])
    && Distinct(sources)
  }

  /** The root depends on `x`: everything closed around the root contains it. */
  ghost predicate Needed(g: Graph, root: nat, x: nat)
    requires GraphOk(g)
  {
    forall s: set<nat> | Closed(g, s) && root in s :: x in s
  }

  lemma InputNeeded(g: Graph, root: nat, c: nat, i: nat)
    requires GraphOk(g) && c < |g.inputs| && !g.isSource[c] && i < |g.inputs[c]| && Needed(g, root, c)
    ensures Needed(g, root, g.inputs[c][i])
  {
  }

  /** The ops found but not explored yet. */
  ghost predicate Frontier(g: Graph, root: nat, explored: set<nat>, stack: seq<nat>)
    requires GraphOk(g)
  {
    && (forall x | x in stack :: x < |g.inputs|)
    && (root in explored || root in stack)
    && (forall x | x in explored || x in stack :: x == root || ReadBy(g, explored, x))
    && (forall c, i | c in explored && c < |g.inputs| && !g.isSource[c] && 0 <= i < |g.inputs[c]| ::
          g.inputs[c][i] in explored || g.inputs[c][i] in stack)
    && (forall x {:trigger Needed(g, root, x)} | x in explored || x in stack :: Needed(g, root, x))
  }

  /** While op `c` records its first `k` edges. */
  ghost predicate Recording(g: Graph, c: nat, k: nat, edges0: map<nat, seq<nat>>, edges: map<nat, seq<nat>>)
    requires GraphOk(g) && c < |g.inputs| && k <= |g.inputs[c]|
  {
    forall p, x {:trigger Occ(Edges(edges, p), x, |Edges(edges, p)|)} ::
      Occ(Edges(edges, p), x, |Edges(edges, p)|) ==
      Occ(Edges(edges0, p), x, |Edges(edges0, p)|) + (if x == c then Occ(g.inputs[c], p, k) else 0)
  }

  /** Records the edges of op `c` and puts what it reads from on the stack. */
  method Expand(g: Graph, c: nat, explored: set<nat>, edges: map<nat, seq<nat>>, left: map<nat, int>, stack: seq<nat>)
    returns (edges': map<nat, seq<nat>>, left': map<nat, int>, stack': seq<nat>)
    requires GraphOk(g) && c < |g.inputs|
    ensures Recording(g, c, |g.inputs[c]|, edges, edges')
    ensures forall x :: Left(left', x) == Left(left, x) + (if x == c then |g.inputs[c]| else 0)
    ensures forall x :: x in stack' <==> x in stack || (x !in explored && x in g.inputs[c])
  {
    edges', left', stack' := edges, left, stack;
    assert forall p: nat :: Occ(g.inputs[c], p, 0) == 0;
    for k := 0 to |g.inputs[c]|
      invariant Recording(g, c, k, edges, edges')
      invariant forall x :: Left(left', x) == Left(left, x) + (if x == c then k else 0)
      invariant forall x :: x in stack' <==> x in stack || (x !in explored && x in g.inputs[c][..k])
    {
      var p := g.inputs[c][k];
      RecordOne(g, c, k, edges, edges', edges'[p := Edges(edges', p) + [c]]);
      edges' := edges'[p := Edges(edges', p) + [c]];
      left' := left'[c := Left(left', c) + 1];
      assert g.inputs[c][..k + 1] == g.inputs[c][..k] + [p];
      if p !in explored {
        stack' := stack' + [p];
      }
    }
    assert g.inputs[c][..|g.inputs[c]|] == g.inputs[c];
  }

  lemma RecordOne(g: Graph, c: nat, k: nat, edges0: map<nat, seq<nat>>, edges: map<nat, seq<nat>>, edges': map<nat,
                  seq<nat>>)
    requires GraphOk(g) && c < |g.inputs| && k < |g.inputs[c]| && Recording(g, c, k, edges0, edges)
    requires edges' == edges[g.inputs[c][k] := Edges(edges, g.inputs[c][k]) + [c]]
    ensures Recording(g, c, k + 1, edges0, edges')
  {
    var p0 := g.inputs[c][k];
    forall p, x
      ensures Occ(Edges(edges', p), x, |Edges(edges', p)|) ==
              Occ(Edges(edges0, p), x, |Edges(edges0, p)|) + (if x == c then Occ(g.inputs[c], p, k + 1) else 0)
    {
      assert Occ(Edges(edges, p), x, |Edges(edges, p)|) ==
        Occ(Edges(edges0, p), x, |Edges(edges0, p)|) + (if x == c then Occ(g.inputs[c], p, k) else 0);
      if p == p0 { OccAppend(Edges(edges, p0), c, x); }
    }
  }

  lemma SearchedSource(g: Graph, explored: set<nat>, edges: map<nat, seq<nat>>, left: map<nat, int>, sources: seq<nat>,
                       c: nat)
    requires GraphOk(g) && Searched(g, explored, edges, left, sources) && c < |g.inputs| && c !in explored &&
             g.isSource[c]
    ensures Searched(g, explored + {c}, edges, left, sources + [c])
  {
    var explored' := explored + {c};
    forall p, x ensures EdgesOk(g, explored', edges, p, x) { assert EdgesOk(g, explored, edges, p, x); }
    forall x ensures LeftOk(g, explored', left, x) { assert LeftOk(g, explored, left, x); }
    assert c !in sources;
  }

  lemma SearchedOp(g: Graph, explored: set<nat>, edges: map<nat, seq<nat>>, left: map<nat, int>, sources: seq<nat>,
                   c: nat, edges': map<nat, seq<nat>>, left': map<nat, int>)
    requires GraphOk(g) && Searched(g, explored, edges, left, sources) && c < |g.inputs| && c !in explored &&
             !g.isSource[c]
    requires Recording(g, c, |g.inputs[c]|, edges, edges')
    requires forall x :: Left(left', x) == Left(left, x) + (if x == c then |g.inputs[c]| else 0)
    ensures Searched(g, explored + {c}, edges', left', sources)
  {
    var explored' := explored + {c};
    forall p, x ensures EdgesOk(g, explored', edges', p, x) {
      assert EdgesOk(g, explored, edges, p, x);
      assert Occ(Edges(edges', p), x, |Edges(edges', p)|) ==
        Occ(Edges(edges, p), x, |Edges(edges, p)|) + (if x == c then Occ(g.inputs[c], p, |g.inputs[c]|) else 0);
    }
    forall x ensures LeftOk(g, explored', left', x) { assert LeftOk(g, explored, left, x); }
  }

  lemma ReadByMore(g: Graph, explored: set<nat>, explored': set<nat>, x: nat)
    requires GraphOk(g) && explored <= explored' && ReadBy(g, explored, x)
    ensures ReadBy(g, explored', x)
  {
  }

  /** Exploring op `c` moves the frontier. */
  lemma FrontierMoves(g: Graph, root: nat, explored: set<nat>, stack: seq<nat>, c: nat, stack': seq<nat>)
    requires GraphOk(g) && Frontier(g, root, explored, stack + [c]) && c !in explored
    requires forall x :: x in stack' <==> x in stack || (x !in explored + {c} && !g.isSource[c] && x in g.inputs[c])
    ensures Frontier(g, root, explored + {c}, stack')
  {
    var explored' := explored + {c};
    assert c in stack + [c] && forall x | x in stack :: x in stack + [c];
    forall x | x in explored' || x in stack' ensures x == root || ReadBy(g, explored', x) {
      if x in explored || x in stack + [c] {
        if x != root { ReadByMore(g, explored, explored', x); }
      } else {
        var i :| 0 <= i < |g.inputs[c]| && g.inputs[c][i] == x;
        assert c in explored';
      }
    }
    forall x | x in explored' || x in stack' ensures Needed(g, root, x) {
      assert Needed(g, root, c);
      if x !in explored && x !in stack + [c] {
        var i :| 0 <= i < |g.inputs[c]| && g.inputs[c][i] == x;
        InputNeeded(g, root, c, i);
      } else {
        assert Needed(g, root, x);
      }
    }
    forall d, i | d in explored' && d < |g.inputs| && !g.isSource[d] && 0 <= i < |g.inputs[d]|
      ensures g.inputs[d][i] in explored' || g.inputs[d][i] in stack'
    {
      if d == c {
        assert g.inputs[c][i] in g.inputs[c];
      } else {
        assert g.inputs[d][i] in explored || g.inputs[d][i] in stack + [c];
      }
    }
  }

  lemma FrontierSkips(g: Graph, root: nat, explored: set<nat>, stack: seq<nat>, c: nat)
    requires GraphOk(g) && Frontier(g, root, explored, stack + [c]) && c in explored
    ensures Frontier(g, root, explored, stack)
  {
    assert forall x | x in stack :: x in stack + [c];
    assert forall x | x in stack + [c] :: x in stack || x == c;
    forall x | x in explored || x in stack ensures Needed(g, root, x) { assert Needed(g, root, x); }
  }

  ghost function Below(n: nat): set<nat> {
    if n == 0 then {} else Below(n - 1) + {n - 1}
  }

  lemma {:induction false} InBelow(n: nat, x: nat)
    ensures x in Below(n) <==> x < n
  {
    if n > 0 { InBelow(n - 1, x); }
  }

  /** The search from the root up to the sources. */
  method Explore(g: Graph, root: nat)
    returns (explored: set<nat>, edges: map<nat, seq<nat>>, left: map<nat, int>, sources: seq<nat>)
    requires GraphOk(g) && root < |g.inputs|
    ensures Searched(g, explored, edges, left, sources) && Frontier(g, root, explored, [])
  {
    explored, edges, left, sources := {}, map[], map[], [];
    var stack: seq<nat> := [root];
    ghost var all := Below(|g.inputs|);
    while stack != []
      invariant Searched(g, explored, edges, left, sources) && Frontier(g, root, explored, stack)
      invariant explored <= all
      decreases all - explored, |stack|
    {
      var c, rest := stack[|stack| - 1], stack[..|stack| - 1];
      assert stack == rest + [c] && c in stack;
      if c in explored {
        FrontierSkips(g, root, explored, rest, c);
        stack := rest;
        continue;
      }
      InBelow(|g.inputs|, c);
      if g.isSource[c] {
        SearchedSource(g, explored, edges, left, sources, c);
        FrontierMoves(g, root, explored, rest, c, rest);
        explored, sources, stack := explored + {c}, sources + [c], rest;
      } else {
        var edges', left', stack' := Expand(g, c, explored + {c}, edges, left, rest);
        SearchedOp(g, explored, edges, left, sources, c, edges', left');
        FrontierMoves(g, root, explored, rest, c, stack');
        explored, edges, left, stack := explored + {c}, edges', left', stack';
      }
    }
  }

  // ---- Down from the sources ---------------------------------------------------------------

  ghost function Members(s: seq<nat>): (r: set<nat>)
    ensures forall x :: x in r <==> x in s
  {
    set x | x in s
  }

  ghost predicate IsOp(g: Graph, explored: set<nat>, x: nat)
    requires GraphOk(g)
  {
    x in explored && x < |g.inputs| && !g.isSource[x]
  }

  /** Inputs of `x` that have not been sorted in. */
  ghost function OpenIn(g: Graph, done: set<nat>, x: nat): nat
    requires GraphOk(g)
  {
    if x < |g.inputs| && !g.isSource[x] then Open(g.inputs[x], done, |g.inputs[x]|) else 0
  }

  ghost predicate Ready(g: Graph, explored: set<nat>, done: set<nat>, x: nat)
    requires GraphOk(g)
  {
    x in explored && OpenIn(g, done, x) == 0
  }

  /** Everything that the op at position `i` reads from stands before it. */
  ghost predicate AfterInputs(g: Graph, sorted: seq<nat>, i: nat)
    requires GraphOk(g) && i < |sorted|
  {
    sorted[i] < |g.inputs| && (!g.isSource[sorted[i]] ==>
                               forall q | 0 <= q < |g.inputs[sorted[i]]| :: g.inputs[sorted[i]][q] in sorted[..i])
  }

  ghost predicate CountOk(g: Graph, explored: set<nat>, done: set<nat>, left: map<nat, int>, x: nat)
    requires GraphOk(g)
  {
    IsOp(g, explored, x) ==> Left(left, x) == OpenIn(g, done, x)
  }

  ghost predicate Sorting(g: Graph, explored: set<nat>, left: map<nat, int>, stack: seq<nat>, sorted: seq<nat>)
    requires GraphOk(g)
  {
    && Distinct(sorted) && Distinct(stack) && (forall x | x in stack :: x !in sorted)
    && (forall x {:trigger CountOk(g, explored, Members(sorted), left, x)} ::
        CountOk(g, explored, Members(sorted), left, x))
    && (forall x {:trigger Ready(g, explored, Members(sorted), x)} :: x in sorted || x in stack <==>
        Ready(g, explored, Members(sorted), x))
    && (forall i | 0 <= i < |sorted| :: AfterInputs(g, sorted, i))
  }

  lemma DistinctLast(rest: seq<nat>, c: nat)
    requires Distinct(rest + [c])
    ensures Distinct(rest) && c !in rest
  {
    var s := rest + [c];
    forall i | 0 <= i < |rest| ensures rest[i] != c { assert s[i] != s[|rest|]; }
    forall i, j | 0 <= i < j < |rest| ensures rest[i] != rest[j] { assert s[i] != s[j]; }
  }

  /** Op `c` has been sorted in and the first `j` of its edges have been counted off. */
  ghost predicate Releasing(g: Graph, explored: set<nat>, done: set<nat>, children: seq<nat>, j: nat, rest: seq<nat>,
                            left: map<nat, int>, stack: seq<nat>)
    requires GraphOk(g) && j <= |children|
  {
    && Distinct(stack)
    && (forall x {:trigger Occ(children, x, j)} | IsOp(g, explored, x) ::
        Left(left, x) == OpenIn(g, done, x) - Occ(children, x, j))
    && (forall x {:trigger Left(left, x)} :: x in stack <==>
        x in rest || (IsOp(g, explored, x) && OpenIn(g, done, x) > 0 && Left(left, x) == 0))
  }

  lemma ReleaseOne(g: Graph, explored: set<nat>, done: set<nat>, children: seq<nat>, j: nat, rest: seq<nat>,
                   left: map<nat, int>, stack: seq<nat>, left': map<nat, int>, stack': seq<nat>)
    requires GraphOk(g) && j < |children| && Releasing(g, explored, done, children, j, rest, left, stack)
    requires IsOp(g, explored, children[j]) && Left(left, children[j]) >= 1 && children[j] !in rest
    requires left' == left[children[j] := Left(left, children[j]) - 1]
    requires stack' == if Left(left', children[j]) == 0 then stack + [children[j]] else stack
    ensures Releasing(g, explored, done, children, j + 1, rest, left', stack')
  {
    var y := children[j];
    assert Left(left, y) == OpenIn(g, done, y) - Occ(children, y, j);
    assert y !in stack;
    forall x | IsOp(g, explored, x) ensures Left(left', x) == OpenIn(g, done, x) - Occ(children, x, j + 1) {
      assert Left(left, x) == OpenIn(g, done, x) - Occ(children, x, j);
    }
    forall x: nat
      ensures x in stack' <==> x in rest || (IsOp(g, explored, x) && OpenIn(g, done, x) > 0 && Left(left', x) == 0)
    {
      var l, l' := Left(left, x), Left(left', x);
      assert x in stack <==> x in rest || (IsOp(g, explored, x) && OpenIn(g, done, x) > 0 && l == 0);
      assert x != y ==> l' == l;
    }
  }

  /** Ops that wait for an edge still have an open input. */
  lemma ChildOpen(g: Graph, explored: set<nat>, edges: map<nat, seq<nat>>, left0: map<nat, int>, sources: seq<nat>,
                  done: set<nat>, c: nat, j: nat)
    requires GraphOk(g) && Searched(g, explored, edges, left0, sources) && c !in done && j < |Edges(edges, c)|
    ensures var y := Edges(edges, c)[j];
            IsOp(g, explored, y) && Occ(Edges(edges, c), y, j) + 1 <= OpenIn(g, done, y)
  {
    var children := Edges(edges, c);
    var y := children[j];
    assert EdgesOk(g, explored, edges, c, y);
    OccMonotone(children, y, j + 1, |children|);
    OpenMinus(g.inputs[y], done, c, |g.inputs[y]|);
  }

  /** Counts off the edges of op `c` and puts those ops on the stack that wait for nothing else. */
  method Release(g: Graph, c: nat, edges: map<nat, seq<nat>>, left: map<nat, int>, rest: seq<nat>,
                 ghost explored: set<nat>, ghost left0: map<nat, int>, ghost sources: seq<nat>, ghost done: set<nat>)
    returns (left': map<nat, int>, stack: seq<nat>)
    requires GraphOk(g) && Searched(g, explored, edges, left0, sources) && c !in done && Distinct(rest)
    requires forall x :: CountOk(g, explored, done, left, x)
    requires forall x | x in rest :: OpenIn(g, done, x) == 0
    ensures Releasing(g, explored, done, Edges(edges, c), |Edges(edges, c)|, rest, left', stack)
  {
    left', stack := left, rest;
    var children := Edges(edges, c);
    assert Releasing(g, explored, done, children, 0, rest, left, rest) by {
      forall x | IsOp(g, explored, x)
        ensures Left(left, x) == OpenIn(g, done, x) - Occ(children, x, 0)
      {
        assert CountOk(g, explored, done, left, x);
      }
      forall x
        ensures x in rest <==> x in rest || (IsOp(g, explored, x) && OpenIn(g, done, x) > 0 && Left(left, x) == 0)
      {
        assert CountOk(g, explored, done, left, x);
      }
    }
    for j := 0 to |children|
      invariant Releasing(g, explored, done, children, j, rest, left', stack)
    {
      var y := children[j];
      ChildOpen(g, explored, edges, left0, sources, done, c, j);
      assert Left(left', y) == OpenIn(g, done, y) - Occ(children, y, j);
      ghost var before, beforeStack := left', stack;
      left' := left'[y := Left(left', y) - 1];
      if Left(left', y) == 0 {
        stack := stack + [y];
      }
      ReleaseOne(g, explored, done, children, j, rest, before, beforeStack, left', stack);
    }
  }

  lemma OpenAfter(g: Graph, explored: set<nat>, edges: map<nat, seq<nat>>, left0: map<nat, int>, sources: seq<nat>,
                  done: set<nat>, c: nat, x: nat)
    requires GraphOk(g) && Searched(g, explored, edges, left0, sources) && c !in done && IsOp(g, explored, x)
    ensures OpenIn(g, done + {c}, x) == OpenIn(g, done, x) - Occ(Edges(edges, c), x, |Edges(edges, c)|)
  {
    assert EdgesOk(g, explored, edges, c, x);
    OpenMinus(g.inputs[x], done, c, |g.inputs[x]|);
  }

  /** Sorting in one more op whose inputs are all sorted in. */
  lemma InputsBefore(g: Graph, sorted: seq<nat>, c: nat, i: nat)
    requires GraphOk(g) && c < |g.inputs| && OpenIn(g, Members(sorted), c) == 0 && i <= |sorted|
    requires forall i | 0 <= i < |sorted| :: AfterInputs(g, sorted, i)
    ensures AfterInputs(g, sorted + [c], i)
  {
    if i == |sorted| {
      assert (sorted + [c])[..i] == sorted;
      if !g.isSource[c] { OpenZero(g.inputs[c], Members(sorted), |g.inputs[c]|); }
    } else {
      assert (sorted + [c])[..i] == sorted[..i];
      assert AfterInputs(g, sorted, i);
    }
  }

  lemma SortStep(g: Graph, explored: set<nat>, edges: map<nat, seq<nat>>, left0: map<nat, int>, sources: seq<nat>,
                 left: map<nat, int>, rest: seq<nat>, c: nat, sorted: seq<nat>, left': map<nat, int>, stack': seq<nat>,
                   sorted': seq<nat>)
    requires GraphOk(g) && Searched(g, explored, edges, left0, sources) &&
             Sorting(g, explored, left, rest + [c], sorted)
    requires sorted' == sorted + [c] && Releasing(g, explored, Members(sorted), Edges(edges, c), |Edges(edges, c)|,
                                                  rest, left', stack')
    ensures Sorting(g, explored, left', stack', sorted')
  {
    DistinctLast(rest, c);
    var done, done', children := Members(sorted), Members(sorted'), Edges(edges, c);
    assert c in rest + [c] && Ready(g, explored, done, c);
    assert done' == done + {c};
    forall x: nat ensures CountOk(g, explored, done', left', x) {
      if IsOp(g, explored, x) {
        OpenAfter(g, explored, edges, left0, sources, done, c, x);
        assert Left(left', x) == OpenIn(g, done, x) - Occ(children, x, |children|);
      }
    }
    forall x: nat ensures x in sorted' || x in stack' <==> Ready(g, explored, done', x) {
      assert CountOk(g, explored, done', left', x);
      var l := Left(left', x);
      assert x in stack' <==> x in rest || (IsOp(g, explored, x) && OpenIn(g, done, x) > 0 && l == 0);
      assert x in sorted || x in rest + [c] <==> Ready(g, explored, done, x);
      assert x in rest + [c] <==> x in rest || x == c;
      if IsOp(g, explored, x) { OpenAfter(g, explored, edges, left0, sources, done, c, x); }
    }
    forall x | x in stack' ensures x !in sorted' {
      var l := Left(left', x);
      assert x in rest ==> x in rest + [c] && x != c;
      assert x in sorted || x in rest + [c] <==> Ready(g, explored, done, x);
    }
    forall i | 0 <= i < |sorted'| ensures AfterInputs(g, sorted', i) { InputsBefore(g, sorted, c, i); }
  }

  lemma SortStart(g: Graph, explored: set<nat>, edges: map<nat, seq<nat>>, left: map<nat, int>, sources: seq<nat>)
    requires GraphOk(g) && Searched(g, explored, edges, left, sources)
    requires forall x: nat | IsOp(g, explored, x) :: g.inputs[x] != []
    ensures Sorting(g, explored, left, sources, [])
  {
    assert Members([]) == {};
    forall x: nat
      ensures CountOk(g, explored, Members([]), left, x) && (x in sources <==> Ready(g, explored, Members([]), x))
    {
      assert LeftOk(g, explored, left, x);
      if IsOp(g, explored, x) { OpenZero(g.inputs[x], {}, |g.inputs[x]|); }
    }
  }

  /** When the stack is empty, everything has been sorted in. */
  lemma {:induction false} AllSorted(g: Graph, explored: set<nat>, left: map<nat, int>, sorted: seq<nat>,
                                     rank: nat -> nat, x: nat)
    requires GraphOk(g) && Acyclic(g, rank) && Closed(g, explored) && (forall y | y in explored :: y < |g.inputs|)
    requires Sorting(g, explored, left, [], sorted) && x in explored
    ensures x in sorted
    decreases rank(x)
  {
    if !g.isSource[x] {
      forall i | 0 <= i < |g.inputs[x]| ensures g.inputs[x][i] in Members(sorted) {
        AllSorted(g, explored, left, sorted, rank, g.inputs[x][i]);
      }
      OpenZero(g.inputs[x], Members(sorted), |g.inputs[x]|);
    }
    assert Ready(g, explored, Members(sorted), x);
  }

  lemma InputPosition(g: Graph, sorted: seq<nat>, k: nat, i: nat) returns (q: nat)
    requires GraphOk(g) && k < |sorted| && AfterInputs(g, sorted, k) && !g.isSource[sorted[k]] &&
             i < |g.inputs[sorted[k]]|
    ensures q < k && sorted[q] == g.inputs[sorted[k]][i]
  {
    assert g.inputs[sorted[k]][i] in sorted[..k];
    q :| 0 <= q < k && sorted[..k][q] == g.inputs[sorted[k]][i];
  }

  /** Only the root is not read by another op, so it comes last. */
  lemma RootLast(g: Graph, root: nat, explored: set<nat>, sorted: seq<nat>)
    requires GraphOk(g) && Frontier(g, root, explored, []) && Distinct(sorted) && sorted != []
    requires forall x :: x in sorted <==> x in explored
    requires forall i | 0 <= i < |sorted| :: AfterInputs(g, sorted, i)
    ensures sorted[|sorted| - 1] == root
  {
    var x := sorted[|sorted| - 1];
    assert x in sorted && x in explored;
    if ReadBy(g, explored, x) {
      var c, i :| c in explored && c < |g.inputs| && !g.isSource[c] && 0 <= i < |g.inputs[c]| && g.inputs[c][i] == x;
      var k :| 0 <= k < |sorted| && sorted[k] == c;
      var q := InputPosition(g, sorted, k, i);
    }
  }

  /** `_toposort`: for any graph without cycles in which every op that is not a source reads from something,
  the ops that the root depends on, each once, each after all that it reads from, a source first and the
  root last. */
  method Sort(g: Graph, root: nat, ghost rank: nat -> nat) returns (sorted: seq<nat>, ghost explored: set<nat>)
    requires GraphOk(g) && Acyclic(g, rank) && root < |g.inputs|
    requires forall c | 0 <= c < |g.inputs| && !g.isSource[c] :: g.inputs[c] != []
    ensures Closed(g, explored) && root in explored && forall s: set<nat> | Closed(g, s) && root in s :: explored <= s
    ensures Distinct(sorted) && forall x :: x in sorted <==> x in explored
    ensures forall i | 0 <= i < |sorted| :: AfterInputs(g, sorted, i)
    ensures sorted != [] && sorted[0] < |g.isSource| && g.isSource[sorted[0]] && sorted[|sorted| - 1] == root
  {
    var edges, left, sources;
    explored, edges, left, sources := Explore(g, root);
    ghost var left0 := left;
    SortStart(g, explored, edges, left, sources);
    sorted := [];
    var stack := sources;
    while stack != []
      invariant Sorting(g, explored, left, stack, sorted)
      decreases explored - Members(sorted)
    {
      var c, rest := stack[|stack| - 1], stack[..|stack| - 1];
      assert stack == rest + [c] && c in stack;
      assert Ready(g, explored, Members(sorted), c);
      DistinctLast(rest, c);
      forall x | x in rest
        ensures OpenIn(g, Members(sorted), x) == 0
      {
        assert x in stack && Ready(g, explored, Members(sorted), x);
      }
      ghost var before, beforeLeft := sorted, left;
      sorted := sorted + [c];
      assert Members(sorted) == Members(before) + {c};
      left, stack := Release(g, c, edges, left, rest, explored, left0, sources, Members(before));
      SortStep(g, explored, edges, left0, sources, beforeLeft, rest, c, before, left, stack, sorted);
    }
    SortDone(g, root, explored, left, sorted, rank);
  }

  lemma SortDone(g: Graph, root: nat, explored: set<nat>, left: map<nat, int>, sorted: seq<nat>, rank: nat -> nat)
    requires GraphOk(g) && Acyclic(g, rank) && Frontier(g, root, explored, []) && Sorting(g, explored, left, [], sorted)
    requires (forall y | y in explored :: y < |g.inputs|) && forall c | 0 <= c < |g.inputs| &&
             !g.isSource[c] :: g.inputs[c] != []
    ensures Closed(g, explored) && root in explored && forall s: set<nat> | Closed(g, s) && root in s :: explored <= s
    ensures Distinct(sorted) && forall x :: x in sorted <==> x in explored
    ensures sorted != [] && sorted[0] < |g.isSource| && g.isSource[sorted[0]] && sorted[|sorted| - 1] == root
  {
    forall x ensures x in sorted <==> x in explored {
      if x in explored { AllSorted(g, explored, left, sorted, rank, x); }
      if x in sorted { assert Ready(g, explored, Members(sorted), x); }
    }
    RootLast(g, root, explored, sorted);
    assert AfterInputs(g, sorted, 0);
    forall s: set<nat>, x | Closed(g, s) && root in s && x in explored ensures x in s { assert Needed(g, root, x); }
    if !g.isSource[sorted[0]] { var q := InputPosition(g, sorted, 0, 0); }
  }
}
