/** Liveness analysis (`perform_liveness_analysis`): turns the named columns that ops read into
positions in the list of columns that the evaluator carries from op to op, and says when a column
can be dropped from that list. */
module Liveness {
  import opened Rows
  import opened Dag

  /** An output column of an op with the last op known to use it. */
  datatype Intermediate = Intermediate(name: string, lastUsed: int)

  datatype Analysis = Analysis(
    live: seq<seq<ColRef>>,
    dead: seq<seq<int>>,
    unused: seq<seq<int>>,
    mapping: seq<seq<int>>)

  // ---- Erasing positions -------------------------------------------------------------------

  /** The first `n` items of `s` without those at the positions `drop`. */
  function Without<T>(s: seq<T>, drop: seq<int>, n: nat): seq<T>
    requires n <= |s|
  {
    if n == 0 then [] else Without(s, drop, n - 1) + (if n - 1 in drop then [] else [s[n - 1]])
  }

  lemma {:induction false} WithoutFrame<T>(s: seq<T>, t: seq<T>, drop: seq<int>, drop': seq<int>, n: nat)
    requires n <= |s| && n <= |t|
    requires forall p | 0 <= p < n :: s[p] == t[p] && (p in drop <==> p in drop')
    ensures Without(s, drop, n) == Without(t, drop', n)
  {
    if n > 0 { WithoutFrame(s, t, drop, drop', n - 1); }
  }

  /** Positions past the end of `drop` stay. */
  lemma {:induction false} WithoutTail<T>(s: seq<T>, t: seq<T>, drop: seq<int>, n: nat)
    requires n <= |t| && forall p | p in drop :: p < |s|
    ensures Without(s + t, drop, |s| + n) == Without(s, drop, |s|) + t[..n]
  {
    if n == 0 {
      WithoutFrame(s + t, s, drop, drop, |s|);
    } else {
      WithoutTail(s, t, drop, n - 1);
      assert t[..n] == t[..n - 1] + [t[n - 1]];
    }
  }

  /** Parallel lists stay parallel. */
  lemma {:induction false} WithoutAligned<S, T>(s: seq<S>, t: seq<T>, drop: seq<int>, n: nat, p: nat) returns (q: nat)
    requires n <= |s| && n <= |t| && p < |Without(s, drop, n)|
    ensures |Without(t, drop, n)| == |Without(s, drop, n)|
    ensures q < n && Without(s, drop, n)[p] == s[q] && Without(t, drop, n)[p] == t[q]
  {
    SameLength(s, t, drop, n - 1);
    if p < |Without(s, drop, n - 1)| {
      q := WithoutAligned(s, t, drop, n - 1, p);
    } else {
      q := n - 1;
    }
  }

  lemma {:induction false} SameLength<S, T>(s: seq<S>, t: seq<T>, drop: seq<int>, n: nat)
    requires n <= |s| && n <= |t|
    ensures |Without(s, drop, n)| == |Without(t, drop, n)|
  {
    if n > 0 { SameLength(s, t, drop, n - 1); }
  }

  /** Ascending positions in a list of `n` items. */
  ghost predicate Positions(drop: seq<int>, n: nat) {
    Ascending(drop) && forall p | p in drop :: 0 <= p < n
  }

  /** `vector::erase`. */
  function Erase<T>(s: seq<T>, at: int): seq<T>
    requires 0 <= at < |s|
  {
    s[..at] + s[at + 1..]
  }

  /** Erases positions from the back, as the evaluator does with a vector. */
  method EraseAll<T>(s: seq<T>, drop: seq<int>) returns (r: seq<T>)
    requires Positions(drop, |s|)
    ensures r == Without(s, drop, |s|)
  {
    r := s;
    var left := |drop|;
    assert drop[..left] == drop;
    while left > 0
      invariant 0 <= left <= |drop|
      invariant Positions(drop[..left], |r|)
      invariant Without(r, drop[..left], |r|) == Without(s, drop, |s|)
    {
      EraseOne(r, drop[..left], drop[..left - 1], drop[left - 1]);
      left := left - 1;
      r := Erase(r, drop[left]);
    }
    NothingErased(r, |r|);
  }

  lemma {:induction false} NothingErased<T>(s: seq<T>, n: nat)
    requires n <= |s|
    ensures Without(s, [], n) == s[..n]
  {
    if n > 0 { NothingErased(s, n - 1); }
  }

  lemma LastPosition(drop: seq<int>, rest: seq<int>, at: int, n: nat)
    requires Positions(drop, n) && drop == rest + [at]
    ensures 0 <= at < n && Positions(rest, at)
    ensures forall p :: p in drop <==> p in rest || p == at
  {
    assert drop[|rest|] == at && at in drop;
    forall p | p in rest ensures 0 <= p < at {
      var q :| 0 <= q < |rest| && rest[q] == p;
      assert drop[q] == p && p in drop;
    }
    forall i, j | 0 <= i < j < |rest| ensures rest[i] < rest[j] { assert drop[i] < drop[j]; }
  }

  lemma EraseOne<T>(s: seq<T>, drop: seq<int>, rest: seq<int>, at: int)
    requires Positions(drop, |s|) && drop == rest + [at]
    ensures 0 <= at < |s| && Positions(rest, |s| - 1)
    ensures Without(Erase(s, at), rest, |s| - 1) == Without(s, drop, |s|)
  {
    LastPosition(drop, rest, at, |s|);
    var a, b := s[..at], s[at + 1..];
    assert b[..|b|] == b;
    assert Without(s, drop, at) == Without(a, rest, at) by { WithoutFrame(s, a, drop, rest, at); }
    assert Without(a + b, rest, at + |b|) == Without(a, rest, at) + b by { WithoutTail(a, b, rest, |b|); }
    assert Without(s, drop, |s|) == Without(s, drop, at + 1) + b by { LaterStay(s, drop, at + 1, |b|); }
  }

  lemma {:induction false} LaterStay<T>(s: seq<T>, drop: seq<int>, from: nat, n: nat)
    requires from + n <= |s| && forall p | p in drop :: p < from
    ensures Without(s, drop, from + n) == Without(s, drop, from) + s[from..][..n]
  {
    if n > 0 {
      LaterStay(s, drop, from, n - 1);
      assert s[from..][..n] == s[from..][..n - 1] + [s[from + n - 1]];
    }
  }

  // ---- What the analysis computes ----------------------------------------------------------

  predicate Reading(g: Graph, k: nat, c: ColRef) {
    k < |g.ops| && c in g.ops[k].inputs
  }

  /** The last of the ops before `k` to read column `c`. Columns that nobody reads count as used by
  the op itself, those of the Source by op 1. */
  function LastUse(g: Graph, c: ColRef, k: nat): int
    decreases k
  {
    if k <= c.op + 1 then (if c.op == 0 then 1 else c.op)
    else if Reading(g, k - 1, c) then k - 1
    else LastUse(g, c, k - 1)
  }

  function Use(g: Graph, c: ColRef): int {
    LastUse(g, c, |g.ops|)
  }

  function Col(g: Graph, j: nat, c: nat): ColRef
    requires j < |g.ops| && c < |g.ops[j].outputs|
  {
    ColRef(j, g.ops[j].outputs[c])
  }

  /** Columns of the ops before `j` and the first `c` columns of op `j` that are used after op `i`. */
  function LiveTo(g: Graph, i: nat, j: nat, c: nat): seq<ColRef>
    requires j < |g.ops| && c <= |g.ops[j].outputs|
    decreases j, c
  {
    if c > 0 then LiveTo(g, i, j, c - 1) + (if Use(g, Col(g, j, c - 1)) > i then [Col(g, j, c - 1)] else [])
    else if j > 0 then LiveTo(g, i, j - 1, |g.ops[j - 1].outputs|)
    else []
  }

  /** Where in the list of live columns before op `i` the columns are that op `i` uses last. */
  function DeadTo(g: Graph, i: nat, j: nat, c: nat): seq<int>
    requires 0 < i && j < |g.ops| && c <= |g.ops[j].outputs|
    decreases j, c
  {
    if c > 0 then
      DeadTo(g, i, j, c - 1) + (if Use(g, Col(g, j, c - 1)) == i then [|LiveTo(g, i - 1, j, c - 1)|] else [])
    else if j > 0 then DeadTo(g, i, j - 1, |g.ops[j - 1].outputs|)
    else []
  }

  /** Those of the first `c` outputs of op `i` that nobody uses. */
  function UnusedTo(g: Graph, i: nat, c: nat): seq<int>
    requires i < |g.ops| && c <= |g.ops[i].outputs|
  {
    if c == 0 then [] else UnusedTo(g, i, c - 1) + (if Use(g, Col(g, i, c - 1)) == i then [c - 1] else [])
  }

  function Outputs(g: Graph, k: nat): (r: seq<ColRef>)
    requires k < |g.ops|
    ensures |r| == |g.ops[k].outputs| && forall c | 0 <= c < |r| :: r[c] == Col(g, k, c)
  {
    seq(|g.ops[k].outputs|, c requires 0 <= c < |g.ops[k].outputs| => Col(g, k, c))
  }

  /** The list of live columns after op `i`. The sink adds none. */
  function LiveAfter(g: Graph, i: nat): seq<ColRef>
    requires |g.ops| >= 2
  {
    var last := if i < |g.ops| - 2 then i else |g.ops| - 2;
    LiveTo(g, i, last, |g.ops[last].outputs|)
  }

  // ---- Live columns are the columns still to be read ---------------------------------------

  lemma {:induction false} LastUseMeaning(g: Graph, c: ColRef, k: nat, i: nat)
    ensures LastUse(g, c, k) > i <==>
            (exists r :: i < r < k && c.op < r && Reading(g, r, c)) ||
            ((if c.op == 0 then 1 else c.op) > i && !exists r :: c.op < r < k && Reading(g, r, c))
    ensures c.op <= LastUse(g, c, k)
  {
    if k > c.op + 1 {
      LastUseMeaning(g, c, k - 1, i);
      if !Reading(g, k - 1, c) {
        assert forall r | c.op < r < k && Reading(g, r, c) :: r < k - 1;
      } else {
        assert c.op < k - 1 < k && Reading(g, k - 1, c);
      }
    }
  }

  lemma {:induction false} LiveMembers(g: Graph, i: nat, j: nat, c: nat, x: ColRef)
    requires j < |g.ops| && c <= |g.ops[j].outputs|
    ensures x in LiveTo(g, i, j, c) <==>
            Use(g, x) > i && ((x.op < j && x.name in g.ops[x.op].outputs) ||
                              (x.op == j && x.name in g.ops[j].outputs[..c]))
    decreases j, c
  {
    if c > 0 {
      LiveMembers(g, i, j, c - 1, x);
      assert g.ops[j].outputs[..c] == g.ops[j].outputs[..c - 1] + [g.ops[j].outputs[c - 1]];
    } else if j > 0 {
      LiveMembers(g, i, j - 1, |g.ops[j - 1].outputs|, x);
      assert g.ops[j - 1].outputs[..|g.ops[j - 1].outputs|] == g.ops[j - 1].outputs;
    }
  }

  /** After op `i`, the live columns are the outputs of ops up to `i` that a later op reads. Before
  the first op, all source columns are live. */
  lemma LiveIsReadLater(g: Graph, i: nat, x: ColRef)
    requires GraphOk(g) && i <= |g.ops| - 2
    ensures x in LiveAfter(g, i) <==>
            x.op <= i && x.name in g.ops[x.op].outputs &&
              ((i == 0 && x.op == 0) || exists r :: i < r && Reading(g, r, x))
  {
    LiveMembers(g, i, i, |g.ops[i].outputs|, x);
    assert g.ops[i].outputs[..|g.ops[i].outputs|] == g.ops[i].outputs;
    LastUseMeaning(g, x, |g.ops|, i);
    forall r | i < r && Reading(g, r, x) ensures x.op < r < |g.ops| {
      assert OpOk(g, r);
      var q :| 0 <= q < |g.ops[r].inputs| && g.ops[r].inputs[q] == x;
      assert EdgeOk(g, r, g.ops[r].inputs[q]);
    }
  }

  // ---- How the list changes at an op -------------------------------------------------------

  lemma {:induction false} DeadShape(g: Graph, i: nat, j: nat, c: nat)
    requires 0 < i && j < |g.ops| && c <= |g.ops[j].outputs|
    ensures Ascending(DeadTo(g, i, j, c))
    ensures forall p | p in DeadTo(g, i, j, c) :: 0 <= p < |LiveTo(g, i - 1, j, c)|
    decreases j, c
  {
    if c > 0 {
      DeadShape(g, i, j, c - 1);
      var d, at := DeadTo(g, i, j, c - 1), |LiveTo(g, i - 1, j, c - 1)|;
      forall q | 0 <= q < |d| ensures d[q] < at { assert d[q] in d; }
    } else if j > 0 {
      DeadShape(g, i, j - 1, |g.ops[j - 1].outputs|);
    }
  }

  /** One more column: if it is live before op `i`, it is dropped exactly if op `i` uses it last. */
  lemma DropOne<T>(before: seq<T>, dead: seq<int>, col: seq<T>, drop: bool)
    requires |col| <= 1 && (forall p | p in dead :: 0 <= p < |before|) && (drop ==> |col| == 1)
    ensures Without(before + col, dead + (if drop then [|before|] else []), |before + col|) ==
            Without(before, dead, |before|) + (if drop then [] else col)
  {
    var dead' := dead + (if drop then [|before|] else []);
    WithoutFrame(before, before + col, dead, dead', |before|);
    if |col| == 1 {
      assert |before| in dead' <==> drop;
      assert (before + col)[|before|] == col[0];
    } else {
      assert before + col == before;
    }
  }

  /** Dropping the dead columns from the columns live before an op leaves those live after it. */
  lemma {:induction false} DropDead(g: Graph, i: nat, j: nat, c: nat)
    requires 0 < i && j < |g.ops| && c <= |g.ops[j].outputs|
    ensures Without(LiveTo(g, i - 1, j, c), DeadTo(g, i, j, c), |LiveTo(g, i - 1, j, c)|) == LiveTo(g, i, j, c)
    decreases j, c
  {
    if c > 0 {
      DropDead(g, i, j, c - 1);
      DeadShape(g, i, j, c - 1);
      var use, col := Use(g, Col(g, j, c - 1)), Col(g, j, c - 1);
      DropOne(LiveTo(g, i - 1, j, c - 1), DeadTo(g, i, j, c - 1), if use > i - 1 then [col] else [], use == i);
    } else if j > 0 {
      DropDead(g, i, j - 1, |g.ops[j - 1].outputs|);
    }
  }

  lemma {:induction false} UnusedShape(g: Graph, i: nat, c: nat)
    requires i < |g.ops| && c <= |g.ops[i].outputs|
    ensures Ascending(UnusedTo(g, i, c)) && forall p | p in UnusedTo(g, i, c) :: 0 <= p < c
  {
    if c > 0 {
      UnusedShape(g, i, c - 1);
      var u := UnusedTo(g, i, c - 1);
      forall q | 0 <= q < |u| ensures u[q] < c - 1 { assert u[q] in u; }
    }
  }

  /** The outputs of op `i` without the unused ones join the live columns. */
  lemma {:induction false} AddUsed(g: Graph, i: nat, c: nat)
    requires i < |g.ops| && c <= |g.ops[i].outputs|
    ensures LiveTo(g, i, i, c) == LiveTo(g, i, i, 0) + Without(Outputs(g, i), UnusedTo(g, i, c), c)
  {
    if c > 0 {
      AddUsed(g, i, c - 1);
      UnusedShape(g, i, c - 1);
      WithoutFrame(Outputs(g, i), Outputs(g, i), UnusedTo(g, i, c - 1), UnusedTo(g, i, c), c - 1);
      LastUseMeaning(g, Col(g, i, c - 1), |g.ops|, i);
    }
  }

  function Dead(g: Graph, k: nat): seq<int>
    requires 0 < k < |g.ops|
  {
    DeadTo(g, k, k - 1, |g.ops[k - 1].outputs|)
  }

  function Unused(g: Graph, k: nat): seq<int>
    requires k < |g.ops|
  {
    UnusedTo(g, k, |g.ops[k].outputs|)
  }

  lemma DeadPositions(g: Graph, k: nat)
    requires GraphOk(g) && 0 < k < |g.ops|
    ensures Positions(Dead(g, k), |LiveAfter(g, k - 1)|) && Positions(Unused(g, k), |g.ops[k].outputs|)
  {
    DeadShape(g, k, k - 1, |g.ops[k - 1].outputs|);
    UnusedShape(g, k, |g.ops[k].outputs|);
  }

  /** Dropping the dead columns and adding the used outputs leads from the columns live before an
  op to those live after it. */
  lemma LiveStep(g: Graph, k: nat)
    requires GraphOk(g) && 0 < k < |g.ops| - 1
    ensures LiveAfter(g, k) ==
            Without(LiveAfter(g, k - 1), Dead(g, k), |LiveAfter(g, k - 1)|) +
            Without(Outputs(g, k), Unused(g, k), |g.ops[k].outputs|)
  {
    DropDead(g, k, k - 1, |g.ops[k - 1].outputs|);
    AddUsed(g, k, |g.ops[k].outputs|);
  }

  /** `mapping` finds each of `cols` in `before`. */
  ghost predicate Selects(mapping: seq<int>, before: seq<ColRef>, cols: seq<ColRef>) {
    && |mapping| == |cols|
    && forall i | 0 <= i < |mapping| :: 0 <= mapping[i] < |before| && before[mapping[i]] == cols[i]
  }

  /** What the evaluator relies on, for op `k`. */
  ghost predicate StepOk(g: Graph, a: Analysis, k: nat)
    requires GraphOk(g) && 0 < k < |g.ops| == |a.live| == |a.dead| == |a.unused| == |a.mapping|
  {
    var before := a.live[k - 1];
    && Positions(a.dead[k], |before|) && Positions(a.unused[k], |g.ops[k].outputs|)
    && Selects(a.mapping[k], before, g.ops[k].inputs)
    && (k < |g.ops| - 1 ==>
          a.live[k] == Without(before, a.dead[k], |before|) + Without(Outputs(g, k), a.unused[k], |g.ops[k].outputs|))
  }

  /** The analysis is right: the list starts with all source columns, each op finds the columns it
  names at their positions, and dropping dead columns and adding used outputs leads from one list of
  live columns to the next, where a column is live exactly when a later op reads it. */
  ghost predicate Correct(g: Graph, a: Analysis)
    requires GraphOk(g)
  {
    && |a.live| == |a.dead| == |a.unused| == |a.mapping| == |g.ops|
    && a.live[0] == Outputs(g, 0)
    && (forall k {:trigger StepOk(g, a, k)} | 0 < k < |g.ops| :: StepOk(g, a, k))
    && (forall k {:trigger LiveAfter(g, k)} | 0 <= k < |g.ops| - 1 :: a.live[k] == LiveAfter(g, k))
  }

  lemma {:induction false} SourceLive(g: Graph, c: nat)
    requires GraphOk(g) && c <= |g.ops[0].outputs|
    ensures LiveTo(g, 0, 0, c) == Outputs(g, 0)[..c]
  {
    if c > 0 {
      SourceLive(g, c - 1);
      LastUseMeaning(g, Col(g, 0, c - 1), |g.ops|, 0);
      assert Outputs(g, 0)[..c] == Outputs(g, 0)[..c - 1] + [Col(g, 0, c - 1)];
    }
  }

  lemma InputLive(g: Graph, k: nat, i: nat)
    requires GraphOk(g) && 0 < k < |g.ops| && i < |g.ops[k].inputs|
    ensures g.ops[k].inputs[i] in LiveAfter(g, k - 1)
  {
    assert OpOk(g, k) && EdgeOk(g, k, g.ops[k].inputs[i]);
    LiveIsReadLater(g, k - 1, g.ops[k].inputs[i]);
    assert Reading(g, k, g.ops[k].inputs[i]);
  }

  // ---- Positions in the live list ----------------------------------------------------------

  lemma {:induction false} LivePrefix(g: Graph, i: nat, j: nat, c: nat, J: nat, C: nat)
    requires J < |g.ops| && C <= |g.ops[J].outputs| && j <= J && c <= |g.ops[j].outputs| && (j == J ==> c <= C)
    ensures LiveTo(g, i, j, c) <= LiveTo(g, i, J, C)
    decreases J, C
  {
    if j < J || c < C {
      if C > 0 { LivePrefix(g, i, j, c, J, C - 1); } else { LivePrefix(g, i, j, c, J - 1, |g.ops[J - 1].outputs|); }
    }
  }

  /** A live column is first found where the walk over all columns meets it. */
  lemma LivePosition(g: Graph, i: nat, j: nat, c: nat, J: nat, C: nat)
    requires GraphOk(g) && J < |g.ops| && C <= |g.ops[J].outputs| && j <= J && c < |g.ops[j].outputs| &&
             (j == J ==> c < C)
    requires Use(g, Col(g, j, c)) > i
    ensures Col(g, j, c) in LiveTo(g, i, J, C)
    ensures IndexOf(LiveTo(g, i, J, C), Col(g, j, c)) == |LiveTo(g, i, j, c)|
  {
    assert OpOk(g, j);
    LivePrefix(g, i, j, c + 1, J, C);
    LiveMembers(g, i, j, c, Col(g, j, c));
    FirstAt(LiveTo(g, i, J, C), |LiveTo(g, i, j, c)|, Col(g, j, c));
  }

  lemma OutputPosition(g: Graph, j: nat, c: nat)
    requires GraphOk(g) && j < |g.ops| && c < |g.ops[j].outputs|
    ensures g.ops[j].outputs[c] in g.ops[j].outputs && IndexOf(g.ops[j].outputs, g.ops[j].outputs[c]) == c
  {
    assert OpOk(g, j);
    FirstAt(g.ops[j].outputs, c, g.ops[j].outputs[c]);
  }

  lemma FirstAt<T>(s: seq<T>, p: nat, x: T)
    requires p < |s| && s[p] == x && x !in s[..p]
    ensures x in s && IndexOf(s, x) == p
  {
    assert forall q | 0 <= q < p :: s[q] == s[..p][q];
  }

  // ---- The analysis ------------------------------------------------------------------------

  ghost predicate NamesOf(g: Graph, j: nat, cols: seq<Intermediate>)
    requires j < |g.ops|
  {
    |cols| == |g.ops[j].outputs| && forall c | 0 <= c < |cols| :: cols[c].name == g.ops[j].outputs[c]
  }

  /** Uses recorded for op `j` while the walk over the ops is at input `x` of op `k`. */
  ghost predicate UsesUpTo(g: Graph, k: nat, x: nat, j: nat, cols: seq<Intermediate>)
    requires j < |g.ops| && k < |g.ops| && x <= |g.ops[k].inputs|
  {
    && NamesOf(g, j, cols)
    && forall c | 0 <= c < |cols| ::
         cols[c].lastUsed == if ColRef(j, cols[c].name) in g.ops[k].inputs[..x] then k else LastUse(g,
               ColRef(j, cols[c].name), k)
  }

  /** Records that op `k` uses the column `name`. */
  method RecordUse(cols: seq<Intermediate>, name: string, k: int) returns (cols': seq<Intermediate>)
    requires forall a, b | 0 <= a < b < |cols| :: cols[a].name != cols[b].name
    ensures |cols'| == |cols|
    ensures forall c | 0 <= c < |cols| :: cols'[c] == if cols[c].name == name then Intermediate(name, k) else cols[c]
  {
    cols' := cols;
    var c := 0;
    while c < |cols|
      invariant 0 <= c <= |cols| && cols' == cols
      invariant forall b | 0 <= b < c :: cols[b].name != name
    {
      if cols[c].name == name {
        cols' := cols[c := Intermediate(name, k)];
        return;
      }
      c := c + 1;
    }
  }

  method RecordInputs(g: Graph, k: nat, inter: seq<seq<Intermediate>>) returns (inter': seq<seq<Intermediate>>)
    requires GraphOk(g) && 0 < k < |g.ops| && |inter| == k
    requires forall j | 0 <= j < k :: UsesUpTo(g, k, 0, j, inter[j])
    ensures |inter'| == k
    ensures forall j | 0 <= j < k :: UsesUpTo(g, k, |g.ops[k].inputs|, j, inter'[j])
  {
    assert OpOk(g, k);
    inter' := inter;
    for x := 0 to |g.ops[k].inputs|
      invariant |inter'| == k
      invariant forall j | 0 <= j < k :: UsesUpTo(g, k, x, j, inter'[j])
    {
      var input := g.ops[k].inputs[x];
      assert EdgeOk(g, k, input) && OpOk(g, input.op) && UsesUpTo(g, k, x, input.op, inter'[input.op]);
      var cols := RecordUse(inter'[input.op], input.name, k);
      ghost var before := inter';
      inter' := inter'[input.op := cols];
      assert g.ops[k].inputs[..x + 1] == g.ops[k].inputs[..x] + [input];
      forall j | 0 <= j < k ensures UsesUpTo(g, k, x + 1, j, inter'[j]) {
        assert UsesUpTo(g, k, x, j, before[j]);
      }
    }
  }

  ghost predicate UsesFound(g: Graph, j: nat, cols: seq<Intermediate>)
    requires j < |g.ops|
  {
    NamesOf(g, j, cols) && forall c | 0 <= c < |cols| :: cols[c].lastUsed == Use(g, ColRef(j, cols[c].name))
  }

  /** The last use of every column. */
  method FindUses(g: Graph) returns (inter: seq<seq<Intermediate>>)
    requires GraphOk(g)
    ensures |inter| == |g.ops| - 1
    ensures forall j | 0 <= j < |inter| :: UsesFound(g, j, inter[j])
  {
    var n := |g.ops|;
    inter := [seq(|g.ops[0].outputs|, c requires 0 <= c < |g.ops[0].outputs| => Intermediate(g.ops[0].outputs[c], 1))];
    for k := 1 to n - 1
      invariant |inter| == k
      invariant forall j | 0 <= j < k :: UsesUpTo(g, k, 0, j, inter[j])
    {
      inter := RecordInputs(g, k, inter);
      var own := seq(|g.ops[k].outputs|, c requires 0 <= c < |g.ops[k].outputs| =>
                       Intermediate(g.ops[k].outputs[c], k));
      ghost var before := inter;
      inter := inter + [own];
      forall j | 0 <= j < k + 1 ensures UsesUpTo(g, k + 1, 0, j, inter[j]) {
        if j < k {
          assert UsesUpTo(g, k, |g.ops[k].inputs|, j, before[j]);
          assert g.ops[k].inputs[..|g.ops[k].inputs|] == g.ops[k].inputs;
        }
      }
    }
    inter := RecordInputs(g, n - 1, inter);
    forall j | 0 <= j < n - 1 ensures UsesFound(g, j, inter[j]) {
      assert UsesUpTo(g, n - 1, |g.ops[n - 1].inputs|, j, inter[j]);
      assert g.ops[n - 1].inputs[..|g.ops[n - 1].inputs|] == g.ops[n - 1].inputs;
    }
  }

  method LiveColumns(g: Graph, inter: seq<seq<Intermediate>>, i: nat) returns (columns: seq<ColRef>)
    requires GraphOk(g) && i < |g.ops| && |inter| == |g.ops| - 1
    requires forall j | 0 <= j < |inter| :: UsesFound(g, j, inter[j])
    ensures columns == LiveAfter(g, i)
  {
    var last := if i < |g.ops| - 2 then i else |g.ops| - 2;
    columns := [];
    for j := 0 to last + 1
      invariant columns == LiveTo(g, i, j, 0)
    {
      assert UsesFound(g, j, inter[j]);
      for c := 0 to |inter[j]|
        invariant columns == LiveTo(g, i, j, c)
      {
        if inter[j][c].lastUsed > i {
          columns := columns + [ColRef(j, inter[j][c].name)];
        }
      }
    }
  }

  lemma UnusedNext(g: Graph, cols: seq<Intermediate>, i: nat, c: nat)
    requires GraphOk(g) && i < |g.ops| && UsesFound(g, i, cols) && c < |cols|
    ensures c < |g.ops[i].outputs|
    ensures UnusedTo(g, i, c + 1) == UnusedTo(g, i, c) +
            if cols[c].lastUsed == i then [IndexOf(g.ops[i].outputs, cols[c].name)] else []
  {
    OutputPosition(g, i, c);
  }

  lemma DeadNext(g: Graph, cols: seq<Intermediate>, before: seq<ColRef>, i: nat, j: nat, c: nat)
    requires GraphOk(g) && 0 < i < |g.ops| && j < i && UsesFound(g, j, cols) && c < |cols|
    requires before == LiveAfter(g, i - 1)
    ensures c < |g.ops[j].outputs|
    ensures DeadTo(g, i, j, c + 1) == DeadTo(g, i, j, c) +
            if cols[c].lastUsed == i then [IndexOf(before, ColRef(j, cols[c].name))] else []
  {
    if cols[c].lastUsed == i { LivePosition(g, i - 1, j, c, i - 1, |g.ops[i - 1].outputs|); }
  }

  /** Columns of op `j` that op `i` is the last to use. */
  method LastUsedColumns(g: Graph, cols: seq<Intermediate>, before: seq<ColRef>, i: nat, j: nat)
    returns (dead: seq<int>, unused: seq<int>)
    requires GraphOk(g) && 0 < i < |g.ops| && j <= i && UsesFound(g, j, cols)
    requires before == LiveAfter(g, i - 1)
    ensures j < i ==> DeadTo(g, i, j, 0) + dead == DeadTo(g, i, j, |cols|) && unused == []
    ensures j == i ==> dead == [] && unused == UnusedTo(g, i, |cols|)
  {
    dead, unused := [], [];
    for c := 0 to |cols|
      invariant j < i ==> DeadTo(g, i, j, 0) + dead == DeadTo(g, i, j, c) && unused == []
      invariant j == i ==> dead == [] && unused == UnusedTo(g, i, c)
    {
      if j == i { UnusedNext(g, cols, i, c); } else { DeadNext(g, cols, before, i, j, c); }
      if cols[c].lastUsed == i {
        if j == i {
          unused := unused + [IndexOf(g.ops[i].outputs, cols[c].name)];
        } else {
          dead := dead + [IndexOf(before, ColRef(j, cols[c].name))];
        }
      }
    }
  }

  /** Which columns op `i` makes dead, and which of its outputs nobody uses. */
  method DeadColumns(g: Graph, inter: seq<seq<Intermediate>>, before: seq<ColRef>, i: nat)
    returns (dead: seq<int>, unused: seq<int>)
    requires GraphOk(g) && 0 < i < |g.ops| && |inter| == |g.ops| - 1
    requires forall j | 0 <= j < |inter| :: UsesFound(g, j, inter[j])
    requires before == LiveAfter(g, i - 1)
    ensures dead == Dead(g, i)
    ensures unused == if i < |g.ops| - 1 then Unused(g, i) else []
  {
    var last := if i < |g.ops| - 2 then i else |g.ops| - 2;
    dead, unused := [], [];
    for j := 0 to last + 1
      invariant dead == if j <= i then DeadTo(g, i, j, 0) else DeadTo(g, i, i, 0)
      invariant unused == if j <= i then [] else UnusedTo(g, i, |g.ops[i].outputs|)
    {
      assert UsesFound(g, j, inter[j]);
      var d, u := LastUsedColumns(g, inter[j], before, i, j);
      dead, unused := dead + d, unused + u;
    }
  }

  method MapInputs(g: Graph, before: seq<ColRef>, k: nat) returns (mapping: seq<int>)
    requires GraphOk(g) && 0 < k < |g.ops| && before == LiveAfter(g, k - 1)
    ensures Selects(mapping, before, g.ops[k].inputs)
  {
    mapping := [];
    for i := 0 to |g.ops[k].inputs|
      invariant |mapping| == i
      invariant forall i' | 0 <= i' < i :: 0 <= mapping[i'] < |before| && before[mapping[i']] == g.ops[k].inputs[i']
    {
      InputLive(g, k, i);
      mapping := mapping + [IndexOf(before, g.ops[k].inputs[i])];
    }
  }

  /** The lists computed for op `k`. */
  ghost predicate Computed(g: Graph, live: seq<seq<ColRef>>, k: nat, dead: seq<int>, unused: seq<int>,
                           mapping: seq<int>)
    requires 0 < k < |g.ops| == |live|
  {
    && dead == Dead(g, k) && unused == (if k < |g.ops| - 1 then Unused(g, k) else [])
    && Selects(mapping, live[k - 1], g.ops[k].inputs)
  }

  lemma StepFollows(g: Graph, a: Analysis, k: nat)
    requires GraphOk(g) && 0 < k < |g.ops| == |a.live| == |a.dead| == |a.unused| == |a.mapping|
    requires a.live[k - 1] == LiveAfter(g, k - 1) && a.live[k] == LiveAfter(g, k)
    requires Computed(g, a.live, k, a.dead[k], a.unused[k], a.mapping[k])
    ensures StepOk(g, a, k)
  {
    DeadPositions(g, k);
    if k < |g.ops| - 1 { LiveStep(g, k); }
  }

  ghost predicate LiveLists(g: Graph, live: seq<seq<ColRef>>)
    requires |g.ops| >= 2
  {
    forall i | 0 <= i < |live| :: live[i] == LiveAfter(g, i)
  }

  method AllLive(g: Graph, inter: seq<seq<Intermediate>>) returns (live: seq<seq<ColRef>>)
    requires GraphOk(g) && |inter| == |g.ops| - 1
    requires forall j | 0 <= j < |inter| :: UsesFound(g, j, inter[j])
    ensures |live| == |g.ops| && LiveLists(g, live)
  {
    live := [];
    for i := 0 to |g.ops|
      invariant |live| == i && LiveLists(g, live)
    {
      var columns := LiveColumns(g, inter, i);
      live := live + [columns];
    }
  }

  method AnalyzeOp(g: Graph, inter: seq<seq<Intermediate>>, live: seq<seq<ColRef>>, k: nat)
    returns (dead: seq<int>, unused: seq<int>, mapping: seq<int>)
    requires GraphOk(g) && |inter| == |g.ops| - 1 && 0 < k < |g.ops| == |live| && LiveLists(g, live)
    requires forall j | 0 <= j < |inter| :: UsesFound(g, j, inter[j])
    ensures Computed(g, live, k, dead, unused, mapping)
  {
    dead, unused := DeadColumns(g, inter, live[k - 1], k);
    mapping := MapInputs(g, live[k - 1], k);
  }

  ghost predicate AllComputed(g: Graph, a: Analysis) {
    && |g.ops| == |a.live| == |a.dead| == |a.unused| == |a.mapping|
    && forall k | 1 <= k < |g.ops| :: Computed(g, a.live, k, a.dead[k], a.unused[k], a.mapping[k])
  }

  method AnalyzeOps(g: Graph, inter: seq<seq<Intermediate>>, live: seq<seq<ColRef>>) returns (a: Analysis)
    requires GraphOk(g) && |inter| == |g.ops| - 1 && |g.ops| == |live| && LiveLists(g, live)
    requires forall j | 0 <= j < |inter| :: UsesFound(g, j, inter[j])
    ensures a.live == live && AllComputed(g, a)
  {
    var dead: seq<seq<int>>, unused: seq<seq<int>>, mapping: seq<seq<int>> := [[]], [[]], [[]];
    for k := 1 to |g.ops|
      invariant |dead| == |unused| == |mapping| == k
      invariant forall k' | 1 <= k' < k :: Computed(g, live, k', dead[k'], unused[k'], mapping[k'])
    {
      var d, u, m := AnalyzeOp(g, inter, live, k);
      dead, unused, mapping := dead + [d], unused + [u], mapping + [m];
    }
    a := Analysis(live, dead, unused, mapping);
  }

  /** `perform_liveness_analysis`. */
  method Analyze(g: Graph) returns (a: Analysis)
    requires GraphOk(g)
    ensures Correct(g, a)
  {
    var inter := FindUses(g);
    var live := AllLive(g, inter);
    a := AnalyzeOps(g, inter, live);
    AnalysisCorrect(g, a);
  }

  lemma AnalysisCorrect(g: Graph, a: Analysis)
    requires GraphOk(g) && AllComputed(g, a) && LiveLists(g, a.live)
    ensures Correct(g, a)
  {
    SourceLive(g, |g.ops[0].outputs|);
    assert Outputs(g, 0)[..|g.ops[0].outputs|] == Outputs(g, 0);
    forall k | 0 < k < |g.ops| ensures StepOk(g, a, k) {
      assert Computed(g, a.live, k, a.dead[k], a.unused[k], a.mapping[k]);
      StepFollows(g, a, k);
    }
  }

  // ---- Names decide ------------------------------------------------------------------------

  /** The ops of two graphs read and make the same columns. */
  ghost predicate SameNames(g: Graph, g': Graph) {
    && |g.ops| == |g'.ops|
    && forall k | 0 <= k < |g.ops| :: g.ops[k].inputs == g'.ops[k].inputs && g.ops[k].outputs == g'.ops[k].outputs
  }

  lemma {:induction false} LastUseSame(g: Graph, g': Graph, c: ColRef, k: nat)
    requires SameNames(g, g')
    ensures LastUse(g, c, k) == LastUse(g', c, k)
    decreases k
  {
    if k > c.op + 1 { LastUseSame(g, g', c, k - 1); }
  }

  lemma {:induction false} LiveToSame(g: Graph, g': Graph, i: nat, j: nat, c: nat)
    requires SameNames(g, g') && j < |g.ops| && c <= |g.ops[j].outputs|
    ensures LiveTo(g, i, j, c) == LiveTo(g', i, j, c)
    decreases j, c
  {
    if c > 0 {
      LiveToSame(g, g', i, j, c - 1);
      LastUseSame(g, g', Col(g, j, c - 1), |g.ops|);
    } else if j > 0 {
      LiveToSame(g, g', i, j - 1, |g.ops[j - 1].outputs|);
    }
  }

  /** The analysis of one slice group serves all of them. */
  lemma CorrectSame(g: Graph, g': Graph, a: Analysis)
    requires GraphOk(g) && GraphOk(g') && SameNames(g, g') && Correct(g, a)
    ensures Correct(g', a)
  {
    assert forall k | 0 <= k < |g.ops| :: Outputs(g, k) == Outputs(g', k);
    forall k | 0 < k < |g.ops| ensures StepOk(g', a, k) { assert StepOk(g, a, k); }
    forall k | 0 <= k < |g.ops| - 1 ensures a.live[k] == LiveAfter(g', k) {
      var last := if k < |g.ops| - 2 then k else |g.ops| - 2;
      LiveToSame(g, g', k, last, |g.ops[last].outputs|);
      assert a.live[k] == LiveAfter(g, k);
    }
  }
}
