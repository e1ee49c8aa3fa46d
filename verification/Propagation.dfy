/** Forward propagation of row counts (`determine_input_rows_to_slices`): ops become ready once all their
inputs have a count, and a stack of ready ops is worked off until the sink is on top of it. */
module Propagation {
  import opened Rows
  import opened Samplers
  import opened Partitions
  import opened Tasks
  import T = Toposort

  // ---- One op ------------------------------------------------------------------------------

  ghost predicate SamplersOk(kind: Kind) {
    kind.Sample? ==> forall i | 0 <= i < |kind.maps| :: SamplerOk(kind.maps[i])
  }

  method SampleCounts(maps: seq<RowMap>, ins: seq<int>) returns (outs: seq<int>)
    requires |maps| == |ins| && forall i | 0 <= i < |maps| :: SamplerOk(maps[i])
    ensures Forward(Sample(maps), ins, outs)
  {
    outs := [];
    for i := 0 to |ins|
      invariant |outs| == i && forall j | 0 <= j < i :: outs[j] == DownstreamCount(maps[j], ins[j])
    {
      outs := outs + [DownstreamCount(maps[i], ins[i])];
    }
  }

  method SliceCounts(p: Partitioner, n: int) returns (res: Result<seq<int>>)
    ensures res.Success? <==> Accepts(p, n)
    ensures res.Success? ==> Forward(Kind.Slice(p), [n], res.value)
  {
    var offsets := Offsets(p, n);
    if offsets.Failure? {
      return Failure(offsets.msg);
    }
    var outs := [];
    for g := 0 to NumGroups(p, n)
      invariant |outs| == g && forall j | 0 <= j < g :: outs[j] == GroupSize(p, n, j)
    {
      outs := outs + [offsets.value[g + 1] - offsets.value[g]];
    }
    res := Success(outs);
  }

  method Total(ins: seq<int>) returns (n: int)
    ensures n == Sum(ins, |ins|)
  {
    n := 0;
    for i := 0 to |ins|
      invariant n == Sum(ins, i)
    {
      n := n + ins[i];
    }
  }

  /** The counts that leave an op, or an error if there are none. An assertion that fails counts as an error. */
  method Outgoing(kind: Kind, ins: seq<int>) returns (res: Result<seq<int>>)
    requires SamplersOk(kind)
    ensures res.Success? ==> Forward(kind, ins, res.value)
    ensures res.Failure? ==> forall outs :: !Forward(kind, ins, outs)
  {
    match kind
    case Source(n) => return Success([n]);
    case Kernel => return Success(ins);
    case Sample(maps) =>
      if |maps| != |ins| {
        return Failure("differing number of samplers and slice groups");
      }
      var outs := SampleCounts(maps, ins);
      return Success(outs);
    case Slice(p) =>
      if |ins| != 1 {
        return Failure("sliced input");
      }
      res := SliceCounts(p, ins[0]);
      assert ins == [ins[0]];
    case Unslice =>
      var n := Total(ins);
      return Success([n]);
    case Sink =>
      if |ins| != 1 {
        return Failure("sliced output");
      }
      return Success(ins);
  }

  lemma ForwardUnique(kind: Kind, ins: seq<int>, a: seq<int>, b: seq<int>)
    requires Forward(kind, ins, a) && Forward(kind, ins, b)
    ensures a == b
  {
  }

  /** All input columns agree with the first, group by group. */
  method Matches(cols: seq<seq<int>>) returns (ok: bool)
    requires cols != []
    ensures ok <==> forall q | 0 <= q < |cols| :: cols[q] == cols[0]
  {
    for q := 0 to |cols|
      invariant forall p | 0 <= p < q :: cols[p] == cols[0]
    {
      if |cols[q]| != |cols[0]| {
        return false;
      }
      for i := 0 to |cols[0]|
        invariant forall j | 0 <= j < i :: cols[q][j] == cols[0][j]
      {
        if cols[q][i] != cols[0][i] {
          return false;
        }
      }
    }
    ok := true;
  }

  // ---- What has arrived at an op -----------------------------------------------------------

  /** Inputs of op `x` that have no count yet. */
  ghost function Waits(ops: seq<Op>, done: set<nat>, x: nat): nat {
    if x < |ops| then T.Open(ops[x].inputs, done, |ops[x].inputs|) else 0
  }

  ghost predicate Ready(ops: seq<Op>, done: set<nat>, x: nat) {
    x < |ops| && x !in done && Waits(ops, done, x) == 0
  }

  /** An input of op `c` has the counts `e`. */
  ghost predicate Sends(ops: seq<Op>, done: set<nat>, rates: seq<seq<int>>, c: nat, e: seq<int>)
    requires c < |ops| == |rates|
  {
    exists i :: 0 <= i < |ops[c].inputs| && ops[c].inputs[i] in done && ops[c].inputs[i] < |rates| &&
      rates[ops[c].inputs[i]] == e
  }

  /** `col` has an entry for every input of op `c` that is done, and `given` entries `out` on top. */
  ghost predicate Holds(ops: seq<Op>, done: set<nat>, rates: seq<seq<int>>, c: nat, col: seq<seq<int>>, given: nat,
                        out: seq<int>)
    requires c < |ops| == |rates|
  {
    && |col| + Waits(ops, done, c) == |ops[c].inputs| + given
    && forall e :: e in col <==> Sends(ops, done, rates, c, e) || (given > 0 && e == out)
  }

  /** `op_num_inputs` for op `c`. */
  ghost predicate ColumnsOk(ops: seq<Op>, done: set<nat>, rates: seq<seq<int>>, cols: seq<seq<seq<int>>>, c: nat)
    requires c < |ops| == |rates| == |cols|
  {
    if ops[c].kind.Source? then cols[c] == [[ops[c].kind.rows]] else Holds(ops, done, rates, c, cols[c], 0, [])
  }

  ghost predicate InputsDone(ops: seq<Op>, done: set<nat>, x: nat)
    requires x < |ops|
  {
    forall i | 0 <= i < |ops[x].inputs| :: ops[x].inputs[i] in done
  }

  /** The ops in `done` have their counts. */
  ghost predicate Counted(ops: seq<Op>, done: set<nat>, rates: seq<seq<int>>) {
    && |rates| == |ops| && (forall x | x in done :: x < |ops| - 1)
    && (forall x {:trigger RateOk(ops, rates, x)} | x in done :: RateOk(ops, rates, x))
    && (forall x {:trigger InputsDone(ops, done, x)} | x in done :: InputsDone(ops, done, x))
  }

  ghost predicate StackOk(ops: seq<Op>, done: set<nat>, stack: seq<nat>) {
    Distinct(stack) && forall x :: x in stack <==> Ready(ops, done, x)
  }

  ghost predicate AllColumnsOk(ops: seq<Op>, done: set<nat>, rates: seq<seq<int>>, cols: seq<seq<seq<int>>>)
    requires |ops| == |rates| == |cols|
  {
    forall c {:trigger ColumnsOk(ops, done, rates, cols, c)} | 0 <= c < |ops| :: ColumnsOk(ops, done, rates, cols, c)
  }

  // ---- Counts are unique -------------------------------------------------------------------

  /** Any assignment of counts agrees with those found so far. */
  lemma {:induction false} Agrees(ops: seq<Op>, done: set<nat>, rates: seq<seq<int>>, other: seq<seq<int>>, x: nat)
    requires Counted(ops, done, rates) && RatesOk(ops, other) && x in done
    ensures other[x] == rates[x]
    decreases x
  {
    assert RateOk(ops, rates, x) && RateOk(ops, other, x) && InputsDone(ops, done, x);
    if ops[x].inputs != [] { Agrees(ops, done, rates, other, ops[x].inputs[0]); }
    ForwardUnique(ops[x].kind, InRates(ops, rates, x), rates[x], other[x]);
  }

  /** There is at most one assignment of counts. */
  lemma {:induction false} RatesUnique(ops: seq<Op>, rates: seq<seq<int>>, other: seq<seq<int>>, k: nat)
    requires RatesOk(ops, rates) && RatesOk(ops, other) && k < |ops|
    ensures rates[k] == other[k]
    decreases k
  {
    assert RateOk(ops, rates, k) && RateOk(ops, other, k);
    if ops[k].inputs != [] { RatesUnique(ops, rates, other, ops[k].inputs[0]); }
    ForwardUnique(ops[k].kind, InRates(ops, rates, k), rates[k], other[k]);
  }

  /** All inputs of a ready op have counts, and these are what has arrived. */
  lemma ReadyColumns(ops: seq<Op>, done: set<nat>, rates: seq<seq<int>>, k: nat, col: seq<seq<int>>)
    requires Counted(ops, done, rates) && k < |ops| && Waits(ops, done, k) == 0 &&
             Holds(ops, done, rates, k, col, 0, [])
    ensures |col| == |ops[k].inputs|
    ensures forall i | 0 <= i < |ops[k].inputs| :: ops[k].inputs[i] in done && rates[ops[k].inputs[i]] in col
    ensures forall q | 0 <= q < |col| :: Sends(ops, done, rates, k, col[q])
  {
    T.OpenZero(ops[k].inputs, done, |ops[k].inputs|);
    forall i | 0 <= i < |ops[k].inputs| ensures rates[ops[k].inputs[i]] in col {
      assert Sends(ops, done, rates, k, rates[ops[k].inputs[i]]);
    }
    forall q | 0 <= q < |col| ensures Sends(ops, done, rates, k, col[q]) { assert col[q] in col; }
  }

  /** Inputs that do not agree admit no counts at all. */
  lemma MismatchFails(ops: seq<Op>, done: set<nat>, rates: seq<seq<int>>, k: nat, col: seq<seq<int>>,
                      other: seq<seq<int>>)
    requires Counted(ops, done, rates) && k < |ops| && Waits(ops, done, k) == 0 &&
             Holds(ops, done, rates, k, col, 0, [])
    requires RatesOk(ops, other)
    ensures forall q | 0 <= q < |col| :: col[q] == col[0]
  {
    ReadyColumns(ops, done, rates, k, col);
    assert RateOk(ops, other, k);
    forall q | 0 <= q < |col| ensures col[q] == InRates(ops, other, k) {
      assert Sends(ops, done, rates, k, col[q]);
      var i :| 0 <= i < |ops[k].inputs| && ops[k].inputs[i] in done && rates[ops[k].inputs[i]] == col[q];
      Agrees(ops, done, rates, other, ops[k].inputs[i]);
    }
  }

  /** Inputs that agree carry what `InRates` says. */
  lemma MatchedInputs(ops: seq<Op>, done: set<nat>, rates: seq<seq<int>>, k: nat, col: seq<seq<int>>)
    requires Counted(ops, done, rates) && OrderedAt(ops, k) && Waits(ops, done, k) == 0 &&
             Holds(ops, done, rates, k, col, 0, [])
    requires ops[k].inputs != [] && forall q | 0 <= q < |col| :: col[q] == col[0]
    ensures |col| > 0 && col[0] == InRates(ops, rates, k)
    ensures forall i | 0 <= i < |ops[k].inputs| ::
              ops[k].inputs[i] in done && rates[ops[k].inputs[i]] == InRates(ops, rates, k)
  {
    ReadyColumns(ops, done, rates, k, col);
    forall i | 0 <= i < |ops[k].inputs| ensures rates[ops[k].inputs[i]] == col[0] {
      assert rates[ops[k].inputs[i]] in col;
    }
  }

  ghost predicate OrderedAt(ops: seq<Op>, k: nat) {
    k < |ops| && forall i | 0 <= i < |ops[k].inputs| :: ops[k].inputs[i] < k
  }

  // ---- Handing counts to the readers -------------------------------------------------------

  lemma {:induction false} EdgesOcc(inputs: seq<nat>, k: nat, c: nat, x: nat, n: nat)
    requires n <= |inputs|
    ensures var e := EdgesTo(inputs, k, c, n); T.Occ(e, x, |e|) == if x == c then T.Occ(inputs, k, n) else 0
  {
    if n > 0 {
      EdgesOcc(inputs, k, c, x, n - 1);
      if inputs[n - 1] == k { T.OccAppend(EdgesTo(inputs, k, c, n - 1), c, x); }
      else { assert EdgesTo(inputs, k, c, n) == EdgesTo(inputs, k, c, n - 1); }
    }
  }

  lemma {:induction false} OccConcat(a: seq<nat>, b: seq<nat>, x: nat, n: nat)
    requires n <= |b|
    ensures T.Occ(a + b, x, |a| + n) == T.Occ(a, x, |a|) + T.Occ(b, x, n)
  {
    if n == 0 { T.OccFrame(a + b, a, x, |a|); } else { OccConcat(a, b, x, n - 1); }
  }

  /** A reader occurs among the children once for every edge. */
  lemma {:induction false} ChildrenOcc(ops: seq<Op>, k: nat, x: nat, c: nat)
    requires c <= |ops| && x < |ops|
    ensures var r := ChildrenFrom(ops, k, c);
            T.Occ(r, x, |r|) == if x < c then T.Occ(ops[x].inputs, k, |ops[x].inputs|) else 0
  {
    if c > 0 {
      ChildrenOcc(ops, k, x, c - 1);
      var a, b := ChildrenFrom(ops, k, c - 1), EdgesTo(ops[c - 1].inputs, k, c - 1, |ops[c - 1].inputs|);
      OccConcat(a, b, x, |b|);
      EdgesOcc(ops[c - 1].inputs, k, c - 1, x, |ops[c - 1].inputs|);
    }
  }

  /** The counts `out` of op `k` have gone to the first `j` of its readers. */
  ghost predicate Handing(ops: seq<Op>, done: set<nat>, rates: seq<seq<int>>, children: seq<nat>, j: nat, out: seq<int>,
                          cols: seq<seq<seq<int>>>)
    requires j <= |children| && |ops| == |rates| == |cols|
  {
    forall c {:trigger T.Occ(children, c, j)} | 0 <= c < |ops| ::
      if ops[c].kind.Source? then cols[c] == [[ops[c].kind.rows]]
      else Holds(ops, done, rates, c, cols[c], T.Occ(children, c, j), out)
  }

  /** Op `x` was ready before, or has become ready by now. */
  ghost predicate Stacked(ops: seq<Op>, done: set<nat>, children: seq<nat>, j: nat, rest: seq<nat>, x: nat)
    requires j <= |children|
  {
    x in rest || (x < |ops| && 0 < Waits(ops, done, x) == T.Occ(children, x, j))
  }

  ghost predicate HandingStack(ops: seq<Op>, done: set<nat>, children: seq<nat>, j: nat, rest: seq<nat>,
                               stack: seq<nat>)
    requires j <= |children|
  {
    && Distinct(stack)
    && forall x: nat {:trigger Stacked(ops, done, children, j, rest, x)} ::
         x in stack <==> Stacked(ops, done, children, j, rest, x)
  }

  lemma HandOne(ops: seq<Op>, done: set<nat>, rates: seq<seq<int>>, children: seq<nat>, j: nat, out: seq<int>,
                cols: seq<seq<seq<int>>>, cols': seq<seq<seq<int>>>)
    requires |ops| == |rates| == |cols| && j < |children| && children[j] < |ops| && !ops[children[j]].kind.Source?
    requires Handing(ops, done, rates, children, j, out, cols)
    requires cols' == cols[children[j] := cols[children[j]] + [out]]
    ensures Handing(ops, done, rates, children, j + 1, out, cols')
  {
    var y := children[j];
    forall c | 0 <= c < |ops|
      ensures if ops[c].kind.Source? then cols'[c] == [[ops[c].kind.rows]]
              else Holds(ops, done, rates, c, cols'[c], T.Occ(children, c, j + 1), out)
    {
      assert T.Occ(children, c, j + 1) == T.Occ(children, c, j) + if c == y then 1 else 0;
      if c == y { HoldsMore(ops, done, rates, c, cols[c], T.Occ(children, c, j), out); }
    }
  }

  lemma HoldsMore(ops: seq<Op>, done: set<nat>, rates: seq<seq<int>>, c: nat, col: seq<seq<int>>, given: nat,
                  out: seq<int>)
    requires c < |ops| == |rates| && Holds(ops, done, rates, c, col, given, out)
    ensures Holds(ops, done, rates, c, col + [out], given + 1, out)
  {
    forall e ensures e in col + [out] <==> Sends(ops, done, rates, c, e) || e == out {
      assert e in col <==> Sends(ops, done, rates, c, e) || (given > 0 && e == out);
    }
  }

  lemma HandStack(ops: seq<Op>, done: set<nat>, children: seq<nat>, j: nat, rest: seq<nat>, stack: seq<nat>,
                  stack': seq<nat>)
    requires j < |children| && HandingStack(ops, done, children, j, rest, stack)
    requires children[j] < |ops| && children[j] !in rest &&
             T.Occ(children, children[j], j) < Waits(ops, done, children[j])
    requires stack' == if Waits(ops, done, children[j]) == T.Occ(children, children[j], j) + 1
                       then stack + [children[j]] else stack
    ensures HandingStack(ops, done, children, j + 1, rest, stack')
  {
    var y := children[j];
    assert y in stack <==> Stacked(ops, done, children, j, rest, y);
    forall x: nat ensures x in stack' <==> Stacked(ops, done, children, j + 1, rest, x) {
      assert T.Occ(children, x, j + 1) == T.Occ(children, x, j) + if x == y then 1 else 0;
      assert x in stack <==> Stacked(ops, done, children, j, rest, x);
    }
  }

  /** A reader still waits for the edges it is about to be served. */
  lemma ChildWaits(ops: seq<Op>, done: set<nat>, k: nat, j: nat)
    requires k < |ops| && k !in done && j < |Children(ops, k)|
    ensures var y := Children(ops, k)[j];
            y < |ops| && k in ops[y].inputs && T.Occ(Children(ops, k), y, j) < Waits(ops, done, y)
  {
    var children := Children(ops, k);
    var y := children[j];
    assert y in children;
    ChildrenOcc(ops, k, y, |ops|);
    T.OccMonotone(children, y, j + 1, |children|);
    T.OpenMinus(ops[y].inputs, done, k, |ops[y].inputs|);
  }

  /** Hands the counts of op `k` to its readers and stacks those that wait for nothing else. */
  method HandOut(ops: seq<Op>, k: nat, out: seq<int>, cols: seq<seq<seq<int>>>, rest: seq<nat>,
                 ghost done: set<nat>, ghost rates: seq<seq<int>>)
    returns (cols': seq<seq<seq<int>>>, stack: seq<nat>)
    requires Validated(ops) && k < |ops| == |rates| == |cols| && k !in done && AllColumnsOk(ops, done, rates, cols)
    requires Distinct(rest) && forall x | x in rest :: Ready(ops, done, x)
    ensures |cols'| == |ops|
    ensures Handing(ops, done, rates, Children(ops, k), |Children(ops, k)|, out, cols')
    ensures HandingStack(ops, done, Children(ops, k), |Children(ops, k)|, rest, stack)
  {
    cols', stack := cols, rest;
    var children := Children(ops, k);
    assert Handing(ops, done, rates, children, 0, out, cols) by { HandStart(ops, done, rates, children, out, cols); }
    for j := 0 to |children|
      invariant |cols'| == |ops|
      invariant Handing(ops, done, rates, children, j, out, cols')
      invariant HandingStack(ops, done, children, j, rest, stack)
    {
      var y := children[j];
      ChildWaits(ops, done, k, j);
      assert OpValidated(ops, y);
      ghost var before, beforeStack := cols', stack;
      assert Holds(ops, done, rates, y, cols'[y], T.Occ(children, y, j), out);
      cols' := cols'[y := cols'[y] + [out]];
      HandOne(ops, done, rates, children, j, out, before, cols');
      if |cols'[y]| == |ops[y].inputs| {
        stack := stack + [y];
      }
      HandStack(ops, done, children, j, rest, beforeStack, stack);
    }
  }

  lemma HandStart(ops: seq<Op>, done: set<nat>, rates: seq<seq<int>>, children: seq<nat>, out: seq<int>,
                  cols: seq<seq<seq<int>>>)
    requires |ops| == |rates| == |cols| && AllColumnsOk(ops, done, rates, cols)
    ensures Handing(ops, done, rates, children, 0, out, cols)
  {
    forall c | 0 <= c < |ops|
      ensures if ops[c].kind.Source? then cols[c] == [[ops[c].kind.rows]]
              else Holds(ops, done, rates, c, cols[c], 0, out)
    {
      assert ColumnsOk(ops, done, rates, cols, c);
    }
  }

  // ---- One step ----------------------------------------------------------------------------

  lemma WaitsAfter(ops: seq<Op>, done: set<nat>, k: nat, x: nat)
    requires k !in done && x < |ops|
    ensures Waits(ops, done, x) == Waits(ops, done + {k}, x) + T.Occ(Children(ops, k), x, |Children(ops, k)|)
  {
    ChildrenOcc(ops, k, x, |ops|);
    T.OpenMinus(ops[x].inputs, done, k, |ops[x].inputs|);
  }

  lemma SendsAfter(ops: seq<Op>, done: set<nat>, rates: seq<seq<int>>, k: nat, out: seq<int>, c: nat, e: seq<int>)
    requires k < |ops| && c < |ops| == |rates| && k !in done
    ensures Sends(ops, done + {k}, rates[k := out], c, e) <==>
            Sends(ops, done, rates, c, e) || (k in ops[c].inputs && e == out)
  {
    var rates' := rates[k := out];
    if Sends(ops, done, rates, c, e) {
      var i :| 0 <= i < |ops[c].inputs| && ops[c].inputs[i] in done && ops[c].inputs[i] < |rates| &&
        rates[ops[c].inputs[i]] == e;
      assert ops[c].inputs[i] in done + {k} && rates'[ops[c].inputs[i]] == e;
    }
    if k in ops[c].inputs && e == out {
      var i :| 0 <= i < |ops[c].inputs| && ops[c].inputs[i] == k;
      assert ops[c].inputs[i] in done + {k} && rates'[ops[c].inputs[i]] == e;
    }
    if Sends(ops, done + {k}, rates', c, e) {
      var i :| 0 <= i < |ops[c].inputs| && ops[c].inputs[i] in done + {k} && ops[c].inputs[i] < |rates'| &&
        rates'[ops[c].inputs[i]] == e;
      if ops[c].inputs[i] in done { assert rates[ops[c].inputs[i]] == e; }
    }
  }

  lemma ColumnsAfter(ops: seq<Op>, done: set<nat>, rates: seq<seq<int>>, k: nat, out: seq<int>,
                     cols: seq<seq<seq<int>>>, c: nat)
    requires |ops| == |rates| == |cols| && k < |ops| && c < |ops| && k !in done
    requires Handing(ops, done, rates, Children(ops, k), |Children(ops, k)|, out, cols)
    ensures ColumnsOk(ops, done + {k}, rates[k := out], cols, c)
  {
    var children := Children(ops, k);
    var given := T.Occ(children, c, |children|);
    WaitsAfter(ops, done, k, c);
    OccIn(children, c, |children|);
    if !ops[c].kind.Source? {
      assert Holds(ops, done, rates, c, cols[c], given, out);
      forall e ensures e in cols[c] <==> Sends(ops, done + {k}, rates[k := out], c, e) {
        SendsAfter(ops, done, rates, k, out, c, e);
        assert e in cols[c] <==> Sends(ops, done, rates, c, e) || (given > 0 && e == out);
        assert c in children <==> k in ops[c].inputs;
      }
    }
  }

  lemma {:induction false} OccIn(s: seq<nat>, x: nat, n: nat)
    requires n <= |s|
    ensures T.Occ(s, x, n) > 0 <==> x in s[..n]
    ensures n == |s| ==> (T.Occ(s, x, n) > 0 <==> x in s)
  {
    if n > 0 {
      OccIn(s, x, n - 1);
      assert s[..n] == s[..n - 1] + [s[n - 1]];
    }
    assert n == |s| ==> s[..n] == s;
  }

  lemma CountedAfter(ops: seq<Op>, done: set<nat>, rates: seq<seq<int>>, k: nat, out: seq<int>)
    requires Counted(ops, done, rates) && OrderedAt(ops, k) && k < |ops| - 1 && k !in done
    requires forall i | 0 <= i < |ops[k].inputs| ::
               ops[k].inputs[i] in done && rates[ops[k].inputs[i]] == InRates(ops, rates, k)
    requires ops[k].kind.Source? <==> ops[k].inputs == []
    requires Forward(ops[k].kind, InRates(ops, rates, k), out)
    ensures Counted(ops, done + {k}, rates[k := out])
  {
    var rates' := rates[k := out];
    forall x | x in done + {k} ensures x < |ops| - 1 && RateOk(ops, rates', x) {
      if x in done {
        assert RateOk(ops, rates, x);
        assert InputsDone(ops, done, x);
        assert InRates(ops, rates', x) == InRates(ops, rates, x);
      }
    }
    forall x | x in done + {k} ensures InputsDone(ops, done + {k}, x) {
      if x in done { assert InputsDone(ops, done, x); }
    }
  }

  lemma StackAfter(ops: seq<Op>, done: set<nat>, rates: seq<seq<int>>, k: nat, rest: seq<nat>, stack: seq<nat>)
    requires Counted(ops, done, rates) && k < |ops| && StackOk(ops, done, rest + [k])
    requires HandingStack(ops, done, Children(ops, k), |Children(ops, k)|, rest, stack)
    ensures StackOk(ops, done + {k}, stack)
  {
    T.DistinctLast(rest, k);
    assert k in rest + [k] && Ready(ops, done, k);
    var children := Children(ops, k);
    forall x: nat ensures x in stack <==> Ready(ops, done + {k}, x) {
      assert x in rest + [k] <==> x in rest || x == k;
      assert x in rest + [k] <==> Ready(ops, done, x);
      if x < |ops| {
        WaitsAfter(ops, done, k, x);
        if x in done { DoneWaits(ops, done, rates, x); }
      }
      assert x in stack <==> Stacked(ops, done, children, |children|, rest, x);
    }
  }

  lemma DoneWaits(ops: seq<Op>, done: set<nat>, rates: seq<seq<int>>, x: nat)
    requires Counted(ops, done, rates) && x in done
    ensures x < |ops| && Waits(ops, done, x) == 0
  {
    assert InputsDone(ops, done, x);
    T.OpenZero(ops[x].inputs, done, |ops[x].inputs|);
  }

  /** The counts that follow for op `k` from what has arrived at it. */
  ghost predicate Follows(ops: seq<Op>, done: set<nat>, rates: seq<seq<int>>, k: nat, out: seq<int>)
    requires k < |ops| == |rates|
  {
    && Forward(ops[k].kind, InRates(ops, rates, k), out)
    && forall i | 0 <= i < |ops[k].inputs| ::
         ops[k].inputs[i] in done && ops[k].inputs[i] < k && rates[ops[k].inputs[i]] == InRates(ops, rates, k)
  }

  // ---- The end -----------------------------------------------------------------------------

  /** When all inputs of the sink have counts, every op has. */
  lemma {:induction false} EverythingDone(ops: seq<Op>, done: set<nat>, rates: seq<seq<int>>, k: nat)
    requires Validated(ops) && Counted(ops, done, rates) && Waits(ops, done, |ops| - 1) == 0 && k < |ops| - 1
    ensures k in done
    decreases |ops| - k
  {
    assert IsRead(ops, k);
    var c :| k < c < |ops| && k in ops[c].inputs;
    var i :| 0 <= i < |ops[c].inputs| && ops[c].inputs[i] == k;
    if c == |ops| - 1 {
      T.OpenZero(ops[c].inputs, done, |ops[c].inputs|);
    } else {
      EverythingDone(ops, done, rates, c);
      assert InputsDone(ops, done, c);
    }
  }

  /** The stack does not run empty before the sink is reached. */
  lemma {:induction false} SomethingReady(ops: seq<Op>, done: set<nat>, rates: seq<seq<int>>, x: nat) returns (y: nat)
    requires Validated(ops) && Counted(ops, done, rates) && x < |ops| && x !in done
    ensures Ready(ops, done, y)
    decreases x
  {
    T.OpenZero(ops[x].inputs, done, |ops[x].inputs|);
    if i :| 0 <= i < |ops[x].inputs| && ops[x].inputs[i] !in done {
      assert OpValidated(ops, x);
      y := SomethingReady(ops, done, rates, ops[x].inputs[i]);
    } else {
      y := x;
    }
  }

  lemma RateStill(ops: seq<Op>, rates: seq<seq<int>>, k: nat, out: seq<int>, j: nat)
    requires j < k < |ops| == |rates| && RateOk(ops, rates, j)
    ensures RateOk(ops, rates[k := out], j)
  {
    assert InRates(ops, rates[k := out], j) == InRates(ops, rates, j);
  }

  lemma SinkRate(ops: seq<Op>, done: set<nat>, rates: seq<seq<int>>, k: nat, out: seq<int>)
    requires Validated(ops) && k == |ops| - 1 && |rates| == |ops| && Follows(ops, done, rates, k, out)
    ensures RateOk(ops, rates[k := out], k)
  {
    assert OpValidated(ops, k);
    assert InRates(ops, rates[k := out], k) == InRates(ops, rates, k);
  }

  lemma SinkReached(ops: seq<Op>, done: set<nat>, rates: seq<seq<int>>, k: nat, out: seq<int>)
    requires Validated(ops) && Counted(ops, done, rates) && Waits(ops, done, k) == 0 && k == |ops| - 1
    requires Follows(ops, done, rates, k, out)
    ensures RatesOk(ops, rates[k := out])
  {
    SinkRate(ops, done, rates, k, out);
    var rates' := rates[k := out];
    forall j | 0 <= j < k ensures RateOk(ops, rates', j) {
      EverythingDone(ops, done, rates, j);
      assert RateOk(ops, rates, j);
      RateStill(ops, rates, k, out, j);
    }
  }

  // ---- The loop ----------------------------------------------------------------------------

  ghost function IdsBelow(n: nat): (r: set<nat>)
    ensures forall x: nat :: x in r <==> x < n
  {
    if n == 0 then {} else IdsBelow(n - 1) + {n - 1}
  }

  function SourcesTo(ops: seq<Op>, n: nat): (r: seq<nat>)
    requires n <= |ops|
    ensures forall x: nat :: x in r <==> x < n && ops[x].kind.Source?
    ensures Distinct(r)
  {
    if n == 0 then []
    else SourcesTo(ops, n - 1) + if ops[n - 1].kind.Source? then [n - 1] else []
  }

  ghost predicate Propagating(ops: seq<Op>, done: set<nat>, rates: seq<seq<int>>, cols: seq<seq<seq<int>>>,
                              stack: seq<nat>) {
    && Counted(ops, done, rates) && |cols| == |ops| && AllColumnsOk(ops, done, rates, cols) && StackOk(ops, done, stack)
  }

  lemma StartPropagating(ops: seq<Op>, cols: seq<seq<seq<int>>>)
    requires Validated(ops) && |cols| == |ops|
    requires forall c | 0 <= c < |ops| :: cols[c] == if ops[c].kind.Source? then [[ops[c].kind.rows]] else []
    ensures Propagating(ops, {}, seq(|ops|, _ => []), cols, SourcesTo(ops, |ops|))
  {
    var rates := seq(|ops|, _ => []);
    forall x: nat | x < |ops|
      ensures Waits(ops, {}, x) == |ops[x].inputs| && (ops[x].kind.Source? <==> ops[x].inputs == [])
    {
      T.OpenZero(ops[x].inputs, {}, |ops[x].inputs|);
      assert OpValidated(ops, x);
    }
    forall c | 0 <= c < |ops| ensures ColumnsOk(ops, {}, rates, cols, c) { }
  }

  /** An op on the stack. */
  lemma TopOfStack(ops: seq<Op>, done: set<nat>, rates: seq<seq<int>>, cols: seq<seq<seq<int>>>, stack: seq<nat>,
                   k: nat)
    requires Validated(ops) && Propagating(ops, done, rates, cols, stack) && k in stack
    ensures k < |ops| && k !in done && Waits(ops, done, k) == 0 && OrderedAt(ops, k) && cols[k] != []
    ensures ops[k].kind.Source? <==> ops[k].inputs == []
    ensures if ops[k].kind.Source? then cols[k] == [[ops[k].kind.rows]] else Holds(ops, done, rates, k, cols[k], 0, [])
  {
    assert Ready(ops, done, k) && OpValidated(ops, k) && ColumnsOk(ops, done, rates, cols, k);
  }

  lemma NoRates(ops: seq<Op>, done: set<nat>, rates: seq<seq<int>>, k: nat, other: seq<seq<int>>)
    requires Counted(ops, done, rates) && OrderedAt(ops, k) &&
             (forall i | 0 <= i < |ops[k].inputs| :: ops[k].inputs[i] in done)
    requires forall outs :: !Forward(ops[k].kind, InRates(ops, rates, k), outs)
    ensures !RatesOk(ops, other)
  {
    if RatesOk(ops, other) {
      assert RateOk(ops, other, k);
      if ops[k].inputs != [] { Agrees(ops, done, rates, other, ops[k].inputs[0]); }
      assert Forward(ops[k].kind, InRates(ops, rates, k), other[k]);
    }
  }

  method CountsOf(ops: seq<Op>, k: nat, col: seq<seq<int>>, ghost done: set<nat>, ghost rates: seq<seq<int>>)
    returns (res: Result<seq<int>>)
    requires Counted(ops, done, rates) && OrderedAt(ops, k) && Waits(ops, done, k) == 0 && col != [] &&
             SamplersOk(ops[k].kind)
    requires ops[k].kind.Source? <==> ops[k].inputs == []
    requires if ops[k].kind.Source? then col == [[ops[k].kind.rows]] else Holds(ops, done, rates, k, col, 0, [])
    ensures res.Success? ==> Follows(ops, done, rates, k, res.value)
    ensures res.Failure? ==> forall other :: !RatesOk(ops, other)
  {
    var ok := Matches(col);
    if !ok {
      forall other ensures !RatesOk(ops, other) {
        if RatesOk(ops, other) { MismatchFails(ops, done, rates, k, col, other); }
      }
      return Failure("inputs with a differing number of rows");
    }
    if !ops[k].kind.Source? { MatchedInputs(ops, done, rates, k, col); }
    res := Outgoing(ops[k].kind, if ops[k].kind.Source? then [] else col[0]);
    if res.Failure? {
      forall other ensures !RatesOk(ops, other) { NoRates(ops, done, rates, k, other); }
    }
  }

  /** Works off a ready op. */
  method Step(ops: seq<Op>, k: nat, out: seq<int>, cols: seq<seq<seq<int>>>, rest: seq<nat>,
              ghost done: set<nat>, ghost rates: seq<seq<int>>)
    returns (cols': seq<seq<seq<int>>>, stack: seq<nat>)
    requires Validated(ops) && Propagating(ops, done, rates, cols, rest + [k]) && k < |ops| && !ops[k].kind.Sink?
    requires Follows(ops, done, rates, k, out)
    ensures Propagating(ops, done + {k}, rates[k := out], cols', stack)
  {
    assert OpValidated(ops, k) && OpValidated(ops, |ops| - 1) && k in rest + [k] && Ready(ops, done, k);
    T.DistinctLast(rest, k);
    assert forall x | x in rest :: x in rest + [k];
    cols', stack := HandOut(ops, k, out, cols, rest, done, rates);
    CountedAfter(ops, done, rates, k, out);
    ghost var done', rates' := done + {k}, rates[k := out];
    forall c | 0 <= c < |ops| ensures ColumnsOk(ops, done', rates', cols', c) {
      ColumnsAfter(ops, done, rates, k, out, cols', c);
    }
    StackAfter(ops, done, rates, k, rest, stack);
  }

  /** Finds the counts of all ops, or reports an error exactly if the job has no matching counts. */
  method Propagate(ops: seq<Op>) returns (res: Result<seq<seq<int>>>)
    requires Validated(ops) && forall k | 0 <= k < |ops| :: SamplersOk(ops[k].kind)
    ensures res.Success? ==> RatesOk(ops, res.value)
    ensures res.Failure? ==> forall rates :: !RatesOk(ops, rates)
  {
    var rates: seq<seq<int>> := seq(|ops|, _ => []);
    var cols := seq(|ops|, c requires 0 <= c < |ops| => if ops[c].kind.Source? then [[ops[c].kind.rows]] else []);
    var stack := SourcesTo(ops, |ops|);
    ghost var done: set<nat> := {};
    StartPropagating(ops, cols);
    while stack != []
      invariant Propagating(ops, done, rates, cols, stack)
      decreases IdsBelow(|ops|) - done
    {
      var k := stack[|stack| - 1];
      var rest := stack[..|stack| - 1];
      TopOfStack(ops, done, rates, cols, stack, k);
      var out := CountsOf(ops, k, cols[k], done, rates);
      if out.Failure? {
        return Failure(out.msg);
      }
      assert OpValidated(ops, k);
      if ops[k].kind.Sink? {
        SinkReached(ops, done, rates, k, out.value);
        return Success(rates[k := out.value]);
      }
      assert stack == rest + [k];
      cols, stack := Step(ops, k, out.value, cols, rest, done, rates);
      rates := rates[k := out.value];
      done := done + {k};
    }
    var y := SomethingReady(ops, done, rates, |ops| - 1);
    assert false;
  }

  // ---- Two slices --------------------------------------------------------------------------

  /** A source of `n` rows is sliced into groups of `a` rows, and once more into groups of `b` rows. */
  ghost predicate TwoSlices(ops: seq<Op>, n: nat, a: int, b: int) {
    && |ops| == 6 && ops[0] == Op(Kind.Source(n), [])
    && ops[1] == Op(Kind.Slice(Spaced(1, a)), [0]) && ops[2] == Op(Kind.Unslice, [1])
    && ops[3] == Op(Kind.Slice(Spaced(1, b)), [0]) && ops[4] == Op(Kind.Unslice, [3])
    && ops[5] == Op(Kind.Sink, [2, 4])
  }

  lemma TwoSlicesValid(ops: seq<Op>, n: nat, a: int, b: int)
    requires TwoSlices(ops, n, a, b)
    ensures Validated(ops)
  {
    assert OpValidated(ops, 0) && OpValidated(ops, 1) && OpValidated(ops, 2);
    assert OpValidated(ops, 3) && OpValidated(ops, 4) && OpValidated(ops, 5);
    assert 0 in ops[1].inputs && 1 in ops[2].inputs && 2 in ops[5].inputs && 3 in ops[4].inputs && 4 in ops[5].inputs;
    assert IsRead(ops, 0) && IsRead(ops, 1) && IsRead(ops, 2) && IsRead(ops, 3) && IsRead(ops, 4);
  }

  lemma CeilDivOne(n: int)
    ensures CeilDiv(n, 1) == n
  {
    CeilDivSpec(n, 1, n);
    CeilDivSpec(n, 1, n - 1);
  }

  /** `n` rows in groups of `size` rows: how many groups there are, and where they start. */
  lemma PlainGroups(n: nat, size: int, g: nat)
    requires size > 0
    ensures var p := Spaced(1, size);
            && Accepts(p, n) && NumGroups(p, n) == CeilDiv(n, size)
            && (g < NumGroups(p, n) <==> g * size < n)
            && (g <= NumGroups(p, n) ==> GroupStart(p, n, g) == if g * size < n then g * size else n)
  {
    CeilDivOne(n);
    CeilDivNonNegative(n, size);
    SpacedGroups(Spaced(1, size), n, g);
  }

  /** The sizes of the groups. */
  function GroupCounts(n: nat, size: int): (counts: seq<int>)
    requires size > 0
    ensures |counts| == NumGroups(Spaced(1, size), n)
    ensures forall g | 0 <= g < |counts| :: counts[g] == GroupSize(Spaced(1, size), n, g)
  {
    var p := Spaced(1, size);
    seq(NumGroups(p, n), g requires 0 <= g < NumGroups(p, n) => GroupSize(p, n, g))
  }

  /** Their running sums are where the groups start. */
  lemma {:induction false} GroupSum(n: nat, size: int, g: nat)
    requires size > 0 && g <= |GroupCounts(n, size)|
    ensures Sum(GroupCounts(n, size), g) == GroupStart(Spaced(1, size), n, g)
  {
    if g == 0 { PlainGroups(n, size, 0); } else { GroupSum(n, size, g - 1); }
  }

  lemma GroupForward(n: nat, size: int)
    requires size > 0
    ensures Forward(Kind.Slice(Spaced(1, size)), [n], GroupCounts(n, size))
    ensures Forward(Kind.Unslice, GroupCounts(n, size), [n])
  {
    var counts := GroupCounts(n, size);
    PlainGroups(n, size, |counts|);
    GroupSum(n, size, |counts|);
  }

  /** The counts of such a job. */
  function TwoSliceRates(n: nat, a: int, b: int): seq<seq<int>>
    requires a > 0 && b > 0
  {
    [[n], GroupCounts(n, a), [n], GroupCounts(n, b), [n], [n]]
  }

  /** The job is accepted whatever the two sizes of groups are, and its counts are these: the check that all
  slices have the same number of groups compares where it should assign, and never takes effect. */
  lemma TwoSlicesAccepted(ops: seq<Op>, n: nat, a: int, b: int)
    requires TwoSlices(ops, n, a, b) && a > 0 && b > 0
    ensures Validated(ops) && RatesOk(ops, TwoSliceRates(n, a, b))
  {
    var rates := TwoSliceRates(n, a, b);
    TwoSlicesValid(ops, n, a, b);
    GroupForward(n, a);
    GroupForward(n, b);
    assert RateOk(ops, rates, 0) && RateOk(ops, rates, 1) && RateOk(ops, rates, 2);
    assert RateOk(ops, rates, 3) && RateOk(ops, rates, 4) && RateOk(ops, rates, 5);
  }

  lemma TwoSlicesRates(ops: seq<Op>, n: nat, a: int, b: int, rates: seq<seq<int>>)
    requires TwoSlices(ops, n, a, b) && a > 0 && b > 0 && RatesOk(ops, rates)
    ensures rates == TwoSliceRates(n, a, b)
  {
    TwoSlicesAccepted(ops, n, a, b);
    forall k | 0 <= k < 6 ensures rates[k] == TwoSliceRates(n, a, b)[k] {
      RatesUnique(ops, rates, TwoSliceRates(n, a, b), k);
    }
  }

  /** An accepted job has the same number of groups in both slices, as the check should make sure, if and only
  if the two sizes divide the rows into equally many groups. */
  lemma TwoSlicesAgree(ops: seq<Op>, n: nat, a: int, b: int, rates: seq<seq<int>>)
    requires TwoSlices(ops, n, a, b) && a > 0 && b > 0 && RatesOk(ops, rates)
    ensures |rates[1]| == |rates[3]| <==> CeilDiv(n, a) == CeilDiv(n, b)
  {
    TwoSlicesRates(ops, n, a, b, rates);
    PlainGroups(n, a, 0);
    PlainGroups(n, b, 0);
  }

  lemma GroupNumber(n: nat, size: int, m: nat)
    requires size > 0 && n == m * size
    ensures |GroupCounts(n, size)| == m
  {
    PlainGroups(n, size, m);
    CeilDivSpec(n, size, m);
    CeilDivSpec(n, size, m - 1);
    assert (m - 1) * size == n - size;
  }

  /** There is such a job for all numbers. */
  function TwoSliceJob(n: nat, a: int, b: int): (ops: seq<Op>)
    ensures TwoSlices(ops, n, a, b)
  {
    [ Op(Kind.Source(n), []), Op(Kind.Slice(Spaced(1, a)), [0]), Op(Kind.Unslice, [1]),
      Op(Kind.Slice(Spaced(1, b)), [0]), Op(Kind.Unslice, [3]), Op(Kind.Sink, [2, 4]) ]
  }

  /** Four rows, two groups of two rows against one group of four. */
  lemma TwoSlicesDiffer(n: nat, a: int, b: int)
    requires n == 4 && a == 2 && b == 4
    ensures Validated(TwoSliceJob(n, a, b)) && RatesOk(TwoSliceJob(n, a, b), TwoSliceRates(n, a, b))
    ensures |TwoSliceRates(n, a, b)[1]| == 2 && |TwoSliceRates(n, a, b)[3]| == 1
  {
    TwoSlicesAccepted(TwoSliceJob(n, a, b), n, a, b);
    GroupNumber(n, a, 2);
    GroupNumber(n, b, 1);
  }

  // ---- What the missing check costs --------------------------------------------------------

  /** The tasks of the job follow its first slice. */
  lemma TwoSlicesTasks(ops: seq<Op>, n: nat, a: int, b: int, rates: seq<seq<int>>, slice: nat)
    requires TwoSlices(ops, n, a, b) && RatesOk(ops, rates) && slice == 1
    ensures Validated(ops) && Level(ops, slice) == 1 && Exit(ops, slice) == 2
    ensures UnsliceCounts(ops, rates, 2) == rates[1] && UnsliceCounts(ops, rates, 4) == rates[3]
  {
    TwoSlicesValid(ops, n, a, b);
    var c := LastReader(ops, slice);
    assert c == 2;
  }

  /** The rows of the `g`-th group of `a` rows all lie in one group of `b` rows. */
  ghost predicate Nested(n: nat, a: int, b: int, g: nat)
    requires a > 0 && b > 0
  {
    var counts := GroupCounts(n, a);
    g < |counts| ==> Findable(GroupCounts(n, b), Sum(counts, g), Sum(counts, g + 1) - 1)
  }

  /** Where the rows of a group have to lie, in numbers. */
  lemma NestedIn(n: nat, a: int, b: int, g: nat, h: nat)
    requires a > 0 && b > 0 && g * a < n
    ensures var counts := GroupCounts(n, a);
            && g < |counts|
            && (LieIn(GroupCounts(n, b), h, Sum(counts, g), Sum(counts, g + 1) - 1) <==>
                h * b <= g * a && (if g * a + a < n then g * a + a else n) <= h * b + b)
  {
    PlainGroups(n, a, g);
    PlainGroups(n, a, g + 1);
    PlainGroups(n, b, h);
    PlainGroups(n, b, h + 1);
    assert (g + 1) * a == g * a + a && (h + 1) * b == h * b + b;
    GroupSum(n, a, g);
    GroupSum(n, a, g + 1);
    if h < |GroupCounts(n, b)| {
      GroupSum(n, b, h);
      GroupSum(n, b, h + 1);
    }
  }

  lemma WholeGroups(a: int, b: int, g: nat) returns (h: nat)
    requires a > 0 && b > 0 && b % a == 0
    ensures h * b <= g * a && g * a + a <= h * b + b
  {
    var m := b / a;
    assert m > 0 && m * a == b;
    h := g / m;
    WholeMultiples(a, m, g, h);
  }

  lemma WholeMultiples(a: int, m: int, g: nat, h: nat)
    requires a > 0 && m > 0 && h == g / m
    ensures h * (m * a) <= g * a && g * a + a <= h * (m * a) + m * a
  {
    assert h * m <= g < h * m + m;
    MulMonotone(h * m, g, a);
    MulMonotone(g + 1, h * m + m, a);
    assert (h * m) * a == h * (m * a);
    assert (h * m + m) * a == (h * m) * a + m * a;
  }

  /** Groups whose size divides `b` lie within groups of `b` rows. */
  lemma DividesNested(n: nat, a: int, b: int, g: nat)
    requires a > 0 && b > 0 && b % a == 0
    ensures Nested(n, a, b, g)
  {
    PlainGroups(n, a, g);
    if g < |GroupCounts(n, a)| {
      var h := WholeGroups(a, b, g);
      NestedIn(n, a, b, g, h);
      assert LieIn(GroupCounts(n, b), h, Sum(GroupCounts(n, a), g), Sum(GroupCounts(n, a), g + 1) - 1);
    }
  }

  lemma OneGroupNested(n: nat, a: int, b: int, g: nat)
    requires a > 0 && b > 0 && n <= b
    ensures Nested(n, a, b, g)
  {
    PlainGroups(n, a, g);
    if g < |GroupCounts(n, a)| {
      MulMonotone(0, g, a);
      NestedIn(n, a, b, g, 0);
      assert LieIn(GroupCounts(n, b), 0, Sum(GroupCounts(n, a), g), Sum(GroupCounts(n, a), g + 1) - 1);
    }
  }

  lemma HoldingGroup(a: int, b: int) returns (g: nat)
    requires a > 0 && b > 0 && b % a != 0
    ensures g * a < b < g * a + a
  {
    g := b / a;
    assert b == g * a + b % a;
  }

  /** Otherwise the group that holds row `b` crosses the end of the first group of `b` rows. */
  lemma CrossesEnd(n: nat, a: int, b: int, g: nat)
    requires a > 0 && b > 0 && b < n && g * a < b < g * a + a
    ensures !Nested(n, a, b, g)
  {
    PlainGroups(n, a, g);
    var counts, others := GroupCounts(n, a), GroupCounts(n, b);
    var low, high := Sum(counts, g), Sum(counts, g + 1) - 1;
    forall h: nat ensures !LieIn(others, h, low, high) {
      NestedIn(n, a, b, g, h);
      if h > 0 { MulMonotone(1, h, b); }
    }
  }

  lemma NestedOr(n: nat, a: int, b: int, g: nat)
    requires a > 0 && b > 0 && (n <= b || b % a == 0)
    ensures Nested(n, a, b, g)
  {
    if n <= b { OneGroupNested(n, a, b, g); } else { DividesNested(n, a, b, g); }
  }

  lemma AllNested(n: nat, a: int, b: int)
    requires a > 0 && b > 0
    ensures (forall g: nat :: Nested(n, a, b, g)) <==> n <= b || b % a == 0
  {
    if n <= b || b % a == 0 {
      forall g: nat ensures Nested(n, a, b, g) { NestedOr(n, a, b, g); }
    } else {
      var g := HoldingGroup(a, b);
      CrossesEnd(n, a, b, g);
    }
  }

  /** Demand analysis finds task `i` in the groups of unslice op `u`, or there is no task `i`. */
  ghost predicate TaskFound(ops: seq<Op>, rates: seq<seq<int>>, slice: nat, u: nat, i: nat)
    requires Validated(ops) && |rates| == |ops| && slice < |ops| && Level(ops, slice) == 1 && u < |ops|
  {
    var counts := UnsliceCounts(ops, rates, Exit(ops, slice));
    i < |counts| ==> Findable(UnsliceCounts(ops, rates, u), Sum(counts, i), Sum(counts, i + 1) - 1)
  }

  lemma TaskNested(ops: seq<Op>, n: nat, a: int, b: int, rates: seq<seq<int>>, slice: nat, unslice: nat, i: nat)
    requires TwoSlices(ops, n, a, b) && a > 0 && b > 0 && RatesOk(ops, rates) && slice == 1 && unslice == 4
    ensures Validated(ops) && Level(ops, slice) == 1
    ensures TaskFound(ops, rates, slice, unslice, i) <==> Nested(n, a, b, i)
  {
    TwoSlicesTasks(ops, n, a, b, rates, slice);
    TwoSlicesRates(ops, n, a, b, rates);
  }

  /** Demand analysis looks for the rows of each task in the groups of the second slice, and asserts that it finds
  them. It does for all tasks if and only if the second slice has one group only, or its groups are made up
  of whole groups of the first. */
  lemma TwoSlicesFound(ops: seq<Op>, n: nat, a: int, b: int, rates: seq<seq<int>>, slice: nat, unslice: nat)
    requires TwoSlices(ops, n, a, b) && a > 0 && b > 0 && RatesOk(ops, rates) && slice == 1 && unslice == 4
    ensures Validated(ops) && Level(ops, slice) == 1
    ensures (forall i: nat :: TaskFound(ops, rates, slice, unslice, i)) <==> n <= b || b % a == 0
  {
    TaskNested(ops, n, a, b, rates, slice, unslice, 0);
    AllNested(n, a, b);
    forall i: nat ensures TaskFound(ops, rates, slice, unslice, i) <==> Nested(n, a, b, i) {
      TaskNested(ops, n, a, b, rates, slice, unslice, i);
    }
  }

  /** Four rows as one task, against groups of two rows: the search fails. */
  lemma TwoSlicesLost(ops: seq<Op>, n: nat, a: int, b: int, rates: seq<seq<int>>, slice: nat, unslice: nat)
    requires TwoSlices(ops, n, a, b) && RatesOk(ops, rates) && slice == 1 && unslice == 4
    requires n == 4 && a == 4 && b == 2
    ensures Validated(ops) && Level(ops, slice) == 1 && !TaskFound(ops, rates, slice, unslice, 0)
  {
    TaskNested(ops, n, a, b, rates, slice, unslice, 0);
    CrossesEnd(n, a, b, 0);
  }
}
