/** A job whose stored column depends on the cut into tasks: the sink stores the column of a source of three
rows next to the output of a kernel with stencil -1, 0, 1 over that column. */
module BlurJob {
  import opened Rows
  import opened Streams
  import opened Dag
  import opened Demand
  import opened SparseDense
  import opened Tasks
  import opened Influence
  import opened Cuts
  import Storage
  import opened TableReads
  import opened JobTables
  import opened JobGraphs
  import opened Jobs

  lemma BlurOutput()
    ensures GraphOk(Blur()) && OutputRows(Blur(), Interval(0, 3)) && SinkWidth(Blur()) == 2
    ensures SinkInput(Blur(), 0) == ColRef(1, "blurred") && SinkInput(Blur(), 1) == ColRef(0, "frame")
  {
    BlurOk();
  }

  /** For output row `x` the kernel passes on row `x`, and reads that row and its neighbours. */
  lemma BlurReadsFor(x: int, y: int)
    requires GraphOk(Blur()) && 0 <= x
    ensures ReadsFor(Blur(), 1, x, y) <==> 0 <= y < 3 && x - 1 <= y <= x + 1
  {
    var g := Blur();
    assert OpOk(g, 1) && OpOk(g, 2);
    forall z ensures PassesOn(g, 1, x, z) <==> z == x {
      assert Edge(g, 1, 2, 0);
      assert ReadsFor(g, 2, x, z) <==> z == x;
    }
    assert NeededFor(Bounded(0), x, x);
    assert y - x in [-1, 0, 1] <==> x - 1 <= y <= x + 1;
    if 0 <= y < 3 && x - 1 <= y <= x + 1 {
      assert PassesOn(g, 1, x, x) && NeededFor(g.ops[1].kind.kernel.memory, x, x) &&
             y - x in g.ops[1].kind.kernel.stencil;
    }
  }

  /** Only the kernel shares a column with the sink, the source column. */
  lemma BlurShared(x: int, y: int)
    requires GraphOk(Blur()) && 0 <= x
    ensures SinkWidth(Blur()) == 2 && !SharedFor(Blur(), 0, x, y)
    ensures SharedFor(Blur(), 1, x, y) <==> 0 <= y < 3 && x - 1 <= y <= x + 1
  {
    var g := Blur();
    BlurOutput();
    BlurReadsFor(x, y);
    forall k, i ensures Shares(g, ColRef(0, "frame"), k, i) <==> k == 1 && i == 0 {
      assert g.ops[0].inputs == [] && |g.ops[1].inputs| == 1;
    }
    forall k, i ensures !Shares(g, ColRef(1, "blurred"), k, i) {
      assert g.ops[0].inputs == [] && |g.ops[1].inputs| == 1;
    }
    assert Shares(g, ColRef(0, "frame"), 1, 0);
  }

  /** A task brings the rows next to its own along. */
  lemma BlurPart(lo: int, hi: int)
    requires 0 <= lo < hi <= 3
    ensures GraphOk(Blur()) && SinkWidth(Blur()) == 2
    ensures SinkPart(Blur(), 1, Interval(lo, hi)) ==
            Interval(if lo == 0 then 0 else lo - 1, if hi == 3 then 3 else hi + 1)
  {
    var g := Blur();
    BlurOutput();
    OutputRowsWithin(g, Interval(0, 3), Interval(lo, hi));
    SinkPartRows(g, 1, Interval(lo, hi));
    var part, near := SinkPart(g, 1, Interval(lo, hi)),
                      Interval(if lo == 0 then 0 else lo - 1, if hi == 3 then 3 else hi + 1);
    forall y ensures y in part <==> y in near {
      if y in part {
        var x :| x in Interval(lo, hi) && Brings(g, 1, x, y);
        BlurShared(x, y);
      }
      if y in near {
        var x := if y < lo then lo else if hi <= y then hi - 1 else y;
        BlurShared(x, y);
        assert x in Interval(lo, hi) && Brings(g, 1, x, y);
      }
    }
    SameRows(part, near);
  }

  lemma FlattenThree(parts: seq<seq<int>>)
    requires |parts| == 3 && parts[0] == [0, 1] && parts[1] == [0, 1, 2] && parts[2] == [1, 2]
    ensures Flatten(parts, 3) == [0, 1, 0, 1, 2, 1, 2]
  {
    assert Flatten(parts, 1) == Flatten(parts, 0) + parts[0] == [0, 1];
    assert Flatten(parts, 2) == Flatten(parts, 1) + parts[1] == [0, 1, 0, 1, 2];
    assert Flatten(parts, 3) == Flatten(parts, 2) + parts[2];
  }

  lemma SmallIntervals()
    ensures Interval(0, 2) == [0, 1] && Interval(0, 3) == [0, 1, 2] && Interval(1, 3) == [1, 2]
  {
  }

  /** One task stores the three source rows. */
  lemma BlurOneTask()
    ensures GraphOk(Blur()) && SinkWidth(Blur()) == 2 && CutOk(Blur(), 3, [0, 3])
    ensures StoredRows(Blur(), 1, [0, 3]) == [0, 1, 2]
  {
    BlurOutput();
    BlurPart(0, 3);
    SmallIntervals();
    var b := [0, 3];
    assert TaskAt(b, 0) == Interval(0, 3);
    var parts := StoredParts(Blur(), 1, b);
    assert Flatten(parts, 1) == Flatten(parts, 0) + parts[0];
  }

  lemma BlurTaskPart(b: seq<int>, k: nat)
    requires b == [0, 1, 2, 3] && k < 3
    ensures GraphOk(Blur()) && SinkWidth(Blur()) == 2
    ensures StoredParts(Blur(), 1, b)[k] == if k == 0 then [0, 1] else if k == 1 then [0, 1, 2] else [1, 2]
  {
    BlurPart(k, k + 1);
    SmallIntervals();
    assert TaskAt(b, k) == Interval(k, k + 1);
  }

  lemma ThreeTasks()
    ensures Boundaries([0, 1, 2, 3], 3)
  {
  }

  lemma BlurThreeCut()
    ensures CutOk(Blur(), 3, [0, 1, 2, 3])
  {
    BlurOutput();
    ThreeTasks();
  }

  /** Three tasks store seven rows. */
  lemma BlurThreeTasks()
    ensures GraphOk(Blur()) && SinkWidth(Blur()) == 2
    ensures StoredRows(Blur(), 1, [0, 1, 2, 3]) == [0, 1, 0, 1, 2, 1, 2]
  {
    var b := [0, 1, 2, 3];
    BlurTaskPart(b, 0);
    BlurTaskPart(b, 1);
    BlurTaskPart(b, 2);
    FlattenThree(StoredParts(Blur(), 1, b));
  }

  /** The column is not the sink's alone, and its other reader looks back. */
  lemma BlurNotAlone()
    ensures GraphOk(Blur()) && SinkWidth(Blur()) == 2
    ensures !ColumnAlone(Blur(), 1, 3) && !NeverBack(Blur(), 1, 3) && ColumnAlone(Blur(), 0, 3)
  {
    BlurOutput();
    BlurShared(1, 0);
    forall x, y | 0 <= x < 3 ensures !SharedFor(Blur(), 0, x, y) { BlurShared(x, y); }
  }

  /** Under the second cut, row 1 of the stored table reads as row 0 of the source. */
  lemma BlurReadBack(c: Contents, items: seq<Item>, written: seq<seq<seq<Storage.Bytes>>>)
    requires GraphOk(Blur()) && SinkWidth(Blur()) == 2 && JobWritten(Blur(), 1, c, [0, 1, 2, 3], items, written)
    ensures ColumnHolds(items, [1, 2, 3], written) && !ColumnOk(items, [1, 2, 3], written)
    ensures InTable([1, 2, 3], 1) && RowAt(Parts(written), [1, 2, 3], 1) == BytesOf(c(0))
  {
    var b := [0, 1, 2, 3];
    assert b[1..] == [1, 2, 3];
    BlurThreeCut();
    BlurThreeTasks();
    FilesFit(Blur(), 1, c, 3, b, items, written);
    CutExact(Blur(), 1, 3, b);
    RowReads(Blur(), 1, c, 3, b, items, written, 1, 1);
    BlurPart(1, 2);
  }

  // ---- The job behind the graph ------------------------------------------------------------

  ghost predicate BlurOps(ops: seq<Tasks.Op>) {
    && |ops| == 3 && ops[0] == Tasks.Op(Tasks.Kind.Source(3), [])
    && ops[1] == Tasks.Op(Tasks.Kind.Kernel, [0]) && ops[2] == Tasks.Op(Tasks.Kind.Sink, [1, 0])
  }

  lemma BlurValid(ops: seq<Tasks.Op>, rates: seq<seq<int>>)
    requires BlurOps(ops) && |rates| == 3 && rates[0] == rates[1] == rates[2] == [3]
    ensures Validated(ops) && RatesOk(ops, rates)
  {
    assert OpValidated(ops, 0) && OpValidated(ops, 1) && OpValidated(ops, 2);
    assert 0 in ops[1].inputs && 1 in ops[2].inputs;
    assert IsRead(ops, 0) && IsRead(ops, 1);
    assert RateOk(ops, rates, 0) && RateOk(ops, rates, 1) && RateOk(ops, rates, 2);
  }

  ghost predicate IsBlurJob(job: Job) {
    && BlurOps(job.ops) && |job.rates| == 3 && job.rates[0] == job.rates[1] == job.rates[2] == [3]
    && |job.nodes| == 3 && job.nodes[0] == Node([], false, [], ["frame"])
    && job.nodes[1] == Node([Blur().ops[1].kind.kernel], false, [ColRef(0, "frame")], ["blurred"])
    && job.nodes[2] == Node([], false, [ColRef(1, "blurred"), ColRef(0, "frame")], [])
  }

  /** It is the graph of an accepted job of three ops with its row counts, that can be run. */
  lemma BlurRealized(job: Job)
    requires IsBlurJob(job)
    ensures RatesOk(job.ops, job.rates) && PlainJob(job) && GraphAt(job, 0) == Blur()
  {
    BlurValid(job.ops, job.rates);
    BlurSelects(job);
    assert NodeOk(job, 0) && NodeOk(job, 1) && NodeOk(job, 2);
  }

  lemma BlurSelects(job: Job)
    requires IsBlurJob(job)
    ensures HasGroup(job, 0) && GraphAt(job, 0) == Blur()
  {
    assert Level(job.ops, 0) == 0 && Level(job.ops, 1) == 0 && Level(job.ops, 2) == 0;
    assert Selectable(job, 0, 0) && Selectable(job, 1, 0) && Selectable(job, 2, 0);
    assert GraphAt(job, 0).ops == Blur().ops && GraphAt(job, 0).rows == Blur().rows;
  }
}
