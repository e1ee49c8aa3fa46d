/** Column storage. A table column is a list of items, one per task. An item has a metadata file (for
each batch written, the number of elements and their sizes, as 64-bit words) and a data file (the bytes
of all elements, one after the other). */
module Storage {
  import opened Rows

  type Bytes = seq<bv8>

  // ---- Format ------------------------------------------------------------------------------

  function SizesOf(elems: seq<Bytes>): (r: seq<nat>)
    ensures |r| == |elems| && forall i | 0 <= i < |r| :: r[i] == |elems[i]|
  {
    seq(|elems|, i requires 0 <= i < |elems| => |elems[i]|)
  }

  /** Bytes in front of element `k`. */
  function OffsetOf(sizes: seq<nat>, k: nat): nat
    requires k <= |sizes|
  {
    SumMonotone(sizes, 0, k);
    Sum(sizes, k)
  }

  lemma {:induction false} FlattenSize(elems: seq<Bytes>, k: nat)
    requires k <= |elems|
    ensures |Flatten(elems, k)| == OffsetOf(SizesOf(elems), k)
  {
    if k > 0 { FlattenSize(elems, k - 1); }
  }

  function ConcatTo(elems: seq<Bytes>, k: nat): (r: Bytes)
    requires k <= |elems|
    ensures |r| == OffsetOf(SizesOf(elems), k)
  {
    FlattenSize(elems, k);
    Flatten(elems, k)
  }

  function Concat(elems: seq<Bytes>): Bytes {
    ConcatTo(elems, |elems|)
  }

  /** The first `k` batches, written one after the other. */
  function Metadata(batches: seq<seq<Bytes>>, k: nat): seq<nat>
    requires k <= |batches|
  {
    if k == 0 then [] else Metadata(batches, k - 1) + [|batches[k - 1]|] + SizesOf(batches[k - 1])
  }

  lemma {:induction false} ConcatPrefix(elems: seq<Bytes>, j: nat, k: nat)
    requires j <= k <= |elems|
    ensures ConcatTo(elems, j) <= ConcatTo(elems, k)
    decreases k
  {
    if j < k { ConcatPrefix(elems, j, k - 1); }
  }

  /** Prefix sums of the sizes locate each element in the data file. */
  lemma ElementAt(elems: seq<Bytes>, k: nat)
    requires k < |elems|
    ensures OffsetOf(SizesOf(elems), k) + |elems[k]| == OffsetOf(SizesOf(elems), k + 1) <= |Concat(elems)|
    ensures Concat(elems)[OffsetOf(SizesOf(elems), k)..OffsetOf(SizesOf(elems), k + 1)] == elems[k]
  {
    ConcatPrefix(elems, k + 1, |elems|);
    assert ConcatTo(elems, k + 1) == ConcatTo(elems, k) + elems[k];
    var from, to := OffsetOf(SizesOf(elems), k), OffsetOf(SizesOf(elems), k + 1);
    assert Concat(elems)[from..to] == ConcatTo(elems, k + 1)[from..to];
  }

  lemma {:induction false} ConcatAppend(a: seq<Bytes>, b: seq<Bytes>, k: nat)
    requires k <= |b|
    ensures ConcatTo(a + b, |a| + k) == Concat(a) + ConcatTo(b, k)
  {
    if k == 0 {
      FlattenFrame(a + b, a, |a|);
    } else {
      ConcatAppend(a, b, k - 1);
      assert (a + b)[|a| + k - 1] == b[k - 1];
    }
  }

  // ---- Writing -----------------------------------------------------------------------------

  /** The two files of one item while it is being written. */
  class ItemWriter {
    var metadata: seq<nat>
    var data: Bytes
    ghost var batches: seq<seq<Bytes>>

    ghost predicate Valid()
      reads this
    {
      && metadata == Metadata(batches, |batches|)
      && data == Concat(Flatten(batches, |batches|))
    }

    constructor ()
      ensures Valid() && batches == []
    {
      metadata, data, batches := [], [], [];
    }

    method WriteSizes(elems: seq<Bytes>)
      modifies this`metadata
      ensures metadata == old(metadata) + [|elems|] + SizesOf(elems)
    {
      metadata := metadata + [|elems|];
      for i := 0 to |elems|
        invariant metadata == old(metadata) + [|elems|] + SizesOf(elems)[..i]
      {
        metadata := metadata + [|elems[i]|];
        assert SizesOf(elems)[..i + 1] == SizesOf(elems)[..i] + [|elems[i]|];
      }
    }

    method WriteData(elems: seq<Bytes>)
      modifies this`data
      ensures data == old(data) + Concat(elems)
    {
      for i := 0 to |elems|
        invariant data == old(data) + ConcatTo(elems, i)
      {
        data := data + elems[i];
      }
    }

    /** `ColumnSink::write` of one batch of one column. */
    method Write(elems: seq<Bytes>)
      requires Valid()
      modifies this
      ensures Valid() && batches == old(batches) + [elems]
    {
      WriteSizes(elems);
      WriteData(elems);
      BatchAdded(batches, batches + [elems], elems);
      ConcatBoth(Flatten(batches, |batches|), elems);
      batches := batches + [elems];
    }
  }

  lemma {:induction false} BatchesFrame(a: seq<seq<Bytes>>, b: seq<seq<Bytes>>, k: nat)
    requires k <= |a| && k <= |b| && forall i | 0 <= i < k :: a[i] == b[i]
    ensures Metadata(a, k) == Metadata(b, k)
  {
    if k > 0 { BatchesFrame(a, b, k - 1); }
  }

  lemma BatchAdded(batches: seq<seq<Bytes>>, more: seq<seq<Bytes>>, elems: seq<Bytes>)
    requires more == batches + [elems]
    ensures Metadata(more, |more|) == Metadata(batches, |batches|) + [|elems|] + SizesOf(elems)
    ensures Flatten(more, |more|) == Flatten(batches, |batches|) + elems
  {
    BatchesFrame(more, batches, |batches|);
    FlattenFrame(more, batches, |batches|);
  }

  lemma ConcatBoth(a: seq<Bytes>, b: seq<Bytes>)
    ensures Concat(a + b) == Concat(a) + Concat(b)
  {
    ConcatAppend(a, b, |b|);
  }

  // ---- Reading the metadata ----------------------------------------------------------------

  /** The sizes of a batch lie whole within the sizes of any longer run of batches. */
  lemma {:induction false} MetadataTail(batches: seq<seq<Bytes>>, k: nat, n: nat)
    requires k < n <= |batches|
    ensures |Metadata(batches, k)| + 1 + |batches[k]| <= |Metadata(batches, n)|
    ensures Metadata(batches, k + 1) <= Metadata(batches, n)
    decreases n
  {
    var last := [|batches[n - 1]|] + SizesOf(batches[n - 1]);
    assert Metadata(batches, n) == Metadata(batches, n - 1) + last;
    if k + 1 < n { MetadataTail(batches, k, n - 1); }
  }

  /** The words of batch `k` in the metadata file. */
  lemma BatchWords(batches: seq<seq<Bytes>>, k: nat)
    requires k < |batches|
    ensures var words, pos := Metadata(batches, |batches|), |Metadata(batches, k)|;
            && pos + 1 + |batches[k]| <= |words| && words[pos] == |batches[k]|
            && words[pos + 1..pos + 1 + |batches[k]|] == SizesOf(batches[k])
            && |Metadata(batches, k + 1)| == pos + 1 + |batches[k]|
  {
    MetadataTail(batches, k, |batches|);
    var words, pos := Metadata(batches, |batches|), |Metadata(batches, k)|;
    var m := Metadata(batches, k + 1);
    assert words[pos] == m[pos];
    assert words[pos + 1..pos + 1 + |batches[k]|] == m[pos + 1..pos + 1 + |batches[k]|];
  }

  lemma SizesAdded(batches: seq<seq<Bytes>>, k: nat)
    requires k < |batches|
    ensures SizesOf(Flatten(batches, k + 1)) == SizesOf(Flatten(batches, k)) + SizesOf(batches[k])
  {
    assert Flatten(batches, k + 1) == Flatten(batches, k) + batches[k];
  }

  /** Reads back the sizes of all elements; the read position ends exactly at the end of the file. */
  method ReadSizes(words: seq<nat>, ghost batches: seq<seq<Bytes>>) returns (sizes: seq<nat>, pos: nat)
    requires words == Metadata(batches, |batches|)
    ensures sizes == SizesOf(Flatten(batches, |batches|)) && pos == |words|
  {
    sizes, pos := [], 0;
    ghost var k := 0;
    while pos < |words|
      invariant 0 <= k <= |batches| && pos == |Metadata(batches, k)|
      invariant sizes == SizesOf(Flatten(batches, k))
      invariant k == |batches| ==> pos == |words|
      decreases |words| - pos
    {
      if k < |batches| { BatchWords(batches, k); }
      var count := words[pos];
      pos := pos + 1;
      sizes := sizes + words[pos..pos + count];
      pos := pos + count;
      SizesAdded(batches, k);
      k := k + 1;
    }
    if k < |batches| { BatchWords(batches, k); }
  }

  // ---- Reading elements --------------------------------------------------------------------

  /** The elements at the given positions. */
  function Pick(elems: seq<Bytes>, rows: seq<int>): (r: seq<Bytes>)
    requires forall i | 0 <= i < |rows| :: 0 <= rows[i] < |elems|
    ensures |r| == |rows| && forall i | 0 <= i < |r| :: r[i] == elems[rows[i]]
  {
    seq(|rows|, i requires 0 <= i < |rows| => elems[rows[i]])
  }

  /** Sums element sizes from position `from` to `to`. */
  method SumSizes(sizes: seq<nat>, from: nat, to: nat, start: nat) returns (offset: nat)
    requires from <= to <= |sizes| && start == OffsetOf(sizes, from)
    ensures offset == OffsetOf(sizes, to)
  {
    offset := start;
    for i := from to to
      invariant offset == OffsetOf(sizes, i)
    {
      offset := offset + sizes[i];
    }
  }

  /** Reads each element on its own. */
  method ReadSparse(sizes: seq<nat>, data: Bytes, start: nat, startOffset: nat, rows: seq<int>, ghost elems: seq<Bytes>)
    returns (out: seq<Bytes>)
    requires sizes == SizesOf(elems) && data == Concat(elems)
    requires start <= |sizes| && startOffset == OffsetOf(sizes, start) &&
             forall i | 0 <= i < |rows| :: start <= rows[i] < |elems|
    ensures out == Pick(elems, rows)
  {
    out := [];
    for i := 0 to |rows|
      invariant |out| == i && forall j | 0 <= j < i :: out[j] == elems[rows[j]]
    {
      var row := rows[i];
      var offset := SumSizes(sizes, start, row, startOffset);
      ElementAt(elems, row);
      out := out + [data[offset..offset + sizes[row]]];
    }
  }

  lemma WithinBlock(data: Bytes, from: nat, to: nat, at: nat, n: nat)
    requires from <= at && at + n <= to <= |data|
    ensures data[from..to][at - from..at - from + n] == data[at..at + n]
  {
    var block := data[from..to];
    var part := block[at - from..at - from + n];
    assert |part| == n == |data[at..at + n]|;
    forall k | 0 <= k < n ensures part[k] == data[at..at + n][k] {
      assert part[k] == block[at - from + k] == data[at + k];
    }
  }

  /** Where element `i` is in the block of the elements from `start` to `end`. */
  lemma BlockElement(elems: seq<Bytes>, start: nat, end: nat, i: nat)
    requires start <= i < end <= |elems|
    ensures var sizes := SizesOf(elems);
            var from, to, at := OffsetOf(sizes, start), OffsetOf(sizes, end), OffsetOf(sizes, i);
            && from <= at && at + |elems[i]| == OffsetOf(sizes, i + 1) <= to <= |Concat(elems)|
            && Concat(elems)[from..to][at - from..at - from + |elems[i]|] == elems[i]
  {
    var sizes := SizesOf(elems);
    ElementAt(elems, i);
    SumMonotone(sizes, start, i);
    SumMonotone(sizes, i + 1, end);
    SumMonotone(sizes, end, |sizes|);
    var from, to, at := OffsetOf(sizes, start), OffsetOf(sizes, end), OffsetOf(sizes, i);
    WithinBlock(Concat(elems), from, to, at, |elems[i]|);
  }

  /** Walking over all positions up to the last row: position `i` is the next row or comes before it. */
  lemma NextPosition(rows: seq<int>, next: nat, i: int)
    requires Ascending(rows) && next < |rows| && i <= rows[next]
    ensures i == rows[next] && next + 1 < |rows| ==> i < rows[next + 1]
    ensures i == rows[next] ==> (next + 1 == |rows| <==> i == rows[|rows| - 1])
    ensures i < rows[next] ==> i < rows[|rows| - 1]
  {
    assert next < |rows| - 1 ==> rows[next] < rows[|rows| - 1];
  }

  /** Reads the whole block from `start` to `end` and copies out the elements asked for. The list of
  positions is never read past its end. */
  method ReadDense(sizes: seq<nat>, data: Bytes, start: nat, end: nat, startOffset: nat, endOffset: nat, rows: seq<int>,
                   ghost elems: seq<Bytes>)
    returns (out: seq<Bytes>)
    requires sizes == SizesOf(elems) && data == Concat(elems)
    requires Ascending(rows) && rows != [] && start == rows[0] && end == rows[|rows| - 1] + 1 && end <= |elems|
    requires startOffset == OffsetOf(sizes, start) && endOffset == OffsetOf(sizes, end)
    ensures out == Pick(elems, rows)
  {
    SumMonotone(sizes, start, end);
    SumMonotone(sizes, end, |sizes|);
    var block := data[startOffset..endOffset];
    out := [];
    var offset, next := 0, 0;
    for i := start to end
      invariant 0 <= offset && 0 <= next <= |rows| && |out| == next && (next == |rows| <==> i == end)
      invariant startOffset + offset == OffsetOf(sizes, i) <= endOffset
      invariant next < |rows| ==> i <= rows[next]
      invariant next > 0 ==> rows[next - 1] < i
      invariant forall j | 0 <= j < next :: out[j] == elems[rows[j]]
    {
      var size := sizes[i];
      BlockElement(elems, start, end, i);
      NextPosition(rows, next, i);
      if i == rows[next] {
        out := out + [block[offset..offset + size]];
        next := next + 1;
      }
      offset := offset + size;
    }
  }

  /** `read_other_column`: both ways of reading give the elements asked for. */
  method ReadItem(words: seq<nat>, data: Bytes, start: nat, end: nat, rows: seq<int>, threshold: int,
                  ghost batches: seq<seq<Bytes>>)
    returns (out: seq<Bytes>)
    requires words == Metadata(batches, |batches|) && data == Concat(Flatten(batches, |batches|))
    requires Ascending(rows) && rows != [] && start == rows[0] && end == rows[|rows| - 1] + 1 &&
             end <= |Flatten(batches, |batches|)|
    ensures forall i | 0 <= i < |rows| :: 0 <= rows[i] < |Flatten(batches, |batches|)|
    ensures out == Pick(Flatten(batches, |batches|), rows)
  {
    ghost var elems := Flatten(batches, |batches|);
    var sizes, _ := ReadSizes(words, batches);
    assert forall i | 0 <= i < |rows| :: rows[0] <= rows[i] <= rows[|rows| - 1];
    var startOffset := SumSizes(sizes, 0, start, 0);
    var endOffset := SumSizes(sizes, start, end, startOffset);
    if (end - start) / |rows| >= threshold {
      out := ReadSparse(sizes, data, start, startOffset, rows, elems);
    } else {
      out := ReadDense(sizes, data, start, end, startOffset, endOffset, rows, elems);
    }
  }
}
