/** The physical byte ranges of selected tensor rows: exact runs of neighbouring rows. */
module TensorRanges {
  import opened Division
  import opened MemoryRanges

  predicate Ascending(rows: seq<int>) { forall i, j :: 0 <= i < j < |rows| ==> rows[i] < rows[j] }

  function Add(rows: seq<int>, row: int): seq<int> {
    if rows == [] then [row]
    else if row < rows[0] then [row] + rows
    else if row == rows[0] then rows
    else [rows[0]] + Add(rows[1..], row)
  }

  /** The distinct rows in ascending order. */
  function Unique(rows: seq<int>): seq<int> { if rows == [] then [] else Add(Unique(rows[1..]), rows[0]) }

  lemma {:induction false} AddKeeps(rows: seq<int>, row: int)
    requires Ascending(rows)
    ensures Ascending(Add(rows, row)) && forall r :: r in Add(rows, row) <==> r in rows || r == row
    decreases |rows|
  {
    if rows != [] && rows[0] < row {
      AddKeeps(rows[1..], row);
      var more := Add(rows[1..], row);
      assert rows == [rows[0]] + rows[1..];
      forall k | 0 <= k < |more| ensures rows[0] < more[k] { assert more[k] in more; }
    }
  }

  lemma {:induction false} UniqueKeeps(rows: seq<int>)
    ensures Ascending(Unique(rows)) && forall r :: r in Unique(rows) <==> r in rows
    decreases |rows|
  {
    if rows != [] {
      UniqueKeeps(rows[1..]);
      AddKeeps(Unique(rows[1..]), rows[0]);
      assert rows == [rows[0]] + rows[1..];
    }
  }

  /** Byte x belongs to one of the rows. */
  ghost predicate RowBytes(rows: seq<int>, base: int, stride: int, x: int) {
    exists r :: r in rows && base + r * stride <= x < base + r * stride + stride
  }

  /** The bytes of rows first to last, as one range. */
  function RunRange(base: int, stride: int, first: int, last: int): Range { (base + first * stride, (last + 1 - first) * stride) }

  lemma RunIsRows(base: int, stride: int, first: int, last: int, x: int)
    requires stride > 0 && first <= last
    ensures RunRange(base, stride, first, last).1 > 0
    ensures Contains(RunRange(base, stride, first, last), x) <==> first <= (x - base) / stride <= last
  {
    var q := (x - base) / stride;
    assert x - base == q * stride + (x - base) % stride;
    assert (last + 1 - first) * stride == (last + 1) * stride - first * stride;
    MulGrows(last + 1 - first, stride);
    if first <= q { MulMonotone(first, q, stride); } else { MulMonotone(q + 1, first, stride); }
    if q <= last { MulMonotone(q + 1, last + 1, stride); } else { MulMonotone(last + 1, q, stride); }
    assert (q + 1) * stride == q * stride + stride;
  }

  lemma ByteRow(rows: seq<int>, base: int, stride: int, x: int)
    requires stride > 0
    ensures RowBytes(rows, base, stride, x) <==> (x - base) / stride in rows
  {
    var q := (x - base) / stride;
    assert x - base == q * stride + (x - base) % stride;
    if r :| r in rows && base + r * stride <= x < base + r * stride + stride {
      DivUnique(x - base, stride, r, x - base - r * stride);
    }
  }

  /** The runs of the first rows, and the run still open at row i. */
  ghost predicate Grouped(rows: seq<int>, base: int, stride: int, runs: seq<Range>, start: nat, i: nat)
    requires i <= |rows|
  {
    && start < i && (forall k :: start <= k < i ==> rows[k] == rows[start] + (k - start))
    && (forall x :: Bytes(runs, x) <==> stride > 0 && (x - base) / stride in rows[..start])
  }

  /** One range for every maximal run of neighbouring rows: exactly the rows' bytes. */
  method TensorRangesOf(rows: seq<int>, base: int, stride: int) returns (runs: seq<Range>)
    requires stride > 0
    ensures forall x :: Bytes(runs, x) <==> RowBytes(rows, base, stride, x)
  {
    var values := Unique(rows);
    UniqueKeeps(rows);
    forall x ensures RowBytes(rows, base, stride, x) <==> (x - base) / stride in values { ByteRow(rows, base, stride, x); }
    runs := [];
    if values == [] { return; }
    var start := 0;
    for i := 1 to |values|
      invariant Grouped(values, base, stride, runs, start, i)
    {
      if values[i] - values[i - 1] != 1 {
        var closed := runs + [RunRange(base, stride, values[start], values[i - 1])];
        CloseRun(values, base, stride, runs, start, i, closed);
        runs := closed;
        start := i;
      }
    }
    var closed := runs + [RunRange(base, stride, values[start], values[|values| - 1])];
    CloseRun(values, base, stride, runs, start, |values|, closed);
    runs := closed;
    assert values[..|values|] == values;
  }

  lemma CloseRun(rows: seq<int>, base: int, stride: int, runs: seq<Range>, start: nat, i: nat, closed: seq<Range>)
    requires stride > 0 && i <= |rows| && Grouped(rows, base, stride, runs, start, i)
    requires closed == runs + [RunRange(base, stride, rows[start], rows[i - 1])]
    ensures forall x :: Bytes(closed, x) <==> (x - base) / stride in rows[..i]
  {
    var run := RunRange(base, stride, rows[start], rows[i - 1]);
    forall x ensures Bytes(closed, x) <==> (x - base) / stride in rows[..i] {
      BytesAppend(closed, |runs|, x);
      assert closed[..|runs| + 1] == closed && closed[..|runs|] == runs;
      RunIsRows(base, stride, rows[start], rows[i - 1], x);
      var q := (x - base) / stride;
      RowsOfRun(rows, start, i, q);
    }
  }

  lemma RowsOfRun(rows: seq<int>, start: nat, i: nat, q: int)
    requires start < i <= |rows| && forall k :: start <= k < i ==> rows[k] == rows[start] + (k - start)
    ensures q in rows[..i] <==> q in rows[..start] || rows[start] <= q <= rows[i - 1]
  {
    assert rows[..i] == rows[..start] + rows[start..i];
    if rows[start] <= q <= rows[i - 1] {
      var k := start + (q - rows[start]);
      assert rows[start..i][k - start] == q;
    }
    if q in rows[start..i] {
      var k :| 0 <= k < i - start && rows[start..i][k] == q;
      assert rows[start + k] == q;
    }
  }
}
