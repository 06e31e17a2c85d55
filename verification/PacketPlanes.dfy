/** Decoding a packet into its planes, for both byte layouts of the same planes. */
module PacketPlanes {
  import opened Basics
  import opened Division
  import opened Checksums

  /** One plane: a row of bytes for every token. */
  type Plane = seq<seq<Byte>>

  predicate PlaneOf(p: Plane, capacity: nat, width: nat) { |p| == capacity && forall t :: 0 <= t < capacity ==> |p[t]| == width }

  predicate PlanesOf(planes: seq<Plane>, capacity: nat, widths: seq<nat>) {
    |planes| == |widths| && forall k :: 0 <= k < |planes| ==> PlaneOf(planes[k], capacity, widths[k])
  }

  function Total(widths: seq<nat>): nat { if widths == [] then 0 else widths[0] + Total(widths[1..]) }

  // ---------------------------------------------------------------- the two layouts

  function Flat(rows: seq<seq<Byte>>): seq<Byte> { if rows == [] then [] else rows[0] + Flat(rows[1..]) }

  /** Plane after plane. */
  function StackedBytes(planes: seq<Plane>): seq<Byte> { if planes == [] then [] else Flat(planes[0]) + StackedBytes(planes[1..]) }

  /** Token after token, the planes of a token side by side. */
  function InterleavedBytes(planes: seq<Plane>, capacity: nat): seq<Byte>
    requires forall p :: p in planes ==> |p| == capacity
  {
    Flat(seq(capacity, t requires 0 <= t < capacity => TokenBytes(planes, t)))
  }

  function TokenBytes(planes: seq<Plane>, t: nat): seq<Byte>
    requires forall p :: p in planes ==> t < |p|
  {
    if planes == [] then [] else planes[0][t] + TokenBytes(planes[1..], t)
  }

  // ---------------------------------------------------------------- decoding

  /** Cut into n rows of equal width. */
  function Rows(raw: seq<Byte>, width: nat, n: nat): (r: seq<seq<Byte>>)
    requires |raw| == n * width
    ensures |r| == n
    decreases n
  {
    if n == 0 then []
    else
      LessOne(n, width);
      [raw[..width]] + Rows(raw[width..], width, n - 1)
  }

  lemma LessOne(n: nat, width: nat)
    requires n > 0
    ensures n * width - width == (n - 1) * width >= 0
  {
    MulNat(n - 1, width);
  }

  /** Cut into pieces of the given widths. */
  function Split(raw: seq<Byte>, widths: seq<nat>): (r: seq<seq<Byte>>)
    requires |raw| == Total(widths)
    ensures |r| == |widths|
  {
    if widths == [] then [] else [raw[..widths[0]]] + Split(raw[widths[0]..], widths[1..])
  }

  datatype LayoutError = SizeDisagrees

  function StackedPlanes(raw: seq<Byte>, capacity: nat, widths: seq<nat>): (r: seq<Plane>)
    requires |raw| == capacity * Total(widths)
    ensures |r| == |widths|
  {
    if widths == [] then []
    else
      FirstPlane(capacity, widths);
      [Rows(raw[..capacity * widths[0]], widths[0], capacity)] + StackedPlanes(raw[capacity * widths[0]..], capacity, widths[1..])
  }

  lemma FirstPlane(capacity: nat, widths: seq<nat>)
    requires widths != []
    ensures 0 <= capacity * widths[0] <= capacity * Total(widths)
    ensures capacity * Total(widths) - capacity * widths[0] == capacity * Total(widths[1..])
  {
    MulNat(capacity, widths[0]);
    MulNat(capacity, Total(widths[1..]));
    assert capacity * (widths[0] + Total(widths[1..])) == capacity * widths[0] + capacity * Total(widths[1..]);
  }

  function InterleavedPlanes(raw: seq<Byte>, capacity: nat, widths: seq<nat>): (r: seq<Plane>)
    requires |raw| == capacity * Total(widths)
    ensures |r| == |widths|
  {
    var rows := Rows(raw, Total(widths), capacity);
    RowsAreWide(raw, Total(widths), capacity);
    seq(|widths|, k requires 0 <= k < |widths| =>
      seq(capacity, t requires 0 <= t < capacity => Split(rows[t], widths)[k]))
  }

  lemma {:induction false} RowsAreWide(raw: seq<Byte>, width: nat, n: nat)
    requires |raw| == n * width
    ensures forall t :: 0 <= t < n ==> |Rows(raw, width, n)[t]| == width
    decreases n
  {
    if n > 0 {
      LessOne(n, width);
      RowsAreWide(raw[width..], width, n - 1);
    }
  }

  // ---------------------------------------------------------------- decoding undoes either layout

  lemma {:induction false} RowsOfFlat(rows: seq<seq<Byte>>, width: nat)
    requires forall t :: 0 <= t < |rows| ==> |rows[t]| == width
    ensures |Flat(rows)| == |rows| * width && Rows(Flat(rows), width, |rows|) == rows
    decreases |rows|
  {
    if rows == [] {
      assert 0 * width == 0;
    } else {
      RowsOfFlat(rows[1..], width);
      LessOne(|rows|, width);
      assert Flat(rows)[..width] == rows[0] && Flat(rows)[width..] == Flat(rows[1..]);
    }
  }

  /** Decoding plane-stacked bytes gives back the planes. */
  lemma {:induction false} StackedRoundTrip(planes: seq<Plane>, capacity: nat, widths: seq<nat>)
    requires PlanesOf(planes, capacity, widths)
    ensures |StackedBytes(planes)| == capacity * Total(widths)
    ensures StackedPlanes(StackedBytes(planes), capacity, widths) == planes
    decreases |planes|
  {
    if planes == [] {
      assert capacity * 0 == 0;
    } else {
      assert PlaneOf(planes[0], capacity, widths[0]);
      RowsOfFlat(planes[0], widths[0]);
      StackedRoundTrip(planes[1..], capacity, widths[1..]);
      FirstPlane(capacity, widths);
      var raw := StackedBytes(planes);
      assert raw[..capacity * widths[0]] == Flat(planes[0]) && raw[capacity * widths[0]..] == StackedBytes(planes[1..]);
    }
  }

  lemma {:induction false} SplitOfToken(planes: seq<Plane>, capacity: nat, widths: seq<nat>, t: nat)
    requires PlanesOf(planes, capacity, widths) && t < capacity
    ensures |TokenBytes(planes, t)| == Total(widths)
    ensures Split(TokenBytes(planes, t), widths) == seq(|planes|, k requires 0 <= k < |planes| => planes[k][t])
    decreases |planes|
  {
    if planes != [] {
      assert PlaneOf(planes[0], capacity, widths[0]);
      SplitOfToken(planes[1..], capacity, widths[1..], t);
      var raw := TokenBytes(planes, t);
      assert raw[..widths[0]] == planes[0][t] && raw[widths[0]..] == TokenBytes(planes[1..], t);
    }
  }

  /** Decoding interleaved bytes gives back the same planes. */
  lemma InterleavedRoundTrip(planes: seq<Plane>, capacity: nat, widths: seq<nat>)
    requires PlanesOf(planes, capacity, widths)
    ensures |InterleavedBytes(planes, capacity)| == capacity * Total(widths)
    ensures InterleavedPlanes(InterleavedBytes(planes, capacity), capacity, widths) == planes
  {
    forall t | 0 <= t < capacity
      ensures |TokenBytes(planes, t)| == Total(widths)
      ensures Split(TokenBytes(planes, t), widths) == seq(|planes|, k requires 0 <= k < |planes| => planes[k][t])
    {
      SplitOfToken(planes, capacity, widths, t);
    }
    var tokens := seq(capacity, t requires 0 <= t < capacity => TokenBytes(planes, t));
    RowsOfFlat(tokens, Total(widths));
    var decoded := InterleavedPlanes(Flat(tokens), capacity, widths);
    forall k | 0 <= k < |planes| ensures decoded[k] == planes[k] {
      assert PlaneOf(planes[k], capacity, widths[k]);
      forall t | 0 <= t < capacity ensures decoded[k][t] == planes[k][t] {}
    }
  }

  /** Decode a packet; only a size that disagrees with the layout is an error. */
  method Decode(raw: seq<Byte>, capacity: nat, widths: seq<nat>, interleaved: bool) returns (r: Result<seq<Plane>, LayoutError>)
    ensures r.Err? <==> |raw| != capacity * Total(widths)
    ensures r.Ok? ==> r.value == if interleaved then InterleavedPlanes(raw, capacity, widths) else StackedPlanes(raw, capacity, widths)
  {
    if |raw| != capacity * Total(widths) { return Err(SizeDisagrees); }
    if interleaved { return Ok(InterleavedPlanes(raw, capacity, widths)); }
    var result: seq<Plane> := [];
    var offset := 0;
    var k := 0;
    assert widths[0..] == widths && raw[0..] == raw;
    while k < |widths|
      invariant k <= |widths| && 0 <= offset <= |raw| && |raw| - offset == capacity * Total(widths[k..])
      invariant result + StackedPlanes(raw[offset..], capacity, widths[k..]) == StackedPlanes(raw, capacity, widths)
      decreases |widths| - k
    {
      var rest := raw[offset..];
      FirstPlane(capacity, widths[k..]);
      var count := capacity * widths[k];
      result := result + [Rows(raw[offset..offset + count], widths[k], capacity)];
      assert rest[..count] == raw[offset..offset + count] && rest[count..] == raw[offset + count..];
      assert widths[k..][1..] == widths[k + 1..];
      offset := offset + count;
      k := k + 1;
    }
    r := Ok(result);
  }
}
