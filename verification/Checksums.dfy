/** Diagnostic checksums: two 32-bit sums per segment, prefix sums against whole recomputation, and
    batched hashing of paged segments. */
module Checksums {
  import opened Basics
  import opened Division

  type Byte = x: int | 0 <= x < 256 witness 0

  const M := 0x1_0000_0000

  type Word = x: int | 0 <= x < 0x1_0000_0000 witness 0

  /** Sums and products of the hash keep 32 bits. */
  function Wrap(x: int): Word { x % M }

  function Sum(a: int, b: int): int { a + b }

  function Times(word: int, position: int): Word { Wrap(word * position) }

  function Xor(a: Word, b: Word): Word { ((a as bv32) ^ (b as bv32)) as int }

  // ---------------------------------------------------------------- one segment

  /** Little-endian 16-bit words; an odd last byte is padded with zero. */
  function Words(bytes: seq<Byte>): (ws: seq<Word>)
    ensures |ws| == (|bytes| + 1) / 2
  {
    seq((|bytes| + 1) / 2, k requires 0 <= k < (|bytes| + 1) / 2 =>
      WordOf(bytes[2 * k], if 2 * k + 1 < |bytes| then bytes[2 * k + 1] else 0))
  }

  function WordOf(low: int, high: int): int { low + 256 * high }

  function Plain(ws: seq<Word>): Word {
    if ws == [] then 0 else Wrap(Sum(Plain(ws[..|ws| - 1]), ws[|ws| - 1]))
  }

  /** Every word times its one-based position. */
  function Weighted(ws: seq<Word>): Word {
    if ws == [] then 0 else Wrap(Sum(Weighted(ws[..|ws| - 1]), Times(ws[|ws| - 1], |ws|)))
  }

  type Digest = (Word, Word)

  /** Lengths are 32-bit numbers on the device. */
  predicate Short(bytes: seq<Byte>) { |bytes| < M / 2 }

  function ContentChecksum(bytes: seq<Byte>): Digest
    requires Short(bytes)
  {
    (Xor(Plain(Words(bytes)), |bytes|), Weighted(Words(bytes)))
  }

  // ---------------------------------------------------------------- every prefix at once

  /** Running sums, each kept to 32 bits. */
  function CumSum(xs: seq<Word>): (r: seq<Word>)
    ensures |r| == |xs|
  {
    if xs == [] then []
    else
      var front := CumSum(xs[..|xs| - 1]);
      front + [Wrap(Sum(if front == [] then 0 else front[|front| - 1], xs[|xs| - 1]))]
  }

  function Products(ws: seq<Word>): (r: seq<Word>)
    ensures |r| == |ws|
  {
    seq(|ws|, k requires 0 <= k < |ws| => Times(ws[k], k + 1))
  }

  /** The value selected for row i: the sum over its complete words, and the low byte of a word that
      the row's end cuts in half. */
  function PrefixChecksum(bytes: seq<Byte>, rowBytes: nat, i: nat): Digest
    requires rowBytes > 0 && Short(bytes) && (i + 1) * rowBytes <= |bytes|
  {
    var words := Words(bytes);
    var length := (i + 1) * rowBytes;
    RowEnds(rowBytes, i);
    var complete, remainder := length / 2, length % 2;
    var lastComplete := if complete - 1 < 0 then 0 else complete - 1;
    var plain := if complete > 0 then CumSum(words)[lastComplete] else 0;
    var weighted := if complete > 0 then CumSum(Products(words))[lastComplete] else 0;
    if rowBytes % 2 != 0 then
      var at := if complete > |words| - 1 then |words| - 1 else complete;
      var last := if remainder > 0 then words[at] % 256 else 0;
      (Xor(Wrap(Sum(plain, last)), length), Wrap(Sum(weighted, Times(last, complete + 1))))
    else (Xor(plain, length), weighted)
  }

  lemma RowEnds(rowBytes: nat, i: nat)
    requires rowBytes > 0
    ensures (i + 1) * rowBytes >= 1
  {
    MulGrows(i + 1, rowBytes);
  }

  function PrefixChecksums(bytes: seq<Byte>, rows: nat, rowBytes: nat): (r: seq<Digest>)
    requires rowBytes > 0 && Short(bytes) && |bytes| == rows * rowBytes
    ensures |r| == rows
  {
    seq(rows, i requires 0 <= i < rows => RowInside(rows, rowBytes, i); PrefixChecksum(bytes, rowBytes, i))
  }

  lemma RowInside(rows: nat, rowBytes: nat, i: nat)
    requires i < rows
    ensures (i + 1) * rowBytes <= rows * rowBytes
  {
    MulMonotone(i + 1, rows, rowBytes);
  }

  lemma {:induction false} CumSumIsPlain(ws: seq<Word>, k: nat)
    requires k < |ws|
    ensures CumSum(ws)[k] == Plain(ws[..k + 1])
    decreases |ws|
  {
    hide Wrap, Sum, Times;
    var n := |ws| - 1;
    if k < n {
      CumSumIsPlain(ws[..n], k);
      assert ws[..n][..k + 1] == ws[..k + 1];
    } else {
      assert ws[..n + 1] == ws;
      if n > 0 {
        CumSumIsPlain(ws[..n], n - 1);
        assert ws[..n][..n] == ws[..n];
      }
    }
  }

  lemma {:induction false} CumSumIsWeighted(ws: seq<Word>, k: nat)
    requires k < |ws|
    ensures CumSum(Products(ws))[k] == Weighted(ws[..k + 1])
    decreases |ws|
  {
    hide Wrap, Sum, Times;
    var n := |ws| - 1;
    assert Products(ws)[..n] == Products(ws[..n]);
    if k < n {
      CumSumIsWeighted(ws[..n], k);
      assert ws[..n][..k + 1] == ws[..k + 1];
    } else {
      assert ws[..n + 1] == ws;
      if n > 0 {
        CumSumIsWeighted(ws[..n], n - 1);
        assert ws[..n][..n] == ws[..n];
      }
    }
  }

  /** The words of a prefix are the complete words, and the cut byte on its own. */
  lemma WordsOfPrefix(bytes: seq<Byte>, length: nat)
    requires length <= |bytes|
    ensures length % 2 == 0 ==> Words(bytes[..length]) == Words(bytes)[..length / 2]
    ensures length % 2 == 1 ==> Words(bytes[..length]) == Words(bytes)[..length / 2] + [Words(bytes)[length / 2] % 256]
  {
    var prefix := bytes[..length];
    var ws := Words(prefix);
    if length % 2 == 0 {
      forall k | 0 <= k < |ws| ensures ws[k] == Words(bytes)[k] {}
    } else {
      var c := length / 2;
      forall k | 0 <= k < c ensures ws[k] == Words(bytes)[k] {}
      var low, high := bytes[2 * c], if 2 * c + 1 < |bytes| then bytes[2 * c + 1] else 0;
      assert Words(bytes)[c] == WordOf(low, high);
      DivUnique(WordOf(low, high), 256, high, low);
      assert ws[c] == low;
    }
  }

  /** One pass gives, for every row, the checksum of everything up to that row: for any row width. */
  lemma PrefixIsContent(bytes: seq<Byte>, rows: nat, rowBytes: nat, i: nat)
    requires rowBytes > 0 && Short(bytes) && |bytes| == rows * rowBytes && i < rows
    ensures (i + 1) * rowBytes <= |bytes|
    ensures PrefixChecksums(bytes, rows, rowBytes)[i] == ContentChecksum(bytes[..(i + 1) * rowBytes])
  {
    RowInside(rows, rowBytes, i);
    RowEnds(rowBytes, i);
    PrefixOfLength(bytes, rowBytes, i);
  }

  lemma PrefixOfLength(bytes: seq<Byte>, rowBytes: nat, i: nat)
    requires rowBytes > 0 && Short(bytes) && 1 <= (i + 1) * rowBytes <= |bytes|
    ensures PrefixChecksum(bytes, rowBytes, i) == ContentChecksum(bytes[..(i + 1) * rowBytes])
  {
    hide Xor, Words, Wrap, Sum, Times, CumSum, Products, Plain, Weighted;
    var words, length := Words(bytes), (i + 1) * rowBytes;
    var complete := length / 2;
    WordsOfPrefix(bytes, length);
    CompleteSums(words, complete);
    EvenWidth(rowBytes, i);
    PlusNothing(Plain(words[..complete]), complete + 1);
    PlusNothing(Weighted(words[..complete]), complete + 1);
    if length % 2 == 1 {
      var last := words[complete] % 256;
      SumsAppend(words[..complete], last);
    }
  }

  lemma PlusNothing(a: Word, position: nat)
    ensures Wrap(Sum(a, 0)) == a && Wrap(Sum(a, Times(0, position))) == a
  {
  }

  /** The running sums at the last complete word. */
  lemma CompleteSums(words: seq<Word>, complete: nat)
    requires complete <= |words|
    ensures (if complete > 0 then CumSum(words)[complete - 1] else 0) == Plain(words[..complete])
    ensures (if complete > 0 then CumSum(Products(words))[complete - 1] else 0) == Weighted(words[..complete])
  {
    if complete > 0 {
      CumSumIsPlain(words, complete - 1);
      CumSumIsWeighted(words, complete - 1);
    }
  }

  lemma SumsAppend(words: seq<Word>, last: Word)
    ensures Plain(words + [last]) == Wrap(Sum(Plain(words), last))
    ensures Weighted(words + [last]) == Wrap(Sum(Weighted(words), Times(last, |words| + 1)))
  {
    hide Wrap, Sum, Times;
    assert (words + [last])[..|words|] == words;
  }

  /** Only odd rows end inside a word. */
  lemma EvenWidth(rowBytes: nat, i: nat)
    ensures rowBytes % 2 == 0 ==> ((i + 1) * rowBytes) % 2 == 0
  {
    if rowBytes % 2 == 0 {
      var h := rowBytes / 2;
      assert (i + 1) * rowBytes == ((i + 1) * h) * 2;
    }
  }
}
