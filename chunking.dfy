/** The chunk partitioner `split(a, n)` of make_data_split.py: the list is cut
    into `n` contiguous pieces with `k, m = divmod(len(a), n)`; piece `i` starts
    at `i*k + min(i, m)`. */
module Chunking {
  import opened Wrappers
  import opened Seqs

  /** `divmod(len(a), 0)` raises ZeroDivisionError. */
  datatype SplitError = ZeroChunkCount

  function Min(x: int, y: int): int { if x <= y then x else y }

  /** Offset at which chunk `i` begins, for `k, m = divmod(len, n)`. */
  function ChunkStart(i: int, k: int, m: int): int { i * k + Min(i, m) }

  lemma ChunkStartBounds(len: nat, n: nat, i: int, j: int)
    requires n > 0 && 0 <= i <= j <= n
    ensures 0 <= ChunkStart(i, len / n, len % n) <= ChunkStart(j, len / n, len % n) <= len
  {
    var k, m := len / n, len % n;
    MulMonotone(0, i, k);
    MulMonotone(i, j, k);
    MulMonotone(j, n, k);
    assert n * k + m == len;
  }

  lemma {:induction false} MulMonotone(a: int, b: int, k: nat)
    requires a <= b
    ensures a * k <= b * k
    decreases k
  {
    if k > 0 {
      MulMonotone(a, b, k - 1);
      assert a * k == a * (k - 1) + a;
      assert b * k == b * (k - 1) + b;
    }
  }

  lemma ChunkStartStep(i: int, k: int, m: int)
    ensures ChunkStart(i + 1, k, m) - ChunkStart(i, k, m) == k + (if i < m then 1 else 0)
  {
    assert (i + 1) * k == i * k + k;
  }

  /** `split(a, n)`. A negative `n` makes `range(n)` empty, so no chunk is
      returned (Python's `divmod` does not raise for it). */
  function Split<T>(a: seq<T>, n: int): (r: Result<seq<seq<T>>, SplitError>)
    ensures r.Failure? <==> n == 0
    ensures r.Success? ==> |r.value| == (if n > 0 then n else 0)
  {
    if n == 0 then Failure(ZeroChunkCount)
    else if n < 0 then Success([])
    else
      var k, m := |a| / n, |a| % n;
      Success(seq(n, i requires 0 <= i < n =>
        ChunkStartBounds(|a|, n, i, i + 1);
        a[ChunkStart(i, k, m)..ChunkStart(i + 1, k, m)]))
  }

  /** With `k, m = divmod(len(a), n)`, the first `m` chunks hold `k + 1`
      elements and the remaining ones `k`. */
  lemma SplitChunkSize<T>(a: seq<T>, n: int, i: int)
    requires n > 0 && 0 <= i < n
    ensures |Split(a, n).value[i]| == |a| / n + (if i < |a| % n then 1 else 0)
  {
    ChunkStartBounds(|a|, n, i, i + 1);
    ChunkStartStep(i, |a| / n, |a| % n);
  }

  /** The first `j` chunks, concatenated, are the prefix of `a` up to the start of chunk `j`. */
  lemma {:induction false} SplitPrefix<T>(a: seq<T>, n: int, j: nat)
    requires n > 0 && j <= n
    ensures 0 <= ChunkStart(j, |a| / n, |a| % n) <= |a|
    ensures Flatten(Split(a, n).value[..j]) == a[..ChunkStart(j, |a| / n, |a| % n)]
    decreases j
  {
    var cs := Split(a, n).value;
    var k, m := |a| / n, |a| % n;
    ChunkStartBounds(|a|, n, j, j);
    if j > 0 {
      SplitPrefix(a, n, j - 1);
      ChunkStartBounds(|a|, n, j - 1, j);
      assert cs[..j] == cs[..j - 1] + [cs[j - 1]];
      FlattenSnoc(cs[..j - 1], cs[j - 1]);
      assert a[..ChunkStart(j, k, m)] == a[..ChunkStart(j - 1, k, m)] + a[ChunkStart(j - 1, k, m)..ChunkStart(j, k, m)];
    }
  }

  /** Concatenating the chunks in order gives back exactly the input list, and
      their lengths add up to its length. */
  lemma SplitConcat<T>(a: seq<T>, n: int)
    requires n > 0
    ensures Flatten(Split(a, n).value) == a
    ensures TotalLength(Split(a, n).value) == |a|
  {
    var cs := Split(a, n).value;
    SplitPrefix(a, n, n);
    assert cs[..n] == cs;
    assert n * (|a| / n) + |a| % n == |a|;
    FlattenLength(cs);
  }

  /** Chunk sizes differ by at most one, and larger chunks come first. */
  lemma SplitBalanced<T>(a: seq<T>, n: int, i: int, j: int)
    requires n > 0 && 0 <= i <= j < n
    ensures |Split(a, n).value[j]| <= |Split(a, n).value[i]| <= |Split(a, n).value[j]| + 1
  {
    SplitChunkSize(a, n, i);
    SplitChunkSize(a, n, j);
  }

  /** A negative chunk count silently drops every element. */
  lemma SplitNegativeDropsAll<T>(a: seq<T>, n: int)
    requires n < 0
    ensures Split(a, n) == Success([])
  {
  }
}
