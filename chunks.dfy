/** `chunks`: a sequence cut into consecutive slices of length n, the last one possibly
    shorter. The step of `range` must not be zero; a negative step gives no slices at all. */
module Chunks {
  import opened Wrappers

  /** Python's slice `s[i:i + n]` for 0 <= i and n > 0: the end is clipped to the length. */
  function Slice<T>(s: seq<T>, i: nat, n: nat): (r: seq<T>)
    requires i <= |s|
  {
    if i + n <= |s| then s[i..i + n] else s[i..]
  }

  /** ceil(len / n). */
  function ChunkCount(len: nat, n: nat): nat
    requires n > 0
  {
    (len + n - 1) / n
  }

  /** The slices starting at 0, n, 2n, ... below the length. */
  function Chunks<T>(s: seq<T>, n: int): (r: Result<seq<seq<T>>, Raised>)
    ensures n == 0 <==> r.Failure?
    ensures r.Failure? ==> r.error == ZeroStep
    ensures n < 0 ==> r == Success([])
  {
    if n == 0 then Failure(ZeroStep)
    else if n < 0 then Success([])
    else
      var count := ChunkCount(|s|, n);
      Success(seq(count, k requires 0 <= k < count => StartInside(|s|, n, k); Slice(s, k * n, n)))
  }

  function Concat<T>(xs: seq<seq<T>>): seq<T> {
    if |xs| == 0 then [] else Concat(xs[..|xs| - 1]) + xs[|xs| - 1]
  }

  /** There are ceil(len / n) chunks: just enough to cover the input, none of them empty
      and none starting past its end; the empty input gives none. */
  lemma ChunkCountCovers<T>(s: seq<T>, n: int)
    requires n > 0
    ensures |Chunks(s, n).value| * n >= |s|
    ensures |Chunks(s, n).value| > 0 ==> (|Chunks(s, n).value| - 1) * n < |s|
    ensures |s| == 0 <==> Chunks(s, n) == Success([])
  {
    DivBounds(|s|, n);
  }

  /** (c - 1) * n < len <= c * n where c = ceil(len / n), and c = 0 for len = 0. */
  lemma DivBounds(len: nat, n: nat)
    requires n > 0
    ensures ChunkCount(len, n) * n >= len
    ensures len > 0 ==> (ChunkCount(len, n) - 1) * n < len
    ensures len == 0 ==> ChunkCount(len, n) == 0
  {
    var c := ChunkCount(len, n);
    var m := len + n - 1;
    assert m == c * n + m % n;
    assert 0 <= m % n < n;
    assert (c - 1) * n == c * n - n;
  }

  /** Every chunk starts inside the input. */
  lemma StartInside(len: nat, n: nat, k: nat)
    requires n > 0 && k < ChunkCount(len, n)
    ensures k * n < len
  {
    DivBounds(len, n);
    var c := ChunkCount(len, n);
    assert (c - 1) * n == k * n + (c - 1 - k) * n;
  }

  /** Every chunk but the last holds n elements; the last holds between 1 and n. */
  lemma ChunkLengths<T>(s: seq<T>, n: int, k: nat)
    requires n > 0
    requires k < |Chunks(s, n).value|
    ensures var r := Chunks(s, n).value;
            (k < |r| - 1 ==> |r[k]| == n) && (k == |r| - 1 ==> 1 <= |r[k]| <= n)
  {
    var c := ChunkCount(|s|, n);
    var start := k * n;
    StartInside(|s|, n, k);
    assert Chunks(s, n).value[k] == Slice(s, start, n);
    assert (k + 1) * n == start + n;
    if k < c - 1 {
      StartInside(|s|, n, k + 1);
    } else {
      DivBounds(|s|, n);
    }
  }

  /** Concatenating the first k chunks gives the first k * n elements, or all of them. */
  lemma {:induction false} ConcatPrefix<T>(s: seq<T>, n: int, k: nat)
    requires n > 0
    requires k <= |Chunks(s, n).value|
    ensures Concat(Chunks(s, n).value[..k]) == s[..if k * n <= |s| then k * n else |s|]
  {
    if k > 0 {
      var r := Chunks(s, n).value;
      ConcatPrefix(s, n, k - 1);
      assert r[..k][..k - 1] == r[..k - 1];
      var start := (k - 1) * n;
      StartInside(|s|, n, k - 1);
      assert r[k - 1] == Slice(s, start, n);
      assert k * n == start + n;
      if start + n <= |s| {
        assert s[..start] + s[start..start + n] == s[..start + n];
      } else {
        assert s[..start] + s[start..] == s[..|s|];
      }
    }
  }

  /** The chunks put back together give the input. */
  lemma ChunksConcat<T>(s: seq<T>, n: int)
    requires n > 0
    ensures Concat(Chunks(s, n).value) == s
  {
    var r := Chunks(s, n).value;
    DivBounds(|s|, n);
    ConcatPrefix(s, n, |r|);
    assert r[..|r|] == r;
  }
}
