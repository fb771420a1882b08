/**
 * Slicing in 23_list_slicing_advanced.py: Python's clamped `lst[a:b]`,
 * `chunk_list`, removal by concatenating two slices and assignment to a
 * slice.
 */
module ListSlicing {
  import opened PyCore

  /** A slice bound as Python resolves it: negatives count from the end, then clamp to 0..n. */
  function Clamp(i: int, n: nat): (c: nat)
    ensures c <= n
    ensures 0 <= i <= n ==> c == i
    ensures i < 0 && i + n >= 0 ==> c == i + n
    ensures i > n ==> c == n
    ensures i + n < 0 ==> c == 0
  {
    if i < 0 then (if i + n < 0 then 0 else i + n) else if i > n then n else i
  }

  /** `lst[start:stop]` with step 1: empty when the resolved stop is not after the start. */
  function Slice<T>(lst: seq<T>, start: int, stop: int): (r: seq<T>)
    ensures |r| <= |lst|
    ensures 0 <= start <= stop <= |lst| ==> r == lst[start..stop]
  {
    var a, b := Clamp(start, |lst|), Clamp(stop, |lst|);
    if a < b then lst[a..b] else []
  }

  /** Every element of a list of lists, in order. */
  function Flatten<T>(xss: seq<seq<T>>): seq<T>
  {
    if xss == [] then [] else xss[0] + Flatten(xss[1..])
  }

  lemma {:induction false} FlattenAppend<T>(a: seq<seq<T>>, b: seq<seq<T>>)
    ensures Flatten(a + b) == Flatten(a) + Flatten(b)
  {
    if a == [] {
      assert a + b == b;
    } else {
      assert (a + b)[0] == a[0];
      assert (a + b)[1..] == a[1..] + b;
      FlattenAppend(a[1..], b);
    }
  }

  /** `range(0, n, k)` has this many elements for k >= 1. */
  function ChunkCount(n: nat, k: nat): nat
    requires k >= 1
  {
    (n + k - 1) / k
  }

  lemma ChunkCountBounds(n: nat, k: nat, j: nat)
    requires k >= 1
    ensures j < ChunkCount(n, k) <==> j * k < n
  {
    var c := ChunkCount(n, k);
    assert n + k - 1 == k * c + (n + k - 1) % k;
    if j < c {
      assert j * k <= (c - 1) * k;
      assert (c - 1) * k == k * c - k;
    } else {
      assert j * k >= c * k;
    }
  }

  /** The chunks for k >= 1: `lst[i:i+k]` for i = 0, k, 2k, ... below len(lst). */
  function Chunks<T>(lst: seq<T>, k: nat): (r: seq<seq<T>>)
    requires k >= 1
    ensures |r| == ChunkCount(|lst|, k)
  {
    seq(ChunkCount(|lst|, k), j requires 0 <= j < ChunkCount(|lst|, k) => Slice(lst, j * k, j * k + k))
  }

  /**
   * chunk_list(lst, chunk_size): `range` raises ValueError for a step of 0;
   * a negative step gives an empty range and so no chunks.
   */
  function ChunkList<T>(lst: seq<T>, chunkSize: int): (r: Result<seq<seq<T>>>)
    ensures r.Err? <==> chunkSize == 0
    ensures r.Err? ==> r.error.kind == ValueError
    ensures chunkSize < 0 ==> r == Ok([])
    ensures chunkSize >= 1 ==> r == Ok(Chunks(lst, chunkSize))
  {
    if chunkSize == 0 then Err(PyError(ValueError, "range() arg 3 must not be zero"))
    else if chunkSize < 0 then Ok([])
    else Ok(Chunks(lst, chunkSize))
  }

  /** Chunk j starts at j * k and runs for k elements, or to the end of the list. */
  lemma ChunkShape<T>(lst: seq<T>, k: nat, j: nat)
    requires k >= 1 && j < ChunkCount(|lst|, k)
    ensures j * k < |lst|
    ensures Chunks(lst, k)[j] == lst[j * k .. if j * k + k <= |lst| then j * k + k else |lst|]
  {
    ChunkCountBounds(|lst|, k, j);
  }

  /** Every chunk is non-empty and at most k long; all but the last are exactly k long. */
  lemma ChunkSizes<T>(lst: seq<T>, k: nat)
    requires k >= 1
    ensures forall j :: 0 <= j < |Chunks(lst, k)| ==> 1 <= |Chunks(lst, k)[j]| <= k
    ensures forall j :: 0 <= j < |Chunks(lst, k)| - 1 ==> |Chunks(lst, k)[j]| == k
  {
    var c := Chunks(lst, k);
    forall j | 0 <= j < |c|
      ensures 1 <= |c[j]| <= k
      ensures j < |c| - 1 ==> |c[j]| == k
    {
      ChunkShape(lst, k, j);
      if j < |c| - 1 {
        ChunkCountBounds(|lst|, k, j + 1);
        assert (j + 1) * k == j * k + k;
      }
    }
  }

  function Min(a: int, b: int): int
  {
    if a <= b then a else b
  }

  lemma MulNonNegative(j: nat, k: nat)
    ensures j * k >= 0
  {
  }

  lemma MulSucc(j: int, k: int)
    ensures (j + 1) * k == j * k + k
  {
  }

  lemma SplitAt<T>(lst: seq<T>, lo: int, hi: int)
    requires 0 <= lo <= hi <= |lst|
    ensures lst[lo..] == lst[lo..hi] + lst[hi..]
  {
  }

  /** The chunks from index j on hold exactly the list from j * k on. */
  lemma {:induction false} FlattenChunksFrom<T>(lst: seq<T>, k: nat, j: nat)
    requires k >= 1 && j <= ChunkCount(|lst|, k)
    ensures Flatten(Chunks(lst, k)[j..]) == lst[Min(j * k, |lst|)..]
    decreases ChunkCount(|lst|, k) - j
  {
    var c := Chunks(lst, k);
    if j == |c| {
      ChunkCountBounds(|lst|, k, j);
      assert c[j..] == [];
    } else {
      ChunkShape(lst, k, j);
      FlattenChunksFrom(lst, k, j + 1);
      MulSucc(j, k);
      var lo := j * k;
      MulNonNegative(j, k);
      assert 0 <= lo < |lst|;
      var hi := Min(lo + k, |lst|);
      assert c[j] == lst[lo..hi];
      assert Flatten(c[j + 1..]) == lst[hi..];
      assert c[j..] == [c[j]] + c[j + 1..];
      assert Flatten(c[j..]) == c[j] + Flatten(c[j + 1..]);
      SplitAt(lst, lo, hi);
    }
  }

  /** Concatenating the chunks gives back the list. */
  lemma FlattenChunks<T>(lst: seq<T>, k: nat)
    requires k >= 1
    ensures Flatten(Chunks(lst, k)) == lst
  {
    FlattenChunksFrom(lst, k, 0);
    assert Chunks(lst, k)[0..] == Chunks(lst, k);
  }

  /** The demo: range(10) in chunks of 3. */
  lemma ChunkListDemo()
    ensures ChunkList([0, 1, 2, 3, 4, 5, 6, 7, 8, 9], 3) == Ok([[0, 1, 2], [3, 4, 5], [6, 7, 8], [9]])
  {
    var lst := [0, 1, 2, 3, 4, 5, 6, 7, 8, 9];
    var c := Chunks(lst, 3);
    assert |c| == 4;
    ChunkShape(lst, 3, 0);
    ChunkShape(lst, 3, 1);
    ChunkShape(lst, 3, 2);
    ChunkShape(lst, 3, 3);
    assert c[0] == [0, 1, 2] && c[1] == [3, 4, 5] && c[2] == [6, 7, 8] && c[3] == [9];
    assert c == [[0, 1, 2], [3, 4, 5], [6, 7, 8], [9]];
  }

  /** The empty list has no chunks. */
  lemma ChunkEmpty<T>(lst: seq<T>, k: nat)
    requires k >= 1 && lst == []
    ensures Chunks(lst, k) == []
  {
  }

  // ---------------------------------------------------------------- removal and replacement

  /** `numbers[:a] + numbers[b:]`: drops the elements at indices a..b-1. */
  function RemoveRange<T>(xs: seq<T>, a: int, b: int): seq<T>
  {
    Slice(xs, 0, a) + Slice(xs, b, |xs|)
  }

  /** For 0 <= a <= b <= len, exactly the indices a..b-1 disappear and the rest keep their order. */
  lemma RemoveRangeSpec<T>(xs: seq<T>, a: int, b: int)
    requires 0 <= a <= b <= |xs|
    ensures |RemoveRange(xs, a, b)| == |xs| - (b - a)
    ensures forall i :: 0 <= i < a ==> RemoveRange(xs, a, b)[i] == xs[i]
    ensures forall i :: a <= i < |xs| - (b - a) ==> RemoveRange(xs, a, b)[i] == xs[i + (b - a)]
  {
  }

  lemma RemoveDemo()
    ensures RemoveRange([0, 1, 2, 3, 4, 5], 2, 4) == [0, 1, 4, 5]
  {
  }

  /** The end of the slice an assignment replaces: the resolved stop, but never before the resolved start. */
  function AssignEnd(n: nat, a: int, b: int): (hi: nat)
    ensures Clamp(a, n) <= hi <= n
    ensures Clamp(a, n) <= Clamp(b, n) ==> hi == Clamp(b, n)
    ensures Clamp(b, n) < Clamp(a, n) ==> hi == Clamp(a, n)
  {
    if Clamp(b, n) < Clamp(a, n) then Clamp(a, n) else Clamp(b, n)
  }

  /**
   * `xs[a:b] = ys`: the resolved slice is replaced by ys, which may have
   * another length; an empty resolved slice inserts ys at the start bound.
   */
  function AssignSlice<T>(xs: seq<T>, a: int, b: int, ys: seq<T>): (r: seq<T>)
    ensures |r| == |xs| - (AssignEnd(|xs|, a, b) - Clamp(a, |xs|)) + |ys|
    ensures r[..Clamp(a, |xs|)] == xs[..Clamp(a, |xs|)]
    ensures r[Clamp(a, |xs|)..Clamp(a, |xs|) + |ys|] == ys
    ensures r[Clamp(a, |xs|) + |ys|..] == xs[AssignEnd(|xs|, a, b)..]
  {
    xs[..Clamp(a, |xs|)] + ys + xs[AssignEnd(|xs|, a, b)..]
  }

  /** Replacing a slice by as many new elements changes only those indices. */
  lemma AssignSliceSameLength<T>(xs: seq<T>, a: int, b: int, ys: seq<T>)
    requires 0 <= a <= b <= |xs| && |ys| == b - a
    ensures |AssignSlice(xs, a, b, ys)| == |xs|
    ensures forall i :: 0 <= i < |xs| && !(a <= i < b) ==> AssignSlice(xs, a, b, ys)[i] == xs[i]
    ensures forall i :: a <= i < b ==> AssignSlice(xs, a, b, ys)[i] == ys[i - a]
  {
  }

  /** Reading the slice back gives the assigned elements. */
  lemma AssignSliceThenSlice<T>(xs: seq<T>, a: int, b: int, ys: seq<T>)
    requires 0 <= a <= b <= |xs|
    ensures Slice(AssignSlice(xs, a, b, ys), a, a + |ys|) == ys
  {
    var r := AssignSlice(xs, a, b, ys);
    assert r[a..a + |ys|] == ys;
  }

  lemma ReplaceDemo()
    ensures AssignSlice([0, 1, 2, 3, 4, 5], 1, 4, [10, 20, 30]) == [0, 10, 20, 30, 4, 5]
  {
  }
}
