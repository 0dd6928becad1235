/**
  Splitting a data set into consecutive batches: the generator walks the
  row index from 0 in steps of the batch size and yields the slice
  `data[i : i + size]`, which Python clips at the end of the data, so the
  last batch may be short.
*/
module Batches {
  import opened Wrappers

  /** A step of zero makes Python's `range` raise `ValueError`. */
  datatype BatchError = ZeroStep

  function Min(a: int, b: int): int {
    if a <= b then a else b
  }

  /** The batches laid end to end. */
  function Flatten<T>(bs: seq<seq<T>>): seq<T>
    decreases |bs|
  {
    if |bs| == 0 then [] else Flatten(bs[..|bs| - 1]) + bs[|bs| - 1]
  }

  /** Batch `j` is the clipped slice that starts at row `j * size`. */
  ghost predicate IsSlicing<T>(data: seq<T>, size: nat, bs: seq<seq<T>>)
    requires size > 0
  {
    forall j :: 0 <= j < |bs| ==>
      j * size < |data| && bs[j] == data[j * size .. Min(j * size + size, |data|)]
  }

  lemma MulSucc(k: int, s: int)
    ensures (k + 1) * s == k * s + s
  {
  }

  lemma MulAtLeast(e: int, s: int)
    requires e >= 1 && s > 0
    ensures e * s >= s
  {
    assert e * s == (e - 1) * s + s;
  }

  /** Integer division is determined by the interval the dividend lies in. */
  lemma DivUnique(m: int, s: int, q: int)
    requires s > 0 && q * s <= m < q * s + s
    ensures m / s == q
  {
    var d := m / s;
    assert m == d * s + m % s;
    assert (d - q) * s == d * s - q * s;
    if d > q {
      MulAtLeast(d - q, s);
    } else if d < q {
      MulAtLeast(q - d, s);
    }
  }

  /** Slices that start before the end, laid end to end, give the data up to the last one's end. */
  lemma {:induction false} SlicingFlattens<T>(data: seq<T>, size: nat, bs: seq<seq<T>>)
    requires size > 0 && IsSlicing(data, size, bs)
    ensures Flatten(bs) == data[..Min(|bs| * size, |data|)]
    decreases |bs|
  {
    if |bs| > 0 {
      var k := |bs| - 1;
      var init := bs[..k];
      assert IsSlicing(data, size, init) by {
        forall j | 0 <= j < |init| ensures init[j] == bs[j] { }
      }
      SlicingFlattens(data, size, init);
      var a := k * size;
      var b := Min(a + size, |data|);
      MulSucc(k, size);
      assert a < |data| && bs[k] == data[a .. b];
      assert Flatten(init) == data[..a];
      assert Flatten(bs) == Flatten(init) + bs[k];
      assert data[..a] + data[a .. b] == data[..b];
    }
  }

  /** One more clipped slice, taken at the next offset, keeps the batches a slicing. */
  lemma SlicingExtend<T>(data: seq<T>, size: nat, bs: seq<seq<T>>, i: nat)
    requires size > 0 && IsSlicing(data, size, bs) && i == |bs| * size && i < |data|
    ensures IsSlicing(data, size, bs + [data[i .. Min(i + size, |data|)]])
    ensures i + size == |bs + [data[i .. Min(i + size, |data|)]]| * size
  {
    MulSucc(|bs|, size);
  }

  /**
    gen_batches: `Failure` for a zero batch size, no batches for a negative
    one (the range is empty), and otherwise ceil(|data| / size) batches,
    each the clipped slice of `size` rows at its offset. The batches laid
    end to end give back the data, every batch is non-empty, and all but
    the last hold exactly `size` rows.
  */
  method GenBatches<T>(data: seq<T>, size: int) returns (r: Result<seq<seq<T>>, BatchError>)
    ensures r.Failure? <==> size == 0
    ensures size < 0 ==> r == Success([])
    ensures size > 0 ==> r.Success? && IsSlicing(data, size, r.value)
    ensures size > 0 ==> |r.value| == (|data| + size - 1) / size
    ensures size > 0 ==> Flatten(r.value) == data
  {
    if size == 0 {
      return Failure(ZeroStep);
    }
    if size < 0 {
      return Success([]);
    }
    var out: seq<seq<T>> := [];
    var i := 0;
    while i < |data|
      invariant i == |out| * size
      invariant |out| == 0 || i - size < |data|
      invariant IsSlicing(data, size, out)
      decreases |data| - i
    {
      SlicingExtend(data, size, out, i);
      out := out + [data[i .. Min(i + size, |data|)]];
      i := i + size;
    }
    DivUnique(|data| + size - 1, size, |out|);
    SlicingFlattens(data, size, out);
    return Success(out);
  }

  /** Every batch is non-empty, and every batch but the last holds exactly `size` rows. */
  lemma BatchSizes<T>(data: seq<T>, size: nat, bs: seq<seq<T>>)
    requires size > 0 && IsSlicing(data, size, bs)
    ensures forall j :: 0 <= j < |bs| ==> 0 < |bs[j]| <= size
    ensures forall j :: 0 <= j < |bs| - 1 ==> |bs[j]| == size
  {
    forall j | 0 <= j < |bs| - 1 ensures |bs[j]| == size {
      assert (j + 1) * size < |data|;
    }
  }
}
