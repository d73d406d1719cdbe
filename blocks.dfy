/** The shape every append loop of the client shares: visit the elements of a
    sequence in order, compute a block of output for each, stop at the first error
    (an exception escapes), and concatenate the blocks. */
module Blocks {
  import opened Json

  /** `[f(x) for x in xs]`, where the first `f(x)` that raises ends the whole computation. */
  function MapAll<T, R>(xs: seq<T>, f: T -> Result<R>): Result<seq<R>>
    decreases |xs|
  {
    if |xs| == 0 then Ok([])
    else
      var init :- MapAll(xs[..|xs| - 1], f);
      var last :- f(xs[|xs| - 1]);
      Ok(init + [last])
  }

  /** The blocks laid end to end, in order. */
  function Concat<R>(bs: seq<seq<R>>): seq<R>
    decreases |bs|
  {
    if |bs| == 0 then [] else Concat(bs[..|bs| - 1]) + bs[|bs| - 1]
  }

  /** `for x in xs: out.extend(f(x))`. */
  function ConcatMap<T, R>(xs: seq<T>, f: T -> Result<seq<R>>): Result<seq<R>> {
    var blocks :- MapAll(xs, f);
    Ok(Concat(blocks))
  }

  /** The sum of `size(x)` over the elements of xs. */
  function Sum<T>(xs: seq<T>, size: T -> nat): nat
    decreases |xs|
  {
    if |xs| == 0 then 0 else Sum(xs[..|xs| - 1], size) + size(xs[|xs| - 1])
  }

  /** The size of the block of each element, 0 where there is none. */
  function Sizes<T, R>(f: T -> Result<seq<R>>): T -> nat {
    x => if f(x).Ok? then |f(x).value| else 0
  }

  /** One more step of a loop that maps: the prefix grows by one element. */
  lemma {:induction false} MapAllStep<T, R>(xs: seq<T>, f: T -> Result<R>, i: nat, done: seq<R>)
    requires i < |xs| && MapAll(xs[..i], f) == Ok(done)
    ensures MapAll(xs[..i + 1], f) == (if f(xs[i]).Ok? then Ok(done + [f(xs[i]).value]) else Err(f(xs[i]).error))
  {
    assert xs[..i + 1][..i] == xs[..i];
  }

  /** Once one element fails, every longer prefix fails with the same error. */
  lemma {:induction false} MapAllStops<T, R>(xs: seq<T>, f: T -> Result<R>, i: nat)
    requires i < |xs| && MapAll(xs[..i], f).Ok? && f(xs[i]).Err?
    ensures MapAll(xs, f) == Err(f(xs[i]).error)
  {
    if i == |xs| - 1 {
      assert xs[..|xs| - 1] == xs[..i];
    } else {
      var init := xs[..|xs| - 1];
      assert init[..i] == xs[..i] && init[i] == xs[i];
      MapAllStops(init, f, i);
    }
  }

  /** The outcome of one more step, for the result y of the element: the prefix grows by
      its value, or the whole map fails with its error. */
  lemma {:induction false} MapAllNext<T, R>(xs: seq<T>, f: T -> Result<R>, i: nat, done: seq<R>, y: Result<R>)
    requires i < |xs| && MapAll(xs[..i], f) == Ok(done) && f(xs[i]) == y
    ensures y.Ok? ==> MapAll(xs[..i + 1], f) == Ok(done + [y.value])
    ensures y.Err? ==> MapAll(xs, f) == Err(y.error)
  {
    MapAllStep(xs, f, i, done);
    if y.Err? {
      MapAllStops(xs, f, i);
    }
  }

  /** MapAll succeeds exactly when every element does, and then it keeps the order and the values. */
  lemma {:induction false} MapAllOk<T, R>(xs: seq<T>, f: T -> Result<R>)
    ensures MapAll(xs, f).Ok? <==> forall i :: 0 <= i < |xs| ==> f(xs[i]).Ok?
    ensures MapAll(xs, f).Ok? ==>
      |MapAll(xs, f).value| == |xs| &&
      forall i :: 0 <= i < |xs| ==> MapAll(xs, f).value[i] == f(xs[i]).value
  {
    if |xs| > 0 {
      var init := xs[..|xs| - 1];
      MapAllOk(init, f);
      assert forall i :: 0 <= i < |init| ==> init[i] == xs[i];
    }
  }

  /** Two maps that agree element by element have the same outcome. */
  lemma {:induction false} MapAllEquiv<T, U, R>(xs: seq<T>, f: T -> Result<R>, ys: seq<U>, g: U -> Result<R>)
    requires |xs| == |ys| && forall i :: 0 <= i < |xs| ==> f(xs[i]) == g(ys[i])
    ensures MapAll(xs, f) == MapAll(ys, g)
  {
    if |xs| > 0 {
      MapAllEquiv(xs[..|xs| - 1], f, ys[..|ys| - 1], g);
    }
  }

  /** The error reported is that of the first element that fails. */
  lemma {:induction false} MapAllFirstError<T, R>(xs: seq<T>, f: T -> Result<R>, j: nat)
    requires j < |xs| && f(xs[j]).Err?
    requires forall i :: 0 <= i < j ==> f(xs[i]).Ok?
    ensures MapAll(xs, f) == Err(f(xs[j]).error)
  {
    var prefix := xs[..j];
    assert forall i :: 0 <= i < |prefix| ==> prefix[i] == xs[i];
    MapAllOk(prefix, f);
    MapAllStops(xs, f, j);
  }

  /** When the whole map succeeds, so does each element. */
  lemma {:induction false} MapAllOkAt<T, R>(xs: seq<T>, f: T -> Result<R>, j: nat)
    requires MapAll(xs, f).Ok? && j < |xs|
    ensures f(xs[j]).Ok? && |MapAll(xs, f).value| == |xs|
    ensures MapAll(xs, f).value[j] == f(xs[j]).value
  {
    MapAllOk(xs, f);
  }

  /** One more block is appended after the others. */
  lemma {:induction false} ConcatSnoc<R>(bs: seq<seq<R>>, b: seq<R>)
    ensures Concat(bs + [b]) == Concat(bs) + b
  {
    assert (bs + [b])[..|bs|] == bs;
  }

  /** The outcome of one more step of a loop that extends its output by the block y of
      xs[i]: the output grows by y, or the whole loop fails with y's error. */
  lemma {:induction false} ConcatMapNext<T, R>(xs: seq<T>, f: T -> Result<seq<R>>, i: nat, blocks: seq<seq<R>>, y: Result<seq<R>>)
    requires i < |xs| && MapAll(xs[..i], f) == Ok(blocks) && f(xs[i]) == y
    ensures y.Ok? ==> MapAll(xs[..i + 1], f) == Ok(blocks + [y.value])
    ensures y.Ok? ==> Concat(blocks + [y.value]) == Concat(blocks) + y.value
    ensures y.Err? ==> MapAll(xs, f) == Err(y.error)
  {
    MapAllNext(xs, f, i, blocks, y);
    if y.Ok? {
      ConcatSnoc(blocks, y.value);
    }
  }

  /** Element m of block j sits after all the earlier blocks. */
  lemma {:induction false} ConcatAt<R>(bs: seq<seq<R>>, j: nat, m: nat)
    requires j < |bs| && m < |bs[j]|
    ensures |Concat(bs[..j])| + m < |Concat(bs)|
    ensures Concat(bs)[|Concat(bs[..j])| + m] == bs[j][m]
  {
    var init := bs[..|bs| - 1];
    if j == |bs| - 1 {
      assert init == bs[..j];
    } else {
      assert init[..j] == bs[..j] && init[j] == bs[j];
      ConcatAt(init, j, m);
    }
  }

  /** The length of the concatenation is the sum of the block sizes. */
  lemma {:induction false} ConcatMapLength<T, R>(xs: seq<T>, f: T -> Result<seq<R>>, size: T -> nat)
    requires forall i :: 0 <= i < |xs| && f(xs[i]).Ok? ==> |f(xs[i]).value| == size(xs[i])
    ensures ConcatMap(xs, f).Ok? ==> |ConcatMap(xs, f).value| == Sum(xs, size)
  {
    if |xs| > 0 {
      var init := xs[..|xs| - 1];
      assert forall i :: 0 <= i < |init| ==> init[i] == xs[i];
      ConcatMapLength(init, f, size);
      if MapAll(xs, f).Ok? {
        var blocks := MapAll(xs, f).value;
        assert blocks[..|blocks| - 1] == MapAll(init, f).value;
      }
    }
  }

  /** Element m of the block of xs[j] is found after the blocks of xs[..j]. */
  lemma {:induction false} ConcatMapAt<T, R>(xs: seq<T>, f: T -> Result<seq<R>>, size: T -> nat, j: nat, m: nat)
    requires forall i :: 0 <= i < |xs| && f(xs[i]).Ok? ==> |f(xs[i]).value| == size(xs[i])
    requires ConcatMap(xs, f).Ok? && j < |xs| && m < size(xs[j])
    ensures f(xs[j]).Ok?
    ensures Sum(xs[..j], size) + m < |ConcatMap(xs, f).value|
    ensures ConcatMap(xs, f).value[Sum(xs[..j], size) + m] == f(xs[j]).value[m]
  {
    MapAllOk(xs, f);
    var blocks := MapAll(xs, f).value;
    var prefix := xs[..j];
    assert forall i :: 0 <= i < |prefix| ==> prefix[i] == xs[i];
    MapAllOk(prefix, f);
    ConcatMapLength(prefix, f, size);
    assert MapAll(prefix, f).value == blocks[..j];
    ConcatAt(blocks, j, m);
  }

  /** ConcatMapAt with the block sizes read off the blocks themselves. */
  lemma {:induction false} ConcatMapBlockAt<T, R>(xs: seq<T>, f: T -> Result<seq<R>>, j: nat, n: nat)
    requires ConcatMap(xs, f).Ok? && j < |xs| && n < Sizes(f)(xs[j])
    ensures f(xs[j]).Ok?
    ensures Sum(xs[..j], Sizes(f)) + n < |ConcatMap(xs, f).value|
    ensures ConcatMap(xs, f).value[Sum(xs[..j], Sizes(f)) + n] == f(xs[j]).value[n]
  {
    ConcatMapAt(xs, f, Sizes(f), j, n);
  }

  /** Every row of the block of each element x maps key to tag(x). */
  ghost predicate KeyedBlocks<T(!new), N(!new)>(f: T -> Result<seq<Fields<N>>>, key: string, tag: T -> Json<N>) {
    forall x, k :: f(x).Ok? && 0 <= k < |f(x).value| ==> Find(f(x).value[k], key) == Some(tag(x))
  }

  /** In the concatenation of keyed blocks, row n of the block of xs[j] maps key to tag(xs[j]). */
  lemma {:induction false} ConcatMapKeyed<T(!new), N(!new)>(xs: seq<T>, f: T -> Result<seq<Fields<N>>>, rows: seq<Fields<N>>, key: string, tag: T -> Json<N>, j: nat, n: nat)
    requires ConcatMap(xs, f) == Ok(rows) && KeyedBlocks(f, key, tag)
    requires j < |xs| && n < Sizes(f)(xs[j])
    ensures Sum(xs[..j], Sizes(f)) + n < |rows| && Find(rows[Sum(xs[..j], Sizes(f)) + n], key) == Some(tag(xs[j]))
  {
    ConcatMapBlockAt(xs, f, j, n);
  }

  /** A property every element of every block has, every element of the concatenation has. */
  lemma {:induction false} ConcatAll<R>(bs: seq<seq<R>>, p: R -> bool)
    requires forall j, m :: 0 <= j < |bs| && 0 <= m < |bs[j]| ==> p(bs[j][m])
    ensures forall k :: 0 <= k < |Concat(bs)| ==> p(Concat(bs)[k])
  {
    if |bs| > 0 {
      var init := bs[..|bs| - 1];
      assert forall j :: 0 <= j < |init| ==> init[j] == bs[j];
      ConcatAll(init, p);
    }
  }

  /** The same for a ConcatMap whose every block satisfies p elementwise. */
  lemma {:induction false} ConcatMapAll<T, R>(xs: seq<T>, f: T -> Result<seq<R>>, p: R -> bool)
    requires forall j, m :: 0 <= j < |xs| && f(xs[j]).Ok? && 0 <= m < |f(xs[j]).value| ==> p(f(xs[j]).value[m])
    ensures ConcatMap(xs, f).Ok? ==> forall k :: 0 <= k < |ConcatMap(xs, f).value| ==> p(ConcatMap(xs, f).value[k])
  {
    MapAllOk(xs, f);
    if MapAll(xs, f).Ok? {
      ConcatAll(MapAll(xs, f).value, p);
    }
  }
}
