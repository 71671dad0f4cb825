/** The batching rule of the pipeline driver, stated on its own: a chain is
    cut into consecutive runs ("batches"), and a run continues from an
    element to the next one exactly when `skip(element, next)` holds. */
module Batching {

  function Last<T>(s: seq<T>): T
    requires s != []
  {
    s[|s| - 1]
  }

  /** The concatenation of a sequence of batches. */
  function Flatten<T>(bs: seq<seq<T>>): seq<T>
  {
    if bs == [] then [] else bs[0] + Flatten(bs[1..])
  }

  /** Glues a pending run `p` onto the front of the first batch of `bs`. */
  function Prepend<T>(p: seq<T>, bs: seq<seq<T>>): seq<seq<T>>
    requires p != [] ==> bs != []
  {
    if p == [] then bs else [p + bs[0]] + bs[1..]
  }

  /** The batches of `chain`: the first element starts a batch; it shares
      that batch with the batch of the rest of the chain when
      `skip(chain[0], chain[1])` holds, and stands alone otherwise. */
  function Batches<T>(chain: seq<T>, skip: (T, T) -> bool): (bs: seq<seq<T>>)
    ensures |bs| > 0 <==> |chain| > 0
    ensures |bs| <= |chain|
    ensures forall k :: 0 <= k < |bs| ==> bs[k] != []
    decreases |chain|
  {
    if chain == [] then []
    else
      var rest := Batches(chain[1..], skip);
      if |chain| > 1 && skip(chain[0], chain[1]) then Prepend([chain[0]], rest)
      else [[chain[0]]] + rest
  }

  /** The number of adjacent pairs for which `skip` answers false. */
  function Cuts<T>(chain: seq<T>, skip: (T, T) -> bool): nat
    decreases |chain|
  {
    if |chain| < 2 then 0
    else (if skip(chain[0], chain[1]) then 0 else 1) + Cuts(chain[1..], skip)
  }

  /** Every batch is non-empty. */
  ghost predicate NonEmptyRuns<T>(bs: seq<seq<T>>)
  {
    forall k :: 0 <= k < |bs| ==> bs[k] != []
  }

  /** Inside every batch, `skip` holds from each element to the next. */
  ghost predicate SkipWithin<T>(bs: seq<seq<T>>, skip: (T, T) -> bool)
  {
    forall k, j :: 0 <= k < |bs| && 0 <= j < |bs[k]| - 1 ==> skip(bs[k][j], bs[k][j + 1])
  }

  /** Between the last element of a batch and the first of the next one,
      `skip` fails. */
  ghost predicate CutBetween<T>(bs: seq<seq<T>>, skip: (T, T) -> bool)
    requires NonEmptyRuns(bs)
  {
    forall k :: 1 <= k < |bs| ==> !skip(Last(bs[k - 1]), bs[k][0])
  }

  /** A declarative description of the batching: `bs` splits `chain` into
      non-empty consecutive runs, `skip` holds between neighbours inside a
      run, and fails between the last element of a run and the first of
      the next. */
  ghost predicate IsRunPartition<T>(bs: seq<seq<T>>, chain: seq<T>, skip: (T, T) -> bool)
  {
    && Flatten(bs) == chain
    && NonEmptyRuns(bs)
    && SkipWithin(bs, skip)
    && CutBetween(bs, skip)
  }

  lemma {:induction false} FlattenAppend<T>(a: seq<seq<T>>, b: seq<seq<T>>)
    ensures Flatten(a + b) == Flatten(a) + Flatten(b)
    decreases |a|
  {
    if a == [] {
      assert a + b == b;
    } else {
      assert (a + b)[1..] == a[1..] + b;
      FlattenAppend(a[1..], b);
    }
  }

  lemma FlattenPrepend<T>(p: seq<T>, bs: seq<seq<T>>)
    requires p != [] ==> bs != []
    ensures Flatten(Prepend(p, bs)) == p + Flatten(bs)
  {
    if p != [] {
      assert ([p + bs[0]] + bs[1..])[1..] == bs[1..];
    }
  }

  /** Every element of the chain lands in exactly one batch, in chain order:
      the batches, concatenated, give back the chain. */
  lemma {:induction false} BatchesFlatten<T>(chain: seq<T>, skip: (T, T) -> bool)
    ensures Flatten(Batches(chain, skip)) == chain
    decreases |chain|
  {
    if chain != [] {
      var rest := Batches(chain[1..], skip);
      BatchesFlatten(chain[1..], skip);
      if |chain| > 1 && skip(chain[0], chain[1]) {
        FlattenPrepend([chain[0]], rest);
      } else {
        assert ([[chain[0]]] + rest)[1..] == rest;
      }
      assert chain == [chain[0]] + chain[1..];
    }
  }

  /** The number of batches is one more than the number of false answers. */
  lemma {:induction false} BatchCount<T>(chain: seq<T>, skip: (T, T) -> bool)
    requires chain != []
    ensures |Batches(chain, skip)| == 1 + Cuts(chain, skip)
    decreases |chain|
  {
    if |chain| > 1 {
      BatchCount(chain[1..], skip);
    }
  }

  /** The batches satisfy the declarative description. */
  lemma {:induction false} BatchesAreRunPartition<T>(chain: seq<T>, skip: (T, T) -> bool)
    ensures IsRunPartition(Batches(chain, skip), chain, skip)
    decreases |chain|
  {
    BatchesFlatten(chain, skip);
    if chain != [] {
      var rest := Batches(chain[1..], skip);
      BatchesAreRunPartition(chain[1..], skip);
      BatchesFlatten(chain[1..], skip);
      if |chain| > 1 {
        assert Flatten(rest) == rest[0] + Flatten(rest[1..]);
        assert rest[0][0] == chain[1];
      }
      if |chain| > 1 && skip(chain[0], chain[1]) {
        MergedIsRunPartition(chain[0], rest, skip);
      } else {
        ConsedIsRunPartition(chain[0], rest, skip);
      }
    }
  }

  /** Putting `x` in front of the first run keeps the description when
      `skip(x, ...)` holds for that run's first element. */
  lemma MergedIsRunPartition<T>(x: T, rest: seq<seq<T>>, skip: (T, T) -> bool)
    requires rest != [] && NonEmptyRuns(rest) && SkipWithin(rest, skip) && CutBetween(rest, skip)
    requires skip(x, rest[0][0])
    ensures NonEmptyRuns(Prepend([x], rest))
    ensures SkipWithin(Prepend([x], rest), skip)
    ensures CutBetween(Prepend([x], rest), skip)
  {
    var bs := Prepend([x], rest);
    assert bs == [[x] + rest[0]] + rest[1..];
    assert forall k :: 1 <= k < |bs| ==> bs[k] == rest[k];
    forall k, j | 0 <= k < |bs| && 0 <= j < |bs[k]| - 1
      ensures skip(bs[k][j], bs[k][j + 1])
    {
      if k == 0 && j > 0 {
        assert bs[0][j] == rest[0][j - 1] && bs[0][j + 1] == rest[0][j];
      }
    }
    assert Last(bs[0]) == Last(rest[0]);
  }

  /** Putting `[x]` in front as a run of its own keeps the description when
      `skip(x, ...)` fails for the next element. */
  lemma ConsedIsRunPartition<T>(x: T, rest: seq<seq<T>>, skip: (T, T) -> bool)
    requires NonEmptyRuns(rest) && SkipWithin(rest, skip) && CutBetween(rest, skip)
    requires rest != [] ==> !skip(x, rest[0][0])
    ensures NonEmptyRuns([[x]] + rest)
    ensures SkipWithin([[x]] + rest, skip)
    ensures CutBetween([[x]] + rest, skip)
  {
    var bs := [[x]] + rest;
    assert forall k :: 1 <= k < |bs| ==> bs[k] == rest[k - 1];
  }

  /** Only the batches satisfy the declarative description: any split of
      the chain into runs with the same cut rule is the same split. */
  lemma {:induction false} RunPartitionIsBatches<T>(bs: seq<seq<T>>, chain: seq<T>, skip: (T, T) -> bool)
    requires IsRunPartition(bs, chain, skip)
    ensures bs == Batches(chain, skip)
    decreases |chain|
  {
    if bs == [] {
      assert chain == [];
    } else {
      assert Flatten(bs) == bs[0] + Flatten(bs[1..]);
      assert chain != [] && chain[0] == bs[0][0];
      if |bs[0]| > 1 {
        var tail := [bs[0][1..]] + bs[1..];
        TailAfterMerged(bs, skip);
        assert Flatten(tail) == bs[0][1..] + Flatten(bs[1..]);
        assert chain[1..] == Flatten(tail);
        assert chain[1] == bs[0][1];
        RunPartitionIsBatches(tail, chain[1..], skip);
        assert bs[0] == [chain[0]] + tail[0];
        assert bs == [[chain[0]] + tail[0]] + tail[1..];
      } else {
        var tail := bs[1..];
        TailAfterSingle(bs, skip);
        assert bs[0] == [chain[0]];
        assert chain[1..] == Flatten(tail);
        if tail != [] {
          assert Flatten(tail) == tail[0] + Flatten(tail[1..]);
          assert chain[1] == bs[1][0];
        }
        RunPartitionIsBatches(tail, chain[1..], skip);
        assert bs == [[chain[0]]] + tail;
      }
    }
  }

  /** Dropping the first element of a first run that has more than one
      element keeps the description. */
  lemma TailAfterMerged<T>(bs: seq<seq<T>>, skip: (T, T) -> bool)
    requires bs != [] && |bs[0]| > 1
    requires NonEmptyRuns(bs) && SkipWithin(bs, skip) && CutBetween(bs, skip)
    ensures skip(bs[0][0], bs[0][1])
    ensures NonEmptyRuns([bs[0][1..]] + bs[1..])
    ensures SkipWithin([bs[0][1..]] + bs[1..], skip)
    ensures CutBetween([bs[0][1..]] + bs[1..], skip)
  {
    var tail := [bs[0][1..]] + bs[1..];
    assert forall k :: 1 <= k < |tail| ==> tail[k] == bs[k];
    forall k, j | 0 <= k < |tail| && 0 <= j < |tail[k]| - 1
      ensures skip(tail[k][j], tail[k][j + 1])
    {
      if k == 0 {
        assert tail[0][j] == bs[0][j + 1] && tail[0][j + 1] == bs[0][j + 2];
      }
    }
    assert Last(tail[0]) == Last(bs[0]);
  }

  /** Dropping a first run of one element keeps the description, and the
      answer for that element and the next one was false. */
  lemma TailAfterSingle<T>(bs: seq<seq<T>>, skip: (T, T) -> bool)
    requires bs != []
    requires NonEmptyRuns(bs) && SkipWithin(bs, skip) && CutBetween(bs, skip)
    ensures |bs| > 1 ==> !skip(Last(bs[0]), bs[1][0])
    ensures NonEmptyRuns(bs[1..])
    ensures SkipWithin(bs[1..], skip)
    ensures CutBetween(bs[1..], skip)
  {
    var tail := bs[1..];
    assert forall k :: 0 <= k < |tail| ==> tail[k] == bs[k + 1];
  }

  /** `Batches` is exactly the split the declarative description allows. */
  lemma BatchesCharacterized<T>(bs: seq<seq<T>>, chain: seq<T>, skip: (T, T) -> bool)
    ensures IsRunPartition(bs, chain, skip) <==> bs == Batches(chain, skip)
  {
    if IsRunPartition(bs, chain, skip) {
      RunPartitionIsBatches(bs, chain, skip);
    }
    if bs == Batches(chain, skip) {
      BatchesAreRunPartition(chain, skip);
    }
  }

  /** When every answer is false, every element forms a batch of its own. */
  lemma {:induction false} NoSkipGivesSingletons<T>(chain: seq<T>, skip: (T, T) -> bool)
    requires forall i :: 0 <= i < |chain| - 1 ==> !skip(chain[i], chain[i + 1])
    ensures |Batches(chain, skip)| == |chain|
    ensures forall k :: 0 <= k < |chain| ==> Batches(chain, skip)[k] == [chain[k]]
    decreases |chain|
  {
    if chain != [] {
      var rest := Batches(chain[1..], skip);
      forall i | 0 <= i < |chain[1..]| - 1
        ensures !skip(chain[1..][i], chain[1..][i + 1])
      {
        assert chain[1..][i] == chain[i + 1] && chain[1..][i + 1] == chain[i + 2];
      }
      NoSkipGivesSingletons(chain[1..], skip);
      if |chain| > 1 {
        assert !skip(chain[0], chain[1]);
      }
      assert Batches(chain, skip) == [[chain[0]]] + rest;
    }
  }

  /** When every answer is true, the whole chain is one batch. */
  lemma {:induction false} AllSkipGivesOneBatch<T>(chain: seq<T>, skip: (T, T) -> bool)
    requires chain != []
    requires forall i :: 0 <= i < |chain| - 1 ==> skip(chain[i], chain[i + 1])
    ensures Batches(chain, skip) == [chain]
    decreases |chain|
  {
    if |chain| > 1 {
      forall i | 0 <= i < |chain[1..]| - 1
        ensures skip(chain[1..][i], chain[1..][i + 1])
      {
        assert chain[1..][i] == chain[i + 1] && chain[1..][i + 1] == chain[i + 2];
      }
      AllSkipGivesOneBatch(chain[1..], skip);
      assert skip(chain[0], chain[1]);
      assert Batches(chain, skip) == Prepend([chain[0]], [chain[1..]]);
      assert [chain[0]] + chain[1..] == chain;
      assert [chain[1..]][1..] == [];
    } else {
      assert chain[1..] == [];
      assert Batches(chain, skip) == [[chain[0]]] + Batches(chain[1..], skip);
      assert [chain[0]] == chain;
    }
  }

  /** One step of the driver's walk: the batches of a suffix, unfolded at
      its first element. */
  lemma BatchesStep<T>(chain: seq<T>, i: nat, skip: (T, T) -> bool)
    requires i < |chain|
    ensures i + 1 < |chain| && skip(chain[i], chain[i + 1]) ==>
              Batches(chain[i..], skip) == Prepend([chain[i]], Batches(chain[i + 1..], skip))
    ensures !(i + 1 < |chain| && skip(chain[i], chain[i + 1])) ==>
              Batches(chain[i..], skip) == [[chain[i]]] + Batches(chain[i + 1..], skip)
  {
    assert chain[i..][1..] == chain[i + 1..];
  }

  lemma PrependExtend<T>(p: seq<T>, x: T, bs: seq<seq<T>>)
    requires bs != []
    ensures Prepend(p, Prepend([x], bs)) == Prepend(p + [x], bs)
  {
    var inner := [[x] + bs[0]] + bs[1..];
    assert Prepend([x], bs) == inner;
    if p == [] {
      assert p + [x] == [x];
    } else {
      assert inner[0] == [x] + bs[0] && inner[1..] == bs[1..];
      assert p + ([x] + bs[0]) == (p + [x]) + bs[0];
    }
  }

  lemma PrependClose<T>(p: seq<T>, x: T, bs: seq<seq<T>>)
    ensures Prepend(p, [[x]] + bs) == [p + [x]] + bs
  {
    assert p + [x] == [x] ==> [[x]] + bs == [p + [x]] + bs;
    if p == [] {
      assert p + [x] == [x];
    } else {
      assert ([[x]] + bs)[0] == [x];
      assert ([[x]] + bs)[1..] == bs;
    }
  }
}
