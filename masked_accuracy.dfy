/** The masked accuracy metric of the U-Net script, in its numpy form
    (get_acc) and its tensor form (my_acc): the share of pixels whose
    argmax class matches, among the pixels that are not neutral. */
module MaskedAccuracy {
  import opened Results
  import opened NdArray

  /** Batch x height x width x channels. */
  type Tensor4 = seq<seq<seq<seq<int>>>>

  datatype AccError = NoCountedPixels   // every pixel is neutral: the denominator is 0

  /** The channel vectors of all pixels in C order (batch, row, column). */
  function Pixels(t: Tensor4): seq<seq<int>> {
    Flatten(Flatten(t))
  }

  /** `t` and `p` have the same batch size, rows and columns, position by
      position (their channel counts may differ). */
  predicate SameLayout(t: Tensor4, p: Tensor4) {
    && |t| == |p|
    && (forall n :: 0 <= n < |t| ==> |t[n]| == |p[n]|)
    && (forall n, i :: 0 <= n < |t| && 0 <= i < |t[n]| ==> |t[n][i]| == |p[n][i]|)
  }

  /** Every pixel has at least one channel. */
  predicate HasChannels(px: seq<seq<int>>) {
    forall k :: 0 <= k < |px| ==> |px[k]| > 0
  }

  /** The last channel (the neutral class) is set. */
  predicate IsNeutral(v: seq<int>)
    requires |v| > 0
  {
    v[|v| - 1] == 1
  }

  /** `t` is one tensor of shape (b, h, w, c): b entries, each an h x w grid
      of c-channel pixels. */
  predicate IsBatch(t: Tensor4, b: nat, h: nat, w: nat, c: nat) {
    |t| == b && forall n :: 0 <= n < b ==> IsGrid3(t[n], h, w, c)
  }

  /** Laid-out tensors have pixel lists of the same length. */
  lemma PixelsAligned(t: Tensor4, p: Tensor4)
    requires SameLayout(t, p)
    ensures |Pixels(t)| == |Pixels(p)|
  {
    Flatten3SameLayout(t, p);
    FlattenSameLayout(Flatten(t), Flatten(p));
  }

  /** The number of pixels of a (b, h, w, c) batch is b * h * w, the product
      of all dimensions but the channels. */
  lemma {:induction false} PixelCount(t: Tensor4, b: nat, h: nat, w: nat, c: nat)
    requires IsBatch(t, b, h, w, c)
    ensures |Pixels(t)| == b * (h * w)
  {
    if b > 0 {
      var hw := h * w;
      var rest := t[1..];
      assert IsBatch(rest, b - 1, h, w, c);
      PixelCount(rest, b - 1, h, w, c);
      RowsOfBatch(t);
      assert IsGrid(t[0], h, w);
      FlattenLength(t[0], h, w);
      assert |Pixels(t)| == hw + |Pixels(rest)|;
      MulPred(b, hw);
    }
  }

  lemma MulPred(b: nat, k: nat)
    requires b > 0
    ensures b * k == k + (b - 1) * k
  {
  }

  lemma RowsOfBatch(t: Tensor4)
    requires t != []
    ensures Pixels(t) == Flatten(t[0]) + Pixels(t[1..])
  {
    assert Flatten(t) == t[0] + Flatten(t[1..]);
    FlattenConcat(t[0], Flatten(t[1..]));
  }

  /** The number of neutral pixels. */
  function NeutralCount(px: seq<seq<int>>): (r: nat)
    requires HasChannels(px)
    ensures r <= |px|
  {
    if px == [] then 0
    else NeutralCount(px[..|px| - 1]) + if IsNeutral(px[|px| - 1]) then 1 else 0
  }

  /** The number of positions whose argmax classes agree. */
  function MatchCount(tp: seq<seq<int>>, pp: seq<seq<int>>): (r: nat)
    requires |tp| == |pp| && HasChannels(tp) && HasChannels(pp)
    ensures r <= |tp|
  {
    if tp == [] then 0
    else
      MatchCount(tp[..|tp| - 1], pp[..|pp| - 1]) +
        if ArgMax(tp[|tp| - 1]) == ArgMax(pp[|pp| - 1]) then 1 else 0
  }

  /** Every pixel is neutral exactly when all pixels are counted neutral. */
  lemma {:induction false} AllNeutralCount(px: seq<seq<int>>)
    requires HasChannels(px)
    ensures NeutralCount(px) == |px| <==> forall k :: 0 <= k < |px| ==> IsNeutral(px[k])
  {
    if px != [] {
      var front := px[..|px| - 1];
      AllNeutralCount(front);
      assert forall k :: 0 <= k < |front| ==> front[k] == px[k];
    }
  }

  /** What both metrics need of their arguments: pixels at the same
      positions, each with at least one channel. */
  predicate Comparable(target: Tensor4, output: Tensor4) {
    SameLayout(target, output) && HasChannels(Pixels(target)) && HasChannels(Pixels(output))
  }

  /** get_acc: correct / (total - neutral), where total is the number of
      pixels of the ground truth; an error when every pixel is neutral. */
  function GetAcc(target: Tensor4, output: Tensor4): (r: Result<real, AccError>)
    requires Comparable(target, output)
    ensures r.Failure? <==> forall k :: 0 <= k < |Pixels(target)| ==> IsNeutral(Pixels(target)[k])
    ensures r.Success? ==>
      && |Pixels(target)| == |Pixels(output)|
      && var counted := |Pixels(target)| - NeutralCount(Pixels(target));
         counted > 0 && r.value == MatchCount(Pixels(target), Pixels(output)) as real / counted as real
  {
    PixelsAligned(target, output);
    AllNeutralCount(Pixels(target));
    var tp := Pixels(target);
    var counted := |tp| - NeutralCount(tp);
    if counted == 0 then Failure(NoCountedPixels)
    else Success(MatchCount(tp, Pixels(output)) as real / counted as real)
  }

  /** my_acc: the same ratio, with the pixel total taken from the
      prediction's shape rather than the ground truth's. */
  function MyAcc(target: Tensor4, output: Tensor4): (r: Result<real, AccError>)
    requires Comparable(target, output)
    ensures r == GetAcc(target, output)
  {
    PixelsAligned(target, output);
    var tp := Pixels(target);
    var total := |Pixels(output)| - NeutralCount(tp);
    if total == 0 then Failure(NoCountedPixels)
    else Success(MatchCount(tp, Pixels(output)) as real / total as real)
  }

  // ---------------------------------------------------------------------
  // The prediction has one channel fewer than the ground truth
  // ---------------------------------------------------------------------

  /** The ground truth is one-hot with the neutral class as its last channel,
      and the prediction scores only the named classes. */
  predicate DropsNeutral(tp: seq<seq<int>>, pp: seq<seq<int>>) {
    |tp| == |pp| &&
    forall k :: 0 <= k < |tp| ==> |pp[k]| > 0 && |tp[k]| == |pp[k]| + 1 && IsOneHotLike(tp[k])
  }

  /** A neutral pixel cannot count as correct: its true argmax is the
      neutral channel, which the prediction does not have. */
  lemma NeutralNeverMatches(v: seq<int>, u: seq<int>)
    requires |u| > 0 && |v| == |u| + 1 && IsOneHotLike(v) && IsNeutral(v)
    ensures ArgMax(v) == |u| && ArgMax(v) != ArgMax(u)
  {
    ArgMaxUnique(v, |u|);
  }

  lemma {:induction false} MatchesAtMostCounted(tp: seq<seq<int>>, pp: seq<seq<int>>)
    requires DropsNeutral(tp, pp)
    ensures MatchCount(tp, pp) + NeutralCount(tp) <= |tp|
  {
    if tp != [] {
      var n := |tp| - 1;
      assert DropsNeutral(tp[..n], pp[..n]);
      MatchesAtMostCounted(tp[..n], pp[..n]);
      if IsNeutral(tp[n]) {
        NeutralNeverMatches(tp[n], pp[n]);
      }
    }
  }

  lemma {:induction false} MatchesAllCounted(tp: seq<seq<int>>, pp: seq<seq<int>>)
    requires DropsNeutral(tp, pp)
    requires forall k :: 0 <= k < |tp| && !IsNeutral(tp[k]) ==> ArgMax(tp[k]) == ArgMax(pp[k])
    ensures MatchCount(tp, pp) + NeutralCount(tp) == |tp|
  {
    if tp != [] {
      var n := |tp| - 1;
      assert DropsNeutral(tp[..n], pp[..n]);
      assert forall k :: 0 <= k < n ==> tp[..n][k] == tp[k] && pp[..n][k] == pp[k];
      MatchesAllCounted(tp[..n], pp[..n]);
      if IsNeutral(tp[n]) {
        NeutralNeverMatches(tp[n], pp[n]);
      }
    }
  }

  /** With the neutral channel dropped from the prediction, the accuracy
      lies in [0, 1]. */
  lemma GetAccInUnitInterval(target: Tensor4, output: Tensor4)
    requires Comparable(target, output) && DropsNeutral(Pixels(target), Pixels(output))
    ensures GetAcc(target, output).Success? ==>
      0.0 <= GetAcc(target, output).value <= 1.0
  {
    var tp, pp := Pixels(target), Pixels(output);
    MatchesAtMostCounted(tp, pp);
    var r := GetAcc(target, output);
    if r.Success? {
      RatioInUnitInterval(MatchCount(tp, pp), |tp| - NeutralCount(tp));
    }
  }

  /** A prediction whose argmax equals the true class at every non-neutral
      pixel scores exactly 1 (when there is a non-neutral pixel at all). */
  lemma GetAccPerfect(target: Tensor4, output: Tensor4)
    requires Comparable(target, output) && DropsNeutral(Pixels(target), Pixels(output))
    requires forall k :: 0 <= k < |Pixels(target)| && !IsNeutral(Pixels(target)[k]) ==>
      ArgMax(Pixels(target)[k]) == ArgMax(Pixels(output)[k])
    requires exists k :: 0 <= k < |Pixels(target)| && !IsNeutral(Pixels(target)[k])
    ensures GetAcc(target, output) == Success(1.0)
  {
    var tp := Pixels(target);
    MatchesAllCounted(tp, Pixels(output));
    AllNeutralCount(tp);
    RatioInUnitInterval(|tp| - NeutralCount(tp), |tp| - NeutralCount(tp));
  }

  /** Two identical maps without neutral pixels score exactly 1. */
  lemma {:induction false} GetAccIdentical(t: Tensor4)
    requires Comparable(t, t) && |Pixels(t)| > 0
    requires forall k :: 0 <= k < |Pixels(t)| ==> !IsNeutral(Pixels(t)[k])
    ensures GetAcc(t, t) == Success(1.0)
  {
    SelfMatches(Pixels(t));
    NoNeutral(Pixels(t));
    RatioInUnitInterval(|Pixels(t)|, |Pixels(t)|);
  }

  /** When the prediction keeps the neutral channel, neutral pixels can
      match too, while the denominator leaves them out: a map compared with
      itself that has both neutral and non-neutral pixels scores above 1. */
  lemma GetAccSelfAboveOne(t: Tensor4)
    requires Comparable(t, t)
    requires exists k :: 0 <= k < |Pixels(t)| && IsNeutral(Pixels(t)[k])
    requires exists k :: 0 <= k < |Pixels(t)| && !IsNeutral(Pixels(t)[k])
    ensures GetAcc(t, t).Success? && GetAcc(t, t).value > 1.0
  {
    var px := Pixels(t);
    SelfMatches(px);
    NeutralCountPositive(px);
    AllNeutralCount(px);
    RatioAboveOne(|px|, |px| - NeutralCount(px));
  }

  /** One batch of one row: a neutral pixel and a class-0 pixel, predicted
      exactly, give accuracy 2. */
  lemma GetAccNeutralExample()
    ensures GetAcc([[[[0, 1], [1, 0]]]], [[[[0, 1], [1, 0]]]]) == Success(2.0)
  {
  }

  lemma {:induction false} NeutralCountPositive(px: seq<seq<int>>)
    requires HasChannels(px) && exists k :: 0 <= k < |px| && IsNeutral(px[k])
    ensures NeutralCount(px) > 0
  {
    var n := |px| - 1;
    if !IsNeutral(px[n]) {
      var k :| 0 <= k < |px| && IsNeutral(px[k]);
      assert px[..n][k] == px[k];
      NeutralCountPositive(px[..n]);
    }
  }

  lemma RatioAboveOne(m: nat, d: nat)
    requires 0 < d < m
    ensures m as real / d as real > 1.0
  {
  }

  lemma RatioInUnitInterval(m: nat, d: nat)
    requires 0 < d && m <= d
    ensures 0.0 <= m as real / d as real <= 1.0
    ensures m == d ==> m as real / d as real == 1.0
  {
  }

  lemma {:induction false} SelfMatches(px: seq<seq<int>>)
    requires HasChannels(px)
    ensures MatchCount(px, px) == |px|
  {
    if px != [] {
      SelfMatches(px[..|px| - 1]);
    }
  }

  lemma {:induction false} NoNeutral(px: seq<seq<int>>)
    requires HasChannels(px) && forall k :: 0 <= k < |px| ==> !IsNeutral(px[k])
    ensures NeutralCount(px) == 0
  {
    if px != [] {
      var front := px[..|px| - 1];
      assert forall k :: 0 <= k < |front| ==> front[k] == px[k];
      NoNeutral(front);
    }
  }
}
