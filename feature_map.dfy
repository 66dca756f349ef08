/** Colouring of a prediction for display (pred2featuremap): argmax over
    the channels, cast to an unsigned byte, then one masked assignment per
    entry of the class-to-colour table on a zero-initialised image. */
module FeatureMap {
  import opened NdArray
  import opened Colour
  import BatchGeneration

  /** The table of the U-Net script: classless black, building orange,
      wood green, water blue, road purple, residential area yellow. */
  const Cls2Col: map<int, Rgb> := map[
    0 := Rgb(0, 0, 0),
    1 := Rgb(205, 141, 30),
    2 := Rgb(0, 200, 0),
    3 := Rgb(0, 0, 200),
    4 := Rgb(115, 48, 215),
    5 := Rgb(255, 255, 0)]

  /** The class the picture shows for one pixel's scores: argmax, reduced
      modulo 256 by the cast to an unsigned byte. */
  function PixelClass(scores: seq<int>): (k: int)
    requires |scores| > 0
    ensures 0 <= k < 256
    ensures |scores| <= 256 ==> k == ArgMax(scores)
  {
    ArgMax(scores) % 256
  }

  /** The colour of a class: its table entry, or black when the class has
      no entry (the zero initialisation is never overwritten). */
  function ClassColour(k: int): Rgb {
    if k in Cls2Col then Cls2Col[k] else Black
  }

  /** Argmax then colour, for every pixel of an H x W x C score map. */
  method Pred2FeatureMap(imgPred: seq<seq<seq<int>>>) returns (result: seq<seq<Rgb>>)
    requires IsRect(imgPred)
    requires forall i, j :: 0 <= i < |imgPred| && 0 <= j < |imgPred[i]| ==> |imgPred[i][j]| > 0
    ensures IsGrid(result, |imgPred|, Width(imgPred))
    ensures forall i, j :: 0 <= i < |imgPred| && 0 <= j < Width(imgPred) ==>
      result[i][j] == ClassColour(PixelClass(imgPred[i][j]))
  {
    var h, w := |imgPred|, Width(imgPred);
    var cls := seq(h, i requires 0 <= i < h =>
                 seq(w, j requires 0 <= j < w => PixelClass(imgPred[i][j])));
    var res := new Rgb[h, w]((i, j) => Black);
    var remaining := Cls2Col.Keys;
    while remaining != {}
      invariant remaining <= Cls2Col.Keys
      invariant forall i, j :: 0 <= i < h && 0 <= j < w ==>
        res[i, j] == if cls[i][j] in Cls2Col.Keys - remaining then Cls2Col[cls[i][j]] else Black
      decreases remaining
    {
      var k :| k in remaining;
      var v := Cls2Col[k];
      forall i, j | 0 <= i < h && 0 <= j < w && cls[i][j] == k {
        res[i, j] := v;
      }
      remaining := remaining - {k};
    }
    result := seq(h, i requires 0 <= i < h reads res =>
                seq(w, j requires 0 <= j < w reads res => res[i, j]));
  }

  /** Painting a ground-truth one-hot map: a named class shows its table
      colour, and the neutral class, which has no entry, shows black. */
  lemma EncodedClassColour(id: int, depth: nat)
    requires 0 <= id < depth <= 256
    ensures ClassColour(PixelClass(OneHotVector(id, depth))) == ClassColour(id)
  {
    OneHotRoundTrip(id, depth);
  }

  /** With six named classes plus the neutral one, a neutral ground-truth
      pixel is shown black. */
  lemma NeutralShownBlack()
    ensures ClassColour(PixelClass(OneHotVector(BatchGeneration.NCls, BatchGeneration.NCls + 1))) == Black
  {
    EncodedClassColour(BatchGeneration.NCls, BatchGeneration.NCls + 1);
  }
}
