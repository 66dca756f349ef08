/** The batch generator of the U-Net script: samples drawn one at a time
    from an external loader, ground truth one-hot encoded with a neutral
    channel, and stacked into fixed-size batches. */
module BatchGeneration {
  import opened Results
  import opened NdArray

  /** The script's number of named classes (the neutral class is NCls). */
  const NCls: nat := 6
  /** The script's nominal number of images in one epoch. */
  const NumImages: nat := 200

  /** H x W x 3 intensities. */
  type Image = seq<seq<seq<int>>>
  /** H x W class ids; the value n_cls is the neutral class. */
  type LabelMap = seq<seq<int>>
  /** H x W x depth one-hot tensor. */
  type OneHotMap = seq<seq<seq<int>>>

  datatype Sample = Sample(image: Image, labels: LabelMap)

  /** The two stacked tensors of one batch, slot by slot. */
  datatype Batch = Batch(images: seq<Image>, labels: seq<OneHotMap>)

  datatype BatchError =
    | SourceExhausted      // the loader had no sample to give
    | SlotShapeMismatch    // a sample does not fit its batch slot

  /** The external provider of (image, label map) pairs: it hands out the
      samples it holds, in order, and fails once it has none. */
  class SampleProvider {
    var pending: seq<Sample>

    constructor (samples: seq<Sample>)
      ensures pending == samples
    {
      pending := samples;
    }

    method GetSample() returns (r: Result<Sample, BatchError>)
      modifies this
      ensures old(pending) == [] ==> r == Failure(SourceExhausted) && pending == []
      ensures old(pending) != [] ==> r == Success(old(pending)[0]) && pending == old(pending)[1..]
    {
      if pending == [] {
        r := Failure(SourceExhausted);
      } else {
        r := Success(pending[0]);
        pending := pending[1..];
      }
    }
  }

  /** A sample fits a batch slot of an image of side `size`. */
  predicate FitsSlot(s: Sample, size: nat) {
    IsGrid3(s.image, size, size, 3) && IsGrid(s.labels, size, size)
  }

  /** The first slot of a batch of `batchSize` that cannot be filled from
      `pending`, or `batchSize` when every slot can. */
  function FirstUnfilled(pending: seq<Sample>, batchSize: nat, size: nat): (k: nat)
    ensures k <= batchSize && k <= |pending|
    ensures forall i :: 0 <= i < k ==> FitsSlot(pending[i], size)
    ensures k < batchSize ==> k == |pending| || !FitsSlot(pending[k], size)
  {
    FirstUnfilledFrom(pending, batchSize, size, 0)
  }

  /** FirstUnfilled, searching from slot `from` on. */
  function FirstUnfilledFrom(pending: seq<Sample>, batchSize: nat, size: nat, from: nat): (k: nat)
    requires from <= batchSize && from <= |pending|
    ensures from <= k <= batchSize && k <= |pending|
    ensures forall i :: from <= i < k ==> FitsSlot(pending[i], size)
    ensures k < batchSize ==> k == |pending| || !FitsSlot(pending[k], size)
    decreases batchSize - from
  {
    if from == batchSize || from == |pending| || !FitsSlot(pending[from], size) then from
    else FirstUnfilledFrom(pending, batchSize, size, from + 1)
  }

  /** The slot FirstUnfilled names is the first slot with no fitting sample. */
  lemma FirstUnfilledAt(pending: seq<Sample>, batchSize: nat, size: nat, slot: nat)
    requires slot <= batchSize && slot <= |pending|
    requires forall j :: 0 <= j < slot ==> FitsSlot(pending[j], size)
    requires slot < batchSize ==> slot == |pending| || !FitsSlot(pending[slot], size)
    ensures FirstUnfilled(pending, batchSize, size) == slot
  {
  }

  /** What one pass of the batch loop does to the loader's samples: the
      batch (or the error that stops it) and the samples left over. */
  function DrawBatch(pending: seq<Sample>, batchSize: nat, size: nat, nCls: nat)
    : (Result<Batch, BatchError>, seq<Sample>)
  {
    var k := FirstUnfilled(pending, batchSize, size);
    if k == batchSize then
      (Success(Batch(seq(batchSize, i requires 0 <= i < batchSize => pending[i].image),
                     seq(batchSize, i requires 0 <= i < batchSize =>
                           BatchGenerator.ToOneHot(pending[i].labels, nCls + 1)))),
       pending[batchSize..])
    else if k == |pending| then (Failure(SourceExhausted), [])
    else (Failure(SlotShapeMismatch), pending[k + 1..])
  }

  /** A batch is produced exactly when the loader holds `batchSize` samples
      that fit; then it has `batchSize` slots, slot i holds the i-th sample
      drawn with its labels encoded on n_cls + 1 channels, and those samples
      are consumed. */
  lemma DrawBatchSlots(pending: seq<Sample>, batchSize: nat, size: nat, nCls: nat)
    ensures var (r, rest) := DrawBatch(pending, batchSize, size, nCls);
      r.Success? <==> batchSize <= |pending| && forall i :: 0 <= i < batchSize ==> FitsSlot(pending[i], size)
    ensures var (r, rest) := DrawBatch(pending, batchSize, size, nCls);
      r.Success? ==>
        && |r.value.images| == batchSize && |r.value.labels| == batchSize
        && rest == pending[batchSize..]
        && forall i :: 0 <= i < batchSize ==>
             && r.value.images[i] == pending[i].image
             && IsGrid3(r.value.images[i], size, size, 3)
             && IsGrid3(r.value.labels[i], size, size, nCls + 1)
             && forall y, x, c :: 0 <= y < size && 0 <= x < size && 0 <= c <= nCls ==>
                  r.value.labels[i][y][x][c] == if pending[i].labels[y][x] == c then 1 else 0
  {
  }

  /** A failed draw consumes the samples up to and including the one that
      did not fit, or all of them when the loader ran dry. */
  lemma DrawBatchFailure(pending: seq<Sample>, batchSize: nat, size: nat, nCls: nat)
    ensures var (r, rest) := DrawBatch(pending, batchSize, size, nCls);
      var k := FirstUnfilled(pending, batchSize, size);
      r.Failure? ==>
        && k < batchSize
        && (r.error == SourceExhausted <==> k == |pending|)
        && rest == if k == |pending| then [] else pending[k + 1..]
  {
  }

  class BatchGenerator {
    var lines: seq<string>
    var i: int
    var size: nat
    var nCls: nat
    var batchSize: nat
    /** How many times the reshuffle branch has run. */
    ghost var shuffles: nat

    /** The one-hot encoding of a class map with `n` channels: channel c of
        pixel (i, j) is 1 exactly when the pixel's class is c. A class
        outside [0, n) sets no channel. */
    static function ToOneHot(img: LabelMap, n: nat): (r: OneHotMap)
      ensures |r| == |img|
      ensures forall y :: 0 <= y < |img| ==> |r[y]| == |img[y]|
      ensures forall y, x :: 0 <= y < |img| && 0 <= x < |img[y]| ==>
        |r[y][x]| == n && IsOneHotLike(r[y][x])
      ensures forall y, x, c :: 0 <= y < |img| && 0 <= x < |img[y]| && 0 <= c < n ==>
        r[y][x][c] == if img[y][x] == c then 1 else 0
    {
      seq(|img|, y requires 0 <= y < |img| =>
        seq(|img[y]|, x requires 0 <= x < |img[y]| => OneHotVector(img[y][x], n)))
    }

    /** The list of sample files stays empty (the code that read it is
        disabled) and the cursor is never advanced from 0. */
    ghost predicate Valid()
      reads this
    {
      lines == [] && i == 0
    }

    /** The file path is not read: the code that read it is disabled. */
    constructor (txtFilepath: string, size: nat, nCls: nat, batchSize: nat)
      ensures Valid() && shuffles == 0
      ensures this.size == size && this.nCls == nCls && this.batchSize == batchSize
    {
      lines := [];
      this.size := size;
      this.nCls := nCls;
      this.batchSize := batchSize;
      i := 0;
      shuffles := 0;
    }

    /** The nominal epoch size: the script's global, whatever the generator
        was built with. */
    function GetSize(): (r: nat)
      ensures r == NumImages
    {
      NumImages
    }

    /** Reshuffle (on every call, as the cursor stays 0), draw one sample,
        and encode its labels with n_cls + 1 channels. */
    method GetSample(src: SampleProvider) returns (r: Result<(Image, OneHotMap), BatchError>)
      requires Valid()
      modifies this`lines, this`shuffles, src
      ensures Valid() && shuffles == old(shuffles) + 1
      ensures old(src.pending) == [] ==> r == Failure(SourceExhausted) && src.pending == []
      ensures old(src.pending) != [] ==>
        && r == Success((old(src.pending)[0].image, ToOneHot(old(src.pending)[0].labels, nCls + 1)))
        && src.pending == old(src.pending)[1..]
    {
      if i == 0 {
        var shuffled :| multiset(shuffled) == multiset(lines);
        lines := shuffled;
        shuffles := shuffles + 1;
      }
      var s := src.GetSample();
      if s.Failure? {
        r := Failure(s.error);
      } else {
        r := Success((s.value.image, ToOneHot(s.value.labels, nCls + 1)));
      }
    }

    /** One pass of get_batch's loop: allocate the two batch buffers and fill
        slot i with the i-th sample drawn. A loader failure or a sample that
        does not fit its slot ends the pass with an error. */
    method NextBatch(src: SampleProvider) returns (r: Result<Batch, BatchError>)
      requires Valid()
      modifies this`lines, this`shuffles, src
      ensures Valid()
      ensures (r, src.pending) == DrawBatch(old(src.pending), batchSize, size, nCls)
    {
      ghost var drawn := src.pending;
      var side, depth := size, nCls + 1;
      var origBatch := new Image[batchSize](_ => Zeros(side, side, 3));
      var gtBatch := new OneHotMap[batchSize](_ => Zeros(side, side, depth));
      for slot := 0 to batchSize
        invariant Valid()
        invariant slot <= |drawn| && src.pending == drawn[slot..]
        invariant forall j :: 0 <= j < slot ==> FitsSlot(drawn[j], size)
        invariant forall j :: 0 <= j < slot ==>
          origBatch[j] == drawn[j].image && gtBatch[j] == ToOneHot(drawn[j].labels, nCls + 1)
      {
        var s := GetSample(src);
        if s.Failure? {
          FirstUnfilledAt(drawn, batchSize, size, slot);
          return Failure(s.error);
        }
        var (orig, gt) := s.value;
        if !IsGrid3(orig, side, side, 3) || !IsGrid3(gt, side, side, depth) {
          FirstUnfilledAt(drawn, batchSize, size, slot);
          return Failure(SlotShapeMismatch);
        }
        origBatch[slot] := orig;
        gtBatch[slot] := gt;
      }
      FirstUnfilledAt(drawn, batchSize, size, batchSize);
      var n := batchSize;
      assert origBatch[..] == seq(n, i requires 0 <= i < n => drawn[i].image);
      assert gtBatch[..] == seq(n, i requires 0 <= i < n => ToOneHot(drawn[i].labels, depth));
      r := Success(Batch(origBatch[..], gtBatch[..]));
    }
  }

  /** An h x w x c tensor of zeros. */
  function Zeros(h: nat, w: nat, c: nat): (z: seq<seq<seq<int>>>)
    ensures IsGrid3(z, h, w, c)
  {
    seq(h, _ => seq(w, _ => seq(c, _ => 0)))
  }
}
