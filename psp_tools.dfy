/** Label decoding of the PSPNet utilities: pick a class-to-colour table by
    class count, then colour every class id of a mask by the product of its
    one-hot row with the colour matrix, and reshape to 1 x H x W x 3. */
module PspTools {
  import opened Results
  import opened Colour
  import opened NdArray

  /** The 19-class urban-scene table (road, sidewalk, building, ... bicycle). */
  const LabelColours: seq<Rgb> := [
    Rgb(128, 64, 128), Rgb(244, 35, 231), Rgb(69, 69, 69),
    Rgb(102, 102, 156), Rgb(190, 153, 153), Rgb(153, 153, 153),
    Rgb(250, 170, 29), Rgb(219, 219, 0), Rgb(106, 142, 35),
    Rgb(152, 250, 152), Rgb(69, 129, 180), Rgb(219, 19, 60),
    Rgb(255, 0, 0), Rgb(0, 0, 142), Rgb(0, 0, 69),
    Rgb(0, 60, 100), Rgb(0, 79, 100), Rgb(0, 0, 230),
    Rgb(119, 10, 32)]

  /** The 6-class OpenStreetMap table: unlabelled, building, wood, water,
      road, residential. */
  const OsmLabelColours: seq<Rgb> := [
    Rgb(0, 0, 0), Rgb(213, 131, 7), Rgb(0, 153, 0),
    Rgb(0, 0, 204), Rgb(76, 0, 153), Rgb(255, 255, 102)]

  datatype DecodeError =
    | UnknownClassCount      // no table for this class count
    | ColourMatrixMismatch   // the table does not have one row per class
    | ReshapeMismatch        // the mask does not hold H * W class ids

  /** The built-in tables have one row per class and byte components. */
  lemma BuiltinTables()
    ensures |LabelColours| == 19 && |OsmLabelColours| == 6
    ensures forall c :: 0 <= c < 19 ==> IsByteColour(LabelColours[c])
    ensures forall c :: 0 <= c < 6 ==> IsByteColour(OsmLabelColours[c])
  {
  }

  /** The table for a class count. `colours150` stands for the rows of the
      external colour file that the 150-class branch loads. */
  function SelectTable(numClasses: int, colours150: seq<Rgb>): (r: Result<seq<Rgb>, DecodeError>)
    ensures r.Failure? <==> numClasses != 150 && numClasses != 19 && numClasses != 6
    ensures r.Failure? ==> r.error == UnknownClassCount
    ensures numClasses == 150 ==> r == Success(colours150)
    ensures numClasses == 19 ==> r == Success(LabelColours)
    ensures numClasses == 6 ==> r == Success(OsmLabelColours)
    ensures r.Success? && numClasses != 150 ==> |r.value| == numClasses
  {
    if numClasses == 150 then Success(colours150)
    else if numClasses == 19 then Success(LabelColours)
    else if numClasses == 6 then Success(OsmLabelColours)
    else Failure(UnknownClassCount)
  }

  /** The product of a row vector with a matrix whose rows are colours. */
  function RowTimesMatrix(row: seq<int>, mat: seq<Rgb>): Rgb
    requires |row| == |mat|
  {
    if row == [] then Black
    else Plus(RowTimesMatrix(row[..|row| - 1], mat[..|mat| - 1]), Scale(row[|row| - 1], mat[|mat| - 1]))
  }

  /** A one-hot row times the colour matrix is the table row at the hot
      index; a class id out of range gives an all-zero row, hence black. */
  lemma {:induction false} OneHotRowSelects(id: int, table: seq<Rgb>)
    ensures RowTimesMatrix(OneHotVector(id, |table|), table) ==
      if 0 <= id < |table| then table[id] else Black
  {
    var n := |table|;
    if n > 0 {
      assert OneHotVector(id, n)[..n - 1] == OneHotVector(id, n - 1);
      OneHotRowSelects(id, table[..n - 1]);
    }
  }

  /** The colour one class id decodes to: its one-hot row of depth |table|
      times the colour matrix. */
  function DecodeId(id: int, table: seq<Rgb>): Rgb {
    RowTimesMatrix(OneHotVector(id, |table|), table)
  }

  /** decode_labels: the colour image, with its leading axis of length one.
      A 150-class table of the wrong length fails the matrix product, and a
      mask that does not hold H * W ids fails the final reshape. */
  function DecodeLabels(mask: seq<seq<int>>, imgShape: (nat, nat), numClasses: int, colours150: seq<Rgb>)
    : (r: Result<seq<seq<seq<Rgb>>>, DecodeError>)
    ensures SelectTable(numClasses, colours150).Failure? ==> r == Failure(UnknownClassCount)
    ensures numClasses == 150 && |colours150| != 150 ==> r == Failure(ColourMatrixMismatch)
    ensures SelectTable(numClasses, colours150).Success? && |SelectTable(numClasses, colours150).value| == numClasses ==>
      (r.Success? <==> |Flatten(mask)| == imgShape.0 * imgShape.1)
    ensures r.Success? ==> |r.value| == 1 && IsGrid(r.value[0], imgShape.0, imgShape.1)
  {
    match SelectTable(numClasses, colours150)
    case Failure(e) => Failure(e)
    case Success(table) =>
      if |table| != numClasses then Failure(ColourMatrixMismatch)
      else
        var colours := DecodeIds(Flatten(mask), table);
        if |colours| != imgShape.0 * imgShape.1 then Failure(ReshapeMismatch)
        else Success([Reshape(colours, imgShape.0, imgShape.1)])
  }

  /** One-hot of the flattened mask times the colour matrix, row by row. */
  function DecodeIds(ids: seq<int>, table: seq<Rgb>): (r: seq<Rgb>)
    ensures |r| == |ids|
  {
    seq(|ids|, k requires 0 <= k < |ids| => DecodeId(ids[k], table))
  }

  /** The class counts that have a table of the right length. */
  predicate HasTable(numClasses: int, colours150: seq<Rgb>) {
    numClasses == 6 || numClasses == 19 || (numClasses == 150 && |colours150| == 150)
  }

  /** The colour a class id stands for: its table row, or black when the id
      is out of range. */
  function Lookup(id: int, table: seq<Rgb>): Rgb {
    if 0 <= id < |table| then table[id] else Black
  }

  /** Indexing the table with every id of a flat sequence. */
  function LookupIds(ids: seq<int>, table: seq<Rgb>): seq<Rgb> {
    seq(|ids|, k requires 0 <= k < |ids| => Lookup(ids[k], table))
  }

  /** The one-hot product agrees with plain table indexing on every id. */
  lemma DecodeIdsLookup(ids: seq<int>, table: seq<Rgb>)
    ensures DecodeIds(ids, table) == LookupIds(ids, table)
  {
    forall k | 0 <= k < |ids|
      ensures DecodeIds(ids, table)[k] == LookupIds(ids, table)[k]
    {
      OneHotRowSelects(ids[k], table);
    }
  }

  /** For every mask holding H * W ids, whatever its own shape, decoding
      succeeds, and the image is the row-major reshape of the table rows of
      the flattened ids (black for ids outside [0, numClasses)). */
  lemma DecodeLabelsFlatLookup(mask: seq<seq<int>>, h: nat, w: nat, numClasses: int, colours150: seq<Rgb>)
    requires |Flatten(mask)| == h * w && HasTable(numClasses, colours150)
    ensures var r := DecodeLabels(mask, (h, w), numClasses, colours150);
      var table := SelectTable(numClasses, colours150).value;
      && r.Success? && |table| == numClasses
      && |LookupIds(Flatten(mask), table)| == h * w
      && r.value == [Reshape(LookupIds(Flatten(mask), table), h, w)]
  {
    DecodeLabelsImage(mask, h, w, numClasses, colours150);
    DecodeIdsLookup(Flatten(mask), SelectTable(numClasses, colours150).value);
  }

  /** With a table of the right length and H * W ids, the result is the
      reshaped product of the one-hot ids with the colour matrix. */
  lemma DecodeLabelsImage(mask: seq<seq<int>>, h: nat, w: nat, numClasses: int, colours150: seq<Rgb>)
    requires |Flatten(mask)| == h * w && HasTable(numClasses, colours150)
    ensures SelectTable(numClasses, colours150).Success?
    ensures var table := SelectTable(numClasses, colours150).value;
      && |table| == numClasses
      && DecodeLabels(mask, (h, w), numClasses, colours150) ==
           Success([Reshape(DecodeIds(Flatten(mask), table), h, w)])
  {
  }

  /** After flatten, one-hot, product and reshape, pixel (i, j) is the table
      row of the id at offset i * w + j of the flattened mask, or black. */
  lemma DecodeAt(mask: seq<seq<int>>, h: nat, w: nat, table: seq<Rgb>, i: nat, j: nat)
    requires |Flatten(mask)| == h * w && i < h && j < w
    ensures i * w + j < |Flatten(mask)|
    ensures Reshape(DecodeIds(Flatten(mask), table), h, w)[i][j] ==
      var id := Flatten(mask)[i * w + j];
      if 0 <= id < |table| then table[id] else Black
  {
    ReshapeIndex(DecodeIds(Flatten(mask), table), h, w, i, j);
    OneHotRowSelects(Flatten(mask)[i * w + j], table);
  }

  /** For an H x W mask every output pixel is the table row of its class id,
      or black when the id is outside [0, numClasses). */
  lemma DecodeLabelsLookup(mask: seq<seq<int>>, h: nat, w: nat, numClasses: int, colours150: seq<Rgb>)
    requires IsGrid(mask, h, w) && HasTable(numClasses, colours150)
    ensures var r := DecodeLabels(mask, (h, w), numClasses, colours150);
      var table := SelectTable(numClasses, colours150).value;
      && r.Success? && |table| == numClasses
      && forall i, j :: 0 <= i < h && 0 <= j < w ==>
           r.value[0][i][j] == if 0 <= mask[i][j] < numClasses then table[mask[i][j]] else Black
  {
    FlattenLength(mask, h, w);
    DecodeLabelsImage(mask, h, w, numClasses, colours150);
    var table := SelectTable(numClasses, colours150).value;
    var img := Reshape(DecodeIds(Flatten(mask), table), h, w);
    forall i, j | 0 <= i < h && 0 <= j < w
      ensures img[i][j] == if 0 <= mask[i][j] < numClasses then table[mask[i][j]] else Black
    {
      DecodeAt(mask, h, w, table, i, j);
      FlattenIndex(mask, h, w, i, j);
    }
  }

  /** Decoding is per pixel: changing one mask entry changes only the
      output pixel at the same position. */
  lemma DecodeLabelsLocal(mask: seq<seq<int>>, h: nat, w: nat, numClasses: int, colours150: seq<Rgb>,
                          i0: nat, j0: nat, id: int)
    requires IsGrid(mask, h, w) && HasTable(numClasses, colours150) && i0 < h && j0 < w
    ensures var mask' := mask[i0 := mask[i0][j0 := id]];
      var r := DecodeLabels(mask, (h, w), numClasses, colours150);
      var r' := DecodeLabels(mask', (h, w), numClasses, colours150);
      && r.Success? && r'.Success?
      && forall i, j :: 0 <= i < h && 0 <= j < w && (i, j) != (i0, j0) ==>
           r'.value[0][i][j] == r.value[0][i][j]
  {
    var mask' := mask[i0 := mask[i0][j0 := id]];
    DecodeLabelsLookup(mask, h, w, numClasses, colours150);
    DecodeLabelsLookup(mask', h, w, numClasses, colours150);
  }

  /** With the 6-class table, mask [[0, 1], [2, 5]] decodes to black,
      building orange, wood green and residential yellow. */
  lemma OsmDecodeExample(colours150: seq<Rgb>)
    ensures DecodeLabels([[0, 1], [2, 5]], (2, 2), 6, colours150) ==
      Success([[[Rgb(0, 0, 0), Rgb(213, 131, 7)], [Rgb(0, 153, 0), Rgb(255, 255, 102)]]])
  {
    var mask := [[0, 1], [2, 5]];
    DecodeLabelsLookup(mask, 2, 2, 6, colours150);
    var r := DecodeLabels(mask, (2, 2), 6, colours150);
    var img := r.value[0];
    assert img[0][0] == Rgb(0, 0, 0) && img[0][1] == Rgb(213, 131, 7);
    assert img[1][0] == Rgb(0, 153, 0) && img[1][1] == Rgb(255, 255, 102);
    assert IsGrid(img, 2, 2);
    assert img[0] == [Rgb(0, 0, 0), Rgb(213, 131, 7)];
    assert img[1] == [Rgb(0, 153, 0), Rgb(255, 255, 102)];
    assert img == [[Rgb(0, 0, 0), Rgb(213, 131, 7)], [Rgb(0, 153, 0), Rgb(255, 255, 102)]];
    assert r.value == [img];
  }
}
