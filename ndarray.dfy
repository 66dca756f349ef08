/** The array primitives the scripts take from their numerical libraries,
    on nested sequences: grid shapes, row-major flattening and reshaping,
    argmax with the first-maximum rule, one-hot vectors and sums. */
module NdArray {

  /** `s` is a grid of `h` rows of `w` entries each. */
  predicate IsGrid<T>(s: seq<seq<T>>, h: nat, w: nat) {
    |s| == h && forall i :: 0 <= i < h ==> |s[i]| == w
  }

  /** `s` is an `h` by `w` grid of vectors of `c` channels each. */
  predicate IsGrid3<T>(s: seq<seq<seq<T>>>, h: nat, w: nat, c: nat) {
    IsGrid(s, h, w) && forall i, j :: 0 <= i < h && 0 <= j < w ==> |s[i][j]| == c
  }

  /** The length of the first row, 0 for no rows. */
  function Width<T>(s: seq<seq<T>>): nat {
    if |s| == 0 then 0 else |s[0]|
  }

  /** `s` has the shape of a 2-D array: every row as long as the first. */
  predicate IsRect<T>(s: seq<seq<T>>) {
    IsGrid(s, |s|, Width(s))
  }

  // ---------------------------------------------------------------------
  // Row-major flattening and reshaping
  // ---------------------------------------------------------------------

  /** The rows of `s` one after another (C order). */
  function Flatten<T>(s: seq<seq<T>>): seq<T> {
    if s == [] then [] else s[0] + Flatten(s[1..])
  }

  lemma {:induction false} FlattenLength<T>(s: seq<seq<T>>, h: nat, w: nat)
    requires IsGrid(s, h, w)
    ensures |Flatten(s)| == h * w
  {
    if s != [] {
      FlattenLength(s[1..], h - 1, w);
      assert h * w == w + (h - 1) * w;
    }
  }

  /** Entry (i, j) of a grid sits at offset i * w + j of its flattening. */
  lemma {:induction false} FlattenIndex<T>(s: seq<seq<T>>, h: nat, w: nat, i: nat, j: nat)
    requires IsGrid(s, h, w) && i < h && j < w
    ensures i * w + j < |Flatten(s)| && Flatten(s)[i * w + j] == s[i][j]
  {
    FlattenLength(s, h, w);
    RowMajorBound(i, j, h, w);
    if i > 0 {
      FlattenIndex(s[1..], h - 1, w, i - 1, j);
      assert i * w + j == w + ((i - 1) * w + j);
    }
  }

  /** Flattening distributes over concatenation. */
  lemma {:induction false} FlattenConcat<T>(s: seq<seq<T>>, u: seq<seq<T>>)
    ensures Flatten(s + u) == Flatten(s) + Flatten(u)
  {
    if s != [] {
      calc {
        Flatten(s + u);
        (s + u)[0] + Flatten((s + u)[1..]);
        { assert (s + u)[0] == s[0]; assert (s + u)[1..] == s[1..] + u; }
        s[0] + Flatten(s[1..] + u);
        { FlattenConcat(s[1..], u); }
        s[0] + (Flatten(s[1..]) + Flatten(u));
        Flatten(s) + Flatten(u);
      }
    } else {
      assert s + u == u;
    }
  }

  /** Two sequences of rows with equal row lengths flatten to equal lengths. */
  lemma {:induction false} FlattenSameLayout<A, B>(s: seq<seq<A>>, t: seq<seq<B>>)
    requires |s| == |t| && forall n :: 0 <= n < |s| ==> |s[n]| == |t[n]|
    ensures |Flatten(s)| == |Flatten(t)|
  {
    if s != [] {
      FlattenSameLayout(s[1..], t[1..]);
    }
  }

  /** One level deeper: equal layouts flatten to sequences whose entries
      again have equal lengths, position by position. */
  lemma {:induction false} Flatten3SameLayout<A, B>(s: seq<seq<seq<A>>>, t: seq<seq<seq<B>>>)
    requires |s| == |t|
    requires forall n :: 0 <= n < |s| ==> |s[n]| == |t[n]|
    requires forall n, i :: 0 <= n < |s| && 0 <= i < |s[n]| ==> |s[n][i]| == |t[n][i]|
    ensures |Flatten(s)| == |Flatten(t)|
    ensures forall k :: 0 <= k < |Flatten(s)| ==> |Flatten(s)[k]| == |Flatten(t)[k]|
  {
    FlattenSameLayout(s, t);
    if s != [] {
      Flatten3SameLayout(s[1..], t[1..]);
      forall k | 0 <= k < |Flatten(s)|
        ensures |Flatten(s)[k]| == |Flatten(t)[k]|
      {
        if k >= |s[0]| {
          assert Flatten(s)[k] == Flatten(s[1..])[k - |s[0]|];
          assert Flatten(t)[k] == Flatten(t[1..])[k - |t[0]|];
        }
      }
    }
  }

  lemma RowMajorBound(i: nat, j: nat, h: nat, w: nat)
    requires i < h && j < w
    ensures i * w + j < h * w
  {
    assert (i + 1) * w <= h * w;
  }

  /** Row-major reshape of a flat sequence into `h` rows of `w` entries. */
  function Reshape<T>(flat: seq<T>, h: nat, w: nat): (r: seq<seq<T>>)
    requires |flat| == h * w
    ensures IsGrid(r, h, w)
  {
    seq(h, i requires 0 <= i < h =>
      seq(w, j requires 0 <= j < w => RowMajorBound(i, j, h, w); flat[i * w + j]))
  }

  /** Entry (i, j) of the reshaped grid is entry i * w + j of the flat sequence. */
  lemma ReshapeIndex<T>(flat: seq<T>, h: nat, w: nat, i: nat, j: nat)
    requires |flat| == h * w && i < h && j < w
    ensures i * w + j < |flat| && Reshape(flat, h, w)[i][j] == flat[i * w + j]
  {
    RowMajorBound(i, j, h, w);
  }

  /** Reshaping a flattened grid to its own shape gives the grid back. */
  lemma ReshapeFlatten<T>(s: seq<seq<T>>, h: nat, w: nat)
    requires IsGrid(s, h, w)
    ensures |Flatten(s)| == h * w && Reshape(Flatten(s), h, w) == s
  {
    FlattenLength(s, h, w);
    var r := Reshape(Flatten(s), h, w);
    forall i | 0 <= i < h
      ensures r[i] == s[i]
    {
      forall j | 0 <= j < w
        ensures r[i][j] == s[i][j]
      {
        FlattenIndex(s, h, w, i, j);
        ReshapeIndex(Flatten(s), h, w, i, j);
      }
    }
  }

  // ---------------------------------------------------------------------
  // argmax, one-hot vectors, sums
  // ---------------------------------------------------------------------

  /** The index of the largest entry; among equal maxima, the first one
      (the rule of numpy's and TensorFlow's argmax). */
  function ArgMax(v: seq<int>): (r: nat)
    requires |v| > 0
    ensures r < |v|
    ensures forall j :: 0 <= j < |v| ==> v[j] <= v[r]
    ensures forall j :: 0 <= j < r ==> v[j] < v[r]
  {
    if |v| == 1 then 0
    else
      var k := ArgMax(v[..|v| - 1]);
      if v[|v| - 1] > v[k] then |v| - 1 else k
  }

  /** The three properties of ArgMax single out exactly one index. */
  lemma ArgMaxUnique(v: seq<int>, k: nat)
    requires k < |v|
    requires forall j :: 0 <= j < |v| ==> v[j] <= v[k]
    requires forall j :: 0 <= j < k ==> v[j] < v[k]
    ensures ArgMax(v) == k
  {
  }

  /** The vector of `depth` channels in which channel `c` is 1 exactly when
      `c == id`, and 0 otherwise. */
  function OneHotVector(id: int, depth: nat): seq<int> {
    seq(depth, c => if c == id then 1 else 0)
  }

  /** The sum of the entries. */
  function Sum(v: seq<int>): int {
    if v == [] then 0 else Sum(v[..|v| - 1]) + v[|v| - 1]
  }

  /** Every entry is 0 or 1, and at most one entry is 1. */
  predicate IsOneHotLike(v: seq<int>) {
    && (forall c :: 0 <= c < |v| ==> v[c] == 0 || v[c] == 1)
    && (forall c, d :: 0 <= c < |v| && 0 <= d < |v| && v[c] == 1 && v[d] == 1 ==> c == d)
  }

  lemma {:induction false} OneHotSum(id: int, depth: nat)
    ensures Sum(OneHotVector(id, depth)) == if 0 <= id < depth then 1 else 0
  {
    if depth > 0 {
      assert OneHotVector(id, depth)[..depth - 1] == OneHotVector(id, depth - 1);
      OneHotSum(id, depth - 1);
    }
  }

  /** A class id in [0, depth) sets exactly one channel and argmax gives the
      id back; any other id sets no channel at all. */
  lemma OneHotRoundTrip(id: int, depth: nat)
    ensures |OneHotVector(id, depth)| == depth
    ensures IsOneHotLike(OneHotVector(id, depth))
    ensures 0 <= id < depth ==>
      Sum(OneHotVector(id, depth)) == 1 && ArgMax(OneHotVector(id, depth)) == id
    ensures !(0 <= id < depth) ==>
      Sum(OneHotVector(id, depth)) == 0 &&
      forall c :: 0 <= c < depth ==> OneHotVector(id, depth)[c] == 0
  {
    OneHotSum(id, depth);
    if 0 <= id < depth {
      ArgMaxUnique(OneHotVector(id, depth), id);
    }
  }
}
