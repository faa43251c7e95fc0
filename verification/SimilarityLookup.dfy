/** cosmos_curate/models/transnetv2.py: the padded gather of a band of frame similarities. */
module SimilarityLookup {

  type Vector = seq<real>

  function Dot(a: Vector, b: Vector): real
    requires |a| == |b|
  {
    if a == [] then 0.0 else Dot(a[..|a| - 1], b[..|b| - 1]) + a[|a| - 1] * b[|b| - 1]
  }

  /** The product is fixed by these: products of single numbers, and parts add up. */
  lemma {:induction false} DotOfParts(a: Vector, b: Vector, c: Vector, d: Vector)
    requires |a| == |b| && |c| == |d|
    ensures Dot([], []) == 0.0
    ensures forall x, y :: Dot([x], [y]) == x * y
    ensures Dot(a + c, b + d) == Dot(a, b) + Dot(c, d)
  {
    forall x, y
      ensures Dot([x], [y]) == x * y
    {
      assert [x][..0] == [] && [y][..0] == [];
    }
    if c == [] {
      assert a + c == a && b + d == b;
    } else {
      var n := |c| - 1;
      DotOfParts(a, b, c[..n], d[..n]);
      assert (a + c)[..|a + c| - 1] == a + c[..n] && (b + d)[..|b + d| - 1] == b + d[..n];
    }
  }

  lemma {:induction false} DotIsSymmetric(a: Vector, b: Vector)
    requires |a| == |b|
    ensures Dot(a, b) == Dot(b, a)
  {
    if a != [] {
      DotIsSymmetric(a[..|a| - 1], b[..|b| - 1]);
    }
  }

  /** The features of one clip: one vector per frame, all of one length. */
  ghost predicate IsClip(x: seq<Vector>) {
    forall t, u :: 0 <= t < |x| && 0 <= u < |x| ==> |x[t]| == |x[u]|
  }

  /** torch.bmm(x, x.transpose(1, 2)) */
  function Similarities(x: seq<Vector>): (s: seq<seq<real>>)
    requires IsClip(x)
  {
    seq(|x|, t requires 0 <= t < |x| => seq(|x|, u requires 0 <= u < |x| => Dot(x[t], x[u])))
  }

  function Zeros(n: nat): seq<real> {
    seq(n, _ => 0.0)
  }

  /** functional.pad on both ends of a row. */
  function PadRow(row: seq<real>, half: nat): (padded: seq<real>)
    ensures |padded| == |row| + 2 * half
  {
    Zeros(half) + row + Zeros(half)
  }

  function Pad(rows: seq<seq<real>>, half: nat): seq<seq<real>> {
    seq(|rows|, t requires 0 <= t < |rows| => PadRow(rows[t], half))
  }

  /** similarities_padded[time_indices, lookup_indices]; every index lies within its padded row. */
  function Lookup(x: seq<Vector>, window: nat): seq<seq<real>>
    requires IsClip(x) && window % 2 == 1
  {
    var padded := Pad(Similarities(x), (window - 1) / 2);
    assert 2 * ((window - 1) / 2) == window - 1;
    seq(|x|, t requires 0 <= t < |x| => seq(window, w requires 0 <= w < window => padded[t][w + t]))
  }

  /** The whole batch. */
  function Forward(batch: seq<seq<Vector>>, window: nat): seq<seq<seq<real>>>
    requires window % 2 == 1 && forall b :: 0 <= b < |batch| ==> IsClip(batch[b])
  {
    seq(|batch|, b requires 0 <= b < |batch| => Lookup(batch[b], window))
  }

  /** Entry (t, w) is the similarity of frame t and the frame w - c away, or 0 outside the clip. */
  lemma LookupMeaning(batch: seq<seq<Vector>>, window: nat, b: nat, t: nat, w: nat)
    requires window % 2 == 1 && forall b :: 0 <= b < |batch| ==> IsClip(batch[b])
    requires b < |batch| && t < |batch[b]| && w < window
    ensures var u := t + w - (window - 1) / 2;
            Forward(batch, window)[b][t][w] == if 0 <= u < |batch[b]| then Dot(batch[b][t], batch[b][u]) else 0.0
  {
    var x, half := batch[b], (window - 1) / 2;
    var row := PadRow(Similarities(x)[t], half);
    assert Forward(batch, window)[b][t][w] == row[w + t];
  }

  /** Mirror symmetry: seen from the other frame the same similarity stands at the mirrored offset. */
  lemma LookupMirror(batch: seq<seq<Vector>>, window: nat, b: nat, t: nat, w: nat)
    requires window % 2 == 1 && forall b :: 0 <= b < |batch| ==> IsClip(batch[b])
    requires b < |batch| && t < |batch[b]| && w < window
    requires 0 <= t + w - (window - 1) / 2 < |batch[b]|
    ensures var u := t + w - (window - 1) / 2;
            Forward(batch, window)[b][t][w] == Forward(batch, window)[b][u][window - 1 - w]
  {
    hide Lookup;
    hide Forward;
    hide Dot;
    var u := t + w - (window - 1) / 2;
    LookupMeaning(batch, window, b, t, w);
    LookupMeaning(batch, window, b, u, window - 1 - w);
    DotIsSymmetric(batch[b][t], batch[b][u]);
  }
}
