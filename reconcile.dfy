/**
 * Length reconciliation of a computed feature vector (app.py:194-197).
 * The extractor may return any number `n` of values; the handler forces the
 * vector to the reference width `L = X.shape[1]` by right-padding with zeros
 * when `n < L` (`np.pad(feats, (0, L - n))`) and by slicing `feats[:L]`
 * otherwise.
 */
module FeatureReconcile {

  /** `k` zeros: the constant fill of `np.pad`. */
  function Zeros(k: nat): (z: seq<real>)
    ensures |z| == k
    ensures forall i :: 0 <= i < k ==> z[i] == 0.0
  {
    seq(k, _ => 0.0)
  }

  /** `np.pad(v, (0, k))`: nothing before, `k` zeros after. */
  function PadRight(v: seq<real>, k: nat): (r: seq<real>)
    ensures |r| == |v| + k
    ensures r[..|v|] == v
    ensures forall i :: |v| <= i < |r| ==> r[i] == 0.0
  {
    v + Zeros(k)
  }

  /** Python's slice `v[:L]`: the first `L` values, or all of `v` when it is shorter. */
  function SliceTo(v: seq<real>, L: nat): (r: seq<real>)
    ensures |r| == if L <= |v| then L else |v|
    ensures forall i :: 0 <= i < |r| ==> r[i] == v[i]
  {
    if L <= |v| then v[..L] else v
  }

  /** The handler's reconciliation of a computed vector `v` to width `L`. */
  function Reconcile(v: seq<real>, L: nat): (r: seq<real>)
    ensures |r| == L
    ensures |v| < L ==> r[..|v|] == v && r[|v|..] == Zeros(L - |v|)
    ensures |v| >= L ==> r == v[..L]
    ensures |v| == L ==> r == v
  {
    if |v| < L then PadRight(v, L - |v|) else SliceTo(v, L)
  }

  /**
   * An independent, position-by-position description of the same vector:
   * position `i` of the width-`L` result carries `v[i]` where `v` has one,
   * and zero past its end.
   */
  function ZeroExtendOrCut(v: seq<real>, L: nat): seq<real>
  {
    seq(L, i requires 0 <= i < L => if i < |v| then v[i] else 0.0)
  }

  /** Padding-or-slicing is exactly zero-extension-or-cut, for every vector and width. */
  lemma ReconcileMatchesPointwise(v: seq<real>, L: nat)
    ensures Reconcile(v, L) == ZeroExtendOrCut(v, L)
  {
  }

  /** The values the extractor produced survive in their positions, as far as the width allows. */
  lemma ReconcileKeepsPrefix(v: seq<real>, L: nat, i: nat)
    requires i < |v| && i < L
    ensures Reconcile(v, L)[i] == v[i]
  {
  }

  /**
   * The reconciled vector loses no computed value and adds only zeros:
   * `v` is a prefix of it, or it is a prefix of `v`.
   */
  lemma ReconcilePrefixRelation(v: seq<real>, L: nat)
    ensures |v| <= L ==> Reconcile(v, L) == v + Zeros(L - |v|)
    ensures L <= |v| ==> v == Reconcile(v, L) + v[L..]
  {
  }
}
