/** Resampling with replacement, as the simulators draw their samples: random positions
    into a series, the values at those positions copied out, and the effect added to the
    copy of the test group. */
module Resampling {
  import opened Common

  /** numpy's global generator, read at one procedure call: `raw(k, g, j)` is the `j`-th
      integer drawn for group `g` during call `k`, `binomial(k, g, n, p)` the binomial
      variate drawn for group `g` during call `k`. */
  datatype Rng = Rng(raw: (nat, Group, nat) -> nat, binomial: (nat, Group, nat, real) -> nat)

  predicate InRange(idx: seq<nat>, n: nat)
  {
    forall i :: 0 <= i < |idx| ==> idx[i] < n
  }

  /** `np.random.randint(0, n, size=size)` (and `series.sample(size, replace=True)`):
      `size` positions of a series of length `n`. Taking no positions needs no
      population. */
  function DrawIndices(rng: Rng, k: nat, g: Group, size: nat, n: nat): (r: seq<nat>)
    requires n > 0 || size == 0
    ensures |r| == size && InRange(r, n)
  {
    if size == 0 then [] else seq(size, j requires 0 <= j < size => rng.raw(k, g, j) % n)
  }

  /** `series.loc[positions]`: the values at the drawn positions, in draw order. */
  function GatherSeq(source: seq<real>, idx: seq<nat>): (r: seq<real>)
    requires InRange(idx, |source|)
    ensures |r| == |idx|
    ensures forall i :: 0 <= i < |idx| ==> r[i] == source[idx[i]]
  {
    seq(|idx|, i requires 0 <= i < |idx| => source[idx[i]])
  }

  /** `sample + mde`. */
  function Shifted(s: seq<real>, mde: real): (r: seq<real>)
    ensures |r| == |s|
    ensures forall i :: 0 <= i < |s| ==> r[i] == s[i] + mde
  {
    seq(|s|, i requires 0 <= i < |s| => s[i] + mde)
  }

  /** The null pass adds nothing. */
  lemma ShiftedZero(s: seq<real>)
    ensures Shifted(s, 0.0) == s
  {
  }

  /** Shifting commutes with gathering: shifting the source and then drawing gives the
      same sample as drawing and then shifting the copy. */
  lemma ShiftGatherCommute(source: seq<real>, idx: seq<nat>, mde: real)
    requires InRange(idx, |source|)
    ensures GatherSeq(Shifted(source, mde), idx) == Shifted(GatherSeq(source, idx), mde)
  {
  }

  /** Two series gathered at the same positions stay paired row by row: row `i` of each
      comes from the same unit. */
  lemma GatherPaired(a: seq<real>, b: seq<real>, idx: seq<nat>, i: nat)
    requires InRange(idx, |a|) && InRange(idx, |b|) && i < |idx|
    ensures exists u :: 0 <= u < |a| && u < |b| && GatherSeq(a, idx)[i] == a[u] && GatherSeq(b, idx)[i] == b[u]
  {
    var u := idx[i];
    assert GatherSeq(a, idx)[i] == a[u] && GatherSeq(b, idx)[i] == b[u];
  }

  /** Copies the values at the drawn positions into a fresh array. */
  method Gather(source: seq<real>, idx: seq<nat>) returns (out: array<real>)
    requires InRange(idx, |source|)
    ensures fresh(out)
    ensures out[..] == GatherSeq(source, idx)
  {
    out := new real[|idx|];
    var i := 0;
    while i < |idx|
      invariant 0 <= i <= |idx|
      invariant forall j :: 0 <= j < i ==> out[j] == source[idx[j]]
    {
      out[i] := source[idx[i]];
      i := i + 1;
    }
  }

  /** `sample += mde`, in place. */
  method ShiftInPlace(a: array<real>, mde: real)
    modifies a
    ensures a[..] == Shifted(old(a[..]), mde)
  {
    var i := 0;
    while i < a.Length
      invariant 0 <= i <= a.Length
      invariant forall j :: 0 <= j < i ==> a[j] == old(a[j]) + mde
      invariant forall j :: i <= j < a.Length ==> a[j] == old(a[j])
    {
      a[i] := a[i] + mde;
      i := i + 1;
    }
  }
}
