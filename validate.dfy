/** The density filter validatePatch: a patch is kept unless too many of its entries are
    background (zero). */
module Validation {

  /** At most this many of a 33x33 patch's 1089 entries may be zero (60% of the patch). */
  const MaxZeros: nat := 653

  /** The entries of a patch, row after row. np.nditer visits them in memory order, which for
      a volume loaded by nibabel is column after column; the zero count does not depend on the
      order, since it is the multiplicity of 0 (ZeroCountFlatten). */
  function Flatten(patch: seq<seq<int>>): seq<int>
  {
    if patch == [] then [] else Flatten(patch[..|patch| - 1]) + patch[|patch| - 1]
  }

  /** Number of zero entries of a sequence. */
  function Zeros(s: seq<int>): nat
  {
    if s == [] then 0 else Zeros(s[..|s| - 1]) + (if s[|s| - 1] == 0 then 1 else 0)
  }

  /** Number of zero entries of a patch, row by row. */
  function ZeroCount(patch: seq<seq<int>>): nat
  {
    if patch == [] then 0 else ZeroCount(patch[..|patch| - 1]) + Zeros(patch[|patch| - 1])
  }

  /** The acceptance rule, as a predicate for specifications. */
  predicate Informative(patch: seq<seq<int>>)
  {
    ZeroCount(patch) <= MaxZeros
  }

  /** Zeros of a sequence is the multiplicity of 0 in it. */
  lemma {:induction false} ZerosIsMultiplicity(s: seq<int>)
    ensures Zeros(s) == multiset(s)[0]
  {
    if s != [] {
      var n := |s| - 1;
      ZerosIsMultiplicity(s[..n]);
      assert s == s[..n] + [s[n]];
    }
  }

  lemma {:induction false} ZerosAppend(a: seq<int>, b: seq<int>)
    ensures Zeros(a + b) == Zeros(a) + Zeros(b)
  {
    ZerosIsMultiplicity(a);
    ZerosIsMultiplicity(b);
    ZerosIsMultiplicity(a + b);
  }

  /** Counting row by row agrees with counting along the flattened patch. */
  lemma {:induction false} ZeroCountFlatten(patch: seq<seq<int>>)
    ensures ZeroCount(patch) == Zeros(Flatten(patch))
    ensures ZeroCount(patch) == multiset(Flatten(patch))[0]
  {
    if patch != [] {
      var n := |patch| - 1;
      ZeroCountFlatten(patch[..n]);
      ZerosAppend(Flatten(patch[..n]), patch[n]);
    }
    ZerosIsMultiplicity(Flatten(patch));
  }

  /** validatePatch: count the zeros entry by entry; reject when the count exceeds 653. */
  method ValidatePatch(patch: seq<seq<int>>) returns (valid: bool)
    ensures valid <==> Informative(patch)
  {
    var entries := Flatten(patch);
    var totalZeros := 0;
    for k := 0 to |entries|
      invariant totalZeros == Zeros(entries[..k])
    {
      assert entries[..k + 1][..k] == entries[..k];
      if entries[k] == 0 {
        totalZeros := totalZeros + 1;
      }
    }
    assert entries[..|entries|] == entries;
    ZeroCountFlatten(patch);
    if totalZeros > MaxZeros {
      valid := false;
    } else {
      valid := true;
    }
  }

  /** Two patches of the same shape whose zeros sit in the same places. */
  predicate SameZeros(p: seq<seq<int>>, q: seq<seq<int>>)
  {
    && |p| == |q|
    && (forall i :: 0 <= i < |p| ==> |p[i]| == |q[i]|)
    && (forall i, j :: 0 <= i < |p| && 0 <= j < |p[i]| && j < |q[i]| ==> (p[i][j] == 0 <==> q[i][j] == 0))
  }

  lemma {:induction false} RowZerosAgree(a: seq<int>, b: seq<int>)
    requires |a| == |b|
    requires forall j :: 0 <= j < |a| ==> (a[j] == 0 <==> b[j] == 0)
    ensures Zeros(a) == Zeros(b)
  {
    if a != [] {
      var n := |a| - 1;
      RowZerosAgree(a[..n], b[..n]);
    }
  }

  /** Non-zero values never affect the verdict: only the positions of the zeros matter. */
  lemma {:induction false} NonZeroValuesIrrelevant(p: seq<seq<int>>, q: seq<seq<int>>)
    requires SameZeros(p, q)
    ensures ZeroCount(p) == ZeroCount(q)
    ensures Informative(p) <==> Informative(q)
  {
    if p != [] {
      var n := |p| - 1;
      assert SameZeros(p[..n], q[..n]);
      NonZeroValuesIrrelevant(p[..n], q[..n]);
      RowZerosAgree(p[n], q[n]);
    }
  }

  lemma {:induction false} AllZeroRow(s: seq<int>)
    requires forall k :: 0 <= k < |s| ==> s[k] == 0
    ensures Zeros(s) == |s|
  {
    if s != [] {
      AllZeroRow(s[..|s| - 1]);
    }
  }

  lemma {:induction false} NoZeroRow(s: seq<int>)
    requires forall k :: 0 <= k < |s| ==> s[k] != 0
    ensures Zeros(s) == 0
  {
    if s != [] {
      NoZeroRow(s[..|s| - 1]);
    }
  }

  /** In a patch of rows columns wide that is zero everywhere, every entry counts. */
  lemma {:induction false} AllZeroCount(patch: seq<seq<int>>, columns: nat)
    requires forall i :: 0 <= i < |patch| ==> |patch[i]| == columns
    requires forall i, j :: 0 <= i < |patch| && 0 <= j < |patch[i]| ==> patch[i][j] == 0
    ensures ZeroCount(patch) == |patch| * columns
  {
    if patch != [] {
      var n := |patch| - 1;
      AllZeroCount(patch[..n], columns);
      AllZeroRow(patch[n]);
    }
  }

  /** A 33x33 patch that is entirely background (all 1089 entries zero) is rejected. */
  lemma AllBackgroundRejected(patch: seq<seq<int>>)
    requires |patch| == 33 && forall i :: 0 <= i < |patch| ==> |patch[i]| == 33
    requires forall i, j :: 0 <= i < |patch| && 0 <= j < |patch[i]| ==> patch[i][j] == 0
    ensures ZeroCount(patch) == 1089
    ensures !Informative(patch)
  {
    AllZeroCount(patch, 33);
  }

  /** A patch with no zero entry is always kept, whatever its size. */
  lemma {:induction false} NoBackgroundAccepted(patch: seq<seq<int>>)
    requires forall i, j :: 0 <= i < |patch| && 0 <= j < |patch[i]| ==> patch[i][j] != 0
    ensures ZeroCount(patch) == 0
    ensures Informative(patch)
  {
    if patch != [] {
      var n := |patch| - 1;
      NoBackgroundAccepted(patch[..n]);
      NoZeroRow(patch[n]);
    }
  }
}
