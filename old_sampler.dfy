/** PatientData.oldGetNPatches: the earlier, unstratified sampler. It takes n uniformly drawn
    centres, keeps those whose flair patch passes the density filter and labels each kept patch
    with the raw ground truth at its centre. */
module OldSampler {
  import opened Volumes
  import opened Validation
  import opened Patient
  import opened Sampler

  /** Exclusive upper bounds of randint(16, 224) for x and y, and randint(0, 155) for z. */
  predicate DrawnCentre(c: Coord)
  {
    HalfWidth <= c.x < EdgeLimit && HalfWidth <= c.y < EdgeLimit && 0 <= c.z < Depth
  }

  /** The number of iterations of range(n). */
  function Iterations(n: int): nat
  {
    if n > 0 then n else 0
  }

  /** The flair channel of the stack at c passes validatePatch. */
  predicate Kept(p: PatientData, c: Coord)
    requires Loaded(p) && DrawnCentre(c)
  {
    Informative(GetPatch(p.flair, c))
  }

  /** The centres oldGetNPatches keeps, in draw order, each with its raw ground-truth label. */
  function OldPlan(p: PatientData, numlist: seq<Coord>): (plan: seq<Labelled>)
    requires Loaded(p)
    requires forall i :: 0 <= i < |numlist| ==> DrawnCentre(numlist[i])
    ensures |plan| <= |numlist|
    ensures AllInWindow(plan)
  {
    if numlist == [] then []
    else
      var n := |numlist| - 1;
      var c := numlist[n];
      OldPlan(p, numlist[..n]) + (if Kept(p, c) then [Labelled(c, GetGroundTruth(p, c))] else [])
  }

  /** Every kept entry is a drawn centre whose flair patch passes the filter, labelled with
      the ground truth there. */
  lemma {:induction false} OldPlanSound(p: PatientData, numlist: seq<Coord>)
    requires Loaded(p)
    requires forall i :: 0 <= i < |numlist| ==> DrawnCentre(numlist[i])
    ensures forall j :: 0 <= j < |OldPlan(p, numlist)| ==>
              && OldPlan(p, numlist)[j].centre in numlist
              && DrawnCentre(OldPlan(p, numlist)[j].centre)
              && Kept(p, OldPlan(p, numlist)[j].centre)
              && OldPlan(p, numlist)[j].target == GetGroundTruth(p, OldPlan(p, numlist)[j].centre)
  {
    if numlist != [] {
      var n := |numlist| - 1;
      OldPlanSound(p, numlist[..n]);
    }
  }

  /** Every drawn centre that passes the filter is kept, with its ground-truth label. */
  lemma {:induction false} OldPlanComplete(p: PatientData, numlist: seq<Coord>, i: nat)
    requires Loaded(p)
    requires forall j :: 0 <= j < |numlist| ==> DrawnCentre(numlist[j])
    requires i < |numlist| && Kept(p, numlist[i])
    ensures Labelled(numlist[i], GetGroundTruth(p, numlist[i])) in OldPlan(p, numlist)
  {
    var n := |numlist| - 1;
    var c := numlist[n];
    var rest := OldPlan(p, numlist[..n]);
    assert OldPlan(p, numlist) == rest + (if Kept(p, c) then [Labelled(c, GetGroundTruth(p, c))] else []);
    if i < n {
      assert numlist[..n][i] == numlist[i];
      OldPlanComplete(p, numlist[..n], i);
    }
  }

  /** The kept entries of the first k draws come first: the filter preserves draw order. */
  lemma {:induction false} OldPlanPrefix(p: PatientData, numlist: seq<Coord>, k: nat)
    requires Loaded(p)
    requires forall j :: 0 <= j < |numlist| ==> DrawnCentre(numlist[j])
    requires k <= |numlist|
    ensures OldPlan(p, numlist[..k]) <= OldPlan(p, numlist)
  {
    if k < |numlist| {
      var n := |numlist| - 1;
      assert numlist[..n][..k] == numlist[..k];
      OldPlanPrefix(p, numlist[..n], k);
    } else {
      assert numlist[..k] == numlist;
    }
  }

  /** When every drawn patch passes the filter, all n are returned, in draw order. */
  lemma {:induction false} OldPlanAllKept(p: PatientData, numlist: seq<Coord>)
    requires Loaded(p)
    requires forall j :: 0 <= j < |numlist| ==> DrawnCentre(numlist[j]) && Kept(p, numlist[j])
    ensures |OldPlan(p, numlist)| == |numlist|
    ensures forall j :: 0 <= j < |numlist| ==> OldPlan(p, numlist)[j].centre == numlist[j]
  {
    if numlist != [] {
      var n := |numlist| - 1;
      OldPlanAllKept(p, numlist[..n]);
    }
  }

  lemma OldPlanStep(p: PatientData, numlist: seq<Coord>, i: nat)
    requires Loaded(p)
    requires forall j :: 0 <= j < |numlist| ==> DrawnCentre(numlist[j])
    requires i < |numlist|
    ensures OldPlan(p, numlist[..i + 1])
         == OldPlan(p, numlist[..i])
            + (if Kept(p, numlist[i]) then [Labelled(numlist[i], GetGroundTruth(p, numlist[i]))] else [])
  {
    assert numlist[..i + 1][..i] == numlist[..i];
  }

  /** The first loop of oldGetNPatches: the stack at every drawn centre, in draw order. */
  method StackDraws(p: PatientData, numlist: seq<Coord>) returns (patchlist: seq<Stack>)
    requires Loaded(p)
    requires forall i :: 0 <= i < |numlist| ==> DrawnCentre(numlist[i])
    ensures |patchlist| == |numlist|
    ensures forall j :: 0 <= j < |numlist| ==> InWindow(numlist[j]) && patchlist[j] == StackAt(p, numlist[j])
  {
    patchlist := [];
    for i := 0 to |numlist|
      invariant |patchlist| == i
      invariant forall j :: 0 <= j < i ==> patchlist[j] == StackAt(p, numlist[j])
    {
      var coords := numlist[i];
      var stacked := Stack(GetPatch(p.flair, coords), GetPatch(p.t1, coords),
                           GetPatch(p.t1ce, coords), GetPatch(p.t2, coords));
      patchlist := patchlist + [stacked];
    }
  }

  /** oldGetNPatches(n): stack the four patches at every drawn centre, then keep those whose
      flair channel passes validatePatch, labelled with the ground truth at the centre. */
  method OldGetNPatches(p: PatientData, n: int, numlist: seq<Coord>) returns (b: Batch)
    requires Loaded(p)
    requires |numlist| == Iterations(n)
    requires forall i :: 0 <= i < |numlist| ==> DrawnCentre(numlist[i])
    ensures b == Render(p, OldPlan(p, numlist))
    ensures |b.patches| == |b.labels| <= Iterations(n)
  {
    var patchlist := StackDraws(p, numlist);
    var validPatches: seq<Stack> := [];
    var labels: seq<int> := [];
    for i := 0 to Iterations(n)
      invariant Rendered(p, OldPlan(p, numlist[..i]), validPatches, labels)
    {
      OldPlanStep(p, numlist, i);
      var valid := ValidatePatch(patchlist[i].flair);
      assert valid == Kept(p, numlist[i]);
      if valid {
        RenderedSnoc(p, OldPlan(p, numlist[..i]), validPatches, labels, numlist[i], GetGroundTruth(p, numlist[i]));
        validPatches := validPatches + [patchlist[i]];
        labels := labels + [GetGroundTruth(p, numlist[i])];
      } else {
        assert OldPlan(p, numlist[..i + 1]) == OldPlan(p, numlist[..i]);
      }
    }
    assert numlist[..|numlist|] == numlist;
    RenderedIsRender(p, OldPlan(p, numlist), validPatches, labels);
    b := Batch(validPatches, labels);
  }
}
