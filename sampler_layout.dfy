/** What a successful getNPatches returns, entry by entry: the background block, the filler,
    and the three foreground strata with their labels and their ground truth. */
module SamplerLayout {
  import opened Volumes
  import opened Validation
  import opened Patient
  import opened Sampler

  /** getNPatches returns exactly when the call is feasible; otherwise it raises one of the
      exceptions listed by PlanFailures. */
  lemma PlanOkIff(p: PatientData, num: int, d: Draws)
    requires Loaded(p) && DrawsFit(p, num, d)
    ensures Plan(p, num, d).Ok? <==> Feasible(p, num, d)
  {
    PlanFailures(p, num, d);
    if Feasible(p, num, d) {
      PlanSucceeds(p, num, d);
    }
  }

  /** Positions in an assembled plan: background first, then the filler, then the foreground. */
  lemma AssembleEntries(hits: seq<Coord>, q: nat, foreground: seq<Labelled>)
    requires 0 < q <= |hits|
    ensures |Assemble(hits, q, foreground)| == q + 1 + |foreground|
    ensures forall i :: 0 <= i < q ==> Assemble(hits, q, foreground)[i] == Labelled(hits[i], 0)
    ensures Assemble(hits, q, foreground)[q] == Labelled(Coord(FillerX, FillerY, hits[q - 1].z), 0)
    ensures forall j :: 0 <= j < |foreground| ==> Assemble(hits, q, foreground)[q + 1 + j] == foreground[j]
  {
  }

  /** Positions in the foreground: the j-th draw of each class, classes 1, 2, 4 in turn. */
  lemma ForegroundEntries(p: PatientData, d: Draws, j: int)
    requires IndicesFit(p, d)
    requires |d.picks1| == |d.picks2| == |d.picks4|
    requires 0 <= j < |d.picks1|
    ensures |Foreground(p, d)| == 3 * |d.picks1|
    ensures Foreground(p, d)[j] == Labelled(ClassCoords(p, 1)[d.picks1[j]], 1)
    ensures Foreground(p, d)[|d.picks1| + j] == Labelled(ClassCoords(p, 2)[d.picks2[j]], 2)
    ensures Foreground(p, d)[2 * |d.picks1| + j] == Labelled(ClassCoords(p, 4)[d.picks4[j]], 3)
  {
    var s1 := Stratum(ClassCoords(p, 1), d.picks1, 1);
    var s2 := Stratum(ClassCoords(p, 2), d.picks2, 2);
    var s4 := Stratum(ClassCoords(p, 4), d.picks4, 3);
    assert Foreground(p, d) == s1 + s2 + s4;
    assert (s1 + s2 + s4)[|s1| + j] == s2[j];
    assert (s1 + s2 + s4)[|s1| + |s2| + j] == s4[j];
  }

  /** Entry i of the background block is the i-th accepted class-0 draw, labelled 0: a voxel of
      ground truth 0 whose window passes the edge check and whose flair patch passes the
      density filter. */
  lemma PlanBackgroundEntry(p: PatientData, num: int, d: Draws, i: int)
    requires Loaded(p) && DrawsFit(p, num, d) && Feasible(p, num, d)
    requires 0 <= i < Quota(num)
    ensures var r := Plan(p, num, d);
            && r.Ok?
            && r.value[i] == Labelled(BackgroundHits(p, ClassCoords(p, 0), d.background)[i], 0)
            && r.value[i].centre in ClassCoords(p, 0)
            && InVolume(r.value[i].centre)
            && GetGroundTruth(p, r.value[i].centre) == 0
            && InMargin(r.value[i].centre)
            && Informative(GetPatch(p.flair, r.value[i].centre))
  {
    var hits := BackgroundHits(p, ClassCoords(p, 0), d.background);
    PlanSucceeds(p, num, d);
    AssembleEntries(hits, Quota(num), Foreground(p, d));
    BackgroundHitsAccepted(p, ClassCoords(p, 0), d.background);
    ClassMembership(p, 0, hits[i]);
  }

  /** The entry after the background block is the filler: centre (18, 18) on the plane of the
      last background patch, label 0. */
  lemma PlanFillerEntry(p: PatientData, num: int, d: Draws)
    requires Loaded(p) && DrawsFit(p, num, d) && Feasible(p, num, d)
    ensures var r := Plan(p, num, d);
            var q := Quota(num);
            && r.Ok?
            && r.value[q] == Labelled(Coord(FillerX, FillerY, r.value[q - 1].centre.z), 0)
  {
    var hits := BackgroundHits(p, ClassCoords(p, 0), d.background);
    PlanSucceeds(p, num, d);
    AssembleEntries(hits, Quota(num), Foreground(p, d));
  }

  /** The j-th draw of each foreground class sits at q + 1 + j (class 1, label 1),
      2q + 1 + j (class 2, label 2) and 3q + 1 + j (class 4, label 3); each centre is a voxel
      of that raw class. */
  lemma PlanForegroundEntry(p: PatientData, num: int, d: Draws, j: int)
    requires Loaded(p) && DrawsFit(p, num, d) && Feasible(p, num, d)
    requires 0 <= j < Quota(num)
    ensures var r := Plan(p, num, d);
            var q := Quota(num);
            && r.Ok?
            && r.value[q + 1 + j] == Labelled(ClassCoords(p, 1)[d.picks1[j]], 1)
            && r.value[2 * q + 1 + j] == Labelled(ClassCoords(p, 2)[d.picks2[j]], 2)
            && r.value[3 * q + 1 + j] == Labelled(ClassCoords(p, 4)[d.picks4[j]], 3)
            && GetGroundTruth(p, r.value[q + 1 + j].centre) == 1
            && GetGroundTruth(p, r.value[2 * q + 1 + j].centre) == 2
            && GetGroundTruth(p, r.value[3 * q + 1 + j].centre) == 4
  {
    var q := Quota(num);
    var hits := BackgroundHits(p, ClassCoords(p, 0), d.background);
    PlanSucceeds(p, num, d);
    ClassCoordsInVolume(p, 1);
    ClassCoordsInVolume(p, 2);
    ClassCoordsInVolume(p, 4);
    ForegroundEntries(p, d, j);
    AssembleEntries(hits, q, Foreground(p, d));
    assert q + 1 + (q + j) == 2 * q + 1 + j;
    assert q + 1 + (2 * q + j) == 3 * q + 1 + j;
  }

  /** Every label of a returned batch is 0, 1, 2 or 3. */
  lemma PlanTargets(p: PatientData, num: int, d: Draws)
    requires Loaded(p) && DrawsFit(p, num, d)
    ensures Plan(p, num, d).Ok? ==>
              forall i :: 0 <= i < |Plan(p, num, d).value| ==> 0 <= Plan(p, num, d).value[i].target <= 3
  {
    PlanOkIff(p, num, d);
    if Plan(p, num, d).Ok? {
      var r := Plan(p, num, d);
      var q := Quota(num);
      forall i | 0 <= i < |r.value| ensures 0 <= r.value[i].target <= 3 {
        if i < q {
          PlanBackgroundEntry(p, num, d, i);
        } else if i == q {
          PlanFillerEntry(p, num, d);
        } else if i < 2 * q + 1 {
          PlanForegroundEntry(p, num, d, i - q - 1);
        } else if i < 3 * q + 1 {
          PlanForegroundEntry(p, num, d, i - 2 * q - 1);
        } else {
          PlanForegroundEntry(p, num, d, i - 3 * q - 1);
        }
      }
    }
  }
}
