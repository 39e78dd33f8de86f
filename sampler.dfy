/** PatientData.getNPatches: stratified sampling of labelled four-channel patches.

    The random draws of getNPatches are an explicit input (Draws): the stream of indices
    drawn into the class-0 coordinate list by the background loop, and the three index lists
    drawn up front for classes 1, 2 and 4. Plan states which centres and labels a call yields;
    GetNPatches is the loop-by-loop procedure, proved to produce Plan's patches. */
module Sampler {
  import opened Volumes
  import opened Validation
  import opened Patient

  /** Centres with x or y at or beyond this bound are rejected by the background edge check. */
  const EdgeLimit: int := 224

  /** The filler patch appended after the background block is centred at (18, 18, z). */
  const FillerX: int := 18
  const FillerY: int := 18

  /** Ways a sampling call ends in an exception. */
  datatype SampleError =
    | EmptyClass(raw: int)   // randint over an empty class list
    | NegativeQuota          // randint asked for a negative number of draws
    | NoBackgroundSlice      // the filler reads z, which no background draw has bound
    | DrawsExhausted         // the supplied background draws ran out before the quota was met
    | PatchOutOfBounds       // a window leaves the volume, so its reshape to 33x33 fails
    | PlaneOutOfRange        // the plane index is outside [-155, 155): numpy's IndexError

  datatype Result<T> = Ok(value: T) | Fail(error: SampleError)

  /** A patch centre with the target given to its patch. */
  datatype Labelled = Labelled(centre: Coord, target: int)

  /** The pair of stacked arrays returned: patches (count, 4, 33, 33) and labels (count, 1). */
  datatype Batch = Batch(patches: seq<Stack>, labels: seq<int>)

  /** The random draws a call consumes, in the order it consumes them within each stratum. */
  datatype Draws = Draws(background: seq<nat>, picks1: seq<nat>, picks2: seq<nat>, picks4: seq<nat>)

  /** int(num / 4): the per-class quota, truncated toward zero. */
  function Quota(num: int): (q: int)
    ensures num >= 0 ==> 0 <= 4 * q <= num < 4 * q + 4
    ensures num < 0 ==> 4 * q - 4 < num <= 4 * q <= 0
  {
    if num >= 0 then num / 4 else -((-num) / 4)
  }

  /** The background edge check: x and y at least 16 voxels away from either edge. */
  predicate InMargin(c: Coord)
  {
    HalfWidth <= c.x < EdgeLimit && HalfWidth <= c.y < EdgeLimit
  }

  /** On a plane of the volume the edge check is exactly "the 33x33 window fits". */
  lemma MarginIsWindow(c: Coord)
    requires 0 <= c.z < Depth
    ensures InMargin(c) <==> InWindow(c)
  {
  }

  /** Indices drawn by randint(size) lie below size. */
  predicate Below(picks: seq<nat>, size: nat)
  {
    forall i :: 0 <= i < |picks| ==> picks[i] < size
  }

  /** Every drawn index lies inside its class list. */
  predicate IndicesFit(p: PatientData, d: Draws)
  {
    && Below(d.background, |ClassCoords(p, 0)|)
    && Below(d.picks1, |ClassCoords(p, 1)|)
    && Below(d.picks2, |ClassCoords(p, 2)|)
    && Below(d.picks4, |ClassCoords(p, 4)|)
  }

  /** What numpy's random generator guarantees about the draws of one call: indices in range,
      and quota indices for each foreground class that randint does not reject. */
  predicate DrawsFit(p: PatientData, num: int, d: Draws)
  {
    && IndicesFit(p, d)
    && (|ClassCoords(p, 1)| > 0 && Quota(num) >= 0 ==> |d.picks1| == Quota(num))
    && (|ClassCoords(p, 2)| > 0 && Quota(num) >= 0 ==> |d.picks2| == Quota(num))
    && (|ClassCoords(p, 4)| > 0 && Quota(num) >= 0 ==> |d.picks4| == Quota(num))
  }

  /** The background rule: the edge check, then the density filter on the flair patch. */
  predicate AcceptsBackground(p: PatientData, c: Coord)
    requires Loaded(p) && InVolume(c)
  {
    InMargin(c) && Informative(GetPatch(p.flair, c))
  }

  /** The centres the background loop accepts from a stream of draws, in draw order. */
  function BackgroundHits(p: PatientData, cls: seq<Coord>, draws: seq<nat>): (hits: seq<Coord>)
    requires Loaded(p)
    requires forall i :: 0 <= i < |cls| ==> InVolume(cls[i])
    requires forall i :: 0 <= i < |draws| ==> draws[i] < |cls|
    ensures |hits| <= |draws|
    ensures forall i :: 0 <= i < |hits| ==> hits[i] in cls
  {
    if draws == [] then []
    else
      var n := |draws| - 1;
      var c := cls[draws[n]];
      BackgroundHits(p, cls, draws[..n]) + (if AcceptsBackground(p, c) then [c] else [])
  }

  /** Every accepted centre is a voxel that passes the edge check and the density filter. */
  lemma {:induction false} BackgroundHitsAccepted(p: PatientData, cls: seq<Coord>, draws: seq<nat>)
    requires Loaded(p)
    requires forall i :: 0 <= i < |cls| ==> InVolume(cls[i])
    requires forall i :: 0 <= i < |draws| ==> draws[i] < |cls|
    ensures forall i :: 0 <= i < |BackgroundHits(p, cls, draws)| ==>
              && InVolume(BackgroundHits(p, cls, draws)[i])
              && AcceptsBackground(p, BackgroundHits(p, cls, draws)[i])
              && InWindow(BackgroundHits(p, cls, draws)[i])
  {
    if draws != [] {
      BackgroundHitsAccepted(p, cls, draws[..|draws| - 1]);
    }
  }

  /** Drawing more can only extend what has been accepted so far. */
  lemma {:induction false} BackgroundHitsPrefix(p: PatientData, cls: seq<Coord>, draws: seq<nat>, k: nat)
    requires Loaded(p)
    requires forall i :: 0 <= i < |cls| ==> InVolume(cls[i])
    requires forall i :: 0 <= i < |draws| ==> draws[i] < |cls|
    requires k <= |draws|
    ensures BackgroundHits(p, cls, draws[..k]) <= BackgroundHits(p, cls, draws)
  {
    if k < |draws| {
      var n := |draws| - 1;
      assert draws[..n][..k] == draws[..k];
      BackgroundHitsPrefix(p, cls, draws[..n], k);
    } else {
      assert draws[..k] == draws;
    }
  }

  /** One more draw adds its centre exactly when the background rule accepts it. */
  lemma BackgroundHitsStep(p: PatientData, cls: seq<Coord>, draws: seq<nat>, k: nat)
    requires Loaded(p)
    requires forall i :: 0 <= i < |cls| ==> InVolume(cls[i])
    requires forall i :: 0 <= i < |draws| ==> draws[i] < |cls|
    requires k < |draws|
    ensures BackgroundHits(p, cls, draws[..k + 1])
         == BackgroundHits(p, cls, draws[..k]) + (if AcceptsBackground(p, cls[draws[k]]) then [cls[draws[k]]] else [])
  {
    assert draws[..k + 1][..k] == draws[..k];
  }

  /** The background block: each accepted centre with target 0. */
  function Background(hits: seq<Coord>): seq<Labelled>
  {
    seq(|hits|, i requires 0 <= i < |hits| => Labelled(hits[i], 0))
  }

  lemma BackgroundSnoc(hits: seq<Coord>, c: Coord)
    ensures Background(hits + [c]) == Background(hits) + [Labelled(c, 0)]
  {
    assert |Background(hits + [c])| == |Background(hits) + [Labelled(c, 0)]|;
  }

  /** A foreground stratum: the centres cls[i] for the drawn indices i, with one target. */
  function Stratum(cls: seq<Coord>, picks: seq<nat>, target: int): seq<Labelled>
    requires forall i :: 0 <= i < |picks| ==> picks[i] < |cls|
  {
    seq(|picks|, i requires 0 <= i < |picks| => Labelled(cls[picks[i]], target))
  }

  /** One more drawn index appends one more centre to the stratum. */
  lemma StratumSnoc(cls: seq<Coord>, picks: seq<nat>, target: int, plan0: seq<Labelled>, i: nat)
    requires forall j :: 0 <= j < |picks| ==> picks[j] < |cls|
    requires i < |picks|
    ensures plan0 + Stratum(cls, picks[..i + 1], target)
         == plan0 + Stratum(cls, picks[..i], target) + [Labelled(cls[picks[i]], target)]
  {
    assert Stratum(cls, picks[..i + 1], target) == Stratum(cls, picks[..i], target) + [Labelled(cls[picks[i]], target)];
  }

  /** The foreground strata in output order: classes 1, 2 and 4, labelled 1, 2 and 3. */
  function Foreground(p: PatientData, d: Draws): seq<Labelled>
    requires IndicesFit(p, d)
  {
    Stratum(ClassCoords(p, 1), d.picks1, 1)
      + Stratum(ClassCoords(p, 2), d.picks2, 2)
      + Stratum(ClassCoords(p, 4), d.picks4, 3)
  }

  /** Every centre of a list has a full 33x33 window. */
  predicate AllInWindow(plan: seq<Labelled>)
  {
    forall i :: 0 <= i < |plan| ==> InWindow(plan[i].centre)
  }

  /** Every centre of the foreground strata has a full window once all of them pass the
      edge check. */
  lemma ForegroundInWindow(p: PatientData, d: Draws)
    requires Loaded(p) && IndicesFit(p, d)
    requires forall i :: 0 <= i < |Foreground(p, d)| ==> InMargin(Foreground(p, d)[i].centre)
    ensures AllInWindow(Foreground(p, d))
  {
    ClassCoordsInVolume(p, 1);
    ClassCoordsInVolume(p, 2);
    ClassCoordsInVolume(p, 4);
    var s1 := Stratum(ClassCoords(p, 1), d.picks1, 1);
    var s2 := Stratum(ClassCoords(p, 2), d.picks2, 2);
    var s4 := Stratum(ClassCoords(p, 4), d.picks4, 3);
    var f := Foreground(p, d);
    forall i | 0 <= i < |f| ensures InWindow(f[i].centre) {
      if i < |s1| {
        assert f[i] == s1[i];
      } else if i < |s1| + |s2| {
        assert f[i] == s2[i - |s1|];
      } else {
        assert f[i] == s4[i - |s1| - |s2|];
      }
    }
  }

  /** The output order of getNPatches: the first q background centres, the filler at
      (18, 18, z) with z the plane of the last of them, then the foreground. */
  function Assemble(hits: seq<Coord>, q: nat, foreground: seq<Labelled>): seq<Labelled>
    requires 0 < q <= |hits|
  {
    Background(hits[..q]) + [Labelled(Coord(FillerX, FillerY, hits[q - 1].z), 0)] + foreground
  }

  lemma AssembledInWindow(hits: seq<Coord>, q: nat, foreground: seq<Labelled>)
    requires 0 < q <= |hits|
    requires forall i :: 0 <= i < |hits| ==> InWindow(hits[i])
    requires AllInWindow(foreground)
    ensures |Assemble(hits, q, foreground)| == q + 1 + |foreground|
    ensures AllInWindow(Assemble(hits, q, foreground))
  {
    var a := Assemble(hits, q, foreground);
    forall i | 0 <= i < |a| ensures InWindow(a[i].centre) {
      if i < q {
        assert a[i].centre == hits[i];
      } else if i > q {
        assert a[i] == foreground[i - q - 1];
      }
    }
  }

  /** The centres and labels of one call of getNPatches, or the exception it raises. */
  function Plan(p: PatientData, num: int, d: Draws): (r: Result<seq<Labelled>>)
    requires Loaded(p) && DrawsFit(p, num, d)
    ensures r.Ok? ==> |r.value| == 4 * Quota(num) + 1
    ensures r.Ok? ==> AllInWindow(r.value)
  {
    var class0, class1 := ClassCoords(p, 0), ClassCoords(p, 1);
    var class2, class4 := ClassCoords(p, 2), ClassCoords(p, 4);
    var q := Quota(num);
    if |class1| == 0 then Fail(EmptyClass(1))
    else if q < 0 then Fail(NegativeQuota)
    else if |class2| == 0 then Fail(EmptyClass(2))
    else if |class4| == 0 then Fail(EmptyClass(4))
    else if q == 0 then Fail(NoBackgroundSlice)
    else if |class0| == 0 then Fail(EmptyClass(0))
    else
      ClassCoordsInVolume(p, 0);
      var hits := BackgroundHits(p, class0, d.background);
      if |hits| < q then Fail(DrawsExhausted)
      else
        var foreground := Foreground(p, d);
        if exists i :: 0 <= i < |foreground| && !InMargin(foreground[i].centre) then Fail(PatchOutOfBounds)
        else
          BackgroundHitsAccepted(p, class0, d.background);
          ForegroundInWindow(p, d);
          AssembledInWindow(hits, q, foreground);
          Ok(Assemble(hits, q, foreground))
  }

  /** The conditions under which getNPatches returns: every class is present, the quota is
      positive, the draws yield enough background centres and every foreground window fits. */
  predicate Feasible(p: PatientData, num: int, d: Draws)
    requires Loaded(p) && IndicesFit(p, d)
  {
    && Quota(num) > 0
    && |ClassCoords(p, 0)| > 0 && |ClassCoords(p, 1)| > 0
    && |ClassCoords(p, 2)| > 0 && |ClassCoords(p, 4)| > 0
    && |BackgroundHits(p, ClassCoords(p, 0), d.background)| >= Quota(num)
    && forall i :: 0 <= i < |Foreground(p, d)| ==> InMargin(Foreground(p, d)[i].centre)
  }

  /** A feasible call returns the assembled plan. */
  lemma PlanSucceeds(p: PatientData, num: int, d: Draws)
    requires Loaded(p) && DrawsFit(p, num, d) && Feasible(p, num, d)
    ensures Plan(p, num, d) == Ok(Assemble(BackgroundHits(p, ClassCoords(p, 0), d.background), Quota(num), Foreground(p, d)))
  {
  }

  /** The exceptions of getNPatches, each with the condition that raises it, checked in the
      order the source meets them. */
  lemma PlanFailures(p: PatientData, num: int, d: Draws)
    requires Loaded(p) && DrawsFit(p, num, d)
    ensures |ClassCoords(p, 1)| == 0 ==> Plan(p, num, d) == Fail(EmptyClass(1))
    ensures |ClassCoords(p, 1)| > 0 && Quota(num) < 0 ==> Plan(p, num, d) == Fail(NegativeQuota)
    ensures |ClassCoords(p, 1)| > 0 && Quota(num) >= 0 && |ClassCoords(p, 2)| == 0 ==>
              Plan(p, num, d) == Fail(EmptyClass(2))
    ensures |ClassCoords(p, 1)| > 0 && Quota(num) >= 0 && |ClassCoords(p, 2)| > 0 && |ClassCoords(p, 4)| == 0 ==>
              Plan(p, num, d) == Fail(EmptyClass(4))
    ensures |ClassCoords(p, 1)| > 0 && |ClassCoords(p, 2)| > 0 && |ClassCoords(p, 4)| > 0 && Quota(num) == 0 ==>
              Plan(p, num, d) == Fail(NoBackgroundSlice)
    ensures |ClassCoords(p, 1)| > 0 && |ClassCoords(p, 2)| > 0 && |ClassCoords(p, 4)| > 0 && Quota(num) > 0
              && |ClassCoords(p, 0)| == 0 ==>
              Plan(p, num, d) == Fail(EmptyClass(0))
    ensures |ClassCoords(p, 1)| > 0 && |ClassCoords(p, 2)| > 0 && |ClassCoords(p, 4)| > 0 && Quota(num) > 0
              && |ClassCoords(p, 0)| > 0 && |BackgroundHits(p, ClassCoords(p, 0), d.background)| < Quota(num) ==>
              Plan(p, num, d) == Fail(DrawsExhausted)
    ensures |ClassCoords(p, 1)| > 0 && |ClassCoords(p, 2)| > 0 && |ClassCoords(p, 4)| > 0 && Quota(num) > 0
              && |ClassCoords(p, 0)| > 0 && |BackgroundHits(p, ClassCoords(p, 0), d.background)| >= Quota(num)
              && (exists i :: 0 <= i < |Foreground(p, d)| && !InMargin(Foreground(p, d)[i].centre)) ==>
              Plan(p, num, d) == Fail(PatchOutOfBounds)
  {
  }

  /** The stacked patches and the labels of a list of centres. */
  function Render(p: PatientData, plan: seq<Labelled>): (b: Batch)
    requires Loaded(p) && AllInWindow(plan)
  {
    Batch(seq(|plan|, i requires 0 <= i < |plan| => StackAt(p, plan[i].centre)),
          seq(|plan|, i requires 0 <= i < |plan| => plan[i].target))
  }

  function Realise(p: PatientData, r: Result<seq<Labelled>>): Result<Batch>
    requires Loaded(p) && (r.Ok? ==> AllInWindow(r.value))
  {
    match r
    case Ok(plan) => Ok(Render(p, plan))
    case Fail(e) => Fail(e)
  }

  /** patches and labels are the rendering of plan: the stack and the label of each centre,
      in order (stated entry by entry from the last one back). */
  predicate Rendered(p: PatientData, plan: seq<Labelled>, patches: seq<Stack>, labels: seq<int>)
    requires Loaded(p)
    decreases |plan|
  {
    && |patches| == |plan| && |labels| == |plan|
    && (plan != [] ==>
          var n := |plan| - 1;
          && InWindow(plan[n].centre)
          && patches[n] == StackAt(p, plan[n].centre)
          && labels[n] == plan[n].target
          && Rendered(p, plan[..n], patches[..n], labels[..n]))
  }

  /** Appending one centre appends its stack and its label. */
  lemma RenderedSnoc(p: PatientData, plan: seq<Labelled>, patches: seq<Stack>, labels: seq<int>,
                     c: Coord, target: int)
    requires Loaded(p) && Rendered(p, plan, patches, labels) && InWindow(c)
    ensures Rendered(p, plan + [Labelled(c, target)], patches + [StackAt(p, c)], labels + [target])
  {
    assert (plan + [Labelled(c, target)])[..|plan|] == plan;
    assert (patches + [StackAt(p, c)])[..|plan|] == patches;
    assert (labels + [target])[..|plan|] == labels;
  }

  /** Rendered entry by entry: each centre has a window, and its stack and label are in place. */
  lemma {:induction false} RenderedAt(p: PatientData, plan: seq<Labelled>, patches: seq<Stack>, labels: seq<int>)
    requires Loaded(p) && Rendered(p, plan, patches, labels)
    ensures |patches| == |plan| && |labels| == |plan|
    ensures forall i :: 0 <= i < |plan| ==>
              InWindow(plan[i].centre) && patches[i] == StackAt(p, plan[i].centre) && labels[i] == plan[i].target
    decreases |plan|
  {
    if plan != [] {
      var n := |plan| - 1;
      RenderedAt(p, plan[..n], patches[..n], labels[..n]);
    }
  }

  /** The entry-by-entry description agrees with Render. */
  lemma RenderedIsRender(p: PatientData, plan: seq<Labelled>, patches: seq<Stack>, labels: seq<int>)
    requires Loaded(p) && Rendered(p, plan, patches, labels)
    ensures AllInWindow(plan) && Batch(patches, labels) == Render(p, plan)
  {
    RenderedAt(p, plan, patches, labels);
  }

  /** One foreground loop of getNPatches: take the stack at cls[i] for every drawn i and
      append it with the stratum's label. ok is false when some window leaves the volume. */
  method AppendStratum(p: PatientData, cls: seq<Coord>, picks: seq<nat>, target: int,
                       ghost plan0: seq<Labelled>, patches0: seq<Stack>, labels0: seq<int>)
    returns (ok: bool, patches: seq<Stack>, labels: seq<int>)
    requires Loaded(p) && Rendered(p, plan0, patches0, labels0)
    requires forall i :: 0 <= i < |cls| ==> InVolume(cls[i])
    requires forall i :: 0 <= i < |picks| ==> picks[i] < |cls|
    ensures ok <==> forall i :: 0 <= i < |picks| ==> InMargin(cls[picks[i]])
    ensures ok ==> Rendered(p, plan0 + Stratum(cls, picks, target), patches, labels)
  {
    patches, labels := patches0, labels0;
    assert plan0 + Stratum(cls, picks[..0], target) == plan0;
    for i := 0 to |picks|
      invariant forall j :: 0 <= j < i ==> InMargin(cls[picks[j]])
      invariant Rendered(p, plan0 + Stratum(cls, picks[..i], target), patches, labels)
    {
      var n := cls[picks[i]];
      if !InMargin(n) {
        return false, patches, labels;
      }
      RenderedSnoc(p, plan0 + Stratum(cls, picks[..i], target), patches, labels, n, target);
      StratumSnoc(cls, picks, target, plan0, i);
      patches := patches + [StackAt(p, n)];
      labels := labels + [target];
    }
    assert picks[..|picks|] == picks;
    ok := true;
  }

  /** The background loop of getNPatches: draw class-0 centres until nEach of them pass the
      edge check and the density filter. z is the plane of the last draw; zBound says
      whether any draw was made (Python leaves z unbound otherwise). */
  method SampleBackground(p: PatientData, class0: seq<Coord>, nEach: nat, draws: seq<nat>)
    returns (r: Result<Batch>, z: int, zBound: bool)
    requires Loaded(p)
    requires forall i :: 0 <= i < |class0| ==> InVolume(class0[i])
    requires forall i :: 0 <= i < |draws| ==> draws[i] < |class0|
    ensures nEach > 0 && |class0| == 0 ==> r == Fail(EmptyClass(0))
    ensures nEach > 0 && |class0| > 0 && |BackgroundHits(p, class0, draws)| < nEach ==> r == Fail(DrawsExhausted)
    ensures nEach == 0 || (|class0| > 0 && |BackgroundHits(p, class0, draws)| >= nEach) ==>
              && r.Ok?
              && Rendered(p, Background(BackgroundHits(p, class0, draws)[..nEach]), r.value.patches, r.value.labels)
              && (zBound <==> nEach > 0)
              && (nEach > 0 ==> z == BackgroundHits(p, class0, draws)[nEach - 1].z)
  {
    var patchlist: seq<Stack> := [];
    var labels: seq<int> := [];
    var k := 0;
    z, zBound := 0, false;
    ghost var hits: seq<Coord> := [];
    while |patchlist| < nEach
      invariant 0 <= k <= |draws|
      invariant hits == BackgroundHits(p, class0, draws[..k])
      invariant |patchlist| == |hits| <= nEach
      invariant zBound <==> k > 0
      invariant nEach == 0 ==> k == 0
      invariant k > 0 ==> z == class0[draws[k - 1]].z
      invariant |hits| == nEach && nEach > 0 ==> k > 0 && hits[|hits| - 1] == class0[draws[k - 1]]
      invariant Rendered(p, Background(hits), patchlist, labels)
      decreases |draws| - k
    {
      if |class0| == 0 {
        return Fail(EmptyClass(0)), z, zBound;
      }
      if k == |draws| {
        assert draws[..k] == draws;
        return Fail(DrawsExhausted), z, zBound;
      }
      var n := class0[draws[k]];
      var x, y := n.x, n.y;
      z, zBound := n.z, true;
      BackgroundHitsStep(p, class0, draws, k);
      k := k + 1;
      if x < HalfWidth || x >= EdgeLimit || y < HalfWidth || y >= EdgeLimit {
        continue;
      }
      var flairPatch := GetPatch(p.flair, n);
      var valid := ValidatePatch(flairPatch);
      if valid {
        RenderedSnoc(p, Background(hits), patchlist, labels, n, 0);
        BackgroundSnoc(hits, n);
        patchlist := patchlist + [Stack(flairPatch, GetPatch(p.t1, n), GetPatch(p.t1ce, n), GetPatch(p.t2, n))];
        labels := labels + [0];
        hits := hits + [n];
      }
    }
    BackgroundHitsPrefix(p, class0, draws, k);
    assert hits == BackgroundHits(p, class0, draws)[..nEach];
    r := Ok(Batch(patchlist, labels));
  }

  /** The foreground has full windows exactly when each of its three strata has. */
  lemma ForegroundMargins(p: PatientData, d: Draws)
    requires IndicesFit(p, d)
    ensures (forall i :: 0 <= i < |Foreground(p, d)| ==> InMargin(Foreground(p, d)[i].centre)) <==>
            && (forall i :: 0 <= i < |d.picks1| ==> InMargin(ClassCoords(p, 1)[d.picks1[i]]))
            && (forall i :: 0 <= i < |d.picks2| ==> InMargin(ClassCoords(p, 2)[d.picks2[i]]))
            && (forall i :: 0 <= i < |d.picks4| ==> InMargin(ClassCoords(p, 4)[d.picks4[i]]))
  {
    var s1 := Stratum(ClassCoords(p, 1), d.picks1, 1);
    var s2 := Stratum(ClassCoords(p, 2), d.picks2, 2);
    var s4 := Stratum(ClassCoords(p, 4), d.picks4, 3);
    var f := Foreground(p, d);
    assert f == s1 + s2 + s4;
    if forall i :: 0 <= i < |f| ==> InMargin(f[i].centre) {
      forall i | 0 <= i < |d.picks1| ensures InMargin(ClassCoords(p, 1)[d.picks1[i]]) {
        assert f[i] == s1[i];
      }
      forall i | 0 <= i < |d.picks2| ensures InMargin(ClassCoords(p, 2)[d.picks2[i]]) {
        assert f[|s1| + i] == s2[i];
      }
      forall i | 0 <= i < |d.picks4| ensures InMargin(ClassCoords(p, 4)[d.picks4[i]]) {
        assert f[|s1| + |s2| + i] == s4[i];
      }
    }
  }

  lemma ConcatAssoc(h: seq<Labelled>, a: seq<Labelled>, b: seq<Labelled>, c: seq<Labelled>)
    ensures h + a + b + c == h + (a + b + c)
  {
  }

  /** The three foreground loops of getNPatches, classes 1, 2 and 4 in turn, appending to the
      background block and the filler. */
  method SampleForeground(p: PatientData, d: Draws, ghost plan0: seq<Labelled>,
                          patches0: seq<Stack>, labels0: seq<int>)
    returns (ok: bool, patches: seq<Stack>, labels: seq<int>)
    requires Loaded(p) && IndicesFit(p, d) && Rendered(p, plan0, patches0, labels0)
    ensures ok <==> forall i :: 0 <= i < |Foreground(p, d)| ==> InMargin(Foreground(p, d)[i].centre)
    ensures ok ==> Rendered(p, plan0 + Foreground(p, d), patches, labels)
  {
    ClassCoordsInVolume(p, 1);
    ClassCoordsInVolume(p, 2);
    ClassCoordsInVolume(p, 4);
    ForegroundMargins(p, d);
    var s1 := Stratum(ClassCoords(p, 1), d.picks1, 1);
    var s2 := Stratum(ClassCoords(p, 2), d.picks2, 2);
    ok, patches, labels := AppendStratum(p, ClassCoords(p, 1), d.picks1, 1, plan0, patches0, labels0);
    if !ok {
      return;
    }
    ok, patches, labels := AppendStratum(p, ClassCoords(p, 2), d.picks2, 2, plan0 + s1, patches, labels);
    if !ok {
      return;
    }
    ok, patches, labels := AppendStratum(p, ClassCoords(p, 4), d.picks4, 3, plan0 + s1 + s2, patches, labels);
    if !ok {
      return;
    }
    ConcatAssoc(plan0, s1, s2, Stratum(ClassCoords(p, 4), d.picks4, 3));
  }

  /** getNPatches(num): a background block of quota accepted patches, one filler patch,
      then quota patches each of classes 1, 2 and 4 (labelled 1, 2, 3). */
  method GetNPatches(p: PatientData, num: int, d: Draws) returns (r: Result<Batch>)
    requires Loaded(p) && DrawsFit(p, num, d)
    ensures r == Realise(p, Plan(p, num, d))
    ensures r.Ok? ==> |r.value.patches| == |r.value.labels| == 4 * Quota(num) + 1
  {
    var class0 := ClassCoords(p, 0);
    var class1 := ClassCoords(p, 1);
    var class2 := ClassCoords(p, 2);
    var class4 := ClassCoords(p, 4);
    ClassCoordsInVolume(p, 0);
    ClassCoordsInVolume(p, 1);
    ClassCoordsInVolume(p, 2);
    ClassCoordsInVolume(p, 4);

    var nEach := Quota(num);
    PlanFailures(p, num, d);
    // the three foreground index lists are drawn first; randint fails on an empty class
    // or a negative size
    if |class1| == 0 {
      return Fail(EmptyClass(1));
    }
    if nEach < 0 {
      return Fail(NegativeQuota);
    }
    if |class2| == 0 {
      return Fail(EmptyClass(2));
    }
    if |class4| == 0 {
      return Fail(EmptyClass(4));
    }

    var background, z, zBound := SampleBackground(p, class0, nEach, d.background);
    if background.Fail? {
      return background;
    }
    // the filler reads z, bound only by a background draw
    if !zBound {
      return Fail(NoBackgroundSlice);
    }
    ghost var hits := BackgroundHits(p, class0, d.background)[..nEach];
    var filler := Coord(FillerX, FillerY, z);
    RenderedSnoc(p, Background(hits), background.value.patches, background.value.labels, filler, 0);
    var patchlist := background.value.patches + [StackAt(p, filler)];
    var labels := background.value.labels + [0];
    ghost var plan := Background(hits) + [Labelled(filler, 0)];

    var ok;
    ok, patchlist, labels := SampleForeground(p, d, plan, patchlist, labels);
    if !ok {
      return Fail(PatchOutOfBounds);
    }
    RenderedIsRender(p, plan + Foreground(p, d), patchlist, labels);
    PlanSucceeds(p, num, d);
    r := Ok(Batch(patchlist, labels));
  }
}
