/** PatientData.getPredictDataLine: the stacked patches along one row of a slice, used to
    predict a whole line of the segmentation at once. */
module LineSampler {
  import opened Volumes
  import opened Patient
  import opened Sampler

  /** The row covers the centres y = 16, ..., 223: 208 patches. */
  const LineLength: nat := 208

  /** The centre of the k-th patch of the line numLine of slice numSlice. */
  function LineCentre(numSlice: int, numLine: int, k: int): Coord
  {
    Coord(numLine, HalfWidth + k, numSlice)
  }

  /** The rows for which numpy's slice data[numLine-16 : numLine+17] has all 33 entries: the
      windows that fit, and the negative rows whose two bounds both count from the end. */
  predicate FullLine(numLine: int)
  {
    HalfWidth <= numLine < EdgeLimit || -224 <= numLine <= -18
  }

  /** How numpy reads the x slice of getPatch: it has 33 rows exactly for a full line, and then
      they are the rows of the window centred on the wrapped row index. */
  lemma RowSlice(numLine: int)
    ensures SliceBound(numLine + HalfWidth + 1, Width) - SliceBound(numLine - HalfWidth, Width) == PatchSize
            <==> FullLine(numLine)
    ensures FullLine(numLine) ==>
              && SliceBound(numLine - HalfWidth, Width) == WrapIndex(numLine, Width) - HalfWidth
              && HalfWidth <= WrapIndex(numLine, Width) < EdgeLimit
  {
  }

  /** getPredictDataLine(numSlice, numLine): for every col in [16, 224) the stack at
      (numLine, col, numSlice), in column order, with numpy's reading of negative indices.
      A plane index outside [-155, 155) raises at the first getPatch; a row whose x slice is
      short or empty makes the reshape to 33x33 raise. */
  method GetPredictDataLine(p: PatientData, numSlice: int, numLine: int) returns (r: Result<seq<Stack>>)
    requires Loaded(p)
    ensures !(-(Depth as int) <= numSlice < Depth) ==> r == Fail(PlaneOutOfRange)
    ensures -(Depth as int) <= numSlice < Depth && !FullLine(numLine) ==> r == Fail(PatchOutOfBounds)
    ensures -(Depth as int) <= numSlice < Depth && FullLine(numLine) ==>
              && r.Ok?
              && |r.value| == LineLength
              && forall k :: 0 <= k < LineLength ==>
                   InWindow(LineCentre(WrapIndex(numSlice, Depth), WrapIndex(numLine, Width), k))
                   && r.value[k] == StackAt(p, LineCentre(WrapIndex(numSlice, Depth), WrapIndex(numLine, Width), k))
  {
    if !(-(Depth as int) <= numSlice < Depth) {
      return Fail(PlaneOutOfRange);
    }
    var z := WrapIndex(numSlice, Depth);
    var start := SliceBound(numLine - HalfWidth, Width);
    var stop := SliceBound(numLine + HalfWidth + 1, Width);
    RowSlice(numLine);
    if stop - start != PatchSize {
      return Fail(PatchOutOfBounds);
    }
    var x := start + HalfWidth;
    var patchlist: seq<Stack> := [];
    for col := HalfWidth to EdgeLimit
      invariant |patchlist| == col - HalfWidth
      invariant forall k :: 0 <= k < |patchlist| ==>
                  patchlist[k] == StackAt(p, LineCentre(z, x, k))
    {
      var coords := Coord(x, col, z);
      var stacked := Stack(GetPatch(p.flair, coords), GetPatch(p.t1, coords),
                           GetPatch(p.t1ce, coords), GetPatch(p.t2, coords));
      patchlist := patchlist + [stacked];
    }
    r := Ok(patchlist);
  }

  /** The centre entry of the k-th flair patch of a line is the flair voxel (numLine, 16 + k, numSlice). */
  lemma LineCentres(p: PatientData, numSlice: int, numLine: int, k: int)
    requires Loaded(p) && 0 <= numSlice < Depth && HalfWidth <= numLine < EdgeLimit
    requires 0 <= k < LineLength
    ensures StackAt(p, LineCentre(numSlice, numLine, k)).flair[HalfWidth][HalfWidth]
         == GetValueAt(p.flair, LineCentre(numSlice, numLine, k))
  {
    PatchCentreIsValue(p.flair, LineCentre(numSlice, numLine, k));
  }
}
