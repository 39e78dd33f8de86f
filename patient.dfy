/** A patient case: four co-registered modalities and the segmentation, and the
    stacked four-channel patch taken from them at one coordinate. */
module Patient {
  import opened Volumes

  /** PatientData after loading: flair, t1, t1ce, t2 and the ground-truth segmentation. */
  datatype PatientData = PatientData(
    flair: BrainImage, t1: BrainImage, t1ce: BrainImage, t2: BrainImage, groundtruth: BrainImage)

  /** Every volume of the case has the dataset's extents (what the loader delivers). */
  predicate Loaded(p: PatientData)
  {
    && Shaped(p.flair.data) && Shaped(p.t1.data) && Shaped(p.t1ce.data)
    && Shaped(p.t2.data) && Shaped(p.groundtruth.data)
  }

  /** np.stack((flair, t1, t1ce, t2)): one 4x33x33 training sample; channel 0 is flair. */
  datatype Stack = Stack(flair: Patch, t1: Patch, t1ce: Patch, t2: Patch)

  /** The four patches taken by getPatch at the same (x, y, z). */
  function StackAt(p: PatientData, c: Coord): Stack
    requires Loaded(p) && InWindow(c)
  {
    Stack(GetPatch(p.flair, c), GetPatch(p.t1, c), GetPatch(p.t1ce, c), GetPatch(p.t2, c))
  }

  /** getGroundTruth: the raw segmentation class at (x, y, z). */
  function GetGroundTruth(p: PatientData, c: Coord): int
    requires Loaded(p) && InVolume(c)
  {
    GetValueAt(p.groundtruth, c)
  }

  /** The stack holds flair, t1, t1ce and t2 in that order: the centre entry of channel m is
      modality m's voxel at the centre. */
  lemma StackCentre(p: PatientData, c: Coord)
    requires Loaded(p) && InWindow(c)
    ensures StackAt(p, c).flair[HalfWidth][HalfWidth] == GetValueAt(p.flair, c)
    ensures StackAt(p, c).t1[HalfWidth][HalfWidth] == GetValueAt(p.t1, c)
    ensures StackAt(p, c).t1ce[HalfWidth][HalfWidth] == GetValueAt(p.t1ce, c)
    ensures StackAt(p, c).t2[HalfWidth][HalfWidth] == GetValueAt(p.t2, c)
  {
    PatchCentreIsValue(p.flair, c);
    PatchCentreIsValue(p.t1, c);
    PatchCentreIsValue(p.t1ce, c);
    PatchCentreIsValue(p.t2, c);
  }

  /** np.argwhere(groundtruth == k): the coordinates of raw class k. */
  function ClassCoords(p: PatientData, k: int): seq<Coord>
  {
    Argwhere(p.groundtruth.data, k)
  }

  /** A coordinate is listed for class k exactly when it is a voxel whose ground truth is k. */
  lemma ClassMembership(p: PatientData, k: int, c: Coord)
    requires Loaded(p)
    ensures c in ClassCoords(p, k) <==> InVolume(c) && GetGroundTruth(p, c) == k
  {
    ArgwhereMembership(p.groundtruth.data, k, c);
  }

  /** Every listed coordinate of a class is a voxel of the case with that ground truth. */
  lemma ClassCoordsInVolume(p: PatientData, k: int)
    requires Loaded(p)
    ensures forall i :: 0 <= i < |ClassCoords(p, k)| ==>
              InVolume(ClassCoords(p, k)[i]) && GetGroundTruth(p, ClassCoords(p, k)[i]) == k
  {
  }

  /** getGroundTruth names the one class whose coordinate list holds the voxel. */
  lemma GroundTruthClass(p: PatientData, c: Coord, k: int)
    requires Loaded(p) && InVolume(c)
    ensures c in ClassCoords(p, GetGroundTruth(p, c))
    ensures k != GetGroundTruth(p, c) ==> c !in ClassCoords(p, k)
  {
    ValueAtPartitions(p.groundtruth, c, k);
    ValueAtPartitions(p.groundtruth, c, GetGroundTruth(p, c));
  }
}
