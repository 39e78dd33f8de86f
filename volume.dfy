/** Volumes of the BraTS scans and the two read operations of a BrainImage:
    coordinate-indexed voxel reads and 33x33 window extraction. */
module Volumes {

  /** Extents of every volume of a case (x, y, z). */
  const Width: nat := 240
  const Height: nat := 240
  const Depth: nat := 155

  /** A patch is centred at (x, y) and reaches HalfWidth voxels to either side. */
  const HalfWidth: nat := 16
  const PatchSize: nat := 33

  /** A 3-D grid indexed data[x][y][z]. */
  type Volume = seq<seq<seq<int>>>

  /** A 33x33 cross-section indexed patch[i][j]. */
  type Patch = seq<seq<int>>

  datatype Coord = Coord(x: int, y: int, z: int)

  /** One loaded scan; the loader itself is not modelled. */
  datatype BrainImage = BrainImage(data: Volume)

  /** The volume has the fixed extents of the dataset. */
  predicate Shaped(v: Volume)
  {
    && |v| == Width
    && (forall x :: 0 <= x < |v| ==> |v[x]| == Height)
    && (forall x, y :: 0 <= x < |v| && 0 <= y < |v[x]| ==> |v[x][y]| == Depth)
  }

  /** (x, y, z) indexes a voxel of a shaped volume. */
  predicate InVolume(c: Coord)
  {
    0 <= c.x < Width && 0 <= c.y < Height && 0 <= c.z < Depth
  }

  /** The 33x33 window centred at (x, y) lies inside the x and y extents and z is a plane. */
  predicate InWindow(c: Coord)
  {
    && HalfWidth <= c.x && c.x + HalfWidth + 1 <= Width
    && HalfWidth <= c.y && c.y + HalfWidth + 1 <= Height
    && 0 <= c.z < Depth
  }

  /** numpy's reading of a slice bound against an axis of n entries: a negative bound counts
      from the end, and the result is clamped to [0, n]. */
  function SliceBound(b: int, n: nat): int
  {
    if b < 0 then (if b + n < 0 then 0 else b + n) else if b > n then n else b
  }

  /** numpy's reading of an integer index i in [-n, n): a negative index counts from the end. */
  function WrapIndex(i: int, n: nat): int
  {
    if i < 0 then i + n else i
  }

  /** Entry z of every column in a strip of columns (numpy's indexing of the last axis). */
  function Plane(columns: seq<seq<int>>, z: int): seq<int>
    requires 0 <= z
    requires forall j :: 0 <= j < |columns| ==> z < |columns[j]|
  {
    seq(|columns|, j requires 0 <= j < |columns| => columns[j][z])
  }

  /** BrainImage.getValueAt: the voxel at (x, y, z). */
  function GetValueAt(img: BrainImage, c: Coord): int
    requires Shaped(img.data) && InVolume(c)
  {
    img.data[c.x][c.y][c.z]
  }

  /** BrainImage.getPatch: the slice data[x-16 : x+17, y-16 : y+17, z]. */
  function GetPatch(img: BrainImage, c: Coord): (r: Patch)
    requires Shaped(img.data) && InWindow(c)
    ensures |r| == PatchSize
    ensures forall i :: 0 <= i < PatchSize ==> |r[i]| == PatchSize
    ensures forall i, j :: 0 <= i < PatchSize && 0 <= j < PatchSize ==>
              r[i][j] == img.data[c.x - HalfWidth + i][c.y - HalfWidth + j][c.z]
  {
    var rows := img.data[c.x - HalfWidth .. c.x + HalfWidth + 1];
    seq(PatchSize, i requires 0 <= i < PatchSize =>
      Plane(rows[i][c.y - HalfWidth .. c.y + HalfWidth + 1], c.z))
  }

  /** Every voxel is listed by argwhere for the value getValueAt reads there, and for no other
      value: the lists of distinct values partition the volume. */
  lemma ValueAtPartitions(img: BrainImage, c: Coord, k: int)
    requires Shaped(img.data) && InVolume(c)
    ensures c in Argwhere(img.data, k) <==> GetValueAt(img, c) == k
  {
    ArgwhereMembership(img.data, k, c);
  }

  /** The centre entry of a patch is the voxel it is centred on. */
  lemma PatchCentreIsValue(img: BrainImage, c: Coord)
    requires Shaped(img.data) && InWindow(c)
    ensures GetPatch(img, c)[HalfWidth][HalfWidth] == GetValueAt(img, c)
  {
  }

  /** Voxel c of v exists and holds the value k. */
  predicate Holds(v: Volume, c: Coord, k: int)
  {
    && 0 <= c.x < |v|
    && 0 <= c.y < |v[c.x]|
    && 0 <= c.z < |v[c.x][c.y]|
    && v[c.x][c.y][c.z] == k
  }

  /** np.argwhere(v == k): every coordinate holding k, in row-major (x, then y, then z) order. */
  function Argwhere(v: Volume, k: int): (r: seq<Coord>)
    ensures forall i :: 0 <= i < |r| ==> Holds(v, r[i], k)
  {
    PlanesFrom(v, k, 0)
  }

  /** The hits of Argwhere whose x is at least x. */
  function PlanesFrom(v: Volume, k: int, x: nat): (r: seq<Coord>)
    ensures forall i :: 0 <= i < |r| ==> Holds(v, r[i], k) && x <= r[i].x
    decreases |v| - x
  {
    if x >= |v| then [] else RowsFrom(v, k, x, 0) + PlanesFrom(v, k, x + 1)
  }

  /** The hits in plane x whose y is at least y. */
  function RowsFrom(v: Volume, k: int, x: nat, y: nat): (r: seq<Coord>)
    requires x < |v|
    ensures forall i :: 0 <= i < |r| ==> Holds(v, r[i], k) && r[i].x == x && y <= r[i].y
    decreases |v[x]| - y
  {
    if y >= |v[x]| then [] else CellsFrom(v, k, x, y, 0) + RowsFrom(v, k, x, y + 1)
  }

  /** The hits in column (x, y) whose z is at least z. */
  function CellsFrom(v: Volume, k: int, x: nat, y: nat, z: nat): (r: seq<Coord>)
    requires x < |v| && y < |v[x]|
    ensures forall i :: 0 <= i < |r| ==> Holds(v, r[i], k) && r[i].x == x && r[i].y == y && z <= r[i].z
    decreases |v[x][y]| - z
  {
    if z >= |v[x][y]| then []
    else (if v[x][y][z] == k then [Coord(x, y, z)] else []) + CellsFrom(v, k, x, y, z + 1)
  }

  lemma {:induction false} CellsFromComplete(v: Volume, k: int, x: nat, y: nat, z: nat, c: Coord)
    requires x < |v| && y < |v[x]|
    requires Holds(v, c, k) && c.x == x && c.y == y && z <= c.z
    ensures c in CellsFrom(v, k, x, y, z)
    decreases |v[x][y]| - z
  {
    if c.z != z {
      CellsFromComplete(v, k, x, y, z + 1, c);
    }
  }

  lemma {:induction false} RowsFromComplete(v: Volume, k: int, x: nat, y: nat, c: Coord)
    requires x < |v|
    requires Holds(v, c, k) && c.x == x && y <= c.y
    ensures c in RowsFrom(v, k, x, y)
    decreases |v[x]| - y
  {
    if c.y == y {
      CellsFromComplete(v, k, x, y, 0, c);
    } else {
      RowsFromComplete(v, k, x, y + 1, c);
    }
  }

  lemma {:induction false} PlanesFromComplete(v: Volume, k: int, x: nat, c: Coord)
    requires Holds(v, c, k) && x <= c.x
    ensures c in PlanesFrom(v, k, x)
    decreases |v| - x
  {
    if c.x == x {
      RowsFromComplete(v, k, x, 0, c);
    } else {
      PlanesFromComplete(v, k, x + 1, c);
    }
  }

  /** A coordinate is listed by Argwhere exactly when the voxel there holds k. */
  lemma ArgwhereMembership(v: Volume, k: int, c: Coord)
    ensures c in Argwhere(v, k) <==> Holds(v, c, k)
  {
    if Holds(v, c, k) {
      PlanesFromComplete(v, k, 0, c);
    }
  }

  /** c comes strictly before d in row-major order: x first, then y, then z. */
  predicate Before(c: Coord, d: Coord)
  {
    c.x < d.x || (c.x == d.x && (c.y < d.y || (c.y == d.y && c.z < d.z)))
  }

  /** The coordinates are strictly increasing in row-major order. */
  predicate RowMajor(s: seq<Coord>)
  {
    forall i, j :: 0 <= i < j < |s| ==> Before(s[i], s[j])
  }

  lemma ConcatRowMajor(a: seq<Coord>, b: seq<Coord>)
    requires RowMajor(a) && RowMajor(b)
    requires forall i, j :: 0 <= i < |a| && 0 <= j < |b| ==> Before(a[i], b[j])
    ensures RowMajor(a + b)
  {
    forall i, j | 0 <= i < j < |a + b|
      ensures Before((a + b)[i], (a + b)[j])
    {
      if j < |a| {
      } else if i < |a| {
        assert Before(a[i], b[j - |a|]);
      } else {
        assert Before(b[i - |a|], b[j - |a|]);
      }
    }
  }

  lemma {:induction false} CellsFromRowMajor(v: Volume, k: int, x: nat, y: nat, z: nat)
    requires x < |v| && y < |v[x]|
    ensures RowMajor(CellsFrom(v, k, x, y, z))
    decreases |v[x][y]| - z
  {
    if z < |v[x][y]| {
      CellsFromRowMajor(v, k, x, y, z + 1);
      ConcatRowMajor(if v[x][y][z] == k then [Coord(x, y, z)] else [], CellsFrom(v, k, x, y, z + 1));
    }
  }

  lemma {:induction false} RowsFromRowMajor(v: Volume, k: int, x: nat, y: nat)
    requires x < |v|
    ensures RowMajor(RowsFrom(v, k, x, y))
    decreases |v[x]| - y
  {
    if y < |v[x]| {
      CellsFromRowMajor(v, k, x, y, 0);
      RowsFromRowMajor(v, k, x, y + 1);
      ConcatRowMajor(CellsFrom(v, k, x, y, 0), RowsFrom(v, k, x, y + 1));
    }
  }

  lemma {:induction false} PlanesFromRowMajor(v: Volume, k: int, x: nat)
    ensures RowMajor(PlanesFrom(v, k, x))
    decreases |v| - x
  {
    if x < |v| {
      RowsFromRowMajor(v, k, x, 0);
      PlanesFromRowMajor(v, k, x + 1);
      ConcatRowMajor(RowsFrom(v, k, x, 0), PlanesFrom(v, k, x + 1));
    }
  }

  /** np.argwhere lists its coordinates in row-major order, each one once: the index drawn
      into a class list picks out one well-defined voxel. */
  lemma ArgwhereRowMajor(v: Volume, k: int)
    ensures RowMajor(Argwhere(v, k))
    ensures forall i, j :: 0 <= i < j < |Argwhere(v, k)| ==> Argwhere(v, k)[i] != Argwhere(v, k)[j]
  {
    PlanesFromRowMajor(v, k, 0);
  }
}
