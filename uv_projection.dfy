/**
 * Planar UV unwrap of one material group of a mesh, and the aspect ratio
 * of the unwrapped region (`setUVsForMaterialGroupAndGetAspect`).
 *
 * The group's triangles are walked once to collect the vertices they use,
 * the bounding box of those vertices and the sum of the (un-normalised)
 * face normals. The projection plane is the one across the dominant normal
 * axis, or, for a degenerate normal sum, the two axes of largest extent.
 * Each used vertex gets U along the first axis and a flipped V along the
 * second, both scaled by the box's extent clamped to at least 1e-6.
 */
module UVProjection {
  import opened Wrappers
  import opened RealMath

  /** The normal sum counts as a direction when its squared length exceeds this. */
  const NormalEpsilon: real := 1.0e-12

  /** Extents are clamped to at least this before dividing. */
  const SpanEpsilon: real := 1.0e-6

  datatype Axis = X | Y | Z

  /** Declaration order x, y, z, which decides ties. */
  function Rank(a: Axis): nat
  {
    match a
    case X => 0
    case Y => 1
    case Z => 2
  }

  datatype Vec3 = Vec3(x: real, y: real, z: real)
  {
    function At(a: Axis): real
    {
      match a
      case X => x
      case Y => y
      case Z => z
    }
  }

  function Add(a: Vec3, b: Vec3): Vec3 { Vec3(a.x + b.x, a.y + b.y, a.z + b.z) }
  function Sub(a: Vec3, b: Vec3): Vec3 { Vec3(a.x - b.x, a.y - b.y, a.z - b.z) }
  function Scale(a: Vec3, k: real): Vec3 { Vec3(k * a.x, k * a.y, k * a.z) }
  function AbsVec(a: Vec3): Vec3 { Vec3(Abs(a.x), Abs(a.y), Abs(a.z)) }
  function LengthSq(a: Vec3): real { a.x * a.x + a.y * a.y + a.z * a.z }

  function Cross(a: Vec3, b: Vec3): Vec3
  {
    Vec3(a.y * b.z - a.z * b.y, a.z * b.x - a.x * b.z, a.x * b.y - a.y * b.x)
  }

  /** Component-wise minimum and maximum (`Vector3.min`, `Vector3.max`). */
  function MinVec(a: Vec3, b: Vec3): Vec3
  {
    Vec3(Min(a.x, b.x), Min(a.y, b.y), Min(a.z, b.z))
  }

  function MaxVec(a: Vec3, b: Vec3): Vec3
  {
    Vec3(Max(a.x, b.x), Max(a.y, b.y), Max(a.z, b.z))
  }

  /** Along every axis the component-wise minimum and maximum are the scalar ones. */
  lemma MinMaxAt(a: Vec3, b: Vec3, ax: Axis)
    ensures MinVec(a, b).At(ax) == Min(a.At(ax), b.At(ax))
    ensures MaxVec(a, b).At(ax) == Max(a.At(ax), b.At(ax))
  {
  }

  // ---------------------------------------------------------------------
  // Geometry and the group the projector works on
  // ---------------------------------------------------------------------

  /** A draw group: a range of index slots drawn with one material slot. */
  datatype Group = Group(start: nat, count: nat, materialIndex: int)

  /** Number of index slots the projector may read: the index buffer's, or one per vertex. */
  function SlotCount(pos: seq<Vec3>, index: Option<seq<nat>>): nat
  {
    match index
    case Some(ix) => |ix|
    case None => |pos|
  }

  /** Every index names a vertex of the position buffer. */
  predicate IndicesInRange(pos: seq<Vec3>, index: Option<seq<nat>>)
  {
    index.Some? ==> forall k :: 0 <= k < |index.value| ==> index.value[k] < |pos|
  }

  /** `getIndex(i)`: the vertex at index slot i. */
  function VertexAt(pos: seq<Vec3>, index: Option<seq<nat>>, slot: nat): (v: nat)
    requires IndicesInRange(pos, index)
    requires slot < SlotCount(pos, index)
    ensures v < |pos|
  {
    match index
    case Some(ix) => ix[slot]
    case None => slot
  }

  /** Iterations of `for (i = start; i < start + count; i += 3)`. */
  function TriangleCount(g: Group): (n: nat)
    ensures g.count <= 3 * n < g.count + 3
  {
    (g.count + 2) / 3
  }

  /** Every slot the triangle loop reads (i, i+1, i+2 per iteration) exists. */
  predicate GroupInRange(g: Group, slots: nat)
  {
    g.start + 3 * TriangleCount(g) <= slots
  }

  /** The declared groups, or the one full-range group for material 0 when there are none. */
  function EffectiveGroups(pos: seq<Vec3>, index: Option<seq<nat>>, groups: seq<Group>): seq<Group>
  {
    if |groups| > 0 then groups else [Group(0, SlotCount(pos, index), 0)]
  }

  /** The geometry invariant the projector relies on: no read falls outside a buffer. */
  predicate WellFormed(pos: seq<Vec3>, index: Option<seq<nat>>, groups: seq<Group>)
  {
    && IndicesInRange(pos, index)
    && forall g :: g in EffectiveGroups(pos, index, groups) ==> GroupInRange(g, SlotCount(pos, index))
  }

  /** `groups.find(g => g.materialIndex === m)` as a position: the first match, if any. */
  function FirstGroupWith(groups: seq<Group>, m: int): (k: Option<nat>)
    ensures k.Some? ==> k.value < |groups| && groups[k.value].materialIndex == m
    ensures k.Some? ==> forall j :: 0 <= j < k.value ==> groups[j].materialIndex != m
    ensures k.None? ==> forall j :: 0 <= j < |groups| ==> groups[j].materialIndex != m
  {
    if |groups| == 0 then None
    else if groups[0].materialIndex == m then Some(0)
    else
      match FirstGroupWith(groups[1..], m)
      case None => None
      case Some(k) => Some(k + 1)
  }

  /**
   * The group the projector walks: the first one for material m, else the
   * first group; without declared groups, the full-range group.
   */
  function SelectGroup(pos: seq<Vec3>, index: Option<seq<nat>>, groups: seq<Group>, m: int): (g: Group)
    ensures g in EffectiveGroups(pos, index, groups)
    ensures |groups| == 0 ==> g == Group(0, SlotCount(pos, index), 0)
    ensures (exists j :: 0 <= j < |groups| && groups[j].materialIndex == m) ==> g.materialIndex == m
    ensures |groups| > 0 && FirstGroupWith(groups, m).Some? ==> g == groups[FirstGroupWith(groups, m).value]
    ensures |groups| > 0 && (forall j :: 0 <= j < |groups| ==> groups[j].materialIndex != m) ==> g == groups[0]
  {
    var gs := EffectiveGroups(pos, index, groups);
    match FirstGroupWith(gs, m)
    case Some(k) => gs[k]
    case None => gs[0]
  }

  // ---------------------------------------------------------------------
  // The triangle walk
  // ---------------------------------------------------------------------

  /** An axis-aligned box; Empty before any vertex (min = +Infinity, max = -Infinity). */
  datatype Bounds = Empty | Box(lo: Vec3, hi: Vec3)

  /** `min.min(p); max.max(p)`. */
  function Extend(b: Bounds, p: Vec3): (r: Bounds)
    ensures r.Box?
  {
    match b
    case Empty => Box(p, p)
    case Box(lo, hi) => Box(MinVec(lo, p), MaxVec(hi, p))
  }

  /** `min.min(p0..p2); max.max(p0..p2)` for the three corners of a triangle. */
  function Extend3(b: Bounds, p0: Vec3, p1: Vec3, p2: Vec3): (r: Bounds)
    ensures r.Box?
  {
    Extend(Extend(Extend(b, p0), p1), p2)
  }

  /** `n = (p1 - p0) x (p2 - p0)`: the un-normalised face normal. */
  function TriangleNormal(p0: Vec3, p1: Vec3, p2: Vec3): Vec3
  {
    Cross(Sub(p1, p0), Sub(p2, p0))
  }

  /** `used` after the first k triangles from slot `start`. */
  function UsedAfter(pos: seq<Vec3>, index: Option<seq<nat>>, start: nat, k: nat): set<nat>
    requires IndicesInRange(pos, index)
    requires start + 3 * k <= SlotCount(pos, index)
  {
    if k == 0 then {}
    else
      var s := start + 3 * (k - 1);
      UsedAfter(pos, index, start, k - 1) + {VertexAt(pos, index, s), VertexAt(pos, index, s + 1), VertexAt(pos, index, s + 2)}
  }

  /** `min`/`max` after the first k triangles: Empty stands for (+Infinity, -Infinity). */
  function BoundsAfter(pos: seq<Vec3>, index: Option<seq<nat>>, start: nat, k: nat): Bounds
    requires IndicesInRange(pos, index)
    requires start + 3 * k <= SlotCount(pos, index)
  {
    if k == 0 then Empty
    else
      var s := start + 3 * (k - 1);
      var ia, ib, ic := VertexAt(pos, index, s), VertexAt(pos, index, s + 1), VertexAt(pos, index, s + 2);
      Extend3(BoundsAfter(pos, index, start, k - 1), pos[ia], pos[ib], pos[ic])
  }

  /** `nSum` after the first k triangles. */
  function NormalSumAfter(pos: seq<Vec3>, index: Option<seq<nat>>, start: nat, k: nat): Vec3
    requires IndicesInRange(pos, index)
    requires start + 3 * k <= SlotCount(pos, index)
  {
    if k == 0 then Vec3(0.0, 0.0, 0.0)
    else
      var s := start + 3 * (k - 1);
      var ia, ib, ic := VertexAt(pos, index, s), VertexAt(pos, index, s + 1), VertexAt(pos, index, s + 2);
      Add(NormalSumAfter(pos, index, start, k - 1), TriangleNormal(pos[ia], pos[ib], pos[ic]))
  }

  /** What the loop accumulates: `used`, `min`/`max`, `nSum`. */
  datatype Walk = Walk(used: set<nat>, bounds: Bounds, normalSum: Vec3)

  /** The accumulated state after the first k triangles from slot `start`. */
  function WalkTriangles(pos: seq<Vec3>, index: Option<seq<nat>>, start: nat, k: nat): Walk
    requires IndicesInRange(pos, index)
    requires start + 3 * k <= SlotCount(pos, index)
  {
    Walk(UsedAfter(pos, index, start, k), BoundsAfter(pos, index, start, k), NormalSumAfter(pos, index, start, k))
  }

  /** p lies inside the box. */
  predicate Inside(b: Bounds, p: Vec3)
  {
    b.Box? && forall a :: b.lo.At(a) <= p.At(a) <= b.hi.At(a)
  }

  /** Every used vertex lies inside c. */
  ghost predicate Contains(c: Bounds, pos: seq<Vec3>, used: set<nat>)
  {
    forall v :: v in used && v < |pos| ==> Inside(c, pos[v])
  }

  /**
   * The used vertices exist, the box is Empty exactly when none is used,
   * and every used vertex lies inside it.
   */
  ghost predicate Covers(b: Bounds, pos: seq<Vec3>, used: set<nat>)
  {
    && (forall v :: v in used ==> v < |pos|)
    && (b.Empty? <==> used == {})
    && Contains(b, pos, used)
  }

  /** b lies within c: it is Empty, or c is a box at least as large along every axis. */
  predicate Within(b: Bounds, c: Bounds)
  {
    b.Empty? || (c.Box? && forall a :: c.lo.At(a) <= b.lo.At(a) && b.hi.At(a) <= c.hi.At(a))
  }

  /** b lies within every box that holds all the used vertices. */
  ghost predicate Least(b: Bounds, pos: seq<Vec3>, used: set<nat>)
  {
    forall c :: Contains(c, pos, used) ==> Within(b, c)
  }

  /**
   * b is exactly the bounding box of the used vertices: it holds every
   * used vertex, lies within any box that does, and is Empty exactly when
   * no vertex is used.
   */
  ghost predicate Encloses(b: Bounds, pos: seq<Vec3>, used: set<nat>)
  {
    Covers(b, pos, used) && Least(b, pos, used)
  }

  lemma ExtendCovers(b: Bounds, pos: seq<Vec3>, used: set<nat>, v: nat)
    requires Covers(b, pos, used)
    requires v < |pos|
    ensures Covers(Extend(b, pos[v]), pos, used + {v})
  {
    var r := Extend(b, pos[v]);
    forall w | w in used + {v} && w < |pos| ensures Inside(r, pos[w]) {
      forall a ensures r.lo.At(a) <= pos[w].At(a) <= r.hi.At(a) {
        if b.Box? {
          MinMaxAt(b.lo, pos[v], a);
          MinMaxAt(b.hi, pos[v], a);
          if w != v {
            assert Inside(b, pos[w]);
          }
        }
      }
    }
  }

  lemma ExtendLeast(b: Bounds, pos: seq<Vec3>, used: set<nat>, v: nat)
    requires Least(b, pos, used)
    requires v < |pos|
    ensures Least(Extend(b, pos[v]), pos, used + {v})
  {
    var r := Extend(b, pos[v]);
    forall c | Contains(c, pos, used + {v}) ensures Within(r, c) {
      assert Contains(c, pos, used);
      assert Within(b, c);
      assert Inside(c, pos[v]);
      forall a ensures c.lo.At(a) <= r.lo.At(a) && r.hi.At(a) <= c.hi.At(a) {
        if b.Box? {
          MinMaxAt(b.lo, pos[v], a);
          MinMaxAt(b.hi, pos[v], a);
        }
      }
    }
  }

  /** One triangle keeps every used vertex inside the box. */
  lemma Extend3Covers(b: Bounds, pos: seq<Vec3>, used: set<nat>, ia: nat, ib: nat, ic: nat)
    requires ia < |pos| && ib < |pos| && ic < |pos|
    requires Covers(b, pos, used)
    ensures Covers(Extend3(b, pos[ia], pos[ib], pos[ic]), pos, used + {ia, ib, ic})
  {
    var b1, b2 := Extend(b, pos[ia]), Extend(Extend(b, pos[ia]), pos[ib]);
    ExtendCovers(b, pos, used, ia);
    ExtendCovers(b1, pos, used + {ia}, ib);
    ExtendCovers(b2, pos, used + {ia} + {ib}, ic);
    assert used + {ia} + {ib} + {ic} == used + {ia, ib, ic};
  }

  /** One triangle keeps the box the least one holding the used vertices. */
  lemma Extend3Least(b: Bounds, pos: seq<Vec3>, used: set<nat>, ia: nat, ib: nat, ic: nat)
    requires ia < |pos| && ib < |pos| && ic < |pos|
    requires Least(b, pos, used)
    ensures Least(Extend3(b, pos[ia], pos[ib], pos[ic]), pos, used + {ia, ib, ic})
  {
    var b1, b2 := Extend(b, pos[ia]), Extend(Extend(b, pos[ia]), pos[ib]);
    ExtendLeast(b, pos, used, ia);
    ExtendLeast(b1, pos, used + {ia}, ib);
    ExtendLeast(b2, pos, used + {ia} + {ib}, ic);
    assert used + {ia} + {ib} + {ic} == used + {ia, ib, ic};
  }

  lemma {:induction false} WalkCovers(pos: seq<Vec3>, index: Option<seq<nat>>, start: nat, k: nat)
    requires IndicesInRange(pos, index)
    requires start + 3 * k <= SlotCount(pos, index)
    ensures Covers(BoundsAfter(pos, index, start, k), pos, UsedAfter(pos, index, start, k))
  {
    if k > 0 {
      WalkCovers(pos, index, start, k - 1);
      CoversStep(pos, index, start, k);
    }
  }

  /** The walk's k-th triangle keeps the used vertices inside the box. */
  lemma CoversStep(pos: seq<Vec3>, index: Option<seq<nat>>, start: nat, k: nat)
    requires IndicesInRange(pos, index)
    requires 0 < k && start + 3 * k <= SlotCount(pos, index)
    requires Covers(BoundsAfter(pos, index, start, k - 1), pos, UsedAfter(pos, index, start, k - 1))
    ensures Covers(BoundsAfter(pos, index, start, k), pos, UsedAfter(pos, index, start, k))
  {
    var s := start + 3 * (k - 1);
    var ia, ib, ic := VertexAt(pos, index, s), VertexAt(pos, index, s + 1), VertexAt(pos, index, s + 2);
    var b, used := BoundsAfter(pos, index, start, k - 1), UsedAfter(pos, index, start, k - 1);
    assert BoundsAfter(pos, index, start, k) == Extend3(b, pos[ia], pos[ib], pos[ic]);
    assert UsedAfter(pos, index, start, k) == used + {ia, ib, ic};
    Extend3Covers(b, pos, used, ia, ib, ic);
  }

  lemma {:induction false} WalkLeast(pos: seq<Vec3>, index: Option<seq<nat>>, start: nat, k: nat)
    requires IndicesInRange(pos, index)
    requires start + 3 * k <= SlotCount(pos, index)
    ensures Least(BoundsAfter(pos, index, start, k), pos, UsedAfter(pos, index, start, k))
  {
    if k > 0 {
      WalkLeast(pos, index, start, k - 1);
      LeastStep(pos, index, start, k);
    } else {
      assert BoundsAfter(pos, index, start, k) == Empty;
    }
  }

  /** The walk's k-th triangle keeps the box inside every box holding the used vertices. */
  lemma LeastStep(pos: seq<Vec3>, index: Option<seq<nat>>, start: nat, k: nat)
    requires IndicesInRange(pos, index)
    requires 0 < k && start + 3 * k <= SlotCount(pos, index)
    requires Least(BoundsAfter(pos, index, start, k - 1), pos, UsedAfter(pos, index, start, k - 1))
    ensures Least(BoundsAfter(pos, index, start, k), pos, UsedAfter(pos, index, start, k))
  {
    var s := start + 3 * (k - 1);
    var ia, ib, ic := VertexAt(pos, index, s), VertexAt(pos, index, s + 1), VertexAt(pos, index, s + 2);
    var b, used := BoundsAfter(pos, index, start, k - 1), UsedAfter(pos, index, start, k - 1);
    assert BoundsAfter(pos, index, start, k) == Extend3(b, pos[ia], pos[ib], pos[ic]);
    assert UsedAfter(pos, index, start, k) == used + {ia, ib, ic};
    Extend3Least(b, pos, used, ia, ib, ic);
  }

  /** The walk's box is the bounding box of exactly the vertices it marked used. */
  lemma WalkEncloses(pos: seq<Vec3>, index: Option<seq<nat>>, start: nat, k: nat)
    requires IndicesInRange(pos, index)
    requires start + 3 * k <= SlotCount(pos, index)
    ensures Encloses(BoundsAfter(pos, index, start, k), pos, UsedAfter(pos, index, start, k))
  {
    WalkCovers(pos, index, start, k);
    WalkLeast(pos, index, start, k);
  }

  /** The walk marks only existing vertices, and its box is empty only when nothing was marked. */
  lemma WalkShape(pos: seq<Vec3>, index: Option<seq<nat>>, start: nat, k: nat)
    requires IndicesInRange(pos, index)
    requires start + 3 * k <= SlotCount(pos, index)
    ensures UsedAfter(pos, index, start, k) == {} || BoundsAfter(pos, index, start, k).Box?
    ensures forall v :: v in UsedAfter(pos, index, start, k) ==> v < |pos|
  {
    WalkCovers(pos, index, start, k);
  }

  /** The used set is exactly the vertices named by the walked index slots. */
  lemma {:induction false} WalkUsed(pos: seq<Vec3>, index: Option<seq<nat>>, start: nat, k: nat)
    requires IndicesInRange(pos, index)
    requires start + 3 * k <= SlotCount(pos, index)
    ensures forall s :: start <= s < start + 3 * k ==> VertexAt(pos, index, s) in UsedAfter(pos, index, start, k)
    ensures forall v :: v in UsedAfter(pos, index, start, k) ==>
      exists s :: start <= s < start + 3 * k && VertexAt(pos, index, s) == v
  {
    if k > 0 {
      WalkUsed(pos, index, start, k - 1);
    }
  }

  // ---------------------------------------------------------------------
  // The projection plane
  // ---------------------------------------------------------------------

  /** The plane across axis d, its two other axes in x, y, z order. */
  function PlaneAcross(d: Axis): (Axis, Axis)
  {
    match d
    case X => (Y, Z)
    case Y => (X, Z)
    case Z => (X, Y)
  }

  /** d is the first axis, in x, y, z order, at which s is largest. */
  predicate FirstLargest(s: Vec3, d: Axis)
  {
    && (forall a :: s.At(a) <= s.At(d))
    && (forall a :: Rank(a) < Rank(d) ==> s.At(a) < s.At(d))
  }

  lemma FirstLargestExists(s: Vec3)
    ensures exists d :: FirstLargest(s, d)
  {
    if s.x >= s.y && s.x >= s.z {
      assert FirstLargest(s, X);
    } else if s.y >= s.z {
      assert FirstLargest(s, Y);
    } else {
      assert FirstLargest(s, Z);
    }
  }

  lemma FirstLargestUnique(s: Vec3, d: Axis, e: Axis)
    requires FirstLargest(s, d) && FirstLargest(s, e)
    ensures d == e
  {
    assert s.At(d) == s.At(e);
    assert Rank(d) < Rank(e) ==> s.At(d) < s.At(e);
    assert Rank(e) < Rank(d) ==> s.At(e) < s.At(d);
  }

  /** The source's comparison chain on |nx|, |ny|, |nz|. */
  function DominantPlane(n: Vec3): (p: (Axis, Axis))
    ensures p.0 != p.1
  {
    PlaneByMagnitude(AbsVec(n))
  }

  /** The plane across the axis of largest magnitude: the axis left out is at least as large as both kept. */
  function PlaneByMagnitude(s: Vec3): (p: (Axis, Axis))
    ensures p.0 != p.1
    ensures forall a: Axis :: a == p.0 || a == p.1 || (s.At(a) >= s.At(p.0) && s.At(a) >= s.At(p.1))
  {
    if s.x >= s.y && s.x >= s.z then (Y, Z)
    else if s.y >= s.x && s.y >= s.z then (X, Z)
    else (X, Y)
  }

  /** The plane chosen from the normal is the one across its first dominant axis. */
  lemma DominantPlaneSpec(n: Vec3, d: Axis)
    requires FirstLargest(AbsVec(n), d)
    ensures DominantPlane(n) == PlaneAcross(d)
  {
    var s := AbsVec(n);
    assert s.At(X) == Abs(n.x) && s.At(Y) == Abs(n.y) && s.At(Z) == Abs(n.z);
    assert s.At(X) <= s.At(d) && s.At(Y) <= s.At(d) && s.At(Z) <= s.At(d);
  }

  lemma AbsScale(r: real, k: real)
    requires k > 0.0
    ensures Abs(k * r) == k * Abs(r)
  {
    if r < 0.0 {
      assert k * r < 0.0;
    } else {
      assert k * r >= 0.0;
    }
  }

  lemma ScaleKeepsOrder(a: real, b: real, k: real, ma: real, mb: real)
    requires k > 0.0 && ma == k * a && mb == k * b
    ensures ma >= mb <==> a >= b
  {
    assert ma - mb == k * (a - b);
    if a >= b {
      assert k * (a - b) >= 0.0;
    } else {
      assert k * (a - b) < 0.0;
    }
  }

  /**
   * Scaling the normal by a positive factor (normalising it, say) does not
   * change the plane, so comparing the un-normalised sum is the same.
   */
  lemma DominantPlaneScaleInvariant(n: Vec3, k: real)
    requires k > 0.0
    ensures DominantPlane(Scale(n, k)) == DominantPlane(n)
  {
    AbsVecScale(n, k);
    PlaneByMagnitudeScale(AbsVec(n), k);
  }

  lemma AbsVecScale(n: Vec3, k: real)
    requires k > 0.0
    ensures AbsVec(Scale(n, k)) == Scale(AbsVec(n), k)
  {
    AbsScale(n.x, k);
    AbsScale(n.y, k);
    AbsScale(n.z, k);
  }

  lemma PlaneByMagnitudeScale(s: Vec3, k: real)
    requires k > 0.0
    ensures PlaneByMagnitude(Scale(s, k)) == PlaneByMagnitude(s)
  {
    var t := Scale(s, k);
    SameOrder(s.x, s.y, s.z, t.x, t.y, t.z, k);
  }

  lemma SameOrder(ax: real, ay: real, az: real, mx: real, my: real, mz: real, k: real)
    requires k > 0.0 && mx == k * ax && my == k * ay && mz == k * az
    ensures mx >= my <==> ax >= ay
    ensures mx >= mz <==> ax >= az
    ensures my >= mx <==> ay >= ax
    ensures my >= mz <==> ay >= az
  {
    ScaleKeepsOrder(ax, ay, k, mx, my);
    ScaleKeepsOrder(ax, az, k, mx, mz);
    ScaleKeepsOrder(ay, ax, k, my, mx);
    ScaleKeepsOrder(ay, az, k, my, mz);
  }

  /** Stable insertion of a into a list sorted by descending span (comparator `b.v - a.v`). */
  function InsertBySpan(a: Axis, sorted: seq<Axis>, span: Vec3): (r: seq<Axis>)
    ensures |r| == |sorted| + 1
  {
    if |sorted| == 0 || span.At(a) >= span.At(sorted[0]) then [a] + sorted
    else [sorted[0]] + InsertBySpan(a, sorted[1..], span)
  }

  /** A stable sort of axes by descending span. */
  function SortBySpan(axes: seq<Axis>, span: Vec3): (r: seq<Axis>)
    ensures |r| == |axes|
  {
    if |axes| == 0 then []
    else InsertBySpan(axes[0], SortBySpan(axes[1..], span), span)
  }

  /** Insertion adds exactly a. */
  lemma {:induction false} InsertBySpanPermutes(a: Axis, sorted: seq<Axis>, span: Vec3)
    ensures multiset(InsertBySpan(a, sorted, span)) == multiset(sorted) + multiset{a}
  {
    if |sorted| > 0 && span.At(a) < span.At(sorted[0]) {
      InsertBySpanPermutes(a, sorted[1..], span);
      assert sorted == [sorted[0]] + sorted[1..];
    }
  }

  /** The sort returns a permutation of its input. */
  lemma {:induction false} SortBySpanPermutes(axes: seq<Axis>, span: Vec3)
    ensures multiset(SortBySpan(axes, span)) == multiset(axes)
  {
    if |axes| > 0 {
      var rest := SortBySpan(axes[1..], span);
      SortBySpanPermutes(axes[1..], span);
      InsertBySpanPermutes(axes[0], rest, span);
      assert SortBySpan(axes, span) == InsertBySpan(axes[0], rest, span);
      assert multiset(axes) == multiset(axes[1..]) + multiset{axes[0]} by {
        assert axes == [axes[0]] + axes[1..];
      }
    }
  }

  predicate SortedBySpan(r: seq<Axis>, span: Vec3)
  {
    forall i, j :: 0 <= i < j < |r| ==> span.At(r[i]) >= span.At(r[j])
  }

  lemma {:induction false} InsertBySpanSorted(a: Axis, sorted: seq<Axis>, span: Vec3)
    requires SortedBySpan(sorted, span)
    ensures SortedBySpan(InsertBySpan(a, sorted, span), span)
  {
    if |sorted| > 0 && span.At(a) < span.At(sorted[0]) {
      var top := span.At(sorted[0]);
      InsertBySpanSorted(a, sorted[1..], span);
      InsertBySpanBounded(a, sorted[1..], span, top);
      var r, rest := InsertBySpan(a, sorted, span), InsertBySpan(a, sorted[1..], span);
      assert r == [sorted[0]] + rest;
      forall i, j | 0 <= i < j < |r| ensures span.At(r[i]) >= span.At(r[j]) {
        assert r[j] == rest[j - 1];
        if i > 0 {
          assert r[i] == rest[i - 1];
        }
      }
    }
  }

  /** Insertion brings in no span above a common bound of a and the list. */
  lemma {:induction false} InsertBySpanBounded(a: Axis, sorted: seq<Axis>, span: Vec3, top: real)
    requires span.At(a) <= top
    requires forall i :: 0 <= i < |sorted| ==> span.At(sorted[i]) <= top
    ensures forall j :: 0 <= j < |InsertBySpan(a, sorted, span)| ==> span.At(InsertBySpan(a, sorted, span)[j]) <= top
  {
    if |sorted| > 0 && span.At(a) < span.At(sorted[0]) {
      InsertBySpanBounded(a, sorted[1..], span, top);
      assert InsertBySpan(a, sorted, span) == [sorted[0]] + InsertBySpan(a, sorted[1..], span);
    }
  }

  /** The sort returns the axes, largest span first. */
  lemma {:induction false} SortBySpanSorted(axes: seq<Axis>, span: Vec3)
    ensures SortedBySpan(SortBySpan(axes, span), span)
  {
    if |axes| > 0 {
      SortBySpanSorted(axes[1..], span);
      InsertBySpanSorted(axes[0], SortBySpan(axes[1..], span), span);
    }
  }

  /**
   * The fallback plane: the first two entries of [x, y, z] after the
   * stable sort by descending span, written out case by case.
   */
  function LargestSpanPlane(span: Vec3): (p: (Axis, Axis))
    ensures p.0 != p.1
    ensures forall a: Axis :: span.At(p.0) >= span.At(a)
    ensures forall a: Axis :: a != p.0 ==> span.At(p.1) >= span.At(a)
  {
    if span.y >= span.z then
      if span.x >= span.y then (X, Y)
      else if span.x >= span.z then (Y, X)
      else (Y, Z)
    else
      if span.x >= span.z then (X, Z)
      else if span.x >= span.y then (Z, X)
      else (Z, Y)
  }

  /** The case table agrees with the stable sort of [x, y, z] by descending span. */
  lemma LargestSpanPlaneSorts(span: Vec3)
    ensures var s := SortBySpan([X, Y, Z], span);
      LargestSpanPlane(span) == (s[0], s[1])
  {
    SortXYZ(span);
  }

  /**
   * The fallback picks the first axis of largest span, then the first
   * axis of largest span among the other two: ties keep x, y, z order.
   */
  lemma LargestSpanPlaneSpec(span: Vec3)
    ensures var (u, v) := LargestSpanPlane(span);
      && FirstLargest(span, u)
      && v != u
      && (forall a :: a != u ==> span.At(a) <= span.At(v))
      && (forall a :: a != u && Rank(a) < Rank(v) ==> span.At(a) < span.At(v))
  {
    if span.y >= span.z {
      if span.x >= span.y {
        PlaneFromOrder(span, X, Y, Z);
      } else if span.x >= span.z {
        PlaneFromOrder(span, Y, X, Z);
      } else {
        PlaneFromOrder(span, Y, Z, X);
      }
    } else {
      if span.x >= span.z {
        PlaneFromOrder(span, X, Z, Y);
      } else if span.x >= span.y {
        PlaneFromOrder(span, Z, X, Y);
      } else {
        PlaneFromOrder(span, Z, Y, X);
      }
    }
  }

  /** Three distinct axes in descending span, each tie in x, y, z order, give the plane (u, v). */
  lemma PlaneFromOrder(span: Vec3, u: Axis, v: Axis, w: Axis)
    requires u != v && v != w && u != w
    requires span.At(u) >= span.At(v) >= span.At(w)
    requires span.At(u) == span.At(v) ==> Rank(u) < Rank(v)
    requires span.At(v) == span.At(w) ==> Rank(v) < Rank(w)
    requires span.At(u) == span.At(w) ==> Rank(u) < Rank(w)
    ensures FirstLargest(span, u)
    ensures forall a :: a != u ==> span.At(a) <= span.At(v)
    ensures forall a :: a != u && Rank(a) < Rank(v) ==> span.At(a) < span.At(v)
  {
  }

  /** The sort of [x, y, z] spelled out case by case. */
  lemma SortXYZ(span: Vec3)
    ensures var s := SortBySpan([X, Y, Z], span);
      if span.y >= span.z then
        if span.x >= span.y then s == [X, Y, Z]
        else if span.x >= span.z then s == [Y, X, Z]
        else s == [Y, Z, X]
      else
        if span.x >= span.z then s == [X, Z, Y]
        else if span.x >= span.y then s == [Z, X, Y]
        else s == [Z, Y, X]
  {
    SortYZ(span);
    assert [X, Y, Z][1..] == [Y, Z];
    assert SortBySpan([X, Y, Z], span) == InsertBySpan(X, SortBySpan([Y, Z], span), span);
    if span.y >= span.z {
      InsertIntoPair(X, Y, Z, span);
    } else {
      InsertIntoPair(X, Z, Y, span);
    }
  }

  /** Stable insertion of a into the two-element list [p, q]. */
  lemma InsertIntoPair(a: Axis, p: Axis, q: Axis, span: Vec3)
    ensures InsertBySpan(a, [p, q], span) ==
      if span.At(a) >= span.At(p) then [a, p, q]
      else if span.At(a) >= span.At(q) then [p, a, q]
      else [p, q, a]
  {
    assert [p, q][1..] == [q];
    InsertIntoSingle(a, q, span);
    if span.At(a) < span.At(p) {
      assert InsertBySpan(a, [p, q], span) == [p] + InsertBySpan(a, [q], span);
    }
  }

  lemma InsertIntoSingle(a: Axis, q: Axis, span: Vec3)
    ensures InsertBySpan(a, [q], span) == if span.At(a) >= span.At(q) then [a, q] else [q, a]
  {
    assert [q][1..] == [];
    assert InsertBySpan(a, [], span) == [a];
  }

  lemma SortYZ(span: Vec3)
    ensures SortBySpan([Y, Z], span) == if span.y >= span.z then [Y, Z] else [Z, Y]
  {
    assert [Y, Z][1..] == [Z];
    assert [Z][1..] == [];
    assert SortBySpan([Z], span) == InsertBySpan(Z, [], span) == [Z];
    InsertIntoSingle(Y, Z, span);
  }

  /**
   * The plane of the walk: across the dominant normal axis when the normal
   * sum is not negligible, else the two largest extents. With no vertex at
   * all every extent is -Infinity, the comparator yields NaN, the sort
   * treats every pair as equal and keeps x, y, z: the plane is (x, y).
   */
  function ProjectionPlane(w: Walk): (p: (Axis, Axis))
    ensures p.0 != p.1
  {
    if LengthSq(w.normalSum) > NormalEpsilon then DominantPlane(w.normalSum)
    else
      match w.bounds
      case Empty => (X, Y)
      case Box(lo, hi) => LargestSpanPlane(Sub(hi, lo))
  }

  // ---------------------------------------------------------------------
  // Spans, aspect and the per-vertex UV
  // ---------------------------------------------------------------------

  /** `Math.max(1e-6, max[a] - min[a])` (an empty box has extent -Infinity). */
  function ClampedSpan(b: Bounds, a: Axis): (s: real)
    ensures s >= SpanEpsilon
    ensures b.Box? && b.hi.At(a) - b.lo.At(a) >= SpanEpsilon ==> s == b.hi.At(a) - b.lo.At(a)
    ensures b.Box? && b.hi.At(a) - b.lo.At(a) < SpanEpsilon ==> s == SpanEpsilon
    ensures b.Empty? ==> s == SpanEpsilon
  {
    match b
    case Empty => SpanEpsilon
    case Box(lo, hi) => Max(SpanEpsilon, hi.At(a) - lo.At(a))
  }

  /** `aspect = uSpan / vSpan`: always positive, as both spans are clamped. */
  function Aspect(b: Bounds, u: Axis, v: Axis): (r: real)
    ensures r > 0.0
    ensures b.Empty? ==> r == 1.0
  {
    ClampedSpan(b, u) / ClampedSpan(b, v)
  }

  /** (U, V) of a vertex: U along u from the box's low face, V along v, flipped. */
  function ProjectVertex(p: Vec3, b: Bounds, u: Axis, v: Axis): (real, real)
    requires b.Box?
  {
    ((p.At(u) - b.lo.At(u)) / ClampedSpan(b, u),
     1.0 - (p.At(v) - b.lo.At(v)) / ClampedSpan(b, v))
  }

  lemma FractionInUnit(num: real, den: real)
    requires den > 0.0
    requires 0.0 <= num <= den
    ensures 0.0 <= num / den <= 1.0
  {
  }

  /** A coordinate inside the box lands in [0, 1] after the clamped scaling. */
  lemma ScaledCoordInUnit(b: Bounds, p: Vec3, a: Axis)
    requires Inside(b, p)
    ensures 0.0 <= (p.At(a) - b.lo.At(a)) / ClampedSpan(b, a) <= 1.0
  {
    FractionInUnit(p.At(a) - b.lo.At(a), ClampedSpan(b, a));
  }

  /** Every vertex inside the box gets U and V in [0, 1]. */
  lemma ProjectVertexInUnitSquare(p: Vec3, b: Bounds, u: Axis, v: Axis)
    requires Inside(b, p)
    ensures 0.0 <= ProjectVertex(p, b, u, v).0 <= 1.0
    ensures 0.0 <= ProjectVertex(p, b, u, v).1 <= 1.0
  {
    ScaledCoordInUnit(b, p, u);
    ScaledCoordInUnit(b, p, v);
  }

  /**
   * The V flip: the low face along v maps to V = 1, the high face to V = 0
   * (once the extent is not clamped); U runs the other way, 0 to 1.
   */
  lemma ProjectVertexFaces(p: Vec3, b: Bounds, u: Axis, v: Axis)
    requires b.Box?
    ensures p.At(v) == b.lo.At(v) ==> ProjectVertex(p, b, u, v).1 == 1.0
    ensures p.At(v) == b.hi.At(v) && b.hi.At(v) - b.lo.At(v) >= SpanEpsilon ==> ProjectVertex(p, b, u, v).1 == 0.0
    ensures p.At(u) == b.lo.At(u) ==> ProjectVertex(p, b, u, v).0 == 0.0
    ensures p.At(u) == b.hi.At(u) && b.hi.At(u) - b.lo.At(u) >= SpanEpsilon ==> ProjectVertex(p, b, u, v).0 == 1.0
  {
    FaceFraction(p.At(u) - b.lo.At(u), ClampedSpan(b, u));
    FaceFraction(p.At(v) - b.lo.At(v), ClampedSpan(b, v));
  }

  lemma FaceFraction(num: real, den: real)
    requires den > 0.0
    ensures num == 0.0 ==> num / den == 0.0
    ensures num == den ==> num / den == 1.0
  {
  }

  // ---------------------------------------------------------------------
  // The whole projection
  // ---------------------------------------------------------------------

  /** What the projector settles on for one geometry and material index. */
  datatype Projection = Projection(group: Group, walk: Walk, u: Axis, v: Axis, aspect: real)

  function Project(pos: seq<Vec3>, index: Option<seq<nat>>, groups: seq<Group>, m: int): (pr: Projection)
    requires WellFormed(pos, index, groups)
    ensures pr.walk.used == {} || pr.walk.bounds.Box?
    ensures pr.aspect > 0.0
    ensures pr.u != pr.v
  {
    var g := SelectGroup(pos, index, groups, m);
    var w := WalkTriangles(pos, index, g.start, TriangleCount(g));
    WalkShape(pos, index, g.start, TriangleCount(g));
    var (u, v) := ProjectionPlane(w);
    Projection(g, w, u, v, Aspect(w.bounds, u, v))
  }

  /** The uv buffer after the projection: used vertices get their (U, V), all other entries stay. */
  function ProjectedUV(prior: seq<real>, pos: seq<Vec3>, used: set<nat>, b: Bounds, u: Axis, v: Axis): (r: seq<real>)
    requires used == {} || b.Box?
    requires |prior| == 2 * |pos|
    ensures |r| == |prior|
  {
    seq(|prior|, k requires 0 <= k < |prior| =>
      if k / 2 in used then
        (if k % 2 == 0 then ProjectVertex(pos[k / 2], b, u, v).0 else ProjectVertex(pos[k / 2], b, u, v).1)
      else prior[k])
  }

  /** Entries 2w and 2w + 1 of the projected buffer are vertex w's. */
  lemma ProjectedUVAt(prior: seq<real>, pos: seq<Vec3>, used: set<nat>, b: Bounds, u: Axis, v: Axis, w: nat)
    requires used == {} || b.Box?
    requires |prior| == 2 * |pos|
    requires w < |pos|
    ensures var r := ProjectedUV(prior, pos, used, b, u, v);
      && (w in used ==> r[2 * w] == ProjectVertex(pos[w], b, u, v).0 && r[2 * w + 1] == ProjectVertex(pos[w], b, u, v).1)
      && (w !in used ==> r[2 * w] == prior[2 * w] && r[2 * w + 1] == prior[2 * w + 1])
  {
    assert (2 * w) / 2 == w && (2 * w) % 2 == 0;
    assert (2 * w + 1) / 2 == w && (2 * w + 1) % 2 == 1;
  }

  /** Writing one more vertex's (U, V) extends the projected buffer by that vertex. */
  lemma ProjectedUVAdd(prior: seq<real>, pos: seq<Vec3>, done: set<nat>, b: Bounds, u: Axis, v: Axis, w: nat)
    requires b.Box?
    requires |prior| == 2 * |pos|
    requires w < |pos|
    ensures var uvw := ProjectVertex(pos[w], b, u, v);
      ProjectedUV(prior, pos, done + {w}, b, u, v) == ProjectedUV(prior, pos, done, b, u, v)[2 * w := uvw.0][2 * w + 1 := uvw.1]
  {
    var uvw := ProjectVertex(pos[w], b, u, v);
    var r, r' := ProjectedUV(prior, pos, done, b, u, v), ProjectedUV(prior, pos, done + {w}, b, u, v);
    var t := r[2 * w := uvw.0][2 * w + 1 := uvw.1];
    forall k | 0 <= k < |prior| ensures r'[k] == t[k] {
      if k / 2 == w {
        assert k == 2 * w || k == 2 * w + 1;
      } else {
        assert k != 2 * w && k != 2 * w + 1;
      }
    }
  }

  /** Vertices outside the used set keep both their entries. */
  lemma ProjectedUVKeeps(prior: seq<real>, pos: seq<Vec3>, used: set<nat>, b: Bounds, u: Axis, v: Axis)
    requires used == {} || b.Box?
    requires |prior| == 2 * |pos|
    ensures var r := ProjectedUV(prior, pos, used, b, u, v);
      forall w :: 0 <= w < |pos| && w !in used ==> r[2 * w] == prior[2 * w] && r[2 * w + 1] == prior[2 * w + 1]
  {
    var r := ProjectedUV(prior, pos, used, b, u, v);
    forall w | 0 <= w < |pos| && w !in used
      ensures r[2 * w] == prior[2 * w] && r[2 * w + 1] == prior[2 * w + 1]
    {
      ProjectedUVAt(prior, pos, used, b, u, v, w);
    }
  }

  /** Vertices of the used set inside the box get U and V in [0, 1]. */
  lemma ProjectedUVInUnit(prior: seq<real>, pos: seq<Vec3>, used: set<nat>, b: Bounds, u: Axis, v: Axis)
    requires Covers(b, pos, used)
    requires |prior| == 2 * |pos|
    ensures var r := ProjectedUV(prior, pos, used, b, u, v);
      forall w :: 0 <= w < |pos| && w in used ==> 0.0 <= r[2 * w] <= 1.0 && 0.0 <= r[2 * w + 1] <= 1.0
  {
    var r := ProjectedUV(prior, pos, used, b, u, v);
    forall w | 0 <= w < |pos| && w in used
      ensures 0.0 <= r[2 * w] <= 1.0 && 0.0 <= r[2 * w + 1] <= 1.0
    {
      assert Inside(b, pos[w]);
      ProjectVertexInUnitSquare(pos[w], b, u, v);
      ProjectedUVAt(prior, pos, used, b, u, v, w);
    }
  }

  /**
   * The projector's promise about the uv buffer, whatever plane it picks:
   * the vertices the group's triangles reference (WalkUsed says which) get
   * U and V in [0, 1]; every other vertex keeps its previous UV.
   */
  lemma ProjectedUVSpec(pos: seq<Vec3>, index: Option<seq<nat>>, g: Group, prior: seq<real>, u: Axis, v: Axis)
    requires IndicesInRange(pos, index)
    requires GroupInRange(g, SlotCount(pos, index))
    requires |prior| == 2 * |pos|
    ensures var k := TriangleCount(g);
      var used, b := UsedAfter(pos, index, g.start, k), BoundsAfter(pos, index, g.start, k);
      var r := ProjectedUV(prior, pos, used, b, u, v);
      && (forall w :: 0 <= w < |pos| && w !in used ==> r[2 * w] == prior[2 * w] && r[2 * w + 1] == prior[2 * w + 1])
      && (forall w :: 0 <= w < |pos| && w in used ==> 0.0 <= r[2 * w] <= 1.0 && 0.0 <= r[2 * w + 1] <= 1.0)
  {
    var k := TriangleCount(g);
    var used, b := UsedAfter(pos, index, g.start, k), BoundsAfter(pos, index, g.start, k);
    WalkCovers(pos, index, g.start, k);
    ProjectedUVKeeps(prior, pos, used, b, u, v);
    ProjectedUVInUnit(prior, pos, used, b, u, v);
  }

  /** The `used.forEach` write-back: every used vertex gets its (U, V), in place. */
  method WriteProjectedUVs(uv: array<real>, pos: seq<Vec3>, used: set<nat>, b: Bounds, u: Axis, v: Axis)
    requires used == {} || b.Box?
    requires uv.Length == 2 * |pos|
    requires forall w :: w in used ==> w < |pos|
    modifies uv
    ensures uv[..] == ProjectedUV(old(uv[..]), pos, used, b, u, v)
  {
    ghost var prior := uv[..];
    var remaining := used;
    assert uv[..] == ProjectedUV(prior, pos, {}, b, u, v);
    while remaining != {}
      invariant remaining <= used
      invariant uv[..] == ProjectedUV(prior, pos, used - remaining, b, u, v)
      decreases remaining
    {
      var vi :| vi in remaining;
      var uvw := ProjectVertex(pos[vi], b, u, v);
      ProjectedUVAdd(prior, pos, used - remaining, b, u, v, vi);
      assert used - (remaining - {vi}) == (used - remaining) + {vi};
      uv[2 * vi] := uvw.0;
      uv[2 * vi + 1] := uvw.1;
      remaining := remaining - {vi};
    }
  }

  /** One more triangle: WalkTriangles at k + 1 is the walk at k extended by triangle k. */
  lemma WalkStep(pos: seq<Vec3>, index: Option<seq<nat>>, start: nat, k: nat)
    requires IndicesInRange(pos, index)
    requires start + 3 * (k + 1) <= SlotCount(pos, index)
    ensures var w := WalkTriangles(pos, index, start, k);
            var s := start + 3 * k;
            var ia, ib, ic := VertexAt(pos, index, s), VertexAt(pos, index, s + 1), VertexAt(pos, index, s + 2);
            WalkTriangles(pos, index, start, k + 1)
              == Walk(w.used + {ia, ib, ic}, Extend3(w.bounds, pos[ia], pos[ib], pos[ic]),
                      Add(w.normalSum, TriangleNormal(pos[ia], pos[ib], pos[ic])))
  {
  }

  /** The walk as a loop, proved to accumulate what WalkTriangles describes. */
  method WalkGroup(pos: seq<Vec3>, index: Option<seq<nat>>, g: Group) returns (w: Walk)
    requires IndicesInRange(pos, index)
    requires GroupInRange(g, SlotCount(pos, index))
    ensures w == WalkTriangles(pos, index, g.start, TriangleCount(g))
  {
    var used: set<nat> := {};
    var bounds := Empty;
    var nSum := Vec3(0.0, 0.0, 0.0);
    var i := g.start;
    var end := g.start + g.count;
    ghost var k := 0;
    while i < end
      invariant i == g.start + 3 * k
      invariant k <= TriangleCount(g)
      invariant Walk(used, bounds, nSum) == WalkTriangles(pos, index, g.start, k)
    {
      WalkStep(pos, index, g.start, k);
      var ia, ib, ic := VertexAt(pos, index, i), VertexAt(pos, index, i + 1), VertexAt(pos, index, i + 2);
      used := used + {ia, ib, ic};
      var v0, v1, v2 := pos[ia], pos[ib], pos[ic];
      bounds := Extend3(bounds, v0, v1, v2);
      nSum := Add(nSum, TriangleNormal(v0, v1, v2));
      i := i + 3;
      k := k + 1;
    }
    w := Walk(used, bounds, nSum);
  }

  /**
   * The projector up to the write-back: the group, its walk, the plane and
   * the aspect, exactly as Project describes them.
   */
  method PlanProjection(pos: seq<Vec3>, index: Option<seq<nat>>, groups: seq<Group>, m: int)
    returns (w: Walk, u: Axis, v: Axis, aspect: real)
    requires WellFormed(pos, index, groups)
    ensures Project(pos, index, groups, m) == Projection(SelectGroup(pos, index, groups, m), w, u, v, aspect)
    ensures w.used == {} || w.bounds.Box?
    ensures forall x :: x in w.used ==> x < |pos|
  {
    var g := SelectGroup(pos, index, groups, m);
    w := WalkGroup(pos, index, g);
    WalkShape(pos, index, g.start, TriangleCount(g));
    var plane := ProjectionPlane(w);
    u, v := plane.0, plane.1;
    var uSpan, vSpan := ClampedSpan(w.bounds, u), ClampedSpan(w.bounds, v);
    aspect := uSpan / vSpan;
  }

  /**
   * A mesh geometry: its position buffer, optional index buffer and draw
   * groups, and the uv attribute the projector writes in place (null when
   * the geometry has none yet).
   */
  class BufferGeometry {
    const position: Option<seq<Vec3>>
    const index: Option<seq<nat>>
    const groups: seq<Group>
    var uv: array?<real>

    ghost predicate Valid()
      reads this
    {
      position.Some? ==>
        && WellFormed(position.value, index, groups)
        && (uv != null ==> uv.Length == 2 * |position.value|)
    }

    constructor (position: Option<seq<Vec3>>, index: Option<seq<nat>>, groups: seq<Group>, uv: array?<real>)
      requires position.Some? ==> WellFormed(position.value, index, groups)
      requires position.Some? && uv != null ==> uv.Length == 2 * |position.value|
      ensures Valid()
      ensures this.position == position && this.index == index && this.groups == groups && this.uv == uv
    {
      this.position, this.index, this.groups, this.uv := position, index, groups, uv;
    }

    /** The uv contents the projector starts from: the attribute's, or the zeros of a new one. */
    ghost function PriorUV(): (s: seq<real>)
      reads this, uv
      requires Valid() && position.Some?
      ensures |s| == 2 * |position.value|
    {
      if uv == null then seq(2 * |position.value|, _ => 0.0) else uv[..]
    }

    /** A geometry without a uv attribute gets a zero-filled one, two entries per vertex. */
    method EnsureUVAttribute()
      requires Valid() && position.Some?
      modifies this
      ensures Valid()
      ensures uv != null && uv[..] == old(PriorUV())
      ensures old(uv) != null ==> uv == old(uv)
      ensures old(uv) == null ==> fresh(uv)
    {
      if uv == null {
        uv := new real[2 * |position.value|](_ => 0.0);
      }
    }

    /** The write-back into the geometry's own uv attribute. */
    method WriteBack(w: Walk, u: Axis, v: Axis)
      requires Valid() && position.Some? && uv != null
      requires w.used == {} || w.bounds.Box?
      requires forall x :: x in w.used ==> x < |position.value|
      modifies uv
      ensures Valid() && uv == old(uv)
      ensures uv[..] == ProjectedUV(old(uv[..]), position.value, w.used, w.bounds, u, v)
    {
      WriteProjectedUVs(uv, position.value, w.used, w.bounds, u, v);
    }

    /**
     * `setUVsForMaterialGroupAndGetAspect`: without a position buffer,
     * returns 1 and writes nothing. Otherwise returns the projection's
     * aspect and leaves in the uv attribute (created zero-filled if absent)
     * exactly the buffer ProjectedUV describes.
     */
    method SetUVsForMaterialGroupAndGetAspect(materialIndex: int) returns (aspect: real)
      requires Valid()
      modifies this, uv
      ensures Valid()
      ensures position.None? ==> aspect == 1.0 && uv == old(uv) && (uv != null ==> uv[..] == old(uv[..]))
      ensures position.Some? ==>
        var pr := Project(position.value, index, groups, materialIndex);
        && aspect == pr.aspect
        && uv != null
        && (old(uv) != null ==> uv == old(uv))
        && (old(uv) == null ==> fresh(uv))
        && uv[..] == ProjectedUV(old(PriorUV()), position.value, pr.walk.used, pr.walk.bounds, pr.u, pr.v)
    {
      if position.None? {
        return 1.0;
      }
      ghost var prior := PriorUV();
      var w, u, v;
      w, u, v, aspect := PlanProjection(position.value, index, groups, materialIndex);
      assert PriorUV() == prior;
      EnsureUVAttribute();
      WriteBack(w, u, v);
    }
  }
}
