/**
 * `GeometryExtensions`: the centroid of an element, combined from the centroids and volumes
 * of its solids. Coordinates and volumes are reals, so the model has no rounding.
 */
module GeometryExtensions {
  import opened Wrappers
  import opened Host

  /** A `CentroidVolume`; a fresh one has the zero centroid and volume 0. */
  datatype CentroidVolume = CentroidVolume(centroid: XYZ, volume: real)

  const Origin: XYZ := XYZ(0.0, 0.0, 0.0)
  const Default: CentroidVolume := CentroidVolume(Origin, 0.0)

  // `XYZ` arithmetic: `+`, scalar `*` and `/`.

  function Plus(p: XYZ, q: XYZ): XYZ
  {
    XYZ(p.x + q.x, p.y + q.y, p.z + q.z)
  }

  function Times(k: real, p: XYZ): XYZ
  {
    XYZ(k * p.x, k * p.y, k * p.z)
  }

  function DividedBy(p: XYZ, k: real): XYZ
    requires k != 0.0
  {
    XYZ(p.x / k, p.y / k, p.z / k)
  }

  /** `obj as Solid`. */
  function AsSolid(obj: GeometryObject): Option<Solid>
  {
    if obj.SolidObject? then Some(obj.solid) else None
  }

  /** `obj as GeometryInstance`. */
  function AsInstance(obj: GeometryObject): (r: Option<GeometryObject>)
    ensures r.Some? ==> r.value.InstanceObject?
  {
    if obj.InstanceObject? then Some(obj) else None
  }

  /** The acceptance rule of `TryGetCentroidVolume`: a partial exists exactly for a non-null
      solid with a face that is valid for tessellation and whose centroid can be computed;
      it is that centroid with the solid's volume. */
  function TryGetCentroidVolume(s: Option<Solid>): (r: Option<CentroidVolume>)
    ensures r.Some? <==>
      s.Some? && 0 < s.value.faceCount && s.value.validForTessellation && s.value.centroid.Some?
    ensures r.Some? ==> r.value.centroid == s.value.centroid.value && r.value.volume == s.value.volume
  {
    match s
    case None => None
    case Some(solid) =>
      if 0 < solid.faceCount && solid.validForTessellation then
        match solid.centroid
        case None => None   // `ComputeCentroid` threw
        case Some(c) => Some(CentroidVolume(c, solid.volume))
      else None
  }

  /** Whether `obj` is a solid that contributes a partial. */
  predicate Contributes(obj: GeometryObject)
  {
    TryGetCentroidVolume(AsSolid(obj)).Some?
  }

  /** The partials of the contributing objects, in order: at most one per object. */
  function Partials(objs: seq<GeometryObject>): (r: seq<CentroidVolume>)
    ensures |r| <= |objs|
  {
    if |objs| == 0 then []
    else
      var rest := Partials(objs[..|objs| - 1]);
      match TryGetCentroidVolume(AsSolid(objs[|objs| - 1]))
      case None => rest
      case Some(cv) => rest + [cv]
  }

  /** Each partial is the partial of a solid among `objs` (non-solid objects never
      contribute), and there are none when no object contributes. */
  lemma {:induction false} PartialsOfSolids(objs: seq<GeometryObject>)
    ensures forall p :: p in Partials(objs) ==>
      exists o :: o in objs && o.SolidObject? && TryGetCentroidVolume(Some(o.solid)) == Some(p)
    ensures (forall o :: o in objs ==> !Contributes(o)) ==> Partials(objs) == []
  {
    if |objs| > 0 {
      var front := objs[..|objs| - 1];
      PartialsOfSolids(front);
      assert forall o :: o in front ==> o in objs;
    }
  }

  /** The `inst` variable after the first walk: the last contributing object `as
      GeometryInstance`, or null if none contributed. */
  function LastInstance(objs: seq<GeometryObject>): (r: Option<GeometryObject>)
    ensures r.Some? ==> r.value.InstanceObject?
  {
    if |objs| == 0 then None
    else
      var last := objs[|objs| - 1];
      if Contributes(last) then AsInstance(last) else LastInstance(objs[..|objs| - 1])
  }

  /** The partials `TryGetCentroid` combines: those of the direct children, or, when there are
      none and `inst` was set, those of the instance's symbol geometry. */
  function Gathered(objs: seq<GeometryObject>): seq<CentroidVolume>
  {
    var direct := Partials(objs);
    var inst := LastInstance(objs);
    if |direct| == 0 && inst.Some? then Partials(inst.value.symbolGeometry) else direct
  }

  function SumCentroids(ps: seq<CentroidVolume>): XYZ
  {
    if |ps| == 0 then Origin else Plus(SumCentroids(ps[..|ps| - 1]), ps[|ps| - 1].centroid)
  }

  function SumWeighted(ps: seq<CentroidVolume>): XYZ
  {
    if |ps| == 0 then Origin
    else Plus(SumWeighted(ps[..|ps| - 1]), Times(ps[|ps| - 1].volume, ps[|ps| - 1].centroid))
  }

  function SumVolumes(ps: seq<CentroidVolume>): real
  {
    if |ps| == 0 then 0.0 else SumVolumes(ps[..|ps| - 1]) + ps[|ps| - 1].volume
  }

  predicate HasZeroVolume(ps: seq<CentroidVolume>)
  {
    exists i :: 0 <= i < |ps| && ps[i].volume == 0.0
  }

  /** The weighted rule's divisor, `n * ΣV`, or `n` when `ΣV` is 0. */
  function Divisor(ps: seq<CentroidVolume>): (r: real)
    requires |ps| > 0
    ensures r != 0.0
  {
    var v := SumVolumes(ps);
    (|ps| as real) * (if v == 0.0 then 1.0 else v)
  }

  /** The combination rule: no partials give the default; a partial of volume 0 makes the
      centroid the plain mean with volume 0; otherwise the centroid is the volume-weighted sum
      divided by `n * ΣV` (by `n` when `ΣV` is 0) and the volume is `ΣV`. */
  function Combined(ps: seq<CentroidVolume>): CentroidVolume
  {
    var n := |ps| as real;
    if |ps| == 0 then Default
    else if HasZeroVolume(ps) then CentroidVolume(DividedBy(SumCentroids(ps), n), 0.0)
    else CentroidVolume(DividedBy(SumWeighted(ps), Divisor(ps)), SumVolumes(ps))
  }

  /** The centroid `TryGetCentroid` yields for `e`, null when the element has no geometry. */
  function CentroidOf(e: Element): Option<CentroidVolume>
  {
    if e.geometry.None? then None else Some(Combined(Gathered(e.geometry.value)))
  }

  /** The walk over one more object. */
  lemma WalkStep(objs: seq<GeometryObject>, i: nat)
    requires i < |objs|
    ensures var cv := TryGetCentroidVolume(AsSolid(objs[i]));
      Partials(objs[..i + 1]) == (if cv.Some? then Partials(objs[..i]) + [cv.value] else Partials(objs[..i]))
      && LastInstance(objs[..i + 1]) == (if cv.Some? then AsInstance(objs[i]) else LastInstance(objs[..i]))
  {
    assert objs[..i + 1][..i] == objs[..i];
  }

  /** The walk over a geometry list: the partials of its contributing objects, and `inst`,
      set from each contributing object `as GeometryInstance`. */
  method CollectPartials(objs: seq<GeometryObject>) returns (a: seq<CentroidVolume>, inst: Option<GeometryObject>)
    ensures a == Partials(objs) && inst == LastInstance(objs)
  {
    a, inst := [], None;
    var i := 0;
    while i < |objs|
      invariant 0 <= i <= |objs|
      invariant a == Partials(objs[..i]) && inst == LastInstance(objs[..i])
    {
      WalkStep(objs, i);
      var obj := objs[i];
      var cv := TryGetCentroidVolume(AsSolid(obj));
      if cv.Some? {
        a := a + [cv.value];
        inst := AsInstance(obj);
      }
      i := i + 1;
    }
    assert objs[..i] == objs;
  }

  /** The `unweighted` flag: set, and the scan stopped, at the first partial of volume 0. */
  method AnyZeroVolume(a: seq<CentroidVolume>) returns (unweighted: bool)
    ensures unweighted <==> HasZeroVolume(a)
  {
    unweighted := false;
    var k := 0;
    while k < |a|
      invariant 0 <= k <= |a|
      invariant forall m :: 0 <= m < k ==> a[m].volume != 0.0
    {
      if a[k].volume == 0.0 {
        unweighted := true;
        break;
      }
      k := k + 1;
    }
  }

  /** The combination of the partials by the accumulating loops. */
  method CombinePartials(a: seq<CentroidVolume>) returns (combined: CentroidVolume)
    ensures combined == Combined(a)
  {
    combined := Default;
    if 0 < |a| {
      var unweighted := AnyZeroVolume(a);
      var n := |a| as real;
      var sum, volume := Origin, 0.0;
      var k := 0;
      if unweighted {
        while k < |a|
          invariant 0 <= k <= |a|
          invariant sum == SumCentroids(a[..k])
        {
          assert a[..k + 1][..k] == a[..k];
          sum := Plus(sum, a[k].centroid);
          k := k + 1;
        }
        assert a[..k] == a;
        combined := CentroidVolume(DividedBy(sum, n), volume);
      } else {
        while k < |a|
          invariant 0 <= k <= |a|
          invariant sum == SumWeighted(a[..k]) && volume == SumVolumes(a[..k])
        {
          assert a[..k + 1][..k] == a[..k];
          sum := Plus(sum, Times(a[k].volume, a[k].centroid));
          volume := volume + a[k].volume;
          k := k + 1;
        }
        assert a[..k] == a;
        var divisor := n * (if volume == 0.0 then 1.0 else volume);
        assert divisor == Divisor(a);
        combined := CentroidVolume(DividedBy(sum, divisor), volume);
      }
    }
  }

  /** `TryGetCentroid`: false with no result exactly when the element has no geometry;
      otherwise true with the combination of the gathered partials, which is the default when
      nothing was gathered. */
  method TryGetCentroid(e: Element) returns (ok: bool, cvol: Option<CentroidVolume>)
    ensures ok <==> e.geometry.Some?
    ensures !ok ==> cvol == None
    ensures ok ==> cvol == Some(Combined(Gathered(e.geometry.value)))
    ensures cvol == CentroidOf(e)
    ensures ok && Gathered(e.geometry.value) == [] ==> cvol == Some(Default)
  {
    if e.geometry.None? {
      return false, None;
    }
    var a, inst := CollectPartials(e.geometry.value);
    if |a| == 0 && inst.Some? {
      var unusedInst;
      a, unusedInst := CollectPartials(inst.value.symbolGeometry);
    }
    var combined := CombinePartials(a);
    return true, Some(combined);
  }

  // ---------------------------------------------------------------------------------------
  // Properties

  /** `inst` is only assigned from objects that contributed, and those are solids, never
      instances: the symbol-geometry retry never runs. */
  lemma {:induction false} LastInstanceIsNull(objs: seq<GeometryObject>)
    ensures LastInstance(objs) == None
    ensures Gathered(objs) == Partials(objs)
  {
    if |objs| > 0 {
      LastInstanceIsNull(objs[..|objs| - 1]);
    }
  }

  /** An element whose solids all fail the acceptance rule still gets a centroid: the default
      one. */
  lemma NoContributionGivesDefault(objs: seq<GeometryObject>)
    requires forall o :: o in objs ==> !Contributes(o)
    ensures Combined(Gathered(objs)) == Default
  {
    LastInstanceIsNull(objs);
    PartialsOfSolids(objs);
  }

  /** A single partial combines to itself, whether its volume is 0 or not. */
  lemma SinglePartial(p: CentroidVolume)
    ensures Combined([p]) == p
  {
    var ps := [p];
    assert ps[..0] == [];
    assert SumCentroids(ps) == p.centroid;
    if p.volume == 0.0 {
      assert ps[0].volume == 0.0;
    } else {
      assert !HasZeroVolume(ps);
      assert SumWeighted(ps) == Times(p.volume, p.centroid);
      assert SumVolumes(ps) == p.volume;
      Cancel(p.volume, p.centroid.x);
      Cancel(p.volume, p.centroid.y);
      Cancel(p.volume, p.centroid.z);
    }
  }

  lemma AddScaled(n: real, w: real, c: XYZ)
    ensures Plus(Times(n, c), Times(w, c)) == Times(n + w, c)
  {
    assert n * c.x + w * c.x == (n + w) * c.x;
    assert n * c.y + w * c.y == (n + w) * c.y;
    assert n * c.z + w * c.z == (n + w) * c.z;
  }

  lemma Cancel(k: real, x: real)
    requires k != 0.0
    ensures (k * x) / k == x && (k * x) / (1.0 * k) == x
  {
  }

  lemma DivideTimes(k: real, c: XYZ)
    requires k != 0.0
    ensures DividedBy(Times(k, c), k) == c
  {
    Cancel(k, c.x);
    Cancel(k, c.y);
    Cancel(k, c.z);
  }

  lemma DivideScaled(v: real, n: real, x: real)
    requires v != 0.0 && n != 0.0
    ensures (v * x) / (n * v) == x / n
  {
    var q := x / n;
    assert x == q * n;
    assert v * x == q * (n * v);
  }

  /** `x / (n * v)` is `x / v` divided by `n`. */
  lemma DivideTwice(x: real, v: real, n: real)
    requires v != 0.0 && n != 0.0
    ensures x / (n * v) == (x / v) / n
  {
    DivideScaled(v, n, x / v);
    assert v * (x / v) == x;
  }

  /** With no partial of volume 0 and a non-zero total, the weighted rule yields the total
      volume and the volume-weighted mean `Σ vᵢ·cᵢ / ΣV` divided once more by the number of
      partials. */
  lemma WeightedMeanOverCount(ps: seq<CentroidVolume>)
    requires |ps| > 0 && !HasZeroVolume(ps) && SumVolumes(ps) != 0.0
    ensures Combined(ps).centroid == DividedBy(DividedBy(SumWeighted(ps), SumVolumes(ps)), |ps| as real)
    ensures Combined(ps).volume == SumVolumes(ps)
  {
    var w, v, n := SumWeighted(ps), SumVolumes(ps), |ps| as real;
    assert Divisor(ps) == n * v;
    DivideTwice(w.x, v, n);
    DivideTwice(w.y, v, n);
    DivideTwice(w.z, v, n);
  }

  lemma {:induction false} SumOfCoincident(ps: seq<CentroidVolume>, c: XYZ)
    requires forall i :: 0 <= i < |ps| ==> ps[i].centroid == c
    ensures SumCentroids(ps) == Times(|ps| as real, c)
    ensures SumWeighted(ps) == Times(SumVolumes(ps), c)
  {
    if |ps| == 0 {
      assert Times(0.0, c) == Origin;
    } else {
      var front := ps[..|ps| - 1];
      SumOfCoincident(front, c);
      assert Times(1.0, c) == c;
      AddScaled(|front| as real, 1.0, c);
      AddScaled(SumVolumes(front), ps[|ps| - 1].volume, c);
    }
  }

  lemma CoincidentMean(ps: seq<CentroidVolume>, c: XYZ)
    requires |ps| > 0 && HasZeroVolume(ps)
    requires forall i :: 0 <= i < |ps| ==> ps[i].centroid == c
    ensures Combined(ps).centroid == c
  {
    SumOfCoincident(ps, c);
    DivideTimes(|ps| as real, c);
  }

  lemma CoincidentWeighted(ps: seq<CentroidVolume>, c: XYZ)
    requires |ps| > 0 && !HasZeroVolume(ps) && SumVolumes(ps) != 0.0
    requires forall i :: 0 <= i < |ps| ==> ps[i].centroid == c
    ensures Combined(ps).centroid == DividedBy(c, |ps| as real)
  {
    SumOfCoincident(ps, c);
    WeightedMeanOverCount(ps);
    DivideTimes(SumVolumes(ps), c);
  }

  /** Partials that all sit at `c`: the unweighted rule gives `c`, but the `n * ΣV` divisor of
      the weighted rule gives `c / n` (with `ΣV` not 0). */
  lemma CoincidentPartials(ps: seq<CentroidVolume>, c: XYZ)
    requires |ps| > 0
    requires forall i :: 0 <= i < |ps| ==> ps[i].centroid == c
    ensures HasZeroVolume(ps) ==> Combined(ps).centroid == c
    ensures !HasZeroVolume(ps) && SumVolumes(ps) != 0.0 ==>
      Combined(ps).centroid == DividedBy(c, |ps| as real)
  {
    if HasZeroVolume(ps) {
      CoincidentMean(ps, c);
    } else if SumVolumes(ps) != 0.0 {
      CoincidentWeighted(ps, c);
    }
  }

  /** Two solids of volumes 2 and 3 at (0,0,0) and (10,0,0): the weighted rule gives
      (2·(0,0,0) + 3·(10,0,0)) / (2 · 5) = (3,0,0) with volume 5. */
  lemma TwoSolidsExample()
    ensures Combined([CentroidVolume(Origin, 2.0), CentroidVolume(XYZ(10.0, 0.0, 0.0), 3.0)])
      == CentroidVolume(XYZ(3.0, 0.0, 0.0), 5.0)
  {
    var ps := [CentroidVolume(Origin, 2.0), CentroidVolume(XYZ(10.0, 0.0, 0.0), 3.0)];
    assert ps[..1] == [ps[0]] && ps[..1][..0] == [];
    assert !HasZeroVolume(ps);
    assert SumWeighted(ps[..1]) == Origin;
    assert SumWeighted(ps) == XYZ(30.0, 0.0, 0.0);
    assert SumVolumes(ps[..1]) == 2.0;
    assert SumVolumes(ps) == 5.0;
  }
}
