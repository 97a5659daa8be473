/** The exact part of the water shaders: the total bed depth under a vertex,
    the march of the refracted ray to the bed plane, the "bed above water"
    override of the vertex stage, and the fragment colour as a sum of five
    layer terms, each scaled by its multiplier. The refraction direction,
    the Fresnel reflectance, the attenuation mask and the lighting cosines
    come from square roots, exponentials and texture lookups; they enter
    here as inputs. */
module Shader {
  import opened Geometry
  import opened Controls

  datatype Vec3 = Vec3(x: real, y: real, z: real) {
    function Plus(o: Vec3): Vec3 { Vec3(x + o.x, y + o.y, z + o.z) }
    function Minus(o: Vec3): Vec3 { Vec3(x - o.x, y - o.y, z - o.z) }
    function Scale(s: real): Vec3 { Vec3(s * x, s * y, s * z) }
    /** Component-wise product, as GLSL's vec3 * vec3. */
    function Times(o: Vec3): Vec3 { Vec3(x * o.x, y * o.y, z * o.z) }
  }

  const Zero3 := Vec3(0.0, 0.0, 0.0)
  const One3 := Vec3(1.0, 1.0, 1.0)

  /** A homogeneous position (x, y, z, w). */
  datatype Vec4 = Vec4(x: real, y: real, z: real, w: real)

  /** A 4x4 matrix given by its rows, as the shader applies u_world_view
      to a column vector. */
  datatype Mat4 = Mat4(r0: Vec4, r1: Vec4, r2: Vec4, r3: Vec4) {
    function Apply(v: Vec4): (u: Vec4) {
      Vec4(Dot(r0, v), Dot(r1, v), Dot(r2, v), Dot(r3, v))
    }
  }

  function Dot(a: Vec4, b: Vec4): real {
    a.x * b.x + a.y * b.y + a.z * b.z + a.w * b.w
  }

  /** The point (p, z) in view coordinates: u_world_view * vec4(p, z, 1). */
  function ViewOf(worldView: Mat4, p: Point, z: real): (u: Vec4) {
    worldView.Apply(Vec4(p.x, p.y, z, 1.0))
  }

  /** Per-vertex attributes: a_position, a_start_position, a_height and
      a_bed_depth. */
  datatype Vertex = Vertex(position: Point, startPosition: Point, height: real, bedDepth: real)

  /** Varyings the vertex stage hands to the fragment stage, as far as the
      model follows them. */
  datatype VertexOut = VertexOut(glPosition: Vec4, pointOnBed: Vec3, bedTexcoord: Point, bedUpperWater: real)

  /** What the fragment stage reads from textures and from the vertex
      stage's inexact computations: the sky and bed samples, the Fresnel
      reflectance, the attenuation mask, max(0, -normal.sun) and
      pow(max(0, sun.reflected), 20). */
  datatype Samples = Samples(sky: Vec3, bed: Vec3, reflectance: real, mask: Vec3, diffuseCos: real, specular: real)

  const AmbientWater := Vec3(0.0, 0.3, 0.5)
  const SunDiffusedColor := Vec3(1.0, 0.8, 1.0)
  const SunReflectedColor := Vec3(1.0, 0.8, 0.6)

  /** total_depth: the bed lies below the surface plane by the per-point
      depth plus the global offset. */
  function TotalDepth(aBedDepth: real, uBedDepth: real): (d: real) {
    -aBedDepth - uBedDepth
  }

  /** The non-standard depth remap 1 - (1 + z) / (1 + eye height): 0 at
      the eye's height and 1 at view depth -1. */
  function DepthRemap(viewZ: real, eyeHeight: real): (r: real)
    requires eyeHeight != -1.0
    ensures viewZ == eyeHeight ==> r == 0.0
    ensures viewZ == -1.0 ==> r == 1.0
  {
    var d := 1.0 + eyeHeight;
    assert viewZ == eyeHeight ==> (1.0 + viewZ) / d == d / d == 1.0;
    1.0 - (1.0 + viewZ) / d
  }

  /** The point where the refracted ray from vPosition meets the plane at
      depth totalDepth. */
  function MarchToBed(vPosition: Vec3, refracted: Vec3, totalDepth: real): (p: Vec3)
    requires refracted.z != 0.0
    ensures p.z == totalDepth
    ensures p.Minus(vPosition) == refracted.Scale((totalDepth - vPosition.z) / refracted.z)
  {
    var t := (totalDepth - vPosition.z) / refracted.z;
    vPosition.Plus(refracted.Scale(t))
  }

  /** The bed stage of the vertex shader. worldView is u_world_view and
      refracted the refraction direction; the march along it is taken only
      where the vertex is under water, the only place its result is used. */
  function BedStage(v: Vertex, uBedDepth: real, eyeHeight: real, worldView: Mat4, refracted: Vec3): (out: VertexOut)
    requires eyeHeight != -1.0
    requires TotalDepth(v.bedDepth, uBedDepth) <= v.height ==> refracted.z != 0.0
    ensures out.bedUpperWater == 0.0 || out.bedUpperWater == 1.0
    ensures out.bedTexcoord == Point(out.pointOnBed.x + 0.5, out.pointOnBed.y + 0.5)
  {
    var totalDepth := TotalDepth(v.bedDepth, uBedDepth);
    var vPosition := Vec3(v.position.x, v.position.y, v.height);
    var positionView := ViewOf(worldView, v.position, v.height);
    var z := DepthRemap(positionView.z, eyeHeight);
    var depthPositionView := ViewOf(worldView, v.startPosition, totalDepth);
    var zDepth := DepthRemap(depthPositionView.z, eyeHeight);
    if totalDepth > v.height then
      VertexOut(Vec4(depthPositionView.x, depthPositionView.y, -positionView.z * zDepth, zDepth),
                vPosition, Point(vPosition.x + 0.5, vPosition.y + 0.5), 1.0)
    else
      var hit := MarchToBed(vPosition, refracted, totalDepth);
      VertexOut(Vec4(positionView.x, positionView.y, -positionView.z * z, z),
                hit, Point(hit.x + 0.5, hit.y + 0.5), 0.0)
  }

  /** The blended water colour, grouped as the fragment shader writes it.
      With every multiplier at 0 (every layer off) the water is black. */
  function Blend(s: Samples, m: Multipliers): (c: Vec3)
    ensures m == Multipliers(0.0, 0.0, 0.0, 0.0, 0.0) ==> c == Zero3
  {
    ScaleByZero(s.sky, m.sky * s.reflectance);
    ScaleByZero(s.bed.Times(s.mask), m.bed);
    ScaleByZero(AmbientWater.Times(One3.Minus(s.mask)), m.depth);
    ScaleByZero(Zero3, 1.0 - s.reflectance);
    ScaleByZero(SunDiffusedColor, m.diffused * s.diffuseCos);
    ScaleByZero(SunReflectedColor, m.reflected * s.specular);
    var imageColor := s.bed.Times(s.mask).Scale(m.bed).Plus(AmbientWater.Times(One3.Minus(s.mask)).Scale(m.depth));
    s.sky.Scale(m.sky * s.reflectance)
      .Plus(imageColor.Scale(1.0 - s.reflectance))
      .Plus(SunDiffusedColor.Scale(m.diffused * s.diffuseCos))
      .Plus(SunReflectedColor.Scale(m.reflected * s.specular))
  }

  /** The fragment colour: the raw bed sample where the bed is above the
      water, elsewhere the sum of the five layer terms. */
  function FragmentColor(s: Samples, m: Multipliers, bedUpperWater: real): (c: Vec3)
    ensures bedUpperWater > 0.5 ==> c == s.bed
    ensures bedUpperWater <= 0.5 ==> c == LayerSum(s, m)
  {
    BlendIsSumOfLayers(s, m);
    if bedUpperWater > 0.5 then s.bed else Blend(s, m)
  }

  /** The five layer terms, each scaled by its own multiplier and by
      nothing else that a toggle changes. */
  function SkyTerm(s: Samples, m: Multipliers): Vec3 { s.sky.Scale(m.sky * s.reflectance) }
  function BedTerm(s: Samples, m: Multipliers): Vec3 { s.bed.Times(s.mask).Scale(m.bed).Scale(1.0 - s.reflectance) }
  function DepthTerm(s: Samples, m: Multipliers): Vec3 { AmbientWater.Times(One3.Minus(s.mask)).Scale(m.depth).Scale(1.0 - s.reflectance) }
  function DiffusedTerm(s: Samples, m: Multipliers): Vec3 { SunDiffusedColor.Scale(m.diffused * s.diffuseCos) }
  function ReflectedTerm(s: Samples, m: Multipliers): Vec3 { SunReflectedColor.Scale(m.reflected * s.specular) }

  /** The term a layer key controls, numbered as Controls.Flag numbers the
      layers. */
  function LayerTerm(s: Samples, m: Multipliers, i: nat): (t: Vec3)
    requires i < 5
  {
    match i
    case 0 => DiffusedTerm(s, m)
    case 1 => BedTerm(s, m)
    case 2 => DepthTerm(s, m)
    case 3 => SkyTerm(s, m)
    case _ => ReflectedTerm(s, m)
  }

  /** The five layer terms added up. */
  function LayerSum(s: Samples, m: Multipliers): Vec3 {
    SkyTerm(s, m).Plus(BedTerm(s, m)).Plus(DepthTerm(s, m)).Plus(DiffusedTerm(s, m)).Plus(ReflectedTerm(s, m))
  }

  /** The blend is exactly the sum of the five layer terms. */
  lemma BlendIsSumOfLayers(s: Samples, m: Multipliers)
    ensures Blend(s, m) == LayerSum(s, m)
  {
    var k := 1.0 - s.reflectance;
    var bed := s.bed.Times(s.mask).Scale(m.bed);
    var ambient := AmbientWater.Times(One3.Minus(s.mask)).Scale(m.depth);
    assert bed.Plus(ambient).Scale(k) == bed.Scale(k).Plus(ambient.Scale(k)) by {
      ScaleDistributes(bed, ambient, k);
    }
  }

  lemma ScaleByZero(u: Vec3, k: real)
    ensures k == 0.0 || u == Zero3 ==> u.Scale(k) == Zero3
  {
  }

  lemma ScaleDistributes(u: Vec3, v: Vec3, k: real)
    ensures u.Plus(v).Scale(k) == u.Scale(k).Plus(v.Scale(k))
  {
  }

  /** Zeroing one multiplier removes exactly that layer's term from the
      blend; every other term keeps its value. */
  lemma ZeroingRemovesOnlyItsTerm(s: Samples, m: Multipliers, i: nat)
    requires i < 5
    ensures Blend(s, Zeroed(m, i)) == Blend(s, m).Minus(LayerTerm(s, m, i))
    ensures forall j :: 0 <= j < 5 && j != i ==> LayerTerm(s, Zeroed(m, i), j) == LayerTerm(s, m, j)
  {
    match i
    case 0 => ZeroOne(s, m, m.(diffused := 0.0), 0);
    case 1 => ZeroOne(s, m, m.(bed := 0.0), 1);
    case 2 => ZeroOne(s, m, m.(depth := 0.0), 2);
    case 3 => ZeroOne(s, m, m.(sky := 0.0), 3);
    case 4 => ZeroOne(s, m, m.(reflected := 0.0), 4);
  }

  /** The blend of z, whose layer terms are those of m with term i zero. */
  lemma ZeroOne(s: Samples, m: Multipliers, z: Multipliers, i: nat)
    requires i < 5
    requires LayerTerm(s, z, i) == Zero3
    requires forall j :: 0 <= j < 5 && j != i ==> LayerTerm(s, z, j) == LayerTerm(s, m, j)
    ensures Blend(s, z) == Blend(s, m).Minus(LayerTerm(s, m, i))
  {
    BlendIsSumOfLayers(s, m);
    BlendIsSumOfLayers(s, z);
    assert LayerTerm(s, z, 0) == if i == 0 then Zero3 else LayerTerm(s, m, 0);
    assert LayerTerm(s, z, 1) == if i == 1 then Zero3 else LayerTerm(s, m, 1);
    assert LayerTerm(s, z, 2) == if i == 2 then Zero3 else LayerTerm(s, m, 2);
    assert LayerTerm(s, z, 3) == if i == 3 then Zero3 else LayerTerm(s, m, 3);
    assert LayerTerm(s, z, 4) == if i == 4 then Zero3 else LayerTerm(s, m, 4);
  }

  /** Turning a layer off with its key removes exactly that layer's term
      from the water colour, leaving the other four terms unchanged. */
  lemma ToggleOffRemovesOnlyItsTerm(s: Samples, l: Layers, key: string)
    requires LayerOf(key) >= 0 && Flag(l, LayerOf(key))
    ensures Blend(s, FlagMultipliers(Press(l, key)))
         == Blend(s, FlagMultipliers(l)).Minus(LayerTerm(s, FlagMultipliers(l), LayerOf(key)))
    ensures forall j :: 0 <= j < 5 && j != LayerOf(key) ==>
              LayerTerm(s, FlagMultipliers(Press(l, key)), j) == LayerTerm(s, FlagMultipliers(l), j)
  {
    PressOffZeroesItsMultiplier(l, key);
    ZeroingRemovesOnlyItsTerm(s, FlagMultipliers(l), LayerOf(key));
  }

  /** Where the bed is above the water the fragment is the raw bed sample,
      whatever the multipliers; elsewhere it is the blend. */
  lemma DryBedShowsRawSample(v: Vertex, uBedDepth: real, eyeHeight: real, worldView: Mat4,
                             refracted: Vec3, s: Samples, m: Multipliers)
    requires eyeHeight != -1.0
    requires TotalDepth(v.bedDepth, uBedDepth) <= v.height ==> refracted.z != 0.0
    ensures FragmentColor(s, m, BedStage(v, uBedDepth, eyeHeight, worldView, refracted).bedUpperWater)
              == if TotalDepth(v.bedDepth, uBedDepth) > v.height then s.bed else Blend(s, m)
  {
  }

  /** The override flag is 1 exactly when the bed lies above the water
      height and 0 otherwise. A dry vertex takes its own position as its bed
      point and texture coordinate, and is drawn where its start position
      at total depth lies in view, with the depth remap of that point; a wet
      vertex is drawn where it lies in view, and its bed point is where the
      refracted ray meets the plane at total depth. */
  lemma BedAboveWaterIff(v: Vertex, uBedDepth: real, eyeHeight: real, worldView: Mat4, refracted: Vec3)
    requires eyeHeight != -1.0
    requires TotalDepth(v.bedDepth, uBedDepth) <= v.height ==> refracted.z != 0.0
    ensures var out := BedStage(v, uBedDepth, eyeHeight, worldView, refracted);
            var vPosition := Vec3(v.position.x, v.position.y, v.height);
            var positionView := ViewOf(worldView, v.position, v.height);
            var bedView := ViewOf(worldView, v.startPosition, -v.bedDepth - uBedDepth);
            && (out.bedUpperWater == 1.0 <==> -v.bedDepth - uBedDepth > v.height)
            && (out.bedUpperWater == 0.0 <==> -v.bedDepth - uBedDepth <= v.height)
            && (out.bedUpperWater == 1.0 ==>
                  && out.pointOnBed == vPosition
                  && out.bedTexcoord == Point(v.position.x + 0.5, v.position.y + 0.5)
                  && out.glPosition.x == bedView.x
                  && out.glPosition.y == bedView.y
                  && out.glPosition.w == DepthRemap(bedView.z, eyeHeight)
                  && out.glPosition.z == -positionView.z * out.glPosition.w)
            && (out.bedUpperWater == 0.0 ==>
                  && out.pointOnBed.z == -v.bedDepth - uBedDepth
                  && out.pointOnBed.Minus(vPosition)
                       == refracted.Scale((-v.bedDepth - uBedDepth - v.height) / refracted.z)
                  && out.glPosition.x == positionView.x
                  && out.glPosition.y == positionView.y
                  && out.glPosition.w == DepthRemap(positionView.z, eyeHeight))
  {
  }

  /** Where a dry vertex is drawn on screen depends on its start position,
      the bed and the camera, not on the height of the water above it. */
  lemma DryVertexIgnoresHeight(v: Vertex, h: real, uBedDepth: real, eyeHeight: real,
                               worldView: Mat4, refracted: Vec3)
    requires eyeHeight != -1.0
    requires TotalDepth(v.bedDepth, uBedDepth) > v.height && TotalDepth(v.bedDepth, uBedDepth) > h
    ensures var out := BedStage(v, uBedDepth, eyeHeight, worldView, refracted);
            var out' := BedStage(v.(height := h), uBedDepth, eyeHeight, worldView, refracted);
            out'.glPosition.x == out.glPosition.x && out'.glPosition.y == out.glPosition.y
            && out'.glPosition.w == out.glPosition.w
  {
  }

  /** The depth remap decreases as a point comes closer to the eye. */
  lemma DepthRemapDecreasing(z1: real, z2: real, eyeHeight: real)
    requires eyeHeight > -1.0 && z1 < z2
    ensures DepthRemap(z1, eyeHeight) > DepthRemap(z2, eyeHeight)
  {
    var e := 1.0 + eyeHeight;
    var q1, q2 := (1.0 + z1) / e, (1.0 + z2) / e;
    assert q1 * e == 1.0 + z1 && q2 * e == 1.0 + z2;
    assert (q2 - q1) * e == z2 - z1;
    PositiveFactor(q2 - q1, e);
  }

  lemma PositiveFactor(a: real, e: real)
    requires e > 0.0 && a * e > 0.0
    ensures a > 0.0
  {
  }

  /** Raising the offset with Up moves the bed down by one step, so a
      vertex that was under water stays under water. */
  lemma UpKeepsWetVerticesWet(aBedDepth: real, uBedDepth: real, height: real)
    ensures TotalDepth(aBedDepth, Nudge(uBedDepth, "Up")) == TotalDepth(aBedDepth, uBedDepth) - BedDepthStep
    ensures TotalDepth(aBedDepth, uBedDepth) <= height ==> TotalDepth(aBedDepth, Nudge(uBedDepth, "Up")) <= height
  {
  }
}
