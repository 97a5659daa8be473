/** The simulation state of the water canvas as a sequential state
    machine: the list of live wave sources and its lazy pruning, the timer
    tick, the combined field handed to the shaders each frame, and the
    keyboard and pointer handlers. Rendering, the camera rotation itself and
    the event loop are outside the model. */
module Simulation {
  import opened Geometry
  import opened Fields
  import opened Sources
  import opened Controls

  datatype Option<T> = None | Some(value: T)

  /** The time step of every timer tick. */
  const Tick: real := 0.01

  /** The part of the canvas state that only keys and the pointer change. */
  datatype Ui = Ui(layers: Layers, mults: Multipliers, pointsVisible: bool, bedDepth: real,
                   closed: bool, dragStart: Option<Point>, cameraShifts: seq<Point>)

  class Canvas {
    /** Number of points of the surface lattice. */
    const lattice: nat
    /** The background surface, propagated but never pruned. */
    const surface: WaveSource
    /** The wave class new sources are made from, if any. */
    const surfaceClass: Option<WaveLaw>
    /** surface_wave_list. */
    var waves: seq<WaveSource>
    /** The logical size, used by screen_to_gl_coordinates. */
    var size: Size
    /** The physical size, used by add_wave_center. */
    var physicalSize: Size
    var layers: Layers
    /** The multiplier uniforms of the fragment shader. */
    var mults: Multipliers
    var pointsVisible: bool
    /** The u_bed_depth uniform. */
    var bedDepth: real
    /** Set once Escape has closed the window. */
    var closed: bool
    var dragStart: Option<Point>
    /** Every shift handed to rotate_camera, oldest first. */
    var cameraShifts: seq<Point>

    ghost predicate Valid()
      reads this
    {
      && size.Positive() && physicalSize.Positive()
      && WellFormedLaw(surface.law, lattice)
      && (surfaceClass.Some? ==> WellFormedLaw(surfaceClass.value, lattice))
      && (forall i :: 0 <= i < |waves| ==> WellFormedLaw(waves[i].law, lattice))
      && Distinct(waves) && surface !in waves
      && mults == FlagMultipliers(layers)
    }

    ghost function UiState(): Ui
      reads this
    {
      Ui(layers, mults, pointsVisible, bedDepth, closed, dragStart, cameraShifts)
    }

    /** The canvas as set up before the event loop starts: every layer on,
        points hidden, no bed offset, no drag, and one source spawned at the
        centre of the window if a wave class is configured. */
    constructor (surface: WaveSource, lattice: nat, newWavesClass: Option<WaveLaw>, size: Size, physicalSize: Size)
      requires size.Positive() && physicalSize.Positive()
      requires WellFormedLaw(surface.law, lattice)
      requires newWavesClass.Some? ==> WellFormedLaw(newWavesClass.value, lattice)
      ensures Valid()
      ensures this.surface == surface && this.lattice == lattice && surfaceClass == newWavesClass
      ensures this.size == size && this.physicalSize == physicalSize
      ensures UiState() == Ui(AllOn, Multipliers(0.5, 1.0, 1.0, 1.0, 1.0), false, 0.0, false, None, [])
      ensures newWavesClass.None? ==> waves == []
      ensures newWavesClass.Some? ==>
                && |waves| == 1 && fresh(waves[0]) && waves[0].age == 0.0
                && waves[0].center == SpawnPosition(Point(size.w / 2.0, size.h / 2.0), physicalSize)
                && waves[0].law == newWavesClass.value
    {
      this.lattice := lattice;
      this.surface := surface;
      surfaceClass := newWavesClass;
      waves := [];
      this.size := size;
      this.physicalSize := physicalSize;
      layers := AllOn;
      mults := FlagMultipliers(AllOn);
      pointsVisible := false;
      bedDepth := 0.0;
      closed := false;
      dragStart := None;
      cameraShifts := [];
      new;
      AddWaveCenter(Point(size.w / 2.0, size.h / 2.0));
    }

    /** apply_flags: the multiplier uniforms follow the layer flags. */
    method ApplyFlags()
      modifies this`mults
      ensures mults == FlagMultipliers(layers)
    {
      mults := Multipliers(if layers.diffused then 0.5 else 0.0,
                           if layers.reflected then 1.0 else 0.0,
                           if layers.bed then 1.0 else 0.0,
                           if layers.depth then 1.0 else 0.0,
                           if layers.sky then 1.0 else 0.0);
    }

    /** add_wave_center: without a wave class nothing happens; otherwise
        the dead sources are dropped, the rest keep their order, and one
        fresh source is appended at the spawn position of center. */
    method AddWaveCenter(center: Point)
      requires Valid()
      modifies this
      ensures Valid() && UiState() == old(UiState())
      ensures size == old(size) && physicalSize == old(physicalSize)
      ensures surfaceClass.None? ==> waves == old(waves)
      ensures surfaceClass.Some? ==>
                && |waves| == |old(LiveOnly(waves))| + 1
                && waves[..|waves| - 1] == old(LiveOnly(waves))
                && fresh(waves[|waves| - 1])
                && waves[|waves| - 1].center == SpawnPosition(center, physicalSize)
                && waves[|waves| - 1].age == 0.0
                && waves[|waves| - 1].law == surfaceClass.value
    {
      if surfaceClass.None? {
        return;
      }
      var pos := SpawnPosition(center, physicalSize);
      LiveOnlyKeepsExactlyTheLive(waves);
      ghost var before := waves;
      waves := LiveOnly(waves);
      forall i | 0 <= i < |waves| ensures WellFormedLaw(waves[i].law, lattice) {
        assert waves[i] in before;
      }
      var source := new WaveSource(pos, surfaceClass.value);
      waves := waves + [source];
    }

    /** get_hieght_and_normal: with no listed source, the surface's own
        field; otherwise the element-wise mean of the listed sources'
        fields, the background surface not counted. */
    method GetHeightAndNormal() returns (f: Field)
      requires Valid()
      ensures HasSize(f, lattice)
      ensures waves == [] ==> f == surface.HeightAndNormal()
      ensures waves != [] ==> AllSized(FieldsOf(waves), lattice) && f == Mean(FieldsOf(waves), lattice)
    {
      ghost var fs := FieldsOf(waves);
      assert AllSized(fs, lattice) by {
        forall i | 0 <= i < |fs| ensures HasSize(fs[i], lattice) {
          FieldFitsLattice(waves[i], lattice);
        }
      }
      var heightTotal: Option<seq<real>> := None;
      var gradTotal: Option<seq<Vec2>> := None;
      var count := 0;
      for i := 0 to |waves|
        invariant count == i
        invariant heightTotal.None? <==> i == 0
        invariant gradTotal.None? <==> i == 0
        invariant heightTotal.Some? ==>
                    |heightTotal.value| == lattice &&
                    forall k :: 0 <= k < lattice ==> heightTotal.value[k] == HeightSum(fs[..i], lattice, k)
        invariant gradTotal.Some? ==>
                    |gradTotal.value| == lattice &&
                    forall k :: 0 <= k < lattice ==> gradTotal.value[k] == GradSum(fs[..i], lattice, k)
      {
        count := count + 1;
        var field := waves[i].HeightAndNormal();
        assert fs[..i + 1] == fs[..i] + [field];
        if heightTotal.None? {
          assert fs[..i + 1][..i] == [];
          heightTotal := Some(field.height);
        } else {
          AddingAFieldExtendsTheSums(fs[..i], field, lattice, heightTotal.value, gradTotal.value);
          heightTotal := Some(AddHeights(heightTotal.value, field.height));
        }
        if gradTotal.None? {
          gradTotal := Some(field.grad);
        } else {
          gradTotal := Some(AddGrads(gradTotal.value, field.grad));
        }
      }
      if heightTotal.None? {
        f := surface.HeightAndNormal();
        FieldFitsLattice(surface, lattice);
      } else {
        var n := count as real;
        f := Field(seq(lattice, k requires 0 <= k < lattice => heightTotal.value[k] / n),
                   seq(lattice, k requires 0 <= k < lattice => gradTotal.value[k].Over(n)));
        assert fs[..|waves|] == fs;
      }
    }

    /** on_timer: the surface and every listed source advance by one tick;
        no source is added, dropped or moved, so a dead source stays listed
        (and dead) until the next spawn. */
    method OnTimer()
      requires Valid()
      modifies surface, waves
      ensures Valid()
      ensures surface.age == old(surface.age) + Tick
      ensures forall i :: 0 <= i < |waves| ==> waves[i].age == old(waves[i].age) + Tick
      ensures forall i :: 0 <= i < |waves| ==> old(waves[i].Dead()) ==> waves[i].Dead()
    {
      surface.Propagate(Tick);
      for i := 0 to |waves|
        invariant surface.age == old(surface.age) + Tick
        invariant forall j :: 0 <= j < i ==> waves[j].age == old(waves[j].age) + Tick
        invariant forall j :: i <= j < |waves| ==> waves[j].age == old(waves[j].age)
      {
        waves[i].Propagate(Tick);
      }
      forall i | 0 <= i < |waves| && old(waves[i].Dead()) ensures waves[i].Dead() {
        assert WellFormedLaw(waves[i].law, lattice);
        assert waves[i].law.dies(old(waves[i].age));
      }
    }

    /** on_key_press: Escape closes, space shows or hides the lattice
        points, '1' to '5' flip one layer and re-apply the multipliers, Up
        and Down nudge the bed offset; nothing else changes. */
    method OnKeyPress(key: string)
      requires Valid()
      modifies this
      ensures Valid()
      ensures closed == (old(closed) || key == "Escape")
      ensures pointsVisible == (if key == " " then !old(pointsVisible) else old(pointsVisible))
      ensures layers == Press(old(layers), key)
      ensures bedDepth == Nudge(old(bedDepth), key)
      ensures waves == old(waves) && dragStart == old(dragStart) && cameraShifts == old(cameraShifts)
      ensures size == old(size) && physicalSize == old(physicalSize)
    {
      if key == "Escape" {
        closed := true;
      } else if key == " " {
        pointsVisible := !pointsVisible;
      } else if key == "1" {
        layers := layers.(diffused := !layers.diffused);
        ApplyFlags();
      } else if key == "2" {
        layers := layers.(bed := !layers.bed);
        ApplyFlags();
      } else if key == "3" {
        layers := layers.(depth := !layers.depth);
        ApplyFlags();
      } else if key == "4" {
        layers := layers.(sky := !layers.sky);
        ApplyFlags();
      } else if key == "5" {
        layers := layers.(reflected := !layers.reflected);
        ApplyFlags();
      } else if key == "Up" {
        bedDepth := bedDepth + BedDepthStep;
      } else if key == "Down" {
        bedDepth := bedDepth - BedDepthStep;
      }
    }

    /** on_mouse_press: a drag starts at the pointer, then a source is
        spawned there. */
    method OnMousePress(pos: Point)
      requires Valid()
      modifies this
      ensures Valid()
      ensures dragStart == Some(ScreenToGl(pos, size))
      ensures layers == old(layers) && mults == old(mults) && pointsVisible == old(pointsVisible)
      ensures bedDepth == old(bedDepth) && closed == old(closed) && cameraShifts == old(cameraShifts)
      ensures size == old(size) && physicalSize == old(physicalSize)
      ensures surfaceClass.None? ==> waves == old(waves)
      ensures surfaceClass.Some? ==>
                && |waves| == |old(LiveOnly(waves))| + 1
                && waves[..|waves| - 1] == old(LiveOnly(waves))
                && fresh(waves[|waves| - 1])
                && waves[|waves| - 1].center == SpawnPosition(pos, physicalSize)
                && waves[|waves| - 1].age == 0.0
                && waves[|waves| - 1].law == surfaceClass.value
    {
      dragStart := Some(ScreenToGl(pos, size));
      AddWaveCenter(pos);
    }

    /** on_mouse_move: only during a drag, the camera is turned by the move
        since the last position, which becomes the new drag start. */
    method OnMouseMove(pos: Point)
      requires Valid()
      modifies this
      ensures Valid()
      ensures old(dragStart).None? ==> UiState() == old(UiState())
      ensures old(dragStart).Some? ==>
                && dragStart == Some(ScreenToGl(pos, size))
                && cameraShifts == old(cameraShifts) + [Minus(ScreenToGl(pos, size), old(dragStart).value)]
      ensures layers == old(layers) && mults == old(mults) && pointsVisible == old(pointsVisible)
      ensures bedDepth == old(bedDepth) && closed == old(closed)
      ensures waves == old(waves) && size == old(size) && physicalSize == old(physicalSize)
    {
      if dragStart.Some? {
        var gl := ScreenToGl(pos, size);
        cameraShifts := cameraShifts + [Minus(gl, dragStart.value)];
        dragStart := Some(gl);
      }
    }

    /** on_mouse_release: the drag ends; nothing else changes. */
    method OnMouseRelease()
      requires Valid()
      modifies this`dragStart
      ensures Valid() && dragStart == None
    {
      dragStart := None;
    }
  }
}
