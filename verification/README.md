# Water surface simulator: a Dafny model of the canvas state

The program renders an animated water surface. A background wave field is
combined with transient wave sources that the user spawns by pressing the
pointer, and two shaders light the result with sky reflection, a refracted
seabed, ambient water colour and sunlight. This project models the state
machine of the `Canvas` class in `water-simulation.py` and the exact part of
its shaders. Everything is sequential and single-threaded, as in the
program.

- **Geometry** (`geometry.dfy`) holds the two screen mappings. The spawn
  position of `add_wave_center` maps the drawable onto
  [-0.75, 0.75]², with y flipped. `screen_to_gl_coordinates` maps the window
  onto [-1, 1]², without a flip. Both have inverses, with round-trip lemmas.
- **Fields** (`fields.dfy`) holds a height-and-gradient field over the
  lattice, the per-point sums of a list of fields, and their element-wise
  mean.
- **Sources** (`sources.dfy`) holds a wave object: a centre, an internal
  clock (`age`) and a `WaveLaw`. The law is the pluggable part that lives in
  `surface.py`: the field reported for a centre and an age, and the
  `is_dead` test. A well-formed law reports lattice-sized fields and, once
  dead, stays dead. This module also defines pruning (`LiveOnly`), the list
  comprehension that drops dead sources.
- **Controls** (`controls.dfy`) holds the five layer flags, the keys that flip
  them, the multipliers `apply_flags` derives from them, and the Up/Down
  nudge of the bed-depth offset.
- **Shader** (`shader.dfy`) holds the exact part of the vertex and fragment
  shaders:
  - the total bed depth;
  - the march of the refracted ray down to the bed plane;
  - the "bed above water" override;
  - the fragment colour as a sum of five layer terms, one per multiplier.

  The view matrix `u_world_view` is an input, and the model applies it to the
  vertex and to its start position at total depth. The refraction direction,
  the Fresnel reflectance, the attenuation mask, the lighting cosines and the
  texture samples come from square roots, exponentials and texture lookups,
  so they enter as inputs.
- **Simulation** (`simulation.dfy`) holds the `Canvas` class. Its fields are
  the source list, the window sizes, the flags, the multiplier uniforms, the
  bed offset, the drag start and the shifts fed to the camera. Its methods
  are the constructor, `apply_flags`, `add_wave_center`,
  `get_hieght_and_normal`, `on_timer`, `on_key_press` and the three mouse
  handlers.

The code averages over the listed sources only. The background surface's
field is used only when the list is empty (`water-simulation.py:239-254`).
`GetHeightAndNormal` returns `Mean(FieldsOf(waves))`, and `MeanOfCopies`
shows that a single source passes through unchanged, whatever the surface
reports.

`add_wave_center` maps positions through the *physical* size. The constructor
passes the centre of the *logical* size, and `screen_to_gl_coordinates` also
uses the logical size. `InitialSpawnAtOriginIff` shows that the first source
lands on the surface origin exactly when the two sizes agree.

## Model

| member | source | states |
|---|---|---|
| `Geometry.SpawnPosition` | water-simulation.py:230-231 | the spawn x is negative exactly left of the drawable's centre; the spawn y is negative exactly below it on screen (y flipped) |
| `Geometry.ScreenToGl` | water-simulation.py:311-312 | the GL x and y are negative exactly left of and above the window's centre (no flip) |
| `Geometry.SpawnRoundTrip` | water-simulation.py:230-231 | the spawn mapping and SpawnToScreen are inverse in both directions for any positive drawable size |
| `Geometry.SpawnCentre` | water-simulation.py:230-231 | the drawable's centre spawns at the surface origin (0, 0) |
| `Geometry.SpawnEdges` | water-simulation.py:230-231 | left and right edges spawn at x = -0.75 and 0.75; top and bottom edges at y = 0.75 and -0.75 |
| `Geometry.SpawnOrientation` | water-simulation.py:230-231 | the spawn x increases with the screen x; the spawn y decreases as the screen y increases |
| `Geometry.GlRoundTrip` | water-simulation.py:311-312 | screen_to_gl_coordinates and GlToScreen are inverse in both directions |
| `Geometry.GlCentreAndCorners` | water-simulation.py:311-312 | the window's centre maps to (0, 0), the corner (0, 0) to (-1, -1) and the corner (W, H) to (1, 1) |
| `Geometry.SpawnIsScaledGl` | water-simulation.py:314-316 | when the two sizes agree, a press spawns at 0.75 times its drag coordinate, with y negated |
| `Geometry.InitialSpawnAtOriginIff` | water-simulation.py:148 | the constructor's first spawn, at half the logical size mapped through the physical size, lands on the origin if and only if the two sizes are equal |
| `Controls.LayerOf` | water-simulation.py:286-305 | exactly the keys '1' to '5' name a layer |
| `Controls.Press` | water-simulation.py:286-305 | a key changes the layer flags if and only if it names a layer |
| `Controls.FlagMultipliers` | water-simulation.py:193-198 | every multiplier lies in [0, 1], and the diffused one in [0, 0.5] |
| `Controls.Nudge` | water-simulation.py:306-309 | the offset changes if and only if the key is Up or Down; Up raises it and Down lowers it |
| `Controls.PressFlipsOnlyItsLayer` | water-simulation.py:286-305 | a key flips the flag of its own layer and leaves the other four flags unchanged; other keys change no flag |
| `Controls.PressTwiceRestores` | water-simulation.py:286-305 | pressing the same key twice restores all five flags |
| `Controls.MultiplierOnIff` | water-simulation.py:193-198 | each multiplier is non-zero if and only if its flag is on; when on, diffused light is 0.5 and the other multipliers are 1 |
| `Controls.PressOffZeroesItsMultiplier` | water-simulation.py:286-305 | switching a layer off zeroes only its multiplier; switching it back on restores that multiplier |
| `Controls.NudgeUpDownRestores` | water-simulation.py:306-309 | Up then Down (or Down then Up) restores the bed offset; other keys leave it alone |
| `Shader.DepthRemap` | water-simulation.py:37-41 | the remapped depth is 0 at the eye's height and 1 at view depth -1 |
| `Shader.DepthRemapDecreasing` | water-simulation.py:37 | for an eye above -1, the remapped depth strictly decreases as the view depth grows |
| `Shader.MarchToBed` | water-simulation.py:56-57 | the marched point lies on the bed plane (its z is the total depth) and is reached along the refracted direction from the vertex |
| `Shader.BedStage` | water-simulation.py:34-65 | the override flag is always 0 or 1, and the bed texture coordinate is the bed point shifted by (0.5, 0.5) |
| `Shader.BedAboveWaterIff` | water-simulation.py:34-65 | the flag is 1 if and only if total depth > height, and 0 otherwise. A dry vertex uses its own position as bed point and texture coordinate; its clip x and y are those of u_world_view applied to (start position, total depth); its w is the depth remap of that point; its z is minus the vertex's own view depth times w. A wet vertex is drawn at its own view position with its own remapped depth, and its bed point lies at total depth along the refracted ray |
| `Shader.DryVertexIgnoresHeight` | water-simulation.py:40-41 | a dry vertex's clip x, y and w do not depend on the water height above it |
| `Shader.Blend` | water-simulation.py:110-115 | with every multiplier at 0 (every layer off) the water colour is black |
| `Shader.FragmentColor` | water-simulation.py:110-118 | above 0.5 the colour is the raw bed sample; otherwise it is the sum of the five layer terms |
| `Shader.DryBedShowsRawSample` | water-simulation.py:116-118 | where the bed is above water the fragment colour is the raw bed sample whatever the multipliers, and the blend everywhere else |
| `Shader.BlendIsSumOfLayers` | water-simulation.py:106-115 | the fragment blend equals the sum of the sky, bed, depth, diffused and reflected terms |
| `Shader.ZeroingRemovesOnlyItsTerm` | water-simulation.py:106-115 | setting one multiplier to 0 subtracts exactly that layer's term from the blend and leaves the other four terms unchanged |
| `Shader.ToggleOffRemovesOnlyItsTerm` | water-simulation.py:286-305 | switching a layer off with its key removes exactly that layer's term from the water colour; the other terms keep their values |
| `Shader.UpKeepsWetVerticesWet` | water-simulation.py:306-307 | Up lowers the total depth by 0.1, so a vertex under water stays under water |
| `Fields.AddingAFieldExtendsTheSums` | water-simulation.py:242-249 | adding one more source's field into running totals of a list gives the totals of the list followed by that source, for heights and for gradients |
| `Fields.Mean` | water-simulation.py:253-254 | the mean of lattice-sized fields has one height and one gradient per lattice point |
| `Fields.HeightSumBounds` | water-simulation.py:239-245 | if every source's height at a point is in [lo, hi], the accumulated total lies between count·lo and count·hi |
| `Fields.MeanHeightBounded` | water-simulation.py:250-254 | the averaged height at every point stays within the range of the sources' heights, however many sources there are |
| `Fields.MeanOfCopies` | water-simulation.py:250-254 | sources that all report the same field average to that field; in particular one source passes through unchanged |
| `Sources.WaveSource.constructor` | water-simulation.py:233 | a new source has the given centre and law, and its clock at zero |
| `Sources.WaveSource.Propagate` | water-simulation.py:272-274 | propagate(dt) advances the source's clock by exactly dt |
| `Sources.WaveSource.HeightAndNormal` | water-simulation.py:241 | what a source reports: its law's field at its centre and its current age (no contract; the law is abstract) |
| `Sources.WaveSource.Dead` | water-simulation.py:232 | whether a source is dead: its law's test at its current age (no contract; the law is abstract) |
| `Sources.LiveOnly` | water-simulation.py:232 | the pruned list is no longer than the old one, and every source in it was listed and is live |
| `Sources.FieldsOf` | water-simulation.py:239-241 | one field per listed source, in list order, each being what that source reports |
| `Sources.LiveOnlyKeepsExactlyTheLive` | water-simulation.py:232 | pruning keeps a source if and only if it is listed and not dead, keeps their relative order (a subsequence), keeps a distinct list distinct, and never grows the list |
| `Sources.LiveOnlyOfLiveIsIdentity` | water-simulation.py:232 | when no listed source is dead, pruning returns the list unchanged |
| `Simulation.Canvas.constructor` | water-simulation.py:136-186 | every layer on, multipliers (0.5, 1, 1, 1, 1), points hidden, offset 0, no drag; with a wave class, exactly one fresh source of that class at the spawn position of the window's centre, clock at zero, otherwise none |
| `Simulation.Canvas.ApplyFlags` | water-simulation.py:193-198 | the multiplier uniforms become those of the current flags |
| `Simulation.Canvas.AddWaveCenter` | water-simulation.py:227-233 | without a wave class the list is unchanged; otherwise it becomes the old list pruned of dead sources, in order, followed by exactly one fresh source at the spawn position, clock at zero; no other state changes |
| `Simulation.Canvas.GetHeightAndNormal` | water-simulation.py:235-255 | a lattice-sized field: the surface's field when the list is empty, otherwise at every point the sum over the listed sources divided by their number, the surface excluded |
| `Simulation.Canvas.OnTimer` | water-simulation.py:271-275 | the surface and every listed source advance by exactly 0.01; the list is neither pruned nor reordered, and a dead source stays dead |
| `Simulation.Canvas.OnKeyPress` | water-simulation.py:280-309 | Escape closes; space flips point visibility; '1' to '5' flip one layer and re-apply the multipliers; Up and Down move the bed offset by ±0.1; the source list, the drag and the camera are untouched |
| `Simulation.Canvas.OnMousePress` | water-simulation.py:314-316 | the drag starts at the GL coordinate of the press; a source is spawned there exactly as by AddWaveCenter: the live sources in order, then one fresh source of the wave class at the spawn position, clock at zero |
| `Simulation.Canvas.OnMouseMove` | water-simulation.py:318-324 | without a drag nothing changes; during a drag the shift since the drag start is handed to the camera and the drag start moves to the pointer |
| `Simulation.Canvas.OnMouseRelease` | water-simulation.py:326-327 | the drag ends (drag start None) |

## Left out

- Simulation.Canvas.OnMouseMove: records each shift handed to `rotate_camera` in `cameraShifts` instead of updating the camera basis. `rotate_camera`, `set_camera` and `normalize` (water-simulation.py:131-133, 200-216) are left out, because they rely on square roots and their orthonormality holds only up to float rounding.
- The refraction, reflection, Fresnel and attenuation arithmetic of the vertex shader (water-simulation.py:45-57, 67-73) and the lighting cosines and texture lookups of the fragment shader (water-simulation.py:102-108) are left out as floating-point numerics. They enter the model as inputs: the refracted direction, the reflectance, the mask, the two cosine terms and the samples. The unguarded `d < 0` case (water-simulation.py:51-52) is a floating-point matter and is not modelled.
- Shader.MarchToBed: requires a refracted direction with non-zero z, because the shader divides by it; with a zero z the shader produces an infinity, which reals cannot represent.
- Shader.BedStage: requires an eye height other than -1, because the depth remap divides by 1 + eye height. The program always uses eye height 3. For a vertex under water it also requires a refracted direction with non-zero z, for the same reason as MarchToBed.
- The eye position `transpose(u_world_view) * (0, 0, eye height, 1)` and the view direction built from it (water-simulation.py:43-47) are left out with the refraction numerics; the refracted direction is an input.
- Interpolation of varyings across a triangle is not modelled. `bed_upper_water` is interpolated before the fragment stage tests it against 0.5 (water-simulation.py:116), so Shader.DryBedShowsRawSample holds at the vertices, where the interpolated value equals the vertex's own.
- Simulation.Canvas.constructor: the window sizes must be positive. The program would divide by zero for an empty window.
- Floating point: heights, coordinates and the steps 0.01 and 0.1 are exact reals. Float and float32 rounding is not modelled.
- The concrete wave and bed classes (`PlaneWaves`, `CircularWaves`, `BedLiner` and others in surface.py and bed.py) are not part of this model. A wave is reduced to a `WaveLaw`; the bed's `depth()` enters the shader model as the per-vertex input `a_bed_depth`.
- Sources.WaveSource.constructor: the clock of a new source starts at zero. This is an assumption, because surface.py is not part of this model.
- Aliasing at water-simulation.py:243 and 247 is not modelled. There, the first source's own arrays become the running totals and are updated in place. The model adds into fresh sequences.
- Rendering and I/O are left out: `on_draw`, `on_resize`/`activate_zoom`, program and texture setup, `gloo` calls, the timer object, `show`, `app.run` and the point shader `fragment_point`. The window closing on Escape is modelled as a `closed` flag.
- The `print` diagnostics of `on_key_press` are left out.
