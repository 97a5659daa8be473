/** The keyboard-driven display state of the canvas: five layer flags that
    switch terms of the water colour on and off, the shader multipliers they
    select, and the bed-depth offset nudged by the arrow keys. */
module Controls {

  /** The five layer flags, one per term of the fragment colour. */
  datatype Layers = Layers(diffused: bool, bed: bool, depth: bool, sky: bool, reflected: bool)

  /** The five shader multipliers u_diffused_mult, u_reflected_mult,
      u_bed_mult, u_depth_mult and u_sky_mult. */
  datatype Multipliers = Multipliers(diffused: real, reflected: real, bed: real, depth: real, sky: real)

  /** Every layer on, as the canvas starts. */
  const AllOn := Layers(true, true, true, true, true)

  /** The step of the Up and Down keys. */
  const BedDepthStep: real := 0.1

  /** Layer i of l, numbered in key order: 0 diffused light ('1'), 1 seabed
      ('2'), 2 ambient water ('3'), 3 sky ('4'), 4 sun reflection ('5'). */
  function Flag(l: Layers, i: nat): (on: bool)
    requires i < 5
  {
    match i
    case 0 => l.diffused
    case 1 => l.bed
    case 2 => l.depth
    case 3 => l.sky
    case _ => l.reflected
  }

  /** The layer a key toggles, or -1 for a key that toggles none. */
  function LayerOf(key: string): (i: int)
    ensures -1 <= i < 5
    ensures i >= 0 <==> key in {"1", "2", "3", "4", "5"}
  {
    if key == "1" then 0
    else if key == "2" then 1
    else if key == "3" then 2
    else if key == "4" then 3
    else if key == "5" then 4
    else -1
  }

  /** The effect of a key press on the layer flags. */
  function Press(l: Layers, key: string): (r: Layers)
    ensures r != l <==> LayerOf(key) >= 0
  {
    if key == "1" then l.(diffused := !l.diffused)
    else if key == "2" then l.(bed := !l.bed)
    else if key == "3" then l.(depth := !l.depth)
    else if key == "4" then l.(sky := !l.sky)
    else if key == "5" then l.(reflected := !l.reflected)
    else l
  }

  /** apply_flags: each flag selects its multiplier or 0. */
  function FlagMultipliers(l: Layers): (m: Multipliers)
    ensures 0.0 <= m.diffused <= 0.5
    ensures 0.0 <= m.reflected <= 1.0 && 0.0 <= m.bed <= 1.0
    ensures 0.0 <= m.depth <= 1.0 && 0.0 <= m.sky <= 1.0
  {
    Multipliers(if l.diffused then 0.5 else 0.0,
                if l.reflected then 1.0 else 0.0,
                if l.bed then 1.0 else 0.0,
                if l.depth then 1.0 else 0.0,
                if l.sky then 1.0 else 0.0)
  }

  /** m with multiplier i set to 0, numbered as Flag numbers the layers. */
  function Zeroed(m: Multipliers, i: nat): (z: Multipliers)
    requires i < 5
  {
    match i
    case 0 => m.(diffused := 0.0)
    case 1 => m.(bed := 0.0)
    case 2 => m.(depth := 0.0)
    case 3 => m.(sky := 0.0)
    case _ => m.(reflected := 0.0)
  }

  /** The effect of a key press on the bed-depth offset u_bed_depth. */
  function Nudge(offset: real, key: string): (r: real)
    ensures r != offset <==> key == "Up" || key == "Down"
    ensures key == "Up" ==> r > offset
    ensures key == "Down" ==> r < offset
  {
    if key == "Up" then offset + BedDepthStep
    else if key == "Down" then offset - BedDepthStep
    else offset
  }

  /** A key flips exactly the flag of its layer and no other; keys that
      name no layer leave every flag as it was. */
  lemma PressFlipsOnlyItsLayer(l: Layers, key: string, i: nat)
    requires i < 5
    ensures Flag(Press(l, key), i) == (Flag(l, i) != (i == LayerOf(key)))
  {
  }

  /** Pressing the same key twice restores every flag. */
  lemma PressTwiceRestores(l: Layers, key: string)
    ensures Press(Press(l, key), key) == l
  {
    if key == "1" {
      assert Press(l, key) == l.(diffused := !l.diffused);
    } else if key == "2" {
      assert Press(l, key) == l.(bed := !l.bed);
    } else if key == "3" {
      assert Press(l, key) == l.(depth := !l.depth);
    } else if key == "4" {
      assert Press(l, key) == l.(sky := !l.sky);
    } else if key == "5" {
      assert Press(l, key) == l.(reflected := !l.reflected);
    } else {
      assert Press(l, key) == l;
    }
  }

  /** Each multiplier is non-zero exactly when its flag is on, and then has
      the value the shader expects: 0.5 for diffused light, 1 otherwise. */
  lemma MultiplierOnIff(l: Layers)
    ensures FlagMultipliers(l).diffused != 0.0 <==> l.diffused
    ensures FlagMultipliers(l).reflected != 0.0 <==> l.reflected
    ensures FlagMultipliers(l).bed != 0.0 <==> l.bed
    ensures FlagMultipliers(l).depth != 0.0 <==> l.depth
    ensures FlagMultipliers(l).sky != 0.0 <==> l.sky
    ensures l.diffused ==> FlagMultipliers(l).diffused == 0.5
    ensures l.reflected ==> FlagMultipliers(l).reflected == 1.0
    ensures l.bed ==> FlagMultipliers(l).bed == 1.0
    ensures l.depth ==> FlagMultipliers(l).depth == 1.0
    ensures l.sky ==> FlagMultipliers(l).sky == 1.0
  {
  }

  /** Switching a layer off with its key zeroes that layer's multiplier and
      leaves the other four as they were; switching it back on restores it. */
  lemma PressOffZeroesItsMultiplier(l: Layers, key: string)
    requires LayerOf(key) >= 0
    ensures Flag(l, LayerOf(key)) ==> FlagMultipliers(Press(l, key)) == Zeroed(FlagMultipliers(l), LayerOf(key))
    ensures !Flag(l, LayerOf(key)) ==> FlagMultipliers(l) == Zeroed(FlagMultipliers(Press(l, key)), LayerOf(key))
  {
  }

  /** Up followed by Down, or Down followed by Up, restores the offset;
      other keys leave it alone. */
  lemma NudgeUpDownRestores(offset: real, key: string)
    ensures Nudge(Nudge(offset, "Up"), "Down") == offset
    ensures Nudge(Nudge(offset, "Down"), "Up") == offset
    ensures key != "Up" && key != "Down" ==> Nudge(offset, key) == offset
  {
  }
}
