/** Wave objects as the canvas sees them: the background surface and the
    transient wave sources spawned by pointer presses. Their shapes live in
    surface.py, which is not part of this model; here a wave is a centre,
    an internal clock and a law that says what field it reports and when it
    is dead. */
module Sources {
  import opened Geometry
  import opened Fields

  /** The pluggable part of a wave class: the field it reports for a centre
      and an elapsed time, and whether it is dead at that time. */
  datatype WaveLaw = WaveLaw(shape: (Point, real) -> Field, dies: real -> bool)

  /** A law fit for an n-point lattice: every field it reports has n points,
      and once dead it stays dead as time goes on. */
  ghost predicate WellFormedLaw(law: WaveLaw, n: nat) {
    && (forall c, t :: HasSize(law.shape(c, t), n))
    && (forall t, t' :: t <= t' && law.dies(t) ==> law.dies(t'))
  }

  class WaveSource {
    const center: Point
    const law: WaveLaw
    /** Time elapsed since the source was made, advanced by Propagate. */
    var age: real

    /** A fresh source at center, its clock at zero. */
    constructor (center: Point, law: WaveLaw)
      ensures this.center == center && this.law == law && age == 0.0
    {
      this.center := center;
      this.law := law;
      age := 0.0;
    }

    /** propagate(dt): advances the internal clock by dt and nothing else. */
    method Propagate(dt: real)
      requires dt >= 0.0
      modifies this
      ensures age == old(age) + dt
    {
      age := age + dt;
    }

    /** height_and_normal(). */
    function HeightAndNormal(): (f: Field)
      reads this
    {
      law.shape(center, age)
    }

    /** is_dead(). */
    predicate Dead(): (dead: bool)
      reads this
    {
      law.dies(age)
    }
  }

  /** A source under a law fit for the lattice reports one height and one
      gradient per lattice point, whatever its age. */
  lemma FieldFitsLattice(w: WaveSource, n: nat)
    requires WellFormedLaw(w.law, n)
    ensures HasSize(w.HeightAndNormal(), n)
  {
    var law, c, t := w.law, w.center, w.age;
    assert HasSize(law.shape(c, t), n);
  }

  /** No source appears twice. */
  predicate Distinct(ws: seq<WaveSource>) {
    forall i, j :: 0 <= i < j < |ws| ==> ws[i] != ws[j]
  }

  /** a is b with some elements left out, the rest in their order. */
  predicate Subsequence<T(==)>(a: seq<T>, b: seq<T>)
    decreases |b|
  {
    if a == [] then true
    else if b == [] then false
    else if a[0] == b[0] then Subsequence(a[1..], b[1..])
    else Subsequence(a, b[1..])
  }

  /** The fields the sources of ws report, in list order. */
  function FieldsOf(ws: seq<WaveSource>): (fs: seq<Field>)
    reads ws
    ensures |fs| == |ws| && forall i :: 0 <= i < |ws| ==> fs[i] == ws[i].HeightAndNormal()
  {
    if ws == [] then [] else FieldsOf(ws[..|ws| - 1]) + [ws[|ws| - 1].HeightAndNormal()]
  }

  /** The list comprehension that drops every dead source. */
  function LiveOnly(ws: seq<WaveSource>): (live: seq<WaveSource>)
    reads ws
    ensures |live| <= |ws|
    ensures forall i :: 0 <= i < |live| ==> live[i] in ws && !live[i].Dead()
  {
    if ws == [] then []
    else if ws[0].Dead() then LiveOnly(ws[1..])
    else [ws[0]] + LiveOnly(ws[1..])
  }

  /** Pruning keeps exactly the live sources, each in its old relative
      order, and keeps a list of distinct sources distinct. */
  lemma {:induction false} LiveOnlyKeepsExactlyTheLive(ws: seq<WaveSource>)
    ensures forall w :: w in LiveOnly(ws) <==> w in ws && !w.Dead()
    ensures Subsequence(LiveOnly(ws), ws)
    ensures Distinct(ws) ==> Distinct(LiveOnly(ws))
    ensures |LiveOnly(ws)| <= |ws|
  {
    if ws != [] {
      var rest := LiveOnly(ws[1..]);
      LiveOnlyKeepsExactlyTheLive(ws[1..]);
      assert forall w :: w in ws <==> w == ws[0] || w in ws[1..];
      if !ws[0].Dead() {
        assert LiveOnly(ws) == [ws[0]] + rest;
        assert ([ws[0]] + rest)[1..] == rest;
        if Distinct(ws) {
          assert Distinct(ws[1..]);
          assert ws[0] !in ws[1..];
        }
      } else {
        // a dead head cannot be the head of the live list
        assert rest != [] ==> rest[0] in rest && rest[0] != ws[0];
        if Distinct(ws) {
          assert Distinct(ws[1..]);
        }
      }
    }
  }

  /** When no source is dead, pruning changes nothing. */
  lemma {:induction false} LiveOnlyOfLiveIsIdentity(ws: seq<WaveSource>)
    requires forall i :: 0 <= i < |ws| ==> !ws[i].Dead()
    ensures LiveOnly(ws) == ws
  {
    if ws != [] {
      LiveOnlyOfLiveIsIdentity(ws[1..]);
      assert [ws[0]] + ws[1..] == ws;
    }
  }
}
