/** The five stems a separated song is split into, the order in which the
    players walk them, and the record holding one value per stem (the shape of
    the players' `tracks` and `audioRefs` objects). */
module Stems {

  datatype Stem = Vocals | Drums | Bass | Guitar | Other

  /** Where the separation service runs; the stem paths it returns are on it. */
  const BaseUrl: string := "http://localhost:8000"

  /** Iteration order of `Object.values(audioRefs)` and `Object.entries(tracks)`. */
  const AllStems: seq<Stem> := [Vocals, Drums, Bass, Guitar, Other]

  /** Position of a stem in the iteration order: every stem is visited. */
  function Index(s: Stem): (i: nat)
    ensures i < |AllStems| && AllStems[i] == s
  {
    match s
    case Vocals => 0
    case Drums => 1
    case Bass => 2
    case Guitar => 3
    case Other => 4
  }

  /** One value per stem, keyed as the players' objects are. */
  datatype PerStem<T> = PerStem(vocals: T, drums: T, bass: T, guitar: T, other: T)
  {
    function Get(s: Stem): T
    {
      match s
      case Vocals => vocals
      case Drums => drums
      case Bass => bass
      case Guitar => guitar
      case Other => other
    }

    /** `{ ...this, [s]: x }`: stem `s` now holds `x`, every other stem keeps its value. */
    function Put(s: Stem, x: T): (r: PerStem<T>)
      ensures r.Get(s) == x
      ensures forall o :: o != s ==> r.Get(o) == Get(o)
    {
      match s
      case Vocals => this.(vocals := x)
      case Drums => this.(drums := x)
      case Bass => this.(bass := x)
      case Guitar => this.(guitar := x)
      case Other => this.(other := x)
    }
  }

  /** The same value for every stem. */
  function Uniform<T>(x: T): (r: PerStem<T>)
    ensures forall s :: r.Get(s) == x
  {
    PerStem(x, x, x, x, x)
  }

  /** Two records are equal exactly when they agree on every stem. */
  lemma PerStemExt<T>(a: PerStem<T>, b: PerStem<T>)
    requires forall s :: a.Get(s) == b.Get(s)
    ensures a == b
  {
    assert a.Get(Vocals) == b.Get(Vocals) && a.Get(Drums) == b.Get(Drums);
    assert a.Get(Bass) == b.Get(Bass) && a.Get(Guitar) == b.Get(Guitar) && a.Get(Other) == b.Get(Other);
  }
}
