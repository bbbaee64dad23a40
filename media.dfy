/** One HTML audio element, as far as the players touch it. */
module Media {
  import opened Stems


  /** Everything the players read or write on an element.  `src` is "" while no
      source is set (the element reports an empty `src` then); `position` is its
      `currentTime`, `rate` its `playbackRate`.  `plays` and `loads` count the
      `play()` and `load()` requests made on it, so that a request stays visible
      even when the start it asked for is rejected. */
  datatype HandleState = HandleState(
    src: string,
    muted: bool,
    volume: real,
    position: real,
    paused: bool,
    rate: real,
    plays: nat,
    loads: nat)

  /** A newly created element: no source, audible, full volume, at 0, paused, normal speed. */
  const Pristine: HandleState := HandleState("", false, 1.0, 0.0, true, 1.0, 0, 0)

  /** `play()`: one more request; the element runs unless the start is rejected
      (a rejected start leaves it as it was). */
  function Played(h: HandleState, ok: bool): (r: HandleState)
    ensures r.plays == h.plays + 1
    ensures r.paused <==> h.paused && !ok
    ensures r.(plays := h.plays, paused := h.paused) == h
  {
    h.(plays := h.plays + 1, paused := h.paused && !ok)
  }

  /** `pause()`: the element stops where it is. */
  function Paused(h: HandleState): (r: HandleState)
    ensures r.paused
    ensures r.(paused := h.paused) == h
  {
    h.(paused := true)
  }

  /** `src = url; load()`: the element is rebound to `url`. */
  function Loaded(h: HandleState, url: string): (r: HandleState)
    ensures r.src == url && r.loads == h.loads + 1
    ensures r.(src := h.src, loads := h.loads) == h
  {
    h.(src := url, loads := h.loads + 1)
  }

  class Handle {
    ghost const owner: Stem
    var src: string
    var muted: bool
    var volume: real
    var position: real
    var paused: bool
    var rate: real
    var plays: nat
    var loads: nat

    function State(): HandleState
      reads this
    {
      HandleState(src, muted, volume, position, paused, rate, plays, loads)
    }

    constructor (ghost owner: Stem)
      ensures State() == Pristine && this.owner == owner
    {
      this.owner := owner;
      src, muted, volume, position := "", false, 1.0, 0.0;
      paused, rate, plays, loads := true, 1.0, 0, 0;
    }

    /** `play()`, whose outcome (`ok`: the start was not rejected) is an input. */
    method Play(ok: bool)
      modifies this
      ensures State() == Played(old(State()), ok)
    {
      plays := plays + 1;
      paused := paused && !ok;
    }

    method Pause()
      modifies this
      ensures State() == Paused(old(State()))
    {
      paused := true;
    }

    /** `load()`: a reload request for the current `src`. */
    method Load()
      modifies this
      ensures State() == old(State()).(loads := old(loads) + 1)
    {
      loads := loads + 1;
    }
  }

  /** An `audioRefs` object: a slot for every stem, each holding the element
      rendered for that stem (or null while it is not mounted), so no two
      stems share an element. */
  ghost predicate Wired(refs: map<Stem, Handle?>)
  {
    && Vocals in refs && Drums in refs && Bass in refs && Guitar in refs && Other in refs
    && (forall j :: 0 <= j < |AllStems| ==> AllStems[j] in refs)
    && forall s :: s in refs && refs[s] != null ==> refs[s].owner == s
  }

  /** The elements that are mounted. */
  function Mounted(refs: map<Stem, Handle?>): set<Handle?>
  {
    set s | s in refs && refs[s] != null :: refs[s]
  }
}
