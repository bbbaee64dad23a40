/** What each transport command does to one audio element.  The players walk
    their elements with `forEach` and give every present one the same
    treatment; each function here is that treatment, and each player method
    states that every present element ends in the function of its old state. */
module Transport {
  import opened Stems
  import opened Media

  /** How far an element may drift from the transport before it is snapped back. */
  const Tolerance: real := 0.1

  function Abs(x: real): real
  {
    if x < 0.0 then -x else x
  }

  /** An element that the hook's `togglePlay` starts: it has a source and is not muted. */
  predicate Startable(h: HandleState)
  {
    h.src != "" && !h.muted
  }

  /** `syncAudioTimes(t)` on one element: an unmuted element ends within
      `Tolerance` of `t`; one already close enough, or muted, is left alone;
      only the position can move. */
  function Synced(h: HandleState, t: real): (r: HandleState)
    ensures !r.muted ==> Abs(r.position - t) <= Tolerance
    ensures h.muted || Abs(h.position - t) <= Tolerance ==> r == h
    ensures r.(position := h.position) == h
  {
    if !h.muted && Abs(h.position - t) > Tolerance then h.(position := t) else h
  }

  /** The hook's pause walk: an unmuted element is paused, a muted one is not touched. */
  function Halted(h: HandleState): (r: HandleState)
    ensures !r.muted ==> r.paused
    ensures h.muted ==> r == h
    ensures r.(paused := h.paused) == h
  {
    if h.muted then h else Paused(h)
  }

  /** The hook's start walk, `ok` being the outcome of the start: `play()` is
      requested exactly on a startable element, which then runs unless its
      start is rejected; nothing else changes. */
  function Started(h: HandleState, ok: bool): (r: HandleState)
    ensures r.plays == h.plays + 1 <==> Startable(h)
    ensures !Startable(h) ==> r == h
    ensures Startable(h) && ok ==> !r.paused
    ensures !ok ==> r.paused == h.paused
    ensures r.(plays := h.plays, paused := h.paused) == h
  {
    if Startable(h) then Played(h, ok) else h
  }

  /** The hook's reposition walk: an unmuted element moves to `t`. */
  function Moved(h: HandleState, t: real): (r: HandleState)
    ensures !r.muted ==> r.position == t
    ensures h.muted ==> r == h
    ensures r.(position := h.position) == h
  {
    if h.muted then h else h.(position := t)
  }

  /** The hook's resume walk: `play()` on an unmuted element, source or not. */
  function Resumed(h: HandleState, ok: bool): (r: HandleState)
    ensures r.plays == h.plays + 1 <==> !h.muted
    ensures h.muted ==> r == h
    ensures !h.muted && ok ==> !r.paused
    ensures !ok ==> r.paused == h.paused
    ensures r.(plays := h.plays, paused := h.paused) == h
  {
    if h.muted then h else Played(h, ok)
  }

  /** The three walks of `handleSeek(t)` on one element, given whether the
      transport was playing: an unmuted element ends at `t`, and it was paused
      and asked to resume exactly when the transport was playing, after which
      it runs unless its start is rejected; a muted element is not touched. */
  function Sought(h: HandleState, t: real, playing: bool, ok: bool): (r: HandleState)
    ensures !r.muted ==> r.position == t
    ensures h.muted ==> r == h
    ensures r.plays == if playing && !h.muted then h.plays + 1 else h.plays
    ensures !h.muted ==> r.paused == (if playing then !ok else h.paused)
    ensures r.(position := h.position, plays := h.plays, paused := h.paused) == h
  {
    var halted := if playing then Halted(h) else h;
    var moved := Moved(halted, t);
    if playing then Resumed(moved, ok) else moved
  }

  /** `handleSpeedChange(v)` on one element, muted or not: only the rate changes, to `v`. */
  function Rated(h: HandleState, v: real): (r: HandleState)
    ensures r.rate == v
    ensures r.(rate := h.rate) == h
  {
    h.(rate := v)
  }

  /** A volume change on one element: only the volume changes, to `v`. */
  function Leveled(h: HandleState, v: real): (r: HandleState)
    ensures r.volume == v
    ensures r.(volume := h.volume) == h
  {
    h.(volume := v)
  }

  /** The `handleSpeedChange(v)` walk, the same in both players: every mounted
      element, muted or not, takes rate `v`. */
  method SetRates(refs: map<Stem, Handle?>, v: real)
    requires Wired(refs)
    modifies Mounted(refs)
    ensures forall s :: s in refs && refs[s] != null ==> refs[s].State() == Rated(old(refs[s].State()), v)
  {
    for i := 0 to |AllStems|
      invariant forall j :: 0 <= j < i && refs[AllStems[j]] != null ==>
        refs[AllStems[j]].State() == Rated(old(refs[AllStems[j]].State()), v)
      invariant forall j :: i <= j < |AllStems| && refs[AllStems[j]] != null ==>
        refs[AllStems[j]].State() == old(refs[AllStems[j]].State())
    {
      var h := refs[AllStems[i]];
      if h != null {
        h.rate := v;
      }
    }
    forall s | s in refs && refs[s] != null
      ensures refs[s].State() == Rated(old(refs[s].State()), v)
    {
      var j := Index(s);
    }
  }
}
