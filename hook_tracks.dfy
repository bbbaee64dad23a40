/** The track registry of the `useAudioHook` session: the `tracks` record and
    the updaters its `setTracks` calls apply to it. */
module HookTracks {
  import opened Wrappers
  import opened Stems

  /** One stem's entry.  `lastVolume` remembers the last non-zero volume; `url`
      is the stem's path on the separation service (relative), null until known. */
  datatype Track = Track(volume: real, muted: bool, lastVolume: real, url: Option<string>)

  /** A new stem's entry: full volume, audible, no source yet. */
  const Fresh: Track := Track(1.0, false, 1.0, None)

  /** The registry: an entry for each of the five stems. */
  type Tracks = PerStem<Track>

  /** The registry a session starts with. */
  const Initial: Tracks := Uniform(Fresh)

  /** The `handleVolumeChange(s, v)` updater: stem `s` gets volume `v`, and `v`
      becomes its last volume only when it is positive; nothing else changes. */
  function SetVolume(t: Tracks, s: Stem, v: real): (r: Tracks)
    ensures r.Get(s).volume == v
    ensures v > 0.0 ==> r.Get(s).lastVolume == v
    ensures v <= 0.0 ==> r.Get(s).lastVolume == t.Get(s).lastVolume
    ensures r.Get(s).muted == t.Get(s).muted && r.Get(s).url == t.Get(s).url
    ensures forall o :: o != s ==> r.Get(o) == t.Get(o)
  {
    var was := t.Get(s);
    t.Put(s, was.(volume := v, lastVolume := if v > 0.0 then v else was.lastVolume))
  }

  /** The `toggleMute(s)` updater: only stem `s`'s mute flag flips. */
  function ToggleMuted(t: Tracks, s: Stem): (r: Tracks)
    ensures r.Get(s).muted == !t.Get(s).muted
    ensures r.Get(s).(muted := t.Get(s).muted) == t.Get(s)
    ensures forall o :: o != s ==> r.Get(o) == t.Get(o)
  {
    t.Put(s, t.Get(s).(muted := !t.Get(s).muted))
  }

  /** The `updateTracks(m)` updater: every stem named in `m` gets its URL from
      `m` and keeps its volume, mute flag and last volume; the others are untouched. */
  function WithUrls(t: Tracks, m: map<Stem, string>): (r: Tracks)
    ensures forall s :: s in m ==> r.Get(s) == t.Get(s).(url := Some(m[s]))
    ensures forall s :: s !in m ==> r.Get(s) == t.Get(s)
  {
    PerStem(WithUrl(t, m, Vocals), WithUrl(t, m, Drums), WithUrl(t, m, Bass),
            WithUrl(t, m, Guitar), WithUrl(t, m, Other))
  }

  function WithUrl(t: Tracks, m: map<Stem, string>, s: Stem): Track
  {
    if s in m then t.Get(s).(url := Some(m[s])) else t.Get(s)
  }

  /** Toggling a stem's mute twice gives back the registry it started from. */
  lemma ToggleMutedTwice(t: Tracks, s: Stem)
    ensures ToggleMuted(ToggleMuted(t, s), s) == t
  {
    PerStemExt(ToggleMuted(ToggleMuted(t, s), s), t);
  }

  /** Unmuting does not bring back the remembered volume: a stem turned down
      to 0 and then toggled is still at 0, its last volume kept aside. */
  lemma ToggleKeepsLevel(t: Tracks, s: Stem)
    ensures ToggleMuted(SetVolume(t, s, 0.0), s).Get(s).volume == 0.0
    ensures ToggleMuted(SetVolume(t, s, 0.0), s).Get(s).lastVolume == t.Get(s).lastVolume
  {
  }

  /** One registry update, as the session's operations issue them. */
  datatype Edit = Volume(stem: Stem, level: real) | Mute(stem: Stem) | Urls(paths: map<Stem, string>)

  function Apply(t: Tracks, e: Edit): Tracks
  {
    match e
    case Volume(s, v) => SetVolume(t, s, v)
    case Mute(s) => ToggleMuted(t, s)
    case Urls(m) => WithUrls(t, m)
  }

  /** The registry after a history of updates, applied in order. */
  function Replay(t: Tracks, es: seq<Edit>): Tracks
    decreases |es|
  {
    if es == [] then t else Replay(Apply(t, es[0]), es[1..])
  }

  /** How many of the updates toggle stem `s`'s mute. */
  function MuteCount(es: seq<Edit>, s: Stem): nat
    decreases |es|
  {
    if es == [] then 0 else (if es[0] == Mute(s) then 1 else 0) + MuteCount(es[1..], s)
  }

  /** Whatever the history, a stem is muted exactly when it started muted and
      was toggled an even number of times, or started audible and was toggled
      an odd number of times: volume changes and URL updates never touch it. */
  lemma {:induction false} MuteParity(t: Tracks, es: seq<Edit>, s: Stem)
    ensures Replay(t, es).Get(s).muted == (t.Get(s).muted != (MuteCount(es, s) % 2 == 1))
    decreases |es|
  {
    if es != [] {
      MuteParity(Apply(t, es[0]), es[1..], s);
    }
  }

  /** The remembered volume stays positive through any history, so it is
      always a level that can be restored. */
  lemma {:induction false} LastVolumeStaysPositive(t: Tracks, es: seq<Edit>)
    requires forall s :: t.Get(s).lastVolume > 0.0
    ensures forall s :: Replay(t, es).Get(s).lastVolume > 0.0
    decreases |es|
  {
    if es != [] {
      var t' := Apply(t, es[0]);
      assert forall s :: t'.Get(s).lastVolume > 0.0;
      LastVolumeStaysPositive(t', es[1..]);
    }
  }

  /** A stem's URL changes only through an update that names it. */
  lemma {:induction false} UrlsOnlyFromUpdates(t: Tracks, es: seq<Edit>, s: Stem)
    requires forall k :: 0 <= k < |es| ==> !(es[k].Urls? && s in es[k].paths)
    ensures Replay(t, es).Get(s).url == t.Get(s).url
    decreases |es|
  {
    if es != [] {
      UrlsOnlyFromUpdates(Apply(t, es[0]), es[1..], s);
    }
  }
}
