/** The `useAudioHook` session: the track registry, the transport state and the
    five audio elements it drives. */
module AudioHook {
  import opened Wrappers
  import opened Stems
  import opened Media
  import opened Transport
  import opened HookTracks

  /** The URL-sync effect on one present element: when its track has a URL,
      the element is bound to that URL on the service, reloaded only when it was
      bound elsewhere, and takes the track's volume and mute flag and the
      session's rate; otherwise it is untouched.  It never moves, starts or stops. */
  function Refreshed(h: HandleState, tr: Track, rate: real): (r: HandleState)
    ensures Truthy(tr.url) ==> r.src == BaseUrl + tr.url.value
    ensures Truthy(tr.url) ==>
      r.loads == if h.src == BaseUrl + tr.url.value then h.loads else h.loads + 1
    ensures Truthy(tr.url) ==> r.volume == tr.volume && r.muted == tr.muted && r.rate == rate
    ensures !Truthy(tr.url) ==> r == h
    ensures r.position == h.position && r.paused == h.paused && r.plays == h.plays
  {
    if !Truthy(tr.url) then h
    else
      var full := BaseUrl + tr.url.value;
      var h' := if h.src != full then Loaded(h, full) else h;
      h'.(volume := tr.volume, muted := tr.muted, rate := rate)
  }

  /** Running the effect again on an unchanged track changes nothing more, and
      in particular reloads nothing. */
  lemma RefreshSettles(h: HandleState, tr: Track, rate: real)
    ensures Refreshed(Refreshed(h, tr, rate), tr, rate) == Refreshed(h, tr, rate)
  {
  }

  /** `toggleMute`'s work on the stem's element, given the new mute flag: the
      element takes the flag; when it is unmuted it is moved to the transport
      position `at` and `play()` is requested exactly when the transport is
      playing; when it is muted nothing else changes (it is not paused). */
  function Remute(h: HandleState, nowMuted: bool, at: real, playing: bool, ok: bool): (r: HandleState)
    ensures r.muted == nowMuted
    ensures nowMuted ==> r == h.(muted := true)
    ensures !nowMuted ==> r.position == at
    ensures !nowMuted ==> r.plays == if playing then h.plays + 1 else h.plays
    ensures !nowMuted ==> r.paused == (h.paused && !(playing && ok))
    ensures r.(muted := h.muted, position := h.position, plays := h.plays, paused := h.paused) == h
  {
    var h' := h.(muted := nowMuted);
    if nowMuted then h'
    else
      var moved := h'.(position := at);
      if playing then Played(moved, ok) else moved
  }

  /** `syncAudioTimes(t)`'s work on one present element. */
  method Snap(h: Handle, t: real)
    modifies h
    ensures h.State() == Synced(old(h.State()), t)
  {
    if !h.muted && Abs(h.position - t) > Tolerance {
      h.position := t;
    }
  }

  /** The session's transport state. */
  datatype Clock = Clock(
    currentTime: real,
    duration: real,
    playbackRate: real,
    isPlaying: bool,
    isSettingTime: bool,
    wasPlaying: bool)

  class Session {
    /** `audioRefs`: the element of each stem, null while not mounted. */
    const refs: map<Stem, Handle?>
    var tracks: Tracks
    var playbackRate: real
    var duration: real
    var currentTime: real
    var isPlaying: bool
    var isSettingTime: bool
    /** `wasPlayingRef.current` */
    var wasPlaying: bool

    ghost function ClockState(): Clock
      reads this
    {
      Clock(currentTime, duration, playbackRate, isPlaying, isSettingTime, wasPlaying)
    }

    constructor (refs: map<Stem, Handle?>)
      requires Wired(refs)
      ensures Wired(this.refs) && this.refs == refs
      ensures tracks == Initial
      ensures ClockState() == Clock(0.0, 0.0, 1.0, false, false, false)
    {
      this.refs := refs;
      tracks := Initial;
      playbackRate, duration, currentTime := 1.0, 0.0, 0.0;
      isPlaying, isSettingTime, wasPlaying := false, false, false;
    }

    /** `handleVolumeChange(s, v)` */
    method HandleVolumeChange(s: Stem, v: real)
      requires Wired(refs)
      modifies this, refs[s]
      ensures tracks == SetVolume(old(tracks), s, v)
      ensures refs[s] != null ==> refs[s].State() == Leveled(old(refs[s].State()), v)
      ensures ClockState() == old(ClockState())
    {
      var h := refs[s];
      if h != null {
        h.volume := v;
      }
      tracks := SetVolume(tracks, s, v);
    }

    /** `toggleMute(s)`, where `ok` is the outcome of the start it may request. */
    method ToggleMute(s: Stem, ok: bool)
      requires Wired(refs)
      modifies this, refs[s]
      ensures refs[s] == null ==> tracks == old(tracks)
      ensures refs[s] != null ==>
        && tracks == ToggleMuted(old(tracks), s)
        && refs[s].State() == Remute(old(refs[s].State()), !old(tracks).Get(s).muted,
                                     old(currentTime), old(isPlaying), ok)
      ensures ClockState() == old(ClockState())
    {
      var h := refs[s];
      if h == null {
        return;
      }
      var nowMuted := !tracks.Get(s).muted;
      h.muted := nowMuted;
      if !nowMuted {
        h.position := currentTime;
        if isPlaying {
          h.Play(ok);
        }
      }
      tracks := ToggleMuted(tracks, s);
    }

    /** `updateTracks(m)` */
    method UpdateTracks(m: map<Stem, string>)
      modifies this
      ensures tracks == WithUrls(old(tracks), m)
      ensures ClockState() == old(ClockState())
    {
      tracks := WithUrls(tracks, m);
    }

    /** `syncAudioTimes(t)` */
    method SyncAudioTimes(t: real)
      requires Wired(refs)
      modifies Mounted(refs)
      ensures forall s :: s in refs && refs[s] != null ==>
        refs[s].State() == Synced(old(refs[s].State()), t)
    {
      for i := 0 to |AllStems|
        invariant forall j :: 0 <= j < i && refs[AllStems[j]] != null ==>
          refs[AllStems[j]].State() == Synced(old(refs[AllStems[j]].State()), t)
        invariant forall j :: i <= j < |AllStems| && refs[AllStems[j]] != null ==>
          refs[AllStems[j]].State() == old(refs[AllStems[j]].State())
      {
        var h := refs[AllStems[i]];
        if h != null {
          Snap(h, t);
        }
      }
      forall s | s in refs && refs[s] != null
        ensures refs[s].State() == Synced(old(refs[s].State()), t)
      {
        var j := Index(s);
      }
    }

    /** Pause every present unmuted element (a walk of `togglePlay` and of `handleSeek`). */
    method HaltUnmuted()
      requires Wired(refs)
      modifies Mounted(refs)
      ensures forall s :: s in refs && refs[s] != null ==>
        refs[s].State() == Halted(old(refs[s].State()))
    {
      for i := 0 to |AllStems|
        invariant forall j :: 0 <= j < i && refs[AllStems[j]] != null ==>
          refs[AllStems[j]].State() == Halted(old(refs[AllStems[j]].State()))
        invariant forall j :: i <= j < |AllStems| && refs[AllStems[j]] != null ==>
          refs[AllStems[j]].State() == old(refs[AllStems[j]].State())
      {
        var s := AllStems[i];
        var h := refs[s];
        if h != null && !h.muted {
          h.Pause();
        }
      }
      forall s | s in refs && refs[s] != null
        ensures refs[s].State() == Halted(old(refs[s].State()))
      {
        var j := Index(s);
      }
    }

    /** Request `play()` on every present startable element (the starting walk of `togglePlay`). */
    method StartStartable(rejected: set<Stem>)
      requires Wired(refs)
      modifies Mounted(refs)
      ensures forall s :: s in refs && refs[s] != null ==>
        refs[s].State() == Started(old(refs[s].State()), s !in rejected)
    {
      for i := 0 to |AllStems|
        invariant forall j :: 0 <= j < i && refs[AllStems[j]] != null ==>
          refs[AllStems[j]].State() == Started(old(refs[AllStems[j]].State()), AllStems[j] !in rejected)
        invariant forall j :: i <= j < |AllStems| && refs[AllStems[j]] != null ==>
          refs[AllStems[j]].State() == old(refs[AllStems[j]].State())
      {
        var s := AllStems[i];
        var h := refs[s];
        if h != null && h.src != "" && !h.muted {
          h.Play(s !in rejected);
        }
      }
      forall s | s in refs && refs[s] != null
        ensures refs[s].State() == Started(old(refs[s].State()), s !in rejected)
      {
        var j := Index(s);
      }
    }

    /** Move every present unmuted element to `t` (the repositioning walk of `handleSeek`). */
    method MoveUnmuted(t: real)
      requires Wired(refs)
      modifies Mounted(refs)
      ensures forall s :: s in refs && refs[s] != null ==> refs[s].State() == Moved(old(refs[s].State()), t)
    {
      for i := 0 to |AllStems|
        invariant forall j :: 0 <= j < i && refs[AllStems[j]] != null ==>
          refs[AllStems[j]].State() == Moved(old(refs[AllStems[j]].State()), t)
        invariant forall j :: i <= j < |AllStems| && refs[AllStems[j]] != null ==>
          refs[AllStems[j]].State() == old(refs[AllStems[j]].State())
      {
        var s := AllStems[i];
        var h := refs[s];
        if h != null && !h.muted {
          h.position := t;
        }
      }
      forall s | s in refs && refs[s] != null
        ensures refs[s].State() == Moved(old(refs[s].State()), t)
      {
        var j := Index(s);
      }
    }

    /** Request `play()` on every present unmuted element (the resuming walk of `handleSeek`). */
    method ResumeUnmuted(rejected: set<Stem>)
      requires Wired(refs)
      modifies Mounted(refs)
      ensures forall s :: s in refs && refs[s] != null ==>
        refs[s].State() == Resumed(old(refs[s].State()), s !in rejected)
    {
      for i := 0 to |AllStems|
        invariant forall j :: 0 <= j < i && refs[AllStems[j]] != null ==>
          refs[AllStems[j]].State() == Resumed(old(refs[AllStems[j]].State()), AllStems[j] !in rejected)
        invariant forall j :: i <= j < |AllStems| && refs[AllStems[j]] != null ==>
          refs[AllStems[j]].State() == old(refs[AllStems[j]].State())
      {
        var s := AllStems[i];
        var h := refs[s];
        if h != null && !h.muted {
          h.Play(s !in rejected);
        }
      }
      forall s | s in refs && refs[s] != null
        ensures refs[s].State() == Resumed(old(refs[s].State()), s !in rejected)
      {
        var j := Index(s);
      }
    }

    /** `togglePlay()`, where `rejected` holds the stems whose start is rejected;
        a rejected start is caught, so the flag flips whatever the outcomes. */
    method TogglePlay(rejected: set<Stem>)
      requires Wired(refs)
      modifies this, Mounted(refs)
      ensures forall s :: s in refs && refs[s] != null ==>
        refs[s].State() == if old(isPlaying) then Halted(old(refs[s].State()))
                           else Started(old(refs[s].State()), s !in rejected)
      ensures tracks == old(tracks)
      ensures ClockState() == old(ClockState()).(isPlaying := !old(isPlaying))
    {
      if isPlaying {
        HaltUnmuted();
      } else {
        StartStartable(rejected);
      }
      isPlaying := !isPlaying;
    }

    /** `handleSeek(t)`, where `rejected` holds the stems whose resumed start is rejected. */
    method HandleSeek(t: real, rejected: set<Stem>)
      requires Wired(refs)
      modifies this, Mounted(refs)
      ensures old(isSettingTime) ==>
        && ClockState() == old(ClockState())
        && forall s :: s in refs && refs[s] != null ==> refs[s].State() == old(refs[s].State())
      ensures !old(isSettingTime) ==>
        && ClockState() == old(ClockState()).(currentTime := t, wasPlaying := old(isPlaying), isSettingTime := false)
        && forall s :: s in refs && refs[s] != null ==>
             refs[s].State() == Sought(old(refs[s].State()), t, old(isPlaying), s !in rejected)
      ensures tracks == old(tracks)
    {
      if isSettingTime {
        return;
      }
      isSettingTime := true;
      wasPlaying := isPlaying;
      if isPlaying {
        HaltUnmuted();
      }
      MoveUnmuted(t);
      currentTime := t;
      if wasPlaying {
        ResumeUnmuted(rejected);
      }
      isSettingTime := false;
    }

    /** `handleSpeedChange(v)` */
    method HandleSpeedChange(v: real)
      requires Wired(refs)
      modifies this, Mounted(refs)
      ensures forall s :: s in refs && refs[s] != null ==> refs[s].State() == Rated(old(refs[s].State()), v)
      ensures tracks == old(tracks)
      ensures ClockState() == old(ClockState()).(playbackRate := v)
    {
      playbackRate := v;
      SetRates(refs, v);
    }

    /** The URL-sync effect's work on one present element, for track `tr`. */
    method Refresh(h: Handle, tr: Track)
      modifies h
      ensures h.State() == Refreshed(old(h.State()), tr, playbackRate)
    {
      if Truthy(tr.url) {
        var full := BaseUrl + tr.url.value;
        if h.src != full {
          h.src := full;
          h.Load();
        }
        h.volume := tr.volume;
        h.muted := tr.muted;
        h.rate := playbackRate;
      }
    }

    /** The URL-sync effect, which React runs after every change of `tracks`;
        here the caller runs it after such a change. */
    method SyncSources()
      requires Wired(refs)
      modifies Mounted(refs)
      ensures forall s :: s in refs && refs[s] != null ==>
        refs[s].State() == Refreshed(old(refs[s].State()), tracks.Get(s), playbackRate)
    {
      for i := 0 to |AllStems|
        invariant forall j :: 0 <= j < i && refs[AllStems[j]] != null ==>
          refs[AllStems[j]].State() == Refreshed(old(refs[AllStems[j]].State()), tracks.Get(AllStems[j]), playbackRate)
        invariant forall j :: i <= j < |AllStems| && refs[AllStems[j]] != null ==>
          refs[AllStems[j]].State() == old(refs[AllStems[j]].State())
      {
        var s := AllStems[i];
        var h := refs[s];
        if h != null {
          Refresh(h, tracks.Get(s));
        }
      }
      forall s | s in refs && refs[s] != null
        ensures refs[s].State() == Refreshed(old(refs[s].State()), tracks.Get(s), playbackRate)
      {
        var j := Index(s);
      }
    }

    /** The `timeupdate` listener on stem `s`'s element, which reports `mediaDuration`:
        the transport follows the element unless a seek is under way. */
    method OnTimeUpdate(s: Stem, mediaDuration: real)
      requires Wired(refs) && refs[s] != null
      modifies this
      ensures old(isSettingTime) ==> ClockState() == old(ClockState())
      ensures !old(isSettingTime) ==>
        ClockState() == old(ClockState()).(currentTime := refs[s].position, duration := mediaDuration)
      ensures tracks == old(tracks)
    {
      if !isSettingTime {
        currentTime := refs[s].position;
        duration := mediaDuration;
      }
    }

    /** The `loadedmetadata` listener, which reports the element's `mediaDuration`:
        the transport takes it, even during a seek. */
    method OnLoadedMetadata(mediaDuration: real)
      modifies this
      ensures ClockState() == old(ClockState()).(duration := mediaDuration)
      ensures tracks == old(tracks)
    {
      duration := mediaDuration;
    }
  }
}
