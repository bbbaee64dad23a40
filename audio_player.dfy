/** The single-component `AudioPlayer`: its registry, its transport flags, the
    upload bookkeeping, and the five audio elements it drives. */
module AudioPlayer {
  import opened Wrappers
  import opened Stems
  import opened Media
  import opened Transport
  import opened PlayerTracks

  /** The src-loading effect on one element: a stem with a URL has its element
      bound to that URL and reloaded, on every run of the effect, even when the
      element is already bound there; a stem without one is untouched. */
  function Reloaded(h: HandleState, c: Channel): (r: HandleState)
    ensures Truthy(c.url) ==> r.src == c.url.value && r.loads == h.loads + 1
    ensures !Truthy(c.url) ==> r == h
    ensures r.(src := h.src, loads := h.loads) == h
  {
    if Truthy(c.url) then Loaded(h, c.url.value) else h
  }

  /** After a separation the effect rebinds every element to its stem's URL
      on the service. */
  lemma UploadRebindsAll(h: HandleState, t: Tracks, result: map<Stem, string>, s: Stem)
    ensures Reloaded(h, Uploaded(t, result).Get(s)) == Loaded(h, BaseUrl + PathText(result, s))
  {
    assert Truthy(Uploaded(t, result).Get(s).url);
  }

  /** Unlike the hook's effect, running it again reloads again. */
  lemma ReloadRepeats(h: HandleState, c: Channel)
    requires Truthy(c.url)
    ensures Reloaded(Reloaded(h, c), c) == Reloaded(h, c).(loads := h.loads + 2)
  {
  }

  /** Since every change of `tracks` re-runs the effect, a volume change on any
      one stem after a separation makes the effect reload every stem's element. */
  lemma VolumeChangeReloadsAll(h: HandleState, t: Tracks, result: map<Stem, string>, o: Stem, v: real, s: Stem)
    ensures Reloaded(h, SetVolume(Uploaded(t, result), o, v).Get(s)).loads == h.loads + 1
  {
    assert Truthy(SetVolume(Uploaded(t, result), o, v).Get(s).url);
  }

  /** The player's flags and upload bookkeeping. */
  datatype Panel = Panel(
    playbackRate: real,
    isPlaying: bool,
    isLoading: bool,
    progress: int,
    error: Option<string>)

  class Player {
    /** `audioRefs`: the element of each stem, null while not mounted. */
    const refs: map<Stem, Handle?>
    var tracks: Tracks
    var playbackRate: real
    var isPlaying: bool
    var isLoading: bool
    var progress: int
    var error: Option<string>

    /** The elements are wired, and no stem is ever muted: nothing in the
        player sets a mute flag. */
    ghost predicate Valid()
      reads this
    {
      && Wired(refs)
      && forall s :: !tracks.Get(s).muted
    }

    ghost function PanelState(): Panel
      reads this
    {
      Panel(playbackRate, isPlaying, isLoading, progress, error)
    }

    constructor (refs: map<Stem, Handle?>)
      requires Wired(refs)
      ensures Valid() && this.refs == refs
      ensures tracks == Initial
      ensures PanelState() == Panel(1.0, false, false, 0, None)
    {
      this.refs := refs;
      tracks := Initial;
      playbackRate, isPlaying := 1.0, false;
      isLoading, progress, error := false, 0, None;
    }

    /** The src-loading effect's work on one mounted element. */
    method Reload(h: Handle, c: Channel)
      modifies h
      ensures h.State() == Reloaded(old(h.State()), c)
    {
      if Truthy(c.url) {
        h.src := c.url.value;
        h.Load();
      }
    }

    /** The src-loading effect, which React runs after every change of
        `tracks`; here the caller runs it after such a change. */
    method LoadSources()
      requires Valid()
      modifies Mounted(refs)
      ensures forall s :: s in refs && refs[s] != null ==>
        refs[s].State() == Reloaded(old(refs[s].State()), tracks.Get(s))
    {
      for i := 0 to |AllStems|
        invariant forall j :: 0 <= j < i && refs[AllStems[j]] != null ==>
          refs[AllStems[j]].State() == Reloaded(old(refs[AllStems[j]].State()), tracks.Get(AllStems[j]))
        invariant forall j :: i <= j < |AllStems| && refs[AllStems[j]] != null ==>
          refs[AllStems[j]].State() == old(refs[AllStems[j]].State())
      {
        var s := AllStems[i];
        var h := refs[s];
        if h != null {
          Reload(h, tracks.Get(s));
        }
      }
      forall s | s in refs && refs[s] != null
        ensures refs[s].State() == Reloaded(old(refs[s].State()), tracks.Get(s))
      {
        var j := Index(s);
      }
    }

    /** `handleFileUpload`, where `selected` says whether a file was chosen and
        `reply` is how the separation request ended: without a file nothing
        happens; otherwise the registry and the message are settled by the
        reply, and loading and progress are reset whatever it was. */
    method HandleFileUpload(selected: bool, reply: Reply)
      requires Valid()
      modifies this
      ensures Valid()
      ensures !selected ==> tracks == old(tracks) && PanelState() == old(PanelState())
      ensures selected ==> (tracks, error) == Settle(old(tracks), reply)
      ensures selected ==> !isLoading && progress == 0
      ensures playbackRate == old(playbackRate) && isPlaying == old(isPlaying)
    {
      if !selected {
        return;
      }
      isLoading := true;
      error := None;
      match reply {
        case Failed(m) =>
          error := Some(m);
        case NotOk =>
          error := Some(SeparationFailed);
        case Separated(result) =>
          tracks := Uploaded(tracks, result);
      }
      isLoading := false;
      progress := 0;
    }

    /** Pause every mounted element, muted or not. */
    method PauseAll()
      requires Valid()
      modifies Mounted(refs)
      ensures forall s :: s in refs && refs[s] != null ==> refs[s].State() == Paused(old(refs[s].State()))
    {
      for i := 0 to |AllStems|
        invariant forall j :: 0 <= j < i && refs[AllStems[j]] != null ==>
          refs[AllStems[j]].State() == Paused(old(refs[AllStems[j]].State()))
        invariant forall j :: i <= j < |AllStems| && refs[AllStems[j]] != null ==>
          refs[AllStems[j]].State() == old(refs[AllStems[j]].State())
      {
        var h := refs[AllStems[i]];
        if h != null {
          h.Pause();
        }
      }
      forall s | s in refs && refs[s] != null
        ensures refs[s].State() == Paused(old(refs[s].State()))
      {
        var j := Index(s);
      }
    }

    /** Request `play()` on every mounted element, with or without a source. */
    method PlayAll(rejected: set<Stem>)
      requires Valid()
      modifies Mounted(refs)
      ensures forall s :: s in refs && refs[s] != null ==>
        refs[s].State() == Played(old(refs[s].State()), s !in rejected)
    {
      for i := 0 to |AllStems|
        invariant forall j :: 0 <= j < i && refs[AllStems[j]] != null ==>
          refs[AllStems[j]].State() == Played(old(refs[AllStems[j]].State()), AllStems[j] !in rejected)
        invariant forall j :: i <= j < |AllStems| && refs[AllStems[j]] != null ==>
          refs[AllStems[j]].State() == old(refs[AllStems[j]].State())
      {
        var s := AllStems[i];
        var h := refs[s];
        if h != null {
          h.Play(s !in rejected);
        }
      }
      forall s | s in refs && refs[s] != null
        ensures refs[s].State() == Played(old(refs[s].State()), s !in rejected)
      {
        var j := Index(s);
      }
    }

    /** `togglePlay()`, where `rejected` holds the stems whose start is rejected. */
    method TogglePlay(rejected: set<Stem>)
      requires Valid()
      modifies this, Mounted(refs)
      ensures Valid()
      ensures forall s :: s in refs && refs[s] != null ==>
        refs[s].State() == if old(isPlaying) then Paused(old(refs[s].State()))
                           else Played(old(refs[s].State()), s !in rejected)
      ensures tracks == old(tracks)
      ensures PanelState() == old(PanelState()).(isPlaying := !old(isPlaying))
    {
      if isPlaying {
        PauseAll();
      } else {
        PlayAll(rejected);
      }
      isPlaying := !isPlaying;
    }

    /** `handleVolumeChange(s, v)` */
    method HandleVolumeChange(s: Stem, v: real)
      requires Valid()
      modifies this, refs[s]
      ensures Valid()
      ensures tracks == SetVolume(old(tracks), s, v)
      ensures refs[s] != null ==> refs[s].State() == Leveled(old(refs[s].State()), v)
      ensures PanelState() == old(PanelState())
    {
      tracks := SetVolume(tracks, s, v);
      var h := refs[s];
      if h != null {
        h.volume := v;
      }
    }

    /** `handleSpeedChange(v)` */
    method HandleSpeedChange(v: real)
      requires Valid()
      modifies this, Mounted(refs)
      ensures Valid()
      ensures forall s :: s in refs && refs[s] != null ==> refs[s].State() == Rated(old(refs[s].State()), v)
      ensures tracks == old(tracks)
      ensures PanelState() == old(PanelState()).(playbackRate := v)
    {
      playbackRate := v;
      SetRates(refs, v);
    }

    /** A stem's mute button, which asks for volume 1 on a muted stem and 0
        otherwise: since no stem is ever muted, it always silences the stem. */
    method MuteButton(s: Stem)
      requires Valid()
      modifies this, refs[s]
      ensures Valid()
      ensures tracks == SetVolume(old(tracks), s, 0.0) && tracks.Get(s).volume == 0.0
      ensures refs[s] != null ==> refs[s].State() == Leveled(old(refs[s].State()), 0.0)
      ensures PanelState() == old(PanelState())
    {
      HandleVolumeChange(s, MuteLevel(tracks.Get(s)));
    }
  }
}
