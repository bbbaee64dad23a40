/** Whole sessions of both players, driven through their operations from the
    moment the five elements are mounted. */
module Scenarios {
  import opened Stems
  import opened Media
  import AudioHook
  import AudioPlayer
  import PlayerTracks
  import HookTracks

  /** Mount one fresh element per stem. */
  method MountAll() returns (refs: map<Stem, Handle?>)
    ensures Wired(refs)
    ensures forall s :: s in refs ==> refs[s] != null && fresh(refs[s]) && refs[s].State() == Pristine
    ensures fresh(Mounted(refs))
  {
    var v := new Handle(Vocals);
    var d := new Handle(Drums);
    var b := new Handle(Bass);
    var g := new Handle(Guitar);
    var o := new Handle(Other);
    refs := map[Vocals := v, Drums := d, Bass := b, Guitar := g, Other := o];
    assert forall x :: x in Mounted(refs) ==> x in {v, d, b, g, o};
  }

  /** The stems' paths as the separation service reports them. */
  const Paths: map<Stem, string> := map[
    Vocals := "/stems/vocals.wav", Drums := "/stems/drums.wav", Bass := "/stems/bass.wav",
    Guitar := "/stems/guitar.wav", Other := "/stems/other.wav"]

  /** Load the separated stems into a fresh session. */
  method LoadStems(session: AudioHook.Session, drums: Handle)
    requires Wired(session.refs) && session.refs[Drums] == drums
    requires session.tracks == HookTracks.Initial && drums.State() == Pristine
    modifies session, Mounted(session.refs)
    ensures session.isPlaying == old(session.isPlaying) && !session.tracks.Get(Drums).muted
    ensures drums.src != "" && !drums.muted && drums.paused
  {
    session.UpdateTracks(Paths);
    session.SyncSources();
  }

  /** Start the stopped session. */
  method Start(session: AudioHook.Session, drums: Handle)
    requires Wired(session.refs) && session.refs[Drums] == drums
    requires !session.isPlaying && drums.src != "" && !drums.muted
    modifies session, Mounted(session.refs)
    ensures session.isPlaying && session.tracks == old(session.tracks)
    ensures !drums.muted && !drums.paused
  {
    session.TogglePlay({});
  }

  /** Mute the drums while playing, then stop. */
  method MuteDrumsAndStop(session: AudioHook.Session, drums: Handle)
    requires Wired(session.refs) && session.refs[Drums] == drums
    requires session.isPlaying && !session.tracks.Get(Drums).muted
    requires !drums.muted && !drums.paused
    modifies session, Mounted(session.refs)
    ensures !session.isPlaying && session.tracks.Get(Drums).muted
    ensures drums.muted && !drums.paused
  {
    session.ToggleMute(Drums, true);
    session.SyncSources();
    session.TogglePlay({});
  }

  /** Unmute the drums while stopped. */
  method UnmuteDrums(session: AudioHook.Session, drums: Handle)
    requires Wired(session.refs) && session.refs[Drums] == drums
    requires !session.isPlaying && session.tracks.Get(Drums).muted
    requires drums.muted && !drums.paused
    modifies session, Mounted(session.refs)
    ensures !session.isPlaying && !drums.muted && !drums.paused
  {
    session.ToggleMute(Drums, true);
    session.SyncSources();
  }

  /** In the hook, a stem muted while the session plays is not paused by the
      stop that follows (the stop only pauses unmuted elements), and unmuting
      it while stopped does not pause it either: the stem then plays, audible,
      while the session shows as stopped. */
  method MutedAcrossStop() returns (audibleWhileStopped: bool)
    ensures audibleWhileStopped
  {
    var refs := MountAll();
    var drums := refs[Drums];
    var session := new AudioHook.Session(refs);
    LoadStems(session, drums);
    Start(session, drums);
    MuteDrumsAndStop(session, drums);
    UnmuteDrums(session, drums);
    audibleWhileStopped := !session.isPlaying && !drums.muted && !drums.paused;
  }

  /** Upload a song the service separates, and let the src-loading effect run. */
  method UploadAndLoad(player: AudioPlayer.Player)
    requires player.Valid() && player.tracks == PlayerTracks.Initial
    modifies player, Mounted(player.refs)
    ensures player.Valid() && player.isPlaying == old(player.isPlaying) && player.error.None?
    ensures forall s :: s in player.refs && player.refs[s] != null ==>
      player.refs[s].src == BaseUrl + Paths[s]
  {
    player.HandleFileUpload(true, PlayerTracks.Separated(Paths));
    player.LoadSources();
  }

  /** Press play on the loaded, stopped player. */
  method PlayLoaded(player: AudioPlayer.Player)
    requires player.Valid() && !player.isPlaying && player.error.None?
    requires forall s :: s in player.refs ==>
      player.refs[s] != null && player.refs[s].src == BaseUrl + Paths[s]
    modifies player, Mounted(player.refs)
    ensures player.isPlaying && player.error.None?
    ensures forall s :: s in player.refs ==>
      && player.refs[s] != null
      && player.refs[s].src == BaseUrl + Paths[s]
      && !player.refs[s].paused
  {
    player.TogglePlay({});
  }

  /** In the single-component player, a separated upload followed by play
      binds every element to its stem on the service and sets all of them
      running. */
  method UploadThenPlay() returns (allRunning: bool)
    ensures allRunning
  {
    var refs := MountAll();
    var player := new AudioPlayer.Player(refs);
    UploadAndLoad(player);
    PlayLoaded(player);
    allRunning := player.isPlaying && player.error.None? &&
      forall s :: s in refs ==>
        refs[s] != null && refs[s].src == BaseUrl + Paths[s] && !refs[s].paused;
  }

  /** In the single-component player, a reply with four stems and no guitar
      still binds the guitar element, to the service URL ending in "undefined". */
  method FourStemUpload() returns (guitarUndefined: bool)
    ensures guitarUndefined
  {
    var refs := MountAll();
    var player := new AudioPlayer.Player(refs);
    player.HandleFileUpload(true, PlayerTracks.Separated(Paths - {Guitar}));
    player.LoadSources();
    guitarUndefined := refs[Guitar].src == BaseUrl + "undefined" && refs[Guitar].loads == 1;
  }

  /** In the single-component player, pressing a stem's mute button a second
      time does not bring the stem back: it stays at volume 0. */
  method MuteButtonTwice() returns (stillSilent: bool)
    ensures stillSilent
  {
    var refs := MountAll();
    var player := new AudioPlayer.Player(refs);
    player.MuteButton(Vocals);
    player.MuteButton(Vocals);
    stillSilent := player.tracks.Get(Vocals).volume == 0.0 && refs[Vocals].volume == 0.0;
  }
}
