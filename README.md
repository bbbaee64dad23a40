# Stem mixer: a verified model of the playback session

The stem mixer lets a user upload a song and have a separation service split it
into five stems: vocals, drums, bass, guitar and other. The stems then play back
together in the browser. Each stem gets its own volume and mute control, and
all stems share one transport: play/pause, seek and playback speed.

This project models the two frontend components that hold that session state.

- **`useAudioHook`** (`frontend/src/hooks/useAudioHook.js`) holds two things:
  - the track registry: per stem `volume`, `muted`, `lastVolume` and `url`;
  - the transport: `currentTime`, `duration`, `playbackRate`, `isPlaying`,
    `isSettingTime` and `wasPlayingRef`.

  It drives one `<audio>` element per stem. Its operations are:
  - `handleVolumeChange`, `toggleMute`, `updateTracks`;
  - `syncAudioTimes`, `togglePlay`, `handleSeek`, `handleSpeedChange`;
  - the URL-sync effect;
  - the `timeupdate` and `loadedmetadata` listeners.
- **`AudioPlayer`** (`frontend/components/AudioPlayer.js`) is the earlier
  single-component player. It has:
  - the same registry without `lastVolume`;
  - a `togglePlay` that does not filter elements;
  - volume and speed changes;
  - the src-loading effect;
  - the upload handler, which turns the separation service's reply into stem
    URLs and keeps its loading/error bookkeeping.

## Layout

| file | module | contents |
|---|---|---|
| `wrappers.dfy` | `Wrappers` | `Option` (JavaScript `null` versus a value) and JavaScript truthiness of a nullable string |
| `stems.dfy` | `Stems` | the `Stem` enumeration, the walk order, and `PerStem<T>`, the five-slot record shaped like `tracks` and `audioRefs` |
| `media.dfy` | `Media` | the audio element as a class `Handle` with a value snapshot `HandleState`; `play()`, `pause()` and `load()`; `Wired`, meaning each stem's slot holds that stem's own element |
| `transport.dfy` | `Transport` | what each transport walk does to one element, as pure functions, and the shared rate walk |
| `hook_tracks.dfy` | `HookTracks` | the hook's registry and its `setTracks` updaters, with lemmas over any history of updates |
| `audio_hook.dfy` | `AudioHook` | the hook's session as a class `Session` |
| `player_tracks.dfy` | `PlayerTracks` | the player's registry, the upload reply and its updaters, with lemmas over any history |
| `audio_player.dfy` | `AudioPlayer` | the single-component player as a class `Player` |
| `scenarios.dfy` | `Scenarios` | whole sessions driven through both classes |

### How the model is built

- **Elements.** Each audio element is a `Handle` object whose fields the
  operations assign. A missing element (`ref.current == null`) is a null
  `Handle?`.
- **Per-element specifications.** Every walk over the elements is a `for`
  loop over the stems in the object's key order. Each one is proved to leave
  every mounted element in a per-element function of its old state, and that
  function's contract states what the walk does to one element.
- **Browser outcomes are inputs.** Whether a `play()` start is rejected is
  given as `ok` or as the set `rejected`. The upload's outcome is given as a
  `Reply`.
- **Request counters.** A `Handle` counts its `play()` and `load()` requests
  in `plays` and `loads`. This makes "play is requested exactly when …"
  observable even when the start is rejected.
- **No source.** An element with no source has `src` equal to "".
- **Effects.** React runs the URL-sync effect (`SyncSources`) and the
  src-loading effect (`LoadSources`) after every change of `tracks`. Here
  they are separate methods that the caller runs after such a change, as
  `Scenarios` does; no operation runs them itself.
- **Registry updaters.** The registries are immutable values (`PerStem`).
  Each `setTracks` updater is a pure function. The class methods assign
  `tracks` the updater's result.

### Behaviour of the code worth knowing

- **Muting.** `toggleMute` only sets the element's `muted` flag when it mutes
  a stem; the element keeps running (`AudioHook.Remute`).
- **Unmuting.** Unmuting sets the flag, moves the element to the transport
  time and restarts it when the session plays. It leaves the volume as it
  is; `lastVolume` is recorded but never read (`HookTracks.ToggleKeepsLevel`).
- **Play flag.** `togglePlay` in the hook negates `isPlaying` whatever the
  start outcomes, also when no element could start, because a rejected
  start is caught per element (`AudioHook.Session.TogglePlay`).
- **Stopping.** The hook's stop pauses only unmuted elements. A stem muted
  while playing therefore keeps running through the stop and, once unmuted,
  is audible while the session shows as stopped
  (`Scenarios.MutedAcrossStop`). That trace needs a caller of `toggleMute`,
  and the repository has none: the one component that uses the hook
  (frontend/src/components/AudioPlayer.jsx:6-21) takes neither `toggleMute`
  nor `handleSeek`.
- **Hook mute button.** That component's mute button calls
  `handleVolumeChange(name, muted ? 1 : 0)` (AudioPlayer.jsx:117-118). Since
  only `toggleMute` sets a mute flag (`HookTracks.MuteParity`), in the
  repository's UI no stem is ever muted and the button only silences.
- **Seek guard.** `isSettingTime` starts false, and only `handleSeek` sets
  it, which clears it again before it returns (useAudioHook.js:174, 208);
  every other operation keeps it. So no sequence of operations reaches the
  "during a seek" branches of `handleSeek` and the `timeupdate` listener
  (useAudioHook.js:55, 172); `AudioHook.Session.HandleSeek` and
  `AudioHook.Session.OnTimeUpdate` still model them.
- **Drift correction.** `syncAudioTimes` snaps unmuted elements to within
  0.1 s of a time, but nothing in the hook calls it
  (`AudioHook.Session.SyncAudioTimes`).
- **Player mute button.** In the single-component player no operation sets
  a stem's `muted` flag, so its mute button always asks for volume 0 and can
  never unmute (`PlayerTracks.MuteButtonSilences`).
- **Missing stems.** The upload handler builds a URL for all five stems
  whatever the reply holds; a stem the reply lacks is bound to the service
  URL ending in "undefined" (`PlayerTracks.MissingStemUndefined`,
  `Scenarios.FourStemUpload`). The backend answers with one key per source
  of its separation model (backend/main.py:49, 116-124); if that model has
  no guitar source, this is the guitar element's fate on every upload.
- **Player reloads.** The player's src-loading effect reloads every stem
  with a URL on each run, and it runs after every change of `tracks`,
  including a volume change on one stem (`AudioPlayer.VolumeChangeReloadsAll`).

## Model

| member | source | states |
|---|---|---|
| Stems.Index | frontend/src/hooks/useAudioHook.js:23-29 | every stem has a slot in the walk order, so every walk visits every stem's element |
| Stems.PerStem.Put | frontend/src/hooks/useAudioHook.js:161-168 | the `{ ...prev, [track]: … }` copy: the named stem holds the new entry and every other stem keeps its own |
| Media.Played | frontend/src/hooks/useAudioHook.js:108 | `play()` adds one request; the element runs unless the start is rejected, and a rejected start leaves it as it was; nothing else changes |
| Media.Paused | frontend/src/hooks/useAudioHook.js:99 | `pause()` stops the element and changes nothing else |
| Media.Loaded | frontend/components/AudioPlayer.js:29-30 | `src = url; load()` binds the element to `url` and adds one reload request; nothing else changes |
| Transport.Synced | frontend/src/hooks/useAudioHook.js:83-90 | after `syncAudioTimes(t)` an unmuted element is within 0.1 s of `t`; a muted element, or one already within 0.1 s, is left as it was; only the position can change |
| Transport.Halted | frontend/src/hooks/useAudioHook.js:96-101 | the hook's stop pauses an unmuted element and leaves a muted one untouched |
| Transport.Started | frontend/src/hooks/useAudioHook.js:102-114 | the hook's start requests `play()` exactly on an element that has a source and is not muted; that element runs unless rejected; every other element is untouched |
| Transport.Moved | frontend/src/hooks/useAudioHook.js:189-195 | the seek's reposition walk moves an unmuted element to `t` and leaves a muted one untouched |
| Transport.Resumed | frontend/src/hooks/useAudioHook.js:198-206 | the seek's resume walk requests `play()` exactly on an unmuted element, with or without a source |
| Transport.Sought | frontend/src/hooks/useAudioHook.js:171-210 | after a seek an unmuted element is at `t`; it was asked to resume exactly when the transport was playing, and then it runs unless rejected (otherwise its paused state is kept); a muted element is untouched |
| Transport.Rated | frontend/src/hooks/useAudioHook.js:214-218 | a speed change sets the element's rate, muted or not, and nothing else |
| Transport.Leveled | frontend/src/hooks/useAudioHook.js:156-159 | a volume change sets the element's volume and nothing else |
| Transport.SetRates | frontend/src/hooks/useAudioHook.js:214-218 | every mounted element, muted or not, ends with rate `v` and nothing else changed |
| HookTracks.SetVolume | frontend/src/hooks/useAudioHook.js:161-168 | the stem gets volume `v`; its last volume becomes `v` exactly when `v > 0` and is kept otherwise; mute flag, URL and the other stems are unchanged |
| HookTracks.ToggleMuted | frontend/src/hooks/useAudioHook.js:127-152 | only the stem's mute flag flips; volume, last volume, URL and the other stems are kept |
| HookTracks.WithUrls | frontend/src/hooks/useAudioHook.js:221-229 | each stem named in the update gets its URL and keeps volume, mute flag and last volume; every other stem is unchanged |
| HookTracks.ToggleMutedTwice | frontend/src/hooks/useAudioHook.js:127-152 | toggling a stem's mute twice gives back the registry it started from |
| HookTracks.ToggleKeepsLevel | frontend/src/hooks/useAudioHook.js:145-151 | unmuting does not restore a volume turned down to 0; the last volume is only kept aside |
| HookTracks.MuteParity | frontend/src/hooks/useAudioHook.js:123-229 | after any history of updates, a stem's mute flag is its initial flag flipped once per toggle of that stem; volume and URL updates never touch it |
| HookTracks.LastVolumeStaysPositive | frontend/src/hooks/useAudioHook.js:161-168 | starting from positive last volumes, every stem's last volume stays positive through any history |
| HookTracks.UrlsOnlyFromUpdates | frontend/src/hooks/useAudioHook.js:221-229 | a stem's URL changes only through an `updateTracks` that names it |
| AudioHook.Refreshed | frontend/src/hooks/useAudioHook.js:32-47 | for a track with a URL, the element is bound to the service URL for that path and reloaded only when it was bound elsewhere; it takes the track's volume and mute flag and the session's rate; otherwise it is untouched; position, paused state and play requests never change |
| AudioHook.RefreshSettles | frontend/src/hooks/useAudioHook.js:36-40 | running the URL-sync effect again on the same track changes nothing and reloads nothing |
| AudioHook.Remute | frontend/src/hooks/useAudioHook.js:131-143 | the element takes the new mute flag; on unmute it moves to the transport position and `play()` is requested exactly when the transport plays; on mute nothing else changes, and in particular it is not paused |
| AudioHook.Session.constructor | frontend/src/hooks/useAudioHook.js:5-21 | a session starts with every stem at volume 1, audible, last volume 1, no URL; time 0, duration 0, rate 1, stopped, not seeking |
| AudioHook.Session.HandleVolumeChange | frontend/src/hooks/useAudioHook.js:155-169 | the registry is updated by `SetVolume`; a mounted element takes the volume; the transport is unchanged |
| AudioHook.Session.ToggleMute | frontend/src/hooks/useAudioHook.js:123-153 | with no element mounted nothing changes; otherwise the registry is updated by `ToggleMuted` and the element by `Remute`, using the transport's time and play flag |
| AudioHook.Session.UpdateTracks | frontend/src/hooks/useAudioHook.js:221-229 | the registry is updated by `WithUrls`; the transport is unchanged |
| AudioHook.Snap | frontend/src/hooks/useAudioHook.js:85-88 | one element ends as `Synced` says |
| AudioHook.Session.SyncAudioTimes | frontend/src/hooks/useAudioHook.js:83-90 | every mounted element ends as `Synced` says |
| AudioHook.Session.HaltUnmuted | frontend/src/hooks/useAudioHook.js:96-101 | every mounted element ends as `Halted` says |
| AudioHook.Session.StartStartable | frontend/src/hooks/useAudioHook.js:102-114 | every mounted element ends as `Started` says, with its own start outcome |
| AudioHook.Session.MoveUnmuted | frontend/src/hooks/useAudioHook.js:189-195 | every mounted element ends as `Moved` says |
| AudioHook.Session.ResumeUnmuted | frontend/src/hooks/useAudioHook.js:198-206 | every mounted element ends as `Resumed` says |
| AudioHook.Session.TogglePlay | frontend/src/hooks/useAudioHook.js:92-121 | a playing session halts its elements and a stopped one starts them; the play flag is negated whatever the outcomes; registry and the rest of the transport are unchanged |
| AudioHook.Session.HandleSeek | frontend/src/hooks/useAudioHook.js:171-210 | during a seek nothing changes; otherwise every mounted element ends as `Sought` says; the time becomes `t`, `wasPlaying` records the play flag, the seek guard ends cleared, and the play flag and registry are unchanged |
| AudioHook.Session.HandleSpeedChange | frontend/src/hooks/useAudioHook.js:212-219 | the session's rate and every mounted element's rate become `v`; nothing else changes |
| AudioHook.Session.Refresh | frontend/src/hooks/useAudioHook.js:34-45 | one element ends as `Refreshed` says |
| AudioHook.Session.SyncSources | frontend/src/hooks/useAudioHook.js:32-47 | every mounted element ends as `Refreshed` says for its own stem's track |
| AudioHook.Session.OnTimeUpdate | frontend/src/hooks/useAudioHook.js:54-60 | outside a seek the transport takes the element's time and duration; during a seek nothing changes |
| AudioHook.Session.OnLoadedMetadata | frontend/src/hooks/useAudioHook.js:62-64 | the transport takes the reported duration, even during a seek, and nothing else changes |
| PlayerTracks.SetVolume | frontend/components/AudioPlayer.js:97-100 | only the stem's volume changes, to `v` |
| PlayerTracks.Uploaded | frontend/components/AudioPlayer.js:68-74 | every one of the five stems gets the service URL for its path in the reply ("undefined" when the reply lacks it) and keeps volume and mute flag; every URL is then non-empty and on the service |
| PlayerTracks.MissingStemUndefined | frontend/components/AudioPlayer.js:68-74 | a stem missing from the reply gets the service URL ending in "undefined" and keeps its volume |
| PlayerTracks.Settle | frontend/components/AudioPlayer.js:61-79 | a separation replaces the URLs and leaves no message; an error status shows the fixed "separation failed" message and a thrown error shows its own; both keep the registry |
| PlayerTracks.MutedNeverChanges | frontend/components/AudioPlayer.js:67-104 | no history of volume changes and uploads changes any stem's mute flag |
| PlayerTracks.MuteButtonSilences | frontend/components/AudioPlayer.js:207 | whatever happened since the player started, a mute button asks for volume 0 |
| PlayerTracks.LastUploadDecides | frontend/components/AudioPlayer.js:68-74 | after an upload followed only by volume changes, every stem's URL is the one that upload gave it |
| PlayerTracks.VolumesKeepUrls | frontend/components/AudioPlayer.js:96-100 | volume changes alone leave every URL as it was |
| AudioPlayer.Reloaded | frontend/components/AudioPlayer.js:26-33 | a stem with a URL has its element bound to it and reloaded on every run; a stem without one is untouched; nothing else changes |
| AudioPlayer.UploadRebindsAll | frontend/components/AudioPlayer.js:68-74 | after a separation the effect rebinds every element to its stem's URL on the service |
| AudioPlayer.VolumeChangeReloadsAll | frontend/components/AudioPlayer.js:26-33 | after a separation, the effect run that follows a volume change on any stem reloads every stem's element |
| AudioPlayer.ReloadRepeats | frontend/components/AudioPlayer.js:28-31 | running the effect again reloads again, unlike the hook's effect |
| AudioPlayer.Player.constructor | frontend/components/AudioPlayer.js:4-24 | every stem starts at volume 1, audible, no URL; rate 1, stopped, not loading, progress 0, no message |
| AudioPlayer.Player.Reload | frontend/components/AudioPlayer.js:28-31 | one element ends as `Reloaded` says |
| AudioPlayer.Player.LoadSources | frontend/components/AudioPlayer.js:26-33 | every mounted element ends as `Reloaded` says for its own stem |
| AudioPlayer.Player.HandleFileUpload | frontend/components/AudioPlayer.js:35-80 | without a file nothing changes; otherwise registry and message are as `Settle` says, loading ends false and progress 0, and rate and play flag are unchanged; no stem becomes muted |
| AudioPlayer.Player.PauseAll | frontend/components/AudioPlayer.js:84-88 | every mounted element, muted or not, is paused |
| AudioPlayer.Player.PlayAll | frontend/components/AudioPlayer.js:84-90 | `play()` is requested on every mounted element, with or without a source, and each runs unless rejected |
| AudioPlayer.Player.TogglePlay | frontend/components/AudioPlayer.js:83-94 | a playing player pauses every mounted element and a stopped one starts every one; the play flag is negated; nothing else changes |
| AudioPlayer.Player.HandleVolumeChange | frontend/components/AudioPlayer.js:96-104 | the registry is updated by `SetVolume` and a mounted element takes the volume; nothing else changes |
| AudioPlayer.Player.HandleSpeedChange | frontend/components/AudioPlayer.js:106-113 | the player's rate and every mounted element's rate become `v`; nothing else changes |
| AudioPlayer.Player.MuteButton | frontend/components/AudioPlayer.js:207 | the stem is set to volume 0, in the registry and on its element |
| Scenarios.MutedAcrossStop | frontend/src/hooks/useAudioHook.js:92-153 | load, play, mute the drums, stop, unmute the drums: the drums element then plays, audible, while the session shows as stopped |
| Scenarios.UploadThenPlay | frontend/components/AudioPlayer.js:26-94 | a separated upload, the loading effect and play leave every element bound to its stem on the service and running |
| Scenarios.FourStemUpload | frontend/components/AudioPlayer.js:26-80 | a separated reply without guitar, followed by the loading effect, binds and reloads the guitar element at the service URL ending in "undefined" |
| Scenarios.MuteButtonTwice | frontend/components/AudioPlayer.js:207 | pressing a mute button twice leaves the stem at volume 0 |

## Left out

- Event-listener subscription (frontend/src/hooks/useAudioHook.js:50-81) is
  left out. Only the two listeners' bodies are modelled, as
  `OnTimeUpdate` and `OnLoadedMetadata`, which run when called.
- The single-component player's play/pause mirroring listeners
  (frontend/components/AudioPlayer.js:116-151) are left out. They re-trigger
  each other through browser events, which this sequential model does not
  have. Their cleanup removes nothing.
- The asynchrony of `play()`, `Promise.all` and `fetch` is left out. Each
  outcome is an input, and each operation runs to completion.
  - A rejected start in the hook is caught per element, so the outer `catch`
    of `togglePlay` (useAudioHook.js:117-119) cannot be reached from the
    modelled steps. The hook's `error` state is therefore not modelled.
  - The player's unawaited, uncaught `play()` rejection is only an
    unhandled promise.
- React rendering, batching and stale closures are not modelled:
  - every `set*` call is an immediate assignment;
  - every `setTracks` updater runs once;
  - the listeners and effects read current state.
- AudioHook.Session.HandleVolumeChange, AudioPlayer.Player.HandleVolumeChange
  and Transport.Leveled accept any real level, but a browser element's
  `volume` setter throws for a level outside [0, 1]. For a mounted stem the
  hook would then throw before its `setTracks` (useAudioHook.js:158), leaving
  the registry unchanged, and the player after its `setTracks`
  (AudioPlayer.js:97-102), changing the registry but not the element. Every
  slider and button passes a level in [0, 1] (AudioPlayer.js:199-207), so
  this throwing path is not modelled. The hook's only caller does the same:
  its volume slider and mute button pass a level in [0, 1]
  (frontend/src/components/AudioPlayer.jsx:107-118).
- Transport.Rated, Transport.SetRates and both `HandleSpeedChange`
  methods accept any real rate, but the `playbackRate` setter throws for a
  rate the browser cannot play. The speed slider passes 0.5 to 2
  (AudioPlayer.js:182-189; in the hook's caller,
  frontend/src/components/AudioPlayer.jsx:85-93), so this throwing path is
  not modelled.
- Browser behaviour is left out:
  - the browser's own reaction to `load()` (reset to 0, pause, fetch) is left
    out; `load()` is only counted. In the player, where every volume change
    re-runs the effect and reloads every stem with a URL, that reaction
    would stop every stem and rewind it to 0; the model records only the
    reload requests;
  - element time does not advance by itself;
  - browser URL normalisation of `src` is left out.
- Times, volumes and rates are reals. `NaN` durations and floating-point
  rounding are not modelled.
- `OnTimeUpdate`: the reported duration is a parameter. The model does not
  tie it to the element.
- `AudioHook.Session.UpdateTracks`: keys that are not stems are left out (the
  argument is typed by stem). In the source such a key adds a new entry
  holding only a `url`, and the URL-sync effect then throws on it, since
  `audioRefs` has no slot for that key (useAudioHook.js:34).
- `PlayerTracks.Uploaded`: the reply's stem paths are strings. A missing stem
  reads "undefined", as the template literal renders it. Non-string JSON
  values are not modelled.
- The upload request itself is not modelled: the file, the form data, the
  `XMLHttpRequest` progress listener (which is never sent, so progress is
  only ever reset to 0) and the base-URL host beyond its use as a prefix.
- `console.error` logging is left out.
- The hook's pass-through state and setters are left out: `cacheMode`,
  `isLoading`, `error`, `progress` and their setters (useAudioHook.js:4,
  17-19, 241-245). The hook itself never reads them.
- The following files are not part of this model:
  - backend/main.py: stem separation inference and HTTP routes;
  - frontend/src/utils/fileUploader.js: network client;
  - frontend/src/components/AudioPlayer.jsx and frontend/src/App.js:
    presentation.
