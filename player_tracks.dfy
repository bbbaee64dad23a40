/** The track registry of the single-component `AudioPlayer`: the `tracks`
    record, the updaters its `setTracks` calls apply, and the upload reply that
    feeds it. */
module PlayerTracks {
  import opened Wrappers
  import opened Stems

  /** One stem's entry.  Here `url` is the full URL of the stem, null until an
      upload has been separated. */
  datatype Channel = Channel(volume: real, muted: bool, url: Option<string>)

  /** A new stem's entry: full volume, audible, no source yet. */
  const Fresh: Channel := Channel(1.0, false, None)

  type Tracks = PerStem<Channel>

  /** The registry the player starts with. */
  const Initial: Tracks := Uniform(Fresh)

  /** The message shown when the service answers with an error status ("audio separation failed"). */
  const SeparationFailed: string := "\U{97F3}\U{9891}\U{5206}\U{79BB}\U{5931}\U{8D25}"

  /** The `handleVolumeChange(s, v)` updater: only stem `s`'s volume changes, to `v`. */
  function SetVolume(t: Tracks, s: Stem, v: real): (r: Tracks)
    ensures r.Get(s).volume == v
    ensures r.Get(s).muted == t.Get(s).muted && r.Get(s).url == t.Get(s).url
    ensures forall o :: o != s ==> r.Get(o) == t.Get(o)
  {
    t.Put(s, t.Get(s).(volume := v))
  }

  /** How a stem's path from the reply's JSON object reads inside the URL
      template: the path itself, or "undefined" when the reply lacks that stem. */
  function PathText(result: map<Stem, string>, s: Stem): string
  {
    if s in result then result[s] else "undefined"
  }

  /** The updater applied after a successful separation: every one of the five
      stems gets the service's URL for its path, keeping its volume and mute
      flag, so every stem ends with a non-empty URL on the service. */
  function Uploaded(t: Tracks, result: map<Stem, string>): (r: Tracks)
    ensures forall s :: r.Get(s) == t.Get(s).(url := Some(BaseUrl + PathText(result, s)))
    ensures forall s :: Truthy(r.Get(s).url) && r.Get(s).url.value[..|BaseUrl|] == BaseUrl
  {
    PerStem(WithPath(t, result, Vocals), WithPath(t, result, Drums), WithPath(t, result, Bass),
            WithPath(t, result, Guitar), WithPath(t, result, Other))
  }

  function WithPath(t: Tracks, result: map<Stem, string>, s: Stem): Channel
  {
    t.Get(s).(url := Some(BaseUrl + PathText(result, s)))
  }

  /** A reply that lacks a stem binds that stem to the service URL ending in
      "undefined"; the stem's other settings are kept. */
  lemma MissingStemUndefined(t: Tracks, result: map<Stem, string>, s: Stem)
    requires s !in result
    ensures Uploaded(t, result).Get(s).url == Some(BaseUrl + "undefined")
    ensures Uploaded(t, result).Get(s).volume == t.Get(s).volume
  {
  }

  /** How the separation request ended: `fetch` or the JSON decoding threw
      (with that error's message), the service answered with an error status,
      or it answered with the stems' paths. */
  datatype Reply = Failed(message: string) | NotOk | Separated(result: map<Stem, string>)

  /** What `handleFileUpload` leaves behind for a reply: the new registry and
      the message shown.  A separation replaces every URL and clears the
      message; any failure keeps the registry and shows why. */
  function Settle(t: Tracks, reply: Reply): (r: (Tracks, Option<string>))
    ensures reply.Separated? <==> r.1 == None
    ensures reply.Separated? ==> r.0 == Uploaded(t, reply.result)
    ensures !reply.Separated? ==> r.0 == t
    ensures reply.NotOk? ==> r.1 == Some(SeparationFailed)
    ensures reply.Failed? ==> r.1 == Some(reply.message)
  {
    match reply
    case Failed(m) => (t, Some(m))
    case NotOk => (t, Some(SeparationFailed))
    case Separated(res) => (Uploaded(t, res), None)
  }

  /** One registry update, as the player's operations issue them. */
  datatype Edit = Volume(stem: Stem, level: real) | Upload(result: map<Stem, string>)

  function Apply(t: Tracks, e: Edit): Tracks
  {
    match e
    case Volume(s, v) => SetVolume(t, s, v)
    case Upload(res) => Uploaded(t, res)
  }

  /** The registry after a history of updates, applied in order. */
  function Replay(t: Tracks, es: seq<Edit>): Tracks
    decreases |es|
  {
    if es == [] then t else Replay(Apply(t, es[0]), es[1..])
  }

  /** No update of the player touches a mute flag. */
  lemma {:induction false} MutedNeverChanges(t: Tracks, es: seq<Edit>, s: Stem)
    ensures Replay(t, es).Get(s).muted == t.Get(s).muted
    decreases |es|
  {
    if es != [] {
      MutedNeverChanges(Apply(t, es[0]), es[1..], s);
    }
  }

  /** The level a stem's mute button asks for: 1 to unmute a muted stem, 0 otherwise. */
  function MuteLevel(c: Channel): real
  {
    if c.muted then 1.0 else 0.0
  }

  /** So whatever happened since the player started, a mute button only ever
      silences its stem: it can never restore a level. */
  lemma MuteButtonSilences(es: seq<Edit>, s: Stem)
    ensures MuteLevel(Replay(Initial, es).Get(s)) == 0.0
  {
    MutedNeverChanges(Initial, es, s);
  }

  /** Only an upload changes URLs, and after one every stem has a URL on the
      service: the newest upload decides them all. */
  lemma {:induction false} LastUploadDecides(t: Tracks, es: seq<Edit>, k: nat, s: Stem)
    requires k < |es| && es[k].Upload?
    requires forall i :: k < i < |es| ==> es[i].Volume?
    ensures Replay(t, es).Get(s).url == Some(BaseUrl + PathText(es[k].result, s))
    decreases |es|
  {
    if k == 0 {
      VolumesKeepUrls(Apply(t, es[0]), es[1..], s);
    } else {
      LastUploadDecides(Apply(t, es[0]), es[1..], k - 1, s);
    }
  }

  /** Volume changes alone leave every URL as it was. */
  lemma {:induction false} VolumesKeepUrls(t: Tracks, es: seq<Edit>, s: Stem)
    requires forall i :: 0 <= i < |es| ==> es[i].Volume?
    ensures Replay(t, es).Get(s).url == t.Get(s).url
    decreases |es|
  {
    if es != [] {
      VolumesKeepUrls(Apply(t, es[0]), es[1..], s);
    }
  }
}
