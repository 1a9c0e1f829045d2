/**
 * `OcarinaPlayer` and its two subclasses. The two `lateinit` fields (the
 * ExoPlayer instance and the media source) become one explicit state: `load`
 * either sets both or throws before the player is ever stored, so a player
 * with only one of them set is never observable.
 */
module Player {
  import opened Wrappers
  import opened Errors
  import B = Backend

  /** Where bundled Flutter assets live inside an Android package. */
  const AssetPrefix: string := "file:///android_asset/"

  /** `FlutterAssets.getAssetFilePathByName(name[, packageName])`. */
  type AssetLookup = (string, Option<string>) -> string

  /** `AssetOcarinaPlayer` (with its optional package) or `FileOcarinaPlayer`. */
  datatype Kind = AssetPlayer(packageName: Option<string>) | FilePlayer

  datatype Init = Uninitialized | Initialized(exo: B.Exo, source: B.MediaSource)

  datatype Player = Player(
    kind: Kind,
    url: string,
    volume: real,
    loop: bool,
    hasContext: bool,   // the constructor was handed a non-null Android context
    init: Init)

  /** The constructor: configuration set, nothing initialised yet. */
  function Create(kind: Kind, url: string, volume: real, loop: bool, hasContext: bool): (p: Player)
    ensures p.init == Uninitialized
    ensures p.kind == kind && p.url == url && p.volume == volume && p.loop == loop
    ensures p.hasContext == hasContext
  {
    Player(kind, url, volume, loop, hasContext, Uninitialized)
  }

  /** Everything except the mutable volume and the lifecycle state. */
  predicate SameConfig(p: Player, q: Player)
  {
    p.kind == q.kind && p.url == q.url && p.loop == q.loop && p.hasContext == q.hasContext
  }

  /** The backend and media source of a loaded player, with everything else kept. */
  predicate Keeps(p: Player, q: Player)
  {
    SameConfig(p, q) && p.volume == q.volume && p.init.Initialized? && q.init.Initialized?
    && p.init.source == q.init.source
  }

  /** `extractMediaSourceFromUri`: which URI each subclass plays. */
  function MediaUri(kind: Kind, url: string, lookup: AssetLookup): (uri: string)
    ensures kind.FilePlayer? ==> uri == url
    ensures kind.AssetPlayer? ==>
      |AssetPrefix| <= |uri| && uri[..|AssetPrefix|] == AssetPrefix
      && uri[|AssetPrefix|..] == lookup(url, kind.packageName)
  {
    match kind
    case FilePlayer => url
    case AssetPlayer(pkg) => AssetPrefix + lookup(url, pkg)
  }

  /** `load`: build the backend, pick the repeat mode from `loop`, resolve the source. */
  function Load(p: Player, lookup: AssetLookup): (r: Outcome<Player>)
    ensures r.Failure? <==> !p.hasContext
    ensures r.Failure? ==> r.error == ContextNull
    ensures r.Success? ==>
      var q := r.value;
      && SameConfig(p, q) && q.volume == p.volume
      && q.init.Initialized?
      && (q.init.exo.repeatMode == B.RepeatAll <==> p.loop)
      && q.init.exo.playbackState == B.Idle && !q.init.exo.playWhenReady
      && q.init.exo.position == 0 && q.init.exo.media == None
      && q.init.exo.volume == None && q.init.exo.watchers == 0 && !q.init.exo.released
      && q.init.source == B.MediaSource(MediaUri(p.kind, p.url, lookup))
  {
    if !p.hasContext then Failure(ContextNull)
    else
      var exo := B.SetRepeatMode(B.Build(), if p.loop then B.RepeatAll else B.RepeatOff);
      Success(p.(init := Initialized(exo, B.MediaSource(MediaUri(p.kind, p.url, lookup)))))
  }

  /** Applies a backend transition behind `checkInitialized`. */
  function Guarded(p: Player, f: B.Exo -> B.Exo): (r: Outcome<Player>)
    ensures r.Failure? <==> p.init.Uninitialized?
    ensures r.Failure? ==> r.error == NotInitialized
    ensures r.Success? ==> Keeps(p, r.value) && r.value.init.exo == f(p.init.exo)
  {
    match p.init
    case Uninitialized => Failure(NotInitialized)
    case Initialized(exo, src) => Success(p.(init := Initialized(f(exo), src)))
  }

  /** `play`: rewind from Ended, prepare from Idle, then set playWhenReady. */
  function Play(p: Player): (r: Outcome<Player>)
    ensures r.Failure? <==> p.init.Uninitialized?
    ensures r.Failure? ==> r.error == NotInitialized
    ensures r.Success? ==> Keeps(p, r.value)
    ensures r.Success? ==>
      var (b, b') := (p.init.exo, r.value.init.exo);
      && b'.playWhenReady
      && b'.playbackState != B.Ended && b'.playbackState != B.Idle
      && b'.repeatMode == b.repeatMode && b'.watchers == b.watchers && b'.volume == b.volume
      && b'.released == b.released
      && (b.playbackState == B.Ended ==> b'.position == 0 && b'.media == b.media)
      && (b.playbackState == B.Idle ==> b'.position == 0 && b'.media == Some(p.init.source))
      && (b.playbackState != B.Ended && b.playbackState != B.Idle ==>
            b' == b.(playWhenReady := true))
  {
    match p.init
    case Uninitialized => Failure(NotInitialized)
    case Initialized(b, src) =>
      var b1 := if b.playbackState == B.Ended then B.SeekTo(b, 0)
                else if b.playbackState == B.Idle then B.Prepare(b, src)
                else b;
      Success(p.(init := Initialized(B.SetPlayWhenReady(b1, true), src)))
  }

  /** `stop`: the backend goes idle; the next `play` prepares the source again. */
  function Stop(p: Player): (r: Outcome<Player>)
    ensures r.Failure? <==> p.init.Uninitialized?
    ensures r.Success? ==>
      Keeps(p, r.value) && r.value.init.exo == p.init.exo.(playbackState := B.Idle)
  {
    Guarded(p, B.Stop)
  }

  /** `pause`: clears playWhenReady and nothing else. */
  function Pause(p: Player): (r: Outcome<Player>)
    ensures r.Failure? <==> p.init.Uninitialized?
    ensures r.Success? ==>
      Keeps(p, r.value) && !r.value.init.exo.playWhenReady
      && r.value.init.exo.(playWhenReady := true) == p.init.exo.(playWhenReady := true)
  {
    Guarded(p, (b: B.Exo) => B.SetPlayWhenReady(b, false))
  }

  /** `resume`: sets playWhenReady and nothing else (no prepare, no rewind). */
  function Resume(p: Player): (r: Outcome<Player>)
    ensures r.Failure? <==> p.init.Uninitialized?
    ensures r.Success? ==>
      Keeps(p, r.value) && r.value.init.exo.playWhenReady
      && r.value.init.exo.(playWhenReady := false) == p.init.exo.(playWhenReady := false)
  {
    Guarded(p, (b: B.Exo) => B.SetPlayWhenReady(b, true))
  }

  /** `seek(position)`: milliseconds go to the backend unchanged. */
  function Seek(p: Player, ms: int): (r: Outcome<Player>)
    ensures r.Failure? <==> p.init.Uninitialized?
    ensures r.Success? ==>
      Keeps(p, r.value) && r.value.init.exo.position == ms
      && r.value.init.exo.playWhenReady == p.init.exo.playWhenReady
      && r.value.init.exo.media == p.init.exo.media
      && r.value.init.exo.watchers == p.init.exo.watchers
    ensures r.Success? ==>
      r.value.init.exo.(position := ms, playbackState := p.init.exo.playbackState)
        == p.init.exo.(position := ms)
    ensures r.Success? ==>
      r.value.init.exo.playbackState
        == if p.init.exo.playbackState == B.Idle then B.Idle else B.Buffering
  {
    Guarded(p, (b: B.Exo) => B.SeekTo(b, ms))
  }

  /** `position()`: the backend's current position, in milliseconds. */
  function Position(p: Player): (r: Outcome<int>)
    ensures r.Failure? <==> p.init.Uninitialized?
    ensures r.Success? ==> r.value == p.init.exo.position
  {
    if p.init.Uninitialized? then Failure(NotInitialized) else Success(p.init.exo.position)
  }

  /** `volume(v)`: stores `v` in the field and on the backend. */
  function SetVolume(p: Player, v: real): (r: Outcome<Player>)
    ensures r.Failure? <==> p.init.Uninitialized?
    ensures r.Success? ==>
      var q := r.value;
      && SameConfig(p, q) && q.volume == v && q.init.Initialized?
      && q.init.source == p.init.source
      && q.init.exo == p.init.exo.(volume := Some(v))
  {
    match p.init
    case Uninitialized => Failure(NotInitialized)
    case Initialized(exo, src) =>
      Success(p.(volume := v, init := Initialized(B.SetVolume(exo, v), src)))
  }

  /** `dispose`: releases the backend; its listener registrations go with it. */
  function Dispose(p: Player): (r: Outcome<Player>)
    ensures r.Failure? <==> p.init.Uninitialized?
    ensures r.Success? ==>
      Keeps(p, r.value) && r.value.init.exo.released && r.value.init.exo.watchers == 0
  {
    Guarded(p, B.Release)
  }

  /** `addListener` (internal): registers the player's listener on the backend. */
  function Attach(p: Player): (q: Player)
    requires p.init.Initialized?
    ensures Keeps(p, q)
    ensures q.init.exo == p.init.exo.(watchers := p.init.exo.watchers + 1)
  {
    p.(init := Initialized(B.AddListener(p.init.exo), p.init.source))
  }

  /** `removeListener` (internal): removes the player's listener from the backend. */
  function Detach(p: Player): (q: Player)
    requires p.init.Initialized?
    ensures Keeps(p, q)
    ensures q.init.exo == p.init.exo.(watchers := 0)
  {
    p.(init := Initialized(B.RemoveListener(p.init.exo), p.init.source))
  }

  /** The backend of a loaded player progresses on its own; an unloaded player has none. */
  function Progress(p: Player, st: B.PlaybackState, ms: int): (q: Player)
    ensures p.init.Uninitialized? ==> q == p
    ensures p.init.Initialized? ==>
      Keeps(p, q) && q.init.exo.playbackState == st && q.init.exo.position == ms
      && q.init.exo.(playbackState := p.init.exo.playbackState, position := p.init.exo.position)
         == p.init.exo
  {
    match p.init
    case Uninitialized => p
    case Initialized(exo, src) => p.(init := Initialized(B.Advance(exo, st, ms), src))
  }

  // ---------------------------------------------------------------------------
  // Properties relating several operations
  // ---------------------------------------------------------------------------

  /** Two asset players play the same URI exactly when the asset lookup agrees. */
  lemma AssetUriInjective(pkg: Option<string>, url1: string, url2: string, lookup: AssetLookup)
    ensures MediaUri(AssetPlayer(pkg), url1, lookup) == MediaUri(AssetPlayer(pkg), url2, lookup)
        <==> lookup(url1, pkg) == lookup(url2, pkg)
  {
  }

  /** Seeking and then reading the position returns exactly the requested milliseconds. */
  lemma SeekThenPosition(p: Player, ms: int)
    requires p.init.Initialized?
    ensures Seek(p, ms).Success? && Position(Seek(p, ms).value) == Success(ms)
  {
  }

  /** `pause` twice is `pause` once; likewise `resume`. */
  lemma PauseResumeIdempotent(p: Player)
    requires p.init.Initialized?
    ensures Pause(p).Success? && Pause(Pause(p).value) == Pause(p)
    ensures Resume(p).Success? && Resume(Resume(p).value) == Resume(p)
  {
  }

  /** A `resume` after a `pause` leaves the player as a plain `resume` would. */
  lemma PauseThenResume(p: Player)
    requires p.init.Initialized?
    ensures Pause(p).Success? && Resume(Pause(p).value) == Resume(p)
  {
  }

  /** A second `play` changes nothing: the first already left Idle and Ended. */
  lemma PlayIdempotent(p: Player)
    requires p.init.Initialized?
    ensures Play(p).Success? && Play(Play(p).value) == Play(p)
  {
  }

  /** After `stop`, `play` prepares the player's own source again from position 0. */
  lemma StopThenPlay(p: Player)
    requires p.init.Initialized?
    ensures Stop(p).Success? && Play(Stop(p).value).Success?
    ensures var b := Play(Stop(p).value).value.init.exo;
      b.media == Some(p.init.source) && b.position == 0 && b.playWhenReady
  {
  }

  /** Loading then playing prepares the URI the subclass resolved for the player's url. */
  lemma LoadThenPlay(p: Player, lookup: AssetLookup)
    requires p.hasContext
    ensures Load(p, lookup).Success? && Play(Load(p, lookup).value).Success?
    ensures var b := Play(Load(p, lookup).value).value.init.exo;
      b.media == Some(B.MediaSource(MediaUri(p.kind, p.url, lookup)))
      && b.playWhenReady && b.position == 0
      && (b.repeatMode == B.RepeatAll <==> p.loop)
  {
  }

  /** Playing again after the media ran to its end rewinds to 0 and keeps the prepared media. */
  lemma PlayAfterEnd(p: Player, ms: int)
    requires p.init.Initialized?
    ensures var q := Play(Progress(p, B.Ended, ms));
      q.Success? && q.value.init.exo.position == 0 && q.value.init.exo.playWhenReady
      && q.value.init.exo.media == p.init.exo.media
  {
  }

  /** Before `load`, every other operation fails with NotInitialized. */
  lemma UnloadedRejects(p: Player, ms: int, v: real)
    requires p.init.Uninitialized?
    ensures Play(p) == Failure(NotInitialized) && Stop(p) == Failure(NotInitialized)
    ensures Pause(p) == Failure(NotInitialized) && Resume(p) == Failure(NotInitialized)
    ensures Seek(p, ms) == Failure(NotInitialized) && Position(p) == Failure(NotInitialized)
    ensures SetVolume(p, v) == Failure(NotInitialized) && Dispose(p) == Failure(NotInitialized)
  {
  }
}
