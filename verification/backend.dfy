/**
 * An abstract ExoPlayer instance: only the observable fields the plugin reads
 * or writes. Each primitive below is one ExoPlayer call the plugin makes; its
 * effect is the documented ExoPlayer 2.x behaviour, reduced to these fields.
 */
module Backend {
  import opened Wrappers

  /** `Player.STATE_IDLE`, `STATE_BUFFERING`, `STATE_READY`, `STATE_ENDED`. */
  datatype PlaybackState = Idle | Buffering | Ready | Ended

  /** `Player.REPEAT_MODE_OFF` and `Player.REPEAT_MODE_ALL`. */
  datatype RepeatMode = RepeatOff | RepeatAll

  /** A media source, identified by the URI it was created from. */
  datatype MediaSource = MediaSource(uri: string)

  datatype Exo = Exo(
    playbackState: PlaybackState,
    playWhenReady: bool,
    position: int,              // milliseconds (a Kotlin `Long`)
    repeatMode: RepeatMode,
    media: Option<MediaSource>, // the source last handed to `prepare`
    volume: Option<real>,       // None: never set, the backend's own default
    watchers: nat,              // `addListener` calls since the last `removeListener`
    released: bool)

  /** `SimpleExoPlayer.Builder(context).build()`: a fresh, idle instance. */
  function Build(): Exo
  {
    Exo(Idle, false, 0, RepeatOff, None, None, 0, false)
  }

  function SetRepeatMode(b: Exo, m: RepeatMode): Exo
  {
    b.(repeatMode := m)
  }

  function SetPlayWhenReady(b: Exo, v: bool): Exo
  {
    b.(playWhenReady := v)
  }

  /** `seekTo(ms)`: moves the playhead; outside Idle the player buffers at the new position. */
  function SeekTo(b: Exo, ms: int): Exo
  {
    b.(position := ms,
       playbackState := if b.playbackState == Idle then Idle else Buffering)
  }

  /** The deprecated `prepare(mediaSource)`: sets the media, resets the position, starts buffering. */
  function Prepare(b: Exo, src: MediaSource): Exo
  {
    b.(media := Some(src), position := 0, playbackState := Buffering)
  }

  /** `stop()`: back to idle; the media must be prepared again before playing. */
  function Stop(b: Exo): Exo
  {
    b.(playbackState := Idle)
  }

  function SetVolume(b: Exo, v: real): Exo
  {
    b.(volume := Some(v))
  }

  /** `release()`: frees the instance and drops every registered listener. */
  function Release(b: Exo): Exo
  {
    b.(released := true, watchers := 0, playbackState := Idle)
  }

  /**
   * ExoPlayer's own progress between calls: buffering completes, the
   * playhead moves, the end of the media is reached. Which state and
   * position it reaches is up to the environment.
   */
  function Advance(b: Exo, st: PlaybackState, ms: int): Exo
  {
    b.(playbackState := st, position := ms)
  }

  function AddListener(b: Exo): Exo
  {
    b.(watchers := b.watchers + 1)
  }

  /** `removeListener(l)` removes every registration of `l`. */
  function RemoveListener(b: Exo): Exo
  {
    b.(watchers := 0)
  }
}
