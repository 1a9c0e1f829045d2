/**
 * Sequences of method-channel calls against one plugin instance, and the
 * properties that hold across them: ids handed out by `load` increase
 * strictly and are never reused, and the observation invariant holds after
 * every call.
 */
module Traces {
  import opened Wrappers
  import opened Errors
  import opened Ints
  import opened Registry
  import H = ListenerHub
  import P = Player
  import B = Backend

  /** One call into the plugin. */
  datatype Op =
    | LoadOp(req: LoadRequest)
    | PlayOp(id: Int32)
    | StopOp(id: Int32)
    | PauseOp(id: Int32)
    | ResumeOp(id: Int32)
    | SeekOp(id: Int32, position: Int32)
    | VolumeOp(id: Int32, v: real)
    | PositionOp(id: Int32)
    | DisposeOp(id: Int32)
    | Subscribe(sid: string, cb: Callback)
    | Unsubscribe(sid: string)
    | BackendMoves(id: Int32, st: B.PlaybackState, ms: int)  // the backend moves on by itself

  /** Runs one call; yields the id when it was a successful `load`. */
  function Apply(reg: Registry, op: Op, host: Host): (r: (Registry, Option<Int32>))
    requires Loaded(reg)
    ensures Loaded(r.0)
    ensures r.1.Some? <==> op.LoadOp? && host.attached
    ensures r.1.Some? ==> r.1.value == reg.nextId && r.0.nextId == Inc(reg.nextId)
    ensures r.1.None? ==> r.0.nextId == reg.nextId
  {
    match op
    case LoadOp(req) =>
      var s := Load(reg, req, host);
      (s.reg, if s.out.Success? then Some(s.out.value) else None)
    case PlayOp(id) => (Play(reg, id).reg, None)
    case StopOp(id) => (Stop(reg, id).reg, None)
    case PauseOp(id) => (Pause(reg, id).reg, None)
    case ResumeOp(id) => (Resume(reg, id).reg, None)
    case SeekOp(id, position) => (Seek(reg, id, position).reg, None)
    case VolumeOp(id, v) => (Volume(reg, id, v).reg, None)
    case PositionOp(id) => (reg, None)
    case DisposeOp(id) => (Dispose(reg, id).reg, None)
    case Subscribe(sid, cb) => (H.AddListener(reg, sid, cb), None)
    case Unsubscribe(sid) => (H.RemoveListener(reg, sid), None)
    case BackendMoves(id, st, ms) => (Progress(reg, id, st, ms), None)
  }

  /** Runs the calls in order, collecting the ids the successful loads returned. */
  function Run(reg: Registry, ops: seq<Op>, host: Host): (r: (Registry, seq<Int32>))
    requires Loaded(reg)
    ensures Loaded(r.0)
    ensures |r.1| <= |ops|
    decreases |ops|
  {
    if ops == [] then (reg, [])
    else
      var (reg1, loaded) := Apply(reg, ops[0], host);
      var (reg2, ids) := Run(reg1, ops[1..], host);
      (reg2, (if loaded.Some? then [loaded.value] else []) + ids)
  }

  /** How many of the calls are `load`s: only those move the counter. */
  function Loads(ops: seq<Op>): (n: nat)
    ensures n <= |ops|
  {
    if ops == [] then 0 else (if ops[0].LoadOp? then 1 else 0) + Loads(ops[1..])
  }

  ghost predicate StrictlyIncreasing(ids: seq<Int32>)
  {
    forall i, j :: 0 <= i < j < |ids| ==> ids[i] < ids[j]
  }

  /** One call keeps the observation invariant and, below the wrap point, id freshness. */
  lemma ApplyPreserves(reg: Registry, op: Op, host: Host)
    requires Valid(reg)
    ensures Valid(Apply(reg, op, host).0)
    ensures IdsBelow(reg) && (op.LoadOp? ==> reg.nextId < MaxInt32) ==> IdsBelow(Apply(reg, op, host).0)
  {
    match op
    case LoadOp(req) => LoadPreserves(reg, req, host);
    case PlayOp(id) => ForwardPreserves(reg, Play(reg, id), id);
    case StopOp(id) => ForwardPreserves(reg, Stop(reg, id), id);
    case PauseOp(id) => ForwardPreserves(reg, Pause(reg, id), id);
    case ResumeOp(id) => ForwardPreserves(reg, Resume(reg, id), id);
    case SeekOp(id, position) => ForwardPreserves(reg, Seek(reg, id, position), id);
    case VolumeOp(id, v) => ForwardPreserves(reg, Volume(reg, id, v), id);
    case PositionOp(id) =>
    case DisposeOp(id) => DisposePreserves(reg, id);
    case Subscribe(sid, cb) => H.AddListenerPreserves(reg, sid, cb);
    case Unsubscribe(sid) => H.RemoveListenerPreserves(reg, sid);
    case BackendMoves(id, st, ms) => ProgressPreserves(reg, id, st, ms);
  }

  /**
   * Across any run that stays below the counter's wrap point, the returned
   * ids are strictly increasing, each one was free when handed out, the
   * counter ends exactly one past the last, and every player stays observed
   * iff some subscriber exists.
   */
  lemma {:induction false} RunFreshIds(reg: Registry, ops: seq<Op>, host: Host)
    requires Valid(reg) && IdsBelow(reg)
    requires reg.nextId + Loads(ops) <= MaxInt32
    ensures var (final, ids) := Run(reg, ops, host);
      && Valid(final) && IdsBelow(final)
      && StrictlyIncreasing(ids)
      && final.nextId == reg.nextId + |ids|
      && (forall i :: 0 <= i < |ids| ==> reg.nextId <= ids[i] < final.nextId)
      && (forall i :: 0 <= i < |ids| ==> ids[i] !in reg.players)
    decreases |ops|
  {
    if ops != [] {
      var (reg1, loaded) := Apply(reg, ops[0], host);
      ApplyPreserves(reg, ops[0], host);
      RunFreshIds(reg1, ops[1..], host);
    }
  }

  /** The counter wraps: the load at the top of the range is followed by a negative id. */
  lemma LoadWrapsAtMax(reg: Registry, req: LoadRequest, host: Host)
    requires reg.nextId == MaxInt32 && host.attached
    ensures Load(reg, req, host).out == Success(MaxInt32 as Int32)
    ensures Load(reg, req, host).reg.nextId == MinInt32
  {
  }

  // ---------------------------------------------------------------------------
  // Concrete scenarios
  // ---------------------------------------------------------------------------

  /** A stand-in asset lookup for the scenarios: every asset resolves to its own name. */
  function SameName(url: string, pkg: Option<string>): string { url }

  /**
   * Subscribe with no players, load two, unsubscribe: each player is
   * attached once at load and detached at the unsubscribe.
   */
  lemma SubscribeLoadTwiceUnsubscribe(req: LoadRequest)
    ensures
      var host := Host(true, SameName);
      var r1 := H.AddListener(Empty, "ui", Callback(7));
      var s2 := Load(r1, req, host);
      var s3 := Load(s2.reg, req, host);
      && s2.out == Success(0) && s3.out == Success(1)
      && s3.reg.players.Keys == {0, 1}
      && s3.reg.players[0].init.Initialized? && s3.reg.players[0].init.exo.watchers == 1
      && s3.reg.players[1].init.Initialized? && s3.reg.players[1].init.exo.watchers == 1
      && var r4 := H.RemoveListener(s3.reg, "ui");
      && r4.listeners == map[]
      && r4.players[0].init.exo.watchers == 0 && r4.players[1].init.exo.watchers == 0
  {
    var host := Host(true, SameName);
    var r1 := H.AddListener(Empty, "ui", Callback(7));
    var s2 := Load(r1, req, host);
    var s3 := Load(s2.reg, req, host);
    assert s3.reg.players.Keys == {0, 1};
    assert s3.reg.listeners == map["ui" := Callback(7)];
    var r4 := H.RemoveListener(s3.reg, "ui");
    assert r4.listeners.Keys == {};
  }

  /** Load, play, dispose: afterwards the id is unknown to every operation. */
  lemma LoadPlayDisposePosition(req: LoadRequest)
    ensures
      var host := Host(true, SameName);
      var s1 := Load(Empty, req, host);
      && s1.out == Success(0)
      && var s2 := Play(s1.reg, 0);
      && s2.out == Success(Ack)
      && var s3 := Dispose(s2.reg, 0);
      && s3.out == Success(Ack)
      && Position(s3.reg, 0) == Failure(UnknownPlayer)
      && Play(s3.reg, 0).out == Failure(UnknownPlayer)
      && Dispose(s3.reg, 0).out == Failure(UnknownPlayer)
  {
  }

  /** Load, play, let the media run to its end, play again: the second play rewinds to 0. */
  lemma PlayToEndThenReplay(req: LoadRequest, ms: int)
    ensures
      var host := Host(true, SameName);
      var s1 := Load(Empty, req, host);
      var s2 := Play(s1.reg, 0);
      var r3 := Progress(s2.reg, 0, B.Ended, ms);
      var s4 := Play(r3, 0);
      && s4.out == Success(Ack)
      && Position(s4.reg, 0) == Success(0)
      && s4.reg.players[0].init.exo.playWhenReady
  {
  }
}
