/**
 * The `OcarinaPlugin` side: the per-instance id counter, the companion map
 * from ids to players, and the operations the method channel dispatches to.
 * The companion listener map lives here too because `load` reads it; the
 * operations that change it are in `ListenerHub`.
 */
module Registry {
  import opened Wrappers
  import opened Errors
  import opened Ints
  import B = Backend
  import P = Player

  /** A subscriber's `(url, isPlaying) -> Unit` callback, as an opaque handle. */
  datatype Callback = Callback(handle: nat)

  datatype Registry = Registry(
    nextId: Int32,                        // `playerIds`
    players: map<Int32, P.Player>,        // companion `players`
    listeners: map<string, Callback>)     // companion `listeners`

  /** `result.success(0)`. */
  datatype Ack = Ack

  /** The registry after an operation together with what the caller receives. */
  datatype Step<T> = Step(reg: Registry, out: Outcome<T>)

  /** The arguments of a `load` call. */
  datatype LoadRequest = LoadRequest(
    url: string, isAsset: bool, packageName: Option<string>, volume: real, loop: bool)

  /** What `onAttachedToEngine` provides: the context and the Flutter assets. */
  datatype Host = Host(attached: bool, lookup: P.AssetLookup)

  const Empty: Registry := Registry(0, map[], map[])

  /** Every stored player was loaded and has not been released. */
  ghost predicate Loaded(reg: Registry)
  {
    forall id :: id in reg.players ==>
      reg.players[id].init.Initialized? && !reg.players[id].init.exo.released
  }

  /** Every stored player is observed exactly once iff some subscriber exists, else not at all. */
  ghost predicate Observed(reg: Registry)
    requires Loaded(reg)
  {
    forall id :: id in reg.players ==>
      reg.players[id].init.exo.watchers == if reg.listeners == map[] then 0 else 1
  }

  ghost predicate Valid(reg: Registry)
  {
    Loaded(reg) && Observed(reg)
  }

  /** Every id in use is below the counter, so the counter's value is fresh. */
  ghost predicate IdsBelow(reg: Registry)
  {
    forall id :: id in reg.players ==> id < reg.nextId
  }

  /** A freshly attached plugin satisfies both invariants, so every reachable registry does. */
  lemma EmptyValid()
    ensures Valid(Empty) && IdsBelow(Empty)
  {
  }

  /** The player `load` constructs: asset or file subclass, with the engine's context. */
  function NewPlayer(req: LoadRequest): (p: P.Player)
    ensures p.init.Uninitialized? && p.hasContext
    ensures p.kind.AssetPlayer? <==> req.isAsset
    ensures p.kind.AssetPlayer? ==> p.kind.packageName == req.packageName
    ensures p.url == req.url && p.volume == req.volume && p.loop == req.loop
  {
    var kind := if req.isAsset then P.AssetPlayer(req.packageName) else P.FilePlayer;
    P.Create(kind, req.url, req.volume, req.loop, true)
  }

  /**
   * `load`: the id is the counter's current value; the player is loaded,
   * stored under it, the counter advances, and the player is attached when
   * subscribers already exist.
   */
  function Load(reg: Registry, req: LoadRequest, host: Host): (s: Step<Int32>)
    ensures s.out.Failure? <==> !host.attached
    ensures s.out.Failure? ==> s.out.error == EngineDetached && s.reg == reg
    ensures s.out.Success? ==>
      var id := s.out.value;
      && id == reg.nextId
      && s.reg.nextId == Inc(reg.nextId)
      && s.reg.listeners == reg.listeners
      && id in s.reg.players && s.reg.players == reg.players[id := s.reg.players[id]]
      && var p := s.reg.players[id];
      && P.SameConfig(NewPlayer(req), p) && p.volume == req.volume
      && p.init.Initialized? && !p.init.exo.released
      && p.init.source == B.MediaSource(P.MediaUri(NewPlayer(req).kind, req.url, host.lookup))
      && (p.init.exo.repeatMode == B.RepeatAll <==> req.loop)
      && p.init.exo.watchers == (if reg.listeners == map[] then 0 else 1)
      && p.init.exo.playbackState == B.Idle && !p.init.exo.playWhenReady
      && p.init.exo.position == 0 && p.init.exo.media == None && p.init.exo.volume == None
  {
    if !host.attached then Step(reg, Failure(EngineDetached))
    else
      match P.Load(NewPlayer(req), host.lookup)
      case Failure(e) => Step(reg, Failure(e))
      case Success(loaded) =>
        var id := reg.nextId;
        var stored := if reg.listeners != map[] then P.Attach(loaded) else loaded;
        Step(Registry(Inc(reg.nextId), reg.players[id := stored], reg.listeners), Success(id))
  }

  /** Looks up `id` and stores the result of `op` back under it; `!!` fails on a missing id. */
  function Forward(reg: Registry, id: Int32, op: P.Player -> Outcome<P.Player>): (s: Step<Ack>)
    ensures id !in reg.players ==> s == Step(reg, Failure(UnknownPlayer))
    ensures id in reg.players && op(reg.players[id]).Failure? ==>
      s == Step(reg, Failure(op(reg.players[id]).error))
    ensures id in reg.players && op(reg.players[id]).Success? ==>
      s == Step(reg.(players := reg.players[id := op(reg.players[id]).value]), Success(Ack))
  {
    if id !in reg.players then Step(reg, Failure(UnknownPlayer))
    else
      match op(reg.players[id])
      case Failure(e) => Step(reg, Failure(e))
      case Success(p) => Step(reg.(players := reg.players[id := p]), Success(Ack))
  }

  /** Only the entry under `id` may change; the counter and listeners never do. */
  ghost predicate OnlyEntry(reg: Registry, s: Step<Ack>, id: Int32)
  {
    && s.reg.nextId == reg.nextId && s.reg.listeners == reg.listeners
    && s.reg.players.Keys == reg.players.Keys
    && (forall k :: k in reg.players && k != id ==> s.reg.players[k] == reg.players[k])
    && (s.out.Failure? ==> s.reg == reg)
  }

  /** A forwarded operation fails exactly on a missing id or an unloaded player. */
  ghost predicate Rejects(reg: Registry, s: Step<Ack>, id: Int32)
  {
    && (id !in reg.players ==> s.out == Failure(UnknownPlayer))
    && (id in reg.players && reg.players[id].init.Uninitialized? ==> s.out == Failure(NotInitialized))
    && (id in reg.players && reg.players[id].init.Initialized? ==> s.out == Success(Ack))
  }

  function Play(reg: Registry, id: Int32): (s: Step<Ack>)
    ensures OnlyEntry(reg, s, id) && Rejects(reg, s, id)
    ensures s.out.Success? ==> s.reg.players[id].init.Initialized?
    ensures s.out.Success? ==>
      var (b, b') := (reg.players[id].init.exo, s.reg.players[id].init.exo);
      && b'.playWhenReady
      && b'.playbackState != B.Idle && b'.playbackState != B.Ended
      && b'.watchers == b.watchers && b'.released == b.released
    ensures s.out.Success? ==> s.reg.players[id] == P.Play(reg.players[id]).value
  {
    Forward(reg, id, P.Play)
  }

  function Stop(reg: Registry, id: Int32): (s: Step<Ack>)
    ensures OnlyEntry(reg, s, id) && Rejects(reg, s, id)
    ensures s.out.Success? ==>
      && s.reg.players[id].init.Initialized?
      && s.reg.players[id].init.exo == reg.players[id].init.exo.(playbackState := B.Idle)
    ensures s.out.Success? ==> s.reg.players[id] == P.Stop(reg.players[id]).value
  {
    Forward(reg, id, P.Stop)
  }

  function Pause(reg: Registry, id: Int32): (s: Step<Ack>)
    ensures OnlyEntry(reg, s, id) && Rejects(reg, s, id)
    ensures s.out.Success? ==>
      s.reg.players[id].init.Initialized? && !s.reg.players[id].init.exo.playWhenReady
    ensures s.out.Success? ==> s.reg.players[id] == P.Pause(reg.players[id]).value
  {
    Forward(reg, id, P.Pause)
  }

  function Resume(reg: Registry, id: Int32): (s: Step<Ack>)
    ensures OnlyEntry(reg, s, id) && Rejects(reg, s, id)
    ensures s.out.Success? ==>
      s.reg.players[id].init.Initialized? && s.reg.players[id].init.exo.playWhenReady
    ensures s.out.Success? ==> s.reg.players[id] == P.Resume(reg.players[id]).value
  {
    Forward(reg, id, P.Resume)
  }

  /** `seek`: the channel's `Int` position is widened to `Long` without loss. */
  function Seek(reg: Registry, id: Int32, position: Int32): (s: Step<Ack>)
    ensures OnlyEntry(reg, s, id) && Rejects(reg, s, id)
    ensures s.out.Success? ==>
      s.reg.players[id].init.Initialized? && s.reg.players[id].init.exo.position == position as int
    ensures s.out.Success? ==> s.reg.players[id] == P.Seek(reg.players[id], position as int).value
  {
    Forward(reg, id, (p: P.Player) => P.Seek(p, position as int))
  }

  function Volume(reg: Registry, id: Int32, v: real): (s: Step<Ack>)
    ensures OnlyEntry(reg, s, id) && Rejects(reg, s, id)
    ensures s.out.Success? ==>
      s.reg.players[id].volume == v && s.reg.players[id].init.Initialized?
      && s.reg.players[id].init.exo.volume == Some(v)
    ensures s.out.Success? ==> s.reg.players[id] == P.SetVolume(reg.players[id], v).value
  {
    Forward(reg, id, (p: P.Player) => P.SetVolume(p, v))
  }

  /** `position`: reads without changing anything. */
  function Position(reg: Registry, id: Int32): (r: Outcome<int>)
    ensures id !in reg.players ==> r == Failure(UnknownPlayer)
    ensures id in reg.players ==> (r.Failure? <==> reg.players[id].init.Uninitialized?)
    ensures id in reg.players && reg.players[id].init.Uninitialized? ==> r == Failure(NotInitialized)
    ensures r.Success? ==> id in reg.players && r.value == reg.players[id].init.exo.position
  {
    if id !in reg.players then Failure(UnknownPlayer) else P.Position(reg.players[id])
  }

  /** `dispose`: release the player, then remove its id; a failed release keeps the id. */
  function Dispose(reg: Registry, id: Int32): (s: Step<Ack>)
    ensures id !in reg.players ==> s == Step(reg, Failure(UnknownPlayer))
    ensures id in reg.players && reg.players[id].init.Uninitialized? ==>
      s == Step(reg, Failure(NotInitialized))
    ensures id in reg.players && reg.players[id].init.Initialized? ==> s.out == Success(Ack)
    ensures s.out.Failure? ==> s.reg == reg
    ensures s.out.Success? ==>
      && id in reg.players && reg.players[id].init.Initialized?
      && s.reg.players == reg.players - {id}
      && s.reg.nextId == reg.nextId && s.reg.listeners == reg.listeners
  {
    if id !in reg.players then Step(reg, Failure(UnknownPlayer))
    else
      match P.Dispose(reg.players[id])
      case Failure(e) => Step(reg, Failure(e))
      case Success(_) => Step(reg.(players := reg.players - {id}), Success(Ack))
  }

  /** Backend progress of the player under `id`, between two calls; no channel call. */
  function Progress(reg: Registry, id: Int32, st: B.PlaybackState, ms: int): (r: Registry)
    ensures r.nextId == reg.nextId && r.listeners == reg.listeners
    ensures r.players.Keys == reg.players.Keys
    ensures forall k :: k in reg.players && k != id ==> r.players[k] == reg.players[k]
    ensures id in reg.players ==> r.players[id] == P.Progress(reg.players[id], st, ms)
  {
    if id in reg.players then reg.(players := reg.players[id := P.Progress(reg.players[id], st, ms)])
    else reg
  }

  // ---------------------------------------------------------------------------
  // Invariants preserved by the player operations
  // ---------------------------------------------------------------------------

  /** `load` keeps the observation invariant and, below the wrap point, id freshness. */
  lemma LoadPreserves(reg: Registry, req: LoadRequest, host: Host)
    requires Valid(reg)
    ensures Valid(Load(reg, req, host).reg)
    ensures IdsBelow(reg) && reg.nextId < MaxInt32 ==> IdsBelow(Load(reg, req, host).reg)
  {
  }

  /** A forwarded operation that preserves loadedness and watchers keeps the invariant. */
  lemma ForwardPreserves(reg: Registry, s: Step<Ack>, id: Int32)
    requires Valid(reg) && OnlyEntry(reg, s, id)
    requires id in s.reg.players ==>
      && s.reg.players[id].init.Initialized? && !s.reg.players[id].init.exo.released
      && s.reg.players[id].init.exo.watchers == reg.players[id].init.exo.watchers
    ensures Valid(s.reg) && (IdsBelow(reg) ==> IdsBelow(s.reg))
  {
  }

  /** Backend progress never touches listener registrations, so the invariant survives it. */
  lemma ProgressPreserves(reg: Registry, id: Int32, st: B.PlaybackState, ms: int)
    requires Valid(reg)
    ensures Valid(Progress(reg, id, st, ms))
    ensures IdsBelow(reg) ==> IdsBelow(Progress(reg, id, st, ms))
  {
  }

  lemma DisposePreserves(reg: Registry, id: Int32)
    requires Valid(reg)
    ensures Valid(Dispose(reg, id).reg)
    ensures IdsBelow(reg) ==> IdsBelow(Dispose(reg, id).reg)
  {
  }

  /** Seek then position through the registry returns the channel's value unchanged. */
  lemma SeekThenPosition(reg: Registry, id: Int32, position: Int32)
    requires id in reg.players && reg.players[id].init.Initialized?
    ensures Position(Seek(reg, id, position).reg, id) == Success(position as int)
  {
  }
}
