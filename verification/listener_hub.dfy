/**
 * The companion `addListener`, `removeListener` and `notifyListeners`:
 * subscribers keyed by id, and backend observation switched on for every
 * player when the first subscriber arrives and off when the last one leaves.
 */
module ListenerHub {
  import opened Registry
  import opened Ints
  import P = Player

  /** Attaches or detaches every stored player; needs them loaded (`lateinit` access). */
  function MapPlayers(players: map<Int32, P.Player>, attach: bool): (r: map<Int32, P.Player>)
    requires forall id :: id in players ==> players[id].init.Initialized?
    ensures r.Keys == players.Keys
    ensures forall id :: id in r ==>
      P.Keeps(players[id], r[id])
      && r[id].init.exo.watchers == (if attach then players[id].init.exo.watchers + 1 else 0)
      && r[id].init.exo.(watchers := 0) == players[id].init.exo.(watchers := 0)
  {
    map id | id in players :: if attach then P.Attach(players[id]) else P.Detach(players[id])
  }

  /** `addListener(id, cb)`: attach every player if there were no subscribers, then store `cb`. */
  function AddListener(reg: Registry, sid: string, cb: Callback): (r: Registry)
    requires Loaded(reg)
    ensures r.listeners == reg.listeners[sid := cb]
    ensures r.nextId == reg.nextId && r.players.Keys == reg.players.Keys
    ensures reg.listeners != map[] ==> r.players == reg.players
    ensures reg.listeners == map[] ==> forall id :: id in r.players ==>
      P.Keeps(reg.players[id], r.players[id]) && r.players[id].init.exo == reg.players[id].init.exo.(watchers := reg.players[id].init.exo.watchers + 1)
  {
    var players :=
      if reg.listeners == map[] && reg.players != map[] then MapPlayers(reg.players, true)
      else reg.players;
    Registry(reg.nextId, players, reg.listeners[sid := cb])
  }

  /** `removeListener(id)`: drop the entry, then detach every player if none is left. */
  function RemoveListener(reg: Registry, sid: string): (r: Registry)
    requires Loaded(reg)
    ensures r.listeners == reg.listeners - {sid}
    ensures r.nextId == reg.nextId && r.players.Keys == reg.players.Keys
    ensures r.listeners != map[] ==> r.players == reg.players
    ensures r.listeners == map[] ==> forall id :: id in r.players ==>
      P.Keeps(reg.players[id], r.players[id]) && r.players[id].init.exo == reg.players[id].init.exo.(watchers := 0)
  {
    var listeners := reg.listeners - {sid};
    var players :=
      if listeners == map[] && reg.players != map[] then MapPlayers(reg.players, false)
      else reg.players;
    Registry(reg.nextId, players, listeners)
  }

  lemma AddListenerPreserves(reg: Registry, sid: string, cb: Callback)
    requires Valid(reg)
    ensures Valid(AddListener(reg, sid, cb))
    ensures IdsBelow(reg) ==> IdsBelow(AddListener(reg, sid, cb))
  {
    assert sid in AddListener(reg, sid, cb).listeners;
  }

  lemma RemoveListenerPreserves(reg: Registry, sid: string)
    requires Valid(reg)
    ensures Valid(RemoveListener(reg, sid))
    ensures IdsBelow(reg) ==> IdsBelow(RemoveListener(reg, sid))
  {
  }

  /** Re-subscribing a known id replaces its callback and attaches nothing again. */
  lemma ResubscribeReplaces(reg: Registry, sid: string, cb: Callback)
    requires Loaded(reg) && sid in reg.listeners
    ensures AddListener(reg, sid, cb).players == reg.players
    ensures AddListener(reg, sid, cb).listeners[sid] == cb
    ensures AddListener(reg, sid, cb).listeners.Keys == reg.listeners.Keys
  {
  }

  /** One invocation of a subscriber's callback. */
  datatype Call = Call(subscriber: string, callback: Callback, url: string, isPlaying: bool)

  /** `notifyListeners(url, isPlaying)`: every current callback is called once with the same arguments. */
  method Notify(listeners: map<string, Callback>, url: string, isPlaying: bool) returns (calls: seq<Call>)
    ensures |calls| == |listeners|
    ensures forall i :: 0 <= i < |calls| ==>
      && calls[i].subscriber in listeners
      && calls[i].callback == listeners[calls[i].subscriber]
      && calls[i].url == url && calls[i].isPlaying == isPlaying
    ensures forall i, j :: 0 <= i < j < |calls| ==> calls[i].subscriber != calls[j].subscriber
    ensures forall sid :: sid in listeners ==> exists i :: 0 <= i < |calls| && calls[i].subscriber == sid
  {
    var pending := listeners.Keys;
    calls := [];
    while pending != {}
      invariant pending <= listeners.Keys
      invariant |calls| + |pending| == |listeners|
      invariant forall i :: 0 <= i < |calls| ==>
        && calls[i].subscriber in listeners && calls[i].subscriber !in pending
        && calls[i].callback == listeners[calls[i].subscriber]
        && calls[i].url == url && calls[i].isPlaying == isPlaying
      invariant forall i, j :: 0 <= i < j < |calls| ==> calls[i].subscriber != calls[j].subscriber
      invariant forall sid :: sid in listeners && sid !in pending ==>
        exists i :: 0 <= i < |calls| && calls[i].subscriber == sid
      decreases pending
    {
      var sid :| sid in pending;
      ghost var before := calls;
      calls := calls + [Call(sid, listeners[sid], url, isPlaying)];
      pending := pending - {sid};
      assert forall i :: 0 <= i < |before| ==> calls[i] == before[i];
      assert calls[|before|].subscriber == sid;
    }
  }
}
