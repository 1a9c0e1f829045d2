/**
 * Several plugin instances in one process. `playerIds` is an instance
 * field, but `players` and `listeners` belong to the companion object, so
 * every Flutter engine that attaches the plugin gets its own counter over the
 * same shared map.
 */
module Engines {
  import opened Wrappers
  import opened Errors
  import opened Ints
  import opened Registry
  import P = Player

  /** The process as written: one counter per plugin instance, shared maps. */
  datatype World = World(
    counters: map<nat, Int32>,
    players: map<Int32, P.Player>,
    listeners: map<string, Callback>)

  /** `load` on instance `engine`, with the counter it owns. */
  function LoadAsWritten(w: World, engine: nat, req: LoadRequest, host: Host): (r: (World, Outcome<Int32>))
    requires engine in w.counters
    ensures r.1.Success? ==> r.1.value == w.counters[engine] && r.1.value in r.0.players
    ensures r.1.Success? ==> r.0.players.Keys == w.players.Keys + {r.1.value}
    ensures r.0.counters.Keys == w.counters.Keys
    ensures r.1.Success? ==> r.0.counters == w.counters[engine := Inc(w.counters[engine])]
    ensures r.1.Failure? ==> r.0 == w
  {
    var s := Load(Registry(w.counters[engine], w.players, w.listeners), req, host);
    (World(w.counters[engine := s.reg.nextId], s.reg.players, s.reg.listeners), s.out)
  }

  /**
   * Two freshly attached engines each load one player: both are told id 0,
   * and the second player replaces the first in the shared map.
   */
  lemma TwoEnginesCollide(req1: LoadRequest, req2: LoadRequest, host: Host)
    requires host.attached
    ensures
      var w0 := World(map[0 := 0, 1 := 0], map[], map[]);
      var (w1, id1) := LoadAsWritten(w0, 0, req1, host);
      var (w2, id2) := LoadAsWritten(w1, 1, req2, host);
      && id1 == Success(0) && id2 == Success(0)
      && w2.players.Keys == {0}
      && w2.players[0].url == req2.url
  {
  }

  /**
   * The corrected design keeps one counter beside the shared maps, as
   * `Registry` does: two loads in a row, from whichever engines, get
   * different fresh ids and both players stay stored.
   */
  lemma SharedCounterKeepsBoth(reg: Registry, req1: LoadRequest, req2: LoadRequest, host: Host)
    requires host.attached && IdsBelow(reg) && reg.nextId + 2 <= MaxInt32
    ensures
      var s1 := Load(reg, req1, host);
      var s2 := Load(s1.reg, req2, host);
      && s1.out.Success? && s2.out.Success?
      && s1.out.value != s2.out.value
      && s1.out.value !in reg.players && s2.out.value !in reg.players
      && s2.reg.players.Keys == reg.players.Keys + {s1.out.value, s2.out.value}
      && s2.reg.players[s1.out.value] == s1.reg.players[s1.out.value]
  {
  }
}
