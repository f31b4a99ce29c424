/**
 * The collector registry of one journey run (src/plugins/plugin-manager.ts).
 *
 * A `PluginManager` owns the telemetry collectors attached to one debugging
 * session. `Start` builds the collector for a plugin type and registers it under
 * its class, `Get` looks a collector up by class, and `Output` folds the
 * registered collectors into one `{filmstrips, networkinfo}` record.
 *
 * The registry is a JavaScript `Map`: a dictionary that also remembers the order
 * in which its keys were first inserted, and `Output` visits the entries in that
 * order. The model keeps both parts, `plugins` and `order`, and proves that the
 * record `Output` builds depends on the dictionary alone.
 */
module Plugins {
  import opened Wrappers

  // ------------------------------------------------------------------------
  // Telemetry records. They are produced by collectors whose code is not part
  // of this model; the model only moves them around.
  // ------------------------------------------------------------------------

  /** One captured request/response pair. */
  datatype NetworkInfo = NetworkInfo(request: string, response: string, isNavigationRequest: bool)

  /** One visual snapshot of the page. */
  datatype FilmStrip = FilmStrip(snapshot: string, name: string, ts: int)

  /** One raw event of the protocol-level trace, before it is filtered into filmstrips. */
  datatype TraceEvent = TraceEvent(name: string, ts: int, args: string)

  /** The filmstrip filter applied to a tracing collector's result. It is left uninterpreted. */
  type Filter = seq<TraceEvent> -> seq<FilmStrip>

  /** `PluginType`: the names a caller may pass to `start`. */
  datatype PluginType = NetworkPlugin | TracePlugin | PerformancePlugin

  /**
   * The class of a collector. The registry is keyed by the collector's
   * `constructor.name`, which is exactly its class.
   */
  datatype Kind = NetworkManager | Tracing | PerformanceManager

  /** The class `start` instantiates for each plugin type: each type has exactly one class of its own. */
  function KindOf(t: PluginType): (k: Kind)
    ensures k == NetworkManager <==> t == NetworkPlugin
    ensures k == Tracing <==> t == TracePlugin
    ensures k == PerformanceManager <==> t == PerformancePlugin
  {
    match t
    case NetworkPlugin => NetworkManager
    case TracePlugin => Tracing
    case PerformancePlugin => PerformanceManager
  }

  /** Different plugin types give collectors of different classes. */
  lemma KindOfInjective(s: PluginType, t: PluginType)
    ensures KindOf(s) == KindOf(t) <==> s == t
  {
  }

  /**
   * What the session shows a collector between its start and its stop: a
   * network collector's `stop()` returns `requests`, a tracing collector's
   * `stop(session)` returns `trace`. A performance collector returns nothing
   * that the registry uses.
   */
  datatype Capture = Capture(requests: seq<NetworkInfo>, trace: seq<TraceEvent>)

  /** `PluginOutput`: both fields are optional in the declared type. */
  datatype PluginOutput = PluginOutput(filmstrips: Option<seq<FilmStrip>>, networkinfo: Option<seq<NetworkInfo>>)

  /** The record `output()` starts from: both fields present and empty. */
  const Empty := PluginOutput(Some([]), Some([]))

  /** The debugging session handle. It is opaque and only passed through. */
  class Session {
  }

  /** A started collector. Its identity is the object; its stop result is fixed by its capture. */
  class Collector {
    const kind: Kind
    const session: Session
    const capture: Capture

    constructor (kind: Kind, session: Session, capture: Capture)
      ensures this.kind == kind && this.session == session && this.capture == capture
    {
      this.kind := kind;
      this.session := session;
      this.capture := capture;
    }
  }

  // ------------------------------------------------------------------------
  // The fold performed by `output()`, and the order-free record it produces.
  // ------------------------------------------------------------------------

  /**
   * One pass of the loop in `output()`: a network collector overwrites
   * `networkinfo` with its stop result, a tracing collector overwrites
   * `filmstrips` with the filtered stop result, any other collector is skipped.
   */
  function Step(data: PluginOutput, c: Collector, filter: Filter): (r: PluginOutput)
    ensures c.kind == NetworkManager ==> r.networkinfo == Some(c.capture.requests)
    ensures c.kind == Tracing ==> r.filmstrips == Some(filter(c.capture.trace))
    ensures c.kind != NetworkManager ==> r.networkinfo == data.networkinfo
    ensures c.kind != Tracing ==> r.filmstrips == data.filmstrips
  {
    match c.kind
    case NetworkManager => data.(networkinfo := Some(c.capture.requests))
    case Tracing => data.(filmstrips := Some(filter(c.capture.trace)))
    case PerformanceManager => data
  }

  /** The loop of `output()` run over the collectors `cs`, in that order, from `Empty`. */
  function Replay(cs: seq<Collector>, filter: Filter): (r: PluginOutput)
    ensures r.filmstrips.Some? && r.networkinfo.Some?
  {
    if cs == [] then Empty else Step(Replay(cs[..|cs| - 1], filter), cs[|cs| - 1], filter)
  }

  /**
   * The contract of `output()`, independent of any order: `networkinfo` is the
   * registered network collector's stop result and `filmstrips` the filtered
   * stop result of the registered tracing collector, each `[]` when that
   * collector is not registered. Performance collectors play no part.
   */
  function Outcome(m: map<Kind, Collector>, filter: Filter): PluginOutput
  {
    PluginOutput(
      Some(if Tracing in m then filter(m[Tracing].capture.trace) else []),
      Some(if NetworkManager in m then m[NetworkManager].capture.requests else []))
  }

  /** The registry that results from setting each collector of `cs` under its class, in order. */
  function AsMap(cs: seq<Collector>): (m: map<Kind, Collector>)
    ensures forall k :: k in m ==> m[k] in cs && m[k].kind == k
    ensures forall c :: c in cs ==> c.kind in m
  {
    if cs == [] then map[] else AsMap(cs[..|cs| - 1])[cs[|cs| - 1].kind := cs[|cs| - 1]]
  }

  /** No two collectors of `cs` share a class. */
  ghost predicate DistinctKinds(cs: seq<Collector>)
  {
    forall i, j :: 0 <= i < j < |cs| ==> cs[i].kind != cs[j].kind
  }

  /** No key occurs twice in `ks`. */
  ghost predicate DistinctKeys(ks: seq<Kind>)
  {
    forall i, j :: 0 <= i < j < |ks| ==> ks[i] != ks[j]
  }

  /** The collectors `m` holds under the keys `ks`, in the order of `ks`. */
  function Lookup(m: map<Kind, Collector>, ks: seq<Kind>): (cs: seq<Collector>)
    requires forall k :: k in ks ==> k in m
    ensures |cs| == |ks|
    ensures forall i :: 0 <= i < |ks| ==> cs[i] == m[ks[i]]
  {
    if ks == [] then [] else Lookup(m, ks[..|ks| - 1]) + [m[ks[|ks| - 1]]]
  }

  /** One pass of the loop moves the record from `Outcome(m)` to `Outcome` of `m` with `c` set. */
  lemma StepOutcome(m: map<Kind, Collector>, c: Collector, filter: Filter)
    ensures Step(Outcome(m, filter), c, filter) == Outcome(m[c.kind := c], filter)
  {
  }

  /** A performance collector, registered or not, leaves the record unchanged. */
  lemma PerformanceIgnored(m: map<Kind, Collector>, c: Collector, filter: Filter)
    requires c.kind == PerformanceManager
    ensures Outcome(m[PerformanceManager := c], filter) == Outcome(m - {PerformanceManager}, filter)
  {
  }

  /** Running the loop over any sequence of collectors builds the record of the registry it leaves behind. */
  lemma {:induction false} ReplayIsOutcome(cs: seq<Collector>, filter: Filter)
    ensures Replay(cs, filter) == Outcome(AsMap(cs), filter)
  {
    if cs != [] {
      var init, last := cs[..|cs| - 1], cs[|cs| - 1];
      ReplayIsOutcome(init, filter);
      StepOutcome(AsMap(init), last, filter);
    }
  }

  /** When no two collectors share a class, each one is the registry's entry for its class. */
  lemma AsMapOfDistinct(cs: seq<Collector>)
    requires DistinctKinds(cs)
    ensures forall c :: c in cs ==> AsMap(cs)[c.kind] == c
  {
  }

  /**
   * The order in which `output()` visits the registered collectors does not
   * matter: two visiting orders of the same collectors, each class at most
   * once, build the same record.
   */
  lemma ReplayOrderIndependent(cs1: seq<Collector>, cs2: seq<Collector>, filter: Filter)
    requires DistinctKinds(cs1) && DistinctKinds(cs2)
    requires forall c :: c in cs1 <==> c in cs2
    ensures Replay(cs1, filter) == Replay(cs2, filter)
  {
    AsMapOfDistinct(cs1);
    AsMapOfDistinct(cs2);
    assert AsMap(cs1) == AsMap(cs2);
    ReplayIsOutcome(cs1, filter);
    ReplayIsOutcome(cs2, filter);
  }

  /** Looking up keys and setting the entries back under their class rebuilds the part of `m` the keys cover. */
  lemma {:induction false} AsMapOfLookup(m: map<Kind, Collector>, ks: seq<Kind>)
    requires forall k :: k in m ==> m[k].kind == k
    requires forall k :: k in ks ==> k in m
    ensures forall k :: k in AsMap(Lookup(m, ks)) <==> k in ks
    ensures forall k :: k in ks ==> AsMap(Lookup(m, ks))[k] == m[k]
  {
    if ks != [] {
      var init, last := ks[..|ks| - 1], ks[|ks| - 1];
      assert ks == init + [last];
      var cs, prefix := Lookup(m, ks), Lookup(m, init);
      assert cs == prefix + [m[last]];
      assert cs[..|cs| - 1] == prefix;
      AsMapOfLookup(m, init);
      assert AsMap(cs) == AsMap(prefix)[last := m[last]];
    }
  }

  /** Extending the visited prefix of `ks` by one key appends that key's collector. */
  lemma LookupExtend(m: map<Kind, Collector>, ks: seq<Kind>, i: nat)
    requires i < |ks|
    requires forall k :: k in ks ==> k in m
    ensures Lookup(m, ks[..i + 1]) == Lookup(m, ks[..i]) + [m[ks[i]]]
  {
  }

  /** Visiting every key of a registry, in any listing of its keys, builds the registry's `Outcome`. */
  lemma ReplayOfRegistry(m: map<Kind, Collector>, ks: seq<Kind>, filter: Filter)
    requires forall k :: k in m ==> m[k].kind == k
    requires forall k :: k in m <==> k in ks
    ensures Replay(Lookup(m, ks), filter) == Outcome(m, filter)
  {
    ReplayIsOutcome(Lookup(m, ks), filter);
    AsMapOfLookup(m, ks);
    assert AsMap(Lookup(m, ks)) == m;
  }

  /** Distinct keys are as many as the set they form. */
  lemma {:induction false} DistinctKeysCount(ks: seq<Kind>)
    requires DistinctKeys(ks)
    ensures |set k | k in ks| == |ks|
  {
    if ks != [] {
      var init, last := ks[..|ks| - 1], ks[|ks| - 1];
      assert DistinctKeys(init) by {
        forall i, j | 0 <= i < j < |init| ensures init[i] != init[j] {
          assert init[i] == ks[i] && init[j] == ks[j];
        }
      }
      DistinctKeysCount(init);
      assert last !in init by {
        forall i | 0 <= i < |init| ensures init[i] != last {
          assert init[i] == ks[i];
        }
      }
      assert ks == init + [last];
      var before := set k | k in init;
      assert (set k | k in ks) == before + {last};
      assert last !in before;
    }
  }

  /** A registry holds at most one collector per class, so at most three. */
  lemma DistinctKeysAtMostThree(ks: seq<Kind>)
    requires DistinctKeys(ks)
    ensures |ks| <= 3
  {
    DistinctKeysCount(ks);
    var used, all := set k | k in ks, {NetworkManager, Tracing, PerformanceManager};
    assert all == used + (all - used);
  }

  // ------------------------------------------------------------------------
  // The registry itself.
  // ------------------------------------------------------------------------

  class PluginManager {
    /** The one debugging session every collector of this registry attaches to. */
    const session: Session
    /** The entries of the `plugins` map, by key. */
    var plugins: map<Kind, Collector>
    /** The keys of the `plugins` map, in the order they were first inserted. */
    var order: seq<Kind>

    /**
     * Each entry sits under its collector's class and is attached to this
     * registry's session; `order` lists every key exactly once.
     */
    ghost predicate Valid()
      reads this
    {
      && (forall k :: k in plugins ==> plugins[k].kind == k && plugins[k].session == session)
      && (forall k :: k in plugins <==> k in order)
      && DistinctKeys(order)
    }

    constructor (session: Session)
      ensures Valid()
      ensures this.session == session && plugins == map[] && order == []
    {
      this.session := session;
      plugins := map[];
      order := [];
    }

    /**
     * `start(type)`: builds a fresh collector of the class for `t`, attached to
     * the session, and registers it under that class. An earlier collector of the
     * same class is replaced; a new class is appended to the insertion order.
     */
    method Start(t: PluginType, capture: Capture) returns (instance: Collector)
      requires Valid()
      modifies this
      ensures Valid()
      ensures fresh(instance)
      ensures instance.kind == KindOf(t) && instance.session == session && instance.capture == capture
      ensures plugins == old(plugins)[KindOf(t) := instance]
      ensures order == if KindOf(t) in old(plugins) then old(order) else old(order) + [KindOf(t)]
    {
      match t {
        case NetworkPlugin =>
          instance := new Collector(NetworkManager, session, capture);
        case TracePlugin =>
          instance := new Collector(Tracing, session, capture);
        case PerformancePlugin =>
          instance := new Collector(PerformanceManager, session, capture);
      }
      // Map.set keeps the position of a key that is already present.
      var key := instance.kind;
      if key !in plugins {
        order := order + [key];
      }
      plugins := plugins[key := instance];
    }

    /**
     * `get(Type)`: the collector registered under class `k`, or nothing when
     * no collector of that class was started.
     */
    method Get(k: Kind) returns (c: Collector?)
      requires Valid()
      ensures c == null <==> k !in order
      ensures c != null ==> k in plugins && c == plugins[k]
      ensures c != null ==> c.kind == k && c.session == session
    {
      c := if k in plugins then plugins[k] else null;
    }

    /**
     * `output()`: visits the registered collectors in insertion order and folds
     * their stop results into one record, which is the order-free `Outcome`
     * of the registry.
     */
    method Output(filter: Filter) returns (out: PluginOutput)
      requires Valid()
      ensures out == Outcome(plugins, filter)
      ensures out.filmstrips.Some? && out.networkinfo.Some?
    {
      var data := Empty;
      var i := 0;
      while i < |order|
        invariant 0 <= i <= |order|
        invariant data == Replay(Lookup(plugins, order[..i]), filter)
      {
        var plugin := plugins[order[i]];
        if plugin.kind == NetworkManager {
          data := data.(networkinfo := Some(plugin.capture.requests));
        } else if plugin.kind == Tracing {
          var result := plugin.capture.trace;
          data := data.(filmstrips := Some(filter(result)));
        }
        LookupExtend(plugins, order, i);
        i := i + 1;
      }
      assert order[..i] == order;
      ReplayOfRegistry(plugins, order, filter);
      out := data;
    }
  }

  /** The registry of a manager never holds more than three collectors. */
  lemma RegistryAtMostThree(m: PluginManager)
    requires m.Valid()
    ensures |m.order| <= 3
  {
    DistinctKeysAtMostThree(m.order);
  }
}
