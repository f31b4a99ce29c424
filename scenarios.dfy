/**
 * Callers of the registry: short runs of `Start`, `Get` and `Output` on a fresh
 * manager, each stating what the caller can rely on from the contracts alone.
 */
module PluginScenarios {
  import opened Wrappers
  import opened Plugins

  /** With nothing started, the record has both fields present and empty. */
  method NothingStarted(session: Session, filter: Filter) returns (out: PluginOutput)
    ensures out == PluginOutput(Some([]), Some([]))
  {
    var manager := new PluginManager(session);
    out := manager.Output(filter);
  }

  /**
   * `get` returns the instance the latest `start` of that type created; a
   * second `start` replaces the first, and a class never started is absent.
   */
  method StartTwiceThenGet(session: Session, t: PluginType, other: Kind, first: Capture, second: Capture)
    returns (a: Collector, b: Collector, got: Collector?, missing: Collector?)
    requires other != KindOf(t)
    ensures a != b
    ensures got == b && b.kind == KindOf(t) && b.capture == second && b.session == session
    ensures missing == null
  {
    var manager := new PluginManager(session);
    a := manager.Start(t, first);
    b := manager.Start(t, second);
    got := manager.Get(KindOf(t));
    missing := manager.Get(other);
  }

  /** Starting one type leaves the collector registered for another type in place. */
  method StartKeepsOthers(session: Session, s: PluginType, t: PluginType, cs: Capture, ct: Capture)
    returns (a: Collector, got: Collector?)
    requires s != t
    ensures got == a && a.kind == KindOf(s)
  {
    var manager := new PluginManager(session);
    a := manager.Start(s, cs);
    var b := manager.Start(t, ct);
    KindOfInjective(s, t);
    got := manager.Get(KindOf(s));
  }

  /** With only a network collector, `networkinfo` is its captured sequence, in capture order. */
  method OnlyNetwork(session: Session, requests: seq<NetworkInfo>, trace: seq<TraceEvent>, filter: Filter)
    returns (out: PluginOutput)
    ensures out == PluginOutput(Some([]), Some(requests))
  {
    var manager := new PluginManager(session);
    var c := manager.Start(NetworkPlugin, Capture(requests, trace));
    out := manager.Output(filter);
  }

  /** With only a tracing collector, `filmstrips` is the filter applied to its trace. */
  method OnlyTracing(session: Session, capture: Capture, filter: Filter) returns (out: PluginOutput)
    ensures out == PluginOutput(Some(filter(capture.trace)), Some([]))
  {
    var manager := new PluginManager(session);
    var c := manager.Start(TracePlugin, capture);
    out := manager.Output(filter);
  }

  /** A performance collector alone contributes nothing. */
  method OnlyPerformance(session: Session, capture: Capture, filter: Filter) returns (out: PluginOutput)
    ensures out == PluginOutput(Some([]), Some([]))
  {
    var manager := new PluginManager(session);
    var c := manager.Start(PerformancePlugin, capture);
    out := manager.Output(filter);
  }

  /** Starting two different types in either order gives the same record. */
  method StartOrderIrrelevant(session: Session, s: PluginType, t: PluginType, cs: Capture, ct: Capture, filter: Filter)
    returns (out1: PluginOutput, out2: PluginOutput)
    requires s != t
    ensures out1 == out2
  {
    KindOfInjective(s, t);
    var m1 := new PluginManager(session);
    var a1 := m1.Start(s, cs);
    var b1 := m1.Start(t, ct);
    out1 := m1.Output(filter);
    var m2 := new PluginManager(session);
    var b2 := m2.Start(t, ct);
    var a2 := m2.Start(s, cs);
    out2 := m2.Output(filter);
  }
}
