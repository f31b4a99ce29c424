# Collector registry of a synthetic-monitoring journey run

This project models the `PluginManager` of `src/plugins/plugin-manager.ts`: the
registry that attaches telemetry collectors (network capture, tracing,
performance sampling) to the one debugging session of a journey run, looks
them up by class, and folds their stop results into one
`{filmstrips, networkinfo}` record.

- `Plugins` (plugin_manager.dfy): the plugin types, the collector classes
  (`Kind`), the collectors as objects, the `PluginManager` class with its
  `plugins` map, `Start`, `Get` and `Output`, the order-free contract
  `Outcome` of `output()`, and the lemmas about them.
- `PluginScenarios` (scenarios.dfy): short caller runs on a fresh manager
  that show what a caller can rely on from the contracts.
- `Wrappers` (wrappers.dfy): the `Option` type.

How the source's constructs are modelled:

- The registry is a JavaScript `Map` keyed by `instance.constructor.name`. The
  key is the collector's class (`Kind`: `NetworkManager`, `Tracing`,
  `PerformanceManager`). The map is two fields: `plugins: map<Kind, Collector>`
  and `order`, the keys in first-insertion order, which `for..of` visits.
  `Map.set` on a key already present keeps its position.
- A collector is an object with fixed fields. `Start` allocates a fresh one, so
  "get returns the instance start created" is a statement about object
  identity. What the collector will have captured by the time it is stopped is
  given to `Start` as a `Capture`. A network collector's `stop()` yields
  `capture.requests`. A tracing collector's `stop(session)` yields
  `capture.trace`.
- `filterFilmstrips` is the uninterpreted `filter` parameter of `Output`.
- Each `await` is a plain sequential call.
- `PluginOutput` keeps the optional fields of its declared type. `Output`
  proves both are always present.

## Model

| member | source | states |
|---|---|---|
| `Plugins.KindOf` | src/plugins/plugin-manager.ts:23-36 | `network` builds a `NetworkManager`, `trace` a `Tracing`, `performance` a `PerformanceManager`, and no other type builds that class |
| `Plugins.Step` | src/plugins/plugin-manager.ts:52-57 | one loop pass writes only the field of the visited collector's class: a network collector sets `networkinfo` to its stop result, a tracing collector sets `filmstrips` to the filtered stop result, and every other field is left as it was, so a performance collector changes nothing |
| `Plugins.KindOfInjective` | src/plugins/plugin-manager.ts:21-36 | the three plugin types map to three different collector classes, so each type has its own registry slot |
| `Plugins.PluginManager.constructor` | src/plugins/plugin-manager.ts:16-19 | a new manager holds the session and an empty registry |
| `Plugins.PluginManager.Start` | src/plugins/plugin-manager.ts:21-40 | builds a fresh collector of the class for the type, attached to the session. It sets that class's entry to the new instance, replacing any earlier one. Every other entry is unchanged. A new class is appended to the insertion order, and the registry invariant is kept |
| `Plugins.PluginManager.Get` | src/plugins/plugin-manager.ts:42-44 | returns the collector registered under the class, which has that class and the manager's session. Returns null exactly when that class was never started |
| `Plugins.PluginManager.Output` | src/plugins/plugin-manager.ts:46-60 | the loop over the map in insertion order yields `Outcome` of the registry. Both fields are always present |
| `Plugins.Replay` | src/plugins/plugin-manager.ts:47-58 | the loop run over any sequence of collectors from the empty record never leaves a field absent |
| `Plugins.AsMap` | src/plugins/plugin-manager.ts:38 | setting collectors under their class gives a map whose every entry is one of them, under its own class, with every class present |
| `Plugins.StepOutcome` | src/plugins/plugin-manager.ts:52-57 | one loop pass from `Outcome(m)` with collector `c` gives `Outcome` of `m` with `c` set under its class |
| `Plugins.PerformanceIgnored` | src/plugins/plugin-manager.ts:51-58 | registering a performance collector or not gives the same record |
| `Plugins.ReplayIsOutcome` | src/plugins/plugin-manager.ts:46-59 | the loop over any sequence of collectors gives the `Outcome` of the registry those collectors leave behind |
| `Plugins.AsMapOfDistinct` | src/plugins/plugin-manager.ts:38 | when no two collectors share a class, each one is the entry for its class |
| `Plugins.ReplayOrderIndependent` | src/plugins/plugin-manager.ts:51-58 | two visiting orders of the same collectors, each class at most once, give the same record |
| `Plugins.AsMapOfLookup` | src/plugins/plugin-manager.ts:38 | reading a registry's entries in key order and setting them back rebuilds the part of the registry those keys cover |
| `Plugins.ReplayOfRegistry` | src/plugins/plugin-manager.ts:51-59 | visiting all keys of a registry whose entries sit under their own class gives the registry's `Outcome` |
| `Plugins.DistinctKeysAtMostThree` | src/plugins/plugin-manager.ts:7 | a key sequence without repeats has at most three keys |
| `Plugins.RegistryAtMostThree` | src/plugins/plugin-manager.ts:17 | a manager never holds more than three collectors |
| `PluginScenarios.NothingStarted` | src/plugins/plugin-manager.ts:47-59 | with nothing started, the record is exactly `{filmstrips: [], networkinfo: []}` |
| `PluginScenarios.StartTwiceThenGet` | src/plugins/plugin-manager.ts:38-44 | a second start of a type creates a different instance. `get` returns the second one, and `get` of a class never started returns nothing |
| `PluginScenarios.StartKeepsOthers` | src/plugins/plugin-manager.ts:38 | starting one type leaves the collector of another type registered |
| `PluginScenarios.OnlyNetwork` | src/plugins/plugin-manager.ts:52-53 | with only a network collector, `networkinfo` is its captured sequence unchanged and `filmstrips` is empty |
| `PluginScenarios.OnlyTracing` | src/plugins/plugin-manager.ts:54-57 | with only a tracing collector, `filmstrips` is the filter applied to its trace and `networkinfo` is empty |
| `PluginScenarios.OnlyPerformance` | src/plugins/plugin-manager.ts:32-35 | a performance collector alone gives the empty record |
| `PluginScenarios.StartOrderIrrelevant` | src/plugins/plugin-manager.ts:51-58 | starting two different types in either order gives the same record |

## Left out

- Collector internals (`NetworkManager`, `Tracing`, `PerformanceManager` in `./network`, `./tracing`, `./performance`) are not part of this model. A collector is reduced to its class and what its stop returns.
- `filterFilmstrips` (`./tracing`) is not part of this model. It is an uninterpreted function, so nothing is claimed about filmstrip bounds or which frames it keeps.
- The `CDPSession` debugging session is an opaque handle. It is only passed through; attaching protocol listeners is not modelled.
- `async`/`await` is modelled as sequential calls. An exception from a collector's `start` or `stop` is not modelled.
- A collector's `stop` is read as a value. Any state it clears inside the collector is not modelled, so a second `Output` on the same manager is modelled as giving the same record.
- Plugins.ReplayOrderIndependent and PluginScenarios.StartOrderIrrelevant: a collector's stop result is fixed when it is started and does not depend on when `stop` is called. In the source, `output()` awaits a tracing collector's `stop(session)` (line 55) before it reaches a network collector inserted later (line 53). That network collector can go on capturing requests during the wait. The order-independence results do not cover those extra requests.
- `get` takes a class constructor and uses its `name`. The model passes the class (`Kind`) directly.
- The `instanceof` tests in `output()` and the `constructor.name` key agree for these three classes. The model uses the class for both.
- `__tests__/reporters/json.test.ts` exercises the JSON reporter and the runner. Those sources are not part of this model, and the test itself is file-descriptor and stream plumbing.
