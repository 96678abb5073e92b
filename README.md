# Map coordinator: viewport reconciliation, in Dafny

This project models `MapCoordinator`, the component of the SwiftUI map viewer
that turns viewport changes into Overpass API requests and folds the fetched
road network into one running result.

The coordinator holds two fields, `lastResult` and `lastBounds`. It handles
each `OverpassBounds` value it receives as follows:

- The `.arbitrary` sentinel clears both fields, issues no request and asks for
  unlimited demand.
- Any other viewport gets a road-category filter chosen from a five-band step
  table over the viewport's diameter.
- It then plans the regions to fetch: the whole viewport when nothing is
  cached, and otherwise `input.difference(lastResult.bounds)`.
- It issues one request holding one index-tagged query group per region.

When the fetch completes, the `sink` closure handles the result:

- If nothing is cached at that moment, the fetched result is installed as it is.
- Otherwise the cached result is replaced by
  `lastResult.expanded(with: fetched, newBounds: input)`. Here `input` is the
  viewport captured when the request was made.
- `lastBounds` is set to the new result's bounds, and the new result is sent to
  subscribers.

Modules:

- `Wrappers`: Swift optionals.
- `Overpass`: the library surface the coordinator uses.
  - `Bounds` is `Arbitrary | Box(south, west, north, east)`.
  - `Library<R>` is a record of the operations whose implementations are not
    part of this model: `boundsOf` (`.bounds`), `expanded`, `difference` and
    `diameter`. They are carried as function values and nothing is assumed
    about them.
  - The query statements `Union`, `Query`, `Recurse` and `Print`.
- `Detail`: the detail `switch` as `Filter`.
  - `BANDS` states the same step function as an ordered table of closed
    diameter ranges over a ladder of road categories. The first row whose
    range holds the diameter wins, and a diameter that no row holds gets the
    default of two categories.
  - `Join` and `Split` convert between category lists and the `|`-separated
    pattern.
- `Query`: the `ForEach` that builds one group per region (`Build`). `Demux`
  reads a request back into (index, region, filter) triples. `Name` is
  `String(index)`.
- `Coordination`: the coordinator.
  - The pure functions `AfterReceive`, `AfterComplete`, `Plan` and `Replay`
    specify its behaviour on values.
  - The class `MapCoordinator` updates `lastResult`, `lastBounds` and
    `published` in place. `published` holds the values sent through the
    subject. Its methods are proved against those functions.
  - `DragEnded` and `PinchEnded` are the two ways the view drives it.

Where the code does something a reader might not expect, the model follows the
code:

- A negative diameter falls through every closed range of the `switch` and
  gets the coarsest filter, `motorway|trunk`. It does not get the finest one.
- An empty difference still issues a request, with no groups. Its completion
  still merges and publishes. The code never skips the fetch.
- A first fetch installs the fetched result unchanged, and `lastBounds` becomes
  that result's own bounds, not the requested viewport.
- Completions are not ordered or discarded when stale. Whichever closure runs
  merges into whatever is cached at that moment (see
  `InFlightResetInstallsFetched`).
- `lastBounds` is written but never read. Planning reads `lastResult?.bounds`.
  `PlanUsesLastBounds` shows that the two agree under the invariant.

## Model

| member | source | states |
|---|---|---|
| `Detail.Filter` | SwiftUITest/MapCoordinator.swift:47-59 | The switch arm by arm; its result is the bar-separated join of the first `CategoryCount(d)` categories of the ladder, so the switch and the closed-range band table agree on every diameter, negatives included |
| `Detail.CategoryCountBands` | SwiftUITest/MapCoordinator.swift:48-59 | The five bands: [0, 0.01] gives 8 categories, (0.01, 0.03] 7, (0.03, 0.07] 5, (0.07, 0.1] 3, and negatives or anything above 0.1 give 2; each boundary value lands in the finer band |
| `Detail.FilterCategories` | SwiftUITest/MapCoordinator.swift:49-58 | Splitting the filter string at its separators gives exactly a prefix of the category ladder, of length `CategoryCount(d)` |
| `Detail.FilterMonotone` | SwiftUITest/MapCoordinator.swift:49-58 | For 0 <= d1 <= d2, the categories for d2 are a prefix, and so a subset, of those for d1 |
| `Detail.NegativeDiameterIsCoarsest` | SwiftUITest/MapCoordinator.swift:57-58 | A negative diameter gets only motorway and trunk, fewer categories than diameter 0. Monotonicity holds only from 0 up |
| `Query.Name` | SwiftUITest/MapCoordinator.swift:69 | `String(index)` is a non-empty string of decimal digits, and it starts with `0` exactly when the index is 0, so it has no leading zero |
| `Query.NameRoundTrip` | SwiftUITest/MapCoordinator.swift:69 | Reading the set name back as a decimal gives the index |
| `Query.NameInjective` | SwiftUITest/MapCoordinator.swift:69 | Different indices give different set names |
| `Query.Build` | SwiftUITest/MapCoordinator.swift:66-80 | One statement group per planned region |
| `Query.DemuxBuild` | SwiftUITest/MapCoordinator.swift:66-80 | The request reads back as exactly the planned regions, in order. Group i fills and prints set `i`, queries relations bounded by region i with `highway` matching the filter, and recurses down |
| `Query.GroupNamesDistinct` | SwiftUITest/MapCoordinator.swift:68-79 | No two groups of a request use the same set name, so a response can be split by index |
| `Coordination.MapCoordinator.constructor` | SwiftUITest/MapCoordinator.swift:17-22 | A new coordinator has nothing cached and nothing sent, and satisfies the invariant |
| `Coordination.MapCoordinator.Receive` | SwiftUITest/MapCoordinator.swift:38-98 | Always returns unlimited demand. The sentinel clears both fields and issues no request. Any other input issues `Plan`'s request and changes no field. Nothing is sent, and the invariant holds afterwards |
| `Coordination.MapCoordinator.Complete` | SwiftUITest/MapCoordinator.swift:81-95 | Installs the fetched result when nothing is cached. Otherwise installs the cached result expanded with it, using the captured viewport. `lastBounds` becomes the new result's bounds, and exactly that result is appended to what was sent |
| `Coordination.ReplayKeepsConsistent` | SwiftUITest/MapCoordinator.swift:41-90 | Over any sequence of receives and completions, `lastBounds == lastResult?.bounds` is preserved, so one is nil exactly when the other is |
| `Coordination.ReplayPublishesOncePerCompletion` | SwiftUITest/MapCoordinator.swift:92-94 | Over any sequence of events, exactly one value is sent per completion and none per receive. Earlier values are kept |
| `Coordination.CompletionPublishesNewResult` | SwiftUITest/MapCoordinator.swift:82-94 | A completion sends the result it installs. With nothing cached, that result is the fetched one and `lastBounds` is its bounds |
| `Coordination.PlanUsesLastBounds` | SwiftUITest/MapCoordinator.swift:61-80 | Under the invariant, a concrete viewport's request covers `[input]` when `lastBounds` is nil and `input.difference(lastBounds)` otherwise. Group i is tagged i and uses the viewport's filter |
| `Coordination.DragsCoverLastViewport` | SwiftUITest/MapCoordinator.swift:82-86 | Assumes the library's merge covers the requested viewport. Then after drags that each complete before the next, `lastBounds` is the last viewport, starting either from a coordinator that holds a result or, from an empty one, after at least two drags (a single first fetch is installed as it is, so its bounds are the library's) |
| `Coordination.PinchRefetchesViewport` | SwiftUITest/MapView/MapView.swift:110-114 | After a pinch end (sentinel, then the new viewport) nothing is cached or sent, and the request covers exactly the new viewport. Its completion installs the fetched result as it is and sends it |
| `Coordination.InFlightResetInstallsFetched` | SwiftUITest/MapCoordinator.swift:61-90 | A request planned as a difference, followed by a sentinel before it completes: the completion installs the fetched partial result as it is |
| `Coordination.DragEnded` | SwiftUITest/MapView/MapView.swift:92-98 | A drag end leaves the fields alone. It requests the viewport minus the previous `lastBounds`, or the whole viewport when nothing is cached |
| `Coordination.PinchEnded` | SwiftUITest/MapView/MapView.swift:110-114 | A pinch end clears both fields, sends nothing, and requests exactly the new viewport |

## Left out

- The OverpassSwift library's implementations are not part of this model:
  `difference`, `diameter`, `expanded`, `OverpassResult.bounds`, how the
  request builder flattens `ForEach` groups, and the network client. The model
  takes them as function values with no assumed contract. The one lemma that
  needs the merge to cover the viewport (`DragsCoverLastViewport`) states it as
  a hypothesis.
- The meaning of the `highway` pattern: Overpass matches it on the server as a
  regular expression. The model keeps it as the string the coordinator builds.
- Floating point: the diameter and the band edges are exact reals. Double
  rounding at the edges is not modelled.
- Combine mechanics: `receive(subscriber:)`, `receive(subscription:)`, the
  empty `receive(completion:)`, the failure path of `sink`, and multicast
  delivery. The source handles no failure, so no failure behaviour is stated.
  The subject is modelled as the list of values sent.
- Ordering, overlap and cancellation of in-flight requests. The source has
  none. The model has the two-step issue/complete shape only: `Complete` runs
  whenever the caller says a fetch finished.
- `Swift.print` logging in `receive`.
- `MapView` rendering, gesture tracking, the screen projection helpers and the
  debug grid, and `BindableCoordinator`. They are only used as the callers
  `DragEnded` and `PinchEnded`.
