/**
  The parts of the OverpassSwift library that the map coordinator uses.

  The library's own implementations are not part of this model: the geometric
  operations on bounds and the merge of two results are carried as function
  values in a `Library` record that the coordinator is constructed with, and
  nothing is assumed about what they return.
 */
module Overpass {

  /** `OverpassBounds`: the `.arbitrary` sentinel, or a south/west/north/east box. */
  datatype Bounds = Arbitrary | Box(south: real, west: real, north: real, east: real)

  /**
    The library operations the coordinator calls, over its result type `R`
    (`OverpassResult`):
    - `boundsOf(r)` is `r.bounds`;
    - `expanded(previous, fetched, newBounds)` is `previous.expanded(with: fetched, newBounds: newBounds)`;
    - `difference(input, previous)` is `input.difference(previous)`;
    - `diameter(b)` is `b.diameter`.
   */
  datatype Library<!R> = Library(
    boundsOf: R -> Bounds,
    expanded: (R, R, Bounds) -> R,
    difference: (Bounds, Bounds) -> seq<Bounds>,
    diameter: Bounds -> real)

  /** The element kind a query selects; the coordinator only asks for relations. */
  datatype Element = Relation

  /** The direction of a recursion step; the coordinator only recurses down. */
  datatype Direction = Down

  /** The filters inside a query block. */
  datatype Clause =
    | Bounding(bound: Bounds)
    | Tag(key: string, pattern: string)

  /** The statements of the request builder that the coordinator uses. */
  datatype Statement =
    | Union(into: string, body: seq<Statement>)
    | Query(element: Element, clauses: seq<Clause>)
    | Recurse(direction: Direction)
    | Print(from: string)
}
