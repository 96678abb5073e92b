/**
  The request `MapCoordinator.receive` builds: for each region to fetch, in
  order, one group of statements that collects the relations inside the region
  whose `highway` tag matches the detail filter, together with everything they
  contain, into a set named after the region's index, and then prints that set.

  `Build` is that `ForEach`; `Demux` reads a request back into the
  (index, region, filter) triples it asks for, which is what a response has to
  be keyed by. The lemmas say that `Demux` recovers exactly the regions, in
  order, tagged 0 to n-1 with the filter, and that no two groups share a set
  name.
 */
module Query {
  import opened Wrappers
  import opened Overpass

  /** The decimal digit for a value below ten. */
  function Digit(d: nat): char
    requires d < 10
  {
    ('0' as int + d) as char
  }

  /** A non-empty string of decimal digits. */
  predicate IsDecimal(s: string)
  {
    |s| > 0 && forall i :: 0 <= i < |s| ==> '0' <= s[i] <= '9'
  }

  /** `String(index)`: the decimal numeral of a non-negative index, with no leading zero. */
  function Name(index: nat): (s: string)
    ensures IsDecimal(s)
    ensures s[0] == '0' <==> index == 0
  {
    if index < 10 then [Digit(index)] else Name(index / 10) + [Digit(index % 10)]
  }

  /** The value of a string of decimal digits. */
  function DecimalValue(s: string): nat
    requires forall i :: 0 <= i < |s| ==> '0' <= s[i] <= '9'
  {
    if |s| == 0 then 0
    else DecimalValue(s[..|s| - 1]) * 10 + (s[|s| - 1] as int - '0' as int)
  }

  /** Reading a set name back gives the index it was made from. */
  lemma {:induction false} NameRoundTrip(index: nat)
    ensures DecimalValue(Name(index)) == index
  {
    var s := Name(index);
    if index >= 10 {
      assert s[..|s| - 1] == Name(index / 10);
      NameRoundTrip(index / 10);
    }
  }

  /** Different indices give different set names. */
  lemma NameInjective(i: nat, j: nat)
    ensures Name(i) == Name(j) ==> i == j
  {
    NameRoundTrip(i);
    NameRoundTrip(j);
  }

  /** The statements of one `ForEach` iteration: query the region into set `index`, then print it. */
  function Group(index: nat, bound: Bounds, detail: string): seq<Statement>
  {
    [ Union(Name(index), [Query(Relation, [Bounding(bound), Tag("highway", detail)]), Recurse(Down)]),
      Print(Name(index)) ]
  }

  /** The request body: one group per region, in order, indexed from 0. */
  function Build(regions: seq<Bounds>, detail: string): (groups: seq<seq<Statement>>)
    ensures |groups| == |regions|
  {
    seq(|regions|, i requires 0 <= i < |regions| => Group(i, regions[i], detail))
  }

  /** What a group asks for: the set it fills, the region and the `highway` pattern. */
  datatype Tagged = Tagged(index: nat, bound: Bounds, detail: string)

  /** Reads one group back, or `None` when it is not shaped like a group of `Build`. */
  function ParseGroup(group: seq<Statement>): Option<Tagged>
  {
    if |group| != 2 || !group[0].Union? then None
    else
      var into, body := group[0].into, group[0].body;
      if |body| == 2 && body[0].Query? && body[0].element == Relation && |body[0].clauses| == 2
         && body[0].clauses[0].Bounding? && body[0].clauses[1].Tag? && body[0].clauses[1].key == "highway"
         && body[1] == Recurse(Down) && group[1] == Print(into) && IsDecimal(into)
      then Some(Tagged(DecimalValue(into), body[0].clauses[0].bound, body[0].clauses[1].pattern))
      else None
  }

  /** Reads every group of a request back, in order; `None` if any group is malformed. */
  function Demux(groups: seq<seq<Statement>>): Option<seq<Tagged>>
  {
    if |groups| == 0 then Some([])
    else
      match (Demux(groups[..|groups| - 1]), ParseGroup(groups[|groups| - 1]))
      case (Some(init), Some(last)) => Some(init + [last])
      case _ => None
  }

  /** The request asks for exactly the regions, in order, tagged 0 to n-1, all with the same filter. */
  lemma {:induction false} DemuxBuild(regions: seq<Bounds>, detail: string)
    ensures Demux(Build(regions, detail)).Some?
    ensures var tags := Demux(Build(regions, detail)).value;
      |tags| == |regions| &&
      forall i :: 0 <= i < |regions| ==> tags[i] == Tagged(i, regions[i], detail)
  {
    var groups := Build(regions, detail);
    if |regions| > 0 {
      var n := |regions| - 1;
      assert groups[..n] == Build(regions[..n], detail);
      DemuxBuild(regions[..n], detail);
      NameRoundTrip(n);
      assert ParseGroup(groups[n]) == Some(Tagged(n, regions[n], detail));
    }
  }

  /** Each group fills and prints a set of its own, so a response can be demultiplexed by name. */
  lemma GroupNamesDistinct(regions: seq<Bounds>, detail: string)
    ensures forall i, j :: 0 <= i < |regions| && 0 <= j < |regions| && i != j ==>
      Build(regions, detail)[i][0].into != Build(regions, detail)[j][0].into
  {
    forall i, j | 0 <= i < |regions| && 0 <= j < |regions| && i != j
      ensures Build(regions, detail)[i][0].into != Build(regions, detail)[j][0].into
    {
      NameInjective(i, j);
    }
  }
}
