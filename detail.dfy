/**
  The detail selector of `MapCoordinator.receive`: a `switch` over the diameter
  of the requested bounds that picks which road categories the query asks for.

  `Filter` follows the `switch` arm by arm. Beside it, `BANDS` states the same
  step function as an ordered table of closed ranges over a ladder of road
  categories, finest last, where the first row whose range holds the diameter
  wins and a diameter no row holds gets the default; `Filter`'s contract says
  that the switch and the table agree on every diameter, and the lemmas below
  say what the table promises: the bands, the boundaries, and that a larger
  viewport never asks for more categories.
 */
module Detail {

  /** The road categories in the order the filter strings list them, finest last. */
  const ROAD_CATEGORIES: seq<string> :=
    ["motorway", "trunk", "primary", "secondary", "tertiary", "unclassified", "residential", "service"]

  /** The number of categories requested when no band of the table applies. */
  const COARSEST_COUNT: nat := 2

  /** One row of the table: diameters in the closed range `from...upTo` request the first `count` categories. */
  datatype Band = Band(from: real, upTo: real, count: nat)

  /** The arms of the switch, finest first; a diameter takes the first row whose range holds it. */
  const BANDS: seq<Band> := [Band(0.0, 0.01, 8), Band(0.01, 0.03, 7), Band(0.03, 0.07, 5), Band(0.07, 0.1, 3)]

  /** The category count of the first row whose range holds `diameter`, or the default. */
  function Lookup(table: seq<Band>, diameter: real): nat
  {
    if |table| == 0 then COARSEST_COUNT
    else if table[0].from <= diameter <= table[0].upTo then table[0].count
    else Lookup(table[1..], diameter)
  }

  /** How many categories of the ladder a viewport of this diameter asks for. */
  function CategoryCount(diameter: real): (count: nat)
    ensures COARSEST_COUNT <= count <= |ROAD_CATEGORIES|
  {
    BandsLookup(diameter);
    Lookup(BANDS, diameter)
  }

  /** The categories a viewport of this diameter asks for. */
  function Categories(diameter: real): seq<string>
  {
    ROAD_CATEGORIES[..CategoryCount(diameter)]
  }

  /** The categories written as one `|`-separated alternation. */
  function Join(parts: seq<string>): string
  {
    if |parts| == 0 then ""
    else if |parts| == 1 then parts[0]
    else parts[0] + "|" + Join(parts[1..])
  }

  /** The fields of a `|`-separated string: the inverse of `Join`. */
  function Split(s: string): (parts: seq<string>)
    ensures |parts| >= 1
  {
    if |s| == 0 then [""]
    else
      var rest := Split(s[1..]);
      if s[0] == '|' then [""] + rest
      else [[s[0]] + rest[0]] + rest[1..]
  }

  /**
    The `highway` pattern for a viewport of this diameter, as the `switch` in
    `receive` computes it: a closed range matches when it contains the value,
    and the first matching arm wins.
   */
  function Filter(diameter: real): (detail: string)
    ensures detail == Join(Categories(diameter))
  {
    LadderJoins();
    BandsLookup(diameter);
    if 0.0 <= diameter <= 0.01 then
      "motorway|trunk|primary|secondary|tertiary|unclassified|residential|service"
    else if 0.01 <= diameter <= 0.03 then
      "motorway|trunk|primary|secondary|tertiary|unclassified|residential"
    else if 0.03 <= diameter <= 0.07 then
      "motorway|trunk|primary|secondary|tertiary"
    else if 0.07 <= diameter <= 0.1 then
      "motorway|trunk|primary"
    else
      "motorway|trunk"
  }

  /** Joining one more category appends a separator and that category. */
  lemma {:induction false} JoinSnoc(parts: seq<string>, last: string)
    requires |parts| >= 1
    ensures Join(parts + [last]) == Join(parts) + "|" + last
  {
    if |parts| > 1 {
      assert (parts + [last])[1..] == parts[1..] + [last];
      JoinSnoc(parts[1..], last);
    }
  }

  /** Each prefix of the ladder joins to the previous prefix, a separator and one more category. */
  lemma LadderStep(k: nat)
    requires 1 <= k < |ROAD_CATEGORIES|
    ensures Join(ROAD_CATEGORIES[..k + 1]) == Join(ROAD_CATEGORIES[..k]) + "|" + ROAD_CATEGORIES[k]
  {
    assert ROAD_CATEGORIES[..k + 1] == ROAD_CATEGORIES[..k] + [ROAD_CATEGORIES[k]];
    JoinSnoc(ROAD_CATEGORIES[..k], ROAD_CATEGORIES[k]);
  }

  /** The joined prefixes of the ladder that the table uses. */
  lemma LadderJoins()
    ensures Join(ROAD_CATEGORIES[..2]) == "motorway|trunk"
    ensures Join(ROAD_CATEGORIES[..3]) == "motorway|trunk|primary"
    ensures Join(ROAD_CATEGORIES[..5]) == "motorway|trunk|primary|secondary|tertiary"
    ensures Join(ROAD_CATEGORIES[..7]) == "motorway|trunk|primary|secondary|tertiary|unclassified|residential"
    ensures Join(ROAD_CATEGORIES[..8]) == "motorway|trunk|primary|secondary|tertiary|unclassified|residential|service"
  {
    assert ROAD_CATEGORIES[..1] == ["motorway"];
    LadderStep(1);
    assert Join(ROAD_CATEGORIES[..2]) == "motorway|trunk";
    LadderStep(2);
    assert Join(ROAD_CATEGORIES[..3]) == "motorway|trunk|primary";
    LadderStep(3);
    assert Join(ROAD_CATEGORIES[..4]) == "motorway|trunk|primary|secondary";
    LadderStep(4);
    assert Join(ROAD_CATEGORIES[..5]) == "motorway|trunk|primary|secondary|tertiary";
    LadderStep(5);
    assert Join(ROAD_CATEGORIES[..6]) == "motorway|trunk|primary|secondary|tertiary|unclassified";
    LadderStep(6);
    assert Join(ROAD_CATEGORIES[..7]) == "motorway|trunk|primary|secondary|tertiary|unclassified|residential";
    LadderStep(7);
  }

  /** The table lookup written out row by row. */
  lemma BandsLookup(diameter: real)
    ensures Lookup(BANDS, diameter) ==
      if 0.0 <= diameter <= 0.01 then 8
      else if 0.01 <= diameter <= 0.03 then 7
      else if 0.03 <= diameter <= 0.07 then 5
      else if 0.07 <= diameter <= 0.1 then 3
      else COARSEST_COUNT
  {
    var t := BANDS;
    assert Lookup(t, diameter) == if 0.0 <= diameter <= 0.01 then 8 else Lookup(t[1..], diameter);
    assert t[1..] == [Band(0.01, 0.03, 7), Band(0.03, 0.07, 5), Band(0.07, 0.1, 3)];
    assert Lookup(t[1..], diameter) == if 0.01 <= diameter <= 0.03 then 7 else Lookup(t[2..], diameter);
    assert t[2..] == [Band(0.03, 0.07, 5), Band(0.07, 0.1, 3)];
    assert Lookup(t[2..], diameter) == if 0.03 <= diameter <= 0.07 then 5 else Lookup(t[3..], diameter);
    assert t[3..] == [Band(0.07, 0.1, 3)];
    assert Lookup(t[3..], diameter) == if 0.07 <= diameter <= 0.1 then 3 else Lookup(t[4..], diameter);
    assert t[4..] == [];
  }

  /**
    The five bands, with each boundary value in the finer band and every
    negative diameter in the coarsest one.
   */
  lemma CategoryCountBands(diameter: real)
    ensures 0.0 <= diameter <= 0.01 ==> CategoryCount(diameter) == 8
    ensures 0.01 < diameter <= 0.03 ==> CategoryCount(diameter) == 7
    ensures 0.03 < diameter <= 0.07 ==> CategoryCount(diameter) == 5
    ensures 0.07 < diameter <= 0.1 ==> CategoryCount(diameter) == 3
    ensures diameter < 0.0 || 0.1 < diameter ==> CategoryCount(diameter) == COARSEST_COUNT
  {
    BandsLookup(diameter);
  }

  /**
    A table whose rows grow in diameter and shrink in count, never below the
    default, and whose ranges leave no gap: each row starts no later than the
    previous one ends.
   */
  ghost predicate Graded(table: seq<Band>)
  {
    (forall i, j :: 0 <= i < j < |table| ==> table[i].upTo <= table[j].upTo && table[j].count <= table[i].count)
    && (forall i :: 0 <= i < |table| ==> COARSEST_COUNT <= table[i].count)
    && (forall i :: 0 < i < |table| ==> table[i].from <= table[i - 1].upTo)
  }

  /** No lookup in a graded table exceeds its first row's count. */
  lemma {:induction false} LookupAtMostFirst(table: seq<Band>, diameter: real)
    requires Graded(table) && |table| > 0
    ensures Lookup(table, diameter) <= table[0].count
  {
    if !(table[0].from <= diameter <= table[0].upTo) && |table| > 1 {
      LookupAtMostFirst(table[1..], diameter);
    }
  }

  /**
    Looking up a larger diameter in a graded table never gives a larger count,
    from the start of the first range up.
   */
  lemma {:induction false} LookupAntitone(table: seq<Band>, smaller: real, larger: real)
    requires Graded(table) && smaller <= larger
    requires |table| > 0 ==> table[0].from <= smaller
    ensures Lookup(table, larger) <= Lookup(table, smaller)
  {
    if |table| > 0 && smaller > table[0].upTo {
      if |table| > 1 {
        assert table[1..][0].from <= table[0].upTo;
      }
      LookupAntitone(table[1..], smaller, larger);
    } else if |table| > 0 && larger > table[0].upTo {
      if |table| > 1 {
        LookupAtMostFirst(table[1..], larger);
      }
    }
  }

  /** The fields of a join of `|`-free, non-empty lists are the list itself. */
  lemma {:induction false} SplitJoin(parts: seq<string>)
    requires |parts| >= 1
    requires forall i :: 0 <= i < |parts| ==> '|' !in parts[i]
    ensures Split(Join(parts)) == parts
  {
    if |parts| == 1 {
      SplitPlain(parts[0]);
    } else {
      SplitJoin(parts[1..]);
      SplitField(parts[0], Join(parts[1..]));
    }
  }

  /** A string without a separator is a single field. */
  lemma {:induction false} SplitPlain(s: string)
    requires '|' !in s
    ensures Split(s) == [s]
  {
    if |s| > 0 {
      SplitPlain(s[1..]);
      assert s == [s[0]] + s[1..];
    }
  }

  /** The first field ends at the first separator. */
  lemma {:induction false} SplitField(field: string, rest: string)
    requires '|' !in field
    ensures Split(field + "|" + rest) == [field] + Split(rest)
  {
    var s := field + "|" + rest;
    if |field| == 0 {
      assert s[1..] == rest;
    } else {
      assert s[1..] == field[1..] + "|" + rest;
      SplitField(field[1..], rest);
      assert field == [field[0]] + field[1..];
    }
  }

  /** The categories carried by the filter string are a prefix of the ladder. */
  lemma FilterCategories(diameter: real)
    ensures Split(Filter(diameter)) == Categories(diameter)
    ensures |Split(Filter(diameter))| == CategoryCount(diameter)
  {
    CategoryCountBands(diameter);
    var parts := Categories(diameter);
    forall i | 0 <= i < |parts|
      ensures '|' !in parts[i]
    {
      assert parts[i] == ROAD_CATEGORIES[i];
    }
    SplitJoin(parts);
  }

  /**
    Detail monotonicity: for non-negative diameters, a larger viewport asks for
    a prefix, hence a subset, of the categories a smaller one asks for.
   */
  lemma FilterMonotone(smaller: real, larger: real)
    requires 0.0 <= smaller <= larger
    ensures Split(Filter(larger)) <= Split(Filter(smaller))
    ensures forall c :: c in Split(Filter(larger)) ==> c in Split(Filter(smaller))
  {
    FilterCategories(smaller);
    FilterCategories(larger);
    BandsGraded();
    LookupAntitone(BANDS, smaller, larger);
    var k, m := CategoryCount(larger), CategoryCount(smaller);
    assert ROAD_CATEGORIES[..k] == ROAD_CATEGORIES[..m][..k];
  }

  /** The table of the switch is graded. */
  lemma BandsGraded()
    ensures Graded(BANDS)
  {
  }

  /** A negative diameter falls through every range and gets the coarsest filter. */
  lemma NegativeDiameterIsCoarsest(diameter: real)
    requires diameter < 0.0
    ensures Split(Filter(diameter)) == ["motorway", "trunk"]
    ensures |Split(Filter(diameter))| < |Split(Filter(0.0))|
  {
    FilterCategories(diameter);
    FilterCategories(0.0);
    CategoryCountBands(diameter);
    CategoryCountBands(0.0);
    assert Categories(diameter) == ROAD_CATEGORIES[..2] == ["motorway", "trunk"];
  }
}
