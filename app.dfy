/**
 * The read-only query handlers of the water-quality backend: the distinct
 * states, the distinct locations of a state, and the comparison of two
 * locations on a chosen parameter. The dataset is loaded once and only read,
 * so every handler is a function of the table and the request.
 */
module App {
  import opened Wrappers
  import opened Series

  /**
   * One measurement record. Blank cells of the file are the null marker `None`;
   * `readings` holds the numeric measurement columns by name.
   */
  datatype Row = Row(state: Option<string>, location: Option<string>, readings: map<string, Option<real>>)

  /** The dataset: the names of its numeric columns and its rows, in file order. */
  datatype Table = Table(parameters: set<string>, rows: seq<Row>)

  /** The cell of column `p` in `row`, the null marker when the row has none. */
  function Reading(row: Row, p: string): Option<real> {
    if p in row.readings then row.readings[p] else None
  }

  // ---------------------------------------------------------------------------
  // Remediation text per parameter
  // ---------------------------------------------------------------------------

  const NoSolution := "No solution available for the selected parameter."

  const Solutions: map<string, string> := map[
    "TOTAL_COLIFORM" := "Improve sanitation facilities, ensure proper waste treatment, and prevent sewage discharge into water bodies.",
    "DO" := "Increase aeration, control nutrient loading to reduce algal blooms, and manage organic waste discharge.",
    "pH" := "Monitor industrial discharges, control acid rain, and manage agricultural runoff.",
    "TEMP" := "Implement riparian buffers, control thermal pollution from industrial sources, and increase shading along waterways.",
    "CONDUCTIVITY" := "Manage agricultural runoff, reduce road salt usage, and monitor industrial discharges.",
    "BOD" := "Improve waste treatment processes, reduce organic matter discharge, and control agricultural runoff.",
    "NITRATE_N_NITRITE_N" := "Manage agricultural practices, reduce fertilizer usage, and improve waste treatment.",
    "FECAL_COLIFORM" := "Enhance sanitation infrastructure, prevent sewage discharge, and promote good hygiene practices."
  ]

  /**
   * The solution text for a parameter, with the default for a parameter the
   * table does not know. No entry of the table is the default text, so the
   * default appears exactly when the key is missing.
   */
  function SolutionFor(parameter: string): (r: string)
    ensures parameter in Solutions ==> r == Solutions[parameter]
    ensures r == NoSolution <==> parameter !in Solutions
  {
    if parameter in Solutions then Solutions[parameter] else NoSolution
  }

  // ---------------------------------------------------------------------------
  // Distinct states and locations
  // ---------------------------------------------------------------------------

  /** The STATE column. */
  function StateColumn(rows: seq<Row>): (c: seq<Option<string>>)
    ensures |c| == |rows| && forall i :: 0 <= i < |rows| ==> c[i] == rows[i].state
  {
    seq(|rows|, i requires 0 <= i < |rows| => rows[i].state)
  }

  /** The LOCATIONS column. */
  function LocationColumn(rows: seq<Row>): (c: seq<Option<string>>)
    ensures |c| == |rows| && forall i :: 0 <= i < |rows| ==> c[i] == rows[i].location
  {
    seq(|rows|, i requires 0 <= i < |rows| => rows[i].location)
  }

  /**
   * `dropna().unique()` of a column: each non-null value once, in the order of
   * its first row.
   */
  lemma UniqueNonNullOrder(col: seq<Option<string>>)
    ensures forall i, j :: 0 <= i < j < |Unique(DropNulls(col))| ==>
      Some(Unique(DropNulls(col))[i]) in col && Some(Unique(DropNulls(col))[j]) in col &&
      FirstIndex(col, Some(Unique(DropNulls(col))[i])) < FirstIndex(col, Some(Unique(DropNulls(col))[j]))
  {
    var d := DropNulls(col);
    var r := Unique(d);
    UniqueFirstOccurrenceOrder(d);
    forall i, j | 0 <= i < j < |r|
      ensures Some(r[i]) in col && Some(r[j]) in col && FirstIndex(col, Some(r[i])) < FirstIndex(col, Some(r[j]))
    {
      assert r[i] in d && r[j] in d;
      DropNullsFirstIndex(col, r[i], r[j]);
    }
  }

  /** Dropping the nulls keeps the relative order of first occurrences. */
  lemma {:induction false} DropNullsFirstIndex(col: seq<Option<string>>, x: string, y: string)
    requires x in DropNulls(col) && y in DropNulls(col)
    ensures Some(x) in col && Some(y) in col
    ensures FirstIndex(DropNulls(col), x) < FirstIndex(DropNulls(col), y) <==>
            FirstIndex(col, Some(x)) < FirstIndex(col, Some(y))
  {
    var tail := col[1..];
    match col[0]
    case None =>
      assert DropNulls(col) == DropNulls(tail);
      DropNullsFirstIndex(tail, x, y);
    case Some(v) =>
      assert DropNulls(col) == [v] + DropNulls(tail);
      if x != v && y != v {
        DropNullsFirstIndex(tail, x, y);
      }
  }

  /** GET /api/unique_states: the distinct non-null states. */
  function UniqueStates(t: Table): (r: seq<string>)
    ensures Distinct(r)
    ensures forall s :: s in r <==> exists i :: 0 <= i < |t.rows| && t.rows[i].state == Some(s)
  {
    var col := StateColumn(t.rows);
    var r := Unique(DropNulls(col));
    assert forall s :: Some(s) in col <==> exists i :: 0 <= i < |t.rows| && t.rows[i].state == Some(s);
    r
  }

  /** The states come in the order of the first row that carries each. */
  lemma UniqueStatesOrder(t: Table)
    ensures forall i, j :: 0 <= i < j < |UniqueStates(t)| ==>
      Some(UniqueStates(t)[i]) in StateColumn(t.rows) && Some(UniqueStates(t)[j]) in StateColumn(t.rows) &&
      FirstIndex(StateColumn(t.rows), Some(UniqueStates(t)[i])) < FirstIndex(StateColumn(t.rows), Some(UniqueStates(t)[j]))
  {
    assert UniqueStates(t) == Unique(DropNulls(StateColumn(t.rows)));
    UniqueNonNullOrder(StateColumn(t.rows));
  }

  /**
   * The rows whose STATE equals `state`. A missing `state` (null) equals no
   * cell, not even a null one, as in the table library's element-wise `==`.
   */
  function RowsInState(rows: seq<Row>, state: Option<string>): (r: seq<Row>)
    ensures |r| <= |rows|
    ensures forall row :: row in r <==> row in rows && state.Some? && row.state == state
  {
    if rows == [] then []
    else
      var rest := RowsInState(rows[1..], state);
      assert forall row :: row in rows <==> row == rows[0] || row in rows[1..];
      if state.Some? && rows[0].state == state then [rows[0]] + rest else rest
  }

  /** The mask keeps rows in file order, each as often as it occurs: filtering distributes over concatenation. */
  lemma {:induction false} RowsInStateAppend(a: seq<Row>, b: seq<Row>, state: Option<string>)
    ensures RowsInState(a + b, state) == RowsInState(a, state) + RowsInState(b, state)
  {
    if a == [] {
      assert a + b == b;
    } else {
      assert (a + b)[1..] == a[1..] + b;
      RowsInStateAppend(a[1..], b, state);
    }
  }

  /** POST /api/locations_in_state: the distinct non-null locations among the rows of `state`. */
  function LocationsInState(t: Table, state: Option<string>): (r: seq<string>)
    ensures Distinct(r)
    ensures forall l :: l in r <==>
      exists i :: 0 <= i < |t.rows| && state.Some? && t.rows[i].state == state && t.rows[i].location == Some(l)
  {
    var inState := RowsInState(t.rows, state);
    var col := LocationColumn(inState);
    assert forall l :: Some(l) in col <==> exists row :: row in inState && row.location == Some(l);
    Unique(DropNulls(col))
  }

  /** The locations come in the order of the first row of that state that carries each. */
  lemma LocationsInStateOrder(t: Table, state: Option<string>)
    ensures forall i, j :: 0 <= i < j < |LocationsInState(t, state)| ==>
      var col := LocationColumn(RowsInState(t.rows, state));
      Some(LocationsInState(t, state)[i]) in col && Some(LocationsInState(t, state)[j]) in col &&
      FirstIndex(col, Some(LocationsInState(t, state)[i])) < FirstIndex(col, Some(LocationsInState(t, state)[j]))
  {
    assert LocationsInState(t, state) == Unique(DropNulls(LocationColumn(RowsInState(t.rows, state))));
    UniqueNonNullOrder(LocationColumn(RowsInState(t.rows, state)));
  }

  // ---------------------------------------------------------------------------
  // Comparison of two locations
  // ---------------------------------------------------------------------------

  /** The JSON body of POST /api/compare; a field the client left out is `None`. */
  datatype Request = Request(
    location1: Option<string>,
    location2: Option<string>,
    parameter: Option<string>,
    secondaryParameter: Option<string>)

  /** Truthiness of a request field: present and not the empty string. */
  predicate Truthy(v: Option<string>): (r: bool)
    ensures !r <==> v == None || v == Some("")
  {
    v.Some? && v.value != ""
  }

  /** The handler's guard: both locations and the parameter are truthy; the secondary parameter is not consulted. */
  predicate Valid(req: Request): (r: bool)
    ensures r <==> None !in [req.location1, req.location2, req.parameter] &&
                   Some("") !in [req.location1, req.location2, req.parameter]
  {
    Truthy(req.location1) && Truthy(req.location2) && Truthy(req.parameter)
  }

  /** A row of a filtered row-set: the LOCATIONS, primary and secondary columns, none of them null. */
  datatype Sample = Sample(location: string, primary: real, secondary: real)

  /**
   * The justification attached to the verdict, with the means it cites
   * (`None` where the mean is undefined).
   */
  datatype Reason =
    | HigherPrimary(higher: string, lower: string, parameter: string,
                    higherMean: Option<real>, lowerMean: Option<real>)
    | SamePrimary(location1: string, location2: string, parameter: string, mean: Option<real>,
                  higher: string, lower: string, secondaryParameter: string,
                  higherMean: Option<real>, lowerMean: Option<real>)

  datatype Comparison = Comparison(
    location1Data: seq<Sample>,
    location2Data: seq<Sample>,
    morePolluted: string,
    reason: Reason,
    solution: string)

  /**
   * The result of the handler: a rejected request (status 400), a column the
   * table does not have (the column selection raises, status 500), or a verdict.
   */
  datatype Outcome = InvalidInput | MissingColumn | Compared(result: Comparison)

  const InvalidInputMessage := "Invalid input"

  /** The status code of the response; each outcome has its own. */
  function HttpStatus(o: Outcome): (s: nat)
    ensures s == 400 <==> o.InvalidInput?
    ensures s == 500 <==> o.MissingColumn?
    ensures s == 200 <==> o.Compared?
  {
    match o
    case InvalidInput => 400
    case MissingColumn => 500
    case Compared(_) => 200
  }

  /**
   * The `error` field of the JSON body: present only on a rejected request.
   * The status 500 response carries the framework's error page, not a JSON error.
   */
  function ErrorBody(o: Outcome): (b: Option<string>)
    ensures b.Some? <==> HttpStatus(o) == 400
    ensures b.Some? ==> b.value == InvalidInputMessage
  {
    if o.InvalidInput? then Some(InvalidInputMessage) else None
  }

  /** The row-filter of the handler: the location matches and both chosen columns hold a value. */
  predicate Keeps(row: Row, location: string, p: string, sp: string): (r: bool)
    ensures r <==> row.location == Some(location) && None !in [Reading(row, p), Reading(row, sp)]
  {
    row.location == Some(location) && Reading(row, p).Some? && Reading(row, sp).Some?
  }

  /** The record of a kept row: its location and its two chosen cells. */
  function Project(row: Row, location: string, p: string, sp: string): (x: Sample)
    requires Keeps(row, location, p, sp)
    ensures Some(x.location) == row.location
    ensures Some(x.primary) == Reading(row, p) && Some(x.secondary) == Reading(row, sp)
  {
    Sample(location, Reading(row, p).value, Reading(row, sp).value)
  }

  /** The rows of `location` projected on LOCATIONS, `p` and `sp`, without the rows that have a null. */
  function Select(rows: seq<Row>, location: string, p: string, sp: string): (r: seq<Sample>)
    ensures |r| <= |rows|
    ensures forall k :: 0 <= k < |r| ==> r[k].location == location
    ensures r == [] <==> forall i :: 0 <= i < |rows| ==> !Keeps(rows[i], location, p, sp)
  {
    if rows == [] then []
    else
      var rest := Select(rows[1..], location, p, sp);
      assert forall i :: 1 <= i < |rows| ==> rows[i] == rows[1..][i - 1];
      if Keeps(rows[0], location, p, sp) then [Project(rows[0], location, p, sp)] + rest else rest
  }

  /** Filtering distributes over concatenation, so the selected rows keep their file order. */
  lemma {:induction false} SelectAppend(a: seq<Row>, b: seq<Row>, location: string, p: string, sp: string)
    ensures Select(a + b, location, p, sp) == Select(a, location, p, sp) + Select(b, location, p, sp)
  {
    if a == [] {
      assert a + b == b;
    } else {
      assert (a + b)[1..] == a[1..] + b;
      SelectAppend(a[1..], b, location, p, sp);
    }
  }

  /** A sample is selected exactly when some row passes the filter and projects to it. */
  lemma {:induction false} SelectMembership(rows: seq<Row>, location: string, p: string, sp: string, x: Sample)
    ensures x in Select(rows, location, p, sp) <==>
      exists i :: 0 <= i < |rows| && Keeps(rows[i], location, p, sp) && Project(rows[i], location, p, sp) == x
  {
    if rows != [] {
      SelectMembership(rows[1..], location, p, sp, x);
      assert forall i :: 1 <= i < |rows| ==> rows[i] == rows[1..][i - 1];
      if exists i :: 0 <= i < |rows[1..]| && Keeps(rows[1..][i], location, p, sp) && Project(rows[1..][i], location, p, sp) == x {
        var i :| 0 <= i < |rows[1..]| && Keeps(rows[1..][i], location, p, sp) && Project(rows[1..][i], location, p, sp) == x;
        assert rows[i + 1] == rows[1..][i];
      }
    }
  }

  function Primaries(d: seq<Sample>): (v: seq<real>)
    ensures |v| == |d| && forall k :: 0 <= k < |d| ==> v[k] == d[k].primary
  {
    seq(|d|, k requires 0 <= k < |d| => d[k].primary)
  }

  function Secondaries(d: seq<Sample>): (v: seq<real>)
    ensures |v| == |d| && forall k :: 0 <= k < |d| ==> v[k] == d[k].secondary
  {
    seq(|d|, k requires 0 <= k < |d| => d[k].secondary)
  }

  /** `a > b` on means: false whenever either mean is undefined, as with not-a-number. */
  predicate Above(a: Option<real>, b: Option<real>): (r: bool)
    ensures a.None? || b.None? ==> !r
    ensures a.Some? && b.Some? ==> (r <==> b.value < a.value)
  {
    a.Some? && b.Some? && a.value > b.value
  }

  /** POST /api/compare. */
  function Compare(t: Table, req: Request): (o: Outcome)
    ensures o.InvalidInput? <==> !Valid(req)
    ensures o.MissingColumn? <==>
      Valid(req) && (req.parameter.value !in t.parameters ||
                     req.secondaryParameter.None? || req.secondaryParameter.value !in t.parameters)
    ensures o.Compared? ==>
      o.result.morePolluted == req.location1.value || o.result.morePolluted == req.location2.value
    ensures o.Compared? ==>
      o.result.location1Data == Select(t.rows, req.location1.value, req.parameter.value, req.secondaryParameter.value) &&
      o.result.location2Data == Select(t.rows, req.location2.value, req.parameter.value, req.secondaryParameter.value)
    ensures o.Compared? ==> o.result.solution == SolutionFor(req.parameter.value)
    ensures o.Compared? ==> o.result.reason.higher == o.result.morePolluted
  {
    if !Valid(req) then InvalidInput
    else
      var l1, l2, p := req.location1.value, req.location2.value, req.parameter.value;
      if p !in t.parameters || req.secondaryParameter.None? || req.secondaryParameter.value !in t.parameters then
        MissingColumn
      else
        var sp := req.secondaryParameter.value;
        var data1 := Select(t.rows, l1, p, sp);
        var data2 := Select(t.rows, l2, p, sp);
        var avg1 := Mean(Primaries(data1));
        var avg2 := Mean(Primaries(data2));
        var (morePolluted, reason) :=
          if Above(avg1, avg2) then
            (l1, HigherPrimary(l1, l2, p, avg1, avg2))
          else if Above(avg2, avg1) then
            (l2, HigherPrimary(l2, l1, p, avg2, avg1))
          else
            var secondaryAvg1 := Mean(Secondaries(data1));
            var secondaryAvg2 := Mean(Secondaries(data2));
            if Above(secondaryAvg1, secondaryAvg2) then
              (l1, SamePrimary(l1, l2, p, avg1, l1, l2, sp, secondaryAvg1, secondaryAvg2))
            else
              (l2, SamePrimary(l1, l2, p, avg1, l2, l1, sp, secondaryAvg2, secondaryAvg1));
        Compared(Comparison(data1, data2, morePolluted, reason, SolutionFor(p)))
  }

  // ---------------------------------------------------------------------------
  // Properties of the comparison
  // ---------------------------------------------------------------------------

  /** The mean of the primary parameter over a location's filtered rows. */
  function PrimaryMean(t: Table, location: string, p: string, sp: string): Option<real> {
    Mean(Primaries(Select(t.rows, location, p, sp)))
  }

  /** The mean of the secondary parameter over a location's filtered rows. */
  function SecondaryMean(t: Table, location: string, p: string, sp: string): Option<real> {
    Mean(Secondaries(Select(t.rows, location, p, sp)))
  }

  /** A request that reaches the comparison: valid and naming two columns of the table. */
  predicate Comparable(t: Table, req: Request) {
    Valid(req) && req.parameter.value in t.parameters &&
    req.secondaryParameter.Some? && req.secondaryParameter.value in t.parameters
  }

  /** A request missing a location or the parameter is refused with status 400 and nothing is compared. */
  lemma RejectsMissingFields(t: Table, req: Request)
    requires !Truthy(req.location1) || !Truthy(req.location2) || !Truthy(req.parameter)
    ensures Compare(t, req) == InvalidInput && HttpStatus(Compare(t, req)) == 400
    ensures ErrorBody(Compare(t, req)) == Some(InvalidInputMessage)
  {
  }

  /** A strictly higher primary mean wins, whichever side it is on. */
  lemma PrimaryMeanDecides(t: Table, req: Request)
    requires Comparable(t, req)
    ensures var l1, l2, p, sp := req.location1.value, req.location2.value, req.parameter.value, req.secondaryParameter.value;
      var winner := Compare(t, req).result.morePolluted;
      (Above(PrimaryMean(t, l1, p, sp), PrimaryMean(t, l2, p, sp)) ==> winner == l1) &&
      (Above(PrimaryMean(t, l2, p, sp), PrimaryMean(t, l1, p, sp)) ==> winner == l2)
  {
  }

  /**
   * Without a strictly higher primary mean on either side, the first location
   * wins only with a strictly higher secondary mean; otherwise, ties included,
   * the second location wins.
   */
  lemma SecondaryMeanBreaksTie(t: Table, req: Request)
    requires Comparable(t, req)
    ensures var l1, l2, p, sp := req.location1.value, req.location2.value, req.parameter.value, req.secondaryParameter.value;
      !Above(PrimaryMean(t, l1, p, sp), PrimaryMean(t, l2, p, sp)) &&
      !Above(PrimaryMean(t, l2, p, sp), PrimaryMean(t, l1, p, sp)) ==>
        Compare(t, req).result.morePolluted ==
          if Above(SecondaryMean(t, l1, p, sp), SecondaryMean(t, l2, p, sp)) then l1 else l2
  {
  }

  /** A location without any qualifying row has no mean, every comparison fails, and the second location wins. */
  lemma EmptySideSecondWins(t: Table, req: Request)
    requires Comparable(t, req)
    requires var p, sp := req.parameter.value, req.secondaryParameter.value;
      Select(t.rows, req.location1.value, p, sp) == [] || Select(t.rows, req.location2.value, p, sp) == []
    ensures Compare(t, req).result.morePolluted == req.location2.value
  {
  }

  function Swapped(req: Request): Request {
    req.(location1 := req.location2, location2 := req.location1)
  }

  /** When both primary means are defined and differ, the order of the two locations does not matter. */
  lemma SwapKeepsWinner(t: Table, req: Request)
    requires Comparable(t, req)
    requires var p, sp := req.parameter.value, req.secondaryParameter.value;
      var m1, m2 := PrimaryMean(t, req.location1.value, p, sp), PrimaryMean(t, req.location2.value, p, sp);
      m1.Some? && m2.Some? && m1 != m2
    ensures Compare(t, Swapped(req)).result.morePolluted == Compare(t, req).result.morePolluted
  {
  }

  /**
   * The tie-break is not symmetric: with equal primary and equal secondary
   * means the location passed second wins, so swapping the two swaps the winner.
   */
  lemma FullTieFavoursSecond(t: Table, req: Request)
    requires Comparable(t, req)
    requires var l1, l2, p, sp := req.location1.value, req.location2.value, req.parameter.value, req.secondaryParameter.value;
      PrimaryMean(t, l1, p, sp) == PrimaryMean(t, l2, p, sp) &&
      SecondaryMean(t, l1, p, sp) == SecondaryMean(t, l2, p, sp)
    ensures Compare(t, req).result.morePolluted == req.location2.value
    ensures Compare(t, Swapped(req)).result.morePolluted == req.location1.value
  {
  }
}
