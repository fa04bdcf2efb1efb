/** The raster list of the user area: the rows the raster listing returns are
    annotated in place with their `type` and a readable period, sorted in place
    with the page's comparator, and offered for download under a path built from
    the `typeBasePaths` table. */
module RasterList {
  import opened Js

  /** The `period` object of a raster row. */
  datatype Period = Period(dateFrom: string, dateTo: string)

  /** One row of the listing. `kind` is the row's `type` property and, like
      `periodReadeable`, is absent (`None`) until the loop adds it. */
  datatype Row = Row(
    id: int,
    slug: string,
    name: string,
    createdAt: string,
    updatedAt: string,
    tilesUrl: string,
    period: Period,
    kind: Option<string>,
    periodReadeable: Option<string>)

  /** The `type` every fetched row is given. */
  const RasterType: string := "eo-sensors"

  /** `${date_from} - ${date_to}`. */
  function PeriodText(p: Period): string
  {
    p.dateFrom + " - " + p.dateTo
  }

  /** A row as the loop leaves it: typed, with the readable form of its own period. */
  predicate Annotated(r: Row)
  {
    r.kind == Some(RasterType) && r.periodReadeable == Some(PeriodText(r.period))
  }

  /** What one iteration of the loop does to one row. */
  function Annotate(r: Row): (a: Row)
    ensures Annotated(a)
    ensures a.(kind := r.kind, periodReadeable := r.periodReadeable) == r
  {
    r.(kind := Some(RasterType), periodReadeable := Some(PeriodText(r.period)))
  }

  function AnnotateAll(s: seq<Row>): (t: seq<Row>)
    ensures |t| == |s|
    ensures forall k :: 0 <= k < |s| ==> t[k] == Annotate(s[k])
  {
    seq(|s|, k requires 0 <= k < |s| => Annotate(s[k]))
  }

  /** `Annotate` is idempotent: annotating a row twice gives what annotating it
      once gave. */
  lemma AnnotateIdempotent(r: Row)
    ensures Annotate(Annotate(r)) == Annotate(r)
  {
  }

  /** The loop of `fetchData`: every row gets its `type` and then its
      `periodReadeable`, in place. */
  method AnnotateRows(a: array<Row>)
    modifies a
    ensures a[..] == AnnotateAll(old(a[..]))
  {
    for i := 0 to a.Length
      invariant forall k :: 0 <= k < i ==> a[k] == Annotate(old(a[k]))
      invariant forall k :: i <= k < a.Length ==> a[k] == old(a[k])
    {
      a[i] := a[i].(kind := Some(RasterType));
      a[i] := a[i].(periodReadeable := Some(PeriodText(a[i].period)));
    }
  }

  // ---------------------------------------------------------------------------
  // The comparator
  // ---------------------------------------------------------------------------

  /** `["period"]["date_from"]`: the comparator's first test reads the property
      `date_from` of the array literal `["period"]`, which has no such property. */
  const ArrayLiteralDateFrom: Primitive := Undefined

  /** The comparator passed to `result.sort`, as written. */
  function Compare(a: Row, b: Row): (r: int)
    ensures -1 <= r <= 1
    ensures r == 1 ==> StringLess(a.period.dateFrom, b.period.dateFrom)
  {
    if GreaterThan(Str(a.period.dateFrom), ArrayLiteralDateFrom) then -1
    else if GreaterThan(Str(b.period.dateFrom), Str(a.period.dateFrom)) then 1
    else 0
  }

  /** The first branch is dead: the comparator never returns -1. It returns 1
      exactly when `b` starts later than `a`, and 0 otherwise. */
  lemma CompareValues(a: Row, b: Row)
    ensures Compare(a, b) != -1
    ensures Compare(a, b) == 1 <==> StringLess(a.period.dateFrom, b.period.dateFrom)
    ensures Compare(a, b) == 0 <==> !StringLess(a.period.dateFrom, b.period.dateFrom)
  {
    GreaterThanUndefined(Str(a.period.dateFrom));
  }

  /** As written the comparator is not consistent (section 23.1.3.30 of ECMA-262):
      when `a` starts later than `b`, `Compare(a, b)` calls them equal while
      `Compare(b, a)` asks for `b` to go after `a`. */
  lemma {:induction false} CompareInconsistent(a: Row, b: Row)
    requires StringLess(b.period.dateFrom, a.period.dateFrom)
    ensures Compare(a, b) == 0 && Compare(b, a) == 1
  {
    StringLessAsymmetric(b.period.dateFrom, a.period.dateFrom);
  }

  /** The comparator the code evidently means, with `b` in the first test:
      latest period first. */
  function IntendedCompare(a: Row, b: Row): (r: int)
    ensures -1 <= r <= 1
    ensures r == 0 ==> !StringLess(a.period.dateFrom, b.period.dateFrom)
                       && !StringLess(b.period.dateFrom, a.period.dateFrom)
  {
    if StringLess(b.period.dateFrom, a.period.dateFrom) then -1
    else if StringLess(a.period.dateFrom, b.period.dateFrom) then 1
    else 0
  }

  /** The intended comparator returns -1, 1 or 0 exactly as the later start, the
      earlier start or an equal start of `a` says. */
  lemma IntendedCompareValues(a: Row, b: Row)
    ensures IntendedCompare(a, b) == -1 <==> StringLess(b.period.dateFrom, a.period.dateFrom)
    ensures IntendedCompare(a, b) == 1 <==> StringLess(a.period.dateFrom, b.period.dateFrom)
    ensures IntendedCompare(a, b) == 0 <==> a.period.dateFrom == b.period.dateFrom
  {
    var x, y := a.period.dateFrom, b.period.dateFrom;
    if StringLess(x, y) {
      StringLessAsymmetric(x, y);
    }
    if x != y {
      StringLessTotal(x, y);
    } else {
      StringLessIrreflexive(x);
    }
  }

  /** The intended comparator is consistent: swapping its arguments negates it,
      it calls two rows equal exactly when they start on the same date, and its
      "not after" relation is transitive. */
  lemma IntendedCompareConsistent(a: Row, b: Row, c: Row)
    ensures IntendedCompare(a, b) == -IntendedCompare(b, a)
    ensures IntendedCompare(a, b) == 0 <==> a.period.dateFrom == b.period.dateFrom
    ensures IntendedCompare(a, b) <= 0 && IntendedCompare(b, c) <= 0 ==> IntendedCompare(a, c) <= 0
  {
    IntendedCompareValues(a, b);
    IntendedCompareValues(b, a);
    IntendedCompareValues(b, c);
    IntendedCompareValues(a, c);
    var x, y, z := a.period.dateFrom, b.period.dateFrom, c.period.dateFrom;
    if !StringLess(x, y) && !StringLess(y, z) {
      NotLessTransitive(x, y, z);
    }
  }

  /** The two comparators agree on the only question an exchange sort asks:
      whether the first row has to go after the second. */
  lemma CompareAgreesWithIntended(a: Row, b: Row)
    ensures Compare(a, b) > 0 <==> IntendedCompare(a, b) > 0
    ensures Compare(a, b) <= 0 <==> IntendedCompare(a, b) <= 0
  {
    CompareValues(a, b);
    IntendedCompareValues(a, b);
  }

  // ---------------------------------------------------------------------------
  // The sort
  // ---------------------------------------------------------------------------

  /** No pair of rows is in the order the comparator would swap. */
  predicate Sorted(s: seq<Row>)
  {
    forall i, j :: 0 <= i < j < |s| ==> Compare(s[i], s[j]) <= 0
  }

  /** No two neighbours among the first `n` rows are in the order the
      comparator would swap. */
  predicate AdjacentSorted(s: seq<Row>, n: int)
    requires n <= |s|
  {
    forall k :: 0 <= k < n - 1 ==> Compare(s[k], s[k + 1]) <= 0
  }

  lemma {:induction false} AdjacentChain(s: seq<Row>, i: nat, j: nat)
    requires AdjacentSorted(s, |s|)
    requires i < j < |s|
    ensures Compare(s[i], s[j]) <= 0
    decreases j - i
  {
    if i + 1 < j {
      AdjacentChain(s, i + 1, j);
      CompareValues(s[i], s[i + 1]);
      CompareValues(s[i + 1], s[j]);
      CompareValues(s[i], s[j]);
      NotLessTransitive(s[i].period.dateFrom, s[i + 1].period.dateFrom, s[j].period.dateFrom);
    }
  }

  lemma AdjacentSortedIsSorted(s: seq<Row>)
    requires AdjacentSorted(s, |s|)
    ensures Sorted(s)
  {
    forall i, j | 0 <= i < j < |s|
      ensures Compare(s[i], s[j]) <= 0
    {
      AdjacentChain(s, i, j);
    }
  }

  /** A sorted listing runs from the latest period start to the earliest, which
      is also the order the intended comparator prescribes. */
  lemma SortedMeansLatestFirst(s: seq<Row>, i: int, j: int)
    requires Sorted(s)
    requires 0 <= i < j < |s|
    ensures !StringLess(s[i].period.dateFrom, s[j].period.dateFrom)
    ensures IntendedCompare(s[i], s[j]) <= 0
  {
    CompareValues(s[i], s[j]);
    CompareAgreesWithIntended(s[i], s[j]);
  }

  method Swap(a: array<Row>, i: int, j: int)
    requires 0 <= i < a.Length && 0 <= j < a.Length
    modifies a
    ensures a[..] == old(a[..])[i := old(a[j])][j := old(a[i])]
    ensures multiset(a[..]) == multiset(old(a[..]))
  {
    a[i], a[j] := a[j], a[i];
  }

  /** The state of one insertion pass over the first `i + 1` rows while the
      moving row stands at `j`: every neighbouring pair away from `j` is in
      order, the moving row starts strictly later than the row to its right, and
      the two rows around it are in order with each other. */
  predicate Inserting(s: seq<Row>, i: int, j: int)
    requires 0 <= j <= i < |s|
  {
    && (forall k :: 0 <= k < i && k != j - 1 && k != j ==> Compare(s[k], s[k + 1]) <= 0)
    && (j < i ==> StringLess(s[j + 1].period.dateFrom, s[j].period.dateFrom))
    && (0 < j < i ==> Compare(s[j - 1], s[j + 1]) <= 0)
  }

  lemma InsertingStart(s: seq<Row>, i: int)
    requires 0 < i < |s| && AdjacentSorted(s, i)
    ensures Inserting(s, i, i)
  {
  }

  /** Moving the row one place left keeps the pass's state. */
  lemma InsertingStep(s: seq<Row>, i: int, j: int)
    requires 0 < j <= i < |s| && Inserting(s, i, j)
    requires Compare(s[j - 1], s[j]) > 0
    ensures Inserting(s[j - 1 := s[j]][j := s[j - 1]], i, j - 1)
  {
    CompareValues(s[j - 1], s[j]);
  }

  /** Once the row stops, the first `i + 1` rows have no adjacent inversion. */
  lemma InsertingDone(s: seq<Row>, i: int, j: int)
    requires 0 <= j <= i < |s| && Inserting(s, i, j)
    requires j == 0 || Compare(s[j - 1], s[j]) <= 0
    ensures AdjacentSorted(s, i + 1)
  {
    if j < i {
      StringLessAsymmetric(s[j + 1].period.dateFrom, s[j].period.dateFrom);
      CompareValues(s[j], s[j + 1]);
    }
  }

  /** One pass of the insertion sort: row `i` moves left past every neighbour
      the comparator puts after it. */
  method InsertLeft(a: array<Row>, i: int)
    requires 0 < i < a.Length
    requires AdjacentSorted(a[..], i)
    modifies a
    ensures AdjacentSorted(a[..], i + 1)
    ensures multiset(a[..]) == multiset(old(a[..]))
  {
    InsertingStart(a[..], i);
    var j := i;
    while j > 0 && Compare(a[j - 1], a[j]) > 0
      invariant 0 <= j <= i
      invariant multiset(a[..]) == multiset(old(a[..]))
      invariant Inserting(a[..], i, j)
    {
      InsertingStep(a[..], i, j);
      Swap(a, j - 1, j);
      j := j - 1;
    }
    InsertingDone(a[..], i, j);
  }

  /** `result.sort(comparator)` in place: an insertion sort that moves a row left
      while the comparator says its left neighbour has to go after it. */
  method SortRows(a: array<Row>)
    modifies a
    ensures multiset(a[..]) == multiset(old(a[..]))
    ensures Sorted(a[..])
  {
    if a.Length == 0 {
      return;
    }
    var i := 1;
    while i < a.Length
      invariant 1 <= i <= a.Length
      invariant AdjacentSorted(a[..], i)
      invariant multiset(a[..]) == multiset(old(a[..]))
    {
      InsertLeft(a, i);
      i := i + 1;
    }
    AdjacentSortedIsSorted(a[..]);
  }

  // ---------------------------------------------------------------------------
  // The component
  // ---------------------------------------------------------------------------

  class RasterListContent {
    /** The `rows` of the component's state. */
    var rows: array<Row>

    constructor ()
      ensures rows.Length == 0
    {
      rows := new Row[0];
    }

    /** `fetchData` once the listing has arrived as `result`: annotate, sort, and
        store the very same array as `rows`. */
    method FetchData(result: array<Row>)
      modifies this, result
      ensures rows == result
      ensures multiset(result[..]) == multiset(AnnotateAll(old(result[..])))
      ensures Sorted(result[..])
      ensures forall k :: 0 <= k < result.Length ==> Annotated(result[k])
    {
      AnnotateRows(result);
      SortRows(result);
      rows := result;
      forall k | 0 <= k < result.Length
        ensures Annotated(result[k])
      {
        assert result[k] in multiset(AnnotateAll(old(result[..])));
      }
    }
  }

  // ---------------------------------------------------------------------------
  // Download
  // ---------------------------------------------------------------------------

  /** `typeBasePaths`: its only key is `eoSensors`. */
  const TypeBasePaths: map<string, string> := map["eoSensors" := "/eo-sensors"]

  /** `${typeBasePaths[type]}`: a missing key reads as `undefined`, which the
      template literal writes out as the word "undefined". */
  function BasePath(kind: string): (r: string)
    ensures kind == "eoSensors" ==> r == "/eo-sensors"
    ensures kind != "eoSensors" ==> r == "undefined"
  {
    if kind in TypeBasePaths then TypeBasePaths[kind] else "undefined"
  }

  /** The path `downloadRaster` requests. */
  function DownloadPath(id: int, kind: string): (r: string)
    ensures |r| == |BasePath(kind)| + |"/download-raster/"| + |IntToString(id)|
    ensures r[..|BasePath(kind)|] == BasePath(kind)
    ensures r[|BasePath(kind)| + |"/download-raster/"|..] == IntToString(id)
  {
    BasePath(kind) + "/download-raster/" + IntToString(id)
  }

  /** Only the key `eoSensors` has a base path; the type the loop gives every row
      has none, so an annotated row's download path begins with "undefined". */
  lemma DownloadPathOfRow(r: Row)
    requires Annotated(r)
    ensures DownloadPath(r.id, r.kind.value) == "undefined" + "/download-raster/" + IntToString(r.id)
    ensures DownloadPath(r.id, "eoSensors") == "/eo-sensors" + "/download-raster/" + IntToString(r.id)
  {
    assert RasterType[2] != "eoSensors"[2];
  }

  /** The path identifies the row: two identifiers give the same path under one
      type only when they are equal. */
  lemma DownloadPathInjective(id1: int, id2: int, kind: string)
    requires DownloadPath(id1, kind) == DownloadPath(id2, kind)
    ensures id1 == id2
  {
    var prefix := BasePath(kind) + "/download-raster/";
    assert DownloadPath(id1, kind)[|prefix|..] == IntToString(id1);
    assert DownloadPath(id2, kind)[|prefix|..] == IntToString(id2);
    IntToStringInjective(id1, id2);
  }
}
