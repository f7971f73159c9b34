/** The data the launch-records dashboard derives from the dataset: the options
    of the site dropdown, the initial value of the payload slider, and the data
    and titles handed to the pie chart and to the scatter chart by the two
    callbacks. Rendering is not modelled; only what is passed to the charts. */
module Dashboard {
  import opened Sequences
  import opened Launches

  datatype Option<T> = None | Some(value: T)

  /** The dropdown value that selects every site. */
  const AllSites: string := "ALL"
  const AllSitesLabel: string := "All Sites"

  const PieTitleAll: string := "Total Success Launches by Site"
  const PieTitleSitePrefix: string := "Success vs Failed Launches for "
  const ScatterTitle: string := "Correlation between Payload and Launch Success"

  /** An option of the dropdown; `name` is the text shown (Dash's `label`). */
  datatype DropdownOption = DropdownOption(name: string, value: string)

  /** The two values of the range slider, both bounds inclusive. */
  datatype PayloadRange = PayloadRange(lo: real, hi: real)

  /** A pie slice is named either by a raw class value (the all-sites pie
      groups by the `class` column) or by a caption. */
  datatype SliceName = OutcomeValue(outcome: int) | Caption(text: string)
  datatype Slice = Slice(name: SliceName, value: nat)
  datatype PieChart = PieChart(title: string, slices: seq<Slice>)

  /** x = payload mass, y = class, colour = booster version category. */
  datatype ScatterPoint = ScatterPoint(payload: real, outcome: int, booster: string)
  datatype ScatterChart = ScatterChart(title: string, points: seq<ScatterPoint>)

  // ---------------------------------------------------------------------------
  // Dropdown and slider

  /** One option per distinct launch site, in order of first appearance, each
      labelled by the site itself, then the all-sites option. */
  function DropdownOptions(d: Dataset): (opts: seq<DropdownOption>)
    ensures |opts| == |Distinct(SiteColumn(d))| + 1
    ensures opts[|opts| - 1] == DropdownOption(AllSitesLabel, AllSites)
    ensures forall i :: 0 <= i < |opts| - 1 ==> opts[i].name == opts[i].value
  {
    var sites := Distinct(SiteColumn(d));
    seq(|sites|, i requires 0 <= i < |sites| => DropdownOption(sites[i], sites[i]))
      + [DropdownOption(AllSitesLabel, AllSites)]
  }

  /** The initial slider value `[min payload, max payload]`; an empty frame
      has no minimum or maximum (pandas yields NaN). */
  function InitialRange(d: Dataset): (r: Option<PayloadRange>)
    ensures r.None? <==> d == []
    ensures r.Some? ==> forall x :: x in d ==> r.value.lo <= x.payload <= r.value.hi
    ensures r.Some? ==> ((exists x :: x in d && x.payload == r.value.lo)
                         && (exists x :: x in d && x.payload == r.value.hi))
  {
    if d == [] then None else Some(PayloadRange(MinPayload(d), MaxPayload(d)))
  }

  // ---------------------------------------------------------------------------
  // Pie chart

  /** One slice per class value in `classes`, sized by the rows of that class
      (the grouping that `names='class'` makes). */
  function OutcomeSlices(d: Dataset, classes: seq<int>): (s: seq<Slice>)
    ensures |s| == |classes|
    ensures forall i :: 0 <= i < |s| ==>
              s[i].name == OutcomeValue(classes[i])
              && s[i].value == multiset(OutcomeColumn(d))[classes[i]]
  {
    assert forall c :: |Where(d, OutcomeIs(c))| == multiset(OutcomeColumn(d))[c] by {
      forall c { OutcomeCount(d, c); }
    }
    seq(|classes|, i requires 0 <= i < |classes| =>
      Slice(OutcomeValue(classes[i]), |Where(d, OutcomeIs(classes[i]))|))
  }

  /** The figure data of the pie callback for the dropdown value `site`. */
  function PieChartFor(d: Dataset, site: string): (c: PieChart)
    ensures site == AllSites ==> c.title == PieTitleAll
    ensures site != AllSites ==> c.title == PieTitleSitePrefix + site
    ensures site != AllSites ==>
              |c.slices| == 2 && c.slices[0].name == Caption("Success")
              && c.slices[1].name == Caption("Failed")
  {
    if site == AllSites then
      PieChart(PieTitleAll, OutcomeSlices(d, Distinct(OutcomeColumn(d))))
    else
      var atSite := Where(d, SiteIs(site));
      var successes := |Where(atSite, OutcomeIs(1))|;
      var failures := |Where(atSite, OutcomeIs(0))|;
      PieChart(PieTitleSitePrefix + site,
               [Slice(Caption("Success"), successes), Slice(Caption("Failed"), failures)])
  }

  /** The sum of the slice values. */
  function Total(slices: seq<Slice>): nat {
    if slices == [] then 0 else Total(slices[..|slices| - 1]) + slices[|slices| - 1].value
  }

  /** Every class value in the frame is 0 or 1. */
  predicate BinaryOutcomes(d: Dataset) {
    forall x :: x in d ==> x.outcome == 0 || x.outcome == 1
  }

  /** For a concrete site the two slices count the launches at that site with
      class 1 and with class 0. */
  lemma {:induction false} SitePieCounts(d: Dataset, site: string)
    requires site != AllSites
    ensures PieChartFor(d, site).slices[0].value == |Where(d, SiteAndOutcomeAre(site, 1))|
    ensures PieChartFor(d, site).slices[1].value == |Where(d, SiteAndOutcomeAre(site, 0))|
  {
    WhereWhere(d, SiteIs(site), OutcomeIs(1), SiteAndOutcomeAre(site, 1));
    WhereWhere(d, SiteIs(site), OutcomeIs(0), SiteAndOutcomeAre(site, 0));
  }

  /** When every launch at the site has class 0 or 1, the two slices add up to
      the number of launches at the site. */
  lemma SitePieTotal(d: Dataset, site: string)
    requires site != AllSites && BinaryOutcomes(Where(d, SiteIs(site)))
    ensures Total(PieChartFor(d, site).slices) == |Where(d, SiteIs(site))|
  {
    var atSite := Where(d, SiteIs(site));
    WhereSplit(atSite, OutcomeIs(1), OutcomeIs(0));
    var slices := PieChartFor(d, site).slices;
    assert slices[..1][..0] == [];
    assert Total(slices[..1]) == slices[0].value;
    assert Total(slices) == Total(slices[..1]) + slices[1].value;
  }

  /** A site with no launches, or one that is not in the data, still gets the
      two slices, both zero. */
  lemma SitePieEmpty(d: Dataset, site: string)
    requires site != AllSites
    requires forall x :: x in d ==> x.site != site
    ensures PieChartFor(d, site).slices == [Slice(Caption("Success"), 0), Slice(Caption("Failed"), 0)]
  {
  }

  /** Each slice of the all-sites pie is named by a class value present in
      the frame, and its value is the (positive) number of rows with that
      class. */
  lemma AllPieCounts(d: Dataset)
    ensures var slices := PieChartFor(d, AllSites).slices;
            forall i :: 0 <= i < |slices| ==>
              slices[i].name.OutcomeValue?
              && slices[i].value == multiset(OutcomeColumn(d))[slices[i].name.outcome]
              && slices[i].value > 0
  {
  }

  /** The class of every row has exactly one slice in the all-sites pie. */
  lemma AllPieClassesOnce(d: Dataset)
    ensures var slices := PieChartFor(d, AllSites).slices;
            && (forall x :: x in d ==> exists i :: 0 <= i < |slices| && slices[i].name == OutcomeValue(x.outcome))
            && (forall i, j :: 0 <= i < j < |slices| ==> slices[i].name != slices[j].name)
  {
    var col := OutcomeColumn(d);
    var classes := Distinct(col);
    var slices := PieChartFor(d, AllSites).slices;
    assert forall i :: 0 <= i < |slices| ==> slices[i].name == OutcomeValue(classes[i]);
    forall x | x in d
      ensures exists i :: 0 <= i < |slices| && slices[i].name == OutcomeValue(x.outcome)
    {
      var k :| 0 <= k < |d| && d[k] == x;
      assert col[k] == x.outcome;
      var i := FirstIndex(classes, x.outcome);
      assert slices[i].name == OutcomeValue(x.outcome);
    }
  }

  /** The slices for a list of class values add up to the multiplicities of
      those values in the class column. */
  lemma {:induction false} OutcomeSlicesTotal(d: Dataset, classes: seq<int>)
    ensures Total(OutcomeSlices(d, classes)) == SumCounts(classes, multiset(OutcomeColumn(d)))
  {
    if classes != [] {
      var init := classes[..|classes| - 1];
      var c := classes[|classes| - 1];
      OutcomeSlicesTotal(d, init);
      var s := OutcomeSlices(d, classes);
      assert s[..|s| - 1] == OutcomeSlices(d, init);
      OutcomeCount(d, c);
    }
  }

  /** The slices of the all-sites pie add up to the number of rows. */
  lemma AllPieTotal(d: Dataset)
    ensures Total(PieChartFor(d, AllSites).slices) == |d|
  {
    OutcomeSlicesTotal(d, Distinct(OutcomeColumn(d)));
    DistinctCountsSum(OutcomeColumn(d));
  }

  // ---------------------------------------------------------------------------
  // Scatter chart

  /** The rows the scatter callback keeps: the site filter (skipped for the
      all-sites value), then the inclusive payload filter. */
  function ScatterRows(d: Dataset, site: string, range: PayloadRange): (rows: Dataset)
    ensures forall x :: x in rows ==>
              x in d && range.lo <= x.payload <= range.hi && (site != AllSites ==> x.site == site)
    ensures forall x :: (x in d && range.lo <= x.payload <= range.hi
                         && (site == AllSites || x.site == site)) ==> x in rows
  {
    var bySite := if site == AllSites then d else Where(d, SiteIs(site));
    Where(bySite, PayloadWithin(range.lo, range.hi))
  }

  /** Both filters of the scatter callback as one test on a row. */
  function Selected(site: string, range: PayloadRange): LaunchRecord -> bool {
    (x: LaunchRecord) => (site == AllSites || x.site == site) && range.lo <= x.payload <= range.hi
  }

  /** The point drawn for a row: x = payload mass, y = class, colour = booster
      version category. */
  function PointOf(x: LaunchRecord): ScatterPoint {
    ScatterPoint(x.payload, x.outcome, x.booster)
  }

  /** The points drawn for a frame, one per row, in row order. */
  function Points(rows: Dataset): seq<ScatterPoint> {
    seq(|rows|, i requires 0 <= i < |rows| => PointOf(rows[i]))
  }

  /** The figure data of the scatter callback. */
  function ScatterChartFor(d: Dataset, site: string, range: PayloadRange): (c: ScatterChart)
    ensures c.title == ScatterTitle
    ensures |c.points| <= |d|
    ensures forall p :: p in c.points ==> range.lo <= p.payload <= range.hi
    ensures range.lo > range.hi ==> c.points == []
  {
    var rows := ScatterRows(d, site, range);
    assert forall i :: 0 <= i < |rows| ==> rows[i] in rows;
    assert range.lo > range.hi ==> rows == [] by {
      if rows != [] {
        assert rows[0] in rows;
      }
    }
    ScatterChart(ScatterTitle, Points(rows))
  }

  /** The site filter followed by the payload filter selects the same rows
      as one combined test on each row. */
  lemma {:induction false} ScatterFiltersCombine(d: Dataset, site: string, range: PayloadRange)
    ensures ScatterRows(d, site, range) == Where(d, Selected(site, range))
  {
    var within := PayloadWithin(range.lo, range.hi);
    if site == AllSites {
      WhereAgrees(d, within, Selected(site, range));
    } else {
      WhereWhere(d, SiteIs(site), within, Selected(site, range));
    }
  }

  /** The scatter rows are the rows of the frame that pass both filters, in
      their original order, each kept as often as it occurs. */
  lemma ScatterRowsInOrder(d: Dataset, site: string, range: PayloadRange)
    ensures IsSubsequence(ScatterRows(d, site, range), d)
    ensures forall x :: multiset(ScatterRows(d, site, range))[x]
                        == if Selected(site, range)(x) then multiset(d)[x] else 0
  {
    ScatterFiltersCombine(d, site, range);
    WhereIsSubsequence(d, Selected(site, range));
    forall x {
      WhereMultiplicity(d, Selected(site, range), x);
    }
  }

  /** Mapping rows to points keeps a subsequence a subsequence. */
  lemma {:induction false} PointsOfSubsequence(xs: Dataset, ys: Dataset)
    requires IsSubsequence(xs, ys)
    ensures IsSubsequence(Points(xs), Points(ys))
    decreases |ys|
  {
    if xs != [] {
      assert Points(xs)[1..] == Points(xs[1..]);
      assert Points(ys)[1..] == Points(ys[1..]);
      if xs[0] == ys[0] && IsSubsequence(xs[1..], ys[1..]) {
        PointsOfSubsequence(xs[1..], ys[1..]);
      } else {
        PointsOfSubsequence(xs, ys[1..]);
      }
    }
  }

  /** The scatter points are a subsequence, in table order, of the points of
      all rows (payload, class, booster category) of the frame. */
  lemma ScatterPointsInOrder(d: Dataset, site: string, range: PayloadRange)
    ensures IsSubsequence(ScatterChartFor(d, site, range).points, Points(d))
  {
    ScatterRowsInOrder(d, site, range);
    PointsOfSubsequence(ScatterRows(d, site, range), d);
  }

  /** With a concrete site, every point comes from a launch at that site. */
  lemma ScatterPointsAtSite(d: Dataset, site: string, range: PayloadRange)
    requires site != AllSites
    ensures forall p :: p in ScatterChartFor(d, site, range).points ==>
              exists x :: x in d && x.site == site && PointOf(x) == p
  {
    var rows := ScatterRows(d, site, range);
    var ps := ScatterChartFor(d, site, range).points;
    forall p | p in ps
      ensures exists x :: x in d && x.site == site && PointOf(x) == p
    {
      var i :| 0 <= i < |ps| && ps[i] == p;
      assert rows[i] in rows;
    }
  }

  /** With all sites and the slider at its initial value, the scatter keeps
      every row of the frame, in order. */
  lemma ScatterInitialKeepsAll(d: Dataset)
    requires d != []
    ensures ScatterRows(d, AllSites, InitialRange(d).value) == d
    ensures ScatterChartFor(d, AllSites, InitialRange(d).value).points == Points(d)
  {
    var r := InitialRange(d).value;
    WhereKeepsAll(d, PayloadWithin(r.lo, r.hi));
  }

  /** Every launch site of the frame has an option before the all-sites one. */
  lemma DropdownCoversSites(d: Dataset)
    ensures var opts := DropdownOptions(d);
            forall x :: x in d ==> exists i :: 0 <= i < |opts| - 1 && opts[i].value == x.site
  {
    var col := SiteColumn(d);
    var sites := Distinct(col);
    var opts := DropdownOptions(d);
    forall x | x in d
      ensures exists i :: 0 <= i < |opts| - 1 && opts[i].value == x.site
    {
      var k :| 0 <= k < |d| && d[k] == x;
      assert col[k] == x.site;
      var i := FirstIndex(sites, x.site);
      assert opts[i].value == sites[i];
    }
  }

  /** Every option before the all-sites one is a launch site of the frame. */
  lemma DropdownOnlySites(d: Dataset)
    ensures var opts := DropdownOptions(d);
            forall i :: 0 <= i < |opts| - 1 ==> exists x :: x in d && x.site == opts[i].value
  {
    var col := SiteColumn(d);
    var sites := Distinct(col);
    var opts := DropdownOptions(d);
    forall i | 0 <= i < |opts| - 1
      ensures exists x :: x in d && x.site == opts[i].value
    {
      assert opts[i].value == sites[i];
      assert sites[i] in col;
      var k := FirstIndex(col, sites[i]);
      assert d[k] in d;
    }
  }

  /** The site options are pairwise different and follow the order in which
      the sites first appear in the frame. */
  lemma DropdownFirstSeenOnce(d: Dataset)
    ensures var opts := DropdownOptions(d);
            && (forall i, j :: 0 <= i < j < |opts| - 1 ==> opts[i].value != opts[j].value)
            && (forall i, j :: 0 <= i < j < |opts| - 1 ==>
                  opts[i].value in SiteColumn(d) && opts[j].value in SiteColumn(d)
                  && FirstIndex(SiteColumn(d), opts[i].value) < FirstIndex(SiteColumn(d), opts[j].value))
  {
    var col := SiteColumn(d);
    var sites := Distinct(col);
    var opts := DropdownOptions(d);
    assert forall i :: 0 <= i < |opts| - 1 ==> opts[i].value == sites[i];
    DistinctFirstSeen(col);
  }

  // ---------------------------------------------------------------------------
  // A worked example

  /** Two launches at site A (500 kg success and 1500 kg failure, booster v1)
      and one at site B (800 kg success, booster v2). */
  const ExampleLaunches: Dataset :=
    [LaunchRecord("A", 500.0, 1, "v1"), LaunchRecord("A", 1500.0, 0, "v1"),
     LaunchRecord("B", 800.0, 1, "v2")]

  /** The sites of the example in order of first appearance. */
  lemma ExampleDropdown()
    ensures DropdownOptions(ExampleLaunches)
            == [DropdownOption("A", "A"), DropdownOption("B", "B"), DropdownOption("All Sites", "ALL")]
  {
    var col := SiteColumn(ExampleLaunches);
    assert col == ["A", "A", "B"];
    assert col[..1] == ["A"] && col[..2] == ["A", "A"];
    assert Distinct(col[..1][..0]) == [];
    assert Distinct(col[..1]) == ["A"];
    assert Distinct(col[..2]) == ["A"];
    assert Distinct(col) == ["A", "B"];
  }

  /** The initial slider value of the example is its lightest and heaviest
      payload. */
  lemma ExampleSlider()
    ensures InitialRange(ExampleLaunches) == Some(PayloadRange(500.0, 1500.0))
  {
    var d := ExampleLaunches;
    assert d[1..][1..] == [d[2]];
  }

  /** The all-sites pie counts two launches of class 1 and one of class 0. */
  lemma ExamplePieAll()
    ensures PieChartFor(ExampleLaunches, AllSites).slices
            == [Slice(OutcomeValue(1), 2), Slice(OutcomeValue(0), 1)]
  {
    var d := ExampleLaunches;
    ExampleOutcomeClasses();
    assert d[1..][1..] == [d[2]];
    assert Where(d, OutcomeIs(1)) == [d[0], d[2]];
    assert Where(d, OutcomeIs(0)) == [d[1]];
  }

  /** The class values of the example in order of first appearance. */
  lemma ExampleOutcomeClasses()
    ensures Distinct(OutcomeColumn(ExampleLaunches)) == [1, 0]
  {
    var col := OutcomeColumn(ExampleLaunches);
    assert col == [1, 0, 1];
    assert col[..1] == [1] && col[..2] == [1, 0];
    assert Distinct(col[..1][..0]) == [];
    assert Distinct(col[..1]) == [1];
    assert Distinct(col[..2]) == [1, 0];
  }

  /** Site A has one success and one failure. */
  lemma ExamplePieSite()
    ensures PieChartFor(ExampleLaunches, "A").slices
            == [Slice(Caption("Success"), 1), Slice(Caption("Failed"), 1)]
  {
    var d := ExampleLaunches;
    assert d[1..][1..] == [d[2]];
    assert Where(d, SiteIs("A")) == [d[0], d[1]];
    assert [d[0], d[1]][1..] == [d[1]];
  }

  /** The 0-1000 kg range keeps the 500 kg and 800 kg launches. */
  lemma ExampleScatterAll()
    ensures ScatterChartFor(ExampleLaunches, AllSites, PayloadRange(0.0, 1000.0)).points
            == [ScatterPoint(500.0, 1, "v1"), ScatterPoint(800.0, 1, "v2")]
  {
    var d := ExampleLaunches;
    assert d[1..][1..] == [d[2]];
    assert ScatterRows(d, AllSites, PayloadRange(0.0, 1000.0)) == [d[0], d[2]];
  }

  /** Site B with the full slider keeps its one launch. */
  lemma ExampleScatterSite()
    ensures ScatterChartFor(ExampleLaunches, "B", PayloadRange(0.0, 10000.0)).points
            == [ScatterPoint(800.0, 1, "v2")]
  {
    var d := ExampleLaunches;
    assert d[1..][1..] == [d[2]];
    assert Where(d, SiteIs("B")) == [d[2]];
    assert ScatterRows(d, "B", PayloadRange(0.0, 10000.0)) == [d[2]];
  }
}
