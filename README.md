# SpaceX launch-records dashboard: a verified model of its data logic

The dashboard in `week3/spx_dsh.py` reads a table of launch records (launch
site, payload mass in kg, `class` = 1 for success and 0 for failure, booster
version category) and shows a site dropdown, a payload range slider and two
charts. This project models, in Dafny, everything the program computes from
the table:

- the dropdown options: each distinct launch site in order of first
  appearance (`unique()`), each labelled by itself, then `All Sites` with
  value `ALL`;
- the initial slider value `[min payload, max payload]`;
- the pie callback: for `ALL`, one slice per distinct `class` value, sized by
  the number of rows with that class, titled "Total Success Launches by Site".
  The grouping is by class and not by site, as the code is written. For a
  concrete site, the rows of that site, then exactly the two slices
  ("Success", rows with class 1) and ("Failed", rows with class 0), titled
  "Success vs Failed Launches for " followed by the site;
- the scatter callback: the site filter (skipped for `ALL`), then the
  inclusive payload filter `lo <= payload <= hi`, then one point
  (payload, class, booster category) per remaining row in table order, titled
  "Correlation between Payload and Launch Success".

The table is a `seq<LaunchRecord>` (module `Launches`). Boolean-mask indexing
`df[mask]` is the function `Where`, and each mask of the source is a named
function returning a predicate (`SiteIs`, `OutcomeIs`, `PayloadWithin`).
The column `class` is called `outcome`, since `class` is a Dafny keyword.
Payload masses are `real`: the program only compares them and takes their
minimum and maximum. The generic facts about distinct values, first
occurrences, subsequences and sums of multiplicities are in module
`Sequences`. The widgets and the two callbacks are in module `Dashboard`.
The code is pure: it only rebinds `filtered_df` to filtered copies. So
everything here is a function, with lemmas about it. The callbacks are
functions of their arguments, so calling one twice with the same inputs
gives the same result by construction.

The dropdown lists the sites first, in first-seen order, and the `ALL`
option last, labelled `All Sites` (week3/spx_dsh.py:25). A site literally
named `ALL` would always take the all-sites branch of both callbacks, and the
model behaves the same way.

## Model

| member | source | states |
|---|---|---|
| `Sequences.Distinct` | week3/spx_dsh.py:25 | `unique()`: every value of the result occurs in the column, every value of the column occurs in the result, and no value occurs twice |
| `Sequences.DistinctFirstSeen` | week3/spx_dsh.py:25 | the distinct values are listed in the order of their first occurrence in the column |
| `Sequences.DistinctCountsSum` | week3/spx_dsh.py:63 | summed over the distinct values of a column, the multiplicities of those values give the length of the column |
| `Launches.Where` | week3/spx_dsh.py:68 | boolean indexing: never more rows than the frame; every selected row is a row of the frame that satisfies the mask; every row satisfying the mask is selected |
| `Launches.WhereIsSubsequence` | week3/spx_dsh.py:92-95 | boolean indexing keeps the original row order: the selection is a subsequence of the frame |
| `Launches.WhereMultiplicity` | week3/spx_dsh.py:92-95 | each row that satisfies the mask is kept as many times as it occurs; no other row is kept |
| `Launches.WhereKeepsAll` | week3/spx_dsh.py:95 | a mask true on every row selects the whole frame unchanged |
| `Launches.WhereAgrees` | week3/spx_dsh.py:91-95 | two masks that agree on every row of the frame select the same rows |
| `Launches.WhereWhere` | week3/spx_dsh.py:68-72 | selecting with one mask and then another equals selecting once with their conjunction |
| `Launches.WhereSplit` | week3/spx_dsh.py:71-72 | two masks complementary on the frame select rows whose counts add up to the frame's length |
| `Launches.OutcomeCount` | week3/spx_dsh.py:63 | the number of rows with class `c` equals the multiplicity of `c` in the `class` column |
| `Launches.SiteIs` | week3/spx_dsh.py:68 | the mask `df['Launch Site'] == site` as a test on one row (no contract: a definition used by the contracts below) |
| `Launches.OutcomeIs` | week3/spx_dsh.py:71-72 | the mask `df['class'] == c` as a test on one row (no contract: a definition) |
| `Launches.SiteAndOutcomeAre` | week3/spx_dsh.py:68-72 | the site mask and the class mask as one test on a row, the reference that `SitePieCounts` compares the nested filters with (no contract: a definition) |
| `Launches.PayloadWithin` | week3/spx_dsh.py:95 | the inclusive payload mask `payload >= lo & payload <= hi` as a test on one row (no contract: a definition) |
| `Launches.SiteColumn` | week3/spx_dsh.py:25 | the column `df['Launch Site']`, one entry per row in row order (no contract: a definition) |
| `Launches.OutcomeColumn` | week3/spx_dsh.py:63 | the column `df['class']`, one entry per row in row order (no contract: a definition) |
| `Launches.MinPayload` | week3/spx_dsh.py:11 | the minimum payload is at most every row's payload and is the payload of some row |
| `Launches.MaxPayload` | week3/spx_dsh.py:10 | the maximum payload is at least every row's payload and is the payload of some row |
| `Dashboard.DropdownOptions` | week3/spx_dsh.py:25 | one option per distinct site, whose shown name is its value, followed by the last option (`All Sites`, `ALL`) |
| `Dashboard.DropdownCoversSites` | week3/spx_dsh.py:25 | every launch site of the frame has an option before the all-sites option |
| `Dashboard.DropdownOnlySites` | week3/spx_dsh.py:25 | every option before the all-sites option is a launch site of the frame |
| `Dashboard.DropdownFirstSeenOnce` | week3/spx_dsh.py:25 | no site option appears twice, and the site options follow the order in which the sites first appear |
| `Dashboard.InitialRange` | week3/spx_dsh.py:10-11 | the initial slider value exists exactly when the frame is non-empty; it bounds every payload from both sides, and both of its ends are payloads of some row |
| `Dashboard.OutcomeSlices` | week3/spx_dsh.py:63 | the `names='class'` grouping: one slice per listed class value, named by that value, whose value is the multiplicity of the value in the `class` column |
| `Dashboard.PieChartFor` | week3/spx_dsh.py:59-79 | the `ALL` pie has the title "Total Success Launches by Site"; a concrete site gets the title "Success vs Failed Launches for " + site and exactly two slices, "Success" first and "Failed" second |
| `Dashboard.SitePieCounts` | week3/spx_dsh.py:68-72 | for a concrete site, the Success slice counts the launches of that site with class 1, and the Failed slice counts its launches with class 0 |
| `Dashboard.SitePieTotal` | week3/spx_dsh.py:68-76 | when every launch at the site has class 0 or 1, the two slices add up to the number of launches at that site |
| `Dashboard.SitePieEmpty` | week3/spx_dsh.py:68-77 | a site without launches, or one unknown to the frame, still gets the two slices, both with value 0 |
| `Dashboard.AllPieCounts` | week3/spx_dsh.py:60-65 | every slice of the `ALL` pie is named by a class value, and its value is the (positive) number of rows with that class |
| `Dashboard.AllPieClassesOnce` | week3/spx_dsh.py:60-65 | the class of every row has a slice in the `ALL` pie, and no class value has two slices |
| `Dashboard.OutcomeSlicesTotal` | week3/spx_dsh.py:63 | the slices for a list of class values add up to the summed multiplicities of those values in the `class` column |
| `Dashboard.AllPieTotal` | week3/spx_dsh.py:60-65 | the slices of the `ALL` pie add up to the number of rows |
| `Dashboard.ScatterRows` | week3/spx_dsh.py:88-95 | the rows the scatter keeps: every kept row is a row of the frame with payload in `[lo, hi]` and, unless the selection is `ALL`, at the selected site; every such row of the frame is kept |
| `Dashboard.Selected` | week3/spx_dsh.py:91-95 | both scatter filters as one test on a row: site equals the selection or the selection is `ALL`, and payload in `[lo, hi]` (no contract: the reference that `ScatterFiltersCombine` compares `ScatterRows` with) |
| `Dashboard.PointOf` | week3/spx_dsh.py:98-102 | the point drawn for a row: x = payload mass, y = class, colour = booster version category (no contract: a definition) |
| `Dashboard.Points` | week3/spx_dsh.py:98-102 | one point per row of a frame, in row order (no contract: a definition; `ScatterPointsInOrder` and `PointsOfSubsequence` state its properties) |
| `Dashboard.ScatterChartFor` | week3/spx_dsh.py:87-106 | the scatter has its fixed title, never more points than rows, every point's payload lies in `[lo, hi]`, and an inverted range `lo > hi` gives no points |
| `Dashboard.ScatterFiltersCombine` | week3/spx_dsh.py:88-95 | the site filter (skipped for `ALL`) followed by the payload filter selects the same rows as one combined test: site matches or is `ALL`, and payload in `[lo, hi]` |
| `Dashboard.ScatterRowsInOrder` | week3/spx_dsh.py:88-95 | the kept rows are a subsequence of the frame, and each row passing both filters is kept as often as it occurs; no other row is kept |
| `Dashboard.PointsOfSubsequence` | week3/spx_dsh.py:98-104 | mapping rows to their (payload, class, booster category) points maps a subsequence of rows to a subsequence of points |
| `Dashboard.ScatterPointsInOrder` | week3/spx_dsh.py:88-104 | the scatter points are a subsequence of the dataset's rows, in their original order, each mapped to (payload, class, booster category) |
| `Dashboard.ScatterPointsAtSite` | week3/spx_dsh.py:91-92 | with a concrete site, every point comes from a launch at that site |
| `Dashboard.ScatterInitialKeepsAll` | week3/spx_dsh.py:88-104 | with `ALL` and the slider at its initial `[min, max]`, the scatter keeps every row of the table, and its points are exactly the points of all rows, `len(D)` of them, in table order |
| `Dashboard.ExampleDropdown` | week3/spx_dsh.py:25 | for a three-launch table (A 500 kg success v1, A 1500 kg failure v1, B 800 kg success v2), the options are A, B, then All Sites |
| `Dashboard.ExampleSlider` | week3/spx_dsh.py:10-11 | for the same table the initial slider value is [500, 1500] |
| `Dashboard.ExamplePieAll` | week3/spx_dsh.py:60-65 | for the same table the `ALL` pie is (class 1: 2, class 0: 1) |
| `Dashboard.ExampleOutcomeClasses` | week3/spx_dsh.py:63 | for the same table the distinct class values are 1, then 0 |
| `Dashboard.ExamplePieSite` | week3/spx_dsh.py:66-79 | for the same table site A gets (Success 1, Failed 1) |
| `Dashboard.ExampleScatterAll` | week3/spx_dsh.py:87-106 | for the same table, `ALL` with range [0, 1000] gives the points (500, 1, v1) and (800, 1, v2) |
| `Dashboard.ExampleScatterSite` | week3/spx_dsh.py:87-106 | for the same table, site B with range [0, 10000] gives the single point (800, 1, v2) |

## Left out

- Reading the CSV file (week3/spx_dsh.py:9) is file I/O. The table is an input `seq<LaunchRecord>`, and malformed files are not modelled.
- The Dash application, its layout and styling, the callback wiring and `run_server` (week3/spx_dsh.py:14-24, 26-46, 48-58, 82-86, 109-110) are framework plumbing. The callbacks are modelled as functions of the table and of the widget values.
- Plotly's figure construction and rendering (`px.pie`, `px.scatter`) are library calls. Only the data and titles that the callbacks hand to them are modelled. Plotly's reordering of pie slices by size and its colour assignment are not modelled.
- Dashboard.AllPieClassesOnce: does not state the order of the `ALL` slices. The model lists the class values in first-seen order, but Plotly sorts the slices when it draws them.
- A cleared dropdown is not modelled. The dropdown at week3/spx_dsh.py:23-29 is clearable, and clearing it sends `None` to both callbacks; the selection is modelled as a `string` only. The source then behaves like a site that no row has, since no row's site equals `None`: the pie takes the concrete-site branch with two zero slices (as `SitePieEmpty` states for an unknown site) and the title "Success vs Failed Launches for None", and the scatter has no points.
- The fixed slider configuration `min=0, max=10000, step=1000` (week3/spx_dsh.py:44-46) is presentation only. Its initial value is modelled.
- Floating-point payloads are modelled as `real`: NaN values, and pandas skipping NaN in `min`/`max` and in comparisons, are not modelled.
- On an empty table, `min()`/`max()` give NaN in pandas. The model returns `None` from `InitialRange` instead.
- The slider value is always a pair of numbers, so `payload_range[0]` and `payload_range[1]` are modelled as the two fields of `PayloadRange`. A shorter list, which Dash never sends, is not modelled.
