/** The launch records the dashboard reads, and the dataframe operations it
    applies to them: boolean-mask row selection, column extraction and the
    minimum and maximum of the payload column. */
module Launches {
  import opened Sequences

  /** One row of the dataset. The `class` column (1 = success, 0 = failure) is
      called `outcome` here because `class` is a Dafny keyword. The payload
      mass is a real number: the dashboard only compares it. */
  datatype LaunchRecord = LaunchRecord(site: string, payload: real, outcome: int, booster: string)

  /** The dataframe: its rows in file order. */
  type Dataset = seq<LaunchRecord>

  /** Boolean-mask indexing `df[mask]`: the rows for which `keep` holds, in
      their original order. */
  function Where(d: Dataset, keep: LaunchRecord -> bool): (r: Dataset)
    ensures |r| <= |d|
    ensures forall x :: x in r ==> x in d && keep(x)
    ensures forall x :: x in d && keep(x) ==> x in r
  {
    if d == [] then []
    else
      assert d == [d[0]] + d[1..];
      if keep(d[0]) then [d[0]] + Where(d[1..], keep) else Where(d[1..], keep)
  }

  /** The mask `df['Launch Site'] == site`. */
  function SiteIs(site: string): LaunchRecord -> bool {
    (x: LaunchRecord) => x.site == site
  }

  /** The mask `df['class'] == c`. */
  function OutcomeIs(c: int): LaunchRecord -> bool {
    (x: LaunchRecord) => x.outcome == c
  }

  /** The mask `df['Launch Site'] == site & df['class'] == c`, as one test. */
  function SiteAndOutcomeAre(site: string, c: int): LaunchRecord -> bool {
    (x: LaunchRecord) => x.site == site && x.outcome == c
  }

  /** The mask `(df['Payload Mass (kg)'] >= lo) & (df['Payload Mass (kg)'] <= hi)`. */
  function PayloadWithin(lo: real, hi: real): LaunchRecord -> bool {
    (x: LaunchRecord) => x.payload >= lo && x.payload <= hi
  }

  /** The column `df['Launch Site']`. */
  function SiteColumn(d: Dataset): seq<string> {
    seq(|d|, i requires 0 <= i < |d| => d[i].site)
  }

  /** The column `df['class']`. */
  function OutcomeColumn(d: Dataset): seq<int> {
    seq(|d|, i requires 0 <= i < |d| => d[i].outcome)
  }

  /** `df['Payload Mass (kg)'].min()` of a non-empty frame. */
  function MinPayload(d: Dataset): (m: real)
    requires d != []
    ensures forall x :: x in d ==> m <= x.payload
    ensures exists x :: x in d && x.payload == m
  {
    if |d| == 1 then d[0].payload
    else
      assert d == [d[0]] + d[1..];
      var rest := MinPayload(d[1..]);
      if d[0].payload <= rest then d[0].payload else rest
  }

  /** `df['Payload Mass (kg)'].max()` of a non-empty frame. */
  function MaxPayload(d: Dataset): (m: real)
    requires d != []
    ensures forall x :: x in d ==> x.payload <= m
    ensures exists x :: x in d && x.payload == m
  {
    if |d| == 1 then d[0].payload
    else
      assert d == [d[0]] + d[1..];
      var rest := MaxPayload(d[1..]);
      if d[0].payload >= rest then d[0].payload else rest
  }

  /** Row selection keeps the original order of the rows. */
  lemma {:induction false} WhereIsSubsequence(d: Dataset, keep: LaunchRecord -> bool)
    ensures IsSubsequence(Where(d, keep), d)
  {
    if d != [] {
      WhereIsSubsequence(d[1..], keep);
    }
  }

  /** Row selection keeps every copy of a selected row and no copy of any other. */
  lemma {:induction false} WhereMultiplicity(d: Dataset, keep: LaunchRecord -> bool, x: LaunchRecord)
    ensures multiset(Where(d, keep))[x] == if keep(x) then multiset(d)[x] else 0
  {
    if d != [] {
      assert d == [d[0]] + d[1..];
      WhereMultiplicity(d[1..], keep, x);
    }
  }

  /** A mask that holds on every row selects the whole frame. */
  lemma {:induction false} WhereKeepsAll(d: Dataset, keep: LaunchRecord -> bool)
    requires forall x :: x in d ==> keep(x)
    ensures Where(d, keep) == d
  {
    if d != [] {
      assert d == [d[0]] + d[1..];
      WhereKeepsAll(d[1..], keep);
    }
  }

  /** Two masks that agree on every row select the same rows. */
  lemma {:induction false} WhereAgrees(d: Dataset, p: LaunchRecord -> bool, q: LaunchRecord -> bool)
    requires forall x :: x in d ==> p(x) == q(x)
    ensures Where(d, p) == Where(d, q)
  {
    if d != [] {
      assert d == [d[0]] + d[1..];
      WhereAgrees(d[1..], p, q);
    }
  }

  /** Selecting with `p` and then with `q` is selecting once with `p & q`. */
  lemma {:induction false} WhereWhere(d: Dataset, p: LaunchRecord -> bool, q: LaunchRecord -> bool,
                                      pq: LaunchRecord -> bool)
    requires forall x :: pq(x) == (p(x) && q(x))
    ensures Where(Where(d, p), q) == Where(d, pq)
  {
    if d != [] {
      WhereWhere(d[1..], p, q, pq);
    }
  }

  /** Two masks that are complementary on the frame split it: the two
      selections together have as many rows as the frame. */
  lemma {:induction false} WhereSplit(d: Dataset, p: LaunchRecord -> bool, q: LaunchRecord -> bool)
    requires forall x :: x in d ==> (p(x) <==> !q(x))
    ensures |Where(d, p)| + |Where(d, q)| == |d|
  {
    if d != [] {
      assert d == [d[0]] + d[1..];
      WhereSplit(d[1..], p, q);
    }
  }

  /** The number of rows with class `c` is the multiplicity of `c` in the
      class column. */
  lemma {:induction false} OutcomeCount(d: Dataset, c: int)
    ensures |Where(d, OutcomeIs(c))| == multiset(OutcomeColumn(d))[c]
  {
    if d != [] {
      assert OutcomeColumn(d) == [d[0].outcome] + OutcomeColumn(d[1..]);
      OutcomeCount(d[1..], c);
    }
  }
}
