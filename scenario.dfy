/**
 * A worked merge: components `size` (two sizes) and `color` (two colours), one objective
 * `yield`, batch size 2. Round 0 holds the four candidates at priority 0 with blank
 * yields; the observations give a yield for (small, red) and for (medium, blue).
 * `Example` is the instance with sizes S and M, colours red and blue, yields 10 and 20.
 */
module Scenario {
  import opened Tables
  import opened MergeEngine

  datatype Setup = Setup(small: string, medium: string, red: string, blue: string, low: string, high: string)

  /** The two sizes differ and the two colours differ. */
  predicate Apart(st: Setup) {
    st.small != st.medium && st.red != st.blue
  }

  const Example: Setup := Setup("S", "M", "red", "blue", "10", "20")

  function Candidate(size: string, color: string): Row {
    Row(map["size" := Val(size), "color" := Val(color), "yield" := Blank], 0)
  }

  function Observation(size: string, color: string, y: string): Record {
    map["size" := Val(size), "color" := Val(color), "yield" := Val(y)]
  }

  function Resolved(size: string, color: string, y: string): Row {
    Row(Observation(size, color, y), -1)
  }

  function Components(st: Setup): map<string, seq<Cell>> {
    map["size" := [Val(st.small), Val(st.medium)], "color" := [Val(st.red), Val(st.blue)]]
  }

  function RoundZero(st: Setup): seq<Row> {
    [Candidate(st.small, st.red), Candidate(st.small, st.blue), Candidate(st.medium, st.red), Candidate(st.medium, st.blue)]
  }

  function Observations(st: Setup): ObsTable {
    ObsTable(["size", "color", "yield"], [Observation(st.small, st.red, st.low), Observation(st.medium, st.blue, st.high)])
  }

  /** bulk_training with priority_limiting false and priority_setting true. */
  function Context(st: Setup): FillContext {
    FillContext(Some(Components(st)), Some(["yield"]), Observations(st), false, true)
  }

  /** The table the fill pass produces: (small, red) and (medium, blue) resolved at priority -1. */
  function Filled(st: Setup): seq<Row> {
    [Resolved(st.small, st.red, st.low), Candidate(st.small, st.blue), Candidate(st.medium, st.red),
     Resolved(st.medium, st.blue, st.high)]
  }

  /** The guards of the fill loop all pass in this context, and the query reaches FirstMatch. */
  lemma ContextReachesQuery(st: Setup, row: Row)
    requires row.cells.Keys == {"size", "color", "yield"}
    ensures FillOne(Context(st), row) == match FirstMatch({"size", "color"}, row.cells, Observations(st).records)
      case None => Ok(row)
      case Some(j) => Ok(Resolve(row, ["yield"], Observations(st).records[j], true))
  {
    assert Components(st).Keys == {"size", "color"};
    assert |Components(st)| == 2;
  }

  /** Resolving a candidate from the observation of the same candidate fills its yield. */
  lemma ResolvesYield(size: string, color: string, y: string)
    ensures Resolve(Candidate(size, color), ["yield"], Observation(size, color, y), true) == Resolved(size, color, y)
  {
    var r := Resolve(Candidate(size, color), ["yield"], Observation(size, color, y), true);
    assert r.cells.Keys == Observation(size, color, y).Keys;
  }

  lemma FillsSmallRed(st: Setup)
    ensures FillOne(Context(st), Candidate(st.small, st.red)) == Ok(Resolved(st.small, st.red, st.low))
  {
    var recs := Observations(st).records;
    ContextReachesQuery(st, Candidate(st.small, st.red));
    assert Matches({"size", "color"}, Candidate(st.small, st.red).cells, recs[0]);
    FirstMatchIsLeast({"size", "color"}, Candidate(st.small, st.red).cells, recs, 0);
    ResolvesYield(st.small, st.red, st.low);
  }

  lemma SkipsSmallBlue(st: Setup)
    requires Apart(st)
    ensures FillOne(Context(st), Candidate(st.small, st.blue)) == Ok(Candidate(st.small, st.blue))
  {
    var recs := Observations(st).records;
    var cells := Candidate(st.small, st.blue).cells;
    ContextReachesQuery(st, Candidate(st.small, st.blue));
    assert Get(recs[0], "color") != cells["color"];
    assert Get(recs[1], "size") != cells["size"];
    assert !Matches({"size", "color"}, cells, recs[0]);
    assert !Matches({"size", "color"}, cells, recs[1]);
  }

  lemma SkipsMediumRed(st: Setup)
    requires Apart(st)
    ensures FillOne(Context(st), Candidate(st.medium, st.red)) == Ok(Candidate(st.medium, st.red))
  {
    var recs := Observations(st).records;
    var cells := Candidate(st.medium, st.red).cells;
    ContextReachesQuery(st, Candidate(st.medium, st.red));
    assert Get(recs[0], "size") != cells["size"];
    assert Get(recs[1], "color") != cells["color"];
    assert !Matches({"size", "color"}, cells, recs[0]);
    assert !Matches({"size", "color"}, cells, recs[1]);
  }

  /** The second observation is the first to match (medium, blue). */
  lemma MediumBlueMatchesSecond(st: Setup)
    requires Apart(st)
    ensures FirstMatch({"size", "color"}, Candidate(st.medium, st.blue).cells, Observations(st).records) == Some(1)
  {
    var recs := Observations(st).records;
    var cells := Candidate(st.medium, st.blue).cells;
    assert Get(recs[0], "size") != cells["size"];
    assert !Matches({"size", "color"}, cells, recs[0]);
    assert Matches({"size", "color"}, cells, recs[1]);
    FirstMatchIsLeast({"size", "color"}, cells, recs, 1);
  }

  lemma FillsMediumBlue(st: Setup)
    requires Apart(st)
    ensures FillOne(Context(st), Candidate(st.medium, st.blue)) == Ok(Resolved(st.medium, st.blue, st.high))
  {
    ContextReachesQuery(st, Candidate(st.medium, st.blue));
    MediumBlueMatchesSecond(st);
    assert Observations(st).records[1] == Observation(st.medium, st.blue, st.high);
    ResolvesYield(st.medium, st.blue, st.high);
  }

  /** A two-row fill pass whose rows both fill without error. */
  lemma FillAllTwo(ctx: FillContext, a: Row, b: Row, fa: Row, fb: Row)
    requires FillOne(ctx, a) == Ok(fa) && FillOne(ctx, b) == Ok(fb)
    ensures FillAll(ctx, [a, b]) == Ok([fa, fb])
  {
    assert FillAll(ctx, []) == Ok([]);
    FillAllExtend(ctx, [], a, [], fa);
    assert [] + [a] == [a] && [] + [fa] == [fa];
    FillAllExtend(ctx, [a], b, [fa], fb);
    assert [a] + [b] == [a, b] && [fa] + [fb] == [fa, fb];
  }

  /** A four-row fill pass whose rows all fill without error. */
  lemma FillAllFour(ctx: FillContext, a: Row, b: Row, c: Row, d: Row, fa: Row, fb: Row, fc: Row, fd: Row)
    requires FillOne(ctx, a) == Ok(fa) && FillOne(ctx, b) == Ok(fb)
    requires FillOne(ctx, c) == Ok(fc) && FillOne(ctx, d) == Ok(fd)
    ensures FillAll(ctx, [a, b, c, d]) == Ok([fa, fb, fc, fd])
  {
    FillAllTwo(ctx, a, b, fa, fb);
    FillAllExtend(ctx, [a, b], c, [fa, fb], fc);
    assert [a, b] + [c] == [a, b, c] && [fa, fb] + [fc] == [fa, fb, fc];
    FillAllExtend(ctx, [a, b, c], d, [fa, fb, fc], fd);
    assert [a, b, c] + [d] == [a, b, c, d] && [fa, fb, fc] + [fd] == [fa, fb, fc, fd];
  }

  /** The fill pass resolves (small, red) and (medium, blue) at priority -1 and leaves the other two. */
  lemma ScenarioFill(st: Setup)
    requires Apart(st)
    ensures FillAll(Context(st), RoundZero(st)) == Ok(Filled(st))
  {
    FillsSmallRed(st);
    SkipsSmallBlue(st);
    SkipsMediumRed(st);
    FillsMediumBlue(st);
    FillAllFour(Context(st),
      Candidate(st.small, st.red), Candidate(st.small, st.blue), Candidate(st.medium, st.red), Candidate(st.medium, st.blue),
      Resolved(st.small, st.red, st.low), Candidate(st.small, st.blue), Candidate(st.medium, st.red), Resolved(st.medium, st.blue, st.high));
  }

  /** Two rows of the filled table lie above priority -1: the unresolved ones. */
  lemma TwoUnresolved(st: Setup)
    ensures CountAbove(Filled(st), -1) == 2
  {
    var filled := Filled(st);
    assert filled[3..][1..] == [];
    assert CountAbove(filled[3..], -1) == 0;
    assert filled[2..][1..] == filled[3..];
    assert CountAbove(filled[2..], -1) == 1;
    assert filled[1..][1..] == filled[2..];
    assert CountAbove(filled[1..], -1) == 2;
  }

  /** Each batch row is an unresolved candidate with priority 1. */
  lemma BatchRowUnresolved(st: Setup, out: seq<Row>, i: nat)
    requires MergedRows(Filled(st), 2, out) && i < 2
    ensures |out| == 4
    ensures out[i].priority == 1
    ensures out[i].cells == Candidate(st.small, st.blue).cells || out[i].cells == Candidate(st.medium, st.red).cells
  {
    TwoUnresolved(st);
    MergedBatchFromAbove(Filled(st), 2, out, -1, i);
    var j :| 0 <= j < 4 && Filled(st)[j].priority > -1 && out[i] == Filled(st)[j].(priority := 1);
    assert j == 1 || j == 2;
  }

  /** Each row behind the batch is a resolved candidate, unchanged. */
  lemma TailRowResolved(st: Setup, out: seq<Row>, i: nat)
    requires MergedRows(Filled(st), 2, out) && 2 <= i < 4
    ensures |out| == 4
    ensures out[i] == Resolved(st.small, st.red, st.low) || out[i] == Resolved(st.medium, st.blue, st.high)
  {
    var filled := Filled(st);
    TwoUnresolved(st);
    MergedLength(filled, 2, out);
    MergedTailBelow(filled, 2, out, -1, i);
    assert out[i] in filled;
    assert out[i].priority <= -1;
  }

  /**
   * After sorting and marking, the batch is the two unresolved candidates with priority
   * 1, and the two resolved candidates stay behind it with priority -1 and their yields.
   */
  lemma ScenarioMerge(st: Setup, out: seq<Row>)
    requires MergedRows(Filled(st), 2, out)
    ensures |out| == 4
    ensures forall i :: 0 <= i < 2 ==>
      (out[i].priority == 1 &&
       (out[i].cells == Candidate(st.small, st.blue).cells || out[i].cells == Candidate(st.medium, st.red).cells))
    ensures forall i :: 2 <= i < 4 ==>
      out[i] == Resolved(st.small, st.red, st.low) || out[i] == Resolved(st.medium, st.blue, st.high)
  {
    BatchRowUnresolved(st, out, 0);
    BatchRowUnresolved(st, out, 1);
    TailRowResolved(st, out, 2);
    TailRowResolved(st, out, 3);
  }

  /** The four filled rows have pairwise different cells: the sizes or colours tell the
      candidates apart, and the yield tells a resolved row from an unresolved one. */
  lemma FilledCellsDistinct(st: Setup)
    requires Apart(st)
    ensures NoDuplicates(Image(Filled(st), RowCells))
  {
    var img := Image(Filled(st), RowCells);
    forall i, j | 0 <= i < j < |img| ensures img[i] != img[j] {
      assert img[i] == Filled(st)[i].cells && img[j] == Filled(st)[j].cells;
      if (i == 0 && j == 3) || (i == 1 && j == 2) {
        assert img[i]["size"] != img[j]["size"];
      } else {
        assert img[i]["yield"] != img[j]["yield"];
      }
    }
  }

  /** The two batch rows are different candidates, and so are the two rows behind the batch. */
  lemma ScenarioMergeDistinct(st: Setup, out: seq<Row>)
    requires Apart(st) && MergedRows(Filled(st), 2, out)
    ensures |out| == 4
    ensures out[0].cells != out[1].cells
    ensures out[2] != out[3]
  {
    MergedLength(Filled(st), 2, out);
    FilledCellsDistinct(st);
    MergedCellsDistinct(Filled(st), 2, out);
    DistinctCellsAt(out, 0, 1);
    DistinctCellsAt(out, 2, 3);
  }

  /** The sizes S, M and the colours red, blue are apart, so the two lemmas above apply to `Example`. */
  lemma ExampleApart()
    ensures Apart(Example)
  {
    assert Example.small[0] != Example.medium[0];
    assert |Example.red| != |Example.blue|;
  }
}
