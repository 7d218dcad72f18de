/**
 * The merge engine of bulk_training: fill rows of a round table from the first matching
 * observation, sort the table by priority, highest first, and mark the next batch.
 */
module MergeEngine {
  import opened Tables

  /** What the fill loop reads besides the row: the generator's component map and objective
      list (None until initialize_scope set them), the observations and the two flags. */
  datatype FillContext = FillContext(
    comps: Option<map<string, seq<Cell>>>,
    objs: Option<seq<string>>,
    obs: ObsTable,
    limiting: bool,
    setting: bool)

  /** The rows the loop examines: all of them, or with priority limiting only those of priority 1. */
  predicate Selected(ctx: FillContext, row: Row) {
    !ctx.limiting || row.priority == 1
  }

  /** An observation matches a row's cells when, on every component, both cells are filled
      and equal (a blank cell is NaN, which equals nothing). */
  predicate Matches(comps: set<string>, cells: Record, rec: Record) {
    forall c :: c in comps ==> c in cells && cells[c] != Blank && Get(rec, c) == cells[c]
  }

  /** The index of the first observation that matches, in observation order. */
  function FirstMatch(comps: set<string>, cells: Record, recs: seq<Record>): (r: Option<nat>)
    ensures r.Some? ==> r.value < |recs| && Matches(comps, cells, recs[r.value])
    ensures r.Some? ==> forall j :: 0 <= j < r.value ==> !Matches(comps, cells, recs[j])
    ensures r.None? ==> forall j :: 0 <= j < |recs| ==> !Matches(comps, cells, recs[j])
  {
    if recs == [] then None
    else if Matches(comps, cells, recs[0]) then Some(0)
    else match FirstMatch(comps, cells, recs[1..])
      case None => None
      case Some(j) => Some(j + 1)
  }

  /** The first match is the least index of a matching observation. */
  lemma {:induction false} FirstMatchIsLeast(comps: set<string>, cells: Record, recs: seq<Record>, j: nat)
    requires j < |recs| && Matches(comps, cells, recs[j])
    requires forall k :: 0 <= k < j ==> !Matches(comps, cells, recs[k])
    ensures FirstMatch(comps, cells, recs) == Some(j)
    decreases j
  {
    if j > 0 {
      assert !Matches(comps, cells, recs[0]);
      assert forall k :: 0 <= k < j - 1 ==> recs[1..][k] == recs[k + 1];
      FirstMatchIsLeast(comps, cells, recs[1..], j - 1);
    }
  }

  /** A matched row: the observation's objective cells copied in, the priority set. */
  function Resolve(row: Row, objs: seq<string>, rec: Record, setting: bool): (r: Row)
    ensures forall o :: o in objs ==> o in r.cells && r.cells[o] == Get(rec, o)
    ensures forall c :: c in row.cells && c !in objs ==> c in r.cells && r.cells[c] == row.cells[c]
    ensures forall c :: c in r.cells <==> c in row.cells || c in objs
    ensures setting ==> r.priority == -1
    ensures !setting ==> r.priority == 1
  {
    Row(row.cells + map o | o in objs :: Get(rec, o), if setting then -1 else 1)
  }

  /**
   * One iteration of the fill loop on one row. Only a selected row can raise. The checks run
   * in the code's order: the component map, the row's component cells, the empty query, the
   * observation columns, then (after a match) the objective list and its columns.
   */
  function FillOne(ctx: FillContext, row: Row): (r: Result<Row>)
    ensures !Selected(ctx, row) ==> r == Ok(row)
    ensures r.Err? ==> r.error == NotInitialized || r.error == MissingColumn || r.error == EmptyQuery
  {
    if !Selected(ctx, row) then Ok(row)
    else if ctx.comps.None? then Err(NotInitialized)
    else if !(ctx.comps.value.Keys <= row.cells.Keys) then Err(MissingColumn)
    else if |ctx.comps.value| == 0 then Err(EmptyQuery)
    else if !(forall c :: c in ctx.comps.value ==> c in ctx.obs.columns) then Err(MissingColumn)
    else match FirstMatch(ctx.comps.value.Keys, row.cells, ctx.obs.records)
      case None => Ok(row)
      case Some(j) =>
        if ctx.objs.None? then Err(NotInitialized)
        else if !(forall o :: o in ctx.objs.value ==> o in ctx.obs.columns) then Err(MissingColumn)
        else Ok(Resolve(row, ctx.objs.value, ctx.obs.records[j], ctx.setting))
  }

  /**
   * The checks of one iteration, in the code's order: an unset component map raises first,
   * an empty component map raises the empty-query error, a row that goes through the
   * query had every component cell and column, and a row that changes was resolved from
   * its first match with the objective list set.
   */
  lemma FillOneOrder(ctx: FillContext, row: Row)
    ensures Selected(ctx, row) && ctx.comps.None? ==> FillOne(ctx, row) == Err(NotInitialized)
    ensures Selected(ctx, row) && ctx.comps.Some? && |ctx.comps.value| == 0 ==> FillOne(ctx, row) == Err(EmptyQuery)
    ensures FillOne(ctx, row) == Err(EmptyQuery) ==> ctx.comps.Some? && |ctx.comps.value| == 0
    ensures Selected(ctx, row) && FillOne(ctx, row).Ok? ==>
      && ctx.comps.Some? && |ctx.comps.value| > 0
      && (forall c :: c in ctx.comps.value ==> c in row.cells && c in ctx.obs.columns)
    ensures FillOne(ctx, row).Ok? && FillOne(ctx, row).value != row ==>
      && ctx.comps.Some? && ctx.objs.Some?
      && FirstMatch(ctx.comps.value.Keys, row.cells, ctx.obs.records).Some?
      && FillOne(ctx, row).value
         == Resolve(row, ctx.objs.value, ctx.obs.records[FirstMatch(ctx.comps.value.Keys, row.cells, ctx.obs.records).value], ctx.setting)
  {
  }

  /**
   * The whole fill pass: every row filled on its own; the pass stops at the first row
   * whose iteration raises, and that row's error is the result.
   */
  function FillAll(ctx: FillContext, rows: seq<Row>): (r: Result<seq<Row>>)
    ensures r.Ok? <==> forall i :: 0 <= i < |rows| ==> FillOne(ctx, rows[i]).Ok?
    ensures r.Ok? ==> |r.value| == |rows| && forall i :: 0 <= i < |rows| ==> FillOne(ctx, rows[i]) == Ok(r.value[i])
    decreases |rows|
  {
    if rows == [] then Ok([])
    else
      var init := FillAll(ctx, rows[..|rows| - 1]);
      if init.Err? then init
      else match FillOne(ctx, rows[|rows| - 1])
        case Err(e) => Err(e)
        case Ok(row) => Ok(init.value + [row])
  }

  /** The pass fails with the error of the first row whose iteration raises. */
  lemma {:induction false} FillAllStopsAtFirstError(ctx: FillContext, rows: seq<Row>, i: nat)
    requires i < |rows| && FillOne(ctx, rows[i]).Err?
    requires forall j :: 0 <= j < i ==> FillOne(ctx, rows[j]).Ok?
    ensures FillAll(ctx, rows) == Err(FillOne(ctx, rows[i]).error)
    decreases |rows|
  {
    var init := rows[..|rows| - 1];
    if i < |rows| - 1 {
      assert init[i] == rows[i];
      assert forall j :: 0 <= j < i ==> init[j] == rows[j];
      FillAllStopsAtFirstError(ctx, init, i);
    } else {
      assert forall j :: 0 <= j < |init| ==> init[j] == rows[j];
    }
  }

  /** One more row filled after a prefix that filled without error. */
  lemma FillAllExtend(ctx: FillContext, prefix: seq<Row>, row: Row, done: seq<Row>, filled: Row)
    requires FillAll(ctx, prefix) == Ok(done) && FillOne(ctx, row) == Ok(filled)
    ensures FillAll(ctx, prefix + [row]) == Ok(done + [filled])
  {
    assert (prefix + [row])[..|prefix|] == prefix;
  }

  /** A row whose iteration raises, after a prefix that filled without error, fails the pass. */
  lemma FillAllFailsAt(ctx: FillContext, prefix: seq<Row>, row: Row)
    requires FillAll(ctx, prefix).Ok? && FillOne(ctx, row).Err?
    ensures FillAll(ctx, prefix + [row]) == Err(FillOne(ctx, row).error)
  {
    assert (prefix + [row])[..|prefix|] == prefix;
  }

  /** Once a prefix of the rows fails, the pass fails with the same error. */
  lemma {:induction false} FillAllKeepsError(ctx: FillContext, rows: seq<Row>, k: nat)
    requires k <= |rows| && FillAll(ctx, rows[..k]).Err?
    ensures FillAll(ctx, rows) == FillAll(ctx, rows[..k])
    decreases |rows|
  {
    if k < |rows| {
      var init := rows[..|rows| - 1];
      assert init[..k] == rows[..k];
      FillAllKeepsError(ctx, init, k);
    } else {
      assert rows[..k] == rows;
    }
  }

  lemma PrefixSnoc<T>(s: seq<T>, i: nat)
    requires i < |s|
    ensures s[..i + 1] == s[..i] + [s[i]]
  {
  }

  /** The loop over the rows to fill, updating the table row by row. */
  method FillRows(ctx: FillContext, rows: seq<Row>) returns (res: Result<seq<Row>>)
    ensures res == FillAll(ctx, rows)
  {
    var table := rows;
    var i := 0;
    while i < |rows|
      invariant 0 <= i <= |rows| && |table| == |rows|
      invariant FillAll(ctx, rows[..i]) == Ok(table[..i])
      invariant forall j :: i <= j < |rows| ==> table[j] == rows[j]
    {
      var filled := FillOne(ctx, rows[i]);
      PrefixSnoc(rows, i);
      if filled.Err? {
        FillAllFailsAt(ctx, rows[..i], rows[i]);
        FillAllKeepsError(ctx, rows, i + 1);
        return Err(filled.error);
      }
      ghost var done := table[..i];
      FillAllExtend(ctx, rows[..i], rows[i], done, filled.value);
      table := table[i := filled.value];
      PrefixSnoc(table, i);
      assert table[..i] == done;
      i := i + 1;
    }
    assert rows[..i] == rows && table[..i] == table;
    return Ok(table);
  }

  predicate SortedDesc(s: seq<Row>) {
    forall i, j :: 0 <= i < j < |s| ==> s[i].priority >= s[j].priority
  }

  /** `sorted` holds the rows of `rows`, each as often, with priorities non-increasing. */
  predicate SortedPermutation(rows: seq<Row>, sorted: seq<Row>) {
    multiset(sorted) == multiset(rows) && SortedDesc(sorted)
  }

  /** x placed at index k of a sorted table, between the rows at least x and the rows below it, keeps it sorted. */
  lemma InsertedSorted(sorted: seq<Row>, x: Row, k: nat, r: seq<Row>)
    requires SortedDesc(sorted) && k <= |sorted|
    requires forall j :: 0 <= j < k ==> sorted[j].priority >= x.priority
    requires forall j :: k <= j < |sorted| ==> sorted[j].priority < x.priority
    requires r == sorted[..k] + [x] + sorted[k..]
    ensures SortedDesc(r)
  {
    assert |r| == |sorted| + 1;
    assert forall i :: 0 <= i < k ==> r[i] == sorted[i];
    assert r[k] == x;
    assert forall i :: k < i < |r| ==> r[i] == sorted[i - 1];
    forall a, b | 0 <= a < b < |r| ensures r[a].priority >= r[b].priority {
      if b < k {
      } else if a < k {
      } else if a == k {
      } else {
        assert sorted[a - 1].priority >= sorted[b - 1].priority;
      }
    }
  }

  /** Put x into a table sorted highest first, after every row of priority at least x's. */
  method InsertByPriority(sorted: seq<Row>, x: Row) returns (r: seq<Row>)
    requires SortedDesc(sorted)
    ensures SortedDesc(r)
    ensures multiset(r) == multiset(sorted) + multiset{x}
  {
    var k := 0;
    while k < |sorted| && sorted[k].priority >= x.priority
      invariant 0 <= k <= |sorted|
      invariant forall j :: 0 <= j < k ==> sorted[j].priority >= x.priority
    {
      k := k + 1;
    }
    assert forall j :: k <= j < |sorted| ==> sorted[j].priority < x.priority by {
      if k < |sorted| {
        assert forall j :: k <= j < |sorted| ==> sorted[j].priority <= sorted[k].priority;
      }
    }
    assert sorted == sorted[..k] + sorted[k..];
    r := sorted[..k] + [x] + sorted[k..];
    assert multiset(r) == multiset(sorted[..k]) + multiset{x} + multiset(sorted[k..]);
    InsertedSorted(sorted, x, k, r);
  }

  /** `sort_values(by='priority', ascending=False)`, by insertion. */
  method SortByPriority(rows: seq<Row>) returns (sorted: seq<Row>)
    ensures SortedPermutation(rows, sorted)
  {
    sorted := [];
    var i := 0;
    while i < |rows|
      invariant 0 <= i <= |rows|
      invariant multiset(sorted) == multiset(rows[..i])
      invariant SortedDesc(sorted)
    {
      sorted := InsertByPriority(sorted, rows[i]);
      assert rows[..i + 1] == rows[..i] + [rows[i]];
      i := i + 1;
    }
    assert rows[..i] == rows;
  }

  /** The stop index of the Python slice `s[:b]` on a sequence of length n. */
  function SliceEnd(b: int, n: nat): (k: nat)
    ensures k <= n
  {
    if b >= 0 then (if b < n then b else n)
    else if n + b > 0 then n + b else 0
  }

  /** `out` is `s` with priority 1 forced on the rows of `s[:b]`, and nothing else changed. */
  predicate BatchMarked(s: seq<Row>, b: int, out: seq<Row>) {
    && |out| == |s|
    && (forall i :: 0 <= i < SliceEnd(b, |s|) ==> out[i] == s[i].(priority := 1))
    && (forall i :: SliceEnd(b, |s|) <= i < |s| ==> out[i] == s[i])
  }

  /** `iloc[:batch_size, priority] = 1` on the sorted table. */
  method MarkBatch(rows: seq<Row>, batchSize: int) returns (out: seq<Row>)
    ensures BatchMarked(rows, batchSize, out)
  {
    out := rows;
    var k := SliceEnd(batchSize, |rows|);
    for i := 0 to k
      invariant |out| == |rows|
      invariant forall j :: 0 <= j < i ==> out[j] == rows[j].(priority := 1)
      invariant forall j :: i <= j < |rows| ==> out[j] == rows[j]
    {
      out := out[i := out[i].(priority := 1)];
    }
  }

  /** The table after sort and batch marking, for some order the sort may produce. */
  ghost predicate MergedRows(filled: seq<Row>, b: int, out: seq<Row>) {
    exists s :: SortedPermutation(filled, s) && BatchMarked(s, b, out)
  }

  // ---------------------------------------------------------------------------
  // The fill step

  /** A row the loop does not examine, or for which no observation matches, is left as it was. */
  lemma UnmatchedRowUntouched(ctx: FillContext, row: Row)
    requires FillOne(ctx, row).Ok?
    requires !Selected(ctx, row) ||
             (ctx.comps.Some? && forall j :: 0 <= j < |ctx.obs.records| ==> !Matches(ctx.comps.value.Keys, row.cells, ctx.obs.records[j]))
    ensures FillOne(ctx, row) == Ok(row)
  {
  }

  /**
   * An examined row for which observation j is the first match receives j's objective
   * cells and priority -1 (priority setting) or 1 (otherwise); its other cells stay.
   */
  lemma MatchedRowTakesFirstObservation(ctx: FillContext, row: Row, j: nat)
    requires FillOne(ctx, row).Ok? && Selected(ctx, row) && ctx.comps.Some?
    requires j < |ctx.obs.records| && Matches(ctx.comps.value.Keys, row.cells, ctx.obs.records[j])
    requires forall k :: 0 <= k < j ==> !Matches(ctx.comps.value.Keys, row.cells, ctx.obs.records[k])
    ensures ctx.objs.Some?
    ensures FillOne(ctx, row).value.priority == if ctx.setting then -1 else 1
    ensures forall o :: o in ctx.objs.value ==>
      o in FillOne(ctx, row).value.cells && FillOne(ctx, row).value.cells[o] == Get(ctx.obs.records[j], o)
    ensures forall c :: c in row.cells && c !in ctx.objs.value ==>
      c in FillOne(ctx, row).value.cells && FillOne(ctx, row).value.cells[c] == row.cells[c]
  {
    FirstMatchIsLeast(ctx.comps.value.Keys, row.cells, ctx.obs.records, j);
  }

  /** Two cell maps that agree on the components have the same first match. */
  lemma {:induction false} FirstMatchAgrees(comps: set<string>, a: Record, b: Record, recs: seq<Record>)
    requires forall c :: c in comps ==> (c in a <==> c in b) && (c in a ==> a[c] == b[c])
    ensures FirstMatch(comps, a, recs) == FirstMatch(comps, b, recs)
    decreases |recs|
  {
    if recs != [] {
      assert Matches(comps, a, recs[0]) == Matches(comps, b, recs[0]);
      FirstMatchAgrees(comps, a, b, recs[1..]);
    }
  }

  /** A row whose objective cells already hold its first matching observation's values, or that matches none. */
  predicate Settled(ctx: FillContext, row: Row) {
    ctx.comps.Some? && ctx.objs.Some? &&
    match FirstMatch(ctx.comps.value.Keys, row.cells, ctx.obs.records)
    case None => true
    case Some(j) => forall o :: o in ctx.objs.value ==> o in row.cells && row.cells[o] == Get(ctx.obs.records[j], o)
  }

  /** The objectives are columns distinct from the components. */
  predicate ObjectivesApart(ctx: FillContext) {
    ctx.comps.Some? && ctx.objs.Some? && forall o :: o in ctx.objs.value ==> o !in ctx.comps.value
  }

  /** When objectives and components are distinct columns, every row the loop examines is settled afterwards. */
  lemma FillSettles(ctx: FillContext, row: Row)
    requires ObjectivesApart(ctx) && Selected(ctx, row) && FillOne(ctx, row).Ok?
    ensures Settled(ctx, FillOne(ctx, row).value)
  {
    var r := FillOne(ctx, row).value;
    var comps := ctx.comps.value.Keys;
    assert forall c :: c in comps ==> (c in r.cells <==> c in row.cells) && (c in r.cells ==> r.cells[c] == row.cells[c]);
    FirstMatchAgrees(comps, r.cells, row.cells, ctx.obs.records);
  }

  /** Filling a settled row again changes none of its cells. */
  lemma RefillKeepsSettledCells(ctx: FillContext, row: Row)
    requires Settled(ctx, row) && FillOne(ctx, row).Ok?
    ensures FillOne(ctx, row).value.cells == row.cells
  {
    var m := FirstMatch(ctx.comps.value.Keys, row.cells, ctx.obs.records);
    if Selected(ctx, row) && m.Some? {
      var r := FillOne(ctx, row).value;
      var rec := ctx.obs.records[m.value];
      assert r.cells == row.cells + map o | o in ctx.objs.value :: Get(rec, o);
      assert r.cells.Keys == row.cells.Keys;
      assert forall c :: c in r.cells ==> r.cells[c] == row.cells[c];
    }
  }

  /** A second fill pass over rows that are all settled leaves every row's cells as they were. */
  lemma ResolvedTableIsFixpoint(ctx: FillContext, rows: seq<Row>)
    requires forall i :: 0 <= i < |rows| ==> Settled(ctx, rows[i])
    requires FillAll(ctx, rows).Ok?
    ensures forall i :: 0 <= i < |rows| ==> FillAll(ctx, rows).value[i].cells == rows[i].cells
  {
    forall i | 0 <= i < |rows| ensures FillAll(ctx, rows).value[i].cells == rows[i].cells {
      RefillKeepsSettledCells(ctx, rows[i]);
    }
  }

  // ---------------------------------------------------------------------------
  // Sort and batch

  function RowCells(r: Row): Record {
    r.cells
  }

  function Image<A, B>(s: seq<A>, f: A -> B): (r: seq<B>)
    ensures |r| == |s| && forall i :: 0 <= i < |s| ==> r[i] == f(s[i])
  {
    if s == [] then [] else [f(s[0])] + Image(s[1..], f)
  }

  lemma {:induction false} ImageAppend<A, B>(x: seq<A>, y: seq<A>, f: A -> B)
    ensures Image(x + y, f) == Image(x, f) + Image(y, f)
  {
    assert |Image(x + y, f)| == |Image(x, f) + Image(y, f)|;
    forall i | 0 <= i < |x| + |y| ensures Image(x + y, f)[i] == (Image(x, f) + Image(y, f))[i] {
      if i < |x| {
        assert (x + y)[i] == x[i];
      } else {
        assert (x + y)[i] == y[i - |x|];
      }
    }
  }

  /** A rearrangement `b` of a non-empty `a` holds a's first element at some index j, and
      the rest of `a` is a rearrangement of `b` without that index. */
  lemma PermutationSplit<T>(a: seq<T>, b: seq<T>) returns (j: nat)
    requires multiset(a) == multiset(b) && |a| > 0
    ensures j < |b| && b[j] == a[0] && b == b[..j] + [a[0]] + b[j + 1..]
    ensures multiset(a[1..]) == multiset(b[..j] + b[j + 1..])
  {
    var x := a[0];
    assert x in multiset(b);
    j :| 0 <= j < |b| && b[j] == x;
    var rest := b[..j] + b[j + 1..];
    assert b == b[..j] + [x] + b[j + 1..];
    assert a == [x] + a[1..];
    assert multiset(a) == multiset([x]) + multiset(a[1..]);
    assert multiset(b) == multiset(b[..j]) + multiset([x]) + multiset(b[j + 1..]);
    assert multiset(rest) == multiset(b[..j]) + multiset(b[j + 1..]);
    assert multiset(a[1..]) == multiset(a) - multiset([x]);
    assert multiset(rest) == multiset(b) - multiset([x]);
  }

  /** Rearranging a sequence rearranges its image the same way. */
  lemma {:induction false} PermutedImage<A, B>(a: seq<A>, b: seq<A>, f: A -> B)
    requires multiset(a) == multiset(b)
    ensures multiset(Image(a, f)) == multiset(Image(b, f))
    decreases |a|
  {
    if a == [] {
      assert |b| == |multiset(b)| == 0;
    } else {
      var x := a[0];
      var j := PermutationSplit(a, b);
      var rest := b[..j] + b[j + 1..];
      PermutedImage(a[1..], rest, f);
      ImageAppend([x], a[1..], f);
      ImageAppend(b[..j] + [x], b[j + 1..], f);
      ImageAppend(b[..j], [x], f);
      ImageAppend(b[..j], b[j + 1..], f);
    }
  }

  /** The number of rows whose priority is above t. */
  function CountAbove(s: seq<Row>, t: int): (n: nat)
    ensures n <= |s|
  {
    if s == [] then 0 else (if s[0].priority > t then 1 else 0) + CountAbove(s[1..], t)
  }

  lemma {:induction false} CountAboveAppend(x: seq<Row>, y: seq<Row>, t: int)
    ensures CountAbove(x + y, t) == CountAbove(x, t) + CountAbove(y, t)
    decreases |x|
  {
    if x == [] {
      assert x + y == y;
    } else {
      assert (x + y)[0] == x[0];
      assert (x + y)[1..] == x[1..] + y;
      CountAboveAppend(x[1..], y, t);
    }
  }

  /** Rearranging rows does not change how many lie above a threshold. */
  lemma {:induction false} CountAbovePerm(a: seq<Row>, b: seq<Row>, t: int)
    requires multiset(a) == multiset(b)
    ensures CountAbove(a, t) == CountAbove(b, t)
    decreases |a|
  {
    if a == [] {
      assert |b| == |multiset(b)| == 0;
    } else {
      var x := a[0];
      var j := PermutationSplit(a, b);
      var rest := b[..j] + b[j + 1..];
      CountAbovePerm(a[1..], rest, t);
      CountAboveAppend(b[..j] + [x], b[j + 1..], t);
      CountAboveAppend(b[..j], [x], t);
      CountAboveAppend(b[..j], b[j + 1..], t);
    }
  }

  /** In a table sorted highest first, a row at index i with priority at most t leaves at most i rows above t. */
  lemma {:induction false} SortedCountBound(s: seq<Row>, t: int, i: nat)
    requires SortedDesc(s) && i < |s| && s[i].priority <= t
    ensures CountAbove(s, t) <= i
    decreases |s|
  {
    if i == 0 {
      if |s| > 1 {
        SortedCountBound(s[1..], t, 0);
      }
    } else {
      SortedCountBound(s[1..], t, i - 1);
    }
  }

  /** In a table sorted highest first, every row at or after index CountAbove(s, t) is at most t. */
  lemma {:induction false} SortedTailBelow(s: seq<Row>, t: int, i: nat)
    requires SortedDesc(s) && CountAbove(s, t) <= i < |s|
    ensures s[i].priority <= t
    decreases |s|
  {
    if s[0].priority <= t {
      if i > 0 {
        assert s[0].priority >= s[i].priority;
      }
    } else {
      assert forall k, l :: 0 <= k < l < |s[1..]| ==> s[1..][k] == s[k + 1] && s[1..][l] == s[l + 1];
      SortedTailBelow(s[1..], t, i - 1);
    }
  }

  /**
   * When the filled table has at least as many rows above priority t as the batch holds,
   * every row the sort puts into the batch is above t. With priority setting and t = -1:
   * resolved rows sink out of the next batch while enough unresolved rows remain.
   */
  lemma BatchTakesRowsAbove(filled: seq<Row>, s: seq<Row>, b: int, t: int)
    requires SortedPermutation(filled, s)
    requires CountAbove(filled, t) >= SliceEnd(b, |filled|)
    ensures forall i :: 0 <= i < SliceEnd(b, |s|) ==> s[i].priority > t
  {
    assert |s| == |multiset(s)| == |multiset(filled)| == |filled|;
    CountAbovePerm(filled, s, t);
    forall i | 0 <= i < SliceEnd(b, |s|) ensures s[i].priority > t {
      if s[i].priority <= t {
        SortedCountBound(s, t, i);
      }
    }
  }

  /**
   * Sorting and marking keep the table's rows: the same number, the same cells, each as
   * often as before, and priority 1 on the rows of the slice `[:batch_size]`, the first
   * SliceEnd(batch_size, n) rows.
   */
  lemma MergeKeepsRows(filled: seq<Row>, b: int, out: seq<Row>)
    requires MergedRows(filled, b, out)
    ensures |out| == |filled|
    ensures multiset(Image(out, RowCells)) == multiset(Image(filled, RowCells))
    ensures forall i :: 0 <= i < SliceEnd(b, |filled|) ==> out[i].priority == 1
  {
    var s :| SortedPermutation(filled, s) && BatchMarked(s, b, out);
    assert |s| == |multiset(s)| == |multiset(filled)| == |filled|;
    PermutedImage(s, filled, RowCells);
    MarkedImage(s, b, out);
  }

  lemma NoDuplicatesAt<T>(s: seq<T>, i: nat, j: nat)
    requires NoDuplicates(s) && i < j < |s|
    ensures s[i] != s[j]
  {
  }

  /** In a sequence without duplicates every element occurs at most once. */
  lemma {:induction false} NoDuplicatesCount<T>(s: seq<T>, x: T)
    requires NoDuplicates(s)
    ensures multiset(s)[x] <= 1
    decreases |s|
  {
    if s != [] {
      assert s == [s[0]] + s[1..];
      assert NoDuplicates(s[1..]) by {
        forall i, j | 0 <= i < j < |s[1..]| ensures s[1..][i] != s[1..][j] {
          assert s[1..][i] == s[i + 1] && s[1..][j] == s[j + 1];
        }
      }
      NoDuplicatesCount(s[1..], x);
      if s[0] == x {
        assert x !in s[1..];
      }
    }
  }

  /** An element found at two indices occurs at least twice. */
  lemma CountTwice<T>(s: seq<T>, i: nat, j: nat)
    requires i < j < |s|
    ensures s[i] == s[j] ==> multiset(s)[s[i]] >= 2
  {
    assert s == s[..i] + [s[i]] + s[i + 1..j] + [s[j]] + s[j + 1..];
  }

  /** A rearrangement of a sequence without duplicates has none either. */
  lemma SameMultisetNoDuplicates<T>(a: seq<T>, b: seq<T>)
    requires multiset(a) == multiset(b) && NoDuplicates(a)
    ensures NoDuplicates(b)
  {
    forall i, j | 0 <= i < j < |b| ensures b[i] != b[j] {
      CountTwice(b, i, j);
      NoDuplicatesCount(a, b[i]);
    }
  }

  /** Rows at two positions of a table without repeated cells have different cells. */
  lemma DistinctCellsAt(rows: seq<Row>, i: nat, j: nat)
    requires NoDuplicates(Image(rows, RowCells)) && i < j < |rows|
    ensures rows[i].cells != rows[j].cells
  {
    NoDuplicatesAt(Image(rows, RowCells), i, j);
  }

  /** Rows whose cells are pairwise different stay pairwise different through the merge:
      sorting and marking neither merge two rows nor copy one. */
  lemma MergedCellsDistinct(filled: seq<Row>, b: int, out: seq<Row>)
    requires MergedRows(filled, b, out) && NoDuplicates(Image(filled, RowCells))
    ensures NoDuplicates(Image(out, RowCells))
  {
    MergeKeepsRows(filled, b, out);
    SameMultisetNoDuplicates(Image(filled, RowCells), Image(out, RowCells));
  }

  /** Marking the batch changes priorities only, so the cells of the rows stay as they were. */
  lemma MarkedImage(s: seq<Row>, b: int, out: seq<Row>)
    requires BatchMarked(s, b, out)
    ensures Image(out, RowCells) == Image(s, RowCells)
  {
    forall i | 0 <= i < |s| ensures RowCells(out[i]) == RowCells(s[i]) {
      if i < SliceEnd(b, |s|) {
        assert out[i] == s[i].(priority := 1);
      }
    }
  }

  /** The merge keeps the number of rows. */
  lemma MergedLength(filled: seq<Row>, b: int, out: seq<Row>)
    requires MergedRows(filled, b, out)
    ensures |out| == |filled|
  {
    var s :| SortedPermutation(filled, s) && BatchMarked(s, b, out);
    assert |s| == |multiset(s)| == |multiset(filled)| == |filled|;
  }

  /**
   * A row the merge puts into the batch is a filled row above t with its priority forced
   * to 1, whenever the filled table has at least as many rows above t as the batch holds.
   */
  lemma MergedBatchFromAbove(filled: seq<Row>, b: int, out: seq<Row>, t: int, i: nat)
    requires MergedRows(filled, b, out)
    requires CountAbove(filled, t) >= SliceEnd(b, |filled|) && i < SliceEnd(b, |filled|)
    ensures |out| == |filled|
    ensures exists j :: 0 <= j < |filled| && filled[j].priority > t && out[i] == filled[j].(priority := 1)
  {
    var s :| SortedPermutation(filled, s) && BatchMarked(s, b, out);
    assert |s| == |multiset(s)| == |multiset(filled)| == |filled|;
    BatchTakesRowsAbove(filled, s, b, t);
    assert s[i] in multiset(filled);
    var j :| 0 <= j < |filled| && filled[j] == s[i];
  }

  /**
   * A row the merge leaves after the batch and after the rows above t is a filled row,
   * unchanged, whose priority is at most t. With priority setting and t = -1: resolved
   * rows that do not reach the batch keep priority -1.
   */
  lemma MergedTailBelow(filled: seq<Row>, b: int, out: seq<Row>, t: int, i: nat)
    requires MergedRows(filled, b, out)
    requires SliceEnd(b, |filled|) <= i && CountAbove(filled, t) <= i && i < |out|
    ensures out[i] in filled && out[i].priority <= t
  {
    var s :| SortedPermutation(filled, s) && BatchMarked(s, b, out);
    assert |s| == |multiset(s)| == |multiset(filled)| == |filled|;
    CountAbovePerm(filled, s, t);
    SortedTailBelow(s, t, i);
    assert s[i] in multiset(filled);
  }
}
