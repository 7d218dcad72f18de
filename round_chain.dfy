/**
 * Round chaining in single_round_predict: the scored table loses the columns the
 * optimiser added and becomes the next round's table.
 */
module RoundChain {
  import opened Tables

  /** p occurs in s starting at index i. */
  predicate OccursAt(s: string, p: string, i: nat) {
    i + |p| <= |s| && s[i..i + |p|] == p
  }

  /** p occurs in s as a contiguous substring. */
  predicate Contains(s: string, p: string) {
    exists i: nat :: i <= |s| && OccursAt(s, p, i)
  }

  /** A column whose name matches `predicted_mean|predicted_variance|expected_improvement`
      somewhere (`str.contains` searches, it does not compare whole names). */
  predicate IsScoringColumn(c: string) {
    Contains(c, "predicted_mean") || Contains(c, "predicted_variance") || Contains(c, "expected_improvement")
  }

  /** The column list without the scoring columns, order kept. */
  function KeepColumns(cols: seq<string>): (kept: seq<string>)
    ensures forall c :: c in kept <==> c in cols && !IsScoringColumn(c)
    ensures |kept| <= |cols|
  {
    if cols == [] then []
    else (if IsScoringColumn(cols[0]) then [] else [cols[0]]) + KeepColumns(cols[1..])
  }

  /** Column filtering works name by name: the kept names of a column list split in two are
      those of the first part followed by those of the second, so their order is kept. */
  lemma {:induction false} KeepColumnsAppend(a: seq<string>, b: seq<string>)
    ensures KeepColumns(a + b) == KeepColumns(a) + KeepColumns(b)
    decreases |a|
  {
    if a == [] {
      assert a + b == b;
    } else {
      assert (a + b)[0] == a[0] && (a + b)[1..] == a[1..] + b;
      KeepColumnsAppend(a[1..], b);
    }
  }

  /** A single column is dropped exactly when its name matches a scoring column. */
  lemma KeepColumnsSingle(c: string)
    ensures KeepColumns([c]) == (if IsScoringColumn(c) then [] else [c])
  {
    assert [c][1..] == [];
  }

  /** A row without its scoring cells. */
  function StripRow(row: Row): (r: Row)
    ensures r.priority == row.priority
    ensures forall c :: c in r.cells <==> c in row.cells && !IsScoringColumn(c)
    ensures forall c :: c in r.cells ==> r.cells[c] == row.cells[c]
  {
    Row(map c | c in row.cells && !IsScoringColumn(c) :: row.cells[c], row.priority)
  }

  /**
   * The next round's table: every column of the scored table whose name does not match a
   * scoring column, in the same order, and the same rows in the same order, each with its
   * priority and its cells in the kept columns.
   */
  function StripScoringColumns(t: RoundTable): (r: RoundTable)
    ensures r.columns == KeepColumns(t.columns)
    ensures forall c :: c in r.columns <==> c in t.columns && !IsScoringColumn(c)
    ensures |r.rows| == |t.rows|
    ensures forall i :: 0 <= i < |t.rows| ==> r.rows[i].priority == t.rows[i].priority
    ensures forall i, c :: 0 <= i < |t.rows| && c in t.rows[i].cells && !IsScoringColumn(c) ==>
      c in r.rows[i].cells && r.rows[i].cells[c] == t.rows[i].cells[c]
    ensures forall i, c :: 0 <= i < |t.rows| && c in r.rows[i].cells ==> !IsScoringColumn(c)
  {
    RoundTable(KeepColumns(t.columns), seq(|t.rows|, i requires 0 <= i < |t.rows| => StripRow(t.rows[i])))
  }

  lemma {:induction false} KeepColumnsIdempotent(cols: seq<string>)
    ensures KeepColumns(KeepColumns(cols)) == KeepColumns(cols)
    decreases |cols|
  {
    if cols != [] {
      var rest := KeepColumns(cols[1..]);
      KeepColumnsIdempotent(cols[1..]);
      if !IsScoringColumn(cols[0]) {
        var once := [cols[0]] + rest;
        assert KeepColumns(cols) == once;
        assert once[0] == cols[0] && once[1..] == rest;
        assert KeepColumns(once) == [cols[0]] + KeepColumns(rest);
      } else {
        assert KeepColumns(cols) == [] + rest == rest;
      }
    }
  }

  /** Stripping a table that was already stripped changes nothing. */
  lemma StripIdempotent(t: RoundTable)
    ensures StripScoringColumns(StripScoringColumns(t)) == StripScoringColumns(t)
  {
    var once := StripScoringColumns(t);
    KeepColumnsIdempotent(t.columns);
    forall i | 0 <= i < |once.rows| ensures StripRow(once.rows[i]) == once.rows[i] {
      assert StripRow(once.rows[i]).cells == once.rows[i].cells;
    }
  }

  /** Round chaining keeps every candidate: if no component name matches a scoring
      column, each row keeps its component cells and its position. */
  lemma StripKeepsCandidates(t: RoundTable, comps: set<string>)
    requires forall c :: c in comps ==> !IsScoringColumn(c)
    ensures |StripScoringColumns(t).rows| == |t.rows|
    ensures forall i, c :: 0 <= i < |t.rows| && c in comps && c in t.rows[i].cells ==>
      c in StripScoringColumns(t).rows[i].cells && StripScoringColumns(t).rows[i].cells[c] == t.rows[i].cells[c]
  {
  }
}
