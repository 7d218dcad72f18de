/**
 * The component space that initialize_scope reads from components.csv: one column per
 * component with its candidate values, and two reserved columns `min` and `max` naming
 * the objectives to minimise and to maximise.
 */
module ComponentSpace {
  import opened Tables

  /** The direction in which an objective is optimised. */
  datatype Mode = Min | Max

  /** components.csv as read: column name to the column's cells, top to bottom. */
  type Sheet = map<string, seq<Cell>>

  /** The ordered objective names and, index for index, their modes. */
  datatype Objectives = Objectives(names: seq<string>, modes: seq<Mode>)

  const MinColumn: string := "min"
  const MaxColumn: string := "max"

  /** A column's cells with the blank ones dropped (`dropna().tolist()`), order kept. */
  function DropBlanks(cells: seq<Cell>): (r: seq<Cell>)
    ensures Blank !in r
    ensures forall c :: c != Blank ==> multiset(r)[c] == multiset(cells)[c]
  {
    if cells == [] then []
    else
      assert cells == [cells[0]] + cells[1..];
      if cells[0] == Blank then DropBlanks(cells[1..])
      else [cells[0]] + DropBlanks(cells[1..])
  }

  /** Dropping blanks works cell by cell: the filled cells of a column split in two are
      those of the first part followed by those of the second, so their order is kept. */
  lemma {:induction false} DropBlanksAppend(a: seq<Cell>, b: seq<Cell>)
    ensures DropBlanks(a + b) == DropBlanks(a) + DropBlanks(b)
    decreases |a|
  {
    if a == [] {
      assert a + b == b;
    } else {
      assert (a + b)[0] == a[0] && (a + b)[1..] == a[1..] + b;
      DropBlanksAppend(a[1..], b);
    }
  }

  /** A single cell is dropped exactly when it is blank. */
  lemma DropBlanksSingle(c: Cell)
    ensures DropBlanks([c]) == (if c == Blank then [] else [c])
  {
    assert [c][1..] == [];
  }

  /** The texts of a column of filled cells. */
  function Texts(cells: seq<Cell>): (r: seq<string>)
    requires Blank !in cells
    ensures |r| == |cells|
    ensures forall i :: 0 <= i < |r| ==> cells[i] == Val(r[i])
  {
    if cells == [] then [] else [cells[0].text] + Texts(cells[1..])
  }

  /** The objective names listed in a reserved column. */
  function ObjectiveColumn(sheet: Sheet, name: string): seq<string>
    requires name in sheet
  {
    Texts(DropBlanks(sheet[name]))
  }

  /**
   * The component map: every column except `min` and `max`, each with its blank cells
   * removed and every filled cell kept as often as it occurs.
   */
  function ParseComponents(sheet: Sheet): (comps: map<string, seq<Cell>>)
    ensures forall name :: name in comps <==> name in sheet && name != MinColumn && name != MaxColumn
    ensures forall name :: name in comps ==> Blank !in comps[name]
    ensures forall name, c :: name in comps && c != Blank ==> multiset(comps[name])[c] == multiset(sheet[name])[c]
    ensures forall name :: name in comps ==> comps[name] == DropBlanks(sheet[name])
  {
    map name | name in sheet && name != MinColumn && name != MaxColumn :: DropBlanks(sheet[name])
  }

  /**
   * The objective list and its mode list. Indexing a missing `min` or `max` column raises,
   * which is None here. Otherwise the min objectives come first, then the max objectives,
   * and the mode at each index is the column the objective at that index came from.
   */
  function ParseObjectives(sheet: Sheet): (r: Option<Objectives>)
    ensures r.Some? <==> MinColumn in sheet && MaxColumn in sheet
    ensures r.Some? ==>
      var mins := ObjectiveColumn(sheet, MinColumn);
      var maxs := ObjectiveColumn(sheet, MaxColumn);
      && |r.value.names| == |r.value.modes| == |mins| + |maxs|
      && (forall i :: 0 <= i < |mins| ==> r.value.names[i] == mins[i] && r.value.modes[i] == Min)
      && (forall i :: 0 <= i < |maxs| ==> r.value.names[|mins| + i] == maxs[i] && r.value.modes[|mins| + i] == Max)
  {
    if MinColumn !in sheet || MaxColumn !in sheet then None
    else
      var mins := ObjectiveColumn(sheet, MinColumn);
      var maxs := ObjectiveColumn(sheet, MaxColumn);
      Some(Objectives(mins + maxs, seq(|mins|, _ => Min) + seq(|maxs|, _ => Max)))
  }

  /** Joining two duplicate-free lists that share no element gives a duplicate-free list. */
  lemma NoDuplicatesAppend(a: seq<string>, b: seq<string>)
    requires NoDuplicates(a) && NoDuplicates(b)
    requires forall x :: x in a ==> x !in b
    ensures NoDuplicates(a + b)
  {
    forall i, j | 0 <= i < j < |a + b| ensures (a + b)[i] != (a + b)[j] {
      if j < |a| {
        assert (a + b)[i] == a[i] && (a + b)[j] == a[j];
      } else if i >= |a| {
        assert (a + b)[i] == b[i - |a|] && (a + b)[j] == b[j - |a|];
      } else {
        assert (a + b)[i] == a[i] && a[i] in a;
        assert (a + b)[j] == b[j - |a|] && b[j - |a|] in b;
      }
    }
  }

  /**
   * When the two reserved columns list distinct names and share none, the objective list
   * has no duplicates, and each objective's mode is the column it was listed in.
   */
  lemma ObjectivesDistinct(sheet: Sheet)
    requires MinColumn in sheet && MaxColumn in sheet
    requires NoDuplicates(ObjectiveColumn(sheet, MinColumn)) && NoDuplicates(ObjectiveColumn(sheet, MaxColumn))
    requires forall n :: n in ObjectiveColumn(sheet, MinColumn) ==> n !in ObjectiveColumn(sheet, MaxColumn)
    ensures ParseObjectives(sheet).Some?
    ensures NoDuplicates(ParseObjectives(sheet).value.names)
    ensures forall i :: 0 <= i < |ParseObjectives(sheet).value.names| ==>
      (ParseObjectives(sheet).value.modes[i] == Min <==> ParseObjectives(sheet).value.names[i] in ObjectiveColumn(sheet, MinColumn))
  {
    var mins := ObjectiveColumn(sheet, MinColumn);
    var maxs := ObjectiveColumn(sheet, MaxColumn);
    var o := ParseObjectives(sheet).value;
    NoDuplicatesAppend(mins, maxs);
    forall i | 0 <= i < |o.names| ensures o.modes[i] == Min <==> o.names[i] in mins {
      if i >= |mins| {
        assert o.names[i] == maxs[i - |mins|] && o.modes[i] == Max;
      }
    }
  }
}
