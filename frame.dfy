/**
 * The single-row table the prediction service builds for each request, and
 * the table operations it applies to it: assigning a column, dropping
 * columns, mapping a value through a dictionary, one-hot expansion and
 * reindexing against a list of column names. A row is a sequence of
 * (column name, value) pairs, so the order of the columns is kept.
 *
 * The operations are plain functions; what each one means for the columns
 * of its result is stated by the lemma that follows it.
 */
module Frame {
  import opened Wrappers

  /** A cell of the row: a float, an integer, a string, or a missing value (None or NaN). */
  datatype Cell = Real(r: real) | Int(i: int) | Str(s: string) | Missing

  type Row = seq<(string, Cell)>

  /** The column names of a row, in order. */
  function Names(row: Row): seq<string>
  {
    seq(|row|, i requires 0 <= i < |row| => row[i].0)
  }

  predicate Distinct(names: seq<string>)
  {
    forall i, j :: 0 <= i < j < |names| ==> names[i] != names[j]
  }

  /** The value of the first column called name, if there is one. */
  function Lookup(row: Row, name: string): Option<Cell>
  {
    if row == [] then None
    else if row[0].0 == name then Some(row[0].1)
    else Lookup(row[1..], name)
  }

  /** A name is found exactly when it is a column name, and what is found is that column's value. */
  lemma {:induction false} LookupFound(row: Row, name: string)
    ensures Lookup(row, name).None? <==> name !in Names(row)
    ensures Lookup(row, name).Some? ==> (name, Lookup(row, name).value) in row
  {
    if row != [] {
      assert Names(row) == [row[0].0] + Names(row[1..]);
      LookupFound(row[1..], name);
    }
  }

  /** A name is looked up in the first part of a row, and in the second only when the first lacks it. */
  lemma {:induction false} LookupConcat(a: Row, b: Row, m: string)
    ensures Lookup(a + b, m) == if m in Names(a) then Lookup(a, m) else Lookup(b, m)
  {
    if a == [] {
      assert a + b == b;
    } else {
      assert (a + b)[1..] == a[1..] + b;
      assert Names(a) == [a[0].0] + Names(a[1..]);
      LookupConcat(a[1..], b, m);
    }
  }

  /** A column is found by its name when no earlier column has that name. */
  lemma {:induction false} LookupFirst(row: Row, k: nat)
    requires k < |row|
    requires forall i :: 0 <= i < k ==> row[i].0 != row[k].0
    ensures Lookup(row, row[k].0) == Some(row[k].1)
  {
    if k > 0 {
      LookupFirst(row[1..], k - 1);
    }
  }

  /** A column appended after the others is found only when no earlier column has its name. */
  lemma {:induction false} LookupAppend(row: Row, name: string, v: Cell, m: string)
    ensures Lookup(row + [(name, v)], m) ==
      if m in Names(row) then Lookup(row, m)
      else if m == name then Some(v)
      else None
  {
    if row != [] {
      assert (row + [(name, v)])[1..] == row[1..] + [(name, v)];
      assert Names(row) == [row[0].0] + Names(row[1..]);
      LookupAppend(row[1..], name, v, m);
    }
  }

  /** Every column called name gets the value v. */
  function Overwrite(row: Row, name: string, v: Cell): Row
  {
    if row == [] then []
    else [if row[0].0 == name then (name, v) else row[0]] + Overwrite(row[1..], name, v)
  }

  /** Overwrite keeps the column names and changes only the columns called name. */
  lemma {:induction false} OverwriteLookup(row: Row, name: string, v: Cell, m: string)
    ensures Names(Overwrite(row, name, v)) == Names(row)
    ensures Lookup(Overwrite(row, name, v), m) ==
      if m == name && name in Names(row) then Some(v) else Lookup(row, m)
  {
    if row != [] {
      var head := if row[0].0 == name then (name, v) else row[0];
      var rest := Overwrite(row[1..], name, v);
      OverwriteLookup(row[1..], name, v, m);
      assert Names(row) == [row[0].0] + Names(row[1..]);
      assert Names([head] + rest) == [head.0] + Names(rest);
      assert ([head] + rest)[1..] == rest;
    }
  }

  /**
   * Assignment of a whole column, `df[name] = v`: an existing column is
   * overwritten where it stands, a new one is appended after the others.
   */
  function Set(row: Row, name: string, v: Cell): Row
  {
    if name in Names(row) then Overwrite(row, name, v) else row + [(name, v)]
  }

  /** After `df[name] = v` the column name holds v, no other column changes, and a new name comes last. */
  lemma SetLookup(row: Row, name: string, v: Cell, m: string)
    ensures Names(Set(row, name, v)) ==
      if name in Names(row) then Names(row) else Names(row) + [name]
    ensures Lookup(Set(row, name, v), m) == if m == name then Some(v) else Lookup(row, m)
  {
    if name in Names(row) {
      OverwriteLookup(row, name, v, m);
    } else {
      assert Names(row + [(name, v)]) == Names(row) + [name];
      LookupAppend(row, name, v, m);
      LookupFound(row, m);
    }
  }

  /** Assigning a column that occurs once replaces it where it stands. */
  lemma SetExisting(row: Row, k: nat, v: Cell)
    requires k < |row|
    requires forall i :: 0 <= i < |row| && i != k ==> row[i].0 != row[k].0
    ensures Set(row, row[k].0, v) == row[k := (row[k].0, v)]
  {
    assert Names(row)[k] == row[k].0;
    OverwriteOnce(row, k, v);
  }

  lemma {:induction false} OverwriteOnce(row: Row, k: nat, v: Cell)
    requires k < |row|
    requires forall i :: 0 <= i < |row| && i != k ==> row[i].0 != row[k].0
    ensures Overwrite(row, row[k].0, v) == row[k := (row[k].0, v)]
  {
    if k == 0 {
      OverwriteAbsent(row[1..], row[0].0, v);
    } else {
      OverwriteOnce(row[1..], k - 1, v);
    }
  }

  lemma {:induction false} OverwriteAbsent(row: Row, name: string, v: Cell)
    requires forall i :: 0 <= i < |row| ==> row[i].0 != name
    ensures Overwrite(row, name, v) == row
  {
    if row != [] {
      OverwriteAbsent(row[1..], name, v);
    }
  }

  /**
   * `df.drop(columns=names, errors='ignore')`: the columns whose names are
   * listed go; names that are not columns are ignored.
   */
  function Drop(row: Row, names: seq<string>): Row
  {
    if row == [] then []
    else if row[0].0 in names then Drop(row[1..], names)
    else [row[0]] + Drop(row[1..], names)
  }

  /** After a drop no listed column is left and every other column keeps its value. */
  lemma {:induction false} DropLookup(row: Row, names: seq<string>, m: string)
    ensures Lookup(Drop(row, names), m) == if m in names then None else Lookup(row, m)
  {
    if row != [] {
      DropLookup(row[1..], names, m);
      if row[0].0 !in names {
        assert ([row[0]] + Drop(row[1..], names))[1..] == Drop(row[1..], names);
      }
    }
  }

  /** Dropping names that are not columns changes nothing. */
  lemma {:induction false} DropNothing(row: Row, names: seq<string>)
    requires forall i :: 0 <= i < |row| ==> row[i].0 !in names
    ensures Drop(row, names) == row
  {
    if row != [] {
      DropNothing(row[1..], names);
    }
  }

  /** Dropping the names of exactly the columns lo..hi-1 cuts those columns out, keeping the order of the rest. */
  lemma {:induction false} DropRange(row: Row, names: seq<string>, lo: nat, hi: nat)
    requires lo <= hi <= |row|
    requires forall i :: 0 <= i < |row| ==> (row[i].0 in names <==> lo <= i < hi)
    ensures Drop(row, names) == row[..lo] + row[hi..]
  {
    if row == [] {
    } else if lo == hi {
      DropNothing(row, names);
    } else if lo == 0 {
      DropRange(row[1..], names, 0, hi - 1);
      assert row[1..][hi - 1..] == row[hi..];
    } else {
      DropRange(row[1..], names, lo - 1, hi - 1);
      assert row[..lo] == [row[0]] + row[1..][..lo - 1];
      assert row[1..][hi - 1..] == row[hi..];
    }
  }

  /**
   * `series.map(codes)` on the one value of a column: a string with a code
   * becomes that code, anything else becomes missing (NaN).
   */
  function MapValue(c: Cell, codes: map<string, int>): (r: Cell)
    ensures r.Int? <==> c.Str? && c.s in codes
    ensures r.Int? ==> r.i == codes[c.s]
    ensures !r.Int? ==> r == Missing
  {
    if c.Str? && c.s in codes then Int(codes[c.s]) else Missing
  }

  /**
   * The categories a one-row column shows to one-hot expansion: its value
   * when that is a string, none when it is missing.
   */
  function Levels(c: Cell): (levels: seq<string>)
    ensures |levels| <= 1
  {
    if c.Str? then [c.s] else []
  }

  /**
   * The indicator columns `prefix_level` for one categorical column, one per
   * level in order, without the first level when dropFirst is set; an
   * indicator holds 1 where the level is the column's value.
   */
  function Indicators(column: string, c: Cell, dropFirst: bool): Row
  {
    var levels := Levels(c);
    var kept := if dropFirst && levels != [] then levels[1..] else levels;
    seq(|kept|, i requires 0 <= i < |kept| =>
      (column + "_" + kept[i], Int(if c == Str(kept[i]) then 1 else 0)))
  }

  /** The indicator columns of every listed column, in the order listed. */
  function Dummies(row: Row, columns: seq<string>, dropFirst: bool): Row
    requires forall c :: c in columns ==> c in Names(row)
  {
    if columns == [] then []
    else
      LookupFound(row, columns[0]);
      Indicators(columns[0], Lookup(row, columns[0]).value, dropFirst)
      + Dummies(row, columns[1..], dropFirst)
  }

  /** The indicator columns of four listed columns, written out. */
  lemma DummiesOfFour(row: Row, columns: seq<string>, dropFirst: bool)
    requires |columns| == 4 && forall c :: c in columns ==> c in Names(row)
    ensures forall k :: 0 <= k < 4 ==> Lookup(row, columns[k]).Some?
    ensures Dummies(row, columns, dropFirst) ==
      Indicators(columns[0], Lookup(row, columns[0]).value, dropFirst)
      + (Indicators(columns[1], Lookup(row, columns[1]).value, dropFirst)
      + (Indicators(columns[2], Lookup(row, columns[2]).value, dropFirst)
      + Indicators(columns[3], Lookup(row, columns[3]).value, dropFirst)))
  {
    forall k | 0 <= k < 4 ensures Lookup(row, columns[k]).Some? {
      LookupFound(row, columns[k]);
    }
    var c1, c2, c3 := columns[1..], columns[2..], columns[3..];
    assert c1[0] == columns[1] && c1[1..] == c2;
    assert c2[0] == columns[2] && c2[1..] == c3;
    assert c3[0] == columns[3] && c3[1..] == [];
    var i0 := Indicators(columns[0], Lookup(row, columns[0]).value, dropFirst);
    var i1 := Indicators(columns[1], Lookup(row, columns[1]).value, dropFirst);
    var i2 := Indicators(columns[2], Lookup(row, columns[2]).value, dropFirst);
    var i3 := Indicators(columns[3], Lookup(row, columns[3]).value, dropFirst);
    assert Dummies(row, c3, dropFirst) == i3 + Dummies(row, [], dropFirst);
    assert Dummies(row, c3, dropFirst) == i3;
    assert Dummies(row, c2, dropFirst) == i2 + i3;
    assert Dummies(row, c1, dropFirst) == i1 + (i2 + i3);
    assert Dummies(row, columns, dropFirst) == i0 + (i1 + (i2 + i3));
  }

  /**
   * `pd.get_dummies(df, columns=columns, drop_first=dropFirst)` on a one-row
   * table: the listed columns are replaced by their indicator columns, which
   * follow the remaining columns. Every listed column has to exist.
   */
  function GetDummies(row: Row, columns: seq<string>, dropFirst: bool): (r: Row)
    requires forall c :: c in columns ==> c in Names(row)
    ensures |Drop(row, columns)| <= |r| && r[..|Drop(row, columns)|] == Drop(row, columns)
    ensures dropFirst ==> r == Drop(row, columns)
  {
    DropFirstLeavesNoIndicators(row, columns);
    Drop(row, columns) + Dummies(row, columns, dropFirst)
  }

  /**
   * A column of a one-row table has at most one level, and drop_first drops
   * it, so no indicator column is ever produced, whatever the values are.
   */
  lemma {:induction false} DropFirstLeavesNoIndicators(row: Row, columns: seq<string>)
    requires forall c :: c in columns ==> c in Names(row)
    ensures Dummies(row, columns, true) == []
  {
    if columns != [] {
      assert forall c :: c in columns[1..] ==> c in columns;
      DropFirstLeavesNoIndicators(row, columns[1..]);
    }
  }

  /**
   * `df.reindex(columns=names, fill_value=0)`: the columns become exactly
   * names, in that order.
   */
  function Reindex(row: Row, names: seq<string>): (r: Row)
    ensures Names(r) == names
  {
    seq(|names|, i requires 0 <= i < |names| => (names[i], Lookup(row, names[i]).GetOr(Int(0))))
  }

  /**
   * Reindex seen column by column, when the target names are distinct: a
   * name the row has keeps its value, a name it lacks is filled with 0, and
   * a column that is not named is discarded.
   */
  lemma ReindexLookup(row: Row, names: seq<string>, m: string)
    requires Distinct(names)
    ensures Lookup(Reindex(row, names), m) ==
      if m !in names then None
      else if m in Names(row) then Lookup(row, m)
      else Some(Int(0))
  {
    var r := Reindex(row, names);
    LookupFound(r, m);
    LookupFound(row, m);
    if m in names {
      var k :| 0 <= k < |names| && names[k] == m;
      LookupFirst(r, k);
    }
  }
}
