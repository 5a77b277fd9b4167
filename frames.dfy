/**
  The one-row pandas DataFrame the estimator builds and copies: a sequence of
  column labels and the row's values, with the two operations the estimator
  uses on it, column lookup (`df[name]`, `name in df.columns`) and column
  assignment (`df[name] = x`), plus `reindex` against a column list.
 */
module Frames {
  import opened Wrappers

  predicate Distinct<T(==)>(s: seq<T>)
  {
    forall i, j :: 0 <= i < j < |s| ==> s[i] != s[j]
  }

  /** The position of the first occurrence of `x` in `s`, or None when `x` does not occur. */
  function FirstIndex<T(==)>(s: seq<T>, x: T): (r: Option<nat>)
    ensures r.None? <==> x !in s
    ensures r.Some? ==> r.value < |s| && s[r.value] == x
    ensures r.Some? ==> forall j :: 0 <= j < r.value ==> s[j] != x
  {
    if |s| == 0 then None
    else if s[0] == x then Some(0)
    else match FirstIndex(s[1..], x)
      case None => None
      case Some(i) => Some(i + 1)
  }

  /** The row's value under `name`, or 0 when the dictionary has no such key. */
  function ValueOrZero(m: map<string, real>, name: string): real
  {
    if name in m then m[name] else 0.0
  }

  /**
    `pd.DataFrame([m]).reindex(columns=schema, fill_value=0)`: one value per
    schema column, in schema order, taken from `m` or filled with 0; keys of
    `m` that are not schema columns are dropped.
   */
  function Reindex(m: map<string, real>, schema: seq<string>): (row: seq<real>)
    ensures |row| == |schema|
    ensures forall i :: 0 <= i < |schema| && schema[i] in m ==> row[i] == m[schema[i]]
    ensures forall i :: 0 <= i < |schema| && schema[i] !in m ==> row[i] == 0.0
  {
    if |schema| == 0 then [] else [ValueOrZero(m, schema[0])] + Reindex(m, schema[1..])
  }

  /** Entries whose keys are not schema columns contribute nothing to the reindexed row. */
  lemma ReindexIgnoresForeignKeys(m: map<string, real>, foreign: set<string>, schema: seq<string>)
    requires forall k :: k in foreign ==> k !in schema
    ensures Reindex(m - foreign, schema) == Reindex(m, schema)
  {
  }

  /** A single-row table: column labels and the one row of values. */
  datatype Frame = Frame(columns: seq<string>, row: seq<real>) {

    /** One value per column, and no label twice. */
    predicate Valid()
    {
      |columns| == |row| && Distinct(columns)
    }

    /** `df[name].values[0]` when `name in df.columns`, None otherwise. */
    function Get(name: string): (r: Option<real>)
      requires Valid()
      ensures r.None? <==> name !in columns
      ensures forall i :: 0 <= i < |columns| && columns[i] == name ==> r == Some(row[i])
    {
      match FirstIndex(columns, name)
      case None => None
      case Some(i) => Some(row[i])
    }

    /**
      `df[name] = x`: overwrites the column when it exists and otherwise
      appends a new column at the end; no other column changes.
     */
    function Set(name: string, x: real): (f: Frame)
      requires Valid()
      ensures f.Valid() && |f.row| >= |row|
      ensures f.columns == if name in columns then columns else columns + [name]
      ensures f.Get(name) == Some(x)
      ensures forall other :: other != name ==> f.Get(other) == Get(other)
      ensures forall i :: 0 <= i < |row| ==> f.row[i] == if columns[i] == name then x else row[i]
    {
      match FirstIndex(columns, name)
      case Some(i) => Frame(columns, row[i := x])
      case None => Frame(columns + [name], row + [x])
    }
  }
}
