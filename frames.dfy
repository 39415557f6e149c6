/**
 * A one-row pandas DataFrame: the only shape the service builds, one row
 * from one request body. `names` is the column order and `cells` the value
 * of the row in each column.
 */
module Frames {

  datatype Cell = IntCell(i: int) | RealCell(r: real) | StrCell(s: string)

  datatype Frame = Frame(names: seq<string>, cells: map<string, Cell>)

  predicate Distinct(ns: seq<string>) {
    forall i, j :: 0 <= i < j < |ns| ==> ns[i] != ns[j]
  }

  /** Column labels are distinct and each has its cell. */
  predicate WellFormed(f: Frame) {
    && Distinct(f.names)
    && (forall n :: n in f.names ==> n in f.cells)
    && (forall n :: n in f.cells ==> n in f.names)
  }

  /** `df[name] = value`: an existing column keeps its place, a new one goes last. */
  function Assign(f: Frame, name: string, value: Cell): (r: Frame)
    ensures WellFormed(f) ==> WellFormed(r)
    ensures name in r.cells && r.cells[name] == value
    ensures name in f.names ==> r.names == f.names
    ensures name !in f.names ==> r.names == f.names + [name]
    ensures forall n :: n in f.cells && n != name ==> n in r.cells && r.cells[n] == f.cells[n]
  {
    Frame(if name in f.names then f.names else f.names + [name], f.cells[name := value])
  }

  /** `names` without the labels in `gone`, in the original order. */
  function Without(names: seq<string>, gone: seq<string>): (r: seq<string>)
    ensures forall n :: n in r <==> n in names && n !in gone
    ensures Distinct(names) ==> Distinct(r)
  {
    if |names| == 0 then []
    else if names[0] in gone then Without(names[1..], gone)
    else [names[0]] + Without(names[1..], gone)
  }

  /** Any two labels of `r` occur in `names` in the same order. */
  predicate KeepsOrderOf(r: seq<string>, names: seq<string>) {
    forall i, j :: 0 <= i < j < |r| ==>
      exists i', j' :: 0 <= i' < j' < |names| && names[i'] == r[i] && names[j'] == r[j]
  }

  /** `Without` keeps the surviving labels in their original relative order. */
  lemma {:induction false} WithoutKeepsOrder(names: seq<string>, gone: seq<string>)
    ensures KeepsOrderOf(Without(names, gone), names)
  {
    if |names| > 0 {
      var tail := names[1..];
      var rest := Without(tail, gone);
      WithoutKeepsOrder(tail, gone);
      var r := Without(names, gone);
      forall i, j | 0 <= i < j < |r|
        ensures exists i', j' :: 0 <= i' < j' < |names| && names[i'] == r[i] && names[j'] == r[j]
      {
        if names[0] in gone {
          assert r == rest;
          var a, b :| 0 <= a < b < |tail| && tail[a] == rest[i] && tail[b] == rest[j];
          assert names[a + 1] == r[i] && names[b + 1] == r[j];
        } else if i == 0 {
          assert r == [names[0]] + rest;
          assert r[j] == rest[j - 1] && rest[j - 1] in tail;
          var b :| 0 <= b < |tail| && tail[b] == rest[j - 1];
          assert names[0] == r[0] && names[b + 1] == r[j];
        } else {
          assert r == [names[0]] + rest;
          var a, b :| 0 <= a < b < |tail| && tail[a] == rest[i - 1] && tail[b] == rest[j - 1];
          assert names[a + 1] == r[i] && names[b + 1] == r[j];
        }
      }
      assert KeepsOrderOf(r, names);
    } else {
      assert Without(names, gone) == [];
    }
  }

  /** `df.drop(columns=gone)`. */
  function Drop(f: Frame, gone: seq<string>): (r: Frame)
    ensures WellFormed(f) ==> WellFormed(r)
    ensures r.names == Without(f.names, gone)
    ensures forall n :: n in r.names <==> n in f.names && n !in gone
    ensures forall n :: n in r.cells <==> n in f.cells && n !in gone
    ensures forall n :: n in r.cells ==> r.cells[n] == f.cells[n]
  {
    Frame(Without(f.names, gone), map n | n in f.cells && n !in gone :: f.cells[n])
  }
}
