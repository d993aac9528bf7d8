/** Columns, schemas and positional row validation. */
module Schemas {
  import opened GoValues
  import opened SqlTypes

  /** A named column with a data type, a default (`Nil` when it is NULL) and a
      nullability flag.  The default is not checked against the type. */
  datatype Column = Column(name: string, typ: SqlType, default: Value, nullable: bool)

  /** The columns of a row shape, in positional order. */
  type Schema = seq<Column>

  /** One value per column, positionally aligned with a schema. */
  type Row = seq<Value>

  /** `Column.Check`: nil is accepted exactly by a nullable column; any other
      value only when it is already canonical for the column's type, so the
      values a column accepts are fixed points of conversion and conversion
      itself is never consulted. */
  function ColumnCheck(c: Column, v: Value): (ok: bool)
    ensures v.Nil? ==> (ok <==> c.nullable)
    ensures !v.Nil? ==> (ok <==> Check(c.typ, v))
    ensures ok && !v.Nil? ==> forall lib :: Convert(lib, c.typ, v) == Ok(v)
    ensures c.typ == Null ==> (ok <==> v.Nil? && c.nullable)
  {
    if v.Nil? then c.nullable else Check(c.typ, v)
  }

  /** Why a row does not fit a schema. */
  datatype RowError =
    | WrongLength(expected: nat, got: nat)          // "expected %d values, got %d"
    | UnexpectedType(index: nat, typeName: string)  // "value at %d has unexpected type: %s"

  /** Position `i` is the first one whose value its column rejects. */
  predicate FirstRejected(s: Schema, row: Row, i: int) {
    0 <= i < |s| && i < |row| && !ColumnCheck(s[i], row[i])
    && forall j :: 0 <= j < i ==> ColumnCheck(s[j], row[j])
  }

  /** At most one position is the first rejected one. */
  lemma FirstRejectedUnique(s: Schema, row: Row, i: int, k: int)
    requires FirstRejected(s, row, i) && FirstRejected(s, row, k)
    ensures i == k
  {
  }

  /** `Schema.CheckRow`, with the type name of a rejected nil value reported as
      "<nil>" rather than panicking: a length mismatch reports both counts;
      otherwise the row fails at the first position its column rejects, naming
      that value's type, and passes when every position is accepted. */
  method CheckRow(s: Schema, row: Row) returns (err: Option<RowError>)
    ensures |row| != |s| ==> err == Some(WrongLength(|s|, |row|))
    ensures |row| == |s| ==>
      (err.None? <==> forall i :: 0 <= i < |s| ==> ColumnCheck(s[i], row[i]))
    ensures |row| == |s| && err.Some? ==>
      err.value.UnexpectedType? && FirstRejected(s, row, err.value.index)
      && err.value.typeName == TypeName(row[err.value.index])
  {
    var expected, got := |s|, |row|;
    if expected != got {
      return Some(WrongLength(expected, got));
    }
    var idx := 0;
    while idx < |s|
      invariant 0 <= idx <= |s|
      invariant forall j :: 0 <= j < idx ==> ColumnCheck(s[j], row[j])
    {
      var v := row[idx];
      if !ColumnCheck(s[idx], v) {
        return Some(UnexpectedType(idx, TypeName(v)));
      }
      idx := idx + 1;
    }
    return None;
  }

  /** What `Schema.CheckRow` as written can do: pass, fail with an error, or
      panic in `reflect.TypeOf(v).String()` when the rejected value is nil. */
  datatype CheckOutcome = Passed | Failed(err: RowError) | Panicked(index: nat)

  /** `Schema.CheckRow` as written: identical to `CheckRow` except that a nil
      value rejected by a non-nullable column makes it panic. */
  method CheckRowAsWritten(s: Schema, row: Row) returns (o: CheckOutcome)
    ensures |row| != |s| ==> o == Failed(WrongLength(|s|, |row|))
    ensures |row| == |s| ==>
      (o.Passed? <==> forall i :: 0 <= i < |s| ==> ColumnCheck(s[i], row[i]))
    ensures |row| == |s| && o.Failed? ==>
      o.err.UnexpectedType? && FirstRejected(s, row, o.err.index)
      && !row[o.err.index].Nil? && o.err.typeName == TypeName(row[o.err.index])
    ensures o.Panicked? <==>
      |row| == |s| && exists i :: FirstRejected(s, row, i) && row[i].Nil?
    ensures o.Panicked? ==> FirstRejected(s, row, o.index) && row[o.index].Nil?
  {
    var expected, got := |s|, |row|;
    if expected != got {
      return Failed(WrongLength(expected, got));
    }
    var idx := 0;
    while idx < |s|
      invariant 0 <= idx <= |s|
      invariant forall j :: 0 <= j < idx ==> ColumnCheck(s[j], row[j])
    {
      var v := row[idx];
      if !ColumnCheck(s[idx], v) {
        match ReflectTypeString(v)
        case None => return Panicked(idx);
        case Some(typ) => return Failed(UnexpectedType(idx, typ));
      }
      idx := idx + 1;
    }
    return Passed;
  }

  /** A nil value in a non-nullable integer column: as written, `CheckRow`
      panics; the corrected `CheckRow` reports position 0 and type "<nil>". */
  method NilInNotNullColumn() returns (asWritten: CheckOutcome, corrected: Option<RowError>)
    ensures asWritten == Panicked(0)
    ensures corrected == Some(UnexpectedType(0, "<nil>"))
  {
    var s := [Column("id", Integer, Int32(0), false)];
    assert FirstRejected(s, [Nil], 0);
    asWritten := CheckRowAsWritten(s, [Nil]);
    corrected := CheckRow(s, [Nil]);
  }
}
