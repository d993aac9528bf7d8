/** The closed catalog of built-in SQL value types of the `sql` package and,
    for each, which values are already canonical (`Check`), how other values
    are normalised (`Convert`), how canonical values are ordered (`Compare`)
    and the type's zero value (`Default`). */
module SqlTypes {
  import opened GoValues
  import opened ByteOrder

  /** The built-in type descriptors (the Float descriptor is not modelled). */
  datatype SqlType = Null | Integer | BigInteger | String | Boolean | Blob | TimestampWithTimezone

  /** Why a conversion failed. */
  datatype ConvError =
    | NotNil(value: Value)                      // "value not nil: %#v"
    | Overflow(value: Value, target: string)    // "value %d overflows int32"
    | NotConvertible(text: GoString, target: string)  // "value %q can't be converted to ..."
    | InvalidType                               // ErrInvalidType

  function Name(t: SqlType): string {
    match t
    case Null => "null"
    case Integer => "integer"
    case BigInteger => "biginteger"
    case String => "string"
    case Boolean => "boolean"
    case Blob => "blob"
    case TimestampWithTimezone => "timestamp with timezone"
  }

  /** Each descriptor has its own name. */
  lemma NameInjective(t: SqlType, u: SqlType)
    ensures Name(t) == Name(u) ==> t == u
  {
  }

  predicate InInt32(x: int) { MinInt32 <= x <= MaxInt32 }
  predicate InInt64(x: int) { MinInt64 <= x <= MaxInt64 }

  // ---------------------------------------------------------------- Integer

  predicate CheckInt32(v: Value) { v.Int32? }

  /** Normalises any integer width, or decimal text, to an `int32`.  `int64`,
      `uint`, `uint32` and `uint64` are range-checked; `int` and the result of
      `Atoi` are cast with `int32(...)`, which wraps. */
  function ConvertToInt32(lib: Library, v: Value): (r: Result<Value, ConvError>)
    ensures r.Ok? ==> CheckInt32(r.value)
    ensures CheckInt32(v) ==> r == Ok(v)
    ensures IsInteger(v) && !v.Int? ==>
      (r.Ok? <==> InInt32(IntegerValue(v)))
      && (r.Ok? ==> r.value.i32 == IntegerValue(v))
      && (r.Err? ==> r.error == Overflow(v, "int32"))
    ensures v.Int? ==> r == Ok(Int32(WrapInt32(v.i)))
    ensures v.Str? ==> r == match lib.atoi(v.s)
                           case Some(n) => Ok(Int32(WrapInt32(n)))
                           case None => Err(NotConvertible(v.s, "int32"))
    ensures !IsInteger(v) && !v.Str? ==> r == Err(InvalidType)
  {
    match v
    case Int(x) => Ok(Int32(WrapInt32(x)))
    case Int8(x) => Ok(Int32(x))
    case Int16(x) => Ok(Int32(x))
    case Int32(x) => Ok(v)
    case Int64(x) =>
      if x > MaxInt32 || x < MinInt32 then Err(Overflow(v, "int32")) else Ok(Int32(x))
    case Uint8(x) => Ok(Int32(x))
    case Uint16(x) => Ok(Int32(x))
    case Uint(x) => if x > MaxInt32 then Err(Overflow(v, "int32")) else Ok(Int32(x))
    case Uint32(x) => if x > MaxInt32 then Err(Overflow(v, "int32")) else Ok(Int32(x))
    case Uint64(x) => if x > MaxInt32 then Err(Overflow(v, "int32")) else Ok(Int32(x))
    case Str(s) =>
      (match lib.atoi(s)
       case None => Err(NotConvertible(s, "int32"))
       case Some(n) => Ok(Int32(WrapInt32(n))))
    case _ => Err(InvalidType)
  }

  function CompareInt32(a: Value, b: Value): (r: int)
    requires CheckInt32(a) && CheckInt32(b)
    ensures r == -1 || r == 0 || r == 1
    ensures r == 0 <==> a == b
    ensures r == -1 <==> a.i32 < b.i32
  {
    if a.i32 < b.i32 then -1 else if a.i32 > b.i32 then 1 else 0
  }

  // ------------------------------------------------------------- BigInteger

  predicate CheckInt64(v: Value) { v.Int64? }

  /** Normalises any integer width, or decimal text, to an `int64`.  Only
      `uint64` is range-checked; `uint` is cast with `int64(...)`, which wraps. */
  function ConvertToInt64(lib: Library, v: Value): (r: Result<Value, ConvError>)
    ensures r.Ok? ==> CheckInt64(r.value)
    ensures CheckInt64(v) ==> r == Ok(v)
    ensures IsInteger(v) && !v.Uint? ==>
      (r.Ok? <==> InInt64(IntegerValue(v)))
      && (r.Ok? ==> r.value.i64 == IntegerValue(v))
      && (r.Err? ==> r.error == Overflow(v, "int64"))
    ensures v.Uint64? ==> (r.Err? <==> v.u64 >= 0x8000_0000_0000_0000)
    ensures v.Uint? ==> r == Ok(Int64(WrapInt64(v.u)))
    ensures v.Str? ==> r == match lib.atoi(v.s)
                           case Some(n) => Ok(Int64(n))
                           case None => Err(NotConvertible(v.s, "int64"))
    ensures !IsInteger(v) && !v.Str? ==> r == Err(InvalidType)
  {
    match v
    case Int(x) => Ok(Int64(x))
    case Int8(x) => Ok(Int64(x))
    case Int16(x) => Ok(Int64(x))
    case Int32(x) => Ok(Int64(x))
    case Int64(x) => Ok(v)
    case Uint(x) => Ok(Int64(WrapInt64(x)))
    case Uint8(x) => Ok(Int64(x))
    case Uint16(x) => Ok(Int64(x))
    case Uint32(x) => Ok(Int64(x))
    case Uint64(x) =>
      if x >= 0x8000_0000_0000_0000 then Err(Overflow(v, "int64")) else Ok(Int64(x))
    case Str(s) =>
      (match lib.atoi(s)
       case None => Err(NotConvertible(s, "int64"))
       case Some(n) => Ok(Int64(n)))
    case _ => Err(InvalidType)
  }

  function CompareInt64(a: Value, b: Value): (r: int)
    requires CheckInt64(a) && CheckInt64(b)
    ensures r == -1 || r == 0 || r == 1
    ensures r == 0 <==> a == b
    ensures r == -1 <==> a.i64 < b.i64
  {
    if a.i64 < b.i64 then -1 else if a.i64 > b.i64 then 1 else 0
  }

  // ----------------------------------------------------------------- String

  predicate CheckString(v: Value) { v.Str? }

  /** A string is kept; a `fmt.Stringer` becomes the text of its `String()`. */
  function ConvertToString(lib: Library, v: Value): (r: Result<Value, ConvError>)
    ensures r.Ok? ==> CheckString(r.value)
    ensures CheckString(v) ==> r == Ok(v)
    ensures r.Ok? <==> v.Str? || IsStringer(v)
    ensures IsStringer(v) ==> r == Ok(Str(StringOf(lib, v)))
    ensures r.Err? ==> r.error == InvalidType
  {
    if v.Str? then Ok(v)
    else if IsStringer(v) then Ok(Str(StringOf(lib, v)))
    else Err(InvalidType)
  }

  function CompareString(a: Value, b: Value): (r: int)
    requires CheckString(a) && CheckString(b)
    ensures r == -1 || r == 0 || r == 1
    ensures r == 0 <==> a == b
    ensures r == -1 <==> LexLess(a.s, b.s)
  {
    LexCompareIsLexLess(a.s, b.s);
    LexCompare(a.s, b.s)
  }

  // ---------------------------------------------------------------- Boolean

  predicate CheckBoolean(v: Value) { v.Bool? }

  /** Only a boolean converts to a boolean. */
  function ConvertToBool(v: Value): (r: Result<Value, ConvError>)
    ensures r.Ok? <==> CheckBoolean(v)
    ensures r.Ok? ==> r.value == v
    ensures r.Err? ==> r.error == InvalidType
  {
    match v
    case Bool(_) => Ok(v)
    case _ => Err(InvalidType)
  }

  /** `false` sorts before `true`. */
  function CompareBool(a: Value, b: Value): (r: int)
    requires CheckBoolean(a) && CheckBoolean(b)
    ensures r == -1 || r == 0 || r == 1
    ensures r == 0 <==> a == b
    ensures r == -1 <==> !a.b && b.b
  {
    if a.b == b.b then 0 else if a.b == false then -1 else 1
  }

  // -------------------------------------------------------------- Timestamp

  predicate CheckTimestamp(v: Value) { v.Time? }

  /** A timestamp is kept; text is parsed with the timestamp layout; any other
      value falls back to BigInteger, but only after `BigInteger`'s Check,
      which admits `int64` alone, so every other integer width is refused. */
  function ConvertToTimestamp(lib: Library, v: Value): (r: Result<Value, ConvError>)
    ensures r.Ok? ==> CheckTimestamp(r.value)
    ensures CheckTimestamp(v) ==> r == Ok(v)
    ensures v.Str? ==> r == match lib.parseTimestamp(v.s)
                           case Some(t) => Ok(Time(t))
                           case None => Err(NotConvertible(v.s, "time.Time"))
    ensures IsInteger(v) ==> (r.Ok? <==> v.Int64?)
    ensures v.Int64? ==> r == Ok(Time(UnixTime(v.i64)))
    ensures !v.Time? && !v.Str? && !v.Int64? ==> r == Err(InvalidType)
  {
    if v.Time? then Ok(v)
    else if v.Str? then
      (match lib.parseTimestamp(v.s)
       case None => Err(NotConvertible(v.s, "time.Time"))
       case Some(t) => Ok(Time(t)))
    // the default branch: BigInteger.Check and BigInteger.Convert are
    // checkInt64 and convertToInt64
    else if !CheckInt64(v) then Err(InvalidType)
    else
      match ConvertToInt64(lib, v)
      case Err(_) => Err(InvalidType)
      case Ok(bi) => Ok(Time(UnixTime(bi.i64)))
  }

  /** Chronological order by `Before`; the location plays no part. */
  function CompareTimestamp(a: Value, b: Value): (r: int)
    requires CheckTimestamp(a) && CheckTimestamp(b)
    ensures r == -1 || r == 0 || r == 1
    ensures r == 0 <==> SameInstant(a.t, b.t)
    ensures r == -1 <==> Before(a.t, b.t)
    ensures r == 1 <==> Before(b.t, a.t)
  {
    if Before(a.t, b.t) then -1
    else if Before(b.t, a.t) then 1
    else 0
  }

  // ------------------------------------------------------------------- Blob

  predicate CheckBlob(v: Value) { v.Bytes? }

  /** Bytes are kept; a string or a `fmt.Stringer`'s text becomes its bytes. */
  function ConvertToBlob(lib: Library, v: Value): (r: Result<Value, ConvError>)
    ensures r.Ok? ==> CheckBlob(r.value)
    ensures CheckBlob(v) ==> r == Ok(v)
    ensures r.Ok? <==> v.Bytes? || v.Str? || IsStringer(v)
    ensures v.Str? ==> r == Ok(Bytes(v.s))
    ensures IsStringer(v) ==> r == Ok(Bytes(StringOf(lib, v)))
    ensures r.Err? ==> r.error == InvalidType
  {
    if v.Bytes? then Ok(v)
    else if v.Str? then Ok(Bytes(v.s))
    else if IsStringer(v) then Ok(Bytes(StringOf(lib, v)))
    else Err(InvalidType)
  }

  function CompareBlob(a: Value, b: Value): (r: int)
    requires CheckBlob(a) && CheckBlob(b)
    ensures r == -1 || r == 0 || r == 1
    ensures r == 0 <==> a == b
    ensures r == -1 <==> LexLess(a.bytes, b.bytes)
  {
    LexCompareIsLexLess(a.bytes, b.bytes);
    LexCompare(a.bytes, b.bytes)
  }

  // ------------------------------------------------------------ Descriptors

  /** The name of the Go type of each descriptor's canonical values. */
  function CanonicalGoType(t: SqlType): string {
    match t
    case Null => "<nil>"
    case Integer => "int32"
    case BigInteger => "int64"
    case String => "string"
    case Boolean => "bool"
    case Blob => "[]uint8"
    case TimestampWithTimezone => "time.Time"
  }

  /** `Type.Check`: is `v` already in the type's canonical form?  Exactly when
      its dynamic Go type is the canonical one: no conversion, no `Stringer`. */
  function Check(t: SqlType, v: Value): (ok: bool)
    ensures ok <==> !v.Stringer? && !v.Other? && TypeName(v) == CanonicalGoType(t)
  {
    match t
    case Null => v.Nil?
    case Integer => CheckInt32(v)
    case BigInteger => CheckInt64(v)
    case String => CheckString(v)
    case Boolean => CheckBoolean(v)
    case Blob => CheckBlob(v)
    case TimestampWithTimezone => CheckTimestamp(v)
  }

  /** `Type.Convert`: the canonical form of `v`, or why there is none.  A
      canonical value comes back unchanged, and every result is canonical. */
  function Convert(lib: Library, t: SqlType, v: Value): (r: Result<Value, ConvError>)
    ensures Check(t, v) ==> r == Ok(v)
    ensures r.Ok? ==> Check(t, r.value)
    ensures t == Null ==> r == if v.Nil? then Ok(Nil) else Err(NotNil(v))
  {
    match t
    case Null => if v != Nil then Err(NotNil(v)) else Ok(Nil)
    case Integer => ConvertToInt32(lib, v)
    case BigInteger => ConvertToInt64(lib, v)
    case String => ConvertToString(lib, v)
    case Boolean => ConvertToBool(v)
    case Blob => ConvertToBlob(lib, v)
    case TimestampWithTimezone => ConvertToTimestamp(lib, v)
  }

  /** What `Compare` accepts: canonical values of the type, or anything for
      Null (whose Compare never looks at its arguments). */
  predicate Comparable(t: SqlType, a: Value, b: Value) {
    t == Null || (Check(t, a) && Check(t, b))
  }

  /** `Type.Compare`: -1, 0 or 1.  Null compares equal to everything (an
      ordering convention, not SQL equality); a timestamp compares by instant;
      every other type compares equal only on equal values. */
  function Compare(t: SqlType, a: Value, b: Value): (r: int)
    requires Comparable(t, a, b)
    ensures r == -1 || r == 0 || r == 1
    ensures t == Null ==> r == 0
    ensures t == TimestampWithTimezone ==> (r == 0 <==> SameInstant(a.t, b.t))
    ensures t != Null && t != TimestampWithTimezone ==> (r == 0 <==> a == b)
  {
    match t
    case Null => 0
    case Integer => CompareInt32(a, b)
    case BigInteger => CompareInt64(a, b)
    case String => CompareString(a, b)
    case Boolean => CompareBool(a, b)
    case Blob => CompareBlob(a, b)
    case TimestampWithTimezone => CompareTimestamp(a, b)
  }

  /** `Type.Default`: the type's zero value, which is canonical for it. */
  function Default(t: SqlType): (r: Value)
    ensures Check(t, r)
  {
    match t
    case Null => Nil
    case Integer => Int32(0)
    case BigInteger => Int64(0)
    case String => Str([])
    case Boolean => Bool(false)
    case Blob => Bytes([])
    case TimestampWithTimezone => Time(ZeroTime)
  }

  // --------------------------------------------------------------- Lemmas

  /** Converting twice gives what converting once gives. */
  lemma ConvertIdempotent(lib: Library, t: SqlType, v: Value)
    requires Convert(lib, t, v).Ok?
    ensures Convert(lib, t, Convert(lib, t, v).value) == Convert(lib, t, v)
  {
  }

  /** Swapping the arguments of `Compare` negates the result. */
  lemma CompareAntisymmetric(t: SqlType, a: Value, b: Value)
    requires Comparable(t, a, b)
    ensures Compare(t, a, b) == -Compare(t, b, a)
  {
    match t
    case String => LexCompareAntisymmetric(a.s, b.s);
    case Blob => LexCompareAntisymmetric(a.bytes, b.bytes);
    case _ =>
  }

  /** `Compare` is transitive, so with antisymmetry it is a total preorder
      (a total order for every type but Null and timestamps). */
  lemma CompareTransitive(t: SqlType, a: Value, b: Value, c: Value)
    requires Comparable(t, a, b) && Comparable(t, b, c)
    requires Compare(t, a, b) <= 0 && Compare(t, b, c) <= 0
    ensures Comparable(t, a, c) && Compare(t, a, c) <= 0
  {
    match t
    case String => LexCompareTransitive(a.s, b.s, c.s);
    case Blob => LexCompareTransitive(a.bytes, b.bytes, c.bytes);
    case _ =>
  }

  /** The conversions that are not range-checked wrap around. */
  lemma UncheckedCastsWrap(lib: Library)
    ensures Convert(lib, Integer, Int(0x8000_0000)) == Ok(Int32(-0x8000_0000))
    ensures Convert(lib, Integer, Int64(0x8000_0000)) == Err(Overflow(Int64(0x8000_0000), "int32"))
    ensures Convert(lib, BigInteger, Uint(0x8000_0000_0000_0000))
            == Ok(Int64(-0x8000_0000_0000_0000))
    ensures Convert(lib, BigInteger, Uint64(0x8000_0000_0000_0000))
            == Err(Overflow(Uint64(0x8000_0000_0000_0000), "int64"))
  {
  }

  /** `int64` seconds near the top of the range convert to timestamps that
      sort before the epoch, because `time.Unix` wraps. */
  lemma TimestampFromLargestInt64SortsFirst(lib: Library)
    ensures Convert(lib, TimestampWithTimezone, Int64(MaxInt64)).Ok?
    ensures Convert(lib, TimestampWithTimezone, Int64(0)).Ok?
    ensures Compare(TimestampWithTimezone,
                    Convert(lib, TimestampWithTimezone, Int64(MaxInt64)).value,
                    Convert(lib, TimestampWithTimezone, Int64(0)).value) == -1
  {
    UnixTimeWrapsAtTop();
  }

  // ---------------------------------------------------- Fail-fast helper

  /** `MustConvert`: conversion where failure would be a programming error
      (the source prints and panics); callers must pass a convertible value. */
  method MustConvert(lib: Library, t: SqlType, v: Value) returns (c: Value)
    requires Convert(lib, t, v).Ok?
    ensures Check(t, c)
    ensures Convert(lib, t, v) == Ok(c)
  {
    var r := Convert(lib, t, v);
    c := r.value;
  }

  /** `booleanType.SQL`: the single byte '0' or '1' sent on the wire. */
  method BooleanSQL(lib: Library, v: Value) returns (b: array<U8>)
    requires Convert(lib, Boolean, v).Ok?
    ensures fresh(b) && b.Length == 1
    ensures b[0] == (if v.b then '1' as int else '0' as int)
  {
    b := new U8[1]['0' as int];
    var c := MustConvert(lib, Boolean, v);
    if c.b {
      b[0] := '1' as int;
    }
  }
}
