/** Go's dynamic values as they reach the `sql` package through `interface{}`:
    the fixed-width integers, strings, booleans, byte slices, `time.Time`,
    values that implement `fmt.Stringer`, and everything else.  Machine `int`
    and `uint` are taken as 64 bits wide.  Go strings are byte sequences. */
module GoValues {

  datatype Option<+T> = None | Some(value: T)

  datatype Result<+T, +E> = Ok(value: T) | Err(error: E)

  const MinInt32: int := -0x8000_0000
  const MaxInt32: int := 0x7FFF_FFFF
  const MinInt64: int := -0x8000_0000_0000_0000
  const MaxInt64: int := 0x7FFF_FFFF_FFFF_FFFF

  type I8 = x: int | -0x80 <= x < 0x80
  type I16 = x: int | -0x8000 <= x < 0x8000
  type I32 = x: int | MinInt32 <= x <= MaxInt32
  type I64 = x: int | MinInt64 <= x <= MaxInt64
  type U8 = x: int | 0 <= x < 0x100
  type U16 = x: int | 0 <= x < 0x1_0000
  type U32 = x: int | 0 <= x < 0x1_0000_0000
  type U64 = x: int | 0 <= x < 0x1_0000_0000_0000_0000

  /** A Go string: an immutable sequence of bytes. */
  type GoString = seq<U8>

  /** Where a `time.Time` is displayed; ordering ignores it. */
  datatype Location = UTC | Local | Zone(name: string)

  const NanosPerSecond: int := 1_000_000_000

  type Nanos = x: int | 0 <= x < NanosPerSecond

  /** A `time.Time` without a monotonic clock reading, as Go stores it:
      seconds since January 1 of year 1, 00:00:00 UTC (an int64), the
      nanoseconds within that second, and a location. */
  datatype Timestamp = Timestamp(sec: I64, nsec: Nanos, loc: Location)

  /** Seconds from January 1 of year 1 to the Unix epoch (Go's `unixToInternal`). */
  const UnixToInternal: int := 62_135_596_800

  /** `time.Time{}`, the zero time: January 1 of year 1, 00:00:00 UTC. */
  const ZeroTime: Timestamp := Timestamp(0, 0, UTC)

  /** `t.Before(u)`: the earlier second, or the same second and fewer nanoseconds. */
  predicate Before(t: Timestamp, u: Timestamp) {
    t.sec < u.sec || (t.sec == u.sec && t.nsec < u.nsec)
  }

  /** Neither is before the other: the same second and nanosecond. */
  predicate SameInstant(t: Timestamp, u: Timestamp) {
    t.sec == u.sec && t.nsec == u.nsec
  }

  /** `time.Unix(sec, 0)`: Go adds `UnixToInternal` to `sec` in int64
      arithmetic, which wraps for the largest `sec`; the result is in the
      local zone. */
  function UnixTime(sec: I64): (t: Timestamp)
    ensures t.nsec == 0 && t.loc == Local
    ensures (t.sec - (sec + UnixToInternal)) % 0x1_0000_0000_0000_0000 == 0
    ensures sec <= MaxInt64 - UnixToInternal ==> t.sec == sec + UnixToInternal
  {
    Timestamp(WrapInt64(sec + UnixToInternal), 0, Local)
  }

  /** Where the addition does not wrap, `time.Unix` preserves the order of seconds. */
  lemma UnixTimeMonotone(s1: I64, s2: I64)
    requires s1 < s2 <= MaxInt64 - UnixToInternal
    ensures Before(UnixTime(s1), UnixTime(s2))
  {
  }

  /** At the top of the int64 range the addition wraps, and the latest
      second sorts before the epoch. */
  lemma UnixTimeWrapsAtTop()
    ensures Before(UnixTime(MaxInt64), UnixTime(0))
  {
  }

  /** A dynamic Go value. `Stringer` is a value of some other named type that
      has a `String()` method (carrying that method's result); `Other` is any
      other value of a type the package does not switch on. */
  datatype Value =
    | Nil
    | Int(i: I64)
    | Int8(i8: I8)
    | Int16(i16: I16)
    | Int32(i32: I32)
    | Int64(i64: I64)
    | Uint(u: U64)
    | Uint8(u8: U8)
    | Uint16(u16: U16)
    | Uint32(u32: U32)
    | Uint64(u64: U64)
    | Str(s: GoString)
    | Stringer(typeName: string, text: GoString)
    | Bool(b: bool)
    | Bytes(bytes: seq<U8>)
    | Time(t: Timestamp)
    | Other(otherType: string)

  /** The library behaviour the package calls but does not define. */
  datatype Library = Library(
    /** `strconv.Atoi`: `None` where Atoi returns an error. */
    atoi: GoString -> Option<I64>,
    /** `time.Parse` with the layout "2006-01-02 15:04:05.000000". */
    parseTimestamp: GoString -> Option<Timestamp>,
    /** `time.Time.String()`: `time.Time` is itself a `fmt.Stringer`. */
    timeString: Timestamp -> GoString)

  predicate IsInteger(v: Value) {
    v.Int? || v.Int8? || v.Int16? || v.Int32? || v.Int64?
    || v.Uint? || v.Uint8? || v.Uint16? || v.Uint32? || v.Uint64?
  }

  /** The mathematical value of an integer of any width. */
  function IntegerValue(v: Value): int
    requires IsInteger(v)
  {
    match v
    case Int(x) => x
    case Int8(x) => x
    case Int16(x) => x
    case Int32(x) => x
    case Int64(x) => x
    case Uint(x) => x
    case Uint8(x) => x
    case Uint16(x) => x
    case Uint32(x) => x
    case Uint64(x) => x
  }

  /** Does `v` implement `fmt.Stringer`?  Of the kinds modelled, `time.Time` does too. */
  predicate IsStringer(v: Value) {
    v.Stringer? || v.Time?
  }

  /** The result of calling `String()` on a `fmt.Stringer`. */
  function StringOf(lib: Library, v: Value): GoString
    requires IsStringer(v)
  {
    if v.Stringer? then v.text else lib.timeString(v.t)
  }

  /** Go's conversion `int32(x)` from a wider integer: keeps the low 32 bits,
      read as two's complement.  It is not range-checked. */
  function WrapInt32(x: int): (r: I32)
    ensures (x - r) % 0x1_0000_0000 == 0
    ensures MinInt32 <= x <= MaxInt32 ==> r == x
  {
    var m := x % 0x1_0000_0000;
    if m <= MaxInt32 then m else m - 0x1_0000_0000
  }

  /** Go's 64-bit wrap-around, as in the conversion `int64(x)` of a `uint` or
      an int64 addition that overflows: keeps the low 64 bits, read as two's
      complement.  It is not range-checked. */
  function WrapInt64(x: int): (r: I64)
    ensures (x - r) % 0x1_0000_0000_0000_0000 == 0
    ensures MinInt64 <= x <= MaxInt64 ==> r == x
  {
    var m := x % 0x1_0000_0000_0000_0000;
    if m <= MaxInt64 then m else m - 0x1_0000_0000_0000_0000
  }

  /** `reflect.TypeOf(v).String()` as written: `reflect.TypeOf(nil)` is a nil
      `reflect.Type`, and calling `String()` on it panics (`None`). */
  function ReflectTypeString(v: Value): (r: Option<string>)
    ensures r.None? <==> v.Nil?
    ensures r.Some? ==> r.value == TypeName(v)
  {
    match v
    case Nil => None
    case _ => Some(TypeName(v))
  }

  /** The name of a value's dynamic type, as `fmt`'s `%T` prints it
      ("<nil>" for a nil interface). */
  function TypeName(v: Value): string {
    match v
    case Nil => "<nil>"
    case Int(_) => "int"
    case Int8(_) => "int8"
    case Int16(_) => "int16"
    case Int32(_) => "int32"
    case Int64(_) => "int64"
    case Uint(_) => "uint"
    case Uint8(_) => "uint8"
    case Uint16(_) => "uint16"
    case Uint32(_) => "uint32"
    case Uint64(_) => "uint64"
    case Str(_) => "string"
    case Stringer(name, _) => name
    case Bool(_) => "bool"
    case Bytes(_) => "[]uint8"
    case Time(_) => "time.Time"
    case Other(name) => name
  }
}
