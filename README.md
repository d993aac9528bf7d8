# go-mysql-server `sql` value types, in Dafny

This project models the closed value-type system of the `sql` package of
go-mysql-server (`sql/type.go`). It proves properties of the model.

- **The type catalog.** The built-in descriptors are Null, Integer (int32), BigInteger (int64), String, Boolean, Blob and TimestampWithTimezone.
- **Per-type operations.** Each descriptor has `Check` (is a value already canonical?), `Convert` (normalise a dynamic value or fail), `Compare` (a three-way order on canonical values) and `Default` (the zero value).
- **Column and schema.** `Column.Check` validates one value. `Schema.CheckRow` validates one row position by position.
- **The fail-fast helper.** `MustConvert` becomes a method whose precondition is that conversion succeeds.
- **Boolean wire byte.** `booleanType.SQL` chooses the single byte `'0'` or `'1'`.

Go's `interface{}` arguments are the datatype `GoValues.Value`. It has one variant per dynamic kind the code switches on:
- `nil`
- `int`, `int8` … `int64`
- `uint`, `uint8` … `uint64` (machine `int` and `uint` are 64 bits wide)
- `string`
- `bool`
- `[]byte`
- `time.Time`
- a value implementing `fmt.Stringer`, which carries the `String()` text and the type name
- `Other`, for any other value

Go strings are byte sequences, so `[]byte(s)`, `strings.Compare` and `bytes.Compare` are all modelled on `seq<U8>`. `time.Time` also implements `fmt.Stringer`, so String and Blob conversion accept it through its `String()` method.

A few library calls are not specified here. They are fields of a `Library` value that each conversion takes as a parameter:
- `strconv.Atoi`, as a partial function into int64;
- `time.Parse` with the package's timestamp layout;
- `time.Time.String()`.

A timestamp is stored as Go stores a `time.Time` that has no monotonic clock reading: int64 seconds since January 1 of year 1 UTC, nanoseconds within the second, and a location. `Before` and `After` compare the seconds and then the nanoseconds, and ignore the location. `time.Unix(sec, 0)` adds the seconds between year 1 and the Unix epoch to `sec` in int64 arithmetic, the same way Go does. That sum wraps for the largest `sec`.

The model is split into four modules:
- `GoValues`: dynamic values, integer widths, Go's unchecked integer casts, and `reflect`'s type name.
- `ByteOrder`: lexicographic byte order.
- `SqlTypes`: the descriptors and `MustConvert`.
- `Schemas`: columns and row validation.

In four places the code does not do what one would expect of a type system like this one, and the model follows the code:
- Go's `int32(…)` conversion of a machine `int` (`sql/type.go:427`) and of an `Atoi` result (`sql/type.go:468`) is not range-checked. It wraps around (`GoValues.WrapInt32`) instead of failing with overflow.
- `int64(…)` of a `uint` (`sql/type.go:503`) also wraps (`GoValues.WrapInt64`). So a `uint` at or above 2^63 converts to a negative BigInteger, while a `uint64` of the same value overflows.
- The timestamp conversion's integer fallback first applies `BigInteger.Check`, which admits only `int64`. So every other integer width is refused with `ErrInvalidType` (`sql/type.go:607-617`), not interpreted as epoch seconds.
- An `int64` near the top of its range converts to a timestamp that sorts before the epoch, because `time.Unix` wraps (`SqlTypes.TimestampFromLargestInt64SortsFirst`).

## Model

| member | source | states |
|---|---|---|
| `GoValues.WrapInt32` | sql/type.go:426-427 | Go's `int32(x)`: the unique int32 congruent to x modulo 2^32, equal to x when x is in range |
| `GoValues.WrapInt64` | sql/type.go:502-503 | Go's `int64(u)` of a `uint` (and an int64 sum that overflows): the unique int64 congruent to u modulo 2^64, equal to u when u fits in an int64 |
| `GoValues.UnixTime` | sql/type.go:617 | `time.Unix(sec, 0)` has no nanoseconds and the local zone. Its stored seconds are congruent to `sec` plus the year-1-to-epoch offset modulo 2^64, and equal to that sum when the sum fits in an int64 |
| `GoValues.UnixTimeMonotone` | sql/type.go:617 | where the sum does not wrap, `time.Unix` preserves the order of seconds under `Before` |
| `GoValues.UnixTimeWrapsAtTop` | sql/type.go:617 | `time.Unix` of the largest int64 is `Before` `time.Unix(0, 0)` |
| `GoValues.ReflectTypeString` | sql/type.go:31 | `reflect.TypeOf(v).String()` fails (panics) exactly for a nil value, and otherwise gives the value's type name (`GoValues.TypeName`: the predeclared name for the kinds the code switches on, the carried name for any other type) |
| `ByteOrder.LexCompare` | sql/type.go:413-417 | `strings.Compare`/`bytes.Compare` return -1, 0 or 1, and 0 exactly on equal sequences |
| `ByteOrder.LexCompareIsLexLess` | sql/type.go:670-674 | the comparison returns -1 exactly when the first sequence is lexicographically smaller: after a common prefix, it ends first or has the smaller byte |
| `ByteOrder.LexLessWhenMinusOne` | sql/type.go:413-417 | a result of -1 comes with a witness position where the two sequences first differ |
| `ByteOrder.MinusOneWhenLexLess` | sql/type.go:413-417 | a common prefix followed by an end or a smaller byte yields -1 |
| `ByteOrder.LexCompareAntisymmetric` | sql/type.go:413-417 | swapping the sequences negates the result |
| `ByteOrder.LexCompareTransitive` | sql/type.go:670-674 | the byte order is transitive |
| `SqlTypes.NameInjective` | sql/type.go:82-84 | `SqlTypes.Name` models every descriptor's `Name()` (here and at lines 128-130, 172-174, 217-219, 264-266, 308-310, 636-638), and each descriptor has a distinct name |
| `SqlTypes.Check` | sql/type.go:419-422 | stands for every descriptor's `Check` and the helpers behind it. These are `checkInt32` here, `nullType.Check` at 98-100, `checkString` at 397-400, `checkInt64` at 485-488, `checkBoolean` at 539-542, `checkTimestamp` at 590-593 and `blobType.Check` at 652-655. A value passes exactly when its dynamic Go type is the descriptor's canonical one (int32, int64, string, bool, []uint8, time.Time, or nil for Null). A `Stringer` or any other type never passes |
| `SqlTypes.ConvertToInt32` | sql/type.go:424-472 | returns an int32 always. Keeps an int32 unchanged. int8, int16, int64, uint, uint8, uint16, uint32 and uint64 succeed exactly when the value lies in [-2^31, 2^31-1], keep the value, and otherwise fail with an int32 overflow. `int` wraps. Text goes through Atoi, and its result wraps; Atoi errors report the text. Anything else is ErrInvalidType |
| `SqlTypes.CompareInt32` | sql/type.go:474-483 | returns -1, 0 or 1; 0 exactly on equal values; -1 exactly when the first is smaller |
| `SqlTypes.ConvertToInt64` | sql/type.go:490-526 | returns an int64 always. Keeps an int64 unchanged. A uint64 fails with overflow exactly when it is ≥ 2^63. Every other width keeps its value. `uint` wraps. Text goes through Atoi. Anything else is ErrInvalidType |
| `SqlTypes.CompareInt64` | sql/type.go:528-537 | returns -1, 0 or 1; 0 exactly on equal values; -1 exactly when the first is smaller |
| `SqlTypes.ConvertToString` | sql/type.go:402-411 | succeeds exactly on a string, which is kept, or a `fmt.Stringer`, which becomes its `String()` text. Every failure is ErrInvalidType |
| `SqlTypes.CompareString` | sql/type.go:413-417 | returns -1, 0 or 1; 0 exactly on equal strings; -1 exactly when the first is lexicographically smaller |
| `SqlTypes.ConvertToBool` | sql/type.go:544-551 | succeeds, unchanged, exactly on a boolean; everything else is ErrInvalidType |
| `SqlTypes.CompareBool` | sql/type.go:553-563 | returns -1, 0 or 1; 0 exactly on equal booleans; -1 exactly for (false, true) |
| `SqlTypes.ConvertToTimestamp` | sql/type.go:597-619 | a timestamp is kept. Text is parsed, and a parse failure reports the text. Of the integers only int64 succeeds, as its Unix time in seconds. Everything else is ErrInvalidType |
| `SqlTypes.CompareTimestamp` | sql/type.go:621-630 | returns -1, 0 or 1. It returns 0 exactly on the same second and nanosecond, whatever the location. It returns -1 exactly when the first is `Before` the second, and 1 exactly when the second is `Before` the first |
| `SqlTypes.TimestampFromLargestInt64SortsFirst` | sql/type.go:617 | the timestamp converted from the largest int64 compares -1 against the one converted from 0 |
| `SqlTypes.ConvertToBlob` | sql/type.go:657-668 | succeeds exactly on bytes (kept), a string (its bytes) or a `fmt.Stringer` (the bytes of its text); every failure is ErrInvalidType |
| `SqlTypes.CompareBlob` | sql/type.go:670-674 | returns -1, 0 or 1; 0 exactly on equal byte slices; -1 exactly when the first is lexicographically smaller |
| `SqlTypes.Convert` | sql/type.go:102-108 | for every descriptor, a value its Check accepts converts to itself, and every successful result passes Check. Null converts nil to nil and rejects every non-nil value with a "not nil" error |
| `SqlTypes.Compare` | sql/type.go:110-114 | returns -1, 0 or 1. Null always returns 0. A timestamp is 0 exactly on equal instants. Every other type is 0 exactly on equal values |
| `SqlTypes.Default` | sql/type.go:120-122 | every descriptor's zero value, from `Null.Default` here to `Blob.Default` at line 684, is canonical for it |
| `SqlTypes.ConvertIdempotent` | sql/type.go:148-150 | converting an already converted value changes nothing |
| `SqlTypes.CompareAntisymmetric` | sql/type.go:152-154 | for every descriptor, swapping the arguments negates the comparison |
| `SqlTypes.CompareTransitive` | sql/type.go:196-198 | for every descriptor, the comparison is transitive |
| `SqlTypes.UncheckedCastsWrap` | sql/type.go:502-503 | `int(2^31)` converts to Integer -2^31, while `int64(2^31)` overflows. `uint(2^63)` converts to BigInteger -2^63, while `uint64(2^63)` overflows |
| `SqlTypes.MustConvert` | sql/type.go:688-696 | requires conversion to succeed, and returns its canonical result |
| `SqlTypes.BooleanSQL` | sql/type.go:316-323 | the wire form of a boolean is a new one-byte array holding '1' for true and '0' for false |
| `Schemas.ColumnCheck` | sql/type.go:56-62 | nil passes exactly when the column is nullable. Any other value passes exactly when the column type's Check accepts it. An accepted non-nil value converts to itself under any library behaviour. A Null column accepts only nil, and only if nullable |
| `Schemas.FirstRejectedUnique` | sql/type.go:25-35 | the first rejected position of a row is unique |
| `Schemas.CheckRow` | sql/type.go:18-38 | a length mismatch fails with the expected and actual counts. Otherwise the row passes exactly when every position passes its column's Check, and otherwise fails at the first rejected position, naming that value's type (nil is named "<nil>") |
| `Schemas.CheckRowAsWritten` | sql/type.go:18-38 | the same as CheckRow, except that it panics exactly when the first rejected value is nil |
| `Schemas.NilInNotNullColumn` | sql/type.go:31-33 | for a nil value in a non-nullable Integer column, the code as written panics, and the corrected check reports position 0 with type "<nil>" |

## Left out

- The Float descriptor and its helpers (`sql/type.go:353-395`, `565-588`): floating point. Their Check, Convert and Compare also use float32, while SQL, Native and Default use float64.
- `Type()`, and `SQL()` for every descriptor but Boolean: these build vitess wire values (`sqltypes.NewInt32`, `NewInt64`, `MakeTrusted`) through a library that is not part of this model.
- `Native()`: a cast into the `database/sql/driver` value interface.
- `InternalType()`: a `reflect.Kind` tag that no modelled operation uses.
- `strconv.Atoi`, `time.Parse` with the layout "2006-01-02 15:04:05.000000" and `time.Time.String()` are library behaviour. They are parameters (`Library`), so the model proves nothing about which texts parse.
- The timestamp descriptor's `SQL()`, and with it `time.Format`, is left out along with the other wire encodings.
- The `compare*` helpers and `blobType.Compare` type-assert their arguments (for example `a.(int32)` at sql/type.go:475-476). They panic on a value that is not canonical. The model states this as the precondition `Comparable`, or `CheckInt32` and its siblings, and does not model the panic.
- A `time.Time` that carries a monotonic clock reading, as values from `time.Now()` do, is compared by `Before` and `After` on that reading. The model's timestamps have no monotonic reading. The values the code itself builds (`time.Parse`, `time.Unix`, `time.Time{}`) have none either.
- `Schema` is a slice of `*Column` (sql/type.go:16), so an entry can be a nil pointer, and `Column.Check` on it panics. The model's `Schema` is a sequence of column values and cannot express a nil entry.
- `fmt.Errorf` message text: each error carries the data its message prints (the value, the target width, the text, the position, the type name), not the formatted string.
- `MustConvert`'s print and panic are I/O and abort. The model states them as the precondition that conversion succeeds.
- A column's default value is not checked against its type, because the code does not check it either.
- `Stringer` values: whether a Go type implements `fmt.Stringer` is a property of its method set. The model takes it as given by the `Stringer` variant, or by `time.Time`.

## Findings

| source | as written | input that shows it | evidently intended | confidence | as-written member | corrected member |
|---|---|---|---|---|---|---|
| sql/type.go:31 | when the value a column rejects is nil, `reflect.TypeOf(v)` is a nil `reflect.Type`, and calling `String()` on it panics | a schema with one non-nullable Integer column and the row `[nil]` | `CheckRow` returns the error "value at 0 has unexpected type", naming the nil type, as it does for every other rejected value | high; not executed | `Schemas.CheckRowAsWritten` (with `Schemas.NilInNotNullColumn`) | `Schemas.CheckRow` |
