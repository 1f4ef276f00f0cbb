# RapidoDB: the RQL driver and the TTL item, in Dafny

RapidoDB is a network-accessible key/value database queried with RQL, a small
statement language (`SET key value [ttl];`, `GET k1 k2 …;`, `DEL k1 …;`).
This project models two parts of it and proves properties of them:

- **The RQL driver** (`rql/driver.go`). `Operate` parses a request. On a parse
  error it writes the error's message and stops. Otherwise it runs the
  statements in order: a SET calls the DB's `Set` with the TTL converted to a
  duration and writes `Success`; a GET looks each key up and writes the
  rendered list of the values found; every other statement type is skipped.
  Modules `RqlAst` (the statements, `Render` for Go's `%v`), `RqlSpec` (what
  a run computes, as functions of the store and the statements, and lemmas
  about them) and `RqlDriver` (the imperative driver: classes `MapDb`,
  `Writer`, `Driver`, whose loops are proved against `RqlSpec`).
- **The stored item** (`db/item.go`). `newItem` stamps an expiry instant and
  `isExpired` tests it. Module `DbItem`, pure functions with the clock as a
  parameter.

Module `MachineInts` writes out Go's `int64`, `uint` and two's-complement
wrap-around.

Behaviour of the code that the model keeps as written:

- A parse error is written as the bare message, with no prefix and no newline.
- A GET drops keys that are not found. The rendered list is not aligned with
  the request, and its length can be smaller than the number of keys.
- DEL statements are parsed, but the driver's switch has no case for them, so
  they write nothing and change nothing.
- `convertToDuration` multiplies by 1000. A Go duration counts nanoseconds, so
  a TTL of `t` becomes `t` microseconds, not the `t` milliseconds its comment
  describes (`RqlSpec.ConvertYieldsMicroseconds`). The product wraps in 64-bit
  arithmetic, so a huge TTL becomes a negative duration
  (`RqlSpec.ConvertWrapsNegative`).
- `newItem` stores the expiry in Unix nanoseconds. `isExpired` compares it with
  the clock in Unix seconds. See "## Findings".

The parser is a parameter of `Operate`: any total function from the source
text to an AST or an error message. The DB behind the driver's two-method
interface is the class `MapDb`, a map from key to value. Its ghost field
`calls` records every call the driver makes on it. The output stream is the
class `Writer`, the sequence of chunks written. The wall clock is a parameter
`now` in nanoseconds since the Unix epoch. The `NeverExpire` sentinel is a
parameter `never`, so the item facts hold for every value of the sentinel.

## Model

| member | source | states |
|---|---|---|
| `MachineInts.WrapInt64` | rql/driver.go:97 | the result is the unique int64 congruent to its input modulo 2^64, and equals the input when the input is in range (Go's wrapping uint product reinterpreted as a Duration) |
| `MachineInts.WrapInt64Unique` | rql/driver.go:97 | any int64 congruent to `x` modulo 2^64 is `WrapInt64(x)` |
| `DbItem.UnixSeconds` | db/item.go:30 | `Time.Unix()` is the whole seconds, rounded down: `s*10^9 <= now < (s+1)*10^9` |
| `DbItem.NewItem` | db/item.go:12-22 | data is stored unchanged; the sentinel duration gives the sentinel expiry; any other duration gives `now + expireIn` nanoseconds, wrapped to int64 (exactly the sum when it fits) |
| `DbItem.IsExpired` | db/item.go:25-31 | `isExpired` as written: an item is expired iff its expiry is not the sentinel and the clock, in nanoseconds, has reached `expireAt + 1` SECONDS, so a nanosecond expiry is read as a count of seconds |
| `DbItem.NeverExpireIsNeverExpired` | db/item.go:26-28 | an item whose expiry is the sentinel is not expired at any time |
| `DbItem.NotExpiredUntilSecondsPassNanos` | db/item.go:13-30 | an item made at `N` ns with a TTL `d >= 0` (not the sentinel, `N + d` within int64) is not expired at any `T` with `T / 10^9 <= N + d` |
| `DbItem.PracticallyNeverExpired` | db/item.go:13-30 | an item made more than 9.22 s after the epoch, with a non-negative TTL, is not expired at any clock reading below 2^63 ns |
| `DbItem.AsWrittenIgnoresElapsedTtl` | db/item.go:15-30 | counterexample: an item made in September 2020 with a 1 s TTL is not expired an hour later, while the nanosecond test reports it expired |
| `DbItem.IsExpiredNanos` | db/item.go:25-31 | corrected test: never reports the sentinel expired, and from the epoch on it reports an item expired whenever `isExpired` as written does (never later) |
| `DbItem.NanosExpiryHonoursTtl` | db/item.go:25-31 | corrected test (nanoseconds on both sides): a sentinel item never expires, and any other item made at `N` with TTL `d` is expired at `T` iff `T - N > d` |
| `RqlAst.Join` | rql/driver.go:103-105 | no values join to the empty string and one value joins to itself; with `JoinAppend`, neighbouring values are separated by exactly one space |
| `RqlAst.JoinAppend` | rql/driver.go:103-105 | joining two non-empty lists is the first join, one space, then the second join |
| `RqlAst.Render` | rql/driver.go:103-105 | `%v` of a list is bracketed by `[` and `]`, with the space-separated values (`JoinAppend`) between |
| `RqlAst.RenderPair` | rql/driver.go:103-105 | two values `x`, `y` render as `[x y]` |
| `RqlAst.RenderEmptyValueLooksLikeNone` | rql/driver.go:62-73 | a GET that finds one empty string writes `[]`, the same line as a GET that finds nothing |
| `RqlSpec.ConvertToDuration` | rql/driver.go:96-98 | the duration is congruent to `t * 1000` modulo 2^64, and equals `t * 1000` when that is below 2^63 |
| `RqlSpec.ConvertZero` | rql/driver.go:96-98 | a TTL of 0 (none given) converts to a zero duration |
| `RqlSpec.ConvertMonotone` | rql/driver.go:96-98 | the conversion is monotone below the overflow point |
| `RqlSpec.ConvertYieldsMicroseconds` | rql/driver.go:92-98 | a TTL of 234 becomes 234000 ns (234 µs), a thousandth of 234 ms |
| `RqlSpec.ConvertWrapsNegative` | rql/driver.go:96-98 | a TTL of 9223372036854776 wraps to a negative duration |
| `RqlSpec.Found` | rql/driver.go:62-73 | GET's values number at most the keys; exactly as many iff every key is found; none when no key is found |
| `RqlSpec.FoundAppend` | rql/driver.go:65-70 | the values found for `a + b` are those for `a` followed by those for `b` |
| `RqlSpec.FoundCons` | rql/driver.go:65-70 | the first key contributes its value if found, and nothing otherwise, ahead of the rest |
| `RqlSpec.Present` | rql/driver.go:65-69 | the keys whose lookup succeeds: exactly the requested keys that are in the store |
| `RqlSpec.LookedUpAppend` | rql/driver.go:65-70 | position-by-position lookup results concatenate |
| `RqlSpec.FoundIsLookupOfPresent` | rql/driver.go:62-73 | GET's list is the stored values of exactly the found keys, in request order |
| `RqlSpec.FoundAllPresent` | rql/driver.go:62-73 | when every key is found, the list has one value per key, aligned with the request |
| `RqlSpec.FoundDropsMissing` | rql/driver.go:65-70 | a key that is not found is dropped: the answer equals that of the request without it |
| `RqlSpec.GetCalls` | rql/driver.go:65-66 | one lookup per requested key; with `GetCallsAt`, in request order |
| `RqlSpec.GetCallsAt` | rql/driver.go:65-66 | the i-th lookup a GET makes is of its i-th key |
| `RqlSpec.Chunk` | rql/driver.go:47-52 | the switch writes exactly one chunk for a SET or GET statement and none for any other type |
| `RqlSpec.Step` | rql/driver.go:47-52 | a SET stores its value under its key and adds no other key; any other statement leaves the store as it is |
| `RqlSpec.StmtCalls` | rql/driver.go:47-52 | a SET makes one DB call, a GET one per key, any other statement none |
| `RqlSpec.After` | rql/driver.go:46-53 | running statements in order never removes a key; `AfterAppend`, `OnlySetWrites` and `LastSetWins` state the rest |
| `RqlSpec.Outputs` | rql/driver.go:46-53 | at most one chunk per statement; `OutputsCount` and `ChunkOfStatement` give their number and order |
| `RqlSpec.Calls` | rql/driver.go:46-53 | the calls of a request are those of its statements in order (`CallsAppend`); `OneSetCallPerSet` counts the `Set` calls |
| `RqlSpec.AfterAppend` | rql/driver.go:46-53 | running `a` then `b` leaves the same store as running `a + b` |
| `RqlSpec.OutputsAppend` | rql/driver.go:46-53 | the chunks of `a + b` are those of `a`, then those of `b` run from the store `a` leaves |
| `RqlSpec.CallsAppend` | rql/driver.go:46-53 | the DB calls of `a + b` are those of `a`, then those of `b` |
| `RqlSpec.RunUnfold` | rql/driver.go:46-53 | one more statement adds its own chunk, store step and calls |
| `RqlSpec.RunStep` | rql/driver.go:46-53 | a stream, store and call log that match the first `i` statements match the first `i + 1` once statement `i` is applied |
| `RqlSpec.RespondingAppend` | rql/driver.go:47-52 | the number of SET and GET statements adds up over concatenation |
| `RqlSpec.OutputsCount` | rql/driver.go:46-53 | a parsed request writes exactly one chunk per SET or GET statement |
| `RqlSpec.ChunkOfStatement` | rql/driver.go:46-53 | the chunk of the i-th statement sits right after the chunks of the statements before it, so chunks come in statement order |
| `RqlSpec.UnhandledStatementsInert` | rql/driver.go:47-52 | statements of other types (DEL) write nothing, leave the store unchanged and make no DB call |
| `RqlSpec.OnlySetWrites` | rql/driver.go:47-52 | a key that no SET names keeps its entry, or its absence |
| `RqlSpec.LastSetWins` | rql/driver.go:56-60 | after a request, a key holds the value of the last SET on it |
| `RqlSpec.SetCallCountAppend` | rql/driver.go:57 | `Set` calls add up over concatenated call logs |
| `RqlSpec.GetCallsNoSet` | rql/driver.go:62-73 | a GET makes no `Set` call |
| `RqlSpec.OneSetCallPerSet` | rql/driver.go:46-60 | the number of `Set` calls equals the number of SET statements |
| `RqlSpec.SetThenGet` | rql/driver.go:46-73 | `SET k v; GET k;` writes `Success`, then `[v]` |
| `RqlDriver.MapDb.Set` | rql/driver.go:12 | the DB's `Set` stores the value under the key and is recorded once |
| `RqlDriver.MapDb.Get` | rql/driver.go:13 | the DB's `Get` finds a key iff it is stored, returns its value, and changes no entry |
| `RqlDriver.Writer.Write` | rql/driver.go:80 | a write appends one chunk |
| `RqlDriver.ErrRes` | rql/driver.go:79-81 | `errRes` appends the message as it is |
| `RqlDriver.Res` | rql/driver.go:86-88 | `res` appends the response as it is |
| `RqlDriver.Driver.constructor` | rql/driver.go:28-30 | `New` makes a driver over the given DB |
| `RqlDriver.Driver.Operate` | rql/driver.go:38-54 | on a parse error, exactly one chunk (the message) and no DB call; otherwise the chunks, store and calls of running the statements in order |
| `RqlDriver.Driver.Execute` | rql/driver.go:47-52 | the switch: a statement adds its own chunk, store step and calls |
| `RqlDriver.Driver.Set` | rql/driver.go:56-60 | one `Set(key, val, convertToDuration(exp))` call, then `Success` |
| `RqlDriver.Driver.Get` | rql/driver.go:62-73 | only lookups, one per key in order; the answer is the rendered values found |

## Findings

| source | as written | input that shows it | evidently intended | confidence | as-written member | corrected member |
|---|---|---|---|---|---|---|
| db/item.go:30 | the expiry, kept in Unix nanoseconds (db/item.go:15), is compared with `time.Now().Unix()`, in seconds | item made at 1600000000000000000 ns with a 1 s TTL, checked with `isExpired` one hour later: not expired | compare with the clock in nanoseconds, so the item expires once its TTL has passed | high; not executed | `DbItem.AsWrittenIgnoresElapsedTtl` | `DbItem.NanosExpiryHonoursTtl` |

## Left out

- The RQL lexer and parser: their source is not part of this model. `Operate` takes the parser as a function parameter, and the statement shape follows rql/parser_test.go:22-28, 82-85 and 97-100.
- Statement types beyond SET, GET and DEL (an AUTH statement, for one): they do not appear in the driver or its tests. The driver would skip them like DEL.
- The real store (`store.Store`) and the security layer (authentication, user records, expiry on read) are not part of this model. `MapDb` is a plain map. It keeps the duration passed to `Set` only in its call log, so TTL expiry is not seen through the driver.
- The DB interface is modelled by the one concrete class `MapDb`. A DB whose lookups depend on time is not covered.
- `fmt.Sprintf("%v", …)` is modelled only for lists of strings, the one value type the driver stores. Other payload types are left out.
- `io.Writer`: the bytes are modelled as one string per write. Errors returned by `Write` are ignored by the source and are not modelled.
- The wall clock (`time.Now`) is the parameter `now`. `time.Time` values whose nanosecond count overflows `Time.Add` are left out.
- Go's `uint` is taken to be 64 bits wide, as on 64-bit platforms.
- The TCP server, per-connection goroutines, logging and process setup of DB/db.go, and all concurrency.
- `DbItem.NanosExpiryHonoursTtl`: excludes an expiry that happens to equal the sentinel value, which the source would also treat as never expiring.
