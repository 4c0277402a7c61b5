# gopherload core in Dafny

A model of the sequential logic at the heart of gopherload, an HTTP load generator
written in Go, with proofs of what that logic promises. There are three parts:

- **Request sources** (`requestsource.dfy`, module `RequestSource`). These choose which
  inner source produces the next request:
  - the cumulative weight table (`makeCdf`) and its binary search (`selectCdf`);
  - weighted-random choice, with a uniform fallback when no weights are set;
  - round-robin over an int64 counter;
  - an explicitly selectable index.

  Inner sources are opaque: each `NewRequest` returns the index of the source it
  delegates to. Go panics become `Err` values.
- **The profiler** (`target.dfy`, module `Target`). This covers:
  - the host:port defaulting of `Target.Profile`. Port 80 is the `http` default and 443
    the `https` default, after sections 4.2.1 and 4.2.2 of RFC 9110;
  - the byte-counting `writeCounter` and `readCounter`, with the first-byte timestamp;
  - the phase structure of `Profile`: dial, TLS handshake, request write, header parse
    and body drain. Each phase is an abstract outcome paired with the clock reading
    taken when it returns.
- **The throttle** (`throttle.dfy`, module `Throttling`). This is the bucket accounting
  of `Throttle.loop`. Ticks, rate changes, close and output receives are explicit
  events, and the one-slot output channel is an optional slot. The loop's state is
  the pure `Loop` value. The `Throttle` class holds the same fields and its methods
  are proved against the pure step functions.

`wrappers.dfy` holds the `Option` and `Result` types.

Where the code and its documentation disagree, the model follows the code:

- The comment on `SetWeights` (requestsource.go:62) says it panics when the weight list
  and `Sources` differ in length. The code never compares them. The model's
  `SetWeights` accepts any list. `NewRequest` then fails with `IndexOutOfRange` when the
  draw selects an index beyond `Sources`, and sources beyond the list are never chosen.
- A nil weight list disables weighting. A non-nil empty list builds an empty table
  with total 0, after which every `NewRequest` panics in `intn`.
- The throttle's send step evaluates `<-src` before its `select` picks a branch
  (throttle.go:53). When at least one delay is owed, an input item is therefore always
  consumed. If the output slot is occupied, that item is discarded without charging
  the bucket (`Dropped`). The item is not left in the input.

## Model

| member | source | states |
|---|---|---|
| `RequestSource.Wrap64` | requestsource.go:24 | the int64 counter wraps from MaxInt64 to MinInt64 and stays within int64 |
| `RequestSource.Rem` | requestsource.go:25 | Go's `%` keeps the dividend's sign and agrees with the mathematical remainder for non-negative dividends |
| `RequestSource.Intn` | requestsource.go:38-46 | `intn` fails with an invalid-range panic exactly when n <= 0, and otherwise yields a draw in [0, n) |
| `RequestSource.MakeCdf` | requestsource.go:78-88 | the fresh table has the weights' length; entry i is the sum of the positive weights at 0..i; the returned total is the sum of all positive weights |
| `RequestSource.CdfNonDecreasing` | requestsource.go:81-86 | the table never decreases, which is the precondition of the binary search |
| `RequestSource.CdfStep` | requestsource.go:82-85 | each entry is the previous entry plus the weight when positive; a weight below 1 adds nothing |
| `RequestSource.CdfLastIsTotal` | requestsource.go:81-87 | for a non-empty list the last entry equals the returned total |
| `RequestSource.PosSumZeroIffNoPositive` | requestsource.go:52-56 | the total is 0 exactly when no weight is positive, which is when weighted selection panics in `intn` |
| `RequestSource.SelectCdf` | requestsource.go:72-76 | on a sorted table, returns the smallest index whose entry exceeds the draw, or the table length when none does |
| `RequestSource.SelectionWithinWeight` | requestsource.go:72-88 | a draw in [0, total) selects an in-range index whose weight is positive, the one whose slice of [0, total) holds the draw |
| `RequestSource.DrawsSelectingIndex` | requestsource.go:72-88 | conversely, every draw in a positive weight's slice selects that index, so exactly `w[i]` of the `total` draws choose source i |
| `RequestSource.RoundRobinSlot` | requestsource.go:23-26 | the call that moves the counter to k uses (k-1) mod len for 1 <= k <= MaxInt64; it panics with a division by zero exactly when there are no sources, and otherwise any index is in range |
| `RequestSource.RoundRobinVisitsInOrder` | requestsource.go:21-26 | m sequential calls from counter n use (n+j) mod len in turn, so a fresh source visits 0, 1, ..., len-1, 0, ... |
| `RequestSource.RoundRobinFailsAfterWrap` | requestsource.go:24-25 | once the int64 counter has wrapped, the negative remainder makes indexing panic (three sources, second call after the wrap) |
| `RequestSource.RoundRobinRequestSource.constructor` | requestsource.go:16-19 | a new round-robin source has counter 0 |
| `RequestSource.RoundRobinRequestSource.NewRequest` | requestsource.go:23-26 | increments the counter with wrap-around and uses the slot of the new counter value, so a panic comes only from an empty source list or a wrapped counter, and any index is in range |
| `RequestSource.RandomRequestSource.constructor` | requestsource.go:31-36 | a new random source has no weight table |
| `RequestSource.RandomRequestSource.SetWeights` | requestsource.go:61-70 | nil clears the table and keeps the stale total; any other list stores exactly its cdf and total |
| `RequestSource.RandomRequestSource.NewRequest` | requestsource.go:48-59 | without a table it draws uniformly and panics when there are no sources; with a table, a total <= 0 panics, and otherwise the chosen index has a positive weight and is the first whose entry exceeds the draw; it panics with an index out of range only when no entry within `Sources` exceeds the draw, so the selected index lies beyond `Sources` |
| `RequestSource.SelectableRequestSource.constructor` | requestsource.go:91-94 | a new selectable source selects index 0 |
| `RequestSource.SelectableRequestSource.Index` | requestsource.go:101-104 | the selected index is non-negative, and in range whenever there is a source |
| `RequestSource.SelectableRequestSource.SetIndex` | requestsource.go:106-113 | panics exactly when the index is outside [0, len(Sources)) and then leaves the selection unchanged; otherwise `Index()` returns the new index |
| `RequestSource.SelectableRequestSource.NewRequest` | requestsource.go:96-99 | uses the selected index, and panics only when there are no sources |
| `Target.DialAddress` | target.go:90-97 | the dialled address always contains ':', starts with the target, and equals the target when it already has a ':' |
| `Target.DialAddressSplits` | target.go:90-97 | a target without ':' splits at the last ':' of its address into itself and port 80, or 443 with a TLS policy; defaulting twice changes nothing |
| `Target.FirstByteAppend` | target.go:79-81 | a read keeps an established first-byte time, and otherwise sets it exactly when it returns bytes |
| `Target.NoFirstByteIffNothingRead` | target.go:79-82 | the first-byte time is unset exactly while the running count is 0, which is the guard `r.n == 0` of `Read` |
| `Target.WriteCounter.constructor` | target.go:117 | a new write counter has count 0 |
| `Target.WriteCounter.Write` | target.go:65-69 | returns the inner writer's count and error unchanged; the count grows by exactly that count and always equals the sum of all inner counts |
| `Target.ReadCounter.constructor` | target.go:123 | a new read counter has count 0 and no first-byte time |
| `Target.ReadCounter.Read` | target.go:77-84 | returns the inner reader's count and error unchanged; the count never decreases and equals the sum of all inner counts; the first-byte time is set by the first read returning bytes and never changes afterwards |
| `Target.Profile` | target.go:88-142 | dials the defaulted address; returns a profile or an error, never both and never neither; the error is that of the first failing phase; without TLS, TLSElapsed equals DialElapsed; with a non-decreasing clock, Dial <= TLS <= Send <= Headers <= Total; the byte counts are the write counter's total, the read counter's total and the drained body count |
| `Throttling.SendAccounting` | throttle.go:47-57 | the elapsed time is added to the bucket and `last` moves to now; the input is read exactly when a full delay is owed; an item is forwarded exactly when the slot is also free, and only then is the bucket charged, by exactly one delay; otherwise the item is dropped with bucket and slot unchanged |
| `Throttling.SendKeepsInv` | throttle.go:49-54 | with a non-decreasing clock the bucket never becomes negative |
| `Throttling.RetuneClamps` | throttle.go:37-44 | a rate change installs the new delay and clamps the bucket to at most that delay before the send step |
| `Throttling.RunAccounting` | throttle.go:29-58 | over any run of ticks and receives at a fixed rate, forwarded items times the delay plus the bucket equal the initial bucket plus the elapsed time, so the output rate never exceeds one item per delay beyond the banked credit |
| `Throttling.RateChangeBurst` | throttle.go:37-57 | from a rate change on, at most one new delay plus the elapsed time is released |
| `Throttling.ClosedForwardsNothing` | throttle.go:33-36 | after close no event forwards an item, and only the item already in the slot can still be received |
| `Throttling.Throttle.constructor` | throttle.go:14-28 | a new throttle starts with an empty bucket, the current time, the given delay and an empty output |
| `Throttling.Throttle.Tick` | throttle.go:31-32 | a tick performs exactly one send step, and nothing after close |
| `Throttling.Throttle.SetRate` | throttle.go:37-44 | after close, a rate change panics on the closed channel; a delay below 2ns panics in the ticker; otherwise it is exactly the rate-change step |
| `Throttling.Throttle.Close` | throttle.go:64-68 | closing twice panics; otherwise the loop stops and the output closes, keeping a pending item |
| `Throttling.Throttle.Receive` | throttle.go:61-63 | a receive on the output yields the pending item and frees the slot; with none, it yields end of stream once closed, and otherwise it would block |

## Left out

- Networking and TLS inside `Profile` are foreign library calls and are given as
  abstract outcomes: `net.Dial`, `tls.Client`/`Handshake`, `req.Write`,
  `http.ReadResponse` and `io.Copy`. HTTP/1.1 serialisation and parsing are not
  modelled, and neither is the byte slice passed to `Write`/`Read`.
- Wall-clock time (`time.Now`, `time.Since`, the ticker) is supplied as inputs. The
  orderings are proved under an explicit non-decreasing-clock assumption.
- The float conversion from requests per second to a delay is not modelled
  (throttle.go:25, 38). The throttle takes the delay as an integer number of
  nanoseconds.
- `Throttling.Throttle.constructor` requires a delay of at least 2ns. With a smaller
  delay, `NewThrottle`'s goroutine would panic in `time.NewTicker`, and a constructor
  cannot return that error.
- Concurrency is not modelled: goroutines, `select` nondeterminism, blocking channel
  operations and the atomics. All calls are sequential, and the atomic counters are
  plain fields. In particular, after `Close` the loop can receive a zero rate from the
  closed rate channel. The model treats close as one atomic step and leaves that case out.
- `<-src` blocking on an empty or closed input is not modelled. The value it yields is
  a parameter of each step.
- Randomness is a supplied function that returns a value in [0, n) for n > 0.
  Statistical frequencies are reduced to counting draws (`DrawsSelectingIndex`).
- Reassigning the public `Sources` field after construction is not modelled.
- `RequestSource.MakeCdf`: the running sum is unbounded; Go's int overflow on huge
  weights is not modelled.
- `Target.WriteCounter.Write`, `Target.ReadCounter.Read`: the int64 counters are
  unbounded; overflow after 2^63 bytes is not modelled.
- `Target.Profile`: the deferred closing of connection, TLS session and response body
  is not modelled. RecvBytes >= RecvBodyBytes is not derived, because the reads and the
  drained count are independent inputs.
- `Throttling.RunAccounting`: the bucket is an unbounded integer; int64 Duration
  overflow of a bucket that grows while the output stays full is not modelled.
- load.go, generator.go, throttler.go, template.go, gopherload/main.go and
  gopherload/logging.go are not part of this model. They are goroutine fan-out,
  channel pumping, request construction from a template, and CLI and logging wiring.
