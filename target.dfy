/** The request profiler: the dial address of a target, the byte-counting wrappers
    around the connection, and the phase structure of `Target.Profile`.
    Dialling, the TLS handshake, writing the request, parsing the response headers and
    draining the body are foreign calls; each is given as an abstract outcome together
    with the clock reading taken when it returns. */
module Target {
  import opened Wrappers

  /** An error returned by the network stack. */
  datatype Error = Error(reason: string)

  // ---------------------------------------------------------------------------
  // Dial address

  /** Default ports of the http and https URI schemes (sections 4.2.1 and 4.2.2 of RFC 9110). */
  const HttpPort: string := "80"
  const HttpsPort: string := "443"

  function DefaultPort(tls: bool): string {
    if tls then HttpsPort else HttpPort
  }

  /** The host handed to net.Dial: a target without ':' gets the scheme's default port. */
  function DialAddress(target: string, tls: bool): (addr: string)
    ensures ':' in addr
    ensures target <= addr
    ensures ':' in target ==> addr == target
  {
    if ':' in target then target else target + ":" + DefaultPort(tls)
  }

  /** The position of the last ':' in s, or -1 when there is none; "host:port"
      splits there. */
  function LastColon(s: string): (i: int)
    ensures -1 <= i < |s|
    ensures i >= 0 ==> s[i] == ':'
    ensures forall k :: i < k < |s| ==> s[k] != ':'
    decreases |s|
  {
    if s == [] then -1
    else if s[|s| - 1] == ':' then |s| - 1
    else LastColon(s[..|s| - 1])
  }

  /** A target without a port splits back into itself and the default port, and
      defaulting an address a second time changes nothing. */
  lemma DialAddressSplits(target: string, tls: bool, tls': bool)
    requires ':' !in target
    ensures var addr := DialAddress(target, tls);
      && LastColon(addr) == |target|
      && addr[..|target|] == target
      && addr[|target| + 1..] == DefaultPort(tls)
    ensures DialAddress(DialAddress(target, tls), tls') == DialAddress(target, tls)
  {
  }

  // ---------------------------------------------------------------------------
  // Byte counters

  /** What the inner writer returned from one Write (io.Writer promises 0 <= n). */
  datatype WriteResult = WriteResult(count: nat, err: Option<Error>)

  /** What the inner reader returned from one Read, and the clock reading `time.Now()`
      would give at that moment (io.Reader promises 0 <= n). */
  datatype ReadResult = ReadResult(count: nat, err: Option<Error>, at: int)

  function WriteTotal(ws: seq<WriteResult>): nat
    decreases |ws|
  {
    if ws == [] then 0 else WriteTotal(ws[..|ws| - 1]) + ws[|ws| - 1].count
  }

  function ReadTotal(rs: seq<ReadResult>): nat
    decreases |rs|
  {
    if rs == [] then 0 else ReadTotal(rs[..|rs| - 1]) + rs[|rs| - 1].count
  }

  /** The time of the earliest read that returned at least one byte. */
  function FirstByteTime(rs: seq<ReadResult>): Option<int>
    decreases |rs|
  {
    if rs == [] then None
    else if rs[0].count > 0 then Some(rs[0].at)
    else FirstByteTime(rs[1..])
  }

  lemma {:induction false} ReadTotalAppend(rs: seq<ReadResult>, r: ReadResult)
    ensures ReadTotal(rs + [r]) == ReadTotal(rs) + r.count
  {
  }

  lemma {:induction false} WriteTotalAppend(ws: seq<WriteResult>, w: WriteResult)
    ensures WriteTotal(ws + [w]) == WriteTotal(ws) + w.count
  {
  }

  /** A further read leaves an established first-byte time alone, and otherwise sets it
      exactly when it returns bytes. */
  lemma {:induction false} FirstByteAppend(rs: seq<ReadResult>, r: ReadResult)
    ensures FirstByteTime(rs + [r]) ==
      if FirstByteTime(rs).Some? then FirstByteTime(rs)
      else if r.count > 0 then Some(r.at)
      else None
    decreases |rs|
  {
    if rs == [] {
      assert rs + [r] == [r];
      assert [r][1..] == [];
    } else {
      assert (rs + [r])[1..] == rs[1..] + [r];
      FirstByteAppend(rs[1..], r);
    }
  }

  /** No first byte has been seen exactly while the running count is still 0. */
  lemma {:induction false} NoFirstByteIffNothingRead(rs: seq<ReadResult>)
    ensures FirstByteTime(rs).None? <==> ReadTotal(rs) == 0
    decreases |rs|
  {
    if rs != [] {
      var init := rs[..|rs| - 1];
      assert rs == init + [rs[|rs| - 1]];
      NoFirstByteIffNothingRead(init);
      FirstByteAppend(init, rs[|rs| - 1]);
    }
  }

  /** `writeCounter`: passes writes through and adds up the bytes written. */
  class WriteCounter {
    var n: int
    ghost var writes: seq<WriteResult>

    ghost predicate Valid()
      reads this
    {
      n == WriteTotal(writes)
    }

    constructor ()
      ensures Valid() && writes == [] && n == 0
    {
      n := 0;
      writes := [];
    }

    /** `Write`: the inner writer's count and error, unchanged; n grows by that count. */
    method Write(inner: WriteResult) returns (count: nat, err: Option<Error>)
      requires Valid()
      modifies this
      ensures Valid() && writes == old(writes) + [inner]
      ensures count == inner.count && err == inner.err
      ensures n == old(n) + inner.count
    {
      WriteTotalAppend(writes, inner);
      count, err := inner.count, inner.err;
      n := n + count;
      writes := writes + [inner];
    }
  }

  /** `readCounter`: passes reads through, adds up the bytes read and records when the
      first byte arrived (None stands for Go's zero time.Time). */
  class ReadCounter {
    var n: int
    var firstByte: Option<int>
    ghost var history: seq<ReadResult>

    ghost predicate Valid()
      reads this
    {
      n == ReadTotal(history) && firstByte == FirstByteTime(history)
    }

    constructor ()
      ensures Valid() && history == [] && n == 0 && firstByte == None
    {
      n := 0;
      firstByte := None;
      history := [];
    }

    /** `Read`: the inner reader's count and error, unchanged; n never decreases, and the
        first-byte time is set once, by the first read that returns bytes. */
    method Read(inner: ReadResult) returns (count: nat, err: Option<Error>)
      requires Valid()
      modifies this
      ensures Valid() && history == old(history) + [inner]
      ensures count == inner.count && err == inner.err
      ensures n == old(n) + inner.count
      ensures old(firstByte).Some? ==> firstByte == old(firstByte)
      ensures old(firstByte).None? && inner.count > 0 ==> firstByte == Some(inner.at)
      ensures old(firstByte).None? && inner.count == 0 ==> firstByte.None?
    {
      NoFirstByteIffNothingRead(history);
      FirstByteAppend(history, inner);
      ReadTotalAppend(history, inner);
      count, err := inner.count, inner.err;
      if n == 0 && count > 0 {
        firstByte := Some(inner.at);
      }
      n := n + count;
      history := history + [inner];
    }
  }

  // ---------------------------------------------------------------------------
  // Profile

  /** A phase's error, if any, and the clock reading when it returned. */
  datatype Step = Step(at: int, err: Option<Error>)

  /** Everything the network and the clock contribute to one `Profile` call. */
  datatype Exchange = Exchange(
    start: int,                     // time.Now() before dialling
    dial: Step,                     // net.Dial
    handshake: Step,                // tls.Client(...).Handshake(), used only with a TLS policy
    writes: seq<WriteResult>,       // the connection's replies to req.Write's writes
    send: Step,                     // req.Write's own result
    headerReads: seq<ReadResult>,   // the connection's replies while http.ReadResponse reads
    headers: Step,                  // http.ReadResponse's result
    status: int,                    // the parsed status code
    bodyReads: seq<ReadResult>,     // the connection's replies while the body is drained
    drain: Step,                    // io.Copy's error
    drained: nat)                   // io.Copy's count of body bytes

  /** The time of the first received byte is recorded by the wrapper around the
      connection. Go's zero Time lies centuries before any Start, so `Sub` saturates to
      the most negative Duration when no byte ever arrived. */
  const MinDuration: int := -0x8000_0000_0000_0000

  datatype RequestProfile = RequestProfile(
    start: int,
    dialElapsed: int,
    tlsElapsed: int,
    sendElapsed: int,
    ttfbElapsed: int,
    headersElapsed: int,
    totalElapsed: int,
    sentBytes: int,
    recvBytes: int,
    recvBodyBytes: int,
    statusCode: int)

  /** The error Profile returns: that of the first phase that failed, if any. */
  function FirstFailure(x: Exchange, tls: bool): Option<Error> {
    if x.dial.err.Some? then x.dial.err
    else if tls && x.handshake.err.Some? then x.handshake.err
    else if x.send.err.Some? then x.send.err
    else if x.headers.err.Some? then x.headers.err
    else x.drain.err
  }

  /** The clock never runs backwards across the phases that are run. */
  ghost predicate ClockNonDecreasing(x: Exchange, tls: bool) {
    && x.start <= x.dial.at
    && (if tls then x.dial.at <= x.handshake.at <= x.send.at else x.dial.at <= x.send.at)
    && x.send.at <= x.headers.at <= x.drain.at
  }

  ghost predicate ElapsedOrdered(p: RequestProfile) {
    0 <= p.dialElapsed <= p.tlsElapsed <= p.sendElapsed <= p.headersElapsed <= p.totalElapsed
  }

  /** Each field of a successful profile, in terms of what the network and clock did. */
  ghost predicate Measures(p: RequestProfile, x: Exchange, tls: bool) {
    && p.start == x.start
    && p.dialElapsed == x.dial.at - x.start
    && p.tlsElapsed == (if tls then x.handshake.at else x.dial.at) - x.start
    && p.sendElapsed == x.send.at - x.start
    && p.headersElapsed == x.headers.at - x.start
    && p.totalElapsed == x.drain.at - x.start
    && p.ttfbElapsed == (match FirstByteTime(x.headerReads + x.bodyReads)
                         case None => MinDuration
                         case Some(t) => t - x.start)
    && p.sentBytes == WriteTotal(x.writes)
    && p.recvBytes == ReadTotal(x.headerReads + x.bodyReads)
    && p.recvBodyBytes == x.drained
    && p.statusCode == x.status
  }

  /** `Target.Profile`: returns the address it dialled and either a profile or an
      error, never both and never neither. */
  method Profile(target: string, tls: bool, x: Exchange)
    returns (addr: string, profile: Option<RequestProfile>, err: Option<Error>)
    ensures addr == DialAddress(target, tls)
    ensures profile.Some? <==> err.None?
    ensures err == FirstFailure(x, tls)
    ensures profile.Some? ==> Measures(profile.value, x, tls)
    ensures profile.Some? && !tls ==> profile.value.tlsElapsed == profile.value.dialElapsed
    ensures profile.Some? && ClockNonDecreasing(x, tls) ==> ElapsedOrdered(profile.value)
  {
    var stats := RequestProfile(0, 0, 0, 0, 0, 0, 0, 0, 0, 0, 0);
    addr := DialAddress(target, tls);
    stats := stats.(start := x.start);
    if x.dial.err.Some? {
      return addr, None, x.dial.err;
    }
    stats := stats.(dialElapsed := x.dial.at - stats.start);
    if tls {
      if x.handshake.err.Some? {
        return addr, None, x.handshake.err;
      }
      stats := stats.(tlsElapsed := x.handshake.at - stats.start);
    } else {
      stats := stats.(tlsElapsed := stats.dialElapsed);
    }

    var w := new WriteCounter();
    for i := 0 to |x.writes|
      invariant w.Valid() && w.writes == x.writes[..i]
    {
      var _, _ := w.Write(x.writes[i]);
    }
    assert x.writes[..|x.writes|] == x.writes;
    if x.send.err.Some? {
      return addr, None, x.send.err;
    }
    stats := stats.(sendElapsed := x.send.at - stats.start);

    var rc := new ReadCounter();
    var received := x.headerReads + x.bodyReads;
    for i := 0 to |x.headerReads|
      invariant rc.Valid() && rc.history == received[..i]
      invariant w.n == WriteTotal(x.writes)
    {
      var _, _ := rc.Read(received[i]);
    }
    if x.headers.err.Some? {
      return addr, None, x.headers.err;
    }
    stats := stats.(headersElapsed := x.headers.at - stats.start);

    for i := |x.headerReads| to |received|
      invariant rc.Valid() && rc.history == received[..i]
      invariant w.n == WriteTotal(x.writes)
    {
      var _, _ := rc.Read(received[i]);
    }
    assert received[..|received|] == received;
    if x.drain.err.Some? {
      return addr, None, x.drain.err;
    }
    stats := stats.(totalElapsed := x.drain.at - stats.start);
    stats := stats.(recvBodyBytes := x.drained, recvBytes := rc.n, sentBytes := w.n);
    stats := stats.(ttfbElapsed := match rc.firstByte
                                   case None => MinDuration
                                   case Some(t) => t - stats.start);
    stats := stats.(statusCode := x.status);
    return addr, Some(stats), None;
  }
}
