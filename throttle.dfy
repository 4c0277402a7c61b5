/** The throttle's bucket accounting: the body of its event loop, with the ticker, the
    rate channel and the close channel replaced by explicit events, and the output
    channel (a buffer of one request) by an optional slot.
    Times and the delay between requests are integer nanoseconds. */
module Throttling {
  import opened Wrappers

  /** What one send step did with the input. */
  datatype Outcome =
    | Idle        // less than one delay owed: the input is not read
    | Forwarded   // one item read from the input and placed in the free output slot
    | Dropped     // one item read from the input and discarded: the slot was occupied

  /** The run-time panics reachable through the throttle's methods, as values. */
  datatype Panic =
    | ClosedChannel        // sending on, or closing, a channel that is already closed
    | NonPositiveInterval  // time.NewTicker with a period (delay / 2) below 1ns

  /** What a consumer of the output sees. */
  datatype Received<T> = Got(item: T) | EndOfStream | WouldBlock

  /** The loop's own state, the output slot, and whether the throttle was closed. */
  datatype Loop<T> = Loop(bucket: int, last: int, delay: int, slot: Option<T>, closed: bool)

  ghost predicate Inv<T>(s: Loop<T>) {
    s.bucket >= 0 && s.delay > 0
  }

  /** The `send:` block: add the time since the previous step to the bucket; when at
      least one delay is owed, `<-src` yields `next` before the select chooses, and the
      item is either sent into a free slot (charging one delay) or discarded. */
  function Send<T>(s: Loop<T>, now: int, next: T): (Loop<T>, Outcome) {
    var bucket := s.bucket + (now - s.last);
    if bucket < s.delay then
      (s.(bucket := bucket, last := now), Idle)
    else if s.slot.None? then
      (s.(bucket := bucket - s.delay, last := now, slot := Some(next)), Forwarded)
    else
      (s.(bucket := bucket, last := now), Dropped)
  }

  /** A rate change: the new delay replaces the old, the bucket is clamped to at most
      the new delay, then the same send step runs. */
  function Retune<T>(s: Loop<T>, delay: int, now: int, next: T): (Loop<T>, Outcome) {
    var clamped := if s.bucket > delay then delay else s.bucket;
    Send(s.(delay := delay, bucket := clamped), now, next)
  }

  /** Closing stops the loop and closes the output; a pending item stays receivable. */
  function CloseLoop<T>(s: Loop<T>): Loop<T> {
    s.(closed := true)
  }

  /** One send step's accounting: the elapsed time is added to the bucket and `last`
      moves to now; the input is read exactly when a full delay is owed; an item is
      forwarded exactly when, in addition, the slot is free, and only then is the bucket
      charged, by exactly one delay; a dropped item leaves bucket and slot unchanged. */
  lemma SendAccounting<T>(s: Loop<T>, now: int, next: T)
    ensures var (t, o) := Send(s, now, next);
      && t.last == now && t.delay == s.delay && t.closed == s.closed
      && t.bucket == s.bucket + (now - s.last) - (if o == Forwarded then s.delay else 0)
      && (o != Idle <==> s.bucket + (now - s.last) >= s.delay)
      && (o == Forwarded <==> o != Idle && s.slot.None?)
      && (o == Dropped <==> o != Idle && s.slot.Some?)
      && (o == Forwarded ==> t.slot == Some(next))
      && (o != Forwarded ==> t.slot == s.slot)
  {
  }

  /** With a clock that does not run backwards the bucket never goes negative, since it
      is charged only when it holds at least one delay. */
  lemma SendKeepsInv<T>(s: Loop<T>, now: int, next: T)
    requires Inv(s) && s.last <= now
    ensures Inv(Send(s, now, next).0)
  {
  }

  /** A rate change leaves at most the new delay in the bucket before adding the
      elapsed time, and keeps the invariant for a positive new delay. */
  lemma RetuneClamps<T>(s: Loop<T>, delay: int, now: int, next: T)
    requires Inv(s) && s.last <= now && delay > 0
    ensures var (t, o) := Retune(s, delay, now, next);
      && Inv(t) && t.delay == delay && t.last == now
      && t.bucket + (if o == Forwarded then delay else 0) <= delay + (now - s.last)
      && t.bucket + (if o == Forwarded then delay else 0) <= s.bucket + (now - s.last)
  {
  }

  // ---------------------------------------------------------------------------
  // Runs of ticks and receives

  datatype Event<T> =
    | TickAt(now: int, next: T)   // the ticker fired at `now`; `next` is what `<-src` yields
    | TakeOutput                  // the consumer takes from the output

  function Step<T>(s: Loop<T>, e: Event<T>): (Loop<T>, Outcome) {
    match e
    case TickAt(now, next) => if s.closed then (s, Idle) else Send(s, now, next)
    case TakeOutput => (s.(slot := None), Idle)
  }

  /** The state after a run of events and the number of items forwarded. */
  function Run<T>(s: Loop<T>, evs: seq<Event<T>>): (Loop<T>, nat)
    decreases |evs|
  {
    if evs == [] then (s, 0)
    else
      var first := Step(s, evs[0]);
      var rest := Run(first.0, evs[1..]);
      (rest.0, rest.1 + if first.1 == Forwarded then 1 else 0)
  }

  /** Tick times never run backwards, starting from t. */
  ghost predicate ClockFrom<T>(t: int, evs: seq<Event<T>>)
    decreases |evs|
  {
    evs == [] ||
    (if evs[0].TickAt? then t <= evs[0].now && ClockFrom(evs[0].now, evs[1..])
     else ClockFrom(t, evs[1..]))
  }

  /** The time of the last tick of a run, or t without one. */
  function LastTick<T>(t: int, evs: seq<Event<T>>): int
    decreases |evs|
  {
    if evs == [] then t
    else if evs[0].TickAt? then LastTick(evs[0].now, evs[1..])
    else LastTick(t, evs[1..])
  }

  /** Over any run at a fixed rate, forwarded items times the delay plus what is left in
      the bucket is exactly the initial bucket plus the elapsed time; so at most
      (bucket + elapsed) / delay items leave the throttle. */
  lemma {:induction false} RunAccounting<T>(s: Loop<T>, evs: seq<Event<T>>)
    requires Inv(s) && !s.closed && ClockFrom(s.last, evs)
    ensures var r := Run(s, evs);
      && Inv(r.0) && !r.0.closed && r.0.delay == s.delay
      && r.0.last == LastTick(s.last, evs)
      && r.0.bucket + r.1 * s.delay == s.bucket + (LastTick(s.last, evs) - s.last)
    ensures Run(s, evs).1 * s.delay <= s.bucket + (LastTick(s.last, evs) - s.last)
    decreases |evs|
  {
    if evs != [] {
      var first := Step(s, evs[0]);
      if evs[0].TickAt? {
        SendAccounting(s, evs[0].now, evs[0].next);
      }
      RunAccounting(first.0, evs[1..]);
      var rest := Run(first.0, evs[1..]);
      assert (rest.1 + 1) * s.delay == rest.1 * s.delay + s.delay;
    }
  }

  /** A rate change releases no burst: what leaves the throttle from the change on is
      bounded by one new delay plus the time elapsed since the last step before it. */
  lemma RateChangeBurst<T>(s: Loop<T>, delay: int, now: int, next: T, evs: seq<Event<T>>)
    requires Inv(s) && !s.closed && s.last <= now && delay > 0 && ClockFrom(now, evs)
    ensures var first := Retune(s, delay, now, next);
      var rest := Run(first.0, evs);
      ((if first.1 == Forwarded then 1 else 0) + rest.1) * delay
        <= delay + (LastTick(now, evs) - s.last)
  {
    var first := Retune(s, delay, now, next);
    RetuneClamps(s, delay, now, next);
    RunAccounting(first.0, evs);
    var rest := Run(first.0, evs);
    var f := if first.1 == Forwarded then 1 else 0;
    assert (f + rest.1) * delay == f * delay + rest.1 * delay;
  }

  /** After close no item is forwarded, whatever happens: at most the item already in
      the slot is still delivered. */
  lemma {:induction false} ClosedForwardsNothing<T>(s: Loop<T>, evs: seq<Event<T>>)
    requires s.closed
    ensures Run(s, evs).1 == 0 && Run(s, evs).0.closed
    ensures Run(s, evs).0.slot == s.slot || Run(s, evs).0.slot.None?
    decreases |evs|
  {
    if evs != [] {
      ClosedForwardsNothing(Step(s, evs[0]).0, evs[1..]);
    }
  }

  // ---------------------------------------------------------------------------
  // The throttle object

  class Throttle<T> {
    var bucket: int
    var last: int
    var delay: int
    var period: int        // the ticker's period, delay / 2
    var slot: Option<T>    // the output channel and its buffer of one
    var closed: bool       // Close was called: the loop has returned, the output is closed

    function Model(): Loop<T>
      reads this
    {
      Loop(bucket, last, delay, slot, closed)
    }

    ghost predicate Valid()
      reads this
    {
      Inv(Model()) && period == delay / 2 && period > 0
    }

    /** `NewThrottle` and the start of `loop`: an empty bucket, the clock read now. */
    constructor (delay: int, now: int)
      requires delay >= 2
      ensures Valid() && Model() == Loop(0, now, delay, None, false)
    {
      this.delay := delay;
      period := delay / 2;
      last := now;
      bucket := 0;
      slot := None;
      closed := false;
    }

    /** The ticker fires at `now`. After close the ticker is stopped and nothing happens. */
    method Tick(now: int, next: T) returns (o: Outcome)
      requires Valid() && last <= now
      modifies this
      ensures Valid() && period == old(period)
      ensures (Model(), o) == Step(old(Model()), TickAt(now, next))
    {
      if closed {
        return Idle;
      }
      SendKeepsInv(Model(), now, next);
      bucket := bucket + (now - last);
      last := now;
      o := Idle;
      if bucket >= delay {
        if slot.None? {
          slot := Some(next);
          bucket := bucket - delay;
          o := Forwarded;
        } else {
          o := Dropped;
        }
      }
    }

    /** `SetRate` and the loop's rate case: a panic once closed (the rate channel is
        closed) or when the new ticker period would not be positive; otherwise the new
        delay, the clamp, and one send step. */
    method SetRate(newDelay: int, now: int, next: T) returns (r: Result<Outcome, Panic>)
      requires Valid() && last <= now
      modifies this
      ensures Valid()
      ensures old(closed) ==> r == Err(ClosedChannel) && Model() == old(Model())
      ensures !old(closed) && newDelay < 2 ==>
        r == Err(NonPositiveInterval) && Model() == old(Model())
      ensures !old(closed) && newDelay >= 2 ==>
        r.Ok? && (Model(), r.value) == Retune(old(Model()), newDelay, now, next)
        && period == newDelay / 2
    {
      if closed {
        return Err(ClosedChannel);
      }
      if newDelay < 2 {
        return Err(NonPositiveInterval);
      }
      RetuneClamps(Model(), newDelay, now, next);
      delay := newDelay;
      period := newDelay / 2;
      if bucket > delay {
        bucket := delay;
      }
      var o := Tick(now, next);
      r := Ok(o);
    }

    /** `Close`: closing twice panics; otherwise the loop stops and the output closes. */
    method Close() returns (r: Result<(), Panic>)
      requires Valid()
      modifies this
      ensures Valid()
      ensures old(closed) ==> r == Err(ClosedChannel) && Model() == old(Model())
      ensures !old(closed) ==> r == Ok(()) && Model() == CloseLoop(old(Model()))
    {
      if closed {
        return Err(ClosedChannel);
      }
      closed := true;
      r := Ok(());
    }

    /** A receive on `Output()`: the pending item if any, else end of stream once
        closed, else the receive would block. */
    method Receive() returns (r: Received<T>)
      requires Valid()
      modifies this
      ensures Valid()
      ensures Model() == Step(old(Model()), TakeOutput).0
      ensures old(slot).Some? ==> r == Got(old(slot).value)
      ensures old(slot).None? && closed ==> r == EndOfStream
      ensures old(slot).None? && !closed ==> r == WouldBlock
    {
      if slot.Some? {
        r := Got(slot.value);
        slot := None;
      } else if closed {
        r := EndOfStream;
      } else {
        r := WouldBlock;
      }
    }
  }
}
