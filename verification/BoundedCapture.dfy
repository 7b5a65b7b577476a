/** Draining a child's two output pipes at once, each into a bounded capture, until both are closed, one is
    too long, or the time is over. */
module BoundedCapture {
  import opened Prelude

  const LIMIT: nat := 131072
  const CHUNK: nat := 65536

  datatype Result = Completed(code: int) | Failed(code: int) | LimitExceeded | TimedOut

  function Min(a: nat, b: nat): nat { if a < b then a else b }

  /** One pipe: everything the child will ever write to it, how much has been taken out, and what has been captured. */
  class Pipe {
    const data: seq<bv8>
    var taken: nat
    var captured: seq<bv8>
    var size: nat
    var open: bool

    constructor (data: seq<bv8>)
      ensures this.data == data && Valid() && open && taken == 0
    {
      this.data, taken, captured, size, open := data, 0, [], 0, true;
    }

    ghost predicate Valid()
      reads this
    {
      && taken <= |data| && captured == data[..Min(taken, LIMIT)] && size <= taken
      && (!Exceeded() ==> size == taken <= LIMIT)
      && (!open ==> taken == |data| && !Exceeded())
    }

    ghost predicate Exceeded()
      reads this
    {
      taken > LIMIT
    }

    /** The bytes still to come, and the closing of the pipe itself. */
    ghost function Left(): nat
      reads this
      requires Valid()
    {
      |data| - taken + (if open then 1 else 0)
    }

    /** At least one byte unless the pipe is closed; never more than one byte beyond the limit. */
    method ReadChunk() returns (chunk: seq<bv8>)
      requires Valid() && open && !Exceeded()
      modifies this`taken
      ensures old(taken) <= taken <= |data| && chunk == data[old(taken)..taken]
      ensures |chunk| <= CHUNK && |chunk| <= LIMIT - size + 1
      ensures chunk == [] <==> old(taken) == |data|
    {
      var most := Min(Min(CHUNK, LIMIT - size + 1), |data| - taken);
      var arrived: nat :| 0 <= arrived;
      var n := if most == 0 then 0 else if arrived == 0 then 1 else Min(arrived, most);
      chunk := data[taken..taken + n];
      taken := taken + n;
    }

    /** One ready event: a chunk, or the end. */
    method Drain() returns (over: bool)
      requires Valid() && open && !Exceeded()
      modifies this
      ensures Valid() && over == Exceeded()
      ensures old(taken) <= taken
      ensures !over ==> Left() < old(Left())
    {
      var chunk := ReadChunk();
      if chunk == [] {
        open := false;
        return false;
      }
      captured := captured + chunk[..Min(LIMIT - size, |chunk|)];
      if size + |chunk| > LIMIT { return true; }
      size := size + |chunk|;
      return false;
    }
  }

  ghost predicate CapturedPrefix(p: Pipe)
    reads p
  {
    p.captured <= p.data && |p.captured| <= LIMIT
  }

  /** The monotonic clock; reading it, or waiting, takes some time. */
  class Clock {
    var now: nat
    /** No time passes, and whatever is open is ready. */
    const still: bool

    constructor (still: bool)
      ensures this.still == still
    {
      this.still := still;
      now := 0;
    }

    method Pass() returns (time: nat)
      modifies this
      ensures time == now >= old(now) && (still ==> now == old(now))
    {
      var elapsed: nat :| 0 <= elapsed;
      if !still { now := now + elapsed; }
      time := now;
    }

    /** A wait in which nothing became ready lasts until the time is over. */
    method Idle(until: nat)
      modifies this
      ensures now >= old(now) && now >= until
    {
      if now < until { now := until; }
    }
  }

  method Readiness(clock: Clock, out: Pipe, err: Pipe) returns (outReady: bool, errReady: bool)
    ensures (outReady ==> out.open) && (errReady ==> err.open)
    ensures clock.still ==> outReady == out.open && errReady == err.open
  {
    var a: bool, b: bool := *, *;
    return out.open && (a || clock.still), err.open && (b || clock.still);
  }

  ghost predicate Draining(p: Pipe)
    reads p
  {
    p.Valid() && !p.Exceeded()
  }

  /** One turn: the clock is read, and whatever is ready is drained. */
  method Turn(out: Pipe, err: Pipe, clock: Clock, deadline: nat) returns (r: Option<Result>)
    requires out != err && Draining(out) && Draining(err) && (out.open || err.open)
    modifies out, err, clock
    ensures out.Valid() && err.Valid() && clock.now >= old(clock.now)
    ensures r.None? ==> Draining(out) && Draining(err)
    ensures r.None? ==> out.Left() <= old(out.Left()) && err.Left() <= old(err.Left())
    ensures r.None? ==>
              out.Left() + err.Left() < old(out.Left() + err.Left())
              || (old(clock.now) < deadline && clock.now >= deadline)
    ensures r.Some? ==> r.value in {LimitExceeded, TimedOut}
    ensures r == Some(LimitExceeded) <==> out.Exceeded() || err.Exceeded()
    ensures r == Some(TimedOut) ==> clock.now >= deadline
    ensures clock.still && old(clock.now) < deadline ==> clock.now == old(clock.now) && r != Some(TimedOut)
  {
    var time := clock.Pass();
    if time >= deadline { return Some(TimedOut); }
    var outReady, errReady := Readiness(clock, out, err);
    if !outReady && !errReady {
      clock.Idle(deadline);
      return None;
    }
    if outReady {
      var over := out.Drain();
      if over { return Some(LimitExceeded); }
    }
    if errReady {
      var over := err.Drain();
      if over { return Some(LimitExceeded); }
    }
    return None;
  }

  /** Any order of readiness of the two pipes, and any passing of time; the child ends with the given code. Every ending
      has its reason: both streams are whole, one is really too long, or the time is really over. */
  method Run(out: Pipe, err: Pipe, clock: Clock, timeout: nat, check: bool, code: int) returns (r: Result)
    requires out != err && out.Valid() && err.Valid() && out.open && err.open && out.taken == 0 && err.taken == 0
    modifies out, err, clock
    ensures CapturedPrefix(out) && CapturedPrefix(err)
    ensures r.Completed? || r.Failed? ==> out.captured == out.data && err.captured == err.data
    ensures r.Completed? || r.Failed? ==> r == if check && code != 0 then Failed(code) else Completed(code)
    ensures r == LimitExceeded ==>
              (|out.data| > LIMIT && |out.captured| == LIMIT) || (|err.data| > LIMIT && |err.captured| == LIMIT)
    ensures r == TimedOut ==> clock.now >= old(clock.now) + timeout
    ensures clock.still && timeout > 0 ==>
              (r == LimitExceeded <==> |out.data| > LIMIT || |err.data| > LIMIT) && r != TimedOut
  {
    var deadline := clock.now + timeout;
    while out.open || err.open
      invariant Draining(out) && Draining(err) && clock.now >= old(clock.now)
      invariant clock.still && timeout > 0 ==> clock.now == old(clock.now)
      decreases out.Left() + err.Left(), if deadline > clock.now then deadline - clock.now else 0
    {
      var ended := Turn(out, err, clock, deadline);
      if ended.Some? { return ended.value; }
    }
    var late: bool := *;
    if late && !clock.still {
      // The child closed its pipes and has not ended when the time is over.
      clock.Idle(deadline);
      return TimedOut;
    }
    return if check && code != 0 then Failed(code) else Completed(code);
  }
}
