/**
 The Go client's buffer: what each critical section does to the shared fields, the client object itself,
 and one whole flush. Times and durations are reals, in seconds.
 */
module ClientBuffer {
  import opened Outcome
  import opened ChunkBatch

  const BACKOFF_BASE: real := 1.0
  const BACKOFF_MAX: real := 60.0
  const MAX_FAILURES: nat := 16

  datatype Config = Config(maxBufferSize: nat, maxBatchSize: nat, flushAt: int)

  /** The fields guarded by the mutex. The zero time, at which no clock ever stands, is 0. */
  datatype Core = Core(buffer: seq<Event>, flushing: bool, warnedFull: bool, failures: nat, backoffUntil: real)

  const EMPTY := Core([], false, false, 0, 0.0)

  // ----- answers to a POST

  datatype RetryAfter = Missing | Seconds(secs: real) | Date(away: real) | Garbled

  /** No reply is a network error; an unbuildable request fails before it is sent. */
  datatype Answer = Status(code: int, header: RetryAfter) | NoReply | Unbuildable

  datatype Verdict = Accepted | Rejected | Transient(retryAfter: real)

  function Cap(d: real): real {
    if d > BACKOFF_MAX then BACKOFF_MAX else d
  }

  /** The server's advice, 0 for none. */
  function Advice(header: RetryAfter): (d: real)
    ensures 0.0 <= d <= BACKOFF_MAX
  {
    match header
    case Seconds(s) => if s >= 0.0 then Cap(s) else 0.0
    case Date(away) => if away < 0.0 then 0.0 else Cap(away)
    case _ => 0.0
  }

  predicate IsTransient(code: int) {
    code >= 500 || code == 408 || code == 429
  }

  function Judge(answer: Answer): (v: Verdict)
    ensures v.Transient? ==> 0.0 <= v.retryAfter <= BACKOFF_MAX
  {
    match answer
    case NoReply => Transient(0.0)
    case Unbuildable => Rejected
    case Status(code, header) =>
      if code == 200 || code == 207 then Accepted
      else if IsTransient(code) then Transient(Advice(header))
      else Rejected
  }

  // ----- the critical sections

  predicate IsFull(cfg: Config, c: Core) {
    |c.buffer| >= cfg.maxBufferSize
  }

  /** Does offering one more event start a background flush? */
  predicate StartsFlush(cfg: Config, c: Core) {
    !IsFull(cfg, c) && |c.buffer| + 1 >= cfg.flushAt && !c.flushing
  }

  function Offer(cfg: Config, c: Core, e: Event): Core {
    if IsFull(cfg, c) then c.(warnedFull := true)
    else c.(buffer := c.buffer + [e], flushing := c.flushing || StartsFlush(cfg, c))
  }

  function Overflow(cfg: Config, c: Core, batch: seq<Event>): (n: nat)
    ensures n > 0 <==> |batch| + |c.buffer| > cfg.maxBufferSize
    ensures n <= |batch + c.buffer|
  {
    var over := |batch| + |c.buffer| - cfg.maxBufferSize;
    if over > 0 then over else 0
  }

  /** A failed batch goes back ahead of newer events. Nothing is lost exactly when all fits; otherwise the oldest are. */
  function PutBack(cfg: Config, c: Core, batch: seq<Event>): (c': Core)
    ensures |batch| + |c.buffer| <= cfg.maxBufferSize <==> c'.buffer == batch + c.buffer
    ensures |batch| + |c.buffer| > cfg.maxBufferSize ==> |c'.buffer| == cfg.maxBufferSize && c'.warnedFull
  {
    var n := Overflow(cfg, c, batch);
    c.(buffer := (batch + c.buffer)[n..], warnedFull := c.warnedFull || n > 0)
  }

  function Pow2(n: nat): (p: nat)
    ensures p > 0
  {
    if n == 0 then 1 else 2 * Pow2(n - 1)
  }

  /** Doubling from one second up to the cap. */
  function Exponential(failures: nat): (d: real)
    ensures BACKOFF_BASE <= d <= BACKOFF_MAX
  {
    Cap(BACKOFF_BASE * Pow2(failures) as real)
  }

  predicate IsJitter(j: real) {
    0.75 <= j < 1.25
  }

  function Delay(failures: nat, retryAfter: real, jitter: real): real {
    if retryAfter > 0.0 then retryAfter else Exponential(failures) * jitter
  }

  function NoteFailure(c: Core, now: real, retryAfter: real, jitter: real): Core {
    c.(failures := if c.failures < MAX_FAILURES then c.failures + 1 else c.failures,
       backoffUntil := now + Delay(c.failures, retryAfter, jitter))
  }

  function Calm(c: Core): Core {
    c.(failures := 0, backoffUntil := 0.0)
  }

  predicate MustWait(c: Core, now: real) {
    now < c.backoffUntil
  }

  /** A delay is positive and at most 75 seconds. */
  lemma {:induction false} DelayIsBounded(failures: nat, retryAfter: real, jitter: real)
    requires 0.0 <= retryAfter <= BACKOFF_MAX && IsJitter(jitter)
    ensures 0.0 < Delay(failures, retryAfter, jitter) <= 75.0
  {
    var e := Exponential(failures);
    if retryAfter <= 0.0 {
      assert e * 0.75 <= e * jitter <= e * 1.25;
    }
  }

  lemma {:induction false} PowersGrow(m: nat, n: nat)
    requires m <= n
    ensures Pow2(m) <= Pow2(n)
    decreases n - m
  {
    if m < n {
      PowersGrow(m + 1, n);
    }
  }

  /** Within the failure limit the shift of a nanosecond count stays in 64 signed bits; the sixth failure in a row reaches the cap. */
  lemma {:induction false} ShiftIsSafe(failures: nat)
    requires failures <= MAX_FAILURES
    ensures Pow2(failures) * 1000000000 < 0x8000_0000_0000_0000
    ensures Exponential(failures) == BACKOFF_MAX <==> failures >= 6
    ensures failures < 6 ==> Exponential(failures) == Pow2(failures) as real
  {
    assert Pow2(4) == 16 && Pow2(8) == 16 * Pow2(4) && Pow2(12) == 16 * Pow2(8) && Pow2(16) == 16 * Pow2(12);
    assert Pow2(5) == 32 && Pow2(6) == 64;
    PowersGrow(failures, 16);
    if failures < 6 {
      PowersGrow(failures, 5);
    } else {
      PowersGrow(6, failures);
    }
  }

  // ----- one flush, undisturbed

  /** What became of the chunks: acknowledged, rejected, left to be retried (with the advice given). */
  datatype Delivery = Delivery(acked: seq<Event>, rejected: seq<Event>, rest: seq<seq<Event>>, failed: Option<real>)

  /** Sends chunks in order, up to the first transient failure; `server(i)` answers the POST of chunk i. */
  function Deliver(chunks: seq<seq<Event>>, i: nat, server: nat -> Answer): Delivery
    decreases |chunks| - i
  {
    if i >= |chunks| then Delivery([], [], [], None) else
    match Judge(server(i))
    case Transient(retryAfter) => Delivery([], [], chunks[i..], Some(retryAfter))
    case Accepted =>
      var d := Deliver(chunks, i + 1, server);
      d.(acked := chunks[i] + d.acked)
    case Rejected =>
      var d := Deliver(chunks, i + 1, server);
      d.(rejected := chunks[i] + d.rejected)
  }

  function AfterFlush(cfg: Config, c: Core, d: Delivery, now: real, jitter: real): Core {
    if c.buffer == [] then c
    else if d.failed.Some? then
      NoteFailure(PutBack(cfg, c.(buffer := []), Flatten(d.rest)), now, d.failed.value, jitter)
    else Calm(c.(buffer := []))
  }

  lemma {:induction false} DeliverStep(chunks: seq<seq<Event>>, i: nat, server: nat -> Answer)
    requires i < |chunks|
    ensures var d := Deliver(chunks, i, server);
            var d' := Deliver(chunks, i + 1, server);
            var verdict := Judge(server(i));
            && (verdict.Transient? ==> d == Delivery([], [], chunks[i..], Some(verdict.retryAfter)))
            && (verdict.Accepted? ==> d == d'.(acked := chunks[i] + d'.acked))
            && (verdict.Rejected? ==> d == d'.(rejected := chunks[i] + d'.rejected))
  {
  }

  lemma {:induction false} DeliveryLeavesTail(chunks: seq<seq<Event>>, i: nat, server: nat -> Answer)
    requires i <= |chunks|
    ensures var d := Deliver(chunks, i, server);
            && |d.rest| <= |chunks| && d.rest == chunks[|chunks| - |d.rest|..]
            && (d.failed.Some? <==> d.rest != [])
    decreases |chunks| - i
  {
    if i < |chunks| {
      DeliveryLeavesTail(chunks, i + 1, server);
      DeliverStep(chunks, i, server);
      hide *;
    }
  }

  /** Every event of the chunks is acknowledged, rejected or left. */
  lemma {:induction false} DeliverySplits(chunks: seq<seq<Event>>, i: nat, server: nat -> Answer, e: Event)
    requires i <= |chunks|
    ensures var d := Deliver(chunks, i, server);
            Copies(Flatten(chunks[i..]), e) == Copies(d.acked, e) + Copies(d.rejected, e) + Copies(Flatten(d.rest), e)
    decreases |chunks| - i
  {
    NoCopies(e);
    if i < |chunks| {
      DeliverySplits(chunks, i + 1, server, e);
      DeliverStep(chunks, i, server);
      assert chunks[i..][1..] == chunks[i + 1..];
      CopiesConcat(chunks[i], Flatten(chunks[i + 1..]), e);
      var d := Deliver(chunks, i + 1, server);
      CopiesConcat(chunks[i], d.acked, e);
      CopiesConcat(chunks[i], d.rejected, e);
      hide Deliver, Copies, Judge;
    }
  }

  method Concat(chunks: seq<seq<Event>>) returns (rest: seq<Event>)
    ensures rest == Flatten(chunks)
  {
    rest := [];
    for j := 0 to |chunks|
      invariant rest == Flatten(chunks[..j])
    {
      assert chunks[..j + 1] == chunks[..j] + [chunks[j]];
      FlattenSnoc(chunks[..j], chunks[j]);
      rest := rest + chunks[j];
    }
    assert chunks[..|chunks|] == chunks;
  }

  /** Sends chunks until one fails transiently: the first `sent` chunks are settled. */
  method SendChunks(chunks: seq<seq<Event>>, server: nat -> Answer)
    returns (acked: seq<Event>, rejected: bool, sent: nat, retryAfter: real)
    requires NoneEmpty(chunks)
    ensures sent <= |chunks|
    ensures var d := Deliver(chunks, 0, server);
            && acked == d.acked && rejected == (d.rejected != []) && chunks[sent..] == d.rest
            && d.failed == if sent < |chunks| then Some(retryAfter) else None
  {
    acked, rejected, sent, retryAfter := [], false, 0, 0.0;
    ghost var dropped: seq<Event> := [];
    ghost var whole := Deliver(chunks, 0, server);
    while sent < |chunks|
      invariant sent <= |chunks|
      invariant var d := Deliver(chunks, sent, server);
                whole == Delivery(acked + d.acked, dropped + d.rejected, d.rest, d.failed)
      invariant rejected <==> dropped != []
    {
      DeliverStep(chunks, sent, server);
      ghost var d := Deliver(chunks, sent + 1, server);
      assert acked + (chunks[sent] + d.acked) == (acked + chunks[sent]) + d.acked;
      assert dropped + (chunks[sent] + d.rejected) == (dropped + chunks[sent]) + d.rejected;
      hide Deliver, Judge;
      match Judge(server(sent)) {
        case Accepted =>
          acked := acked + chunks[sent];
        case Rejected =>
          rejected := true;
          dropped := dropped + chunks[sent];
        case Transient(after) =>
          retryAfter := after;
          return;
      }
      sent := sent + 1;
    }
  }

  datatype FlushResult = Clean | SomeRejected | WillRetry

  class Client {
    const cfg: Config
    var buffer: seq<Event>
    var flushing: bool
    var warnedFull: bool
    var transientFailures: nat
    var backoffUntil: real

    constructor (maxBufferSize: nat, maxBatchSize: int, flushAt: int)
      ensures View() == EMPTY
      ensures cfg == Config(maxBufferSize, ClampBatchSize(maxBatchSize), flushAt)
    {
      cfg := Config(maxBufferSize, ClampBatchSize(maxBatchSize), flushAt);
      buffer, flushing, warnedFull, transientFailures, backoffUntil := [], false, false, 0, 0.0;
    }

    ghost function View(): Core
      reads this
    {
      Core(buffer, flushing, warnedFull, transientFailures, backoffUntil)
    }

    /** `warn`: log the one warning about a full buffer; `spawn`: start a background flush. */
    method Enqueue(e: Event) returns (warn: bool, spawn: bool)
      modifies this
      ensures View() == Offer(cfg, old(View()), e)
      ensures spawn == StartsFlush(cfg, old(View()))
      ensures warn <==> warnedFull && !old(warnedFull)
    {
      if |buffer| >= cfg.maxBufferSize {
        warn := !warnedFull;
        warnedFull := true;
        spawn := false;
        return;
      }
      warn := false;
      buffer := buffer + [e];
      spawn := |buffer| >= cfg.flushAt && !flushing;
      if spawn {
        flushing := true;
      }
    }

    /** `warn`: log the one warning about the events dropped. */
    method Rebuffer(batch: seq<Event>) returns (warn: bool)
      modifies `buffer, `warnedFull
      ensures View() == PutBack(cfg, old(View()), batch)
      ensures warn <==> warnedFull && !old(warnedFull)
    {
      var combined := batch + buffer;
      var overflow := |combined| - cfg.maxBufferSize;
      if overflow > 0 {
        combined := combined[overflow..];
      }
      buffer := combined;
      warn := overflow > 0 && !warnedFull;
      if warn {
        warnedFull := true;
      }
    }

    method NoteTransientFailure(now: real, retryAfter: real, jitter: real)
      modifies `transientFailures, `backoffUntil
      ensures View() == NoteFailure(old(View()), now, retryAfter, jitter)
    {
      var exp := BACKOFF_BASE * Pow2(transientFailures) as real;
      if exp > BACKOFF_MAX {
        exp := BACKOFF_MAX;
      }
      var delay := retryAfter;
      if delay <= 0.0 {
        delay := exp * jitter;
      }
      if transientFailures < MAX_FAILURES {
        transientFailures := transientFailures + 1;
      }
      backoffUntil := now + delay;
    }

    method CalmDown()
      modifies `transientFailures, `backoffUntil
      ensures View() == Calm(old(View()))
    {
      transientFailures := 0;
      backoffUntil := 0.0;
    }

    /** One flush with no other thread between its critical sections. */
    method Flush(server: nat -> Answer, now: real, jitter: real)
      returns (chunks: seq<seq<Event>>, acked: seq<Event>, result: FlushResult)
      requires cfg.maxBatchSize >= 1
      modifies this
      ensures IsChunking(old(buffer), chunks, cfg.maxBatchSize)
      ensures var d := Deliver(chunks, 0, server);
              && acked == d.acked
              && View() == AfterFlush(cfg, old(View()), d, now, jitter)
              && (result == WillRetry <==> d.failed.Some?)
              && (result == SomeRejected ==> d.rejected != [])
              && (result == Clean ==> d.rejected == [])
    {
      acked := [];
      if |buffer| == 0 {
        chunks := [];
        result := Clean;
        return;
      }
      hide Deliver, PutBack, NoteFailure, Calm, Flatten;
      var pending := buffer;
      buffer := [];
      chunks := ChunkBatch.ChunkBatch(pending, cfg.maxBatchSize);
      hide IsChunking;
      var sent, rejected, retryAfter;
      acked, rejected, sent, retryAfter := SendChunks(chunks, server);
      if sent < |chunks| {
        var rest := Concat(chunks[sent..]);
        var _ := Rebuffer(rest);
        NoteTransientFailure(now, retryAfter, jitter);
        result := WillRetry;
      } else {
        CalmDown();
        result := if rejected then SomeRejected else Clean;
      }
    }

    /** The background flush: nothing at all inside the backoff window. */
    method FlushQuietly(server: nat -> Answer, now: real, jitter: real) returns (acked: seq<Event>)
      requires cfg.maxBatchSize >= 1
      modifies this
      ensures MustWait(old(View()), now) ==> View() == old(View()) && acked == []
      ensures !MustWait(old(View()), now) ==>
                exists chunks ::
                  && IsChunking(old(buffer), chunks, cfg.maxBatchSize)
                  && acked == Deliver(chunks, 0, server).acked
                  && View() == AfterFlush(cfg, old(View()), Deliver(chunks, 0, server), now, jitter)
    {
      if now < backoffUntil {
        return [];
      }
      var chunks, sent, result := Flush(server, now, jitter);
      acked := sent;
    }
  }
}
