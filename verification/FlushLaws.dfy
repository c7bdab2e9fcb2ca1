/**
 What the server's answers do to events, said of the status codes themselves: for one flush of the client
 object, and for every run of the protocol. Also when a background flush may start.
 */
module FlushLaws {
  import opened Outcome
  import opened ChunkBatch
  import opened ClientBuffer
  import opened FlushProtocol

  // ----- answers by their codes

  predicate Takes(a: Answer) {
    a.Status? && (a.code == 200 || a.code == 207)
  }

  predicate AsksRetry(a: Answer) {
    a.NoReply? || (a.Status? && (a.code == 408 || a.code == 429 || a.code >= 500))
  }

  predicate Refuses(a: Answer) {
    !Takes(a) && !AsksRetry(a)
  }

  /** The delay that a retry answer asks for, at most a minute; 0 if it asks for none. */
  function Asked(a: Answer): real {
    if a.Status? && a.header.Seconds? && a.header.secs >= 0.0 then (if a.header.secs <= 60.0 then a.header.secs else 60.0)
    else if a.Status? && a.header.Date? && a.header.away >= 0.0 then (if a.header.away <= 60.0 then a.header.away else 60.0)
    else 0.0
  }

  lemma {:induction false} Verdicts(a: Answer)
    ensures Judge(a).Accepted? <==> Takes(a)
    ensures Judge(a).Rejected? <==> Refuses(a)
    ensures Judge(a).Transient? <==> AsksRetry(a)
    ensures AsksRetry(a) ==> Judge(a).retryAfter == Asked(a)
  {
  }

  // ----- one flush

  /** The first chunk, from the i-th on, whose answer asks for a retry; the number of chunks if there is none. */
  function FirstRetry(server: nat -> Answer, i: nat, n: nat): (k: nat)
    requires i <= n
    ensures i <= k <= n && (k < n ==> AsksRetry(server(k)))
    ensures forall j: nat | i <= j < k :: !AsksRetry(server(j))
    decreases n - i
  {
    if i == n || AsksRetry(server(i)) then i else FirstRetry(server, i + 1, n)
  }

  /** The events of the chunks from the i-th to before the k-th whose answer satisfies `p`. */
  function Picked(chunks: seq<seq<Event>>, server: nat -> Answer, p: Answer -> bool, i: nat, k: nat): seq<Event>
    requires i <= k <= |chunks|
    decreases k - i
  {
    if i == k then [] else (if p(server(i)) then chunks[i] else []) + Picked(chunks, server, p, i + 1, k)
  }

  /**
   * What becomes of each chunk: before the first answer that asks for a retry, 200 and
   * 207 acknowledge it and any other answer rejects it; from there on all are left.
   */
  lemma {:induction false} DeliverySorts(chunks: seq<seq<Event>>, i: nat, server: nat -> Answer)
    requires i <= |chunks|
    ensures var d := Deliver(chunks, i, server);
            var k := FirstRetry(server, i, |chunks|);
            && d.acked == Picked(chunks, server, Takes, i, k)
            && d.rejected == Picked(chunks, server, Refuses, i, k)
            && d.rest == chunks[k..]
            && d.failed == if k < |chunks| then Some(Asked(server(k))) else None
    decreases |chunks| - i
  {
    if i < |chunks| {
      Verdicts(server(i));
      DeliverStep(chunks, i, server);
      DeliverySorts(chunks, i + 1, server);
      hide Judge, Takes, AsksRetry, Refuses, Asked, Deliver;
      assert forall s: seq<Event> :: [] + s == s;
    }
  }

  /** One second, doubled up to a minute. */
  function Doubling(failures: nat): real {
    if failures < 6 then [1.0, 2.0, 4.0, 8.0, 16.0, 32.0][failures] else 60.0
  }

  lemma {:induction false} ExponentialDoubles(failures: nat)
    ensures Exponential(failures) == Doubling(failures)
  {
    assert Pow2(1) == 2 && Pow2(2) == 4 && Pow2(3) == 8 && Pow2(4) == 16 && Pow2(5) == 32 && Pow2(6) == 64;
    if failures >= 6 {
      PowersGrow(6, failures);
    }
  }

  lemma {:induction false} FlattenLength(chunks: seq<seq<Event>>, k: nat)
    requires k <= |chunks|
    ensures |Flatten(chunks[k..])| <= |Flatten(chunks)|
    decreases |chunks|
  {
    if k > 0 {
      assert chunks[k..] == chunks[1..][k - 1..];
      FlattenLength(chunks[1..], k - 1);
    } else {
      assert chunks[0..] == chunks;
    }
  }

  lemma {:induction false} OnlyLength(events: seq<Event>, p: Event -> bool)
    ensures |Only(p, events)| <= |events|
  {
    if events != [] {
      OnlyLength(events[1..], p);
    }
  }

  /**
   * The client after a flush of a buffer that was not empty: with a retry answer the
   * chunks from there are back in the buffer, and background flushes wait for what was
   * asked or else for the doubled delay; without one all is calm.
   */
  lemma {:induction false} FlushLeaves(cfg: Config, c: Core, chunks: seq<seq<Event>>, server: nat -> Answer, now: real, jitter: real)
    requires c.buffer != [] && |c.buffer| <= cfg.maxBufferSize && IsChunking(c.buffer, chunks, cfg.maxBatchSize)
    ensures var k := FirstRetry(server, 0, |chunks|);
            AfterFlush(cfg, c, Deliver(chunks, 0, server), now, jitter) ==
            if k == |chunks| then Core([], c.flushing, c.warnedFull, 0, 0.0)
            else Core(Flatten(chunks[k..]), c.flushing, c.warnedFull, if c.failures < 16 then c.failures + 1 else c.failures,
                      now + if Asked(server(k)) > 0.0 then Asked(server(k)) else Doubling(c.failures) * jitter)
  {
    var k := FirstRetry(server, 0, |chunks|);
    DeliverySorts(chunks, 0, server);
    ExponentialDoubles(c.failures);
    RestFits(cfg, c, chunks, k);
    hide Deliver, FirstRetry, Picked, Asked, Doubling, Exponential, IsChunking, Flatten, PutBack;
  }

  /** What is left of the buffer fits into it again. */
  lemma {:induction false} RestFits(cfg: Config, c: Core, chunks: seq<seq<Event>>, k: nat)
    requires |c.buffer| <= cfg.maxBufferSize && IsChunking(c.buffer, chunks, cfg.maxBatchSize) && k <= |chunks|
    ensures PutBack(cfg, c.(buffer := []), Flatten(chunks[k..])) == c.(buffer := Flatten(chunks[k..]))
  {
    FlattenLength(chunks, k);
    OnlyLength(c.buffer, IsSendable);
    hide Flatten, Only;
    var rest := Flatten(chunks[k..]);
    assert rest + [] == rest;
  }

  // ----- every run

  /** The state before the k-th step. */
  ghost function StateAt(cfg: Config, s: State, steps: seq<Step>, k: nat): State
    requires CanRun(cfg, s, steps) && k < |steps|
    decreases k
  {
    if k == 0 then s else StateAt(cfg, Next(cfg, s, steps[0]), steps[1..], k - 1)
  }

  lemma {:induction false} LaterState(cfg: Config, s: State, steps: seq<Step>, k: nat)
    requires CanRun(cfg, s, steps) && steps != [] && k < |steps[1..]|
    ensures Enabled(cfg, s, steps[0]) && CanRun(cfg, Next(cfg, s, steps[0]), steps[1..])
    ensures StateAt(cfg, s, steps, k + 1) == StateAt(cfg, Next(cfg, s, steps[0]), steps[1..], k) && steps[1..][k] == steps[k + 1]
  {
  }

  /** The k-th step answers a chunk with the event in it, and the answer satisfies `p`. */
  ghost predicate AnsweredAt(cfg: Config, s: State, steps: seq<Step>, k: nat, p: Answer -> bool, e: Event)
    requires CanRun(cfg, s, steps)
  {
    && k < |steps| && steps[k].Reply? && p(steps[k].answer)
    && var t := StateAt(cfg, s, steps, k);
    && steps[k].i < |t.flights| && t.flights[steps[k].i].phase.Sending? && t.flights[steps[k].i].phase.chunks != []
    && e in t.flights[steps[k].i].phase.chunks[0]
  }

  ghost predicate AnsweredOnce(cfg: Config, s: State, steps: seq<Step>, p: Answer -> bool, e: Event)
    requires CanRun(cfg, s, steps)
  {
    exists k :: AnsweredAt(cfg, s, steps, k, p, e)
  }

  lemma {:induction false} AnsweredLater(cfg: Config, s: State, steps: seq<Step>, p: Answer -> bool, e: Event)
    requires CanRun(cfg, s, steps) && steps != []
    requires Enabled(cfg, s, steps[0]) && CanRun(cfg, Next(cfg, s, steps[0]), steps[1..])
    requires AnsweredOnce(cfg, Next(cfg, s, steps[0]), steps[1..], p, e)
    ensures AnsweredOnce(cfg, s, steps, p, e)
  {
    var s' := Next(cfg, s, steps[0]);
    var k: nat :| AnsweredAt(cfg, s', steps[1..], k, p, e);
    LaterState(cfg, s, steps, k);
    hide CanRun, Next, Enabled, StateAt;
    assert AnsweredAt(cfg, s, steps, k + 1, p, e);
  }

  /** One answer, by its code: the first chunk is acknowledged, rejected, or goes back to the buffer with all after it. */
  lemma {:induction false} ReplyEnds(cfg: Config, s: State, i: nat, answer: Answer)
    requires Enabled(cfg, s, Reply(i, answer))
    ensures var s' := Next(cfg, s, Reply(i, answer));
            var chunks := s.flights[i].phase.chunks;
            && (Takes(answer) ==> s'.ledger == s.ledger.(acked := s.ledger.acked + chunks[0]) && s'.core == s.core
                                  && s'.flights[i].phase == Sending(chunks[1..]))
            && (Refuses(answer) ==> s'.ledger == s.ledger.(rejected := s.ledger.rejected + chunks[0]) && s'.core == s.core
                                    && s'.flights[i].phase == Sending(chunks[1..]))
            && (AsksRetry(answer) ==>
                  && s'.flights[i].phase == Failing(Asked(answer))
                  && s'.ledger == s.ledger.(overflow := s'.ledger.overflow)
                  && s'.ledger.overflow + s'.core.buffer == s.ledger.overflow + (Flatten(chunks) + s.core.buffer))
  {
    Verdicts(answer);
    hide Judge, Takes, AsksRetry, Refuses, Asked, Flatten;
    var chunks := s.flights[i].phase.chunks;
    var all, n := Flatten(chunks) + s.core.buffer, Overflow(cfg, s.core, Flatten(chunks));
    assert all[..n] + all[n..] == all;
    assert s.ledger.overflow + (all[..n] + all[n..]) == s.ledger.overflow + all[..n] + all[n..];
  }

  lemma {:induction false} OtherStepsAnswerNothing(cfg: Config, s: State, step: Step)
    requires Enabled(cfg, s, step) && !step.Reply?
    ensures Next(cfg, s, step).ledger.acked == s.ledger.acked && Next(cfg, s, step).ledger.rejected == s.ledger.rejected
  {
    hide IsChunking, Only, Flatten, Judge;
  }

  /** Who is acknowledged or rejected in one step was in the chunk answered with such a code. */
  lemma {:induction false} StepAnswers(cfg: Config, s: State, steps: seq<Step>, e: Event)
    requires CanRun(cfg, s, steps) && steps != [] && Enabled(cfg, s, steps[0])
    ensures var l := Next(cfg, s, steps[0]).ledger;
            && (e in l.acked && e !in s.ledger.acked ==> AnsweredOnce(cfg, s, steps, Takes, e))
            && (e in l.rejected && e !in s.ledger.rejected ==> AnsweredOnce(cfg, s, steps, Refuses, e))
  {
    hide Judge, IsChunking, CanRun, Takes, AsksRetry, Refuses;
    var step := steps[0];
    if step.Reply? {
      ReplyEnds(cfg, s, step.i, step.answer);
      SomeVerdict(step.answer);
      var chunk := s.flights[step.i].phase.chunks[0];
      assert StateAt(cfg, s, steps, 0) == s;
      hide Next, Enabled, StateAt;
      if e in chunk {
        assert Takes(step.answer) ==> AnsweredAt(cfg, s, steps, 0, Takes, e);
        assert Refuses(step.answer) ==> AnsweredAt(cfg, s, steps, 0, Refuses, e);
      }
    } else {
      OtherStepsAnswerNothing(cfg, s, step);
    }
  }

  lemma {:induction false} SomeVerdict(a: Answer)
    ensures Takes(a) || Refuses(a) || AsksRetry(a)
  {
  }

  lemma {:induction false} RunAnswers(cfg: Config, s: State, steps: seq<Step>, e: Event)
    requires CanRun(cfg, s, steps)
    ensures var l := Run(cfg, s, steps).ledger;
            && (e in l.acked ==> e in s.ledger.acked || AnsweredOnce(cfg, s, steps, Takes, e))
            && (e in l.rejected ==> e in s.ledger.rejected || AnsweredOnce(cfg, s, steps, Refuses, e))
    decreases |steps|
  {
    if steps != [] {
      var s' := Next(cfg, s, steps[0]);
      RunAnswers(cfg, s', steps[1..], e);
      StepAnswers(cfg, s, steps, e);
      hide Next, Enabled, AnsweredOnce, StateAt, Takes, Refuses;
      if AnsweredOnce(cfg, s', steps[1..], Takes, e) {
        AnsweredLater(cfg, s, steps, Takes, e);
      }
      if AnsweredOnce(cfg, s', steps[1..], Refuses, e) {
        AnsweredLater(cfg, s, steps, Refuses, e);
      }
    }
  }

  /**
   * In every interleaving an event is acknowledged only in a chunk answered 200 or 207,
   * and rejected only in a chunk answered neither so nor 408, 429, from 500 up or not at all.
   */
  lemma {:induction false} EndsHaveTheirAnswers(cfg: Config, steps: seq<Step>, e: Event)
    requires CanRun(cfg, START, steps)
    ensures var l := Run(cfg, START, steps).ledger;
            && (e in l.acked ==> AnsweredOnce(cfg, START, steps, Takes, e))
            && (e in l.rejected ==> AnsweredOnce(cfg, START, steps, Refuses, e))
  {
    RunAnswers(cfg, START, steps, e);
  }

  // ----- what is never sent

  ghost predicate DropsJustified(l: Ledger) {
    && (forall e | e in l.unserializable :: e.json.None?)
    && (forall e | e in l.oversize :: e.json.Some? && e.json.value >= 10485760)
  }

  lemma {:induction false} StepJustifiesDrops(cfg: Config, s: State, step: Step)
    requires DropsJustified(s.ledger) && Enabled(cfg, s, step)
    ensures DropsJustified(Next(cfg, s, step).ledger)
  {
    if step.Cut? {
      var pending := s.flights[step.i].phase.pending;
      OnlyMeans(Unserializable, pending);
      OnlyMeans(Oversize, pending);
    }
    hide Only, IsChunking, Judge, Flatten, PutBack, Overflow;
  }

  /** In every interleaving an event is given up unsent only without a JSON form, or with one that no request can hold. */
  lemma {:induction false} DropsAreJustified(cfg: Config, s: State, steps: seq<Step>)
    requires DropsJustified(s.ledger) && CanRun(cfg, s, steps)
    ensures DropsJustified(Run(cfg, s, steps).ledger)
    decreases |steps|
  {
    if steps != [] {
      StepJustifiesDrops(cfg, s, steps[0]);
      hide DropsJustified, Next, Enabled;
      DropsAreJustified(cfg, Next(cfg, s, steps[0]), steps[1..]);
    }
  }

  // ----- the backoff window

  /** A background flush on its way between its check of the window and its end. */
  predicate PastCheck(f: Flight) {
    !f.kind.Explicit? && (f.phase.Ready? || f.phase.Taken? || f.phase.Sending? || f.phase.Failing?)
  }

  /** The k-th step lets flight `i` past its check, at a time not before the end of the window. */
  ghost predicate CheckedAt(cfg: Config, s: State, steps: seq<Step>, k: nat, i: nat)
    requires CanRun(cfg, s, steps)
  {
    k < |steps| && steps[k] == Check(i) && var t := StateAt(cfg, s, steps, k); t.core.backoffUntil <= t.clock
  }

  ghost predicate WasChecked(cfg: Config, s: State, steps: seq<Step>, i: nat)
    requires CanRun(cfg, s, steps)
  {
    exists k :: CheckedAt(cfg, s, steps, k, i)
  }

  lemma {:induction false} StepChecks(cfg: Config, s: State, step: Step, i: nat)
    requires Enabled(cfg, s, step) && i < |Next(cfg, s, step).flights| && PastCheck(Next(cfg, s, step).flights[i])
    ensures (i < |s.flights| && PastCheck(s.flights[i])) || (step == Check(i) && s.core.backoffUntil <= s.clock)
  {
    hide Judge, IsChunking, Only, Flatten, Overflow, PutBack, NoteFailure, Calm;
  }

  lemma {:induction false} RunChecks(cfg: Config, s: State, steps: seq<Step>, i: nat)
    requires CanRun(cfg, s, steps) && i < |Run(cfg, s, steps).flights| && PastCheck(Run(cfg, s, steps).flights[i])
    ensures (i < |s.flights| && PastCheck(s.flights[i])) || WasChecked(cfg, s, steps, i)
    decreases |steps|
  {
    if steps != [] {
      var s' := Next(cfg, s, steps[0]);
      RunChecks(cfg, s', steps[1..], i);
      if k: nat :| CheckedAt(cfg, s', steps[1..], k, i) {
        LaterState(cfg, s, steps, k);
        assert CheckedAt(cfg, s, steps, k + 1, i);
      } else {
        StepChecks(cfg, s, steps[0], i);
        hide Next, Enabled, PastCheck;
        if !(i < |s.flights| && PastCheck(s.flights[i])) {
          assert CheckedAt(cfg, s, steps, 0, i);
        }
      }
    }
  }

  /** The check itself: it ends a background flush inside the window, and lets it go on outside. */
  lemma {:induction false} CheckDecides(cfg: Config, s: State, i: nat)
    requires Enabled(cfg, s, Check(i))
    ensures var s' := Next(cfg, s, Check(i));
            && s'.core == s.core && s'.ledger == s.ledger
            && (s.core.backoffUntil <= s.clock ==> s'.flights == s.flights[i := Flight(s.flights[i].kind, Ready)])
            && (s.clock < s.core.backoffUntil ==>
                  s'.flights == s.flights[i := Flight(s.flights[i].kind, if s.flights[i].kind.Sized? then Ending else Done)])
  {
  }

  /** In every interleaving a background flush is under way only if it was let past its check outside the backoff window. */
  lemma {:induction false} BackoffIsRespected(cfg: Config, steps: seq<Step>, i: nat)
    requires CanRun(cfg, START, steps) && i < |Run(cfg, START, steps).flights| && PastCheck(Run(cfg, START, steps).flights[i])
    ensures WasChecked(cfg, START, steps, i)
  {
    RunChecks(cfg, START, steps, i);
  }
}
