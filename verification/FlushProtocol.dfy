/**
 Every interleaving of enqueuers, the timer, the size-triggered goroutine and explicit flushes of one
 client, at the granularity of its critical sections. A POST that fails transiently may still have been
 accepted by the server: "acknowledged" means that the client was told so.
 */
module FlushProtocol {
  import opened Outcome
  import opened ChunkBatch
  import opened ClientBuffer

  datatype Kind = Sized | Timed | Explicit

  /** Where one flush call stands. `Ending` is the goroutine that still has to clear the single-flight flag. */
  datatype Phase =
    | Waking
    | Ready
    | Taken(pending: seq<Event>)
    | Sending(chunks: seq<seq<Event>>)
    | Failing(retryAfter: real)
    | Ending
    | Done

  datatype Flight = Flight(kind: Kind, phase: Phase)

  /** Every event offered, and the events that ended, by cause. */
  datatype Ledger = Ledger(offered: seq<Event>, acked: seq<Event>, full: seq<Event>,
                           unserializable: seq<Event>, oversize: seq<Event>, rejected: seq<Event>, overflow: seq<Event>)

  datatype State = State(core: Core, flights: seq<Flight>, clock: real, ledger: Ledger)

  const START := State(EMPTY, [], 0.0, Ledger([], [], [], [], [], [], []))

  datatype Step =
    | Enqueue(json: Option<nat>)
    | Spawn(kind: Kind)
    | Check(i: nat)
    | Take(i: nat)
    | Cut(i: nat, chunks: seq<seq<Event>>)
    | Reply(i: nat, answer: Answer)
    | Settle(i: nat)
    | Note(i: nat, jitter: real)
    | Clear(i: nat)
    | Pass(time: real)

  predicate At(s: State, i: nat) {
    i < |s.flights|
  }

  ghost predicate Enabled(cfg: Config, s: State, step: Step) {
    match step
    case Enqueue(_) => true
    case Spawn(kind) => !kind.Sized?
    case Check(i) => At(s, i) && s.flights[i].phase.Waking?
    case Take(i) => At(s, i) && s.flights[i].phase.Ready?
    case Cut(i, chunks) =>
      At(s, i) && s.flights[i].phase.Taken? && IsChunking(s.flights[i].phase.pending, chunks, cfg.maxBatchSize)
    case Reply(i, _) => At(s, i) && s.flights[i].phase.Sending? && s.flights[i].phase.chunks != []
    case Settle(i) => At(s, i) && s.flights[i].phase == Sending([])
    case Note(i, jitter) => At(s, i) && s.flights[i].phase.Failing? && IsJitter(jitter)
    case Clear(i) => At(s, i) && s.flights[i].phase.Ending?
    case Pass(time) => time >= 0.0
  }

  function Move(s: State, i: nat, phase: Phase): State
    requires At(s, i)
  {
    s.(flights := s.flights[i := s.flights[i].(phase := phase)])
  }

  /** A flush call has returned. */
  function Return(s: State, i: nat): State
    requires At(s, i)
  {
    Move(s, i, if s.flights[i].kind.Sized? then Ending else Done)
  }

  function Offered(cfg: Config, s: State, json: Option<nat>): State {
    var e := Event(|s.ledger.offered|, json);
    s.(core := Offer(cfg, s.core, e),
       flights := s.flights + (if StartsFlush(cfg, s.core) then [Flight(Sized, Waking)] else []),
       ledger := s.ledger.(offered := s.ledger.offered + [e],
                           full := s.ledger.full + (if IsFull(cfg, s.core) then [e] else [])))
  }

  function TookAll(s: State, i: nat): State
    requires At(s, i)
  {
    if s.core.buffer == [] then Return(s, i)
    else Move(s, i, Taken(s.core.buffer)).(core := s.core.(buffer := []))
  }

  function WasCut(s: State, i: nat, chunks: seq<seq<Event>>): State
    requires At(s, i) && s.flights[i].phase.Taken?
  {
    var pending := s.flights[i].phase.pending;
    Move(s, i, Sending(chunks)).(
      ledger := s.ledger.(unserializable := s.ledger.unserializable + Only(Unserializable, pending),
                          oversize := s.ledger.oversize + Only(Oversize, pending)))
  }

  function Answered(cfg: Config, s: State, i: nat, answer: Answer): State
    requires At(s, i) && s.flights[i].phase.Sending? && s.flights[i].phase.chunks != []
  {
    var chunks := s.flights[i].phase.chunks;
    match Judge(answer)
    case Accepted => Move(s, i, Sending(chunks[1..])).(ledger := s.ledger.(acked := s.ledger.acked + chunks[0]))
    case Rejected => Move(s, i, Sending(chunks[1..])).(ledger := s.ledger.(rejected := s.ledger.rejected + chunks[0]))
    case Transient(retryAfter) =>
      var batch := Flatten(chunks);
      var n := Overflow(cfg, s.core, batch);
      Move(s, i, Failing(retryAfter)).(
        core := PutBack(cfg, s.core, batch),
        ledger := s.ledger.(overflow := s.ledger.overflow + (batch + s.core.buffer)[..n]))
  }

  ghost function Next(cfg: Config, s: State, step: Step): State
    requires Enabled(cfg, s, step)
  {
    match step
    case Enqueue(json) => Offered(cfg, s, json)
    case Spawn(kind) => s.(flights := s.flights + [Flight(kind, if kind.Explicit? then Ready else Waking)])
    case Check(i) => if MustWait(s.core, s.clock) then Return(s, i) else Move(s, i, Ready)
    case Take(i) => TookAll(s, i)
    case Cut(i, chunks) => WasCut(s, i, chunks)
    case Reply(i, answer) => Answered(cfg, s, i, answer)
    case Settle(i) => Return(s, i).(core := Calm(s.core))
    case Note(i, jitter) =>
      Return(s, i).(core := NoteFailure(s.core, s.clock, s.flights[i].phase.retryAfter, jitter))
    case Clear(i) => Move(s, i, Done).(core := s.core.(flushing := false))
    case Pass(time) => s.(clock := s.clock + time)
  }

  /** Can the steps happen in this order from `s`? */
  ghost predicate CanRun(cfg: Config, s: State, steps: seq<Step>)
    decreases |steps|
  {
    steps == [] || (Enabled(cfg, s, steps[0]) && CanRun(cfg, Next(cfg, s, steps[0]), steps[1..]))
  }

  ghost function Run(cfg: Config, s: State, steps: seq<Step>): State
    requires CanRun(cfg, s, steps)
    decreases |steps|
  {
    if steps == [] then s else Run(cfg, Next(cfg, s, steps[0]), steps[1..])
  }

  // ----- conservation

  /** The events a flush holds. */
  function Load(f: Flight): seq<Event> {
    match f.phase
    case Taken(pending) => pending
    case Sending(chunks) => Flatten(chunks)
    case _ => []
  }

  function InFlight(flights: seq<Flight>, e: Event): nat {
    if flights == [] then 0 else Copies(Load(flights[0]), e) + InFlight(flights[1..], e)
  }

  lemma {:induction false} InFlightUpdate(flights: seq<Flight>, i: nat, f: Flight, e: Event)
    requires i < |flights|
    ensures InFlight(flights[i := f], e) + Copies(Load(flights[i]), e) == InFlight(flights, e) + Copies(Load(f), e)
  {
    hide Load, Copies;
    if i == 0 {
      assert flights[i := f][1..] == flights[1..];
    } else {
      assert flights[i := f][1..] == flights[1..][i - 1 := f];
      InFlightUpdate(flights[1..], i - 1, f, e);
    }
  }

  lemma {:induction false} InFlightSnoc(flights: seq<Flight>, f: Flight, e: Event)
    ensures InFlight(flights + [f], e) == InFlight(flights, e) + Copies(Load(f), e)
  {
    hide Load, Copies;
    if flights == [] {
      assert flights + [f] == [f];
    } else {
      assert (flights + [f])[1..] == flights[1..] + [f];
      InFlightSnoc(flights[1..], f, e);
    }
  }

  /** In how many of the ways an event can end, counting repetitions, it did end. */
  function Ended(l: Ledger, e: Event): nat {
    Copies(l.acked, e) + Copies(l.full, e) + Copies(l.unserializable, e) + Copies(l.oversize, e)
    + Copies(l.rejected, e) + Copies(l.overflow, e)
  }

  /** In how many places an event is: the buffer, some flush, or the end it met. */
  function Places(s: State, e: Event): nat {
    Copies(s.core.buffer, e) + InFlight(s.flights, e) + Ended(s.ledger, e)
  }

  ghost predicate Balanced(s: State, e: Event) {
    Copies(s.ledger.offered, e) == Places(s, e)
  }

  ghost predicate Conserved(s: State) {
    forall e :: Balanced(s, e)
  }

  lemma {:induction false} OfferedBalances(cfg: Config, s: State, json: Option<nat>, e: Event)
    requires Balanced(s, e)
    ensures Balanced(Offered(cfg, s, json), e)
  {
    var s' := Offered(cfg, s, json);
    var added := [Event(|s.ledger.offered|, json)];
    assert s.flights + [] == s.flights && s.ledger.full + [] == s.ledger.full;
    InFlightSnoc(s.flights, Flight(Sized, Waking), e);
    NoCopies(e);
    hide InFlight, Copies;
    assert InFlight(s'.flights, e) == InFlight(s.flights, e);
    CopiesConcat(s.ledger.offered, added, e);
    CopiesConcat(s.ledger.full, added, e);
    CopiesConcat(s.core.buffer, added, e);
  }

  lemma {:induction false} TakenBalances(s: State, i: nat, e: Event)
    requires Balanced(s, e) && At(s, i) && s.flights[i].phase.Ready?
    ensures Balanced(TookAll(s, i), e)
  {
    InFlightUpdate(s.flights, i, TookAll(s, i).flights[i], e);
    NoCopies(e);
    hide InFlight, Copies;
  }

  lemma {:induction false} CutCopies(pending: seq<Event>, chunks: seq<seq<Event>>, size: nat, e: Event)
    requires IsChunking(pending, chunks, size)
    ensures Copies(pending, e) ==
            Copies(Flatten(chunks), e) + Copies(Only(Unserializable, pending), e) + Copies(Only(Oversize, pending), e)
  {
    TakenIsPartitioned(pending);
    hide Only, NoneEmpty, AllFit, Tight, Flatten;
  }

  lemma {:induction false} CutBalances(s: State, i: nat, chunks: seq<seq<Event>>, size: nat, e: Event)
    requires Balanced(s, e) && At(s, i) && s.flights[i].phase.Taken?
    requires IsChunking(s.flights[i].phase.pending, chunks, size)
    ensures Balanced(WasCut(s, i, chunks), e)
  {
    var pending := s.flights[i].phase.pending;
    InFlightUpdate(s.flights, i, s.flights[i].(phase := Sending(chunks)), e);
    CutCopies(pending, chunks, size, e);
    CopiesConcat(s.ledger.unserializable, Only(Unserializable, pending), e);
    CopiesConcat(s.ledger.oversize, Only(Oversize, pending), e);
    hide InFlight, Only, IsChunking, Copies, Flatten;
  }

  lemma {:induction false} VerdictBalances(cfg: Config, s: State, i: nat, answer: Answer, e: Event)
    requires Balanced(s, e) && At(s, i) && s.flights[i].phase.Sending? && s.flights[i].phase.chunks != []
    requires !Judge(answer).Transient?
    ensures Balanced(Answered(cfg, s, i, answer), e)
  {
    var chunks := s.flights[i].phase.chunks;
    InFlightUpdate(s.flights, i, s.flights[i].(phase := Sending(chunks[1..])), e);
    assert Flatten(chunks) == chunks[0] + Flatten(chunks[1..]);
    CopiesConcat(chunks[0], Flatten(chunks[1..]), e);
    CopiesConcat(s.ledger.acked, chunks[0], e);
    CopiesConcat(s.ledger.rejected, chunks[0], e);
    hide InFlight, Flatten, Copies, Judge;
  }

  lemma {:induction false} RetryBalances(cfg: Config, s: State, i: nat, answer: Answer, e: Event)
    requires Balanced(s, e) && At(s, i) && s.flights[i].phase.Sending? && s.flights[i].phase.chunks != []
    requires Judge(answer).Transient?
    ensures Balanced(Answered(cfg, s, i, answer), e)
  {
    hide InFlight, Flatten, Copies, Overflow, Judge;
    var batch := Flatten(s.flights[i].phase.chunks);
    InFlightUpdate(s.flights, i, s.flights[i].(phase := Failing(Judge(answer).retryAfter)), e);
    var n := Overflow(cfg, s.core, batch);
    var combined := batch + s.core.buffer;
    CopiesConcat(batch, s.core.buffer, e);
    assert combined == combined[..n] + combined[n..];
    CopiesConcat(combined[..n], combined[n..], e);
    CopiesConcat(s.ledger.overflow, combined[..n], e);
    NoCopies(e);
  }

  lemma {:induction false} MoveBalances(s: State, i: nat, phase: Phase, e: Event)
    requires Balanced(s, e) && At(s, i)
    requires Load(s.flights[i]) == [] == Load(s.flights[i].(phase := phase))
    ensures Balanced(Move(s, i, phase), e)
  {
    InFlightUpdate(s.flights, i, s.flights[i].(phase := phase), e);
    hide InFlight, Copies, Ended;
  }

  lemma {:induction false} StepBalances(cfg: Config, s: State, step: Step, e: Event)
    requires Balanced(s, e) && Enabled(cfg, s, step)
    ensures Balanced(Next(cfg, s, step), e)
  {
    hide InFlight, Ended, Only, IsChunking, Copies, Offered, TookAll, WasCut, Answered;
    match step {
      case Enqueue(json) => OfferedBalances(cfg, s, json, e);
      case Spawn(kind) =>
        InFlightSnoc(s.flights, Next(cfg, s, step).flights[|s.flights|], e);
        NoCopies(e);
      case Take(i) => TakenBalances(s, i, e);
      case Cut(i, chunks) => CutBalances(s, i, chunks, cfg.maxBatchSize, e);
      case Reply(i, answer) =>
        if Judge(answer).Transient? {
          RetryBalances(cfg, s, i, answer, e);
        } else {
          VerdictBalances(cfg, s, i, answer, e);
        }
      case Pass(_) =>
      case _ => MoveBalances(s, step.i, Next(cfg, s, step).flights[step.i].phase, e);
    }
  }

  lemma {:induction false} StepConserves(cfg: Config, s: State, step: Step)
    requires Conserved(s) && Enabled(cfg, s, step)
    ensures Conserved(Next(cfg, s, step))
  {
    hide Balanced, Enabled, Next;
    forall e ensures Balanced(Next(cfg, s, step), e) {
      assert Balanced(s, e);
      StepBalances(cfg, s, step, e);
    }
  }

  // ----- bounds, single flight, the warning flag

  ghost predicate LiveSized(f: Flight) {
    f.kind.Sized? && !f.phase.Done?
  }

  /** The flag is up exactly while one size-triggered goroutine lives, and there is never a second. */
  ghost predicate SingleFlight(s: State) {
    && (s.core.flushing <==> exists i | 0 <= i < |s.flights| :: LiveSized(s.flights[i]))
    && (forall i, j | 0 <= i < j < |s.flights| :: !LiveSized(s.flights[i]) || !LiveSized(s.flights[j]))
    && (forall i | 0 <= i < |s.flights| :: s.flights[i].phase.Ending? ==> s.flights[i].kind.Sized?)
  }

  ghost predicate RequestsFit(cfg: Config, s: State) {
    forall i | 0 <= i < |s.flights| :: s.flights[i].phase.Sending? ==>
      NoneEmpty(s.flights[i].phase.chunks) && AllFit(s.flights[i].phase.chunks, cfg.maxBatchSize)
  }

  ghost predicate AdviceIsCapped(s: State) {
    forall i | 0 <= i < |s.flights| :: s.flights[i].phase.Failing? ==> 0.0 <= s.flights[i].phase.retryAfter <= BACKOFF_MAX
  }

  ghost predicate Bounded(cfg: Config, s: State) {
    && |s.core.buffer| <= cfg.maxBufferSize
    && s.core.failures <= MAX_FAILURES
    && s.clock >= 0.0
    && s.core.backoffUntil <= s.clock + 75.0
  }

  /** The warning flag is up exactly when the buffer has cost events. */
  ghost predicate WarnedIffLost(s: State) {
    s.core.warnedFull <==> s.ledger.full != [] || s.ledger.overflow != []
  }

  lemma {:induction false} StepIsBounded(cfg: Config, s: State, step: Step)
    requires Bounded(cfg, s) && AdviceIsCapped(s) && WarnedIffLost(s) && Enabled(cfg, s, step)
    ensures Bounded(cfg, Next(cfg, s, step)) && AdviceIsCapped(Next(cfg, s, step)) && WarnedIffLost(Next(cfg, s, step))
  {
    hide Exponential, IsChunking, Only, Flatten;
    if step.Note? {
      DelayIsBounded(s.core.failures, s.flights[step.i].phase.retryAfter, step.jitter);
    }
  }

  lemma {:induction false} SameLiveness(s: State, s': State)
    requires SingleFlight(s) && s'.core.flushing == s.core.flushing && |s.flights| <= |s'.flights|
    requires forall i | 0 <= i < |s.flights| :: LiveSized(s'.flights[i]) <==> LiveSized(s.flights[i])
    requires forall i | |s.flights| <= i < |s'.flights| :: !LiveSized(s'.flights[i])
    requires forall i | 0 <= i < |s'.flights| :: s'.flights[i].phase.Ending? ==> s'.flights[i].kind.Sized?
    ensures SingleFlight(s')
  {
    if s.core.flushing {
      var i :| 0 <= i < |s.flights| && LiveSized(s.flights[i]);
      assert LiveSized(s'.flights[i]);
    }
  }

  lemma {:induction false} OfferKeepsSingleFlight(cfg: Config, s: State, json: Option<nat>)
    requires SingleFlight(s)
    ensures SingleFlight(Offered(cfg, s, json))
  {
    var s' := Offered(cfg, s, json);
    if StartsFlush(cfg, s.core) {
      assert LiveSized(s'.flights[|s.flights|]);
    } else {
      SameLiveness(s, s');
    }
  }

  lemma {:induction false} ClearKeepsSingleFlight(cfg: Config, s: State, i: nat)
    requires SingleFlight(s) && Enabled(cfg, s, Clear(i))
    ensures SingleFlight(Next(cfg, s, Clear(i)))
  {
    assert LiveSized(s.flights[i]);
  }

  lemma {:induction false} MoveKeepsSingleFlight(s: State, s': State, i: nat)
    requires SingleFlight(s) && s'.core.flushing == s.core.flushing && At(s, i)
    requires |s'.flights| == |s.flights| && s'.flights == s.flights[i := s'.flights[i]]
    requires LiveSized(s'.flights[i]) <==> LiveSized(s.flights[i])
    requires s'.flights[i].phase.Ending? ==> s'.flights[i].kind.Sized?
    ensures SingleFlight(s')
  {
    SameLiveness(s, s');
  }

  lemma {:induction false} StepKeepsSingleFlight(cfg: Config, s: State, step: Step)
    requires SingleFlight(s) && Enabled(cfg, s, step)
    ensures SingleFlight(Next(cfg, s, step))
  {
    match step {
      case Enqueue(json) => OfferKeepsSingleFlight(cfg, s, json);
      case Clear(i) => ClearKeepsSingleFlight(cfg, s, i);
      case Spawn(_) => SameLiveness(s, Next(cfg, s, step));
      case Pass(_) =>
      case _ =>
        hide IsChunking, Only, Flatten, Judge, Overflow, Delay, SingleFlight, Offered;
        MoveKeepsSingleFlight(s, Next(cfg, s, step), step.i);
    }
  }

  lemma {:induction false} StepKeepsRequests(cfg: Config, s: State, step: Step)
    requires RequestsFit(cfg, s) && Enabled(cfg, s, step)
    ensures RequestsFit(cfg, Next(cfg, s, step))
  {
    hide Only, Flatten, Tight, Fits;
  }

  // ----- what every reachable state satisfies

  ghost predicate Numbered(s: State) {
    forall i | 0 <= i < |s.ledger.offered| :: s.ledger.offered[i].id == i
  }

  ghost predicate Safe(cfg: Config, s: State) {
    && Bounded(cfg, s) && AdviceIsCapped(s) && WarnedIffLost(s) && SingleFlight(s)
    && RequestsFit(cfg, s) && Conserved(s) && Numbered(s)
  }

  lemma {:induction false} StepIsSafe(cfg: Config, s: State, step: Step)
    requires Safe(cfg, s) && Enabled(cfg, s, step)
    ensures Safe(cfg, Next(cfg, s, step))
  {
    StepIsBounded(cfg, s, step);
    StepKeepsSingleFlight(cfg, s, step);
    StepKeepsRequests(cfg, s, step);
    StepConserves(cfg, s, step);
    hide Bounded, AdviceIsCapped, WarnedIffLost, SingleFlight, RequestsFit, Conserved;
    hide IsChunking, Only, Flatten, Judge, Overflow, PutBack, NoteFailure, Calm;
  }

  lemma {:induction false} RunIsSafe(cfg: Config, s: State, steps: seq<Step>)
    requires Safe(cfg, s) && CanRun(cfg, s, steps)
    ensures Safe(cfg, Run(cfg, s, steps))
    decreases |steps|
  {
    hide Safe, Next, Enabled;
    if steps != [] {
      StepIsSafe(cfg, s, steps[0]);
      RunIsSafe(cfg, Next(cfg, s, steps[0]), steps[1..]);
    }
  }

  lemma {:induction false} NumberedOnce(offered: seq<Event>, e: Event)
    requires forall i | 0 <= i < |offered| :: offered[i].id == i
    ensures Copies(offered, e) == if e in offered then 1 else 0
  {
    if offered != [] {
      var n := |offered| - 1;
      NumberedOnce(offered[..n], e);
      assert offered == offered[..n] + [offered[n]];
    }
  }

  /**
   * In every interleaving the buffer stays within its cap and each event that
   * was offered is in exactly one place.
   */
  lemma {:induction false} EveryEventAccounted(cfg: Config, steps: seq<Step>)
    requires CanRun(cfg, START, steps)
    ensures var s := Run(cfg, START, steps);
            && |s.core.buffer| <= cfg.maxBufferSize
            && forall e :: Places(s, e) == if e in s.ledger.offered then 1 else 0
  {
    var s := Run(cfg, START, steps);
    RunIsSafe(cfg, START, steps);
    forall e ensures Places(s, e) == if e in s.ledger.offered then 1 else 0 {
      NumberedOnce(s.ledger.offered, e);
      assert Balanced(s, e);
    }
  }

  /** The other things no interleaving breaks. */
  lemma {:induction false} EveryRunIsDisciplined(cfg: Config, steps: seq<Step>)
    requires CanRun(cfg, START, steps)
    ensures var s := Run(cfg, START, steps);
            && SingleFlight(s) && RequestsFit(cfg, s) && WarnedIffLost(s)
            && s.core.failures <= MAX_FAILURES && s.core.backoffUntil <= s.clock + 75.0
  {
    RunIsSafe(cfg, START, steps);
  }

  // ----- order

  /** Enqueue order: an event's number is its position among the events offered. */
  ghost predicate Increasing(events: seq<Event>) {
    forall i, j | 0 <= i < j < |events| :: events[i].id < events[j].id
  }

  ghost predicate Below(events: seq<Event>, n: nat) {
    forall i | 0 <= i < |events| :: events[i].id < n
  }

  lemma {:induction false} CutOutKeepsOrder(a: seq<Event>, b: seq<Event>, c: seq<Event>, n: nat)
    requires Increasing(a + b + c) && Below(a + b + c, n)
    ensures Increasing(a + c) && Below(a + c, n)
  {
    var whole := a + b + c;
    forall i | 0 <= i < |a + c| ensures (a + c)[i] == whole[if i < |a| then i else i + |b|] {
    }
  }

  lemma {:induction false} FilterKeepsOrder(a: seq<Event>, b: seq<Event>, c: seq<Event>, n: nat, p: Event -> bool)
    requires Increasing(a + b + c) && Below(a + b + c, n)
    ensures Increasing(a + Only(p, b) + c) && Below(a + Only(p, b) + c, n)
    decreases |b|
  {
    if b == [] {
    } else {
      var first := [b[0]];
      assert a + b + c == (a + first) + b[1..] + c;
      assert (a + first) + b[1..] + c == a + first + (b[1..] + c);
      if p(b[0]) {
        FilterKeepsOrder(a + first, b[1..], c, n, p);
        assert (a + first) + Only(p, b[1..]) + c == a + (first + Only(p, b[1..])) + c;
      } else {
        CutOutKeepsOrder(a, first, b[1..] + c, n);
        assert a + (b[1..] + c) == a + b[1..] + c;
        FilterKeepsOrder(a, b[1..], c, n, p);
        assert [] + Only(p, b[1..]) == Only(p, b[1..]);
      }
    }
  }

  /** Flushes do not overlap when no flush takes events while another still holds some. */
  ghost predicate Lone(s: State, step: Step) {
    step.Take? ==> forall j | 0 <= j < |s.flights| :: Load(s.flights[j]) == []
  }

  ghost predicate NeverOverlaps(cfg: Config, s: State, steps: seq<Step>)
    requires CanRun(cfg, s, steps)
    decreases |steps|
  {
    steps == [] || (Lone(s, steps[0]) && NeverOverlaps(cfg, Next(cfg, s, steps[0]), steps[1..]))
  }

  /** Flush `k` holds `held`; no other flush holds anything. */
  ghost predicate Holds(s: State, k: nat, held: seq<Event>) {
    && (held != [] ==> At(s, k))
    && forall j | 0 <= j < |s.flights| :: Load(s.flights[j]) == if j == k then held else []
  }

  /** What was acknowledged, then what the one loaded flush holds, then the buffer: in enqueue order. */
  ghost predicate Line(s: State, held: seq<Event>) {
    var line := s.ledger.acked + held + s.core.buffer;
    Increasing(line) && Below(line, |s.ledger.offered|)
  }

  ghost predicate InOrder(s: State, k: nat, held: seq<Event>) {
    Holds(s, k, held) && Line(s, held)
  }

  lemma {:induction false} OfferedInOrder(cfg: Config, s: State, json: Option<nat>, k: nat, held: seq<Event>)
    requires InOrder(s, k, held)
    ensures InOrder(Offered(cfg, s, json), k, held)
  {
    var s' := Offered(cfg, s, json);
    if !IsFull(cfg, s.core) {
      var line := s.ledger.acked + held + s.core.buffer;
      assert s'.ledger.acked + held + s'.core.buffer == line + [Event(|s.ledger.offered|, json)];
    }
  }

  lemma {:induction false} TookInOrder(s: State, i: nat, k: nat, held: seq<Event>)
    requires InOrder(s, k, held) && At(s, i) && s.flights[i].phase.Ready?
    requires forall j | 0 <= j < |s.flights| :: Load(s.flights[j]) == []
    ensures InOrder(TookAll(s, i), i, s.core.buffer)
  {
    assert At(s, k) ==> Load(s.flights[k]) == held;
    assert s.ledger.acked + held + s.core.buffer == s.ledger.acked + s.core.buffer + [];
    assert Load(TookAll(s, i).flights[i]) == s.core.buffer;
  }

  lemma {:induction false} CutInOrder(s: State, i: nat, chunks: seq<seq<Event>>, size: nat, k: nat, held: seq<Event>)
    requires InOrder(s, k, held) && At(s, i) && s.flights[i].phase.Taken?
    requires IsChunking(s.flights[i].phase.pending, chunks, size)
    ensures InOrder(WasCut(s, i, chunks), k, if i == k then Flatten(chunks) else held)
  {
    assert Load(s.flights[i]) == s.flights[i].phase.pending;
    assert Load(WasCut(s, i, chunks).flights[i]) == Flatten(chunks);
    hide Increasing, Below, NoneEmpty, AllFit, Tight, Flatten;
    if i == k {
      FilterKeepsOrder(s.ledger.acked, held, s.core.buffer, |s.ledger.offered|, IsSendable);
    } else {
      assert Flatten(chunks) == [];
    }
  }

  /** What becomes of the line when the head of what a flush holds is answered. */
  lemma {:induction false} AnsweredLine(cfg: Config, core: Core, acked: seq<Event>, head: seq<Event>, tail: seq<Event>, n: nat)
    requires Increasing(acked + (head + tail) + core.buffer) && Below(acked + (head + tail) + core.buffer, n)
    ensures Increasing((acked + head) + tail + core.buffer) && Below((acked + head) + tail + core.buffer, n)
    ensures Increasing(acked + tail + core.buffer) && Below(acked + tail + core.buffer, n)
    ensures var kept := PutBack(cfg, core, head + tail).buffer;
            Increasing(acked + [] + kept) && Below(acked + [] + kept, n)
  {
    var buffer, held := core.buffer, head + tail;
    var lost := Overflow(cfg, core, held);
    var combined := held + buffer;
    hide Increasing, Below, Overflow;
    assert acked + held + buffer == (acked + head) + tail + buffer;
    assert acked + held + buffer == acked + head + (tail + buffer);
    CutOutKeepsOrder(acked, head, tail + buffer, n);
    assert acked + (tail + buffer) == acked + tail + buffer;
    assert acked + held + buffer == acked + combined[..lost] + combined[lost..];
    CutOutKeepsOrder(acked, combined[..lost], combined[lost..], n);
    assert acked + combined[lost..] == acked + [] + combined[lost..];
  }

  lemma {:induction false} AnsweredHolds(cfg: Config, s: State, i: nat, answer: Answer, k: nat, held: seq<Event>)
    requires Holds(s, k, held) && Enabled(cfg, s, Reply(i, answer)) && s.flights[i].phase.chunks[0] != []
    ensures i == k && held == s.flights[i].phase.chunks[0] + Flatten(s.flights[i].phase.chunks[1..])
    ensures var s' := Answered(cfg, s, i, answer);
            Holds(s', k, Load(s'.flights[i]))
            && Load(s'.flights[i]) == if Judge(answer).Transient? then [] else Flatten(s.flights[i].phase.chunks[1..])
  {
    var chunks := s.flights[i].phase.chunks;
    assert Load(s.flights[i]) == Flatten(chunks) == chunks[0] + Flatten(chunks[1..]);
    hide Flatten, Judge, Overflow, PutBack;
    var s' := Answered(cfg, s, i, answer);
    assert forall j | 0 <= j < |s.flights| && j != i :: s'.flights[j] == s.flights[j];
  }

  lemma {:induction false} AnsweredInOrder(cfg: Config, s: State, i: nat, answer: Answer, k: nat, held: seq<Event>)
    requires InOrder(s, k, held) && Enabled(cfg, s, Reply(i, answer)) && s.flights[i].phase.chunks[0] != []
    ensures InOrder(Answered(cfg, s, i, answer), k, Load(Answered(cfg, s, i, answer).flights[i]))
  {
    var chunks := s.flights[i].phase.chunks;
    AnsweredHolds(cfg, s, i, answer, k, held);
    AnsweredLine(cfg, s.core, s.ledger.acked, chunks[0], Flatten(chunks[1..]), |s.ledger.offered|);
    hide Increasing, Below, Judge, Overflow, Holds, Flatten, PutBack, Load;
  }

  lemma {:induction false} StepInOrder(cfg: Config, s: State, step: Step, k: nat, held: seq<Event>)
    returns (k': nat, held': seq<Event>)
    requires InOrder(s, k, held) && RequestsFit(cfg, s) && Enabled(cfg, s, step) && Lone(s, step)
    ensures InOrder(Next(cfg, s, step), k', held')
  {
    k', held' := k, held;
    match step {
      case Enqueue(json) => OfferedInOrder(cfg, s, json, k, held);
      case Take(i) =>
        TookInOrder(s, i, k, held);
        k', held' := i, s.core.buffer;
      case Cut(i, chunks) =>
        CutInOrder(s, i, chunks, cfg.maxBatchSize, k, held);
        held' := if i == k then Flatten(chunks) else held;
      case Reply(i, answer) =>
        AnsweredInOrder(cfg, s, i, answer, k, held);
        held' := Load(Answered(cfg, s, i, answer).flights[i]);
      case _ =>
        hide Increasing, Below, Only, IsChunking, Delay, Flatten, RequestsFit;
    }
  }

  lemma {:induction false} RunInOrder(cfg: Config, s: State, steps: seq<Step>, k: nat, held: seq<Event>)
    returns (k': nat, held': seq<Event>)
    requires InOrder(s, k, held) && Safe(cfg, s) && CanRun(cfg, s, steps) && NeverOverlaps(cfg, s, steps)
    ensures InOrder(Run(cfg, s, steps), k', held')
    decreases |steps|
  {
    hide InOrder, Next, Enabled, Lone;
    k', held' := k, held;
    if steps != [] {
      StepIsSafe(cfg, s, steps[0]);
      var k1, held1 := StepInOrder(cfg, s, steps[0], k, held);
      k', held' := RunInOrder(cfg, Next(cfg, s, steps[0]), steps[1..], k1, held1);
    }
  }

  lemma {:induction false} StartIsInOrder(cfg: Config)
    ensures InOrder(START, 0, []) && Safe(cfg, START)
  {
  }

  /**
   * When flushes do not overlap, the acknowledged events followed by the buffer
   * are in enqueue order, whatever was rejected, retried or lost on the way.
   */
  lemma {:induction false} OrderWithoutOverlap(cfg: Config, steps: seq<Step>)
    requires CanRun(cfg, START, steps) && NeverOverlaps(cfg, START, steps)
    ensures var s := Run(cfg, START, steps);
            Increasing(s.ledger.acked + s.core.buffer)
  {
    StartIsInOrder(cfg);
    var k, held := RunInOrder(cfg, START, steps, 0, []);
    var s := Run(cfg, START, steps);
    hide Run, CanRun, NeverOverlaps, Holds, Safe;
    CutOutKeepsOrder(s.ledger.acked, held, s.core.buffer, |s.ledger.offered|);
  }

  lemma {:induction false} RunFirst(cfg: Config, s: State, step: Step, rest: seq<Step>)
    requires Enabled(cfg, s, step) && CanRun(cfg, Next(cfg, s, step), rest)
    ensures CanRun(cfg, s, [step] + rest)
    ensures Run(cfg, s, [step] + rest) == Run(cfg, Next(cfg, s, step), rest)
  {
    assert ([step] + rest)[1..] == rest;
  }

  /** Two flushes, the younger one answered first. */
  function Overtaking(e0: Event, e1: Event): seq<Step> {
    [Enqueue(e0.json)] + ([Spawn(Explicit)] + ([Take(0)] + ([Enqueue(e1.json)] + ([Spawn(Explicit)] + ([Take(1)]
    + ([Cut(0, [[e0]])] + ([Cut(1, [[e1]])] + ([Reply(1, Status(200, Missing))] + ([Reply(0, Status(200, Missing))] + [])))))))))
  }

  lemma {:induction false} SingleChunk(e: Event, size: nat)
    requires IsSendable(e) && size >= 1
    ensures IsChunking([e], [[e]], size)
  {
    assert Flatten([[e]]) == [e];
    assert Only(IsSendable, [e]) == [e];
    assert Bytes([e]) == Cost(e);
  }

  /** Without that restriction the order is not kept: two overlapping flushes suffice. */
  lemma {:induction false} OverlapReorders(cfg: Config, bytes: nat)
    requires cfg.maxBufferSize >= 1 && cfg.maxBatchSize >= 1 && cfg.flushAt >= 2 && bytes < MAX_BATCH_BYTES
    ensures var e0, e1 := Event(0, Some(bytes)), Event(1, Some(bytes));
            && CanRun(cfg, START, Overtaking(e0, e1))
            && Run(cfg, START, Overtaking(e0, e1)).ledger.acked == [e1, e0]
  {
    var e0, e1 := Event(0, Some(bytes)), Event(1, Some(bytes));
    var ok := Status(200, Missing);
    SingleChunk(e0, cfg.maxBatchSize);
    SingleChunk(e1, cfg.maxBatchSize);
    hide IsChunking, Run, CanRun, Only;
    var s1 := Next(cfg, START, Enqueue(e0.json));
    var s2 := Next(cfg, s1, Spawn(Explicit));
    var s3 := Next(cfg, s2, Take(0));
    var s4 := Next(cfg, s3, Enqueue(e1.json));
    var s5 := Next(cfg, s4, Spawn(Explicit));
    var s6 := Next(cfg, s5, Take(1));
    assert s1.core.buffer == [e0] && s4.core.buffer == [e1];
    var s7 := Next(cfg, s6, Cut(0, [[e0]]));
    var s8 := Next(cfg, s7, Cut(1, [[e1]]));
    var s9 := Next(cfg, s8, Reply(1, ok));
    var s10 := Next(cfg, s9, Reply(0, ok));
    assert s10.ledger.acked == [e1, e0];
    EmptyRun(cfg, s10);
    RunFirst(cfg, s9, Reply(0, ok), []);
    var r9 := [Reply(0, ok)] + [];
    RunFirst(cfg, s8, Reply(1, ok), r9);
    var r8 := [Reply(1, ok)] + r9;
    RunFirst(cfg, s7, Cut(1, [[e1]]), r8);
    var r7 := [Cut(1, [[e1]])] + r8;
    RunFirst(cfg, s6, Cut(0, [[e0]]), r7);
    var r6 := [Cut(0, [[e0]])] + r7;
    RunFirst(cfg, s5, Take(1), r6);
    var r5 := [Take(1)] + r6;
    RunFirst(cfg, s4, Spawn(Explicit), r5);
    var r4 := [Spawn(Explicit)] + r5;
    RunFirst(cfg, s3, Enqueue(e1.json), r4);
    var r3 := [Enqueue(e1.json)] + r4;
    RunFirst(cfg, s2, Take(0), r3);
    var r2 := [Take(0)] + r3;
    RunFirst(cfg, s1, Spawn(Explicit), r2);
    RunFirst(cfg, START, Enqueue(e0.json), [Spawn(Explicit)] + r2);
  }

  lemma {:induction false} EmptyRun(cfg: Config, s: State)
    ensures CanRun(cfg, s, []) && Run(cfg, s, []) == s
  {
  }

  lemma {:induction false} RunOne(cfg: Config, s: State, step: Step)
    requires Enabled(cfg, s, step)
    ensures CanRun(cfg, s, [step]) && Run(cfg, s, [step]) == Next(cfg, s, step)
  {
    EmptyRun(cfg, Next(cfg, s, step));
    RunFirst(cfg, s, step, []);
    assert [step] + [] == [step];
  }

  // ----- the client object's flush is a run of the protocol

  /** The steps by which flush `i`, undisturbed, sends chunk `c` and those after it and returns. */
  function SendScript(i: nat, chunks: seq<seq<Event>>, c: nat, server: nat -> Answer, jitter: real): seq<Step>
    decreases |chunks| - c
  {
    if c >= |chunks| then [Settle(i)]
    else [Reply(i, server(c))] +
         if Judge(server(c)).Transient? then [Note(i, jitter)] else SendScript(i, chunks, c + 1, server, jitter)
  }

  /** One chunk settled. */
  lemma {:induction false} ChunkSettles(cfg: Config, s: State, i: nat, chunks: seq<seq<Event>>, c: nat, answer: Answer)
    requires At(s, i) && c < |chunks| && s.flights[i].phase == Sending(chunks[c..])
    ensures Enabled(cfg, s, Reply(i, answer))
    ensures var s' := Next(cfg, s, Reply(i, answer));
            && s'.clock == s.clock && At(s', i) && s'.ledger.offered == s.ledger.offered
            && s'.flights == s.flights[i := Flight(s.flights[i].kind, s'.flights[i].phase)]
            && (!Judge(answer).Transient? ==> s'.core == s.core && s'.flights[i].phase == Sending(chunks[c + 1..]))
            && (Judge(answer).Accepted? ==> s'.ledger.acked == s.ledger.acked + chunks[c])
            && (!Judge(answer).Accepted? ==> s'.ledger.acked == s.ledger.acked)
            && (Judge(answer).Transient? ==> s'.core == PutBack(cfg, s.core, Flatten(chunks[c..]))
                                             && s'.flights[i].phase == Failing(Judge(answer).retryAfter))
  {
    hide Flatten, Judge, PutBack, Overflow;
    assert chunks[c..][1..] == chunks[c + 1..] && chunks[c..][0] == chunks[c];
  }

  lemma {:induction false} NoteEnds(cfg: Config, s: State, i: nat, jitter: real)
    requires At(s, i) && s.flights[i].phase.Failing? && IsJitter(jitter)
    ensures CanRun(cfg, s, [Note(i, jitter)])
    ensures var s' := Run(cfg, s, [Note(i, jitter)]);
            && s'.core == NoteFailure(s.core, s.clock, s.flights[i].phase.retryAfter, jitter)
            && s'.ledger == s.ledger && s'.flights == Return(s, i).flights
  {
    RunOne(cfg, s, Note(i, jitter));
  }

  lemma {:induction false} SameReturn(s: State, s': State, i: nat)
    requires At(s, i) && At(s', i) && s'.flights == s.flights[i := Flight(s.flights[i].kind, s'.flights[i].phase)]
    ensures Return(s', i).flights == Return(s, i).flights
  {
  }

  /** In `s'` flush `i` has returned, and what `d` tells has happened since `s`. */
  ghost predicate Delivered(cfg: Config, s: State, s': State, i: nat, d: Delivery, jitter: real)
    requires At(s, i)
  {
    && s'.ledger.acked == s.ledger.acked + d.acked
    && s'.ledger.offered == s.ledger.offered
    && s'.flights == Return(s, i).flights
    && s'.core == if d.failed.Some? then NoteFailure(PutBack(cfg, s.core, Flatten(d.rest)), s.clock, d.failed.value, jitter)
                  else Calm(s.core)
  }

  lemma {:induction false} DeliveredFirst(cfg: Config, s: State, s': State, i: nat, chunks: seq<seq<Event>>, c: nat,
                                          server: nat -> Answer, jitter: real)
    requires At(s, i) && c < |chunks| && s.flights[i].phase == Sending(chunks[c..]) && !Judge(server(c)).Transient?
    requires var s1 := Next(cfg, s, Reply(i, server(c))); At(s1, i) && Delivered(cfg, s1, s', i, Deliver(chunks, c + 1, server), jitter)
    ensures Delivered(cfg, s, s', i, Deliver(chunks, c, server), jitter)
  {
    hide Flatten, Judge, NoteFailure, Calm, PutBack, Overflow;
    DeliverStep(chunks, c, server);
    ChunkSettles(cfg, s, i, chunks, c, server(c));
    hide Deliver;
    var s1 := Next(cfg, s, Reply(i, server(c)));
    hide Next, Enabled;
    SameReturn(s, s1, i);
    hide Return;
    var d := Deliver(chunks, c + 1, server);
    assert s.ledger.acked + (chunks[c] + d.acked) == (s.ledger.acked + chunks[c]) + d.acked;
  }

  lemma {:induction false} DeliveredLast(cfg: Config, s: State, i: nat, chunks: seq<seq<Event>>, c: nat,
                                         server: nat -> Answer, jitter: real)
    requires At(s, i) && c < |chunks| && s.flights[i].phase == Sending(chunks[c..]) && Judge(server(c)).Transient? && IsJitter(jitter)
    ensures var s1 := Next(cfg, s, Reply(i, server(c)));
            && CanRun(cfg, s1, [Note(i, jitter)])
            && Delivered(cfg, s, Run(cfg, s1, [Note(i, jitter)]), i, Deliver(chunks, c, server), jitter)
  {
    hide Flatten, Judge, NoteFailure, Calm, PutBack, Overflow, CanRun, Run;
    DeliverStep(chunks, c, server);
    ChunkSettles(cfg, s, i, chunks, c, server(c));
    hide Deliver;
    var s1 := Next(cfg, s, Reply(i, server(c)));
    SameReturn(s, s1, i);
    NoteEnds(cfg, s1, i, jitter);
    hide Next, Enabled, Return;
  }

  lemma {:induction false} SendingRuns(cfg: Config, s: State, i: nat, chunks: seq<seq<Event>>, c: nat,
                                       server: nat -> Answer, jitter: real)
    requires At(s, i) && c <= |chunks| && s.flights[i].phase == Sending(chunks[c..]) && IsJitter(jitter)
    ensures var script := SendScript(i, chunks, c, server, jitter);
            CanRun(cfg, s, script) && Delivered(cfg, s, Run(cfg, s, script), i, Deliver(chunks, c, server), jitter)
    decreases |chunks| - c
  {
    hide Flatten, Judge, NoteFailure, Calm, PutBack, Overflow, CanRun, Run;
    if c == |chunks| {
      RunOne(cfg, s, Settle(i));
    } else {
      var reply := Reply(i, server(c));
      ChunkSettles(cfg, s, i, chunks, c, server(c));
      hide Deliver, Delivered, Next, Enabled;
      if Judge(server(c)).Transient? {
        DeliveredLast(cfg, s, i, chunks, c, server, jitter);
        RunFirst(cfg, s, reply, [Note(i, jitter)]);
        assert SendScript(i, chunks, c, server, jitter) == [reply] + [Note(i, jitter)];
      } else {
        SendingRuns(cfg, Next(cfg, s, reply), i, chunks, c + 1, server, jitter);
        var rest := SendScript(i, chunks, c + 1, server, jitter);
        RunFirst(cfg, s, reply, rest);
        DeliveredFirst(cfg, s, Run(cfg, Next(cfg, s, reply), rest), i, chunks, c, server, jitter);
      }
    }
  }

  /** One flush in a row. */
  function FlushScript(s: State, i: nat, chunks: seq<seq<Event>>, server: nat -> Answer, jitter: real): seq<Step> {
    [Take(i)] + if s.core.buffer == [] then [] else [Cut(i, chunks)] + SendScript(i, chunks, 0, server, jitter)
  }

  lemma {:induction false} NothingToSend(chunks: seq<seq<Event>>, size: nat, server: nat -> Answer)
    requires IsChunking([], chunks, size)
    ensures Deliver(chunks, 0, server) == Delivery([], [], [], None)
  {
    assert Flatten(chunks) == [];
  }

  /** A flush of the client object ends where the protocol's steps of one flush in a row end. */
  lemma {:induction false} FlushIsARun(cfg: Config, s: State, i: nat, chunks: seq<seq<Event>>,
                                       server: nat -> Answer, jitter: real)
    requires At(s, i) && s.flights[i].phase.Ready? && IsJitter(jitter)
    requires IsChunking(s.core.buffer, chunks, cfg.maxBatchSize)
    ensures var script := FlushScript(s, i, chunks, server, jitter);
            && CanRun(cfg, s, script)
            && Run(cfg, s, script).core == AfterFlush(cfg, s.core, Deliver(chunks, 0, server), s.clock, jitter)
            && Run(cfg, s, script).ledger.acked == s.ledger.acked + Deliver(chunks, 0, server).acked
            && Run(cfg, s, script).ledger.offered == s.ledger.offered
            && Run(cfg, s, script).flights == Return(s, i).flights
  {
    var s1 := Next(cfg, s, Take(i));
    if s.core.buffer == [] {
      NothingToSend(chunks, cfg.maxBatchSize, server);
      RunOne(cfg, s, Take(i));
      assert [Take(i)] + [] == [Take(i)];
    } else {
      hide IsChunking, Only, Deliver, SendScript;
      var s2 := Next(cfg, s1, Cut(i, chunks));
      var sends := SendScript(i, chunks, 0, server, jitter);
      assert chunks[0..] == chunks;
      SendingRuns(cfg, s2, i, chunks, 0, server, jitter);
      RunFirst(cfg, s1, Cut(i, chunks), sends);
      RunFirst(cfg, s, Take(i), [Cut(i, chunks)] + sends);
    }
  }

  // ----- shutdown

  /** Every flush call has returned, the timer's among them. */
  ghost predicate Quiet(s: State) {
    forall j | 0 <= j < |s.flights| :: s.flights[j].phase.Done?
  }

  lemma {:induction false} QuietCarriesNothing(flights: seq<Flight>, e: Event)
    requires forall j | 0 <= j < |flights| :: flights[j].phase.Done?
    ensures InFlight(flights, e) == 0
  {
    if flights != [] {
      NoCopies(e);
      QuietCarriesNothing(flights[1..], e);
    }
  }

  /** What a flush leaves in the buffer is nothing exactly when no answer was transient. */
  lemma {:induction false} LeftExactlyOnFailure(cfg: Config, c: Core, chunks: seq<seq<Event>>, server: nat -> Answer, now: real, jitter: real)
    requires |c.buffer| <= cfg.maxBufferSize && IsChunking(c.buffer, chunks, cfg.maxBatchSize)
    ensures var d := Deliver(chunks, 0, server);
            AfterFlush(cfg, c, d, now, jitter).buffer == [] <==> d.failed.None?
  {
    var d := Deliver(chunks, 0, server);
    if c.buffer == [] {
      NothingToSend(chunks, cfg.maxBatchSize, server);
    } else if d.failed.Some? {
      DeliveryLeavesTail(chunks, 0, server);
      assert d.rest[0] != [] && Flatten(d.rest) == d.rest[0] + Flatten(d.rest[1..]);
    }
  }

  /**
   * `Shutdown`: the timer has stopped, no other call runs, and one last flush. Whatever
   * the run before, it leaves the buffer empty exactly when no answer is transient, and
   * then every event ever offered has ended, once; otherwise the others are in the buffer.
   */
  lemma {:induction false} ShutdownSettles(cfg: Config, steps: seq<Step>, chunks: seq<seq<Event>>, server: nat -> Answer, jitter: real)
    requires CanRun(cfg, START, steps) && Quiet(Run(cfg, START, steps)) && IsJitter(jitter)
    requires IsChunking(Run(cfg, START, steps).core.buffer, chunks, cfg.maxBatchSize)
    ensures var s := Run(cfg, START, steps);
            var script := [Spawn(Explicit)] + FlushScript(s, |s.flights|, chunks, server, jitter);
            && CanRun(cfg, s, script)
            && var s' := Run(cfg, s, script);
            && Quiet(s') && s'.ledger.offered == s.ledger.offered
            && (s'.core.buffer == [] <==> Deliver(chunks, 0, server).failed.None?)
            && forall e :: Copies(s'.core.buffer, e) + Ended(s'.ledger, e) == if e in s.ledger.offered then 1 else 0
  {
    RunIsSafe(cfg, START, steps);
    var s := Run(cfg, START, steps);
    var s1 := Next(cfg, s, Spawn(Explicit));
    var script := FlushScript(s, |s.flights|, chunks, server, jitter);
    hide Run, CanRun, IsChunking, FlushScript, Deliver, AfterFlush;
    assert FlushScript(s1, |s.flights|, chunks, server, jitter) == script by {
      hide SendScript;
    }
    FlushIsARun(cfg, s1, |s.flights|, chunks, server, jitter);
    RunFirst(cfg, s, Spawn(Explicit), script);
    LeftExactlyOnFailure(cfg, s.core, chunks, server, s.clock, jitter);
    RunIsSafe(cfg, s, [Spawn(Explicit)] + script);
    var s' := Run(cfg, s, [Spawn(Explicit)] + script);
    SafeAndQuiet(cfg, s');
  }

  lemma {:induction false} SafeAndQuiet(cfg: Config, s: State)
    requires Safe(cfg, s) && Quiet(s)
    ensures forall e :: Copies(s.core.buffer, e) + Ended(s.ledger, e) == if e in s.ledger.offered then 1 else 0
  {
    hide Copies, Ended, InFlight;
    forall e ensures Copies(s.core.buffer, e) + Ended(s.ledger, e) == if e in s.ledger.offered then 1 else 0 {
      NumberedOnce(s.ledger.offered, e);
      QuietCarriesNothing(s.flights, e);
      assert Balanced(s, e);
    }
  }
}
