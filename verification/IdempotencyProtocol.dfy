/**
 Every interleaving of ingest requests that carry one key of one project: each Redis command is one step,
 may fail with or without effect, and the key may expire at any time. A request may die anywhere.
 */
module IdempotencyProtocol {
  import opened Outcome
  import opened Idempotency

  /** Where a request stands in the handler. */
  datatype Phase =
    | Claiming
    | Reading
    | Granted
    | Allowed
    | Storing(body: string)
    | Releasing
    | Limited
    | Conflict
    | Replayed(body: string)
    | Answered
    | Failed
    | Died

  /** What happened, in order. A submission is a call of `submitBatch`, whatever becomes of it. */
  datatype Event =
    | ClaimedBy(request: nat)
    | GrantedTo(request: nat)
    | SubmittedBy(request: nat)
    | CompletedBy(request: nat, body: string)
    | StoredBy(request: nat, body: string)
    | ReplayedTo(request: nat, body: string)
    | Emptied
    | Errored

  datatype State = State(slot: Option<string>, requests: seq<Phase>, log: seq<Event>)

  const START := State(None, [], [])

  datatype Step =
    | Arrive
    | SetNx(i: nat, fault: Fault)
    | Read(i: nat, fault: Fault)
    | Limit(i: nat, allowed: bool)
    | Submit(i: nat, accepted: bool, body: string)
    | Skip(i: nat, body: string)
    | Store(i: nat, fault: Fault)
    | Release(i: nat, fault: Fault)
    | Expire
    | Die(i: nat)

  /** Granted, and still to store a response or to release the key. */
  predicate Holds(p: Phase) {
    p.Granted? || p.Allowed? || p.Storing? || p.Releasing?
  }

  predicate Live(p: Phase) {
    p.Claiming? || p.Reading? || Holds(p)
  }

  /** No request is in progress. */
  ghost predicate Idle(s: State) {
    forall i | 0 <= i < |s.requests| :: !Live(s.requests[i])
  }

  predicate At(s: State, i: nat) {
    i < |s.requests|
  }

  predicate Enabled(s: State, step: Step) {
    match step
    case Arrive => true
    case SetNx(i, _) => At(s, i) && s.requests[i].Claiming?
    case Read(i, _) => At(s, i) && s.requests[i].Reading?
    case Limit(i, _) => At(s, i) && s.requests[i].Granted?
    case Submit(i, _, body) => At(s, i) && s.requests[i].Allowed? && IsBody(body)
    case Skip(i, body) => At(s, i) && s.requests[i].Allowed? && IsBody(body)
    case Store(i, _) => At(s, i) && s.requests[i].Storing?
    case Release(i, _) => At(s, i) && s.requests[i].Releasing?
    case Expire => s.slot.Some?
    case Die(i) => At(s, i) && Live(s.requests[i])
  }

  /** The request's new phase, the key's new value, and what is logged. */
  function Then(s: State, i: nat, phase: Phase, slot: Option<string>, events: seq<Event>): State
    requires At(s, i)
  {
    State(slot, s.requests[i := phase], s.log + events)
  }

  function Errors(fault: Fault): seq<Event> {
    if fault.Fine? then [] else [Errored]
  }

  function Next(s: State, step: Step): State
    requires Enabled(s, step)
  {
    match step
    case Arrive => s.(requests := s.requests + [Claiming])
    case SetNx(i, fault) =>
      var slot := AfterSetNx(s.slot, fault);
      var claimed := if slot != s.slot then [ClaimedBy(i)] else [];
      if fault.Fine? && s.slot.Some? then Then(s, i, Reading, slot, [])
      else Then(s, i, Granted, slot, claimed + Errors(fault) + [GrantedTo(i)])
    case Read(i, fault) =>
      if !fault.Fine? then Then(s, i, Granted, s.slot, [Errored, GrantedTo(i)]) else (
        match Judge(s.slot)
        case New => Then(s, i, Granted, s.slot, [GrantedTo(i)])
        case Busy => Then(s, i, Conflict, s.slot, [])
        case Replay(body) => Then(s, i, Replayed(body), s.slot, [ReplayedTo(i, body)]))
    case Limit(i, allowed) => Then(s, i, if allowed then Allowed else Limited, s.slot, [])
    case Submit(i, accepted, body) =>
      if accepted then Then(s, i, Storing(body), s.slot, [SubmittedBy(i), CompletedBy(i, body)])
      else Then(s, i, Releasing, s.slot, [SubmittedBy(i)])
    case Skip(i, body) => Then(s, i, Storing(body), s.slot, [CompletedBy(i, body)])
    case Store(i, fault) =>
      var body := s.requests[i].body;
      Then(s, i, Answered, AfterSet(s.slot, body, fault), (if fault.Before? then [] else [StoredBy(i, body)]) + Errors(fault))
    case Release(i, fault) =>
      Then(s, i, Failed, AfterDel(s.slot, fault), (if fault.Before? then [] else [Emptied]) + Errors(fault))
    case Expire => State(None, s.requests, s.log + [Emptied])
    case Die(i) => Then(s, i, Died, s.slot, [])
  }

  predicate CanRun(s: State, steps: seq<Step>)
    decreases |steps|
  {
    steps == [] || (Enabled(s, steps[0]) && CanRun(Next(s, steps[0]), steps[1..]))
  }

  function Run(s: State, steps: seq<Step>): State
    requires CanRun(s, steps)
    decreases |steps|
  {
    if steps == [] then s else Run(Next(s, steps[0]), steps[1..])
  }

  // ----- one submission, unless something breaks the claim

  /** A release, an expiry or a Redis error. */
  predicate IsBreak(e: Event) {
    e.Emptied? || e.Errored?
  }

  ghost predicate Broken(log: seq<Event>) {
    exists k :: 0 <= k < |log| && IsBreak(log[k])
  }

  /** The requests that were granted, in order. */
  function Grants(log: seq<Event>): seq<nat> {
    if log == [] then [] else (if log[0].GrantedTo? then [log[0].request] else []) + Grants(log[1..])
  }

  /** The requests that submitted, in order. */
  function Submissions(log: seq<Event>): seq<nat> {
    if log == [] then [] else (if log[0].SubmittedBy? then [log[0].request] else []) + Submissions(log[1..])
  }

  lemma {:induction false} GrantsConcat(a: seq<Event>, b: seq<Event>)
    ensures Grants(a + b) == Grants(a) + Grants(b)
    ensures Submissions(a + b) == Submissions(a) + Submissions(b)
  {
    if a == [] {
      assert a + b == b;
    } else {
      assert (a + b)[0] == a[0] && (a + b)[1..] == a[1..] + b;
      GrantsConcat(a[1..], b);
    }
  }

  lemma {:induction false} BrokenConcat(a: seq<Event>, b: seq<Event>)
    ensures Broken(a + b) <==> Broken(a) || Broken(b)
  {
    var all := a + b;
    if Broken(a) {
      var k :| 0 <= k < |a| && IsBreak(a[k]);
      assert IsBreak(all[k]);
    }
    if Broken(b) {
      var k :| 0 <= k < |b| && IsBreak(b[k]);
      assert IsBreak(all[|a| + k]);
    }
  }

  lemma {:induction false} NoSubmission(log: seq<Event>, i: nat)
    requires Submissions(log) == [] && i < |log|
    ensures !log[i].SubmittedBy?
  {
    if i > 0 {
      NoSubmission(log[1..], i - 1);
    }
  }

  /** Granted and not yet submitted. */
  predicate MaySubmit(p: Phase) {
    p.Granted? || p.Allowed?
  }

  /**
   * Since the log had `base` entries and the key the value `before`, with no request in progress, and as
   * long as nothing broke the claim: at most one request was granted, only that one may hold the key, and
   * its phase tells what the key holds.
   */
  ghost predicate Orderly(s: State, base: nat, before: Option<string>) {
    base <= |s.log| && (!Broken(s.log[base..]) ==> OrderlyStretch(s, s.log[base..], before))
  }

  ghost predicate OrderlyStretch(s: State, stretch: seq<Event>, before: Option<string>) {
    OrderlyWith(s, Grants(stretch), Submissions(stretch), before)
  }

  ghost predicate OrderlyWith(s: State, grants: seq<nat>, submissions: seq<nat>, before: Option<string>) {
    && |grants| <= 1
    && (before.Some? ==> s.slot == before && grants == [])
    && (before.None? ==> (s.slot.Some? <==> grants != []))
    && (grants != [] ==> GranteeRules(s, grants[0]))
    && (forall r: nat | r < |s.requests| && Holds(s.requests[r]) :: grants == [r])
    && (s.slot.None? ==> forall r | 0 <= r < |s.requests| :: !s.requests[r].Reading?)
    && (submissions != [] ==> grants != [] && At(s, grants[0]) && !MaySubmit(s.requests[grants[0]]))
    && (forall r | 0 <= r < |s.requests| && s.requests[r].Storing? :: IsBody(s.requests[r].body))
  }

  ghost predicate GranteeRules(s: State, r: nat) {
    && At(s, r) && s.slot.Some?
    && (Holds(s.requests[r]) || s.requests[r].Limited? || s.requests[r].Died? || s.requests[r].Answered?)
    && (s.slot.value == PENDING <==> !s.requests[r].Answered?)
  }

  /** No second submission of the stretch without an earlier break in it. */
  ghost predicate SubmissionsAreBroken(log: seq<Event>, base: nat) {
    forall i, j | base <= i < j < |log| && log[i].SubmittedBy? && log[j].SubmittedBy? ::
      exists k :: base <= k < j && IsBreak(log[k])
  }

  /** The events a step adds. */
  function Added(s: State, step: Step): (events: seq<Event>)
    requires Enabled(s, step)
    ensures Next(s, step).log == s.log + events
  {
    Next(s, step).log[|s.log|..]
  }

  /** A step that logs no break neither empties the key nor meets a fault. */
  lemma {:induction false} QuietStep(s: State, step: Step)
    requires Enabled(s, step) && !Broken(Added(s, step))
    ensures !step.Release? && !step.Expire?
    ensures step.SetNx? || step.Read? || step.Store? ==> step.fault.Fine?
  {
    var events := Added(s, step);
    assert |events| > 0 ==> !IsBreak(events[0]);
    assert |events| > 1 ==> !IsBreak(events[|events| - 1]) && !IsBreak(events[|events| - 2]);
  }

  lemma {:induction false} GrantsOfTwo(a: Event, b: Event)
    ensures Grants([a, b]) == (if a.GrantedTo? then [a.request] else []) + (if b.GrantedTo? then [b.request] else [])
    ensures Submissions([a, b]) == (if a.SubmittedBy? then [a.request] else []) + (if b.SubmittedBy? then [b.request] else [])
  {
    assert [a] + [b] == [a, b];
    GrantsConcat([a], [b]);
  }

  /** What a quiet step grants and submits. */
  function QuietGrants(s: State, step: Step): seq<nat> {
    if s.slot.None? && (step.SetNx? || step.Read?) then [step.i] else []
  }

  function QuietSubmissions(step: Step): seq<nat> {
    if step.Submit? then [step.i] else []
  }

  lemma {:induction false} QuietAdds(s: State, step: Step)
    requires Enabled(s, step) && !Broken(Added(s, step))
    ensures Grants(Added(s, step)) == QuietGrants(s, step) && Submissions(Added(s, step)) == QuietSubmissions(step)
  {
    QuietStep(s, step);
    var events := Added(s, step);
    hide Broken;
    if |events| == 2 {
      GrantsOfTwo(events[0], events[1]);
      assert events == [events[0], events[1]];
      hide Grants, Submissions;
    }
  }

  /** The first grant, to the request whose `SET NX` works. */
  lemma {:induction false} GrantIsOrderly(s: State, i: nat, submissions: seq<nat>, before: Option<string>)
    requires OrderlyWith(s, [], submissions, before) && Enabled(s, SetNx(i, Fine)) && s.slot.None?
    ensures OrderlyWith(Next(s, SetNx(i, Fine)), [i], submissions, before)
  {
  }

  /** A step that grants nothing, of a request whose phase it changes. */
  lemma {:induction false} OtherIsOrderly(s: State, step: Step, grants: seq<nat>, submissions: seq<nat>, before: Option<string>)
    requires OrderlyWith(s, grants, submissions, before) && Enabled(s, step) && QuietGrants(s, step) == []
    requires !step.Release? && !step.Expire? && (step.SetNx? || step.Read? || step.Store? ==> step.fault.Fine?)
    ensures OrderlyWith(Next(s, step), grants, submissions + QuietSubmissions(step), before)
  {
    if step.Submit? {
      assert Holds(s.requests[step.i]);
    } else {
      assert submissions + [] == submissions;
    }
  }

  lemma {:induction false} StretchStep(s: State, step: Step, stretch: seq<Event>, before: Option<string>)
    requires OrderlyStretch(s, stretch, before) && Enabled(s, step) && !Broken(Added(s, step))
    ensures OrderlyStretch(Next(s, step), stretch + Added(s, step), before)
  {
    QuietStep(s, step);
    QuietAdds(s, step);
    GrantsConcat(stretch, Added(s, step));
    var grants, submissions := Grants(stretch), Submissions(stretch);
    assert grants + [] == grants && submissions + [] == submissions;
    assert s.slot.None? && step.SetNx? ==> grants == [] && [] + [step.i] == [step.i];
    assert s.slot.None? ==> !step.Read?;
    hide Grants, Submissions, Broken, Added, OrderlyWith, Next;
    if s.slot.None? && step.SetNx? {
      GrantIsOrderly(s, step.i, submissions, before);
    } else {
      OtherIsOrderly(s, step, grants, submissions, before);
    }
  }

  lemma {:induction false} StepIsOrderly(s: State, step: Step, base: nat, before: Option<string>)
    requires Orderly(s, base, before) && Enabled(s, step)
    ensures Orderly(Next(s, step), base, before)
  {
    var events := Added(s, step);
    assert (s.log + events)[base..] == s.log[base..] + events;
    BrokenConcat(s.log[base..], events);
    hide Broken, OrderlyStretch, Next, Enabled, Added;
    if !Broken(s.log[base..] + events) {
      StretchStep(s, step, s.log[base..], before);
    }
  }

  lemma {:induction false} StepKeepsSubmissionsBroken(s: State, step: Step, base: nat, before: Option<string>)
    requires SubmissionsAreBroken(s.log, base) && Orderly(s, base, before) && Enabled(s, step)
    ensures SubmissionsAreBroken(Next(s, step).log, base)
  {
    var log, log' := s.log, Next(s, step).log;
    forall i, j | base <= i < j < |log'| && log'[i].SubmittedBy? && log'[j].SubmittedBy?
      ensures exists k :: base <= k < j && IsBreak(log'[k])
    {
      if j < |log| {
        assert log[i] == log'[i] && log[j] == log'[j];
        var k :| base <= k < j && IsBreak(log[k]);
        assert IsBreak(log'[k]);
      } else {
        assert step.Submit? && j == |log| && i < |log| && log[i].SubmittedBy?;
        SubmitterIsLate(s, step.i, base, before, i);
        var k :| 0 <= k < |log[base..]| && IsBreak(log[base..][k]);
        assert IsBreak(log'[base + k]);
      }
    }
  }

  /** Who may still submit although the stretch has a submission: only after a break. */
  lemma {:induction false} SubmitterIsLate(s: State, r: nat, base: nat, before: Option<string>, i: nat)
    requires Orderly(s, base, before) && At(s, r) && MaySubmit(s.requests[r])
    requires base <= i < |s.log| && s.log[i].SubmittedBy?
    ensures Broken(s.log[base..])
  {
    var stretch := s.log[base..];
    assert stretch[i - base].SubmittedBy?;
    if Submissions(stretch) == [] {
      NoSubmission(stretch, i - base);
    }
    assert Holds(s.requests[r]);
  }

  // ----- every value in the key has an author

  /** Two claims have a release or an expiry between them. */
  ghost predicate ClaimsAreSeparated(log: seq<Event>) {
    forall i, j | 0 <= i < j < |log| && log[i].ClaimedBy? && log[j].ClaimedBy? :: exists k :: i < k < j && log[k].Emptied?
  }

  /** After a claim the key holds a value until it is emptied. */
  ghost predicate ClaimHolds(s: State) {
    forall i | 0 <= i < |s.log| && s.log[i].ClaimedBy? :: s.slot.Some? || exists k :: i < k < |s.log| && s.log[k].Emptied?
  }

  lemma {:induction false} NewClaimIsFirst(s: State, step: Step, k: nat)
    requires Enabled(s, step) && k < |Added(s, step)| && Added(s, step)[k].ClaimedBy?
    ensures s.slot.None? && k == 0
  {
  }

  lemma {:induction false} StepSeparatesClaims(s: State, step: Step)
    requires ClaimsAreSeparated(s.log) && ClaimHolds(s) && Enabled(s, step)
    ensures ClaimsAreSeparated(Next(s, step).log)
  {
    var log, log' := s.log, Next(s, step).log;
    var events := Added(s, step);
    assert log' == log + events;
    hide Next, Added, Enabled;
    forall i, j | 0 <= i < j < |log'| && log'[i].ClaimedBy? && log'[j].ClaimedBy?
      ensures exists k :: i < k < j && log'[k].Emptied?
    {
      if j < |log| {
        assert log[i] == log'[i] && log[j] == log'[j];
        var k :| i < k < j && log[k].Emptied?;
        assert log'[k].Emptied?;
      } else {
        NewClaimIsFirst(s, step, j - |log|);
        assert log[i].ClaimedBy?;
        var k :| i < k < |log| && log[k].Emptied?;
        assert log'[k].Emptied?;
      }
    }
  }

  lemma {:induction false} NewClaimHolds(s: State, step: Step, k: nat)
    requires Enabled(s, step) && k < |Added(s, step)| && Added(s, step)[k].ClaimedBy?
    ensures Next(s, step).slot == Some(PENDING)
  {
  }

  lemma {:induction false} StepHoldsClaims(s: State, step: Step)
    requires ClaimHolds(s) && Enabled(s, step)
    ensures ClaimHolds(Next(s, step))
  {
    var s' := Next(s, step);
    var events := Added(s, step);
    forall i | 0 <= i < |s'.log| && s'.log[i].ClaimedBy? && s'.slot.None?
      ensures exists k :: i < k < |s'.log| && s'.log[k].Emptied?
    {
      if i < |s.log| {
        assert s.log[i].ClaimedBy?;
        if s.slot.Some? {
          assert events[0].Emptied?;
          assert s'.log[|s.log|].Emptied?;
        } else {
          var k :| i < k < |s.log| && s.log[k].Emptied?;
          assert s'.log[k].Emptied?;
        }
      } else {
        NewClaimHolds(s, step, i - |s.log|);
      }
    }
  }

  ghost predicate Completed(log: seq<Event>, r: nat, body: string) {
    exists k :: 0 <= k < |log| && log[k] == CompletedBy(r, body)
  }

  /** Stored by a request that had completed before. */
  ghost predicate StoredByCompleted(log: seq<Event>, body: string) {
    exists k :: 0 <= k < |log| && log[k].StoredBy? && log[k].body == body && Completed(log[..k], log[k].request, body)
  }

  /** The key holds the sentinel or a stored body; who is about to store a body has completed with it. */
  ghost predicate Authored(s: State) {
    && (s.slot.Some? && s.slot.value != PENDING ==> StoredByCompleted(s.log, s.slot.value))
    && (forall r: nat | r < |s.requests| && s.requests[r].Storing? :: Completed(s.log, r, s.requests[r].body))
    && (forall j | 0 <= j < |s.log| && s.log[j].ReplayedTo? :: StoredByCompleted(s.log[..j], s.log[j].body))
  }

  lemma {:induction false} CompletedAppends(log: seq<Event>, events: seq<Event>, r: nat, body: string)
    requires Completed(log, r, body)
    ensures Completed(log + events, r, body)
  {
    var k :| 0 <= k < |log| && log[k] == CompletedBy(r, body);
    assert (log + events)[k] == CompletedBy(r, body);
  }

  lemma {:induction false} StoredAppends(log: seq<Event>, events: seq<Event>, body: string)
    requires StoredByCompleted(log, body)
    ensures StoredByCompleted(log + events, body)
  {
    var k :| 0 <= k < |log| && log[k].StoredBy? && log[k].body == body && Completed(log[..k], log[k].request, body);
    assert (log + events)[k] == log[k] && (log + events)[..k] == log[..k];
  }

  lemma {:induction false} NowStored(log: seq<Event>, r: nat, body: string, more: seq<Event>)
    requires Completed(log, r, body)
    ensures StoredByCompleted(log + ([StoredBy(r, body)] + more), body)
  {
    var all := log + ([StoredBy(r, body)] + more);
    assert all[|log|] == StoredBy(r, body) && all[..|log|] == log;
  }

  lemma {:induction false} StepAuthorsSlot(s: State, step: Step)
    requires Authored(s) && Enabled(s, step)
    ensures var s' := Next(s, step); s'.slot.Some? && s'.slot.value != PENDING ==> StoredByCompleted(s'.log, s'.slot.value)
  {
    var s' := Next(s, step);
    var events := Added(s, step);
    if s'.slot.Some? && s'.slot.value != PENDING {
      if step.Store? && !step.fault.Before? {
        var body := s.requests[step.i].body;
        NowStored(s.log, step.i, body, Errors(step.fault));
        hide StoredByCompleted, Completed;
      } else {
        assert s'.slot == s.slot;
        StoredAppends(s.log, events, s.slot.value);
        hide StoredByCompleted, Completed;
      }
    }
  }

  lemma {:induction false} StepAuthorsStores(s: State, step: Step, r: nat)
    requires Authored(s) && Enabled(s, step) && r < |Next(s, step).requests| && Next(s, step).requests[r].Storing?
    ensures Completed(Next(s, step).log, r, Next(s, step).requests[r].body)
  {
    var s' := Next(s, step);
    var events := Added(s, step);
    if r < |s.requests| && s.requests[r].Storing? {
      assert Completed(s.log, r, s.requests[r].body);
      hide Authored, StoredByCompleted, Completed, Added;
      assert s'.requests[r] == s.requests[r];
      CompletedAppends(s.log, events, r, s.requests[r].body);
    } else {
      hide Authored, StoredByCompleted;
      assert (step.Submit? || step.Skip?) && step.i == r;
      assert s'.log[|s'.log| - 1] == CompletedBy(r, s'.requests[r].body);
    }
  }

  lemma {:induction false} StepAuthorsReplays(s: State, step: Step, j: nat)
    requires Authored(s) && Enabled(s, step) && j < |Next(s, step).log| && Next(s, step).log[j].ReplayedTo?
    ensures StoredByCompleted(Next(s, step).log[..j], Next(s, step).log[j].body)
  {
    var s' := Next(s, step);
    var events := Added(s, step);
    if j < |s.log| {
      assert s'.log[j] == s.log[j] && s'.log[..j] == s.log[..j];
    } else {
      assert events[j - |s.log|].ReplayedTo?;
      assert step.Read? && j == |s.log| && s'.log[j] == ReplayedTo(step.i, s.slot.value) && s.slot.value != PENDING;
      assert s'.log[..j] == s.log;
    }
    hide StoredByCompleted;
  }

  lemma {:induction false} StepIsAuthored(s: State, step: Step)
    requires Authored(s) && Enabled(s, step)
    ensures Authored(Next(s, step))
  {
    var s' := Next(s, step);
    StepAuthorsSlot(s, step);
    forall r: nat | r < |s'.requests| && s'.requests[r].Storing? ensures Completed(s'.log, r, s'.requests[r].body) {
      StepAuthorsStores(s, step, r);
    }
    forall j | 0 <= j < |s'.log| && s'.log[j].ReplayedTo? ensures StoredByCompleted(s'.log[..j], s'.log[j].body) {
      StepAuthorsReplays(s, step, j);
    }
    hide Next, StoredByCompleted, Completed, Enabled;
  }

  // ----- every run

  ghost predicate Safe(s: State) {
    ClaimsAreSeparated(s.log) && ClaimHolds(s) && Authored(s)
  }

  lemma {:induction false} RunIsSafe(s: State, steps: seq<Step>)
    requires Safe(s) && CanRun(s, steps)
    ensures Safe(Run(s, steps))
    decreases |steps|
  {
    if steps != [] {
      var step := steps[0];
      StepSeparatesClaims(s, step);
      StepHoldsClaims(s, step);
      StepIsAuthored(s, step);
      hide Next, Enabled, ClaimsAreSeparated, ClaimHolds, Authored;
      RunIsSafe(Next(s, step), steps[1..]);
    }
  }

  lemma {:induction false} RunIsOrderly(s: State, steps: seq<Step>, base: nat, before: Option<string>)
    requires Orderly(s, base, before) && SubmissionsAreBroken(s.log, base) && CanRun(s, steps)
    ensures Orderly(Run(s, steps), base, before) && SubmissionsAreBroken(Run(s, steps).log, base)
    decreases |steps|
  {
    if steps != [] {
      StepIsOrderly(s, steps[0], base, before);
      StepKeepsSubmissionsBroken(s, steps[0], base, before);
      hide Next, Enabled, Orderly, SubmissionsAreBroken;
      RunIsOrderly(Next(s, steps[0]), steps[1..], base, before);
    }
  }

  lemma {:induction false} IdleIsOrderly(s: State)
    requires Idle(s)
    ensures Orderly(s, |s.log|, s.slot) && SubmissionsAreBroken(s.log, |s.log|)
  {
    assert s.log[|s.log|..] == [];
  }

  /**
   * From any moment with no request in progress, such as the start: a second
   * batch submission comes after a release, an expiry or a Redis error since
   * that moment.
   */
  lemma {:induction false} SecondSubmissionNeedsABreak(s: State, steps: seq<Step>, i: nat, j: nat)
    requires Idle(s) && CanRun(s, steps) && |s.log| <= i < j < |Run(s, steps).log|
    requires var log := Run(s, steps).log; log[i].SubmittedBy? && log[j].SubmittedBy?
    ensures exists k :: |s.log| <= k < j && IsBreak(Run(s, steps).log[k])
  {
    IdleIsOrderly(s);
    RunIsOrderly(s, steps, |s.log|, s.slot);
  }

  /**
   * From such a moment with the key free, as long as nothing broke the claim and
   * once nobody holds it any more: the key is still pending exactly when the one
   * granted request was turned away by the rate limit or died; it holds a
   * response exactly when that request answered, and is free when none was granted.
   */
  lemma {:induction false} KeyTellsHowItEnded(s: State, steps: seq<Step>)
    requires Idle(s) && s.slot.None? && CanRun(s, steps)
    requires var s' := Run(s, steps);
             |s.log| <= |s'.log| && !Broken(s'.log[|s.log|..]) && forall r | 0 <= r < |s'.requests| :: !Holds(s'.requests[r])
    ensures var s' := Run(s, steps);
            var grants := Grants(s'.log[|s.log|..]);
            && |grants| <= 1 && (grants != [] ==> At(s', grants[0]))
            && (s'.slot.None? <==> grants == [])
            && (s'.slot == Some(PENDING) <==> grants != [] && (s'.requests[grants[0]].Limited? || s'.requests[grants[0]].Died?))
            && (s'.slot.Some? && s'.slot != Some(PENDING) <==> grants != [] && s'.requests[grants[0]].Answered?)
  {
    IdleIsOrderly(s);
    RunIsOrderly(s, steps, |s.log|, s.slot);
    hide Run, CanRun, Grants, Broken;
  }

  /** Between two claims the key was released or expired. */
  lemma {:induction false} SecondClaimNeedsAnEmptying(steps: seq<Step>, i: nat, j: nat)
    requires CanRun(START, steps) && i < j < |Run(START, steps).log|
    requires var log := Run(START, steps).log; log[i].ClaimedBy? && log[j].ClaimedBy?
    ensures exists k :: i < k < j && Run(START, steps).log[k].Emptied?
  {
    RunIsSafe(START, steps);
  }

  /** Every replayed body was stored, before, by a request that had completed with that body. */
  lemma {:induction false} ReplaysWereStored(steps: seq<Step>, j: nat)
    requires CanRun(START, steps) && j < |Run(START, steps).log| && Run(START, steps).log[j].ReplayedTo?
    ensures StoredByCompleted(Run(START, steps).log[..j], Run(START, steps).log[j].body)
  {
    RunIsSafe(START, steps);
  }

  // ----- the rate-limited exit

  /** The key is pending, and no request that could still store or release it is left. */
  ghost predicate Abandoned(s: State) {
    s.slot == Some(PENDING) && forall i | 0 <= i < |s.requests| :: !Holds(s.requests[i])
  }

  lemma {:induction false} StepStaysAbandoned(s: State, step: Step)
    requires Abandoned(s) && Enabled(s, step) && !Broken(Added(s, step))
    ensures Abandoned(Next(s, step)) && Added(s, step) == []
  {
    QuietStep(s, step);
  }

  lemma {:induction false} LogGrows(s: State, steps: seq<Step>)
    requires CanRun(s, steps)
    ensures s.log <= Run(s, steps).log
    decreases |steps|
  {
    if steps != [] {
      var events := Added(s, steps[0]);
      LogGrows(Next(s, steps[0]), steps[1..]);
      hide Next, Enabled;
    }
  }

  lemma {:induction false} StaysAbandoned(s: State, steps: seq<Step>)
    requires Abandoned(s) && CanRun(s, steps)
    ensures var s' := Run(s, steps);
            s.log <= s'.log && (!Broken(s'.log[|s.log|..]) ==> Abandoned(s') && s'.log == s.log)
    decreases |steps|
  {
    if steps != [] {
      var s1 := Next(s, steps[0]);
      var events := Added(s, steps[0]);
      LogGrows(s1, steps[1..]);
      var s' := Run(s1, steps[1..]);
      assert s'.log[|s.log|..] == events + s'.log[|s1.log|..];
      BrokenConcat(events, s'.log[|s1.log|..]);
      if !Broken(s'.log[|s.log|..]) {
        StepStaysAbandoned(s, steps[0]);
        StaysAbandoned(s1, steps[1..]);
      }
      hide Broken, Abandoned, Next, Enabled, Added;
    }
  }

  /**
   * From any moment with no request in progress: when, with the claim unbroken,
   * the rate limit turns a request away, the key is left pending with nobody to
   * store or release it. Whatever requests follow, none is granted, submits or
   * gets a stored body, until the key expires or Redis fails.
   */
  lemma {:induction false} LimitBlocksTheKey(s: State, steps: seq<Step>, i: nat, later: seq<Step>)
    requires Idle(s) && CanRun(s, steps) && Enabled(Run(s, steps), Limit(i, false))
    requires |s.log| <= |Run(s, steps).log| && !Broken(Run(s, steps).log[|s.log|..])
    requires CanRun(Next(Run(s, steps), Limit(i, false)), later)
    ensures var limited := Next(Run(s, steps), Limit(i, false));
            var after := Run(limited, later);
            && Abandoned(limited) && limited.log <= after.log
            && (!Broken(after.log[|limited.log|..]) ==> Abandoned(after) && after.log == limited.log)
  {
    IdleIsOrderly(s);
    RunIsOrderly(s, steps, |s.log|, s.slot);
    var before := Run(s, steps);
    assert OrderlyStretch(before, before.log[|s.log|..], s.slot);
    hide Run, CanRun, Grants, Broken;
    assert Holds(before.requests[i]);
    var limited := Next(before, Limit(i, false));
    assert Abandoned(limited);
    StaysAbandoned(limited, later);
  }

  // ----- one request, and the requests after it

  /** The answers of the two commands of a claim, said of the key's value: granted, busy or replayed. */
  lemma {:induction false} ClaimSteps(s: State, i: nat, fault: Fault)
    ensures Enabled(s, SetNx(i, fault)) ==>
              var s' := Next(s, SetNx(i, fault));
              && s'.slot == (if s.slot.Some? || fault.Before? then s.slot else Some("__pending__"))
              && s'.requests == s.requests[i := if s.slot.Some? && fault.Fine? then Reading else Granted]
    ensures Enabled(s, Read(i, fault)) ==>
              var s' := Next(s, Read(i, fault));
              && s'.slot == s.slot
              && s'.requests == s.requests[i := if s.slot.None? || !fault.Fine? then Granted
                                               else if s.slot.value == "__pending__" then Conflict
                                               else Replayed(s.slot.value)]
  {
  }

  /** A response is stored, and nobody is left who could change the key. */
  ghost predicate Settled(s: State, body: string) {
    s.slot == Some(body) && body != "__pending__" && forall i | 0 <= i < |s.requests| :: !Holds(s.requests[i])
  }

  /** Still to be answered, answered with that body, or dead. */
  predicate AwaitsOnly(p: Phase, body: string) {
    p.Claiming? || p.Reading? || p == Replayed(body) || p.Died?
  }

  lemma {:induction false} StepStaysSettled(s: State, step: Step, body: string)
    requires Settled(s, body) && Enabled(s, step) && !Broken(Added(s, step))
    ensures Settled(Next(s, step), body) && Grants(Added(s, step)) == [] && Submissions(Added(s, step)) == []
    ensures forall i | 0 <= i < |s.requests| && AwaitsOnly(s.requests[i], body) :: AwaitsOnly(Next(s, step).requests[i], body)
    ensures forall i | |s.requests| <= i < |Next(s, step).requests| :: AwaitsOnly(Next(s, step).requests[i], body)
  {
    QuietStep(s, step);
  }

  /**
   * Once a response is stored, then as long as nothing breaks the claim every request
   * that comes is answered with exactly that response: none is granted, none submits,
   * none is told to wait.
   */
  lemma {:induction false} StoredAnswersAll(s: State, steps: seq<Step>, body: string)
    requires Settled(s, body) && CanRun(s, steps)
    ensures var s' := Run(s, steps);
            && s.log <= s'.log && |s.requests| <= |s'.requests|
            && (!Broken(s'.log[|s.log|..]) ==>
                  && Settled(s', body) && Grants(s'.log[|s.log|..]) == [] && Submissions(s'.log[|s.log|..]) == []
                  && (forall i | 0 <= i < |s.requests| && AwaitsOnly(s.requests[i], body) :: AwaitsOnly(s'.requests[i], body))
                  && (forall i | |s.requests| <= i < |s'.requests| :: AwaitsOnly(s'.requests[i], body)))
    decreases |steps|
  {
    if steps == [] {
      assert s.log[|s.log|..] == [];
    } else {
      var s1 := Next(s, steps[0]);
      var events := Added(s, steps[0]);
      LogGrows(s1, steps[1..]);
      var s' := Run(s1, steps[1..]);
      var more := s'.log[|s1.log|..];
      assert s'.log[|s.log|..] == events + more;
      BrokenConcat(events, more);
      GrantsConcat(events, more);
      RequestsStay(s1, steps[1..]);
      if !Broken(s'.log[|s.log|..]) {
        StepStaysSettled(s, steps[0], body);
        StoredAnswersAll(s1, steps[1..], body);
      }
      RequestsStay(s, [steps[0]]);
      hide Broken, Settled, Next, Enabled, Added, AwaitsOnly, Grants, Submissions;
    }
  }

  lemma {:induction false} RequestsStay(s: State, steps: seq<Step>)
    requires CanRun(s, steps)
    ensures |s.requests| <= |Run(s, steps).requests|
    decreases |steps|
  {
    if steps != [] {
      RequestsStay(Next(s, steps[0]), steps[1..]);
      hide Run, CanRun;
    }
  }

  lemma {:induction false} RunMore(s: State, step: Step, rest: seq<Step>)
    requires Enabled(s, step) && CanRun(Next(s, step), rest)
    ensures CanRun(s, [step] + rest) && Run(s, [step] + rest) == Run(Next(s, step), rest)
  {
    assert ([step] + rest)[1..] == rest;
  }

  /** A request on a free key that nothing disturbs: claimed, let through, submitted, and then stored or released. */
  function Undisturbed(i: nat, accepted: bool, body: string): seq<Step> {
    [Arrive] + ([SetNx(i, Fine)] + ([Limit(i, true)] + ([Submit(i, accepted, body)]
    + ([if accepted then Store(i, Fine) else Release(i, Fine)] + []))))
  }

  /** Such a request leaves its response under the key if it was accepted, and the key free if it failed. */
  lemma {:induction false} UndisturbedEnds(s: State, accepted: bool, body: string)
    requires s.slot.None? && IsBody(body)
    ensures var i := |s.requests|;
            && CanRun(s, Undisturbed(i, accepted, body))
            && var s' := Run(s, Undisturbed(i, accepted, body));
            && s'.slot == (if accepted then Some(body) else None)
            && s'.requests == s.requests + [if accepted then Answered else Failed]
            && Submissions(s'.log) == Submissions(s.log) + [i]
  {
    var i := |s.requests|;
    var last := if accepted then Store(i, Fine) else Release(i, Fine);
    var s1 := Next(s, Arrive);
    var s2 := Next(s1, SetNx(i, Fine));
    var s3 := Next(s2, Limit(i, true));
    var s4 := Next(s3, Submit(i, accepted, body));
    var s5 := Next(s4, last);
    var events := [ClaimedBy(i), GrantedTo(i), SubmittedBy(i)] + if accepted then [CompletedBy(i, body), StoredBy(i, body)] else [Emptied];
    assert s5.log == s.log + events;
    assert s5.requests == s.requests + [if accepted then Answered else Failed];
    hide Next, Enabled;
    GrantsConcat(s.log, events);
    SubmissionsOf(i, accepted, body);
    assert CanRun(s5, []) && Run(s5, []) == s5;
    hide CanRun, Run, Submissions;
    EnabledOneByOne(s, accepted, body);
    RunMore(s4, last, []);
    RunMore(s3, Submit(i, accepted, body), [last] + []);
    RunMore(s2, Limit(i, true), [Submit(i, accepted, body)] + ([last] + []));
    RunMore(s1, SetNx(i, Fine), [Limit(i, true)] + ([Submit(i, accepted, body)] + ([last] + [])));
    RunMore(s, Arrive, [SetNx(i, Fine)] + ([Limit(i, true)] + ([Submit(i, accepted, body)] + ([last] + []))));
  }

  lemma {:induction false} EnabledOneByOne(s: State, accepted: bool, body: string)
    requires s.slot.None? && IsBody(body)
    ensures var i := |s.requests|;
            && Enabled(s, Arrive)
            && var s1 := Next(s, Arrive);
            && Enabled(s1, SetNx(i, Fine))
            && var s2 := Next(s1, SetNx(i, Fine));
            && Enabled(s2, Limit(i, true))
            && var s3 := Next(s2, Limit(i, true));
            && Enabled(s3, Submit(i, accepted, body))
            && var s4 := Next(s3, Submit(i, accepted, body));
            && Enabled(s4, if accepted then Store(i, Fine) else Release(i, Fine))
  {
  }

  lemma {:induction false} SubmissionsOf(i: nat, accepted: bool, body: string)
    ensures Submissions([ClaimedBy(i), GrantedTo(i), SubmittedBy(i)] + if accepted then [CompletedBy(i, body), StoredBy(i, body)] else [Emptied]) == [i]
  {
    var start := [ClaimedBy(i), GrantedTo(i), SubmittedBy(i)];
    var rest := if accepted then [CompletedBy(i, body), StoredBy(i, body)] else [Emptied];
    GrantsConcat(start, rest);
    assert start == [ClaimedBy(i), GrantedTo(i)] + [SubmittedBy(i)];
    GrantsConcat([ClaimedBy(i), GrantedTo(i)], [SubmittedBy(i)]);
    GrantsOfTwo(ClaimedBy(i), GrantedTo(i));
    if accepted {
      GrantsOfTwo(CompletedBy(i, body), StoredBy(i, body));
    }
  }

  /** A request with nothing valid to submit stores its response without a submission. */
  lemma {:induction false} SkippedEnds(s: State, i: nat, body: string)
    requires Enabled(s, Skip(i, body))
    ensures Enabled(Next(s, Skip(i, body)), Store(i, Fine))
    ensures var s' := Next(Next(s, Skip(i, body)), Store(i, Fine));
            && s'.slot == Some(body) && s'.requests == s.requests[i := Answered]
            && s'.log == s.log + [CompletedBy(i, body), StoredBy(i, body)]
  {
  }
}
