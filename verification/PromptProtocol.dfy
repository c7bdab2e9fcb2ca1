/**
 Concurrent prompt resolution in the Go client: every interleaving, at the granularity of the prompt
 mutex and the channel operations. Channels are numbered in the order in which they are made; a fetch
 ends with a version or an error at any time.
 */
module PromptProtocol {
  import opened Outcome
  import opened Basics
  import opened PromptCache

  /** A result: a prompt, or `None` for an error. */
  type Result = Option<Prompt>

  /** Where a resolution stands. From `Fetching` to `Closing` it is the leader of its URL. */
  datatype Phase =
    | Looking
    | Joining
    | Waiting(chan: nat)
    | Woken(chan: nat)
    | Fetching(chan: nat)
    | Storing(chan: nat, fetched: Prompt)
    | Leaving(chan: nat, result: Result)
    | Closing(chan: nat, result: Result)
    | Failed
    | Done(result: Result)

  /** One call: a background refresh drops its result, so it may end without looking at a fallback. */
  datatype Thread = Thread(url: string, ttl: real, fallback: Option<Prompt>, phase: Phase)

  /** The call that made a channel: its URL, its time to live, and what its fetch brought, once it ended. */
  datatype Leader = Leader(url: string, ttl: real, answer: Option<Result>)

  /** What happened to the cache: a leader stored its prompt, at a time and until another, or everything was dropped. */
  datatype CacheOp = Kept(chan: nat, url: string, prompt: Prompt, at: real, until: real) | Wiped

  datatype State = State(
    cache: Cache, inflight: map<string, nat>, leaders: seq<Leader>, closed: set<nat>, threads: seq<Thread>, clock: real,
    fetched: set<(string, Prompt)>, log: seq<CacheOp>)

  const START := State(EMPTY, map[], [], {}, [], 0.0, {}, [])

  datatype Step =
    | Call(url: string, ttl: real, fallback: Option<Prompt>)
    | Look(i: nat)
    | Join(i: nat)
    | Wake(i: nat)
    | Reread(i: nat)
    | Fetch(i: nat, answer: Result)
    | Store(i: nat)
    | Leave(i: nat)
    | Close(i: nat)
    | Settle(i: nat)
    | Clear
    | Pass(time: real)

  /** Leading: it has entered the in-flight table and not yet left it. */
  predicate Leads(p: Phase) {
    p.Fetching? || p.Storing? || p.Leaving?
  }

  /** Will it still close its channel? */
  predicate Owns(p: Phase) {
    Leads(p) || p.Closing?
  }

  predicate At(s: State, i: nat) {
    i < |s.threads|
  }

  predicate Enabled(s: State, step: Step) {
    match step
    case Call(_, _, _) => true
    case Clear => true
    case Pass(time) => time >= 0.0
    case Look(i) => At(s, i) && s.threads[i].phase.Looking?
    case Join(i) => At(s, i) && s.threads[i].phase.Joining?
    case Wake(i) => At(s, i) && s.threads[i].phase.Waiting? && s.threads[i].phase.chan in s.closed
    case Reread(i) => At(s, i) && s.threads[i].phase.Woken?
    case Fetch(i, _) => At(s, i) && s.threads[i].phase.Fetching?
    case Store(i) => At(s, i) && s.threads[i].phase.Storing?
    case Leave(i) => At(s, i) && s.threads[i].phase.Leaving?
    case Close(i) => At(s, i) && s.threads[i].phase.Closing?
    case Settle(i) => At(s, i) && s.threads[i].phase.Failed?
  }

  function Move(s: State, i: nat, phase: Phase): State
    requires At(s, i)
  {
    s.(threads := s.threads[i := s.threads[i].(phase := phase)])
  }

  function Cached(s: State, url: string): Result {
    if url in s.cache.entries then Some(s.cache.entries[url].prompt) else None
  }

  /** A fresh entry is served; a stale one is served too, with a refresh started in the background. */
  function Looked(s: State, i: nat): State
    requires At(s, i)
  {
    var t := s.threads[i];
    if t.ttl > 0.0 && t.url in s.cache.entries then
      var served := Move(s, i, Done(Cached(s, t.url)));
      if s.clock < s.cache.entries[t.url].expires then served
      else served.(threads := served.threads + [Thread(t.url, t.ttl, None, Joining)])
    else Move(s, i, Joining)
  }

  /** Wait for the fetch in flight, or become the leader of a new one. */
  function Joined(s: State, i: nat): State
    requires At(s, i)
  {
    var url := s.threads[i].url;
    if url in s.inflight then Move(s, i, Waiting(s.inflight[url]))
    else Move(s, i, Fetching(|s.leaders|)).(
      inflight := s.inflight[url := |s.leaders|],
      leaders := s.leaders + [Leader(url, s.threads[i].ttl, None)])
  }

  function Fetched(s: State, i: nat, answer: Result): State
    requires At(s, i) && s.threads[i].phase.Fetching?
  {
    var t := s.threads[i];
    var chan := t.phase.chan;
    var stores := answer.Some? && t.ttl > 0.0;
    Move(s, i, if stores then Storing(chan, answer.value) else Leaving(chan, answer)).(
      fetched := if answer.Some? then s.fetched + {(t.url, answer.value)} else s.fetched,
      leaders := Answered(s.leaders, chan, answer))
  }

  function Answered(leaders: seq<Leader>, chan: nat, answer: Result): seq<Leader> {
    if chan < |leaders| then leaders[chan := leaders[chan].(answer := Some(answer))] else leaders
  }

  function OrFail(result: Result): Phase {
    if result.Some? then Done(result) else Failed
  }

  function Next(s: State, step: Step): State
    requires Enabled(s, step)
  {
    match step
    case Call(url, ttl, fallback) => s.(threads := s.threads + [Thread(url, ttl, fallback, Looking)])
    case Clear => s.(cache := EMPTY, log := s.log + [Wiped])
    case Pass(time) => s.(clock := s.clock + time)
    case Look(i) => Looked(s, i)
    case Join(i) => Joined(s, i)
    case Wake(i) => Move(s, i, Woken(s.threads[i].phase.chan))
    case Reread(i) => Move(s, i, OrFail(Cached(s, s.threads[i].url)))
    case Fetch(i, answer) => Fetched(s, i, answer)
    case Store(i) =>
      var t := s.threads[i];
      Move(s, i, Leaving(t.phase.chan, Some(t.phase.fetched))).(
        cache := Put(s.cache, t.url, Stored(t.phase.fetched, s.clock + t.ttl)),
        log := s.log + [Kept(t.phase.chan, t.url, t.phase.fetched, s.clock, s.clock + t.ttl)])
    case Leave(i) =>
      var t := s.threads[i];
      Move(s, i, Closing(t.phase.chan, t.phase.result)).(inflight := s.inflight - {t.url})
    case Close(i) =>
      var t := s.threads[i];
      Move(s, i, OrFail(t.phase.result)).(closed := s.closed + {t.phase.chan})
    case Settle(i) =>
      var t := s.threads[i];
      var again := if t.ttl > 0.0 then Cached(s, t.url) else None;
      Move(s, i, Done(if again.Some? then again else t.fallback))
  }

  predicate CanRun(s: State, steps: seq<Step>)
    decreases |steps|
  {
    steps == [] || (Enabled(s, steps[0]) && CanRun(Next(s, steps[0]), steps[1..]))
  }

  function Run(s: State, steps: seq<Step>): State
    requires CanRun(s, steps)
    decreases |steps|
  {
    if steps == [] then s else Run(Next(s, steps[0]), steps[1..])
  }

  // ----- one leader per URL, and an owner for every open channel

  /** A leader's channel is the one in the table. */
  ghost predicate LeadersAreListed(s: State) {
    forall i | 0 <= i < |s.threads| && Leads(s.threads[i].phase) ::
      s.threads[i].url in s.inflight && s.inflight[s.threads[i].url] == s.threads[i].phase.chan
  }

  /** Two threads never own the same channel. */
  ghost predicate OwnersDiffer(s: State) {
    forall i, j | 0 <= i < j < |s.threads| && Owns(s.threads[i].phase) && Owns(s.threads[j].phase) ::
      s.threads[i].phase.chan != s.threads[j].phase.chan
  }

  /** The channel is open, and some thread is going to close it. */
  ghost predicate HasOwner(s: State, chan: nat) {
    exists i :: 0 <= i < |s.threads| && Owns(s.threads[i].phase) && s.threads[i].phase.chan == chan
  }

  ghost predicate ChannelsAreOwned(s: State) {
    forall chan | 0 <= chan < |s.leaders| :: chan in s.closed || HasOwner(s, chan)
  }

  ghost predicate ThreadsInRange(s: State) {
    forall i | 0 <= i < |s.threads| && (Owns(s.threads[i].phase) || s.threads[i].phase.Waiting?) ::
      s.threads[i].phase.chan < |s.leaders|
  }

  ghost predicate TableInRange(s: State) {
    forall url | url in s.inflight :: s.inflight[url] < |s.leaders|
  }

  ghost predicate InRange(s: State) {
    ThreadsInRange(s) && TableInRange(s)
  }

  lemma {:induction false} StepListsLeaders(s: State, step: Step)
    requires LeadersAreListed(s) && OwnersDiffer(s) && Enabled(s, step)
    ensures LeadersAreListed(Next(s, step))
  {
    hide Put, OwnersDiffer;
    if step.Leave? {
      LeaveKeepsOthers(s, step.i);
    } else if step.Join? {
      assert forall j | 0 <= j < |s.threads| && Leads(s.threads[j].phase) :: s.threads[j].url in s.inflight;
    }
  }

  lemma {:induction false} LeaveKeepsOthers(s: State, i: nat)
    requires LeadersAreListed(s) && OwnersDiffer(s) && At(s, i) && s.threads[i].phase.Leaving?
    ensures forall j | 0 <= j < |s.threads| && j != i && Leads(s.threads[j].phase) :: s.threads[j].url != s.threads[i].url
  {
  }

  lemma {:induction false} StepKeepsTableInRange(s: State, step: Step)
    requires TableInRange(s) && Enabled(s, step)
    ensures TableInRange(Next(s, step))
  {
    hide Put, Cached;
  }

  lemma {:induction false} StepStaysInRange(s: State, step: Step)
    requires InRange(s) && Enabled(s, step)
    ensures InRange(Next(s, step))
  {
    StepKeepsTableInRange(s, step);
    hide Put, Cached;
    if step.Join? && s.threads[step.i].url in s.inflight {
      assert s.inflight[s.threads[step.i].url] < |s.leaders|;
    }
    hide TableInRange;
  }

  lemma {:induction false} StepKeepsOwnersApart(s: State, step: Step)
    requires OwnersDiffer(s) && InRange(s) && Enabled(s, step)
    ensures OwnersDiffer(Next(s, step))
  {
    hide Put, Cached;
    var s' := Next(s, step);
    if step.Join? && step.i < |s.threads| && s.threads[step.i].url !in s.inflight {
      assert s'.threads == s.threads[step.i := s.threads[step.i].(phase := Fetching(|s.leaders|))];
    } else {
      assert forall i | 0 <= i < |s'.threads| && Owns(s'.threads[i].phase) ::
          i < |s.threads| && Owns(s.threads[i].phase) && s.threads[i].phase.chan == s'.threads[i].phase.chan;
      hide Next;
    }
  }

  lemma {:induction false} StillOwned(s: State, s': State, i: nat, chan: nat)
    requires HasOwner(s, chan) && At(s, i) && |s.threads| <= |s'.threads|
    requires forall j | 0 <= j < |s.threads| && j != i :: s'.threads[j] == s.threads[j]
    requires Owns(s.threads[i].phase) ==>
               (Owns(s'.threads[i].phase) && s'.threads[i].phase.chan == s.threads[i].phase.chan) || s.threads[i].phase.chan != chan
    ensures HasOwner(s', chan)
  {
    var j :| 0 <= j < |s.threads| && Owns(s.threads[j].phase) && s.threads[j].phase.chan == chan;
    assert Owns(s'.threads[j].phase) && s'.threads[j].phase.chan == chan;
  }

  lemma {:induction false} StepKeepsOwners(s: State, step: Step)
    requires ChannelsAreOwned(s) && Enabled(s, step)
    ensures ChannelsAreOwned(Next(s, step))
  {
    var s' := Next(s, step);
    forall chan | 0 <= chan < |s'.leaders| && chan !in s'.closed ensures HasOwner(s', chan) {
      if chan == |s.leaders| {
        assert step.Join? && Owns(s'.threads[step.i].phase) && s'.threads[step.i].phase.chan == chan;
      } else {
        assert HasOwner(s, chan);
        hide Put, HasOwner, ChannelsAreOwned;
        if step.Call? {
          CallKeepsOwners(s, s', chan);
        } else if step.Clear? || step.Pass? {
          assert s'.threads == s.threads;
          SameThreads(s, s', chan);
        } else {
          StillOwned(s, s', step.i, chan);
        }
      }
    }
  }

  lemma {:induction false} CallKeepsOwners(s: State, s': State, chan: nat)
    requires HasOwner(s, chan) && |s.threads| <= |s'.threads| && s'.threads[..|s.threads|] == s.threads
    ensures HasOwner(s', chan)
  {
    var j :| 0 <= j < |s.threads| && Owns(s.threads[j].phase) && s.threads[j].phase.chan == chan;
    assert s'.threads[j] == s'.threads[..|s.threads|][j];
  }

  lemma {:induction false} SameThreads(s: State, s': State, chan: nat)
    requires HasOwner(s, chan) && s'.threads == s.threads
    ensures HasOwner(s', chan)
  {
  }

  /** Every fetch in the table has its leader. */
  ghost predicate IsLed(s: State, url: string)
    requires url in s.inflight
  {
    exists i :: 0 <= i < |s.threads| && Leads(s.threads[i].phase) && s.threads[i].url == url
                && s.threads[i].phase.chan == s.inflight[url]
  }

  ghost predicate TableIsLed(s: State) {
    forall url | url in s.inflight :: IsLed(s, url)
  }

  lemma {:induction false} StillLed(s: State, s': State, url: string, j: nat)
    requires At(s, j) && At(s', j) && url in s'.inflight
    requires Leads(s'.threads[j].phase) && s'.threads[j].url == url && s'.threads[j].phase.chan == s'.inflight[url]
    ensures IsLed(s', url)
  {
  }

  /** A leader that stays in the table goes on leading. */
  lemma {:induction false} LeaderStays(s: State, step: Step, url: string, j: nat)
    requires Enabled(s, step) && LeadersAreListed(s) && At(s, j) && Leads(s.threads[j].phase) && s.threads[j].url == url
    requires url in Next(s, step).inflight
    ensures IsLed(Next(s, step), url)
  {
    var s' := Next(s, step);
    assert s.threads[j].phase.chan == s.inflight[url];
    hide Put, Cached, IsLed, LeadersAreListed;
    StillLed(s, s', url, j);
  }

  lemma {:induction false} StepKeepsTableLed(s: State, step: Step)
    requires TableIsLed(s) && LeadersAreListed(s) && Enabled(s, step)
    ensures TableIsLed(Next(s, step))
  {
    var s' := Next(s, step);
    forall url | url in s'.inflight ensures IsLed(s', url) {
      if url in s.inflight {
        assert IsLed(s, url);
        var j :| 0 <= j < |s.threads| && Leads(s.threads[j].phase) && s.threads[j].url == url;
        hide *;
        LeaderStays(s, step, url, j);
      } else {
        hide Put, Cached, IsLed, TableIsLed, LeadersAreListed;
        StillLed(s, s', url, step.i);
      }
    }
  }

  // ----- what is served

  /** Everything cached, or about to be returned, was fetched for that very URL, or is the caller's fallback. */
  ghost predicate Honest(s: State) {
    && (forall url | url in s.cache.entries :: (url, s.cache.entries[url].prompt) in s.fetched)
    && forall i | 0 <= i < |s.threads| :: HonestThread(s, s.threads[i])
  }

  ghost predicate HonestThread(s: State, t: Thread) {
    match t.phase
    case Storing(_, fetched) => (t.url, fetched) in s.fetched
    case Leaving(_, result) => result.Some? ==> (t.url, result.value) in s.fetched
    case Closing(_, result) => result.Some? ==> (t.url, result.value) in s.fetched
    case Done(result) => result.Some? ==> (t.url, result.value) in s.fetched || result == t.fallback
    case _ => true
  }

  lemma {:induction false} StepKeepsThreadsHonest(s: State, step: Step)
    requires Honest(s) && Enabled(s, step)
    ensures forall i | 0 <= i < |Next(s, step).threads| :: HonestThread(Next(s, step), Next(s, step).threads[i])
  {
    hide Put;
    var s' := Next(s, step);
    forall i | 0 <= i < |s'.threads| ensures HonestThread(s', s'.threads[i]) {
      if i < |s.threads| {
        assert HonestThread(s, s.threads[i]);
      }
    }
  }

  lemma {:induction false} StepIsHonest(s: State, step: Step)
    requires Honest(s) && Enabled(s, step)
    ensures Honest(Next(s, step))
  {
    StepKeepsThreadsHonest(s, step);
    if step.Store? {
      assert HonestThread(s, s.threads[step.i]);
    }
    hide Newest, Moved, HonestThread;
  }

  /** The keys inserted since the cache was last cleared. */
  function Inserted(log: seq<CacheOp>): seq<string> {
    if log == [] || log[|log| - 1].Wiped? then [] else Inserted(log[..|log| - 1]) + [log[|log| - 1].url]
  }

  /** The prompt last stored for a URL since then. */
  function LastKept(log: seq<CacheOp>, url: string): Option<Stored> {
    if log == [] || log[|log| - 1].Wiped? then None
    else if log[|log| - 1].url == url then Some(Stored(log[|log| - 1].prompt, log[|log| - 1].until))
    else LastKept(log[..|log| - 1], url)
  }

  /** The cache holds the newest keys among those stored since it was last dropped, each with its last prompt. */
  ghost predicate Follows(c: Cache, log: seq<CacheOp>) {
    && c.recent == Held(Inserted(log))
    && Distinct(c.recent) && |c.recent| <= MAX_ENTRIES
    && (forall url :: url in c.entries <==> url in c.recent)
    && (forall url | url in c.entries :: LastKept(log, url) == Some(c.entries[url]))
  }

  ghost predicate Bounded(s: State) {
    Follows(s.cache, s.log)
  }

  lemma {:induction false} PutIsBounded(c: Cache, key: string, e: Stored)
    requires Distinct(c.recent) && (forall url :: url in c.entries <==> url in c.recent)
    ensures var c' := Put(c, key, e);
            Distinct(c'.recent) && |c'.recent| <= MAX_ENTRIES && (forall url :: url in c'.entries <==> url in c'.recent)
            && key in c'.entries
  {
    var moved := Moved(c.recent, key);
    WithoutMeans(c.recent, key);
    DistinctJoin(Without(c.recent, key), [key]);
    LastIsNewest(c.recent, key);
    var newest := Newest(moved);
    assert forall k | k in newest :: k in moved;
  }

  lemma {:induction false} StoreKeepsPrompts(c: Cache, log: seq<CacheOp>, op: CacheOp, e: Stored)
    requires op.Kept? && e == Stored(op.prompt, op.until)
    requires forall url | url in c.entries :: LastKept(log, url) == Some(c.entries[url])
    ensures var c' := Put(c, op.url, e);
            forall url | url in c'.entries :: LastKept(log + [op], url) == Some(c'.entries[url])
  {
    hide Newest, Moved;
    assert (log + [op])[..|log|] == log;
  }

  lemma {:induction false} InsertedAppends(log: seq<CacheOp>, op: CacheOp)
    requires op.Kept?
    ensures Inserted(log + [op]) == Inserted(log) + [op.url]
    ensures Held(Inserted(log + [op])) == Newest(Moved(Held(Inserted(log)), op.url))
  {
    assert (log + [op])[..|log|] == log;
    assert (Inserted(log) + [op.url])[..|Inserted(log)|] == Inserted(log);
    hide Newest, Moved;
  }

  lemma {:induction false} PutFollows(c: Cache, log: seq<CacheOp>, op: CacheOp, e: Stored)
    requires Follows(c, log) && op.Kept? && e == Stored(op.prompt, op.until)
    ensures Follows(Put(c, op.url, e), log + [op])
  {
    PutIsBounded(c, op.url, e);
    StoreKeepsPrompts(c, log, op, e);
    InsertedAppends(log, op);
    var c' := Put(c, op.url, e);
    assert c'.recent == Newest(Moved(c.recent, op.url));
    hide Put, Distinct, Newest, Moved, Restrict, Held, Inserted, LastKept;
    assert c'.recent == Held(Inserted(log + [op]));
  }

  lemma {:induction false} StepIsBounded(s: State, step: Step)
    requires Bounded(s) && Enabled(s, step)
    ensures Bounded(Next(s, step))
  {
    hide Follows, Put, Cached;
    if step.Store? {
      var t := s.threads[step.i];
      PutFollows(s.cache, s.log, Kept(t.phase.chan, t.url, t.phase.fetched, s.clock, s.clock + t.ttl), Stored(t.phase.fetched, s.clock + t.ttl));
    } else if step.Clear? {
      NothingFollows(s.log);
    }
  }

  lemma {:induction false} NothingFollows(log: seq<CacheOp>)
    ensures Follows(EMPTY, log + [Wiped])
  {
    assert Inserted(log + [Wiped]) == [];
  }

  // ----- what each leader did

  ghost predicate KeptBy(log: seq<CacheOp>, chan: nat) {
    exists k :: 0 <= k < |log| && log[k].Kept? && log[k].chan == chan
  }

  /** A thread and the record of the channel it leads, waits on or was woken by. */
  ghost predicate TrackedThread(s: State, t: Thread) {
    match t.phase
    case Waiting(chan) => chan < |s.leaders| && s.leaders[chan].url == t.url
    case Woken(chan) => chan < |s.leaders| && s.leaders[chan].url == t.url && chan in s.closed
    case Fetching(chan) => chan < |s.leaders| && s.leaders[chan] == Leader(t.url, t.ttl, None)
    case Storing(chan, fetched) =>
      chan < |s.leaders| && s.leaders[chan] == Leader(t.url, t.ttl, Some(Some(fetched))) && t.ttl > 0.0 && !KeptBy(s.log, chan)
    case Leaving(chan, result) => Finished(s, chan) && s.leaders[chan] == Leader(t.url, t.ttl, Some(result))
    case Closing(chan, result) => Finished(s, chan) && s.leaders[chan] == Leader(t.url, t.ttl, Some(result))
    case _ => true
  }

  /** The fetch has ended, and its prompt is stored if it is to be. */
  ghost predicate Finished(s: State, chan: nat) {
    && chan < |s.leaders| && s.leaders[chan].answer.Some?
    && (s.leaders[chan].answer.value.Some? && s.leaders[chan].ttl > 0.0 ==> KeptBy(s.log, chan))
  }

  /** A store is one of a leader that fetched that prompt for that URL, and is to be cached. */
  ghost predicate TrackedOp(s: State, op: CacheOp) {
    op.Kept? ==> op.chan < |s.leaders| && s.leaders[op.chan].url == op.url && s.leaders[op.chan].ttl > 0.0
                 && s.leaders[op.chan].answer == Some(Some(op.prompt))
                 && op.at <= s.clock && op.until == op.at + s.leaders[op.chan].ttl
  }

  ghost predicate Tracked(s: State) {
    && (forall i | 0 <= i < |s.threads| :: TrackedThread(s, s.threads[i]))
    && (forall k | 0 <= k < |s.log| :: TrackedOp(s, s.log[k]))
    && (forall chan | chan in s.closed :: Finished(s, chan))
    && (forall url | url in s.inflight :: s.inflight[url] < |s.leaders| && s.leaders[s.inflight[url]].url == url)
  }

  lemma {:induction false} KeptAppends(log: seq<CacheOp>, op: CacheOp, chan: nat)
    ensures KeptBy(log + [op], chan) <==> KeptBy(log, chan) || (op.Kept? && op.chan == chan)
  {
    var longer := log + [op];
    assert longer[|log|] == op;
    if KeptBy(log, chan) {
      var k :| 0 <= k < |log| && log[k].Kept? && log[k].chan == chan;
      assert longer[k] == log[k];
    }
  }

  /** A store of a channel's leader means that its fetch succeeded and was to be cached. */
  lemma {:induction false} KeptIsAnswered(s: State, chan: nat)
    requires (forall k | 0 <= k < |s.log| :: TrackedOp(s, s.log[k])) && KeptBy(s.log, chan)
    ensures chan < |s.leaders| && s.leaders[chan].ttl > 0.0
    ensures s.leaders[chan].answer.Some? && s.leaders[chan].answer.value.Some?
  {
    var k :| 0 <= k < |s.log| && s.log[k].Kept? && s.log[k].chan == chan;
    assert TrackedOp(s, s.log[k]);
  }

  /** The fetch of `i` ends: only its own channel's record changes. */
  lemma {:induction false} FetchIsTracked(s: State, i: nat, answer: Result)
    requires Tracked(s) && OwnersDiffer(s) && Enabled(s, Fetch(i, answer))
    ensures Tracked(Next(s, Fetch(i, answer)))
  {
    var s' := Next(s, Fetch(i, answer));
    var chan := s.threads[i].phase.chan;
    assert TrackedThread(s, s.threads[i]);
    if KeptBy(s.log, chan) {
      KeptIsAnswered(s, chan);
    }
    hide KeptBy;
    forall j | 0 <= j < |s'.threads| ensures TrackedThread(s', s'.threads[j]) {
      assert TrackedThread(s, s.threads[j]);
    }
    forall k | 0 <= k < |s'.log| ensures TrackedOp(s', s'.log[k]) {
      assert TrackedOp(s, s.log[k]);
    }
  }

  /** The log grows while the leaders stay: what is known of the other threads, the stores and the closed channels remains. */
  lemma {:induction false} LogIsTracked(s: State, s': State, op: CacheOp)
    requires Tracked(s) && s'.log == s.log + [op] && s'.leaders == s.leaders && s'.closed == s.closed && s'.clock == s.clock
    requires TrackedOp(s, op)
    ensures forall k | 0 <= k < |s'.log| :: TrackedOp(s', s'.log[k])
    ensures forall chan | chan in s'.closed :: Finished(s', chan)
    ensures forall t | TrackedThread(s, t) && (t.phase.Storing? && op.Kept? ==> t.phase.chan != op.chan) :: TrackedThread(s', t)
  {
    forall chan: nat ensures KeptBy(s'.log, chan) <==> KeptBy(s.log, chan) || (op.Kept? && op.chan == chan) {
      KeptAppends(s.log, op, chan);
    }
    hide KeptBy;
    forall k | 0 <= k < |s'.log| ensures TrackedOp(s', s'.log[k]) {
      assert k < |s.log| ==> TrackedOp(s, s.log[k]);
    }
  }

  lemma {:induction false} StoreIsTracked(s: State, i: nat)
    requires Tracked(s) && OwnersDiffer(s) && Enabled(s, Store(i))
    ensures Tracked(Next(s, Store(i)))
  {
    var s' := Next(s, Store(i));
    var op := s'.log[|s.log|];
    assert TrackedThread(s, s.threads[i]);
    LogIsTracked(s, s', op);
    KeptAppends(s.log, op, op.chan);
    forall j | 0 <= j < |s'.threads| ensures TrackedThread(s', s'.threads[j]) {
      assert TrackedThread(s, s.threads[j]);
      assert j != i && Owns(s.threads[j].phase) ==> s.threads[j].phase.chan != op.chan;
      hide KeptBy, Put, OwnersDiffer;
    }
    hide KeptBy, Put, OwnersDiffer, TrackedThread;
  }

  lemma {:induction false} ClearIsTracked(s: State)
    requires Tracked(s)
    ensures Tracked(Next(s, Clear))
  {
    LogIsTracked(s, Next(s, Clear), Wiped);
    hide KeptBy, TrackedThread, TrackedOp, Finished;
    assert forall j | 0 <= j < |s.threads| :: TrackedThread(s, s.threads[j]);
  }

  lemma {:induction false} JoinIsTracked(s: State, i: nat)
    requires Tracked(s) && Enabled(s, Join(i))
    ensures Tracked(Next(s, Join(i)))
  {
    var s' := Next(s, Join(i));
    hide KeptBy;
    forall j | 0 <= j < |s'.threads| ensures TrackedThread(s', s'.threads[j]) {
      assert TrackedThread(s, s.threads[j]);
    }
    forall k | 0 <= k < |s'.log| ensures TrackedOp(s', s'.log[k]) {
      assert TrackedOp(s, s.log[k]);
    }
  }

  /** The other steps: the records stay, and one thread at most changes its phase. */
  lemma {:induction false} PhaseIsTracked(s: State, step: Step, j: nat)
    requires Tracked(s) && Enabled(s, step) && j < |Next(s, step).threads|
    requires !step.Fetch? && !step.Store? && !step.Clear? && !step.Join?
    ensures TrackedThread(Next(s, step), Next(s, step).threads[j])
  {
    hide KeptBy, Put, Finished;
    assert j < |s.threads| ==> TrackedThread(s, s.threads[j]);
    ClosedStays(s, Next(s, step));
  }

  lemma {:induction false} ClosedStays(s: State, s': State)
    requires s'.leaders == s.leaders && s'.log == s.log
    ensures forall chan :: Finished(s, chan) <==> Finished(s', chan)
  {
    hide KeptBy;
  }

  lemma {:induction false} ClosedIsFinished(s: State, step: Step)
    requires Tracked(s) && Enabled(s, step)
    requires !step.Fetch? && !step.Store? && !step.Clear? && !step.Join?
    ensures var s' := Next(s, step); forall chan | chan in s'.closed :: Finished(s', chan)
  {
    hide KeptBy, Put, Cached, Finished;
    if step.Close? {
      assert TrackedThread(s, s.threads[step.i]);
    }
    ClosedStays(s, Next(s, step));
  }

  lemma {:induction false} StepIsTracked(s: State, step: Step)
    requires Tracked(s) && OwnersDiffer(s) && Enabled(s, step)
    ensures Tracked(Next(s, step))
  {
    match step {
      case Fetch(i, answer) => FetchIsTracked(s, i, answer);
      case Store(i) => StoreIsTracked(s, i);
      case Clear => ClearIsTracked(s);
      case Join(i) => JoinIsTracked(s, i);
      case _ => OtherIsTracked(s, step);
    }
  }

  lemma {:induction false} OtherKeepsRecords(s: State, step: Step)
    requires Enabled(s, step) && !step.Fetch? && !step.Store? && !step.Clear? && !step.Join?
    ensures var s' := Next(s, step);
            && s'.log == s.log && s'.leaders == s.leaders && s.clock <= s'.clock
            && forall url | url in s'.inflight :: url in s.inflight && s'.inflight[url] == s.inflight[url]
  {
    hide Cached;
  }

  lemma {:induction false} OtherIsTracked(s: State, step: Step)
    requires Tracked(s) && Enabled(s, step) && !step.Fetch? && !step.Store? && !step.Clear? && !step.Join?
    ensures Tracked(Next(s, step))
  {
    var s' := Next(s, step);
    OtherKeepsRecords(s, step);
    ClosedIsFinished(s, step);
    hide Next, Enabled, KeptBy, Finished;
    forall j | 0 <= j < |s'.threads| ensures TrackedThread(s', s'.threads[j]) {
      PhaseIsTracked(s, step, j);
    }
    hide TrackedThread;
    forall k | 0 <= k < |s'.log| ensures TrackedOp(s', s'.log[k]) {
      assert TrackedOp(s, s.log[k]);
    }
  }

  /** No channel is stored for twice. */
  ghost predicate StoresDiffer(log: seq<CacheOp>) {
    forall j, k | 0 <= j < k < |log| && log[j].Kept? && log[k].Kept? :: log[j].chan != log[k].chan
  }

  lemma {:induction false} StepStoresOnce(s: State, step: Step)
    requires StoresDiffer(s.log) && Tracked(s) && Enabled(s, step)
    ensures StoresDiffer(Next(s, step).log)
  {
    hide Put, Cached;
    if step.Store? {
      assert TrackedThread(s, s.threads[step.i]);
    }
  }

  // ----- which store a reader finds

  /** The different URLs stored after position `k`. */
  function StoredAfter(log: seq<CacheOp>, k: nat): set<string> {
    set m | k < m < |log| && log[m].Kept? :: log[m].url
  }

  /** A store, with no wiping and no store for its URL since. */
  ghost predicate IsLatest(log: seq<CacheOp>, k: nat) {
    k < |log| && log[k].Kept? && forall m | k < m < |log| :: log[m].Kept? && log[m].url != log[k].url
  }

  /** It is the latest for its URL, and fewer other URLs than the cache may hold were stored since. */
  ghost predicate Survives(log: seq<CacheOp>, k: nat) {
    IsLatest(log, k) && |StoredAfter(log, k)| < 500
  }

  /** The store at `k` is of that prompt for that URL, and still in the cache. */
  ghost predicate Serves(log: seq<CacheOp>, k: nat, url: string, prompt: Prompt) {
    Survives(log, k) && log[k].url == url && log[k].prompt == prompt
  }

  /** Since the last wiping the insertions are the stores, in order. */
  lemma {:induction false} InsertedAre(log: seq<CacheOp>, k: nat)
    requires k <= |log| && forall m | k <= m < |log| :: log[m].Kept?
    ensures |Inserted(log)| >= |log| - k
    ensures forall m | k <= m < |log| :: Inserted(log)[m + |Inserted(log)| - |log|] == log[m].url
  {
    if k < |log| {
      InsertedAre(log[..|log| - 1], k);
    }
  }

  lemma {:induction false} LatestIsLastKept(log: seq<CacheOp>, k: nat)
    requires IsLatest(log, k)
    ensures LastKept(log, log[k].url) == Some(Stored(log[k].prompt, log[k].until))
  {
    if k < |log| - 1 {
      LatestIsLastKept(log[..|log| - 1], k);
    }
  }

  lemma {:induction false} LatestStore(log: seq<CacheOp>, url: string) returns (k: nat)
    requires url in Inserted(log)
    ensures IsLatest(log, k) && log[k].url == url
  {
    k := |log| - 1;
    if log[k].url != url {
      k := LatestStore(log[..|log| - 1], url);
    }
  }

  lemma {:induction false} KeysAreStores(inserted: seq<string>, skip: int, log: seq<CacheOp>, k: nat)
    requires k < |log| && skip == |inserted| - |log| && k + skip >= 0
    requires forall m | k < m < |log| :: log[m].Kept? && inserted[m + skip] == log[m].url
    ensures KeysAfter(inserted, k + skip) == StoredAfter(log, k)
  {
    forall url | url in KeysAfter(inserted, k + skip) ensures url in StoredAfter(log, k) {
      var m :| k + skip < m < |inserted| && inserted[m] == url;
      assert log[m - skip].url == inserted[m - skip + skip];
    }
  }

  lemma {:induction false} LatestIsHeld(log: seq<CacheOp>, k: nat)
    requires IsLatest(log, k)
    ensures log[k].url in Held(Inserted(log)) <==> |StoredAfter(log, k)| < MAX_ENTRIES
  {
    InsertedAre(log, k);
    var inserted := Inserted(log);
    var skip := |inserted| - |log|;
    hide Inserted, Held, StoredAfter, KeysAfter;
    KeysAreStores(inserted, skip, log, k);
    forall m | k + skip < m < |inserted| ensures inserted[m] != inserted[k + skip] {
      assert inserted[m - skip + skip] == log[m - skip].url;
    }
    HeldIff(inserted, k + skip);
  }

  /** A cache entry is the latest store for its URL, provided it survives. */
  lemma {:induction false} EntryIsSurvivor(c: Cache, log: seq<CacheOp>, url: string, prompt: Prompt)
    requires Follows(c, log)
    ensures url in c.entries && c.entries[url].prompt == prompt <==> exists k :: Serves(log, k, url, prompt)
  {
    hide Held, Inserted, LastKept, StoredAfter, Distinct;
    if url in c.entries {
      HeldWereInserted(Inserted(log), url);
      var k := LatestStore(log, url);
      LatestIsHeld(log, k);
      LatestIsLastKept(log, k);
      assert Serves(log, k, url, c.entries[url].prompt);
    }
    if k: nat :| Serves(log, k, url, prompt) {
      LatestIsHeld(log, k);
      LatestIsLastKept(log, k);
    }
  }

  // ----- every reachable state

  ghost predicate Safe(s: State) {
    && LeadersAreListed(s) && OwnersDiffer(s) && InRange(s) && ChannelsAreOwned(s) && TableIsLed(s)
    && Honest(s) && Bounded(s) && Tracked(s) && StoresDiffer(s.log)
  }

  lemma {:induction false} RunIsSafe(s: State, steps: seq<Step>)
    requires Safe(s) && CanRun(s, steps)
    ensures Safe(Run(s, steps))
    decreases |steps|
  {
    if steps != [] {
      var step := steps[0];
      StepListsLeaders(s, step);
      StepStaysInRange(s, step);
      StepKeepsOwnersApart(s, step);
      StepKeepsOwners(s, step);
      StepIsHonest(s, step);
      StepKeepsTableLed(s, step);
      StepIsBounded(s, step);
      StepIsTracked(s, step);
      StepStoresOnce(s, step);
      hide LeadersAreListed, OwnersDiffer, InRange, ChannelsAreOwned, TableIsLed, Honest, Bounded, Tracked, StoresDiffer, Next, Enabled;
      RunIsSafe(Next(s, step), steps[1..]);
    }
  }

  /** In every interleaving at most one fetch per URL is in flight. */
  lemma {:induction false} OneFetchPerUrl(steps: seq<Step>, i: nat, j: nat)
    requires CanRun(START, steps) && i < j && At(Run(START, steps), j)
    requires var s := Run(START, steps); Leads(s.threads[i].phase) && Leads(s.threads[j].phase)
    ensures Run(START, steps).threads[i].url != Run(START, steps).threads[j].url
  {
    RunIsSafe(START, steps);
  }

  /** The step that a thread or, if it waits, the owner of its channel can take. */
  ghost predicate CanMove(s: State, i: nat)
    requires At(s, i)
  {
    exists step :: Enabled(s, step) && !step.Call? && !step.Clear? && !step.Pass? && step.i == i
  }

  lemma {:induction false} ReadyToMove(s: State, i: nat)
    requires At(s, i) && !s.threads[i].phase.Done?
    requires s.threads[i].phase.Waiting? ==> s.threads[i].phase.chan in s.closed
    ensures CanMove(s, i)
  {
    var step :=
      match s.threads[i].phase
      case Looking => Look(i)
      case Joining => Join(i)
      case Waiting(_) => Wake(i)
      case Woken(_) => Reread(i)
      case Fetching(_) => Fetch(i, None)
      case Storing(_, _) => Store(i)
      case Leaving(_, _) => Leave(i)
      case Closing(_, _) => Close(i)
      case Failed => Settle(i)
      case Done(_) => Clear;
    assert Enabled(s, step) && step.i == i;
  }

  /** A thread that will close the channel, and can move. */
  ghost predicate HasMovingOwner(s: State, chan: nat) {
    exists k :: 0 <= k < |s.threads| && Owns(s.threads[k].phase) && s.threads[k].phase.chan == chan && CanMove(s, k)
  }

  lemma {:induction false} OwnerCanMove(s: State, chan: nat)
    requires HasOwner(s, chan)
    ensures HasMovingOwner(s, chan)
  {
    hide CanMove;
    var k :| 0 <= k < |s.threads| && Owns(s.threads[k].phase) && s.threads[k].phase.chan == chan;
    ReadyToMove(s, k);
  }

  /**
   * No waiter is ever stranded: in every reachable state a call that has not
   * ended can move, or waits for a thread that can.
   */
  lemma {:induction false} NoWaiterIsStranded(steps: seq<Step>, i: nat)
    requires CanRun(START, steps) && At(Run(START, steps), i) && !Run(START, steps).threads[i].phase.Done?
    ensures var s := Run(START, steps);
            CanMove(s, i) || (s.threads[i].phase.Waiting? && HasMovingOwner(s, s.threads[i].phase.chan))
  {
    RunIsSafe(START, steps);
    var s := Run(START, steps);
    assert ChannelsAreOwned(s) && InRange(s);
    hide Run, CanRun, CanMove, Safe, HasOwner, HasMovingOwner;
    if s.threads[i].phase.Waiting? && s.threads[i].phase.chan !in s.closed {
      OwnerCanMove(s, s.threads[i].phase.chan);
    } else {
      ReadyToMove(s, i);
    }
  }

  /**
   * In every reachable state a channel whose leader has ended is closed, so that
   * its waiters can wake, and its URL is free for a new fetch.
   */
  lemma {:induction false} EndedLeaderReleases(steps: seq<Step>, chan: nat)
    requires CanRun(START, steps) && chan < |Run(START, steps).leaders| && !HasOwner(Run(START, steps), chan)
    ensures var s := Run(START, steps);
            && chan in s.closed
            && (forall i | 0 <= i < |s.threads| && s.threads[i].phase == Waiting(chan) :: Enabled(s, Wake(i)))
            && (forall url | url in s.inflight :: s.inflight[url] != chan)
  {
    RunIsSafe(START, steps);
    var s := Run(START, steps);
    hide Run, CanRun;
    forall url | url in s.inflight ensures s.inflight[url] != chan {
      assert IsLed(s, url);
    }
  }

  /**
   * Whatever a call returns was fetched for its URL or is its own fallback; the
   * cache holds the keys inserted most recently since it was last cleared.
   */
  lemma {:induction false} ServedIsFetched(steps: seq<Step>)
    requires CanRun(START, steps)
    ensures var s := Run(START, steps);
            && |s.cache.recent| <= 500 && s.cache.recent == Newest(Recency(Inserted(s.log)))
            && (forall url :: url in s.cache.entries <==> url in s.cache.recent)
            && forall i | 0 <= i < |s.threads| && s.threads[i].phase.Done? && s.threads[i].phase.result.Some? ::
                 (s.threads[i].url, s.threads[i].phase.result.value) in s.fetched
                 || s.threads[i].phase.result == s.threads[i].fallback
  {
    RunIsSafe(START, steps);
    var s := Run(START, steps);
    HeldAreTheNewest(Inserted(s.log));
    hide Run, CanRun, Held, Recency;
    assert forall i | 0 <= i < |s.threads| :: HonestThread(s, s.threads[i]);
  }

  // ----- what a call is served at once, and when that starts a refresh

  lemma {:induction false} EntryOfStore(c: Cache, log: seq<CacheOp>, k: nat)
    requires Follows(c, log) && Survives(log, k)
    ensures log[k].url in c.entries && c.entries[log[k].url] == Stored(log[k].prompt, log[k].until)
  {
    LatestIsHeld(log, k);
    LatestIsLastKept(log, k);
    hide Held, Inserted, LastKept, StoredAfter, Distinct;
  }

  /**
   * In every interleaving a call that may use the cache and finds a surviving store is served
   * its prompt at once. It starts a refresh behind itself exactly when the time to live that
   * the store was given has passed since.
   */
  lemma {:induction false} LookServes(steps: seq<Step>, i: nat, k: nat)
    requires CanRun(START, steps) && Enabled(Run(START, steps), Look(i)) && Run(START, steps).threads[i].ttl > 0.0
    requires var s := Run(START, steps); Survives(s.log, k) && s.log[k].url == s.threads[i].url
    ensures var s := Run(START, steps);
            var t := s.threads[i];
            && s.log[k].chan < |s.leaders|
            && var young := s.clock < s.log[k].at + s.leaders[s.log[k].chan].ttl;
            Next(s, Look(i)) == s.(threads := s.threads[i := t.(phase := Done(Some(s.log[k].prompt)))]
                                              + if young then [] else [Thread(t.url, t.ttl, None, Joining)])
  {
    RunIsSafe(START, steps);
    var s := Run(START, steps);
    hide Run, CanRun;
    assert TrackedOp(s, s.log[k]);
    EntryOfStore(s.cache, s.log, k);
    var served := s.threads[i := s.threads[i].(phase := Done(Some(s.log[k].prompt)))];
    assert served + [] == served;
    hide Safe, Follows, Survives;
  }

  /** Without a surviving store, or with no time to live, a call goes on to fetch and starts nothing else. */
  lemma {:induction false} LookMisses(steps: seq<Step>, i: nat)
    requires CanRun(START, steps) && Enabled(Run(START, steps), Look(i))
    requires var s := Run(START, steps);
             s.threads[i].ttl <= 0.0 || forall k: nat | k < |s.log| && Survives(s.log, k) :: s.log[k].url != s.threads[i].url
    ensures var s := Run(START, steps);
            Next(s, Look(i)) == s.(threads := s.threads[i := s.threads[i].(phase := Joining)])
  {
    RunIsSafe(START, steps);
    var s := Run(START, steps);
    var url := s.threads[i].url;
    assert Follows(s.cache, s.log);
    hide Run, CanRun, Safe, Follows;
    if url in s.cache.entries {
      EntryIsSurvivor(s.cache, s.log, url, s.cache.entries[url].prompt);
      var k :| Serves(s.log, k, url, s.cache.entries[url].prompt);
      assert s.threads[i].ttl <= 0.0;
    }
  }

  // ----- what a waiter gets

  /** A woken waiter is given a prompt exactly when a store of that prompt for its URL survives. */
  lemma {:induction false} RereadGives(steps: seq<Step>, i: nat, prompt: Prompt)
    requires CanRun(START, steps) && Enabled(Run(START, steps), Reread(i))
    ensures var s := Run(START, steps);
            Next(s, Reread(i)).threads[i].phase == Done(Some(prompt)) <==> exists k :: Serves(s.log, k, s.threads[i].url, prompt)
  {
    RunIsSafe(START, steps);
    var s := Run(START, steps);
    assert Follows(s.cache, s.log);
    hide Run, CanRun, Safe, Follows, Serves;
    EntryIsSurvivor(s.cache, s.log, s.threads[i].url, prompt);
  }

  /** A call whose fetch failed ends with a surviving prompt, if it may read the cache, and otherwise with its fallback. */
  lemma {:induction false} SettleGives(steps: seq<Step>, i: nat, prompt: Prompt)
    requires CanRun(START, steps) && Enabled(Run(START, steps), Settle(i))
    ensures var s := Run(START, steps);
            var t := s.threads[i];
            Next(s, Settle(i)).threads[i].phase == Done(Some(prompt)) <==>
            if t.ttl > 0.0 && t.url in s.cache.recent then exists k :: Serves(s.log, k, t.url, prompt)
            else t.fallback == Some(prompt)
  {
    RunIsSafe(START, steps);
    var s := Run(START, steps);
    assert Follows(s.cache, s.log);
    assert s.threads[i].url in s.cache.entries <==> s.threads[i].url in s.cache.recent;
    hide Run, CanRun, Safe, Follows, Serves;
    EntryIsSurvivor(s.cache, s.log, s.threads[i].url, prompt);
  }

  /** Once its channel is closed a leader has stored, once, what it fetched, exactly when that was a prompt and it was to be cached. */
  lemma {:induction false} LeaderStores(steps: seq<Step>, chan: nat)
    requires CanRun(START, steps) && chan in Run(START, steps).closed
    ensures var s := Run(START, steps);
            && chan < |s.leaders| && s.leaders[chan].answer.Some?
            && (KeptBy(s.log, chan) <==> s.leaders[chan].answer.value.Some? && s.leaders[chan].ttl > 0.0)
            && StoresDiffer(s.log)
            && forall k | 0 <= k < |s.log| && s.log[k].Kept? && s.log[k].chan == chan ::
                 s.log[k].url == s.leaders[chan].url && s.leaders[chan].answer == Some(Some(s.log[k].prompt))
  {
    RunIsSafe(START, steps);
    var s := Run(START, steps);
    hide Run, CanRun;
    assert Finished(s, chan);
    if KeptBy(s.log, chan) {
      KeptIsAnswered(s, chan);
    }
    assert forall k | 0 <= k < |s.log| :: TrackedOp(s, s.log[k]);
  }

  /**
   * A waiter whose leader stored its version is given that version exactly when
   * that store survives, or another leader's store of the same version does.
   */
  lemma {:induction false} WaiterShares(steps: seq<Step>, i: nat, k: nat)
    requires CanRun(START, steps) && Enabled(Run(START, steps), Reread(i))
    requires var s := Run(START, steps); k < |s.log| && s.log[k].Kept? && s.log[k].chan == s.threads[i].phase.chan
    ensures var s := Run(START, steps);
            var t := s.threads[i];
            && t.phase.chan < |s.leaders| && s.leaders[t.phase.chan].answer == Some(Some(s.log[k].prompt))
            && (Next(s, Reread(i)).threads[i].phase == Done(Some(s.log[k].prompt)) <==>
                Survives(s.log, k)
                || exists m: nat :: Serves(s.log, m, t.url, s.log[k].prompt) && s.log[m].chan != t.phase.chan)
  {
    WokenIsTracked(steps, i);
    var s := Run(START, steps);
    LeaderStores(steps, s.threads[i].phase.chan);
    RereadGives(steps, i, s.log[k].prompt);
    hide Run, CanRun, Survives, KeptBy, Next;
    assert Survives(s.log, k) ==> Serves(s.log, k, s.threads[i].url, s.log[k].prompt);
    assert forall m: nat | Serves(s.log, m, s.threads[i].url, s.log[k].prompt) && s.log[m].chan == s.threads[i].phase.chan :: m == k;
  }

  /** A waiter whose leader failed, or was not to cache, is given a prompt exactly when another leader's store of it survives. */
  lemma {:induction false} WaiterOfNoStore(steps: seq<Step>, i: nat, prompt: Prompt)
    requires CanRun(START, steps) && Enabled(Run(START, steps), Reread(i))
    requires var s := Run(START, steps);
             var chan := s.threads[i].phase.chan;
             chan < |s.leaders| && (s.leaders[chan].answer == Some(None) || s.leaders[chan].ttl <= 0.0)
    ensures var s := Run(START, steps);
            Next(s, Reread(i)).threads[i].phase == Done(Some(prompt)) <==>
            exists m: nat :: Serves(s.log, m, s.threads[i].url, prompt) && s.log[m].chan != s.threads[i].phase.chan
  {
    WokenIsTracked(steps, i);
    var s := Run(START, steps);
    LeaderStores(steps, s.threads[i].phase.chan);
    RereadGives(steps, i, prompt);
    hide Run, CanRun, Next;
    assert forall m: nat | Serves(s.log, m, s.threads[i].url, prompt) :: s.log[m].chan != s.threads[i].phase.chan;
  }

  lemma {:induction false} WokenIsTracked(steps: seq<Step>, i: nat)
    requires CanRun(START, steps) && Enabled(Run(START, steps), Reread(i))
    ensures var s := Run(START, steps);
            var chan := s.threads[i].phase.chan;
            chan in s.closed && chan < |s.leaders| && s.leaders[chan].url == s.threads[i].url
  {
    RunIsSafe(START, steps);
    var s := Run(START, steps);
    hide Run, CanRun;
    assert TrackedThread(s, s.threads[i]);
  }

  /** A leader itself is given what its fetch brought, whatever became of the cache. */
  lemma {:induction false} LeaderGives(steps: seq<Step>, i: nat)
    requires CanRun(START, steps) && Enabled(Run(START, steps), Close(i))
    ensures var s := Run(START, steps);
            var c := s.threads[i].phase.chan;
            && c < |s.leaders| && s.leaders[c].url == s.threads[i].url && s.leaders[c].answer.Some?
            && var brought := s.leaders[c].answer.value;
            && c in Next(s, Close(i)).closed
            && Next(s, Close(i)).threads[i].phase == if brought.Some? then Done(brought) else Failed
  {
    RunIsSafe(START, steps);
    var s := Run(START, steps);
    hide Run, CanRun;
    assert TrackedThread(s, s.threads[i]);
  }

  // ----- a run in which a waiter fails although its leader succeeded

  lemma {:induction false} RunFirst(s: State, step: Step, rest: seq<Step>)
    requires Enabled(s, step) && CanRun(Next(s, step), rest)
    ensures CanRun(s, [step] + rest) && Run(s, [step] + rest) == Run(Next(s, step), rest)
  {
    assert ([step] + rest)[1..] == rest;
  }

  /** The leader ends, then the waiter. */
  function Ending(prompt: Prompt): seq<Step> {
    [Fetch(0, Some(prompt))] + ([Leave(0)] + ([Close(0)] + ([Wake(1)] + ([Reread(1)] + ([Settle(1)] + [])))))
  }

  /** A leader that does not cache its result, and a call that joins it. */
  function Uncached(url: string, ttl: real, prompt: Prompt): seq<Step> {
    [Call(url, 0.0, None)] + ([Look(0)] + ([Join(0)] + ([Call(url, ttl, None)] + ([Look(1)] + ([Join(1)] + Ending(prompt))))))
  }

  lemma {:induction false} EndingRuns(s: State, url: string, ttl: real, prompt: Prompt)
    requires s == State(EMPTY, map[url := 0], [Leader(url, 0.0, None)], {}, [Thread(url, 0.0, None, Fetching(0)), Thread(url, ttl, None, Waiting(0))],
                        0.0, {}, [])
    ensures CanRun(s, Ending(prompt))
    ensures Run(s, Ending(prompt)).threads == [Thread(url, 0.0, None, Done(Some(prompt))), Thread(url, ttl, None, Done(None))]
  {
    hide Run, CanRun, Put;
    var s7 := Next(s, Fetch(0, Some(prompt)));
    var s8 := Next(s7, Leave(0));
    var s9 := Next(s8, Close(0));
    var s10 := Next(s9, Wake(1));
    var s11 := Next(s10, Reread(1));
    var s12 := Next(s11, Settle(1));
    EmptyRun(s12);
    RunFirst(s11, Settle(1), []);
    var r11 := [Settle(1)] + [];
    RunFirst(s10, Reread(1), r11);
    var r10 := [Reread(1)] + r11;
    RunFirst(s9, Wake(1), r10);
    var r9 := [Wake(1)] + r10;
    RunFirst(s8, Close(0), r9);
    var r8 := [Close(0)] + r9;
    RunFirst(s7, Leave(0), r8);
    RunFirst(s, Fetch(0, Some(prompt)), [Leave(0)] + r8);
  }

  /** The waiter re-reads the cache, and finds nothing when the leader was told not to cache. */
  lemma {:induction false} WaiterCanFail(url: string, ttl: real, prompt: Prompt)
    ensures CanRun(START, Uncached(url, ttl, prompt))
    ensures Run(START, Uncached(url, ttl, prompt)).threads ==
            [Thread(url, 0.0, None, Done(Some(prompt))), Thread(url, ttl, None, Done(None))]
  {
    hide Run, CanRun, Put, Ending;
    var s1 := Next(START, Call(url, 0.0, None));
    var s2 := Next(s1, Look(0));
    var s3 := Next(s2, Join(0));
    var s4 := Next(s3, Call(url, ttl, None));
    var s5 := Next(s4, Look(1));
    var s6 := Next(s5, Join(1));
    var r6 := Ending(prompt);
    EndingRuns(s6, url, ttl, prompt);
    RunFirst(s5, Join(1), r6);
    var r5 := [Join(1)] + r6;
    RunFirst(s4, Look(1), r5);
    var r4 := [Look(1)] + r5;
    RunFirst(s3, Call(url, ttl, None), r4);
    var r3 := [Call(url, ttl, None)] + r4;
    RunFirst(s2, Join(0), r3);
    var r2 := [Join(0)] + r3;
    RunFirst(s1, Look(0), r2);
    RunFirst(START, Call(url, 0.0, None), [Look(0)] + r2);
  }

  lemma {:induction false} EmptyRun(s: State)
    ensures CanRun(s, []) && Run(s, []) == s
  {
  }
}
