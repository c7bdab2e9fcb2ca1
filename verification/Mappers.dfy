/**
 The worker's mapper from ingest events to rows: a stable sort by event time, accumulation per entity,
 and fallback to the stored row for every field the batch leaves unset.
 */
module Mappers {
  import opened Outcome
  import opened MergeTable

  // ----- events

  /** A JSON payload: a string, or anything else by its serialization. */
  datatype Json = Text(text: string) | Other(serialized: string)

  datatype TraceBody = TraceBody(
    timestamp: Option<string>, name: Option<string>, userId: Option<string>, sessionId: Option<string>,
    sessionPath: Option<string>, release: Option<string>, version: Option<string>, environment: Option<string>,
    isPublic: Option<bool>, tags: Option<seq<string>>, metadata: Option<Json>, input: Option<Json>, output: Option<Json>)

  /** A number as reported: JavaScript's infinities and NaN are `Strange`. */
  datatype Count = Finite(n: real) | Strange

  datatype Usage = Usage(promptTokens: Option<Count>, completionTokens: Option<Count>, totalTokens: Option<Count>,
                         cacheReadTokens: Option<Count>, cacheCreationTokens: Option<Count>, reasoningTokens: Option<Count>)

  datatype ObservationType =
    | SPAN | GENERATION | EVENT | TOOL | AGENT | RETRIEVER | RERANKER | EMBEDDING | CHAIN | GUARDRAIL
    | THOUGHT | MEMORY | HANDOFF

  datatype ObservationBody = ObservationBody(
    traceId: string, observationType: Option<ObservationType>, parentObservationId: Option<string>, name: Option<string>,
    startTime: Option<string>, endTime: Option<string>, environment: Option<string>, level: Option<string>,
    statusMessage: Option<string>, model: Option<string>, provider: Option<string>, modelParameters: Option<Json>,
    usage: Option<Usage>, promptId: Option<string>, promptVersion: Option<string>,
    input: Option<Json>, output: Option<Json>, metadata: Option<Json>)

  datatype ScoreBody = ScoreBody(
    traceId: string, observationId: Option<string>, name: string, timestamp: Option<string>, environment: Option<string>,
    source: Option<string>, dataType: Option<string>, value: Option<real>, stringValue: Option<string>,
    comment: Option<string>, configId: Option<string>)

  datatype Kind = SpanCreate | SpanUpdate | GenerationCreate | GenerationUpdate | EventCreate

  datatype Payload =
    | TraceCreate(trace: TraceBody)
    | Observe(kind: Kind, observation: ObservationBody)
    | ScoreCreate(score: ScoreBody)

  /** An event, with the id its body carries. */
  datatype Event = Event(timestamp: string, id: string, payload: Payload)

  // ----- rows

  datatype TraceRow = TraceRow(
    id: string, projectId: string, timestamp: string, name: string, userId: string, sessionId: string,
    sessionPath: string, release: string, version: string, environment: string, isPublic: int, tags: seq<string>,
    metadata: string, input: string, output: string, eventTs: string)

  datatype Cost = Cost(inputCost: real, outputCost: real, totalCost: real)

  datatype Tokens = Tokens(prompt: int, completion: int, total: int, cacheRead: int, cacheCreation: int, reasoning: int)

  datatype ObservationRow = ObservationRow(
    id: string, traceId: string, projectId: string, obsType: ObservationType, parentObservationId: string, name: string,
    startTime: string, endTime: Option<string>, environment: string, level: string, statusMessage: string,
    model: string, provider: string, modelParameters: string, tokens: Tokens, cost: Cost,
    promptId: string, promptVersion: string, input: string, output: string, metadata: string,
    latencyMs: int, eventTs: string)

  datatype ScoreRow = ScoreRow(
    id: string, projectId: string, traceId: string, observationId: string, name: string, timestamp: string,
    environment: string, source: string, dataType: string, value: Option<real>, stringValue: string,
    comment: string, configId: string, eventTs: string)

  datatype Rows = Rows(traces: seq<TraceRow>, observations: seq<ObservationRow>, scores: seq<ScoreRow>)

  /** The stored rows passed along with a batch. */
  datatype Bases = Bases(traces: map<string, TraceRow>, observations: map<string, ObservationRow>)

  /**
   * What the language and the price table supply: the collation order of timestamps, `Date.parse`,
   * `toISOString`, JSON quoting of a string, and the provider and cost of a model.
   */
  datatype Host = Host(
    rank: string -> real, parse: string -> Option<int>, iso: int -> string, quote: string -> string,
    providerFor: string -> string, costOf: (string, int, int) -> Cost)

  // ----- small conversions

  function Get<T>(own: Option<T>, fallback: T): T {
    if own.Some? then own.value else fallback
  }

  function Or<T>(own: Option<T>, fallback: Option<T>): Option<T> {
    if own.Some? then own else fallback
  }

  function JsonText(v: Json): string {
    match v
    case Text(t) => t
    case Other(s) => s
  }

  function MetaText(h: Host, v: Json): string {
    match v
    case Text(t) => h.quote(t)
    case Other(s) => s
  }

  function Converted(own: Option<Json>, fallback: string): string {
    if own.Some? then JsonText(own.value) else fallback
  }

  function ConvertedMeta(h: Host, own: Option<Json>, fallback: string): string {
    if own.Some? then MetaText(h, own.value) else fallback
  }

  const FUTURE_SKEW_MS: int := 24 * 60 * 60 * 1000

  /** A time more than a day ahead of the clock becomes the clock plus a day; what is no date passes through. */
  function ClampFuture(h: Host, iso: string, now: int): string {
    var t := h.parse(iso);
    if t.None? || t.value <= now + FUTURE_SKEW_MS then iso else h.iso(now + FUTURE_SKEW_MS)
  }

  function StableTime(h: Host, existing: Option<string>, incoming: Option<string>, eventTs: string, now: int): string {
    ClampFuture(h, Get(Or(existing, incoming), eventTs), now)
  }

  const MAX_EVENT_TOKENS: int := 10_000_000

  /** A count in range is rounded down, so that a whole one is kept; none and a strange one are 0. */
  function ClampTokens(count: Option<Count>): (t: int)
    ensures 0 <= t <= MAX_EVENT_TOKENS
    ensures count.None? || count.value.Strange? ==> t == 0
    ensures count.Some? && count.value.Finite? && count.value.n < 0.0 ==> t == 0
    ensures count.Some? && count.value.Finite? && count.value.n > 10000000.0 ==> t == 10000000
    ensures count.Some? && count.value.Finite? && 0.0 <= count.value.n <= MAX_EVENT_TOKENS as real ==>
              t as real <= count.value.n < t as real + 1.0
  {
    if count.None? || count.value.Strange? then 0 else
    var v := count.value.n.Floor;
    if v < 0 then 0 else if v > MAX_EVENT_TOKENS then MAX_EVENT_TOKENS else v
  }

  const NO_USAGE := Usage(None, None, None, None, None, None)

  function TokensOf(usage: Option<Usage>): (t: Tokens)
    ensures t.reasoning <= t.completion
  {
    var u := Get(usage, NO_USAGE);
    var prompt := ClampTokens(u.promptTokens);
    var completion := ClampTokens(u.completionTokens);
    var reasoning := ClampTokens(u.reasoningTokens);
    Tokens(prompt, completion, ClampTokens(Some(Get(u.totalTokens, Finite((prompt + completion) as real)))),
           ClampTokens(u.cacheReadTokens), ClampTokens(u.cacheCreationTokens),
           if reasoning < completion then reasoning else completion)
  }

  // ----- order

  /** Stable insertion: after everything that is not later. */
  function Insert(h: Host, s: seq<Event>, e: Event): (r: seq<Event>)
    ensures |r| == |s| + 1
  {
    if s == [] || h.rank(s[|s| - 1].timestamp) <= h.rank(e.timestamp) then s + [e]
    else Insert(h, s[..|s| - 1], e) + [s[|s| - 1]]
  }

  /** The stable sort by event time. */
  function Sorted(h: Host, events: seq<Event>): seq<Event> {
    if events == [] then [] else Insert(h, Sorted(h, events[..|events| - 1]), events[|events| - 1])
  }

  // ----- accumulation

  /** What a trace accumulates: its fields, and the time of its last event. */
  datatype TraceContent = TraceContent(body: TraceBody, eventTs: string)

  /** An observation also takes the type its last event gives it. */
  datatype ObservationContent = ObservationContent(body: ObservationBody, obsType: ObservationType, eventTs: string)

  /** Fields the patch leaves unset keep their value. */
  function AssignTrace(acc: TraceBody, patch: TraceBody): TraceBody {
    TraceBody(
      Or(patch.timestamp, acc.timestamp), Or(patch.name, acc.name), Or(patch.userId, acc.userId),
      Or(patch.sessionId, acc.sessionId), Or(patch.sessionPath, acc.sessionPath), Or(patch.release, acc.release),
      Or(patch.version, acc.version), Or(patch.environment, acc.environment), Or(patch.isPublic, acc.isPublic),
      Or(patch.tags, acc.tags), Or(patch.metadata, acc.metadata), Or(patch.input, acc.input), Or(patch.output, acc.output))
  }

  function AssignObservation(acc: ObservationBody, patch: ObservationBody): ObservationBody {
    ObservationBody(
      patch.traceId, Or(patch.observationType, acc.observationType),
      Or(patch.parentObservationId, acc.parentObservationId), Or(patch.name, acc.name),
      Or(patch.startTime, acc.startTime), Or(patch.endTime, acc.endTime), Or(patch.environment, acc.environment),
      Or(patch.level, acc.level), Or(patch.statusMessage, acc.statusMessage), Or(patch.model, acc.model),
      Or(patch.provider, acc.provider), Or(patch.modelParameters, acc.modelParameters), Or(patch.usage, acc.usage),
      Or(patch.promptId, acc.promptId), Or(patch.promptVersion, acc.promptVersion),
      Or(patch.input, acc.input), Or(patch.output, acc.output), Or(patch.metadata, acc.metadata))
  }

  function MergeTrace(acc: TraceContent, patch: TraceContent): TraceContent {
    TraceContent(AssignTrace(acc.body, patch.body), patch.eventTs)
  }

  function MergeObservation(acc: ObservationContent, patch: ObservationContent): ObservationContent {
    ObservationContent(AssignObservation(acc.body, patch.body), patch.obsType, patch.eventTs)
  }

  function KindType(kind: Kind): ObservationType {
    match kind
    case SpanCreate => SPAN
    case SpanUpdate => SPAN
    case GenerationCreate => GENERATION
    case GenerationUpdate => GENERATION
    case EventCreate => EVENT
  }

  function TracePatches(e: Event): seq<Patch<TraceContent>> {
    if e.payload.TraceCreate? then [Patch(e.id, TraceContent(e.payload.trace, e.timestamp))] else []
  }

  function ObservationPatches(e: Event): seq<Patch<ObservationContent>> {
    if e.payload.Observe? then
      var body := e.payload.observation;
      [Patch(e.id, ObservationContent(body, Get(body.observationType, KindType(e.payload.kind)), e.timestamp))]
    else []
  }

  function ScoreRows(projectId: string): Event -> seq<ScoreRow> {
    (e: Event) => ScoreRowsOf(projectId, e)
  }

  function ScoreRowsOf(projectId: string, e: Event): seq<ScoreRow> {
    if e.payload.ScoreCreate? then [ScoreRowOf(projectId, e.id, e.timestamp, e.payload.score)] else []
  }

  function ScoreRowOf(projectId: string, id: string, eventTs: string, b: ScoreBody): ScoreRow {
    ScoreRow(id, projectId, b.traceId, Get(b.observationId, ""), b.name, Get(b.timestamp, eventTs),
             Get(b.environment, "default"), Get(b.source, "API"), Get(b.dataType, "NUMERIC"), b.value,
             Get(b.stringValue, ""), Get(b.comment, ""), Get(b.configId, ""), eventTs)
  }

  function TraceTable(ordered: seq<Event>): Table<TraceContent> {
    Fold(FlatMap(TracePatches, ordered), MergeTrace)
  }

  function ObservationTable(ordered: seq<Event>): Table<ObservationContent> {
    Fold(FlatMap(ObservationPatches, ordered), MergeObservation)
  }

  // ----- rows from what was accumulated

  /** What a trace without a stored row falls back to. */
  const NO_TRACE := TraceRow("", "", "", "", "", "", "", "", "", "default", 0, [], "{}", "", "", "")

  function TraceRowOf(h: Host, projectId: string, now: int, base: Option<TraceRow>, id: string, c: TraceContent): TraceRow {
    var b, prior := c.body, Get(base, NO_TRACE);
    TraceRow(
      id, projectId,
      StableTime(h, if base.Some? then Some(prior.timestamp) else None, b.timestamp, c.eventTs, now),
      Get(b.name, prior.name), Get(b.userId, prior.userId), Get(b.sessionId, prior.sessionId),
      Get(b.sessionPath, prior.sessionPath), Get(b.release, prior.release), Get(b.version, prior.version),
      Get(b.environment, prior.environment),
      if b.isPublic.Some? then (if b.isPublic.value then 1 else 0) else prior.isPublic,
      Get(b.tags, prior.tags), ConvertedMeta(h, b.metadata, prior.metadata),
      Converted(b.input, prior.input), Converted(b.output, prior.output), c.eventTs)
  }

  const NO_COST := Cost(0.0, 0.0, 0.0)
  const NO_TOKENS := Tokens(0, 0, 0, 0, 0, 0)

  const NO_OBSERVATION := ObservationRow(
    "", "", "", SPAN, "", "", "", None, "default", "DEFAULT", "", "", "", "{}", NO_TOKENS, NO_COST,
    "", "", "", "", "{}", 0, "")

  /** Milliseconds from start to end, none without an end. An unparsable time makes the difference NaN; it is taken as 0 here. */
  function Latency(h: Host, startTime: string, endTime: Option<string>): (ms: int)
    ensures ms >= 0
  {
    if endTime.None? || endTime.value == "" then 0 else
    var s, e := h.parse(startTime), h.parse(endTime.value);
    if s.None? || e.None? || e.value < s.value then 0 else e.value - s.value
  }

  function ObservationRowOf(h: Host, projectId: string, now: int, base: Option<ObservationRow>,
                            id: string, c: ObservationContent): ObservationRow {
    var b, prior := c.body, Get(base, NO_OBSERVATION);
    var model := Get(b.model, prior.model);
    var recount := b.usage.Some? || base.None?;
    var tokens := if recount then TokensOf(b.usage) else prior.tokens;
    var cost := if recount then h.costOf(model, tokens.prompt, tokens.completion) else prior.cost;
    var startTime := StableTime(h, if base.Some? then Some(prior.startTime) else None, b.startTime, c.eventTs, now);
    var endTime := Or(b.endTime, prior.endTime);
    ObservationRow(
      id, b.traceId, projectId, c.obsType, Get(b.parentObservationId, prior.parentObservationId), Get(b.name, prior.name),
      startTime, endTime, Get(b.environment, prior.environment), Get(b.level, prior.level),
      Get(b.statusMessage, prior.statusMessage), model,
      Get(b.provider, if b.model.Some? || base.None? then h.providerFor(model) else prior.provider),
      ConvertedMeta(h, b.modelParameters, prior.modelParameters), tokens, cost,
      Get(b.promptId, prior.promptId), Get(b.promptVersion, prior.promptVersion),
      Converted(b.input, prior.input), Converted(b.output, prior.output), ConvertedMeta(h, b.metadata, prior.metadata),
      Latency(h, startTime, endTime), c.eventTs)
  }

  function Find<V>(m: map<string, V>, id: string): Option<V> {
    if id in m then Some(m[id]) else None
  }

  function TraceRowAt(h: Host, projectId: string, now: int, bases: Bases, t: Table<TraceContent>, id: string): TraceRow
    requires id in t.at
  {
    TraceRowOf(h, projectId, now, Find(bases.traces, id), id, t.at[id])
  }

  function ObservationRowAt(h: Host, projectId: string, now: int, bases: Bases, t: Table<ObservationContent>, id: string): ObservationRow
    requires id in t.at
  {
    ObservationRowOf(h, projectId, now, Find(bases.observations, id), id, t.at[id])
  }

  // ----- the mapper

  /** Are these the rows of the batch, one per entity, in the order in which the entities first appear? */
  ghost predicate IsMapped(h: Host, projectId: string, now: int, events: seq<Event>, bases: Bases, rows: Rows) {
    var ordered := Sorted(h, events);
    var traces, observations := TraceTable(ordered), ObservationTable(ordered);
    && WellFormed(traces) && WellFormed(observations)
    && |rows.traces| == |traces.keys| && |rows.observations| == |observations.keys|
    && (forall i | 0 <= i < |rows.traces| :: traces.keys[i] in traces.at &&
          rows.traces[i] == TraceRowAt(h, projectId, now, bases, traces, traces.keys[i]))
    && (forall i | 0 <= i < |rows.observations| :: observations.keys[i] in observations.at &&
          rows.observations[i] == ObservationRowAt(h, projectId, now, bases, observations, observations.keys[i]))
    && rows.scores == FlatMap(ScoreRows(projectId), ordered)
  }

  lemma {:induction false} FoldOnePatch<V>(before: seq<Patch<V>>, more: seq<Patch<V>>, merge: (V, V) -> V)
    requires |more| <= 1
    ensures Fold(before + more, merge) ==
            if more == [] then Fold(before, merge) else Put(Fold(before, merge), more[0], merge)
  {
    if more == [] {
      assert before + more == before;
    } else {
      assert (before + more)[..|before + more| - 1] == before;
    }
  }

  lemma {:induction false} NextTable(before: seq<Event>, e: Event)
    ensures !e.payload.TraceCreate? ==> TraceTable(before + [e]) == TraceTable(before)
    ensures e.payload.TraceCreate? ==>
              TraceTable(before + [e]) == Put(TraceTable(before), Patch(e.id, TraceContent(e.payload.trace, e.timestamp)), MergeTrace)
    ensures !e.payload.Observe? ==> ObservationTable(before + [e]) == ObservationTable(before)
    ensures e.payload.Observe? ==>
              var body := e.payload.observation;
              var update := ObservationContent(body, Get(body.observationType, KindType(e.payload.kind)), e.timestamp);
              ObservationTable(before + [e]) == Put(ObservationTable(before), Patch(e.id, update), MergeObservation)
  {
    NextTables(before, e);
    hide TraceTable, ObservationTable, Put, MergeTrace, MergeObservation, KindType, Get;
  }

  lemma {:induction false} NextTables(before: seq<Event>, e: Event)
    ensures TraceTable(before + [e]) ==
            if TracePatches(e) == [] then TraceTable(before) else Put(TraceTable(before), TracePatches(e)[0], MergeTrace)
    ensures ObservationTable(before + [e]) ==
            if ObservationPatches(e) == [] then ObservationTable(before)
            else Put(ObservationTable(before), ObservationPatches(e)[0], MergeObservation)
  {
    FlatMapSnoc(TracePatches, before, e);
    FlatMapSnoc(ObservationPatches, before, e);
    FoldOnePatch(FlatMap(TracePatches, before), TracePatches(e), MergeTrace);
    FoldOnePatch(FlatMap(ObservationPatches, before), ObservationPatches(e), MergeObservation);
    hide Fold, FlatMap;
  }

  lemma {:induction false} NextScores(projectId: string, before: seq<Event>, e: Event)
    ensures FlatMap(ScoreRows(projectId), before + [e]) ==
            FlatMap(ScoreRows(projectId), before) +
            if e.payload.ScoreCreate? then [ScoreRowOf(projectId, e.id, e.timestamp, e.payload.score)] else []
  {
    FlatMapSnoc(ScoreRows(projectId), before, e);
    hide FlatMap, ScoreRowOf;
  }

  method Accumulate(projectId: string, ordered: seq<Event>)
    returns (traces: Table<TraceContent>, observations: Table<ObservationContent>, scores: seq<ScoreRow>)
    ensures traces == TraceTable(ordered)
    ensures observations == ObservationTable(ordered)
    ensures scores == FlatMap(ScoreRows(projectId), ordered)
  {
    var traceKeys, traceAcc := [], map[];
    var obsKeys, obsAcc := [], map[];
    scores := [];
    assert ordered[..0] == [];
    for i := 0 to |ordered|
      invariant Table(traceKeys, traceAcc) == TraceTable(ordered[..i])
      invariant Table(obsKeys, obsAcc) == ObservationTable(ordered[..i])
      invariant scores == FlatMap(ScoreRows(projectId), ordered[..i])
    {
      var event := ordered[i];
      assert ordered[..i + 1] == ordered[..i] + [event];
      NextTable(ordered[..i], event);
      NextScores(projectId, ordered[..i], event);
      hide Get, FlatMap, Fold, MergeTrace, MergeObservation, TraceTable, ObservationTable, KindType, ScoreRowsOf, ScoreRows, ScoreRowOf;
      match event.payload {
        case TraceCreate(body) =>
          var patch := TraceContent(body, event.timestamp);
          if event.id in traceAcc {
            traceAcc := traceAcc[event.id := MergeTrace(traceAcc[event.id], patch)];
          } else {
            traceKeys, traceAcc := traceKeys + [event.id], traceAcc[event.id := patch];
          }
        case ScoreCreate(score) =>
          scores := scores + [ScoreRowOf(projectId, event.id, event.timestamp, score)];
        case Observe(kind, body) =>
          var patch := ObservationContent(body, Get(body.observationType, KindType(kind)), event.timestamp);
          if event.id in obsAcc {
            obsAcc := obsAcc[event.id := MergeObservation(obsAcc[event.id], patch)];
          } else {
            obsKeys, obsAcc := obsKeys + [event.id], obsAcc[event.id := patch];
          }
      }
    }
    assert ordered[..|ordered|] == ordered;
    traces := Table(traceKeys, traceAcc);
    observations := Table(obsKeys, obsAcc);
  }

  method MapEvents(h: Host, projectId: string, events: seq<Event>, bases: Bases, now: int) returns (rows: Rows)
    ensures IsMapped(h, projectId, now, events, bases, rows)
  {
    var ordered := Sorted(h, events);
    var traces, observations, scores := Accumulate(projectId, ordered);
    FoldIsWellFormed(FlatMap(TracePatches, ordered), MergeTrace);
    FoldIsWellFormed(FlatMap(ObservationPatches, ordered), MergeObservation);
    hide Fold, FlatMap, Sorted, TraceRowOf, ObservationRowOf;
    var traceRows: seq<TraceRow> := [];
    for i := 0 to |traces.keys|
      invariant |traceRows| == i
      invariant forall j | 0 <= j < i :: traces.keys[j] in traces.at &&
                  traceRows[j] == TraceRowAt(h, projectId, now, bases, traces, traces.keys[j])
    {
      var id := traces.keys[i];
      assert id in traces.at;
      traceRows := traceRows + [TraceRowAt(h, projectId, now, bases, traces, id)];
    }
    var observationRows: seq<ObservationRow> := [];
    for i := 0 to |observations.keys|
      invariant |observationRows| == i
      invariant forall j | 0 <= j < i :: observations.keys[j] in observations.at &&
                  observationRows[j] == ObservationRowAt(h, projectId, now, bases, observations, observations.keys[j])
    {
      var id := observations.keys[i];
      assert id in observations.at;
      observationRows := observationRows + [ObservationRowAt(h, projectId, now, bases, observations, id)];
    }
    rows := Rows(traceRows, observationRows, scores);
  }
}
