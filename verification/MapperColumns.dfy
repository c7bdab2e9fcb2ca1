/**
 What stands in each column of the mapper's rows, said of the events: the field of that name in the last event
 that sets it, else the column of the stored row, else a default.
 */
module MapperColumns {
  import opened Outcome
  import opened MergeTable
  import opened Mappers

  // ----- the last event that sets a field

  predicate IsTraceEvent(e: Event, id: string) {
    e.payload.TraceCreate? && e.id == id
  }

  predicate IsObservationEvent(e: Event, id: string) {
    e.payload.Observe? && e.id == id
  }

  /** A field of a trace, by the last of its events that sets it. */
  function OfTrace<T>(ordered: seq<Event>, id: string, field: TraceBody -> Option<T>): Option<T> {
    if ordered == [] then None
    else
      var n := |ordered| - 1;
      if IsTraceEvent(ordered[n], id) && field(ordered[n].payload.trace).Some? then field(ordered[n].payload.trace)
      else OfTrace(ordered[..n], id, field)
  }

  function OfObservation<T>(ordered: seq<Event>, id: string, field: ObservationBody -> Option<T>): Option<T> {
    if ordered == [] then None
    else
      var n := |ordered| - 1;
      if IsObservationEvent(ordered[n], id) && field(ordered[n].payload.observation).Some? then field(ordered[n].payload.observation)
      else OfObservation(ordered[..n], id, field)
  }

  /** The last event of a trace. */
  function LastOfTrace(ordered: seq<Event>, id: string): Option<Event> {
    if ordered == [] then None
    else if IsTraceEvent(ordered[|ordered| - 1], id) then Some(ordered[|ordered| - 1])
    else LastOfTrace(ordered[..|ordered| - 1], id)
  }

  function LastOfObservation(ordered: seq<Event>, id: string): (e: Option<Event>)
    ensures e.Some? ==> e.value.payload.Observe?
  {
    if ordered == [] then None
    else if IsObservationEvent(ordered[|ordered| - 1], id) then Some(ordered[|ordered| - 1])
    else LastOfObservation(ordered[..|ordered| - 1], id)
  }

  function TraceTimestamp(b: TraceBody): Option<string> { b.timestamp }
  function TraceName(b: TraceBody): Option<string> { b.name }
  function TraceUserId(b: TraceBody): Option<string> { b.userId }
  function TraceSessionId(b: TraceBody): Option<string> { b.sessionId }
  function TraceSessionPath(b: TraceBody): Option<string> { b.sessionPath }
  function TraceRelease(b: TraceBody): Option<string> { b.release }
  function TraceVersion(b: TraceBody): Option<string> { b.version }
  function TraceEnvironment(b: TraceBody): Option<string> { b.environment }
  function TraceIsPublic(b: TraceBody): Option<bool> { b.isPublic }
  function TraceTags(b: TraceBody): Option<seq<string>> { b.tags }
  function TraceMetadata(b: TraceBody): Option<Json> { b.metadata }
  function TraceInput(b: TraceBody): Option<Json> { b.input }
  function TraceOutput(b: TraceBody): Option<Json> { b.output }

  function ObsTraceId(b: ObservationBody): Option<string> { Some(b.traceId) }
  function ObsParent(b: ObservationBody): Option<string> { b.parentObservationId }
  function ObsName(b: ObservationBody): Option<string> { b.name }
  function ObsStartTime(b: ObservationBody): Option<string> { b.startTime }
  function ObsEndTime(b: ObservationBody): Option<string> { b.endTime }
  function ObsEnvironment(b: ObservationBody): Option<string> { b.environment }
  function ObsLevel(b: ObservationBody): Option<string> { b.level }
  function ObsStatusMessage(b: ObservationBody): Option<string> { b.statusMessage }
  function ObsModel(b: ObservationBody): Option<string> { b.model }
  function ObsProvider(b: ObservationBody): Option<string> { b.provider }
  function ObsModelParameters(b: ObservationBody): Option<Json> { b.modelParameters }
  function ObsUsage(b: ObservationBody): Option<Usage> { b.usage }
  function ObsPromptId(b: ObservationBody): Option<string> { b.promptId }
  function ObsPromptVersion(b: ObservationBody): Option<string> { b.promptVersion }
  function ObsInput(b: ObservationBody): Option<Json> { b.input }
  function ObsOutput(b: ObservationBody): Option<Json> { b.output }
  function ObsMetadata(b: ObservationBody): Option<Json> { b.metadata }

  // ----- the tables hold just that

  lemma {:induction false} TraceHolds<T>(ordered: seq<Event>, id: string, field: TraceBody -> Option<T>)
    requires forall acc, patch :: field(AssignTrace(acc, patch)) == if field(patch).Some? then field(patch) else field(acc)
    ensures var t := TraceTable(ordered);
            && (id in t.at <==> LastOfTrace(ordered, id).Some?)
            && (id in t.at ==> field(t.at[id].body) == OfTrace(ordered, id, field)
                               && t.at[id].eventTs == LastOfTrace(ordered, id).value.timestamp)
            && (id !in t.at ==> OfTrace(ordered, id, field) == None)
  {
    if ordered == [] {
      assert FlatMap(TracePatches, ordered) == [];
    } else {
      var n := |ordered| - 1;
      assert ordered == ordered[..n] + [ordered[n]];
      TraceHolds(ordered[..n], id, field);
      NextTable(ordered[..n], ordered[n]);
      hide TraceTable, ObservationTable, AssignTrace;
    }
  }

  lemma {:induction false} ObservationHolds<T>(ordered: seq<Event>, id: string, field: ObservationBody -> Option<T>)
    requires forall acc, patch :: field(AssignObservation(acc, patch)) == if field(patch).Some? then field(patch) else field(acc)
    ensures var t := ObservationTable(ordered);
            && (id in t.at <==> LastOfObservation(ordered, id).Some?)
            && (id in t.at ==> field(t.at[id].body) == OfObservation(ordered, id, field))
            && (id !in t.at ==> OfObservation(ordered, id, field) == None)
  {
    if ordered == [] {
      assert FlatMap(ObservationPatches, ordered) == [];
    } else {
      var n := |ordered| - 1;
      assert ordered == ordered[..n] + [ordered[n]];
      ObservationHolds(ordered[..n], id, field);
      NextTable(ordered[..n], ordered[n]);
      hide TraceTable, ObservationTable, AssignObservation, KindType;
    }
  }

  /** The type that an event gives its observation: its own, or that of its kind. */
  function TypeBy(e: Event): ObservationType
    requires e.payload.Observe?
  {
    if e.payload.observation.observationType.Some? then e.payload.observation.observationType.value
    else if e.payload.kind in {SpanCreate, SpanUpdate} then SPAN
    else if e.payload.kind in {GenerationCreate, GenerationUpdate} then GENERATION
    else EVENT
  }

  lemma {:induction false} ObservationEnds(ordered: seq<Event>, id: string)
    ensures var t := ObservationTable(ordered);
            && (id in t.at <==> LastOfObservation(ordered, id).Some?)
            && (id in t.at ==> t.at[id].obsType == TypeBy(LastOfObservation(ordered, id).value)
                               && t.at[id].eventTs == LastOfObservation(ordered, id).value.timestamp)
  {
    if ordered == [] {
      assert FlatMap(ObservationPatches, ordered) == [];
    } else {
      var n := |ordered| - 1;
      assert ordered == ordered[..n] + [ordered[n]];
      ObservationEnds(ordered[..n], id);
      NextTable(ordered[..n], ordered[n]);
      hide TraceTable, ObservationTable, AssignObservation;
    }
  }

  // ----- conversions

  function AsText(v: Json): string {
    if v.Text? then v.text else v.serialized
  }

  function AsJson(h: Host, v: Json): string {
    if v.Text? then h.quote(v.text) else v.serialized
  }

  /** A date more than a day ahead of the clock is replaced by the clock plus a day. */
  function Clamped(h: Host, time: string, now: int): string {
    if h.parse(time).Some? && h.parse(time).value > now + 86400000 then h.iso(now + 86400000) else time
  }

  function First(own: Option<string>, stored: Option<string>, default: string): string {
    if own.Some? then own.value else if stored.Some? then stored.value else default
  }

  // ----- traces

  /** Every column of a trace row; `base` is its stored row. */
  ghost predicate TraceColumns(h: Host, projectId: string, now: int, ordered: seq<Event>, base: Option<TraceRow>, row: TraceRow) {
    var id, last := row.id, LastOfTrace(ordered, row.id);
    && last.Some? && row.eventTs == last.value.timestamp && row.projectId == projectId
    && row.timestamp == Clamped(h, if base.Some? then base.value.timestamp
                                   else First(OfTrace(ordered, id, TraceTimestamp), None, last.value.timestamp), now)
    && TraceTexts(ordered, base, row) && TraceExtras(h, ordered, base, row)
  }

  /** The trace columns that are plain texts. */
  ghost predicate TraceTexts(ordered: seq<Event>, base: Option<TraceRow>, row: TraceRow) {
    var id := row.id;
    && row.name == First(OfTrace(ordered, id, TraceName), if base.Some? then Some(base.value.name) else None, "")
    && row.userId == First(OfTrace(ordered, id, TraceUserId), if base.Some? then Some(base.value.userId) else None, "")
    && row.sessionId == First(OfTrace(ordered, id, TraceSessionId), if base.Some? then Some(base.value.sessionId) else None, "")
    && row.sessionPath == First(OfTrace(ordered, id, TraceSessionPath), if base.Some? then Some(base.value.sessionPath) else None, "")
    && row.release == First(OfTrace(ordered, id, TraceRelease), if base.Some? then Some(base.value.release) else None, "")
    && row.version == First(OfTrace(ordered, id, TraceVersion), if base.Some? then Some(base.value.version) else None, "")
    && row.environment == First(OfTrace(ordered, id, TraceEnvironment), if base.Some? then Some(base.value.environment) else None, "default")
  }

  /** The trace columns that are not plain texts. */
  ghost predicate TraceExtras(h: Host, ordered: seq<Event>, base: Option<TraceRow>, row: TraceRow) {
    var id := row.id;
    && row.isPublic == (var own := OfTrace(ordered, id, TraceIsPublic);
                        if own == Some(true) then 1 else if own == Some(false) then 0 else if base.Some? then base.value.isPublic else 0)
    && row.tags == (var own := OfTrace(ordered, id, TraceTags);
                    if own.Some? then own.value else if base.Some? then base.value.tags else [])
    && row.metadata == (var own := OfTrace(ordered, id, TraceMetadata);
                        if own.Some? then AsJson(h, own.value) else if base.Some? then base.value.metadata else "{}")
    && row.input == (var own := OfTrace(ordered, id, TraceInput);
                     if own.Some? then AsText(own.value) else if base.Some? then base.value.input else "")
    && row.output == (var own := OfTrace(ordered, id, TraceOutput);
                      if own.Some? then AsText(own.value) else if base.Some? then base.value.output else "")
  }

  lemma {:induction false} TraceBodyHolds(ordered: seq<Event>, id: string)
    requires id in TraceTable(ordered).at
    ensures var b := TraceTable(ordered).at[id].body;
            && b.timestamp == OfTrace(ordered, id, TraceTimestamp) && b.name == OfTrace(ordered, id, TraceName)
            && b.userId == OfTrace(ordered, id, TraceUserId) && b.sessionId == OfTrace(ordered, id, TraceSessionId)
            && b.sessionPath == OfTrace(ordered, id, TraceSessionPath) && b.release == OfTrace(ordered, id, TraceRelease)
            && b.version == OfTrace(ordered, id, TraceVersion) && b.environment == OfTrace(ordered, id, TraceEnvironment)
            && b.isPublic == OfTrace(ordered, id, TraceIsPublic) && b.tags == OfTrace(ordered, id, TraceTags)
            && b.metadata == OfTrace(ordered, id, TraceMetadata) && b.input == OfTrace(ordered, id, TraceInput)
            && b.output == OfTrace(ordered, id, TraceOutput)
  {
    hide TraceTable, OfTrace, LastOfTrace;
    TraceHolds(ordered, id, TraceTimestamp);
    TraceHolds(ordered, id, TraceName);
    TraceHolds(ordered, id, TraceUserId);
    TraceHolds(ordered, id, TraceSessionId);
    TraceHolds(ordered, id, TraceSessionPath);
    TraceHolds(ordered, id, TraceRelease);
    TraceHolds(ordered, id, TraceVersion);
    TraceHolds(ordered, id, TraceEnvironment);
    TraceHolds(ordered, id, TraceIsPublic);
    TraceHolds(ordered, id, TraceTags);
    TraceHolds(ordered, id, TraceMetadata);
    TraceHolds(ordered, id, TraceInput);
    TraceHolds(ordered, id, TraceOutput);
  }

  lemma {:induction false} TraceRowHolds(h: Host, projectId: string, now: int, ordered: seq<Event>, bases: Bases, id: string)
    requires id in TraceTable(ordered).at
    ensures var row := TraceRowAt(h, projectId, now, bases, TraceTable(ordered), id);
            row.id == id && TraceColumns(h, projectId, now, ordered, if id in bases.traces then Some(bases.traces[id]) else None, row)
  {
    TraceBodyHolds(ordered, id);
    TraceHolds(ordered, id, TraceName);
    TraceTextsHold(h, projectId, now, ordered, bases, id);
    TraceExtrasHold(h, projectId, now, ordered, bases, id);
    hide TraceTable, OfTrace, LastOfTrace, TraceTexts, TraceExtras, JsonText, MetaText;
  }

  lemma {:induction false} TraceTextsHold(h: Host, projectId: string, now: int, ordered: seq<Event>, bases: Bases, id: string)
    requires id in TraceTable(ordered).at
    ensures var row := TraceRowAt(h, projectId, now, bases, TraceTable(ordered), id);
            TraceTexts(ordered, if id in bases.traces then Some(bases.traces[id]) else None, row)
  {
    TraceBodyHolds(ordered, id);
    hide TraceTable, OfTrace, StableTime, ClampFuture, JsonText, MetaText;
  }

  lemma {:induction false} TraceExtrasHold(h: Host, projectId: string, now: int, ordered: seq<Event>, bases: Bases, id: string)
    requires id in TraceTable(ordered).at
    ensures var row := TraceRowAt(h, projectId, now, bases, TraceTable(ordered), id);
            TraceExtras(h, ordered, if id in bases.traces then Some(bases.traces[id]) else None, row)
  {
    TraceBodyHolds(ordered, id);
    hide TraceTable, OfTrace, StableTime, ClampFuture;
  }

  // ----- observations

  /** The six counts: each clipped, the total by default the sum of prompt and completion, the reasoning ones within the completion. */
  ghost predicate CountsOf(usage: Option<Usage>, t: Tokens) {
    if usage.None? then t == Tokens(0, 0, 0, 0, 0, 0)
    else
      && t.prompt == ClampTokens(usage.value.promptTokens) && t.completion == ClampTokens(usage.value.completionTokens)
      && t.cacheRead == ClampTokens(usage.value.cacheReadTokens) && t.cacheCreation == ClampTokens(usage.value.cacheCreationTokens)
      && t.total == (if usage.value.totalTokens.Some? then ClampTokens(usage.value.totalTokens)
                     else if t.prompt + t.completion <= 10000000 then t.prompt + t.completion else 10000000)
      && t.reasoning <= t.completion && t.reasoning <= ClampTokens(usage.value.reasoningTokens)
      && (t.reasoning == t.completion || t.reasoning == ClampTokens(usage.value.reasoningTokens))
  }

  /** How long it took, in milliseconds: at least 0, and 0 without an end or where a time cannot be read. */
  function Elapsed(h: Host, start: string, end: Option<string>): int {
    if end.None? || end.value == "" || h.parse(start).None? || h.parse(end.value).None? then 0
    else
      var ms := h.parse(end.value).value - h.parse(start).value;
      if ms >= 0 then ms else 0
  }

  /** The columns that are texts. */
  ghost predicate PlainColumns(projectId: string, ordered: seq<Event>, base: Option<ObservationRow>, row: ObservationRow) {
    var id, last := row.id, LastOfObservation(ordered, row.id);
    && last.Some? && row.eventTs == last.value.timestamp && row.projectId == projectId
    && row.obsType == TypeBy(last.value) && row.traceId == last.value.payload.observation.traceId
    && row.parentObservationId == First(OfObservation(ordered, id, ObsParent), if base.Some? then Some(base.value.parentObservationId) else None, "")
    && row.name == First(OfObservation(ordered, id, ObsName), if base.Some? then Some(base.value.name) else None, "")
    && row.environment == First(OfObservation(ordered, id, ObsEnvironment), if base.Some? then Some(base.value.environment) else None, "default")
    && row.level == First(OfObservation(ordered, id, ObsLevel), if base.Some? then Some(base.value.level) else None, "DEFAULT")
    && row.statusMessage == First(OfObservation(ordered, id, ObsStatusMessage), if base.Some? then Some(base.value.statusMessage) else None, "")
    && row.model == First(OfObservation(ordered, id, ObsModel), if base.Some? then Some(base.value.model) else None, "")
    && row.promptId == First(OfObservation(ordered, id, ObsPromptId), if base.Some? then Some(base.value.promptId) else None, "")
    && row.promptVersion == First(OfObservation(ordered, id, ObsPromptVersion), if base.Some? then Some(base.value.promptVersion) else None, "")
  }

  /** The others: times, payloads, counts, cost and provider. */
  ghost predicate ComputedColumns(h: Host, now: int, ordered: seq<Event>, base: Option<ObservationRow>, row: ObservationRow) {
    var id, last := row.id, LastOfObservation(ordered, row.id);
    && last.Some?
    && row.startTime == Clamped(h, if base.Some? then base.value.startTime
                                   else First(OfObservation(ordered, id, ObsStartTime), None, last.value.timestamp), now)
    && row.endTime == (var own := OfObservation(ordered, id, ObsEndTime);
                       if own.Some? then own else if base.Some? then base.value.endTime else None)
    && row.latencyMs == Elapsed(h, row.startTime, row.endTime)
    && row.modelParameters == (var own := OfObservation(ordered, id, ObsModelParameters);
                               if own.Some? then AsJson(h, own.value) else if base.Some? then base.value.modelParameters else "{}")
    && row.metadata == (var own := OfObservation(ordered, id, ObsMetadata);
                        if own.Some? then AsJson(h, own.value) else if base.Some? then base.value.metadata else "{}")
    && row.input == (var own := OfObservation(ordered, id, ObsInput);
                     if own.Some? then AsText(own.value) else if base.Some? then base.value.input else "")
    && row.output == (var own := OfObservation(ordered, id, ObsOutput);
                      if own.Some? then AsText(own.value) else if base.Some? then base.value.output else "")
    && (var usage := OfObservation(ordered, id, ObsUsage);
        if usage.Some? || base.None? then CountsOf(usage, row.tokens) && row.cost == h.costOf(row.model, row.tokens.prompt, row.tokens.completion)
        else row.tokens == base.value.tokens && row.cost == base.value.cost)
    && row.provider == (var own := OfObservation(ordered, id, ObsProvider);
                        if own.Some? then own.value
                        else if OfObservation(ordered, id, ObsModel).Some? || base.None? then h.providerFor(row.model)
                        else base.value.provider)
  }

  lemma {:induction false} PlainBodyHolds(ordered: seq<Event>, id: string)
    requires id in ObservationTable(ordered).at
    ensures var b := ObservationTable(ordered).at[id].body;
            && Some(b.traceId) == OfObservation(ordered, id, ObsTraceId)
            && b.parentObservationId == OfObservation(ordered, id, ObsParent) && b.name == OfObservation(ordered, id, ObsName)
            && b.environment == OfObservation(ordered, id, ObsEnvironment) && b.level == OfObservation(ordered, id, ObsLevel)
            && b.statusMessage == OfObservation(ordered, id, ObsStatusMessage) && b.model == OfObservation(ordered, id, ObsModel)
            && b.promptId == OfObservation(ordered, id, ObsPromptId) && b.promptVersion == OfObservation(ordered, id, ObsPromptVersion)
  {
    hide ObservationTable, OfObservation, LastOfObservation;
    ObservationHolds(ordered, id, ObsTraceId);
    ObservationHolds(ordered, id, ObsParent);
    ObservationHolds(ordered, id, ObsName);
    ObservationHolds(ordered, id, ObsEnvironment);
    ObservationHolds(ordered, id, ObsLevel);
    ObservationHolds(ordered, id, ObsStatusMessage);
    ObservationHolds(ordered, id, ObsModel);
    ObservationHolds(ordered, id, ObsPromptId);
    ObservationHolds(ordered, id, ObsPromptVersion);
  }

  lemma {:induction false} OtherBodyHolds(ordered: seq<Event>, id: string)
    requires id in ObservationTable(ordered).at
    ensures var b := ObservationTable(ordered).at[id].body;
            && b.startTime == OfObservation(ordered, id, ObsStartTime) && b.endTime == OfObservation(ordered, id, ObsEndTime)
            && b.modelParameters == OfObservation(ordered, id, ObsModelParameters) && b.metadata == OfObservation(ordered, id, ObsMetadata)
            && b.input == OfObservation(ordered, id, ObsInput) && b.output == OfObservation(ordered, id, ObsOutput)
            && b.usage == OfObservation(ordered, id, ObsUsage) && b.provider == OfObservation(ordered, id, ObsProvider)
            && b.model == OfObservation(ordered, id, ObsModel)
  {
    hide ObservationTable, OfObservation, LastOfObservation;
    ObservationHolds(ordered, id, ObsStartTime);
    ObservationHolds(ordered, id, ObsEndTime);
    ObservationHolds(ordered, id, ObsModelParameters);
    ObservationHolds(ordered, id, ObsMetadata);
    ObservationHolds(ordered, id, ObsInput);
    ObservationHolds(ordered, id, ObsOutput);
    ObservationHolds(ordered, id, ObsUsage);
    ObservationHolds(ordered, id, ObsProvider);
    ObservationHolds(ordered, id, ObsModel);
  }

  /** Every event of an observation names its trace, so the last one decides. */
  lemma {:induction false} LastTraceId(ordered: seq<Event>, id: string)
    ensures var last := LastOfObservation(ordered, id);
            OfObservation(ordered, id, ObsTraceId) == if last.Some? then Some(last.value.payload.observation.traceId) else None
  {
    if ordered != [] {
      LastTraceId(ordered[..|ordered| - 1], id);
    }
  }

  lemma {:induction false} CountsHold(usage: Option<Usage>)
    ensures CountsOf(usage, TokensOf(usage))
  {
    if usage.Some? && usage.value.totalTokens.None? {
      var t := TokensOf(usage);
      var sum := t.prompt + t.completion;
      assert t.total == ClampTokens(Some(Finite(sum as real)));
    }
  }

  lemma {:induction false} PlainRowHolds(h: Host, projectId: string, now: int, ordered: seq<Event>, bases: Bases, id: string)
    requires id in ObservationTable(ordered).at
    ensures var row := ObservationRowAt(h, projectId, now, bases, ObservationTable(ordered), id);
            row.id == id && PlainColumns(projectId, ordered, if id in bases.observations then Some(bases.observations[id]) else None, row)
  {
    PlainBodyHolds(ordered, id);
    ObservationEnds(ordered, id);
    LastTraceId(ordered, id);
    hide ObservationTable, OfObservation, LastOfObservation, TokensOf, Latency, StableTime, MetaText, JsonText, TypeBy;
  }

  lemma {:induction false} ComputedRowHolds(h: Host, projectId: string, now: int, ordered: seq<Event>, bases: Bases, id: string)
    requires id in ObservationTable(ordered).at
    ensures var row := ObservationRowAt(h, projectId, now, bases, ObservationTable(ordered), id);
            ComputedColumns(h, now, ordered, if id in bases.observations then Some(bases.observations[id]) else None, row)
  {
    OtherBodyHolds(ordered, id);
    ObservationEnds(ordered, id);
    CountsHold(OfObservation(ordered, id, ObsUsage));
    hide ObservationTable, OfObservation, LastOfObservation, TokensOf, CountsOf, TypeBy;
  }

  // ----- scores

  /** Every column of a score row. */
  predicate ScoreColumns(projectId: string, e: Event, row: ScoreRow) {
    && e.payload.ScoreCreate?
    && var b := e.payload.score;
    && row.id == e.id && row.projectId == projectId && row.traceId == b.traceId && row.name == b.name && row.value == b.value
    && row.eventTs == e.timestamp
    && row.observationId == First(b.observationId, None, "") && row.timestamp == First(b.timestamp, None, e.timestamp)
    && row.environment == First(b.environment, None, "default") && row.source == First(b.source, None, "API")
    && row.dataType == First(b.dataType, None, "NUMERIC") && row.stringValue == First(b.stringValue, None, "")
    && row.comment == First(b.comment, None, "") && row.configId == First(b.configId, None, "")
  }

  /** The score events, in order. */
  function ScoreEvents(ordered: seq<Event>): seq<Event> {
    if ordered == [] then [] else (if ordered[0].payload.ScoreCreate? then [ordered[0]] else []) + ScoreEvents(ordered[1..])
  }

  lemma {:induction false} ScoresHold(projectId: string, ordered: seq<Event>)
    ensures var rows := FlatMap(ScoreRows(projectId), ordered);
            && |rows| == |ScoreEvents(ordered)|
            && forall i | 0 <= i < |rows| :: ScoreColumns(projectId, ScoreEvents(ordered)[i], rows[i])
  {
    if ordered != [] {
      ScoresHold(projectId, ordered[1..]);
    }
  }

  // ----- which rows there are

  /** The different ids in the order in which they first come. */
  function InFirstOrder(ids: seq<string>): seq<string> {
    if ids == [] then []
    else
      var before, id := InFirstOrder(ids[..|ids| - 1]), ids[|ids| - 1];
      if id in before then before else before + [id]
  }

  function TraceIds(ordered: seq<Event>): seq<string> {
    if ordered == [] then []
    else TraceIds(ordered[..|ordered| - 1]) + (if ordered[|ordered| - 1].payload.TraceCreate? then [ordered[|ordered| - 1].id] else [])
  }

  function ObservationIds(ordered: seq<Event>): seq<string> {
    if ordered == [] then []
    else ObservationIds(ordered[..|ordered| - 1]) + (if ordered[|ordered| - 1].payload.Observe? then [ordered[|ordered| - 1].id] else [])
  }

  lemma {:induction false} NextInFirstOrder(ids: seq<string>, id: string)
    ensures InFirstOrder(ids + [id]) == if id in InFirstOrder(ids) then InFirstOrder(ids) else InFirstOrder(ids) + [id]
  {
    assert (ids + [id])[..|ids|] == ids;
  }

  lemma {:induction false} KeysInFirstOrder(ordered: seq<Event>)
    ensures TraceTable(ordered).keys == InFirstOrder(TraceIds(ordered))
    ensures ObservationTable(ordered).keys == InFirstOrder(ObservationIds(ordered))
  {
    if ordered == [] {
      assert FlatMap(TracePatches, ordered) == [] && FlatMap(ObservationPatches, ordered) == [];
    } else {
      var n := |ordered| - 1;
      assert ordered == ordered[..n] + [ordered[n]];
      KeysInFirstOrder(ordered[..n]);
      NextTable(ordered[..n], ordered[n]);
      TablesWellFormed(ordered[..n]);
      NextInFirstOrder(TraceIds(ordered[..n]), ordered[n].id);
      NextInFirstOrder(ObservationIds(ordered[..n]), ordered[n].id);
      assert TraceIds(ordered[..n]) + [] == TraceIds(ordered[..n]) && ObservationIds(ordered[..n]) + [] == ObservationIds(ordered[..n]);
      hide TraceTable, ObservationTable, InFirstOrder, MergeTrace, MergeObservation, KindType;
    }
  }

  lemma {:induction false} TablesWellFormed(ordered: seq<Event>)
    ensures forall id :: id in TraceTable(ordered).at <==> id in TraceTable(ordered).keys
    ensures forall id :: id in ObservationTable(ordered).at <==> id in ObservationTable(ordered).keys
  {
    FoldIsWellFormed(FlatMap(TracePatches, ordered), MergeTrace);
    FoldIsWellFormed(FlatMap(ObservationPatches, ordered), MergeObservation);
  }

  // ----- the mapper

  /** A batch gives one row for each trace and observation in it, in the order in which they first come, and one for each score. */
  lemma {:induction false} RowsAre(h: Host, projectId: string, now: int, events: seq<Event>, bases: Bases, rows: Rows)
    requires IsMapped(h, projectId, now, events, bases, rows)
    ensures var ordered := Sorted(h, events);
            && |rows.traces| == |InFirstOrder(TraceIds(ordered))| && |rows.observations| == |InFirstOrder(ObservationIds(ordered))|
            && (forall i | 0 <= i < |rows.traces| :: rows.traces[i].id == InFirstOrder(TraceIds(ordered))[i])
            && (forall i | 0 <= i < |rows.observations| :: rows.observations[i].id == InFirstOrder(ObservationIds(ordered))[i])
            && |rows.scores| == |ScoreEvents(ordered)|
  {
    var ordered := Sorted(h, events);
    KeysInFirstOrder(ordered);
    ScoresHold(projectId, ordered);
    hide Sorted, InFirstOrder, TraceTable, ObservationTable, FlatMap, ScoreEvents, TraceIds, ObservationIds, ScoreColumns;
    hide StableTime, MetaText, JsonText, TokensOf, Latency, Clamped;
  }

  /** Every column of every row, from the last event that sets it, the stored row or the default. */
  lemma {:induction false} ColumnsAre(h: Host, projectId: string, now: int, events: seq<Event>, bases: Bases, rows: Rows, i: nat)
    requires IsMapped(h, projectId, now, events, bases, rows)
    ensures var ordered := Sorted(h, events);
            && (i < |rows.traces| ==>
                  var row := rows.traces[i];
                  TraceColumns(h, projectId, now, ordered, if row.id in bases.traces then Some(bases.traces[row.id]) else None, row))
            && (i < |rows.observations| ==>
                  var row := rows.observations[i];
                  var base := if row.id in bases.observations then Some(bases.observations[row.id]) else None;
                  PlainColumns(projectId, ordered, base, row) && ComputedColumns(h, now, ordered, base, row))
            && (i < |rows.scores| ==> |rows.scores| == |ScoreEvents(ordered)| && ScoreColumns(projectId, ScoreEvents(ordered)[i], rows.scores[i]))
  {
    var ordered := Sorted(h, events);
    ScoresHold(projectId, ordered);
    hide Sorted, TraceColumns, PlainColumns, ComputedColumns, ScoreColumns, ScoreEvents, TraceTable, ObservationTable, FlatMap, TraceRowAt, ObservationRowAt;
    if i < |rows.traces| {
      TraceRowHolds(h, projectId, now, ordered, bases, TraceTable(ordered).keys[i]);
    }
    if i < |rows.observations| {
      PlainRowHolds(h, projectId, now, ordered, bases, ObservationTable(ordered).keys[i]);
      ComputedRowHolds(h, projectId, now, ordered, bases, ObservationTable(ordered).keys[i]);
    }
  }
}
