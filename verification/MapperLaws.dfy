/** What mapping promises about batches: cutting them, shuffling them, replaying them, and runs of them. */
module MapperLaws {
  import opened Outcome
  import opened MergeTable
  import opened Mappers
  import opened EventOrder

  // ----- the store after a batch

  function TraceRowsMap(h: Host, projectId: string, now: int, bases: Bases, t: Table<TraceContent>): map<string, TraceRow> {
    map id | id in t.at :: TraceRowAt(h, projectId, now, bases, t, id)
  }

  function ObservationRowsMap(h: Host, projectId: string, now: int, bases: Bases, t: Table<ObservationContent>): map<string, ObservationRow> {
    map id | id in t.at :: ObservationRowAt(h, projectId, now, bases, t, id)
  }

  /** The stored rows once the rows of a batch are written over them. */
  function After(h: Host, projectId: string, now: int, events: seq<Event>, bases: Bases): Bases {
    var ordered := Sorted(h, events);
    Bases(bases.traces + TraceRowsMap(h, projectId, now, bases, TraceTable(ordered)),
          bases.observations + ObservationRowsMap(h, projectId, now, bases, ObservationTable(ordered)))
  }

  lemma {:induction false} TraceAfter(h: Host, projectId: string, now: int, events: seq<Event>, bases: Bases, id: string)
    ensures var t, after := TraceTable(Sorted(h, events)), After(h, projectId, now, events, bases).traces;
            && (id in after <==> id in bases.traces || id in t.at)
            && (id in t.at ==> after[id] == TraceRowOf(h, projectId, now, Find(bases.traces, id), id, t.at[id]))
            && (id !in t.at && id in bases.traces ==> after[id] == bases.traces[id])
  {
    hide TraceTable, ObservationTable, Sorted, TraceRowOf, ObservationRowOf;
  }

  lemma {:induction false} ObservationAfter(h: Host, projectId: string, now: int, events: seq<Event>, bases: Bases, id: string)
    ensures var t, after := ObservationTable(Sorted(h, events)), After(h, projectId, now, events, bases).observations;
            && (id in after <==> id in bases.observations || id in t.at)
            && (id in t.at ==> after[id] == ObservationRowOf(h, projectId, now, Find(bases.observations, id), id, t.at[id]))
            && (id !in t.at && id in bases.observations ==> after[id] == bases.observations[id])
  {
    hide TraceTable, ObservationTable, Sorted, TraceRowOf, ObservationRowOf;
  }

  /** The rows the mapper returns are the ones by which the store changes. */
  lemma {:induction false} TraceRowsAreWritten(h: Host, projectId: string, now: int, events: seq<Event>, bases: Bases,
                                               rows: Rows, id: string)
    requires IsMapped(h, projectId, now, events, bases, rows)
    ensures var after := After(h, projectId, now, events, bases).traces;
            if exists i :: 0 <= i < |rows.traces| && rows.traces[i].id == id
            then exists i :: 0 <= i < |rows.traces| && rows.traces[i].id == id && Find(after, id) == Some(rows.traces[i])
            else Find(after, id) == Find(bases.traces, id)
  {
    TraceAfter(h, projectId, now, events, bases, id);
    var t := TraceTable(Sorted(h, events));
    assert id in t.at <==> id in t.keys;
    hide After, TraceTable, ObservationTable, Sorted, StableTime, Converted, ConvertedMeta, FlatMap, ObservationRowAt, WellFormed;
    if id in t.keys {
      var i :| 0 <= i < |t.keys| && t.keys[i] == id;
      assert rows.traces[i] == TraceRowAt(h, projectId, now, bases, t, id);
    }
  }

  lemma {:induction false} ObservationRowsAreWritten(h: Host, projectId: string, now: int, events: seq<Event>, bases: Bases,
                                                     rows: Rows, id: string)
    requires IsMapped(h, projectId, now, events, bases, rows)
    ensures var after := After(h, projectId, now, events, bases).observations;
            if exists i :: 0 <= i < |rows.observations| && rows.observations[i].id == id
            then exists i :: 0 <= i < |rows.observations| && rows.observations[i].id == id
                             && Find(after, id) == Some(rows.observations[i])
            else Find(after, id) == Find(bases.observations, id)
  {
    ObservationAfter(h, projectId, now, events, bases, id);
    var t := ObservationTable(Sorted(h, events));
    assert id in t.at <==> id in t.keys;
    hide After, TraceTable, ObservationTable, Sorted, StableTime, Converted, ConvertedMeta, FlatMap, TraceRowAt, WellFormed,
      TokensOf, Latency;
    if id in t.keys {
      var i :| 0 <= i < |t.keys| && t.keys[i] == id;
      assert rows.observations[i] == ObservationRowAt(h, projectId, now, bases, t, id);
    }
  }

  // ----- cutting a batch in two

  lemma {:induction false} OrIsAssociative<T>(a: Option<T>, b: Option<T>, c: Option<T>)
    ensures Or(c, Or(b, a)) == Or(Or(c, b), a)
  {
  }

  lemma {:induction false} AssignTraceIsAssociative(a: TraceBody, b: TraceBody, c: TraceBody)
    ensures AssignTrace(AssignTrace(a, b), c) == AssignTrace(a, AssignTrace(b, c))
  {
    hide Or;
    OrIsAssociative(a.timestamp, b.timestamp, c.timestamp);
    OrIsAssociative(a.name, b.name, c.name);
    OrIsAssociative(a.userId, b.userId, c.userId);
    OrIsAssociative(a.sessionId, b.sessionId, c.sessionId);
    OrIsAssociative(a.sessionPath, b.sessionPath, c.sessionPath);
    OrIsAssociative(a.release, b.release, c.release);
    OrIsAssociative(a.version, b.version, c.version);
    OrIsAssociative(a.environment, b.environment, c.environment);
    OrIsAssociative(a.isPublic, b.isPublic, c.isPublic);
    OrIsAssociative(a.tags, b.tags, c.tags);
    OrIsAssociative(a.metadata, b.metadata, c.metadata);
    OrIsAssociative(a.input, b.input, c.input);
    OrIsAssociative(a.output, b.output, c.output);
  }

  lemma {:induction false} AssignObservationIsAssociative(a: ObservationBody, b: ObservationBody, c: ObservationBody)
    ensures AssignObservation(AssignObservation(a, b), c) == AssignObservation(a, AssignObservation(b, c))
  {
    hide Or;
    OrIsAssociative(a.observationType, b.observationType, c.observationType);
    OrIsAssociative(a.parentObservationId, b.parentObservationId, c.parentObservationId);
    OrIsAssociative(a.name, b.name, c.name);
    OrIsAssociative(a.startTime, b.startTime, c.startTime);
    OrIsAssociative(a.endTime, b.endTime, c.endTime);
    OrIsAssociative(a.environment, b.environment, c.environment);
    OrIsAssociative(a.level, b.level, c.level);
    OrIsAssociative(a.statusMessage, b.statusMessage, c.statusMessage);
    OrIsAssociative(a.model, b.model, c.model);
    OrIsAssociative(a.provider, b.provider, c.provider);
    OrIsAssociative(a.modelParameters, b.modelParameters, c.modelParameters);
    OrIsAssociative(a.usage, b.usage, c.usage);
    OrIsAssociative(a.promptId, b.promptId, c.promptId);
    OrIsAssociative(a.promptVersion, b.promptVersion, c.promptVersion);
    OrIsAssociative(a.input, b.input, c.input);
    OrIsAssociative(a.output, b.output, c.output);
    OrIsAssociative(a.metadata, b.metadata, c.metadata);
  }

  lemma {:induction false} MergeTraceIsAssociative()
    ensures Associative(MergeTrace)
  {
    hide AssignTrace;
    forall x, y, z ensures MergeTrace(MergeTrace(x, y), z) == MergeTrace(x, MergeTrace(y, z)) {
      AssignTraceIsAssociative(x.body, y.body, z.body);
    }
  }

  lemma {:induction false} MergeObservationIsAssociative()
    ensures Associative(MergeObservation)
  {
    hide AssignObservation;
    forall x, y, z
      ensures MergeObservation(MergeObservation(x, y), z) == MergeObservation(x, MergeObservation(y, z))
    {
      AssignObservationIsAssociative(x.body, y.body, z.body);
    }
  }

  lemma {:induction false} TablesOfCut(h: Host, a: seq<Event>, b: seq<Event>)
    requires NotEarlier(h, a, b)
    ensures IsJoin(TraceTable(Sorted(h, a + b)), TraceTable(Sorted(h, a)), TraceTable(Sorted(h, b)), MergeTrace)
    ensures IsJoin(ObservationTable(Sorted(h, a + b)), ObservationTable(Sorted(h, a)), ObservationTable(Sorted(h, b)),
                   MergeObservation)
  {
    SortedConcat(h, a, b);
    var x, y := Sorted(h, a), Sorted(h, b);
    FlatMapConcat(TracePatches, x, y);
    FlatMapConcat(ObservationPatches, x, y);
    MergeTraceIsAssociative();
    MergeObservationIsAssociative();
    hide IsJoin, Associative, Fold, FlatMap;
    FoldConcat(FlatMap(TracePatches, x), FlatMap(TracePatches, y), MergeTrace);
    FoldConcat(FlatMap(ObservationPatches, x), FlatMap(ObservationPatches, y), MergeObservation);
  }

  /** The same row but for the time column. */
  ghost predicate SameButTime(r: TraceRow, s: TraceRow) {
    r.(timestamp := s.timestamp) == s
  }

  lemma {:induction false} TraceRowSplits(h: Host, projectId: string, now: int, now1: int, now2: int,
                                          base: Option<TraceRow>, id: string, a: TraceContent, b: TraceContent)
    ensures SameButTime(TraceRowOf(h, projectId, now, base, id, MergeTrace(a, b)),
                        TraceRowOf(h, projectId, now2, Some(TraceRowOf(h, projectId, now1, base, id, a)), id, b))
  {
    hide StableTime, MetaText, JsonText;
  }

  lemma {:induction false} TraceRowOnAnotherDay(h: Host, projectId: string, now: int, now': int,
                                                base: Option<TraceRow>, id: string, c: TraceContent)
    ensures SameButTime(TraceRowOf(h, projectId, now, base, id, c), TraceRowOf(h, projectId, now', base, id, c))
  {
    hide StableTime;
  }

  lemma {:induction false} CutTrace(h: Host, projectId: string, now: int, now1: int, now2: int,
                                    a: seq<Event>, b: seq<Event>, bases: Bases, id: string)
    requires NotEarlier(h, a, b)
    ensures var whole := After(h, projectId, now, a + b, bases).traces;
            var cut := After(h, projectId, now2, b, After(h, projectId, now1, a, bases)).traces;
            && (id in whole <==> id in cut)
            && (id in whole && id in cut ==> SameButTime(whole[id], cut[id]))
  {
    TablesOfCut(h, a, b);
    var first := After(h, projectId, now1, a, bases);
    var ta, tb, t := TraceTable(Sorted(h, a)), TraceTable(Sorted(h, b)), TraceTable(Sorted(h, a + b));
    assert id in t.at <==> id in ta.at || id in tb.at;
    assert id in t.at ==> t.at[id] == Joined(ta, tb, id, MergeTrace);
    TraceAfter(h, projectId, now, a + b, bases, id);
    TraceAfter(h, projectId, now1, a, bases, id);
    TraceAfter(h, projectId, now2, b, first, id);
    hide IsJoin, After, TraceTable, ObservationTable, Sorted, MergeTrace, TraceRowOf;
    var base := Find(bases.traces, id);
    if id in ta.at && id in tb.at {
      TraceRowSplits(h, projectId, now, now1, now2, base, id, ta.at[id], tb.at[id]);
    } else if id in t.at {
      TraceRowOnAnotherDay(h, projectId, now, if id in ta.at then now1 else now2, base, id, t.at[id]);
    }
  }

  /**
   * Mapping a batch, and mapping its first part and then the rest over the rows
   * of the first, store the same traces but for `timestamp`.
   */
  lemma {:induction false} CutTraces(h: Host, projectId: string, now: int, now1: int, now2: int,
                                     a: seq<Event>, b: seq<Event>, bases: Bases)
    requires NotEarlier(h, a, b)
    ensures var whole := After(h, projectId, now, a + b, bases).traces;
            var cut := After(h, projectId, now2, b, After(h, projectId, now1, a, bases)).traces;
            && whole.Keys == cut.Keys
            && forall id | id in whole :: SameButTime(whole[id], cut[id])
  {
    var whole := After(h, projectId, now, a + b, bases).traces;
    var cut := After(h, projectId, now2, b, After(h, projectId, now1, a, bases)).traces;
    hide After, SameButTime, NotEarlier;
    forall id ensures (id in whole <==> id in cut) && (id in whole && id in cut ==> SameButTime(whole[id], cut[id])) {
      CutTrace(h, projectId, now, now1, now2, a, b, bases, id);
    }
  }

  // ----- the same for observations

  /** The columns left when the time columns and those derived from the model are blanked out. */
  function Plain(r: ObservationRow): ObservationRow {
    r.(startTime := "", latencyMs := 0, provider := "", cost := NO_COST)
  }

  /** Does the second part change the price of tokens counted in the first? */
  ghost predicate SamePrice(h: Host, base: Option<ObservationRow>, a: ObservationBody, b: ObservationBody) {
    var modelA := Get(a.model, Get(base, NO_OBSERVATION).model);
    var tokens := TokensOf(a.usage);
    b.usage.Some? || (a.usage.None? && base.Some?)
    || h.costOf(Get(b.model, modelA), tokens.prompt, tokens.completion) == h.costOf(modelA, tokens.prompt, tokens.completion)
  }

  /** Does a provider named in the first part survive the second? It does not when only a new model comes. */
  ghost predicate SameProvider(h: Host, a: ObservationBody, b: ObservationBody) {
    a.provider.Some? && b.provider.None? && b.model.Some? ==> a.provider.value == h.providerFor(b.model.value)
  }

  lemma {:induction false} ObservationRowSplits(h: Host, projectId: string, now: int, now1: int, now2: int,
      base: Option<ObservationRow>, id: string, a: ObservationContent, b: ObservationContent)
    ensures var whole := ObservationRowOf(h, projectId, now, base, id, MergeObservation(a, b));
            var cut := ObservationRowOf(h, projectId, now2, Some(ObservationRowOf(h, projectId, now1, base, id, a)), id, b);
            && Plain(whole) == Plain(cut)
            && (whole.cost == cut.cost <==> SamePrice(h, base, a.body, b.body))
            && (whole.provider == cut.provider <==> SameProvider(h, a.body, b.body))
  {
    hide StableTime, MetaText, JsonText, TokensOf, Latency;
  }

  /** How a cut may change the row of one observation. */
  ghost predicate CutAgrees(h: Host, base: Option<ObservationRow>, a: Option<ObservationContent>, b: Option<ObservationContent>,
                            whole: ObservationRow, cut: ObservationRow) {
    && Plain(whole) == Plain(cut)
    && (whole.cost == cut.cost <==> (a.Some? && b.Some? ==> SamePrice(h, base, a.value.body, b.value.body)))
    && (whole.provider == cut.provider <==> (a.Some? && b.Some? ==> SameProvider(h, a.value.body, b.value.body)))
  }

  lemma {:induction false} ObservationRowOnAnotherDay(h: Host, projectId: string, now: int, now': int,
                                                      base: Option<ObservationRow>, id: string, c: ObservationContent)
    ensures var r, s := ObservationRowOf(h, projectId, now, base, id, c), ObservationRowOf(h, projectId, now', base, id, c);
            Plain(r) == Plain(s) && r.cost == s.cost && r.provider == s.provider
  {
    hide StableTime, TokensOf, Latency;
  }

  /** The row stored for an observation after a batch that accumulated `c` for it, if anything. */
  function Rewritten(h: Host, projectId: string, now: int, base: Option<ObservationRow>, id: string,
                     c: Option<ObservationContent>): Option<ObservationRow> {
    if c.Some? then Some(ObservationRowOf(h, projectId, now, base, id, c.value)) else base
  }

  function Both(a: Option<ObservationContent>, b: Option<ObservationContent>): Option<ObservationContent> {
    if a.Some? && b.Some? then Some(MergeObservation(a.value, b.value)) else Or(b, a)
  }

  lemma {:induction false} CutRow(h: Host, projectId: string, now: int, now1: int, now2: int, base: Option<ObservationRow>,
                                  id: string, a: Option<ObservationContent>, b: Option<ObservationContent>)
    ensures var whole := Rewritten(h, projectId, now, base, id, Both(a, b));
            var cut := Rewritten(h, projectId, now2, Rewritten(h, projectId, now1, base, id, a), id, b);
            && whole.Some? == cut.Some?
            && (whole.Some? ==> CutAgrees(h, base, a, b, whole.value, cut.value))
  {
    if a.Some? && b.Some? {
      ObservationRowSplits(h, projectId, now, now1, now2, base, id, a.value, b.value);
    } else if a.Some? || b.Some? {
      ObservationRowOnAnotherDay(h, projectId, now, if a.Some? then now1 else now2, base, id, Or(b, a).value);
    }
    hide ObservationRowOf, Plain, SamePrice, SameProvider, MergeObservation;
  }

  lemma {:induction false} RewrittenAfter(h: Host, projectId: string, now: int, events: seq<Event>, bases: Bases, id: string)
    ensures Find(After(h, projectId, now, events, bases).observations, id) ==
            Rewritten(h, projectId, now, Find(bases.observations, id), id, Find(ObservationTable(Sorted(h, events)).at, id))
  {
    ObservationAfter(h, projectId, now, events, bases, id);
    hide After, ObservationTable, Sorted, ObservationRowOf;
  }

  lemma {:induction false} BothAreJoined(h: Host, a: seq<Event>, b: seq<Event>, id: string)
    requires NotEarlier(h, a, b)
    ensures Find(ObservationTable(Sorted(h, a + b)).at, id) ==
            Both(Find(ObservationTable(Sorted(h, a)).at, id), Find(ObservationTable(Sorted(h, b)).at, id))
  {
    TablesOfCut(h, a, b);
    var ta, tb, t := ObservationTable(Sorted(h, a)), ObservationTable(Sorted(h, b)), ObservationTable(Sorted(h, a + b));
    assert id in t.at <==> id in ta.at || id in tb.at;
    assert id in t.at ==> t.at[id] == Joined(ta, tb, id, MergeObservation);
    hide ObservationTable, TraceTable, IsJoin, Sorted, MergeObservation;
  }

  /**
   * A cut leaves every plain observation column as it is, tokens, type and
   * event time included; `cost` and `provider` under exactly the stated
   * conditions on an observation that both parts touch.
   */
  lemma {:induction false} CutObservations(h: Host, projectId: string, now: int, now1: int, now2: int,
                                           a: seq<Event>, b: seq<Event>, bases: Bases)
    requires NotEarlier(h, a, b)
    ensures var whole := After(h, projectId, now, a + b, bases).observations;
            var cut := After(h, projectId, now2, b, After(h, projectId, now1, a, bases)).observations;
            var ta, tb := ObservationTable(Sorted(h, a)), ObservationTable(Sorted(h, b));
            && whole.Keys == cut.Keys
            && forall id | id in whole ::
                 CutAgrees(h, Find(bases.observations, id), Find(ta.at, id), Find(tb.at, id), whole[id], cut[id])
  {
    var whole := After(h, projectId, now, a + b, bases).observations;
    var cut := After(h, projectId, now2, b, After(h, projectId, now1, a, bases)).observations;
    var ta, tb := ObservationTable(Sorted(h, a)), ObservationTable(Sorted(h, b));
    hide After, CutAgrees, NotEarlier, ObservationTable, Sorted, Rewritten, Both;
    var first := After(h, projectId, now1, a, bases);
    forall id
      ensures (id in whole <==> id in cut)
      ensures id in whole && id in cut ==>
              CutAgrees(h, Find(bases.observations, id), Find(ta.at, id), Find(tb.at, id), whole[id], cut[id])
    {
      BothAreJoined(h, a, b, id);
      RewrittenAfter(h, projectId, now, a + b, bases, id);
      RewrittenAfter(h, projectId, now1, a, bases, id);
      RewrittenAfter(h, projectId, now2, b, first, id);
      CutRow(h, projectId, now, now1, now2, Find(bases.observations, id), id, Find(ta.at, id), Find(tb.at, id));
    }
  }

  // ----- what the last event decides

  /** The last event of an observation decides its type, by its own override or else its kind; earlier overrides do not persist. */
  lemma {:induction false} LastEventDecides(before: seq<Event>, e: Event, after: seq<Event>)
    requires e.payload.Observe?
    requires forall i | 0 <= i < |after| && after[i].payload.Observe? :: after[i].id != e.id
    ensures var t := ObservationTable(before + [e] + after);
            && e.id in t.at && t.at[e.id].eventTs == e.timestamp
            && t.at[e.id].obsType == Get(e.payload.observation.observationType, KindType(e.payload.kind))
    decreases |after|
  {
    if after == [] {
      assert before + [e] + after == before + [e];
      NextTables(before, e);
      hide ObservationTable, TraceTable;
    } else {
      var n := |after| - 1;
      LastEventDecides(before, e, after[..n]);
      assert before + [e] + after == (before + [e] + after[..n]) + [after[n]];
      NextTables(before + [e] + after[..n], after[n]);
      hide ObservationTable, TraceTable, MergeObservation, KindType;
    }
  }

  // ----- shuffling a batch

  /** With distinct event times every order of arrival gives the same rows. */
  lemma {:induction false} ArrivalDoesNotMatter(h: Host, projectId: string, now: int, events: seq<Event>, shuffled: seq<Event>,
                                                bases: Bases, rows: Rows, rows': Rows)
    requires DistinctTimes(h, events) && multiset(events) == multiset(shuffled)
    requires IsMapped(h, projectId, now, events, bases, rows) && IsMapped(h, projectId, now, shuffled, bases, rows')
    ensures rows == rows'
  {
    SortedIgnoresArrival(h, events, shuffled);
    hide Sorted, TraceTable, ObservationTable, TraceRowOf, ObservationRowOf, FlatMap;
    assert rows.traces == rows'.traces;
    assert rows.observations == rows'.observations;
  }

  // ----- replaying a batch

  /** `Date.parse` reads back what `toISOString` writes. */
  ghost predicate ReadsBack(h: Host) {
    forall t :: h.parse(h.iso(t)) == Some(t)
  }

  /** A time the clamp would leave alone at this clock. */
  predicate NotAhead(h: Host, iso: string, now: int) {
    h.parse(iso).None? || h.parse(iso).value <= now + FUTURE_SKEW_MS
  }

  lemma {:induction false} ClampHolds(h: Host, iso: string, now: int)
    requires ReadsBack(h)
    ensures NotAhead(h, ClampFuture(h, iso, now), now)
    ensures NotAhead(h, iso, now) <==> ClampFuture(h, iso, now) == iso
  {
  }

  lemma {:induction false} TraceRowReplays(h: Host, projectId: string, now: int, later: int,
                                           base: Option<TraceRow>, id: string, c: TraceContent)
    requires ReadsBack(h) && now <= later
    ensures var row := TraceRowOf(h, projectId, now, base, id, c);
            TraceRowOf(h, projectId, later, Some(row), id, c) == row
  {
    var row := TraceRowOf(h, projectId, now, base, id, c);
    ClampHolds(h, Get(Or(if base.Some? then Some(base.value.timestamp) else None, c.body.timestamp), c.eventTs), now);
    ClampHolds(h, row.timestamp, later);
    hide ClampFuture, MetaText, JsonText, ReadsBack;
  }

  lemma {:induction false} ObservationRowReplays(h: Host, projectId: string, now: int, later: int,
                                                 base: Option<ObservationRow>, id: string, c: ObservationContent)
    requires ReadsBack(h) && now <= later
    ensures var row := ObservationRowOf(h, projectId, now, base, id, c);
            ObservationRowOf(h, projectId, later, Some(row), id, c) == row
  {
    var row := ObservationRowOf(h, projectId, now, base, id, c);
    ClampHolds(h, Get(Or(if base.Some? then Some(base.value.startTime) else None, c.body.startTime), c.eventTs), now);
    ClampHolds(h, row.startTime, later);
    hide ClampFuture, MetaText, JsonText, ReadsBack, TokensOf, Latency;
  }

  /** Mapping a batch again, over its own rows and not before its clock, changes no column of any row. */
  lemma {:induction false} ReplayChangesNothing(h: Host, projectId: string, now: int, later: int, events: seq<Event>, bases: Bases)
    requires ReadsBack(h) && now <= later
    ensures var once := After(h, projectId, now, events, bases);
            After(h, projectId, later, events, once) == once
  {
    var once := After(h, projectId, now, events, bases);
    var twice := After(h, projectId, later, events, once);
    var t, o := TraceTable(Sorted(h, events)), ObservationTable(Sorted(h, events));
    hide TraceTable, ObservationTable, Sorted, TraceRowOf, ObservationRowOf, ReadsBack;
    forall id | id in once.traces ensures twice.traces[id] == once.traces[id] {
      if id in t.at {
        TraceRowReplays(h, projectId, now, later, Find(bases.traces, id), id, t.at[id]);
      }
    }
    forall id | id in once.observations ensures twice.observations[id] == once.observations[id] {
      if id in o.at {
        ObservationRowReplays(h, projectId, now, later, Find(bases.observations, id), id, o.at[id]);
      }
    }
    assert twice.traces == once.traces;
    assert twice.observations == once.observations;
  }

  // ----- runs of batches

  datatype Batch = Batch(now: int, events: seq<Event>)

  ghost predicate ClockNeverGoesBack(batches: seq<Batch>) {
    forall i, j | 0 <= i < j < |batches| :: batches[i].now <= batches[j].now
  }

  /** The store after the batches, each mapped over the rows stored before it. */
  function Run(h: Host, projectId: string, batches: seq<Batch>): Bases {
    if batches == [] then Bases(map[], map[])
    else
      var n := |batches| - 1;
      After(h, projectId, batches[n].now, batches[n].events, Run(h, projectId, batches[..n]))
  }

  /** No stored time column is more than a day ahead of the clock. */
  ghost predicate NoneAhead(h: Host, b: Bases, now: int) {
    && (forall id | id in b.traces :: NotAhead(h, b.traces[id].timestamp, now))
    && (forall id | id in b.observations :: NotAhead(h, b.observations[id].startTime, now))
  }

  ghost predicate SameTimes(b: Bases, b': Bases) {
    && (forall id | id in b.traces :: id in b'.traces && b'.traces[id].timestamp == b.traces[id].timestamp)
    && (forall id | id in b.observations :: id in b'.observations && b'.observations[id].startTime == b.observations[id].startTime)
  }

  lemma {:induction false} TraceKeepsTime(h: Host, projectId: string, now: int, events: seq<Event>, bases: Bases, id: string)
    requires ReadsBack(h) && NoneAhead(h, bases, now)
    ensures var after := After(h, projectId, now, events, bases).traces;
            && (id in after ==> NotAhead(h, after[id].timestamp, now))
            && (id in bases.traces ==> id in after && after[id].timestamp == bases.traces[id].timestamp)
  {
    TraceAfter(h, projectId, now, events, bases, id);
    var t := TraceTable(Sorted(h, events));
    hide TraceTable, Sorted, After, ClampFuture, NotAhead, MetaText, JsonText;
    if id in t.at {
      var base := Find(bases.traces, id);
      var c := t.at[id];
      ClampHolds(h, Get(Or(if base.Some? then Some(base.value.timestamp) else None, c.body.timestamp), c.eventTs), now);
      hide ReadsBack;
    }
  }

  lemma {:induction false} ObservationKeepsTime(h: Host, projectId: string, now: int, events: seq<Event>, bases: Bases, id: string)
    requires ReadsBack(h) && NoneAhead(h, bases, now)
    ensures var after := After(h, projectId, now, events, bases).observations;
            && (id in after ==> NotAhead(h, after[id].startTime, now))
            && (id in bases.observations ==> id in after && after[id].startTime == bases.observations[id].startTime)
  {
    ObservationAfter(h, projectId, now, events, bases, id);
    var t := ObservationTable(Sorted(h, events));
    hide ObservationTable, Sorted, After, ClampFuture, NotAhead, MetaText, JsonText, TokensOf, Latency;
    if id in t.at {
      var base := Find(bases.observations, id);
      var c := t.at[id];
      ClampHolds(h, Get(Or(if base.Some? then Some(base.value.startTime) else None, c.body.startTime), c.eventTs), now);
      hide ReadsBack;
    }
  }

  lemma {:induction false} BatchKeepsTimes(h: Host, projectId: string, now: int, events: seq<Event>, bases: Bases)
    requires ReadsBack(h) && NoneAhead(h, bases, now)
    ensures var after := After(h, projectId, now, events, bases);
            SameTimes(bases, after) && NoneAhead(h, after, now)
  {
    var after := After(h, projectId, now, events, bases);
    hide After, ReadsBack, NotAhead;
    forall id
      ensures id in after.traces ==> NotAhead(h, after.traces[id].timestamp, now)
      ensures id in bases.traces ==> id in after.traces && after.traces[id].timestamp == bases.traces[id].timestamp
    {
      TraceKeepsTime(h, projectId, now, events, bases, id);
    }
    forall id
      ensures id in after.observations ==> NotAhead(h, after.observations[id].startTime, now)
      ensures id in bases.observations ==>
                id in after.observations && after.observations[id].startTime == bases.observations[id].startTime
    {
      ObservationKeepsTime(h, projectId, now, events, bases, id);
    }
  }

  lemma {:induction false} AheadOnlyShrinks(h: Host, b: Bases, now: int, later: int)
    requires NoneAhead(h, b, now) && now <= later
    ensures NoneAhead(h, b, later)
  {
  }

  lemma {:induction false} RunIsNotAhead(h: Host, projectId: string, batches: seq<Batch>)
    requires ReadsBack(h) && ClockNeverGoesBack(batches) && batches != []
    ensures NoneAhead(h, Run(h, projectId, batches), batches[|batches| - 1].now)
    decreases |batches|
  {
    var n := |batches| - 1;
    if n == 0 {
      BatchKeepsTimes(h, projectId, batches[0].now, batches[0].events, Bases(map[], map[]));
    } else {
      RunIsNotAhead(h, projectId, batches[..n]);
      AheadOnlyShrinks(h, Run(h, projectId, batches[..n]), batches[n - 1].now, batches[n].now);
      BatchKeepsTimes(h, projectId, batches[n].now, batches[n].events, Run(h, projectId, batches[..n]));
    }
    hide NoneAhead, After, ReadsBack;
  }

  /**
   * Once a batch has written an entity, its time column never changes again,
   * and it is at most a day ahead of the clock of that batch.
   */
  lemma {:induction false} TimeColumnsNeverMove(h: Host, projectId: string, batches: seq<Batch>, k: nat)
    requires ReadsBack(h) && ClockNeverGoesBack(batches) && 0 < k <= |batches|
    ensures NoneAhead(h, Run(h, projectId, batches[..k]), batches[k - 1].now)
    ensures SameTimes(Run(h, projectId, batches[..k]), Run(h, projectId, batches))
    decreases |batches| - k
  {
    RunIsNotAhead(h, projectId, batches[..k]);
    if k == |batches| {
      assert batches[..k] == batches;
    } else {
      TimeColumnsNeverMove(h, projectId, batches, k + 1);
      assert batches[..k + 1][..k] == batches[..k];
      var before := Run(h, projectId, batches[..k]);
      var next := Run(h, projectId, batches[..k + 1]);
      assert next == After(h, projectId, batches[k].now, batches[k].events, before);
      hide Run, After, ReadsBack;
      AheadOnlyShrinks(h, before, batches[k - 1].now, batches[k].now);
      BatchKeepsTimes(h, projectId, batches[k].now, batches[k].events, before);
      TimesTransitive(before, next, Run(h, projectId, batches));
    }
  }

  lemma {:induction false} TimesTransitive(a: Bases, b: Bases, c: Bases)
    requires SameTimes(a, b) && SameTimes(b, c)
    ensures SameTimes(a, c)
  {
  }
}
