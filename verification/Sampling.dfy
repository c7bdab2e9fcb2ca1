/**
 Ingest sampling: the stable hash of a trace id decides the head dice, keep-rules over a batch's
 observations rescue traces, and a memoised filter drops the rows of the other traces from five tables.
 Texts are sequences of 16-bit code units, as the hash reads them; rates and costs are reals.
 */
module Sampling {
  import opened Outcome

  type TraceId = seq<bv16>

  // ----- the head dice

  /** One round of FNV-1a, in 32-bit arithmetic. */
  function Mix(h: bv32, unit: bv16): bv32 {
    (h ^ (unit as bv32)) * 16777619
  }

  /** FNV-1a from an intermediate state. */
  function Hash(h: bv32, seed: TraceId): bv32
    decreases |seed|
  {
    if seed == [] then h else Hash(Mix(h, seed[0]), seed[1..])
  }

  function Fraction(h: bv32): (r: real)
    ensures 0.0 <= r < 1.0
  {
    ((h as int) % 100000) as real / 100000.0
  }

  function Sample(seed: TraceId): (r: real)
    ensures 0.0 <= r < 1.0
  {
    Fraction(Hash(2166136261, seed))
  }

  method ComputeSample(seed: TraceId) returns (r: real)
    ensures r == Sample(seed)
  {
    hide Mix, Fraction;
    var h: bv32 := 2166136261;
    var i := 0;
    assert seed[0..] == seed;
    while i < |seed|
      invariant i <= |seed|
      invariant Hash(2166136261, seed) == Hash(h, seed[i..])
    {
      assert seed[i..][1..] == seed[i + 1..];
      h := Mix(h, seed[i]);
      i := i + 1;
    }
    r := Fraction(h);
  }

  predicate HeadKeep(rate: real, id: TraceId) {
    if rate >= 100.0 then true else if rate <= 0.0 then false else Sample(id) < rate / 100.0
  }

  /** Raising the rate keeps every trace that was kept. */
  lemma {:induction false} HeadKeepGrows(rate: real, rate': real, id: TraceId)
    requires rate <= rate' && HeadKeep(rate, id)
    ensures HeadKeep(rate', id)
  {
    hide Sample;
    assert rate / 100.0 <= rate' / 100.0;
  }

  lemma {:induction false} HashSnoc(h: bv32, seed: TraceId, unit: bv16)
    ensures Hash(h, seed + [unit]) == Mix(Hash(h, seed), unit)
    decreases |seed|
  {
    hide Mix;
    if seed == [] {
      assert [] + [unit] == [unit];
      assert [unit][1..] == [];
    } else {
      assert (seed + [unit])[0] == seed[0] && (seed + [unit])[1..] == seed[1..] + [unit];
      HashSnoc(Mix(h, seed[0]), seed[1..], unit);
    }
  }

  /** The hash is 32-bit FNV-1a over the code units; the sample is its last five decimal digits, as a fraction. */
  lemma {:induction false} SampleIsFnv1a(seed: TraceId, unit: bv16)
    ensures Hash(2166136261, []) == 2166136261
    ensures Hash(2166136261, seed + [unit]) == (Hash(2166136261, seed) ^ (unit as bv32)) * 16777619
    ensures 100000.0 * Sample(seed) == ((Hash(2166136261, seed) as int) % 100000) as real
  {
    HashSnoc(2166136261, seed, unit);
  }

  /** The published hashes of two texts, of one letter and of six. */
  lemma {:induction false} KnownHashes()
    ensures Hash(2166136261, [0x61]) == 0xE40C292C
    ensures Hash(2166136261, [0x66, 0x6F, 0x6F, 0x62, 0x61, 0x72]) == 0xBF9CF968
  {
    var s := [0x66 as bv16, 0x6F, 0x6F, 0x62, 0x61, 0x72];
    assert [0x61 as bv16][1..] == [];
    assert s[1..] == [0x6F, 0x6F, 0x62, 0x61, 0x72] && s[1..][1..] == [0x6F, 0x62, 0x61, 0x72];
    assert s[1..][1..][1..] == [0x62, 0x61, 0x72] && s[1..][1..][1..][1..] == [0x61, 0x72];
    assert s[1..][1..][1..][1..][1..] == [0x72] && s[1..][1..][1..][1..][1..][1..] == [];
  }

  /** The dice keep a trace exactly when its sample, as a percentage, is below the rate, whatever the rate. */
  lemma {:induction false} DiceMean(rate: real, id: TraceId)
    ensures HeadKeep(rate, id) <==> 100.0 * Sample(id) < rate
  {
    hide Sample;
    var x := Sample(id);
    assert x < rate / 100.0 <==> 100.0 * x < rate;
  }

  // ----- rows and keep-rules

  datatype Tagged<+T> = Tagged(traceId: TraceId, row: T)

  datatype Observation = Observation(level: string, latencyMs: real, totalCost: Option<real>, rest: nat)

  datatype MappedRows = MappedRows(
    traces: seq<Tagged<nat>>,
    observations: seq<Tagged<Observation>>,
    scores: seq<Tagged<nat>>,
    documents: seq<Tagged<nat>>,
    embeddings: seq<Tagged<nat>>)

  datatype Policy = Policy(
    rate: real,
    keepOnError: bool,
    keepLatencyMs: Option<real>,
    keepMinCostUsd: Option<real>)

  function CostIn(o: Tagged<Observation>, id: TraceId): real {
    if o.traceId == id && o.row.totalCost.Some? then o.row.totalCost.value else 0.0
  }

  /** What the observations of a trace cost together. */
  function Cost(obs: seq<Tagged<Observation>>, id: TraceId): real {
    if obs == [] then 0.0 else Cost(obs[..|obs| - 1], id) + CostIn(obs[|obs| - 1], id)
  }

  predicate Trips(policy: Policy, o: Observation) {
    || (policy.keepOnError && o.level == "ERROR")
    || (policy.keepLatencyMs.Some? && o.latencyMs >= policy.keepLatencyMs.value)
  }

  /** A rule keeps a trace for one of its observations, or for their summed cost; never a trace without any. */
  predicate RuleKeeps(policy: Policy, obs: seq<Tagged<Observation>>, id: TraceId) {
    exists i | 0 <= i < |obs| ::
      && obs[i].traceId == id
      && (Trips(policy, obs[i].row)
          || (policy.keepMinCostUsd.Some? && Cost(obs, id) >= policy.keepMinCostUsd.value))
  }

  predicate Seen(obs: seq<Tagged<Observation>>, id: TraceId) {
    obs != [] && (obs[|obs| - 1].traceId == id || Seen(obs[..|obs| - 1], id))
  }

  predicate Tripped(policy: Policy, obs: seq<Tagged<Observation>>, id: TraceId) {
    obs != [] && ((obs[|obs| - 1].traceId == id && Trips(policy, obs[|obs| - 1].row))
                  || Tripped(policy, obs[..|obs| - 1], id))
  }

  lemma {:induction false} SeenMeans(policy: Policy, obs: seq<Tagged<Observation>>, id: TraceId)
    ensures Seen(obs, id) <==> exists i | 0 <= i < |obs| :: obs[i].traceId == id
    ensures Tripped(policy, obs, id) <==> exists i | 0 <= i < |obs| :: obs[i].traceId == id && Trips(policy, obs[i].row)
  {
    if obs != [] {
      var n := |obs| - 1;
      hide Trips;
      SeenMeans(policy, obs[..n], id);
      assert forall i | 0 <= i < n :: obs[..n][i] == obs[i];
    }
  }

  /** The rule, read off the two scans. */
  lemma {:induction false} RuleByScans(policy: Policy, obs: seq<Tagged<Observation>>, id: TraceId)
    ensures RuleKeeps(policy, obs, id) <==>
            Tripped(policy, obs, id)
            || (policy.keepMinCostUsd.Some? && Seen(obs, id) && Cost(obs, id) >= policy.keepMinCostUsd.value)
  {
    SeenMeans(policy, obs, id);
    hide Trips, Tripped, Seen, Cost;
  }

  method RulesMatchedTraceIds(policy: Policy, obs: seq<Tagged<Observation>>) returns (kept: set<TraceId>)
    ensures forall id :: id in kept <==> RuleKeeps(policy, obs, id)
  {
    kept := {};
    if !policy.keepOnError && policy.keepLatencyMs.None? && policy.keepMinCostUsd.None? {
      return;
    }
    hide RuleKeeps;
    var costByTrace: map<TraceId, real> := map[];
    for k := 0 to |obs|
      invariant forall id :: id in kept <==> Tripped(policy, obs[..k], id)
      invariant forall id :: id in costByTrace <==> policy.keepMinCostUsd.Some? && Seen(obs[..k], id)
      invariant policy.keepMinCostUsd.Some? ==> forall id ::
        Cost(obs[..k], id) == if id in costByTrace then costByTrace[id] else 0.0
    {
      var o := obs[k];
      assert obs[..k + 1][..k] == obs[..k];
      if policy.keepOnError && o.row.level == "ERROR" {
        kept := kept + {o.traceId};
      }
      if policy.keepLatencyMs.Some? && o.row.latencyMs >= policy.keepLatencyMs.value {
        kept := kept + {o.traceId};
      }
      if policy.keepMinCostUsd.Some? {
        var soFar := if o.traceId in costByTrace then costByTrace[o.traceId] else 0.0;
        var cost := if o.row.totalCost.Some? then o.row.totalCost.value else 0.0;
        costByTrace := costByTrace[o.traceId := soFar + cost];
      }
    }
    assert obs[..|obs|] == obs;
    hide Tripped, Seen, Cost;
    if policy.keepMinCostUsd.Some? {
      kept := kept + set id | id in costByTrace && costByTrace[id] >= policy.keepMinCostUsd.value;
    }
    forall id ensures id in kept <==> RuleKeeps(policy, obs, id) {
      RuleByScans(policy, obs, id);
    }
  }

  // ----- the filter and its memo

  predicate Kept(policy: Policy, obs: seq<Tagged<Observation>>, id: TraceId) {
    HeadKeep(policy.rate, id) || RuleKeeps(policy, obs, id)
  }

  predicate Rescued(policy: Policy, obs: seq<Tagged<Observation>>, id: TraceId) {
    RuleKeeps(policy, obs, id) && !HeadKeep(policy.rate, id)
  }

  /** Of some trace ids, those that are dropped. */
  ghost function DroppedIds(policy: Policy, obs: seq<Tagged<Observation>>, ids: set<TraceId>): set<TraceId> {
    set id | id in ids && !Kept(policy, obs, id)
  }

  /** Of some trace ids, those that only a rule keeps. */
  ghost function RescuedIds(policy: Policy, obs: seq<Tagged<Observation>>, ids: set<TraceId>): set<TraceId> {
    set id | id in ids && Rescued(policy, obs, id)
  }

  function Filtered<T>(policy: Policy, obs: seq<Tagged<Observation>>, rows: seq<Tagged<T>>): seq<Tagged<T>> {
    if rows == [] then []
    else
      var last := rows[|rows| - 1];
      Filtered(policy, obs, rows[..|rows| - 1]) + if Kept(policy, obs, last.traceId) then [last] else []
  }

  /** Every table by the same rule. */
  function FilteredRows(policy: Policy, obs: seq<Tagged<Observation>>, rows: MappedRows): MappedRows {
    MappedRows(Filtered(policy, obs, rows.traces), Filtered(policy, obs, rows.observations),
               Filtered(policy, obs, rows.scores), Filtered(policy, obs, rows.documents),
               Filtered(policy, obs, rows.embeddings))
  }

  ghost function Ids<T>(rows: seq<Tagged<T>>): set<TraceId> {
    set i | 0 <= i < |rows| :: rows[i].traceId
  }

  lemma {:induction false} IdsOfNone<T>(rows: seq<Tagged<T>>)
    ensures Ids(rows[..0]) == {}
  {
  }

  lemma {:induction false} IdsOfNext<T>(rows: seq<Tagged<T>>, k: nat)
    requires k < |rows|
    ensures Ids(rows[..k + 1]) == Ids(rows[..k]) + {rows[k].traceId}
  {
  }

  lemma {:induction false} AllOf<T>(rows: seq<T>)
    ensures rows[..|rows|] == rows
  {
  }

  lemma {:induction false} FilteredNone<T>(policy: Policy, obs: seq<Tagged<Observation>>, rows: seq<Tagged<T>>)
    ensures Filtered(policy, obs, rows[..0]) == []
  {
  }

  lemma {:induction false} FilteredNext<T>(policy: Policy, obs: seq<Tagged<Observation>>, rows: seq<Tagged<T>>, k: nat)
    requires k < |rows|
    ensures Filtered(policy, obs, rows[..k + 1]) ==
            Filtered(policy, obs, rows[..k]) + if Kept(policy, obs, rows[k].traceId) then [rows[k]] else []
  {
    assert rows[..k + 1][..k] == rows[..k];
    hide Kept;
  }

  /** The trace ids of the five tables. */
  ghost function AllIds(rows: MappedRows): set<TraceId> {
    Ids(rows.traces) + Ids(rows.observations) + Ids(rows.scores) + Ids(rows.documents) + Ids(rows.embeddings)
  }

  /** The closure `keep` with the memo `decided` and the counter `ruleKept` it updates. */
  class Decider {
    const policy: Policy
    const ruleTraces: set<TraceId>
    ghost const obs: seq<Tagged<Observation>>
    var decided: map<TraceId, bool>
    var ruleKept: nat

    constructor (policy: Policy, obs: seq<Tagged<Observation>>, ruleTraces: set<TraceId>)
      requires forall id :: id in ruleTraces <==> RuleKeeps(policy, obs, id)
      ensures Valid() && decided == map[]
      ensures this.policy == policy && this.obs == obs
    {
      this.policy, this.ruleTraces, this.obs := policy, ruleTraces, obs;
      decided, ruleKept := map[], 0;
    }

    ghost predicate Valid()
      reads this
    {
      && (forall id :: id in ruleTraces <==> RuleKeeps(policy, obs, id))
      && (forall id | id in decided :: decided[id] == Kept(policy, obs, id))
      && ruleKept == |RescuedIds(policy, obs, decided.Keys)|
    }

    method Keep(id: TraceId) returns (d: bool)
      requires Valid()
      modifies this
      ensures Valid() && d == Kept(policy, obs, id)
      ensures decided.Keys == old(decided.Keys) + {id}
    {
      if id in decided {
        assert old(decided.Keys) + {id} == decided.Keys;
        return decided[id];
      }
      var head := HeadKeep(policy.rate, id);
      var rule := id in ruleTraces;
      d := head || rule;
      ghost var before := decided.Keys;
      if rule && !head {
        assert RescuedIds(policy, obs, before + {id}) == RescuedIds(policy, obs, before) + {id};
        ruleKept := ruleKept + 1;
      } else {
        assert RescuedIds(policy, obs, before + {id}) == RescuedIds(policy, obs, before);
      }
      decided := decided[id := d];
      assert decided.Keys == before + {id};
    }

    method FilterRows<T>(rows: seq<Tagged<T>>) returns (r: seq<Tagged<T>>)
      requires Valid()
      modifies this
      ensures Valid() && r == Filtered(policy, obs, rows)
      ensures decided.Keys == old(decided.Keys) + Ids(rows)
    {
      hide Valid, Kept, Ids, Filtered;
      IdsOfNone(rows);
      FilteredNone(policy, obs, rows);
      r := [];
      ghost var seen: set<TraceId> := {};
      for k := 0 to |rows|
        invariant Valid() && r == Filtered(policy, obs, rows[..k])
        invariant seen == Ids(rows[..k]) && decided.Keys == old(decided.Keys) + seen
      {
        IdsOfNext(rows, k);
        FilteredNext(policy, obs, rows, k);
        var keep := Keep(rows[k].traceId);
        seen := seen + {rows[k].traceId};
        if keep {
          r := r + [rows[k]];
        }
      }
      AllOf(rows);
    }

    /** The five tables, one after the other, under one memo. */
    method FilterAll(rows: MappedRows) returns (filtered: MappedRows)
      requires Valid()
      modifies this
      ensures Valid() && filtered == FilteredRows(policy, obs, rows)
      ensures decided.Keys == old(decided.Keys) + AllIds(rows)
    {
      hide Valid, Filtered, Ids;
      var traces := FilterRows(rows.traces);
      var observations := FilterRows(rows.observations);
      var scores := FilterRows(rows.scores);
      var documents := FilterRows(rows.documents);
      var embeddings := FilterRows(rows.embeddings);
      filtered := MappedRows(traces, observations, scores, documents, embeddings);
    }

    method CountDropped() returns (dropped: nat)
      requires Valid()
      ensures dropped == |DroppedIds(policy, obs, decided.Keys)|
    {
      dropped := |set id | id in decided && !decided[id]|;
      assert (set id | id in decided && !decided[id]) == DroppedIds(policy, obs, decided.Keys);
    }
  }

  /** Each table loses exactly the rows of the traces that neither the dice nor a rule keeps; the counts are
      of distinct traces over the five tables. */
  method ApplySampling(policy: Policy, rows: MappedRows)
    returns (filtered: MappedRows, dropped: nat, ruleKept: nat)
    ensures filtered == FilteredRows(policy, rows.observations, rows)
    ensures dropped == |DroppedIds(policy, rows.observations, AllIds(rows))|
    ensures ruleKept == |RescuedIds(policy, rows.observations, AllIds(rows))|
  {
    if policy.rate >= 100.0 {
      FullRate(policy, rows);
      return rows, 0, 0;
    }
    hide HeadKeep, RuleKeeps, FilteredRows, Kept, Rescued, DroppedIds, RescuedIds, AllIds;
    var ruleTraces := RulesMatchedTraceIds(policy, rows.observations);
    var decider := new Decider(policy, rows.observations, ruleTraces);
    filtered := decider.FilterAll(rows);
    assert decider.decided.Keys == AllIds(rows);
    dropped := decider.CountDropped();
    ruleKept := decider.ruleKept;
  }

  lemma {:induction false} KeepAll<T>(policy: Policy, obs: seq<Tagged<Observation>>, rows: seq<Tagged<T>>)
    requires policy.rate >= 100.0
    ensures Filtered(policy, obs, rows) == rows
  {
    if rows != [] {
      KeepAll(policy, obs, rows[..|rows| - 1]);
    }
  }

  /** At the full rate nothing is dropped and no rule is needed. */
  lemma {:induction false} FullRate(policy: Policy, rows: MappedRows)
    requires policy.rate >= 100.0
    ensures FilteredRows(policy, rows.observations, rows) == rows
    ensures DroppedIds(policy, rows.observations, AllIds(rows)) == {}
    ensures RescuedIds(policy, rows.observations, AllIds(rows)) == {}
  {
    KeepAll(policy, rows.observations, rows.traces);
    KeepAll(policy, rows.observations, rows.observations);
    KeepAll(policy, rows.observations, rows.scores);
    KeepAll(policy, rows.observations, rows.documents);
    KeepAll(policy, rows.observations, rows.embeddings);
    hide Filtered, RuleKeeps;
  }

  // ----- what the filter means

  /** All rows of a trace stay or go together, in every table. */
  lemma {:induction false} WholeTraces<T>(policy: Policy, obs: seq<Tagged<Observation>>, rows: seq<Tagged<T>>)
    ensures forall r :: r in Filtered(policy, obs, rows) <==> r in rows && Kept(policy, obs, r.traceId)
  {
    if rows != [] {
      var n := |rows| - 1;
      WholeTraces(policy, obs, rows[..n]);
      assert rows == rows[..n] + [rows[n]];
      assert forall r :: r in rows <==> r in rows[..n] || r == rows[n];
      var rest, last := Filtered(policy, obs, rows[..n]), rows[n];
      if Kept(policy, obs, last.traceId) {
        assert forall r :: r in rest + [last] <==> r in rest || r == last;
      }
    }
  }

  lemma {:induction false} CostAdds(a: seq<Tagged<Observation>>, b: seq<Tagged<Observation>>, id: TraceId)
    ensures Cost([], id) == 0.0
    ensures Cost(a + b, id) == Cost(a, id) + Cost(b, id)
    decreases |b|
  {
    if b == [] {
      assert a + b == a;
    } else {
      var n := |b| - 1;
      assert (a + b)[..|a + b| - 1] == a + b[..n];
      CostAdds(a, b[..n], id);
    }
  }

  /** What the costs of a trace sum up: its observations' own costs, a missing one being 0, and nothing of other traces. */
  lemma {:induction false} CostOfOne(o: Tagged<Observation>, id: TraceId)
    ensures Cost([o], id) == if o.traceId == id && o.row.totalCost.Some? then o.row.totalCost.value else 0.0
  {
    assert [o][..0] == [];
  }

  /** A row stays exactly when its sample is below the rate, or an observation of its trace is an error, is slow, or the trace is dear. */
  lemma {:induction false} RowsStayWhen<T>(policy: Policy, obs: seq<Tagged<Observation>>, rows: seq<Tagged<T>>, r: Tagged<T>)
    ensures r in Filtered(policy, obs, rows) <==>
            && r in rows
            && (100.0 * Sample(r.traceId) < policy.rate
                || exists i :: 0 <= i < |obs| && obs[i].traceId == r.traceId
                               && ((policy.keepOnError && obs[i].row.level == "ERROR")
                                   || (policy.keepLatencyMs.Some? && policy.keepLatencyMs.value <= obs[i].row.latencyMs)
                                   || (policy.keepMinCostUsd.Some? && policy.keepMinCostUsd.value <= Cost(obs, r.traceId))))
  {
    WholeTraces(policy, obs, rows);
    DiceMean(policy.rate, r.traceId);
    hide Filtered, Sample, HeadKeep, Cost;
  }

  /** Raising the rate, with the same rules, never drops a row that was kept. */
  lemma {:induction false} RaisingRateKeepsRows<T>(policy: Policy, rate': real, obs: seq<Tagged<Observation>>,
                                                   rows: seq<Tagged<T>>, r: Tagged<T>)
    requires policy.rate <= rate' && r in Filtered(policy, obs, rows)
    ensures r in Filtered(policy.(rate := rate'), obs, rows)
  {
    var policy' := policy.(rate := rate');
    WholeTraces(policy, obs, rows);
    WholeTraces(policy', obs, rows);
    if HeadKeep(policy.rate, r.traceId) {
      HeadKeepGrows(policy.rate, rate', r.traceId);
    } else {
      var i :| 0 <= i < |obs| && obs[i].traceId == r.traceId
        && (Trips(policy, obs[i].row)
            || (policy.keepMinCostUsd.Some? && Cost(obs, r.traceId) >= policy.keepMinCostUsd.value));
      assert Trips(policy, obs[i].row) ==> Trips(policy', obs[i].row);
    }
  }
}
