/**
 The limits at the edge of ingest: the nesting depth of an event, computed with an explicit stack and an
 early exit, and the partition of a raw batch into valid events, their original bodies and errors.
 */
module IngestPartition {
  import opened Outcome
  import opened Basics

  /** The shape of a JSON value: only the children of an object or array matter for its depth. */
  datatype Json = Scalar | Node(children: seq<Json>)

  /** The nesting depth: a scalar has none, a container one more than its deepest child. */
  function Depth(v: Json): nat {
    if v.Scalar? then 0 else 1 + DepthOfAll(v.children)
  }

  function DepthOfAll(vs: seq<Json>): nat {
    if vs == [] then 0 else Max(Depth(vs[0]), DepthOfAll(vs[1..]))
  }

  function Size(v: Json): (n: nat)
    ensures 1 <= n
  {
    if v.Scalar? then 1 else 1 + SizeOfAll(v.children)
  }

  function SizeOfAll(vs: seq<Json>): nat {
    if vs == [] then 0 else Size(vs[0]) + SizeOfAll(vs[1..])
  }

  /** A value on the stack, and the number of containers around it. */
  datatype Entry = Entry(v: Json, d: nat)

  /** The greatest depth an entry of the stack reaches. */
  function Reach(stack: seq<Entry>): nat {
    if stack == [] then 0
    else
      var top := stack[|stack| - 1];
      Max(if top.v.Node? then top.d + Depth(top.v) else 0, Reach(stack[..|stack| - 1]))
  }

  function StackSize(stack: seq<Entry>): nat {
    if stack == [] then 0 else Size(stack[|stack| - 1].v) + StackSize(stack[..|stack| - 1])
  }

  /** The children of a container, pushed in order, without the scalars. */
  function Push(stack: seq<Entry>, children: seq<Json>, depth: nat): seq<Entry>
    decreases children
  {
    if children == [] then stack
    else Push(if children[0].Node? then stack + [Entry(children[0], depth)] else stack, children[1..], depth)
  }

  lemma {:induction false} PushReach(stack: seq<Entry>, children: seq<Json>, depth: nat)
    ensures var r := Reach(Push(stack, children, depth));
      Max(depth, r) == Max(Max(depth, Reach(stack)), depth + DepthOfAll(children))
    ensures StackSize(Push(stack, children, depth)) <= StackSize(stack) + SizeOfAll(children)
    ensures forall e | e in Push(stack, children, depth) :: e in stack || e.d == depth
    decreases children
  {
    if children != [] {
      var next := if children[0].Node? then stack + [Entry(children[0], depth)] else stack;
      if children[0].Node? {
        assert next[..|next| - 1] == stack;
      }
      PushReach(next, children[1..], depth);
    }
  }

  /** With a limit, the depth when it is within the limit, and one more than the limit otherwise. */
  method JsonDepth(value: Json, limit: Option<nat>) returns (r: nat)
    ensures limit.None? ==> r == Depth(value)
    ensures limit.Some? ==> r == if Depth(value) <= limit.value then Depth(value) else limit.value + 1
  {
    r := 0;
    var stack := [Entry(value, 0)];
    assert stack[..0] == [];
    while stack != []
      invariant Max(r, Reach(stack)) == Depth(value)
      invariant forall e | e in stack :: e.d <= r
      invariant limit.Some? ==> r <= limit.value
      decreases StackSize(stack)
    {
      var top := stack[|stack| - 1];
      ghost var below := stack[..|stack| - 1];
      stack := stack[..|stack| - 1];
      if top.v.Scalar? {
        continue;
      }
      var depth := top.d + 1;
      if depth > r {
        r := depth;
      }
      if limit.Some? && r > limit.value {
        return;
      }
      var children := top.v.children;
      var k := 0;
      while k < |children|
        invariant k <= |children|
        invariant Push(below, children, depth) == Push(stack, children[k..], depth)
      {
        assert children[k..][1..] == children[k + 1..];
        if children[k].Node? {
          stack := stack + [Entry(children[k], depth)];
        }
        k := k + 1;
      }
      PushReach(below, children, depth);
    }
  }

  // ----- the partition

  /** What is known of a raw event: its id, its serialized size, its shape, and what the schema makes of it. */
  datatype Raw<T> = Raw(id: string, bytes: nat, shape: Json, parsed: Option<T>)

  datatype Reason = TooLarge | TooDeep | SchemaRejected

  datatype Rejection = Rejection(id: string, index: nat, reason: Reason)

  datatype Limits = Limits(maxEventBytes: nat, maxJsonDepth: nat)

  /** Size and depth are judged before the schema. */
  function Judge<T>(limits: Limits, raw: Raw<T>): Option<Reason> {
    if raw.bytes > limits.maxEventBytes then Some(TooLarge)
    else if Depth(raw.shape) > limits.maxJsonDepth then Some(TooDeep)
    else if raw.parsed.None? then Some(SchemaRejected)
    else None
  }

  /** The events that pass, among the first `n`, in order. */
  function Accepted<T>(limits: Limits, batch: seq<Raw<T>>, n: nat): seq<Raw<T>>
    requires n <= |batch|
  {
    if n == 0 then []
    else Accepted(limits, batch, n - 1) + if Judge(limits, batch[n - 1]).None? then [batch[n - 1]] else []
  }

  /** The rejections among the first `n` events, in order. */
  function Rejections<T>(limits: Limits, batch: seq<Raw<T>>, n: nat): seq<Rejection>
    requires n <= |batch|
  {
    if n == 0 then []
    else
      var reason := Judge(limits, batch[n - 1]);
      Rejections(limits, batch, n - 1)
        + if reason.Some? then [Rejection(batch[n - 1].id, n - 1, reason.value)] else []
  }

  method PartitionIngestBatch<T>(limits: Limits, batch: seq<Raw<T>>)
    returns (valid: seq<T>, persist: seq<Raw<T>>, errors: seq<Rejection>)
    ensures persist == Accepted(limits, batch, |batch|) && errors == Rejections(limits, batch, |batch|)
    ensures |valid| == |persist| && forall k | 0 <= k < |valid| :: persist[k].parsed == Some(valid[k])
  {
    valid, persist, errors := [], [], [];
    for n := 0 to |batch|
      invariant persist == Accepted(limits, batch, n) && errors == Rejections(limits, batch, n)
      invariant |valid| == |persist| && forall k | 0 <= k < |valid| :: persist[k].parsed == Some(valid[k])
    {
      var raw := batch[n];
      if raw.bytes > limits.maxEventBytes {
        errors := errors + [Rejection(raw.id, n, TooLarge)];
        continue;
      }
      var depth := JsonDepth(raw.shape, Some(limits.maxJsonDepth));
      if depth > limits.maxJsonDepth {
        errors := errors + [Rejection(raw.id, n, TooDeep)];
        continue;
      }
      if raw.parsed.Some? {
        valid, persist := valid + [raw.parsed.value], persist + [raw];
        continue;
      }
      errors := errors + [Rejection(raw.id, n, SchemaRejected)];
    }
  }

  /** The rejections among the first `n` events: each under its own index and id, for the first limit it breaks. */
  ghost predicate AreRejections<T>(limits: Limits, batch: seq<Raw<T>>, n: nat, es: seq<Rejection>)
    requires n <= |batch|
  {
    && (forall j, k | 0 <= j < k < |es| :: es[j].index < es[k].index)
    && (forall k | 0 <= k < |es| :: IsRejection(limits, batch, n, es[k]))
    && (forall i: nat | i < n && Judge(limits, batch[i]).Some? ::
          Rejection(batch[i].id, i, Judge(limits, batch[i]).value) in es)
  }

  ghost predicate IsRejection<T>(limits: Limits, batch: seq<Raw<T>>, n: nat, e: Rejection)
    requires n <= |batch|
  {
    e.index < n && e.id == batch[e.index].id && Judge(limits, batch[e.index]) == Some(e.reason)
  }

  lemma {:induction false} OneMoreEvent<T>(limits: Limits, batch: seq<Raw<T>>, n: nat, es: seq<Rejection>)
    requires n < |batch| && AreRejections(limits, batch, n, es)
    ensures var reason := Judge(limits, batch[n]);
            AreRejections(limits, batch, n + 1, es + if reason.Some? then [Rejection(batch[n].id, n, reason.value)] else [])
  {
    hide Judge;
    var reason := Judge(limits, batch[n]);
    var es' := es + if reason.Some? then [Rejection(batch[n].id, n, reason.value)] else [];
    assert forall e | e in es :: e in es';
    if reason.Some? {
      assert es'[|es|] in es';
    }
  }

  /** Each event of the batch is in exactly one place: among the accepted, or rejected once. */
  lemma {:induction false} PartitionIsExact<T>(limits: Limits, batch: seq<Raw<T>>, n: nat)
    requires n <= |batch|
    ensures |Accepted(limits, batch, n)| + |Rejections(limits, batch, n)| == n
    ensures AreRejections(limits, batch, n, Rejections(limits, batch, n))
  {
    if n == 0 {
      hide Judge;
    } else {
      hide Judge, AreRejections;
      PartitionIsExact(limits, batch, n - 1);
      OneMoreEvent(limits, batch, n - 1, Rejections(limits, batch, n - 1));
    }
  }
}
