/** How the Go client cuts a flushed buffer into request-sized chunks. */
module ChunkBatch {
  import opened Outcome

  const MAX_BATCH_EVENTS: nat := 1000
  const MAX_BATCH_BYTES: nat := 10 * 1024 * 1024

  /** An event: its place in the order of enqueueing, and the length of its JSON (`None`: not serializable). */
  datatype Event = Event(id: nat, json: Option<nat>)

  /** The events per request, as the option setter clamps it. */
  function ClampBatchSize(n: int): (size: int)
    ensures 1 <= size <= 1000 && (1 <= n <= 1000 ==> size == n)
    ensures n < 1 ==> size == 1
    ensures n > 1000 ==> size == 1000
  {
    if n < 1 then 1 else if n > MAX_BATCH_EVENTS then MAX_BATCH_EVENTS else n
  }

  predicate Unserializable(e: Event) {
    e.json.None?
  }

  /** The bytes an event takes in a request: its JSON and one separator. */
  function Cost(e: Event): nat {
    if e.json.Some? then e.json.value + 1 else 0
  }

  predicate Oversize(e: Event) {
    e.json.Some? && Cost(e) > MAX_BATCH_BYTES
  }

  predicate IsSendable(e: Event) {
    !Unserializable(e) && !Oversize(e)
  }

  /** The events of a list that satisfy `p`, in order. */
  function Only(p: Event -> bool, events: seq<Event>): seq<Event> {
    if events == [] then [] else (if p(events[0]) then [events[0]] else []) + Only(p, events[1..])
  }

  lemma {:induction false} OnlySnoc(p: Event -> bool, events: seq<Event>, e: Event)
    ensures Only(p, events + [e]) == Only(p, events) + (if p(e) then [e] else [])
  {
    if events == [] {
      assert events + [e] == [e];
    } else {
      assert (events + [e])[0] == events[0] && (events + [e])[1..] == events[1..] + [e];
      OnlySnoc(p, events[1..], e);
      var first := if p(events[0]) then [events[0]] else [];
      assert Only(p, events + [e]) == first + Only(p, events[1..] + [e]);
    }
  }

  function Flatten(chunks: seq<seq<Event>>): seq<Event> {
    if chunks == [] then [] else chunks[0] + Flatten(chunks[1..])
  }

  lemma {:induction false} FlattenSnoc(chunks: seq<seq<Event>>, last: seq<Event>)
    ensures Flatten(chunks + [last]) == Flatten(chunks) + last
  {
    if chunks == [] {
      assert chunks + [last] == [last];
    } else {
      assert (chunks + [last])[1..] == chunks[1..] + [last];
      FlattenSnoc(chunks[1..], last);
    }
  }

  function Bytes(chunk: seq<Event>): nat {
    if chunk == [] then 0 else Cost(chunk[0]) + Bytes(chunk[1..])
  }

  lemma {:induction false} BytesConcat(a: seq<Event>, b: seq<Event>)
    ensures Bytes(a + b) == Bytes(a) + Bytes(b)
  {
    if a == [] {
      assert a + b == b;
    } else {
      assert (a + b)[1..] == a[1..] + b;
      BytesConcat(a[1..], b);
    }
  }

  /** One request's worth. */
  predicate Fits(chunk: seq<Event>, size: nat) {
    |chunk| <= size && Bytes(chunk) <= MAX_BATCH_BYTES
  }

  ghost predicate AllFit(chunks: seq<seq<Event>>, size: nat) {
    forall i | 0 <= i < |chunks| :: Fits(chunks[i], size)
  }

  ghost predicate NoneEmpty(chunks: seq<seq<Event>>) {
    forall i | 0 <= i < |chunks| :: chunks[i] != []
  }

  /** No chunk could have taken in the event that opens the next one. */
  ghost predicate Tight(chunks: seq<seq<Event>>, size: nat)
    requires NoneEmpty(chunks)
  {
    forall i | 0 < i < |chunks| :: !Fits(chunks[i - 1] + chunks[i][..1], size)
  }

  /** What a flush makes of the events it took. */
  ghost predicate IsChunking(events: seq<Event>, chunks: seq<seq<Event>>, size: nat) {
    && Flatten(chunks) == Only(IsSendable, events)
    && NoneEmpty(chunks) && AllFit(chunks, size) && Tight(chunks, size)
  }

  /** The loop's state: finished chunks and one that may still grow. */
  ghost predicate Growing(chunks: seq<seq<Event>>, current: seq<Event>, size: nat) {
    && NoneEmpty(chunks) && AllFit(chunks, size) && Tight(chunks, size) && Fits(current, size)
    && (current == [] ==> chunks == [])
    && (current != [] && chunks != [] ==> !Fits(chunks[|chunks| - 1] + current[..1], size))
  }

  lemma {:induction false} Grow(chunks: seq<seq<Event>>, current: seq<Event>, e: Event, size: nat)
    requires Growing(chunks, current, size) && Fits(current + [e], size)
    ensures Growing(chunks, current + [e], size)
  {
    assert (current + [e])[..1] == if current == [] then [e] else current[..1];
  }

  lemma {:induction false} Close(chunks: seq<seq<Event>>, current: seq<Event>, size: nat)
    requires Growing(chunks, current, size) && current != []
    ensures NoneEmpty(chunks + [current]) && AllFit(chunks + [current], size) && Tight(chunks + [current], size)
  {
  }

  lemma {:induction false} Turn(chunks: seq<seq<Event>>, current: seq<Event>, e: Event, size: nat)
    requires Growing(chunks, current, size) && current != []
    requires !Fits(current + [e], size) && Fits([e], size)
    ensures Growing(chunks + [current], [e], size)
  {
    Close(chunks, current, size);
    assert [e][..1] == [e];
  }

  method ChunkBatch(events: seq<Event>, maxBatchSize: nat) returns (chunks: seq<seq<Event>>)
    requires maxBatchSize >= 1
    ensures IsChunking(events, chunks, maxBatchSize)
  {
    chunks := [];
    var current: seq<Event> := [];
    var currentBytes := 0;
    for i := 0 to |events|
      invariant currentBytes == Bytes(current)
      invariant Flatten(chunks) + current == Only(IsSendable, events[..i])
      invariant Growing(chunks, current, maxBatchSize)
    {
      hide Growing, Flatten, Only;
      var ev := events[i];
      assert events[..i + 1] == events[..i] + [ev];
      OnlySnoc(IsSendable, events[..i], ev);
      if ev.json.None? {
        continue;
      }
      var size := ev.json.value + 1;
      if size > MAX_BATCH_BYTES {
        continue;
      }
      BytesConcat(current, [ev]);
      if |current| >= maxBatchSize || currentBytes + size > MAX_BATCH_BYTES {
        FlattenSnoc(chunks, current);
        Turn(chunks, current, ev, maxBatchSize);
        chunks := chunks + [current];
        current, currentBytes := [], 0;
      } else {
        Grow(chunks, current, ev, maxBatchSize);
      }
      assert [] + [ev] == [ev];
      current := current + [ev];
      currentBytes := currentBytes + size;
    }
    assert events[..|events|] == events;
    if |current| > 0 {
      FlattenSnoc(chunks, current);
      Close(chunks, current, maxBatchSize);
      chunks := chunks + [current];
    }
  }

  lemma {:induction false} PartFits(whole: seq<Event>, i: nat, j: nat, size: nat)
    requires Fits(whole, size) && i <= j <= |whole|
    ensures Fits(whole[i..j], size)
  {
    BytesConcat(whole[..i], whole[i..]);
    assert whole == whole[..i] + whole[i..];
    BytesConcat(whole[i..j], whole[j..]);
    assert whole[i..] == whole[i..j] + whole[j..];
  }

  /**
   * A tight split of the end of a list needs no more chunks than any split of
   * the whole list.
   */
  lemma {:induction false} TightIsSmallest(chunks: seq<seq<Event>>, other: seq<seq<Event>>, skip: nat, size: nat)
    requires NoneEmpty(chunks) && Tight(chunks, size) && AllFit(other, size)
    requires skip <= |Flatten(other)| && Flatten(chunks) == Flatten(other)[skip..]
    ensures |chunks| <= |other|
    decreases |other|
  {
    if chunks != [] {
      assert chunks[0] != [];
      var first, rest := other[0], other[1..];
      if skip >= |first| {
        assert Flatten(other)[skip..] == Flatten(rest)[skip - |first|..];
        TightIsSmallest(chunks, rest, skip - |first|, size);
      } else {
        FirstReaches(chunks, other, skip, size);
        var ahead := |chunks[0]| - (|first| - skip);
        assert Flatten(chunks)[|chunks[0]|..] == Flatten(chunks[1..]);
        assert Flatten(other)[skip..][|chunks[0]|..] == Flatten(rest)[ahead..];
        assert forall i | 0 < i < |chunks[1..]| :: chunks[1..][i - 1] == chunks[i] && chunks[1..][i] == chunks[i + 1];
        TightIsSmallest(chunks[1..], rest, ahead, size);
      }
    }
  }

  lemma {:induction false} FirstReaches(chunks: seq<seq<Event>>, other: seq<seq<Event>>, skip: nat, size: nat)
    requires chunks != [] && NoneEmpty(chunks) && Tight(chunks, size) && other != [] && AllFit(other, size)
    requires skip < |other[0]| && Flatten(chunks) == Flatten(other)[skip..]
    ensures |other[0]| - skip <= |chunks[0]|
  {
    var n := |chunks[0]|;
    if n < |other[0]| - skip && |chunks| > 1 {
      assert chunks[1] != [] && !Fits(chunks[0] + chunks[1][..1], size);
      assert Flatten(chunks)[..n + 1] == chunks[0] + chunks[1][..1];
      assert Flatten(other) == other[0] + Flatten(other[1..]);
      assert Flatten(other)[skip..][..n + 1] == other[0][skip..skip + n + 1];
      assert Fits(other[0], size);
      PartFits(other[0], skip, skip + n + 1, size);
    }
  }

  /** No split of the sendable events into requests within the limits has fewer requests. */
  lemma {:induction false} FewestRequests(events: seq<Event>, chunks: seq<seq<Event>>, other: seq<seq<Event>>, size: nat)
    requires IsChunking(events, chunks, size)
    requires Flatten(other) == Only(IsSendable, events) && AllFit(other, size)
    ensures |chunks| <= |other|
  {
    TightIsSmallest(chunks, other, 0, size);
  }

  lemma {:induction false} FirstIsUnique(a: seq<seq<Event>>, b: seq<seq<Event>>, size: nat)
    requires NoneEmpty(a) && AllFit(a, size) && Tight(a, size)
    requires NoneEmpty(b) && AllFit(b, size) && Tight(b, size)
    requires Flatten(a) == Flatten(b) && a != [] && b != []
    ensures a[0] == b[0]
  {
    FirstReaches(a, b, 0, size);
    FirstReaches(b, a, 0, size);
    assert Flatten(a)[..|a[0]|] == a[0];
    assert Flatten(b)[..|b[0]|] == b[0];
  }

  lemma {:induction false} FlattenIsEmpty(chunks: seq<seq<Event>>)
    requires NoneEmpty(chunks)
    ensures Flatten(chunks) == [] <==> chunks == []
  {
    if chunks != [] {
      assert chunks[0] != [];
    }
  }

  /** The description admits one result for each list of events. */
  lemma {:induction false} ChunkingIsUnique(a: seq<seq<Event>>, b: seq<seq<Event>>, size: nat)
    requires NoneEmpty(a) && AllFit(a, size) && Tight(a, size)
    requires NoneEmpty(b) && AllFit(b, size) && Tight(b, size)
    requires Flatten(a) == Flatten(b)
    ensures a == b
    decreases |a|
  {
    FlattenIsEmpty(a);
    FlattenIsEmpty(b);
    if a != [] {
      FirstIsUnique(a, b, size);
      var n := |a[0]|;
      assert Flatten(a)[n..] == Flatten(a[1..]);
      assert Flatten(b)[n..] == Flatten(b[1..]);
      assert forall i | 0 < i < |a[1..]| :: a[1..][i - 1] == a[i] && a[1..][i] == a[i + 1];
      assert forall i | 0 < i < |b[1..]| :: b[1..][i - 1] == b[i] && b[1..][i] == b[i + 1];
      ChunkingIsUnique(a[1..], b[1..], size);
      assert a == [a[0]] + a[1..] && b == [b[0]] + b[1..];
    }
  }

  /** Every event taken is in one chunk or dropped for one of the two named causes. */
  lemma {:induction false} TakenIsPartitioned(events: seq<Event>)
    ensures multiset(events) ==
            multiset(Only(IsSendable, events)) + multiset(Only(Unserializable, events)) + multiset(Only(Oversize, events))
  {
    if events != [] {
      TakenIsPartitioned(events[1..]);
      assert events == [events[0]] + events[1..];
    }
  }

  /** The bytes of the JSON forms. */
  function JsonBytes(chunk: seq<Event>): nat {
    if chunk == [] then 0 else (if chunk[0].json.Some? then chunk[0].json.value else 0) + JsonBytes(chunk[1..])
  }

  lemma {:induction false} BytesAreJson(chunk: seq<Event>)
    requires forall i | 0 <= i < |chunk| :: chunk[i].json.Some?
    ensures Bytes(chunk) == JsonBytes(chunk) + |chunk|
  {
    if chunk != [] {
      BytesAreJson(chunk[1..]);
    }
  }

  lemma {:induction false} OnlyMeans(p: Event -> bool, events: seq<Event>)
    ensures forall e :: e in Only(p, events) <==> e in events && p(e)
  {
    if events != [] {
      OnlyMeans(p, events[1..]);
      assert events == [events[0]] + events[1..];
    }
  }

  lemma {:induction false} ChunkIsPart(chunks: seq<seq<Event>>, i: nat, e: Event)
    requires i < |chunks| && e in chunks[i]
    ensures e in Flatten(chunks)
  {
    if i > 0 {
      ChunkIsPart(chunks[1..], i - 1, e);
    }
  }

  /**
   * In numbers: an event is sent exactly when it has a JSON form below 10485760 bytes,
   * and a request takes at most that much, a separator for each event included.
   */
  lemma {:induction false} RequestsAreBounded(events: seq<Event>, chunks: seq<seq<Event>>, size: nat)
    requires IsChunking(events, chunks, size)
    ensures forall e :: e in Flatten(chunks) <==> e in events && e.json.Some? && e.json.value < 10485760
    ensures forall i | 0 <= i < |chunks| :: 1 <= |chunks[i]| <= size && JsonBytes(chunks[i]) + |chunks[i]| <= 10485760
  {
    OnlyMeans(IsSendable, events);
    assert forall e :: e in Flatten(chunks) <==> e in events && IsSendable(e);
    assert AllFit(chunks, size) && NoneEmpty(chunks);
    hide IsChunking, Only, Tight, Flatten, Bytes, JsonBytes;
    forall i | 0 <= i < |chunks| ensures 1 <= |chunks[i]| <= size && JsonBytes(chunks[i]) + |chunks[i]| <= 10485760 {
      forall j | 0 <= j < |chunks[i]| ensures chunks[i][j].json.Some? {
        ChunkIsPart(chunks, i, chunks[i][j]);
      }
      BytesAreJson(chunks[i]);
      assert Fits(chunks[i], size);
    }
  }

  // ----- counting

  function Copies(events: seq<Event>, e: Event): nat {
    multiset(events)[e]
  }

  lemma {:induction false} CopiesConcat(a: seq<Event>, b: seq<Event>, e: Event)
    ensures Copies(a + b, e) == Copies(a, e) + Copies(b, e)
  {
  }

  lemma {:induction false} NoCopies(e: Event)
    ensures Copies([], e) == 0
  {
  }
}
