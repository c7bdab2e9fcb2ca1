/** The claim on an idempotency key: three calls, each on one Redis key that other requests share. */
module Idempotency {
  import opened Outcome

  const PENDING: string := "__pending__"

  /** A response body is a serialized JSON object, so it is never the sentinel. */
  predicate IsBody(body: string) {
    body != [] && body[0] == '{'
  }

  /** A Redis command works, fails before it had an effect, or fails after. */
  datatype Fault = Fine | Before | After

  datatype Claim = New | Replay(body: string) | Busy

  /** `SET key __pending__ NX`: the value afterwards. */
  function AfterSetNx(slot: Option<string>, fault: Fault): Option<string> {
    if fault.Before? || slot.Some? then slot else Some(PENDING)
  }

  function AfterSet(slot: Option<string>, body: string, fault: Fault): Option<string> {
    if fault.Before? then slot else Some(body)
  }

  function AfterDel(slot: Option<string>, fault: Fault): Option<string> {
    if fault.Before? then slot else None
  }

  /** What the answer to `GET` tells a request whose `SET NX` found a value. */
  function Judge(slot: Option<string>): Claim {
    if slot.None? then New else if slot.value == PENDING then Busy else Replay(slot.value)
  }

  class KeyStore {
    var slots: map<string, string>

    ghost function Slot(k: string): Option<string>
      reads this
    {
      if k in slots then Some(slots[k]) else None
    }

    method SetNx(k: string, fault: Fault) returns (claimed: Option<bool>)
      modifies this
      ensures Slot(k) == AfterSetNx(old(Slot(k)), fault)
      ensures forall j | j != k :: Slot(j) == old(Slot(j))
      ensures claimed == if fault.Fine? then Some(old(Slot(k)).None?) else None
    {
      claimed := if fault.Fine? then Some(k !in slots) else None;
      if !fault.Before? && k !in slots {
        slots := slots[k := PENDING];
      }
    }

    /**
     * The claim, undisturbed. It is granted when the key is free and after any
     * Redis error; otherwise the stored body is replayed or the caller waits.
     */
    method ClaimIdempotencyKey(k: string, setFault: Fault, getFault: Fault) returns (claim: Claim)
      modifies this
      ensures Slot(k) == AfterSetNx(old(Slot(k)), setFault)
      ensures forall j | j != k :: Slot(j) == old(Slot(j))
      ensures claim == New <==> old(Slot(k)).None? || !setFault.Fine? || !getFault.Fine?
      ensures claim == Busy <==> old(Slot(k)) == Some(PENDING) && setFault.Fine? && getFault.Fine?
      ensures claim.Replay? ==> old(Slot(k)) == Some(claim.body) && claim.body != PENDING
    {
      var claimed := SetNx(k, setFault);
      if claimed.None? {
        return New;
      }
      if claimed.value {
        return New;
      }
      if !getFault.Fine? {
        return New;
      }
      if k !in slots {
        return New;
      }
      var existing := slots[k];
      claim := if existing == PENDING then Busy else Replay(existing);
    }

    method StoreIdempotentResponse(k: string, body: string, fault: Fault)
      modifies this
      ensures Slot(k) == AfterSet(old(Slot(k)), body, fault)
      ensures forall j | j != k :: Slot(j) == old(Slot(j))
    {
      if !fault.Before? {
        slots := slots[k := body];
      }
    }

    method ReleaseIdempotencyKey(k: string, fault: Fault)
      modifies this
      ensures Slot(k) == AfterDel(old(Slot(k)), fault)
      ensures forall j | j != k :: Slot(j) == old(Slot(j))
    {
      if !fault.Before? {
        slots := slots - {k};
      }
    }
  }
}
