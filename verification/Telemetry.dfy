/** Bundles, their lifecycle, and the mutable record that carries one through a run. */
module Telemetry {
  import opened Traffic
  import opened Wrappers

  datatype TerminalState = Pending | Delivered | TtlExpired | QueueOverflow | NeverScheduled

  predicate IsTerminal(s: TerminalState) {
    s != Pending
  }

  type Size = n: int | 1 <= n witness 1

  // What is fixed about a bundle once its lifetime has been set.
  datatype Bundle = Bundle(
    id: nat,
    cls: TrafficClass,
    size: Size,
    ingress: real,
    expiration: real)
  {
    function Rank(): nat {
      Traffic.Rank(cls)
    }

    function Bits(): real {
      (8 * size) as real
    }
  }

  // What a run writes into a bundle's record.
  datatype Outcome = Outcome(
    state: TerminalState,
    admittedTs: Option<real>,
    sentTs: Option<real>,
    deliveryTs: Option<real>,
    contact: Option<string>)

  const UNTOUCHED := Outcome(Pending, None, None, None, None)

  datatype MarkError = NotATerminalState | AlreadyTerminal(current: TerminalState)

  class BundleRecord {
    const id: nat
    const cls: TrafficClass
    const size: Size
    const ingress: real
    var expiration: Option<real>
    var admittedTs: Option<real>
    var sentTs: Option<real>
    var deliveryTs: Option<real>
    var contact: Option<string>
    var state: TerminalState

    constructor (id: nat, cls: TrafficClass, size: Size, ingress: real)
      ensures this.id == id && this.cls == cls && this.size == size && this.ingress == ingress
      ensures expiration == None && Result() == UNTOUCHED
    {
      this.id, this.cls, this.size, this.ingress := id, cls, size, ingress;
      expiration := None;
      admittedTs, sentTs, deliveryTs, contact := None, None, None, None;
      state := Pending;
    }

    function Info(): Bundle
      reads this`expiration
    {
      Bundle(id, cls, size, ingress, if expiration.Some? then expiration.value else ingress)
    }

    function Result(): Outcome
      reads this`state, this`admittedTs, this`sentTs, this`deliveryTs, this`contact
    {
      Outcome(state, admittedTs, sentTs, deliveryTs, contact)
    }

    // The class default applies when no lifetime is given.
    method SetTtl(ttl: Option<real>)
      modifies this`expiration
      ensures expiration == Some(ingress + (if ttl.Some? then ttl.value else Spec(cls).defaultTtl))
    {
      var t := if ttl.Some? then ttl.value else Spec(cls).defaultTtl;
      expiration := Some(ingress + t);
    }

    // The one way into a terminal state: a second mark is refused and changes nothing. Without a time the
    // clock is read, at `now`.
    method Mark(newState: TerminalState, ts: Option<real>, now: real) returns (r: Wrappers.Result<(), MarkError>)
      modifies this`state, this`deliveryTs
      ensures r.Ok? <==> old(state) == Pending && newState != Pending
      ensures newState == Pending ==> r == Err(NotATerminalState)
      ensures newState != Pending && old(state) != Pending ==> r == Err(AlreadyTerminal(old(state)))
      ensures r.Err? ==> state == old(state) && deliveryTs == old(deliveryTs)
      ensures r.Ok? ==> state == newState
      ensures r.Ok? ==> deliveryTs == if newState != Delivered || old(deliveryTs).Some? then old(deliveryTs)
                                      else if ts.Some? then ts else Some(now)
    {
      if newState == Pending {
        return Err(NotATerminalState);
      }
      if IsTerminal(state) {
        return Err(AlreadyTerminal(state));
      }
      if newState == Delivered && deliveryTs.None? {
        deliveryTs := Some(if ts.Some? then ts.value else now);
      }
      state := newState;
      return Ok(());
    }
  }
}
