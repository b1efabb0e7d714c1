/** A whole run on values: the walk over the windows, and what every reachable state satisfies. */
module Replay {
  import opened Telemetry
  import opened Selection
  import opened Admission
  import opened Policies
  import opened Wrappers
  import Contacts

  type Plan = Contacts.Plan

  // The bundles of a run: distinct, as their identifiers are.
  type Batch = s: seq<Bundle> | Distinct(s)

  // A scheduler cannot be built with a cap of zero or less.
  type Setup = c: Config | 0.0 < c.cap witness Config(1.0, Fifo, None, true)

  // Bundles that have not arrived yet, the buffer, and the round-robin state.
  datatype State = State(pending: seq<Bundle>, queue: Queue, carry: Carry)

  const EMPTY := Queue([], map[])

  function Start(bundles: Batch): State {
    State(bundles, EMPTY, NO_CARRY)
  }

  function Ready(st: State, cutoff: Option<real>): seq<Bundle> {
    if cutoff.None? then st.pending else Select(IngressUpTo(cutoff.value), st.pending)
  }

  function Later(st: State, cutoff: Option<real>): seq<Bundle> {
    if cutoff.None? then [] else Select(IngressAfter(cutoff.value), st.pending)
  }

  // Everything that has arrived by the cutoff is offered in ingress order; no cutoff means all.
  function Arrive(cfg: Setup, st: State, cutoff: Option<real>): State {
    State(Later(st, cutoff),
          AdmitAll(cfg.cap, cfg.Aware(), st.queue, Sort(ByIngress, Ready(st, cutoff))),
          st.carry)
  }

  function NextStart(ws: Plan, k: nat): Option<real> {
    if k + 1 < |ws| then Some(ws[k + 1].start) else None
  }

  // The buffer when window k starts to drain: arrivals up to its end come in before anything expires
  // at its start.
  function Opened(cfg: Setup, w: Contacts.Window, st: State): Queue {
    Expire(Arrive(cfg, st, Some(w.end)).queue, w.start)
  }

  function Eligible(q: Queue, w: Contacts.Window): seq<Bundle> {
    Select(IngressBefore(w.end), q.active)
  }

  function ChosenAt(cfg: Setup, ws: Plan, k: nat, st: State): Choice
    requires k < |ws|
  {
    Choose(cfg, st.carry, Eligible(Opened(cfg, ws[k], st), ws[k]), ws[k].Budget(), NextStart(ws, k))
  }

  function Visit(cfg: Setup, ws: Plan, k: nat, st: State): State
    requires k < |ws|
  {
    var c := ChosenAt(cfg, ws, k, st);
    State(Later(st, Some(ws[k].end)), Leave(Opened(cfg, ws[k], st), c.sent, Sent(ws[k])), c.carry)
  }

  // The state after the first k windows.
  function After(cfg: Setup, ws: Plan, bundles: Batch, k: nat): State
    requires k <= |ws|
  {
    if k == 0 then Start(bundles) else Visit(cfg, ws, k - 1, After(cfg, ws, bundles, k - 1))
  }

  // The buffer once the plan is over: the rest arrives, then what outlived its lifetime by the last
  // window's end expires.
  function Closed(cfg: Setup, ws: Plan, st: State): Queue {
    var q := Arrive(cfg, st, None).queue;
    if ws == [] then q else Expire(q, ws[|ws| - 1].end)
  }

  function Abandon(q: Queue): Queue {
    Queue([], Record(q.outcomes, q.active, Abandoned))
  }

  function Run(cfg: Setup, ws: Plan, bundles: Batch): map<Bundle, Outcome> {
    Abandon(Closed(cfg, ws, After(cfg, ws, bundles, |ws|))).outcomes
  }

  // ---------------------------------------------------------------- what every step keeps

  function Waiting(b: Bundle): Outcome {
    Outcome(Pending, Some(b.ingress), None, None, None)
  }

  // The buffer holds exactly the bundles that were admitted and have no fate yet, each once, and fits
  // the cap.
  ghost predicate Consistent(q: Queue, cap: real) {
    && Distinct(q.active)
    && Fits(Bytes(q.active), cap)
    && (forall b :: b in q.active <==> b in q.outcomes && q.outcomes[b].state == Pending)
    && (forall b :: b in q.active ==> q.outcomes[b] == Waiting(b))
  }

  // From q to r exactly the bundles in `offered` are new, and no fate already decided has changed.
  ghost predicate Grows(q: Queue, r: Queue, offered: seq<Bundle>) {
    && (forall b :: b in r.outcomes <==> b in q.outcomes || b in offered)
    && (forall b :: b in q.outcomes && q.outcomes[b].state != Pending ==> r.outcomes[b] == q.outcomes[b])
  }

  predicate Final(e: Event) {
    !e.Admitted?
  }

  lemma LeaveKeeps(q: Queue, gone: seq<Bundle>, e: Event, cap: real)
    requires Consistent(q, cap) && Final(e)
    requires forall b :: b in gone ==> b in q.active
    ensures Consistent(Leave(q, gone, e), cap)
    ensures Grows(q, Leave(q, gone, e), [])
  {
    var r := Leave(q, gone, e);
    SelectDistinct(NotAmong(gone), q.active);
    BytesSplit(NotAmong(gone), q.active);
    forall b
      ensures b in r.outcomes <==> b in q.outcomes
      ensures b in r.active <==> b in r.outcomes && r.outcomes[b].state == Pending
      ensures b in r.active ==> r.outcomes[b] == Waiting(b)
      ensures b in q.outcomes && q.outcomes[b].state != Pending ==> r.outcomes[b] == q.outcomes[b]
    {
      RecordAt(q.outcomes, gone, e, b);
      SelectMember(NotAmong(gone), q.active);
    }
  }

  lemma JoinKeeps(q: Queue, b: Bundle, cap: real)
    requires Consistent(q, cap) && b !in q.outcomes && Fits(Bytes(q.active) + b.size, cap)
    ensures Consistent(Join(q, b), cap)
    ensures Grows(q, Join(q, b), [b])
  {
    var r := Join(q, b);
    DistinctAppend(q.active, [b]);
    BytesAppend(q.active, [b]);
    assert Bytes([b]) == b.size;
    forall x
      ensures x in r.outcomes <==> x in q.outcomes || x in [b]
      ensures x in r.active <==> x in r.outcomes && r.outcomes[x].state == Pending
      ensures x in r.active ==> r.outcomes[x] == Waiting(x)
      ensures x in q.outcomes && q.outcomes[x].state != Pending ==> r.outcomes[x] == q.outcomes[x]
    {
      RecordAt(q.outcomes, [b], Admitted, x);
    }
  }

  lemma DropKeeps(q: Queue, b: Bundle, cap: real)
    requires Consistent(q, cap) && b !in q.outcomes
    ensures Consistent(Queue(q.active, Record(q.outcomes, [b], Overflowed)), cap)
    ensures Grows(q, Queue(q.active, Record(q.outcomes, [b], Overflowed)), [b])
  {
    var r := Queue(q.active, Record(q.outcomes, [b], Overflowed));
    forall x
      ensures x in r.outcomes <==> x in q.outcomes || x in [b]
      ensures x in r.active <==> x in r.outcomes && r.outcomes[x].state == Pending
      ensures x in r.active ==> r.outcomes[x] == Waiting(x)
      ensures x in q.outcomes && q.outcomes[x].state != Pending ==> r.outcomes[x] == q.outcomes[x]
    {
      RecordAt(q.outcomes, [b], Overflowed, x);
    }
  }

  lemma GrowsTwice(q: Queue, m: Queue, r: Queue, f: seq<Bundle>, g: seq<Bundle>)
    requires Grows(q, m, f) && Grows(m, r, g)
    ensures Grows(q, r, f + g)
  {
  }

  lemma AdmitKeeps(cap: real, aware: bool, q: Queue, b: Bundle)
    requires Consistent(q, cap) && b !in q.outcomes
    ensures Consistent(TryAdmit(cap, aware, q, b), cap)
    ensures Grows(q, TryAdmit(cap, aware, q, b), [b])
  {
    hide Bytes, Join, Record, Victims, Sort, Select, EvictedFor, Below;
    if Fits(Bytes(q.active) + b.size, cap) {
      JoinKeeps(q, b, cap);
    } else if aware && RoomAfterEviction(q, b, cap) {
      var v := EvictedFor(q, b, cap);
      VictimsAreLowest(q, b, cap);
      LeaveKeeps(q, v, Overflowed, cap);
      EvictionIsMinimal(q, b, cap);
      var m := Leave(q, v, Overflowed);
      JoinKeeps(m, b, cap);
      GrowsTwice(q, m, Join(m, b), [], [b]);
      assert [] + [b] == [b];
    } else {
      DropKeeps(q, b, cap);
    }
  }

  lemma {:induction false} AdmitAllKeeps(cap: real, aware: bool, q: Queue, s: seq<Bundle>)
    requires Consistent(q, cap) && Distinct(s) && forall b :: b in s ==> b !in q.outcomes
    ensures Consistent(AdmitAll(cap, aware, q, s), cap)
    ensures Grows(q, AdmitAll(cap, aware, q, s), s)
    decreases |s|
  {
    if s != [] {
      var m := TryAdmit(cap, aware, q, s[0]);
      AdmitKeeps(cap, aware, q, s[0]);
      DistinctCons(s);
      AdmitAllKeeps(cap, aware, m, s[1..]);
      GrowsTwice(q, m, AdmitAll(cap, aware, m, s[1..]), [s[0]], s[1..]);
      assert [s[0]] + s[1..] == s;
    }
  }

  lemma ExpireIsLeave(q: Queue, cutoff: real)
    ensures Expire(q, cutoff) == Leave(q, Select(StaleAt(cutoff), q.active), Expired)
  {
    var gone := Select(StaleAt(cutoff), q.active);
    forall b | b in q.active ensures LiveAfter(cutoff).Passes(b) == NotAmong(gone).Passes(b) {
      SelectMember(StaleAt(cutoff), q.active);
    }
    SelectAgree(LiveAfter(cutoff), NotAmong(gone), q.active);
  }

  lemma ExpireKeeps(q: Queue, cutoff: real, cap: real)
    requires Consistent(q, cap)
    ensures Consistent(Expire(q, cutoff), cap)
    ensures Grows(q, Expire(q, cutoff), [])
  {
    ExpireIsLeave(q, cutoff);
    SelectMember(StaleAt(cutoff), q.active);
    LeaveKeeps(q, Select(StaleAt(cutoff), q.active), Expired, cap);
  }

  // Every bundle of the input is still to come or has been offered, never both.
  ghost predicate Sane(st: State, bundles: Batch, cap: real) {
    && Consistent(st.queue, cap)
    && GoodCarry(st.carry)
    && Distinct(st.pending)
    && (forall b :: b in bundles <==> b in st.pending || b in st.queue.outcomes)
    && (forall b :: b in st.pending ==> b !in st.queue.outcomes)
  }

  lemma ReadyFacts(st: State, cutoff: Option<real>)
    requires Distinct(st.pending)
    ensures var s := Sort(ByIngress, Ready(st, cutoff));
            && Distinct(s) && Distinct(Later(st, cutoff))
            && (forall b :: b in s <==> b in st.pending && b !in Later(st, cutoff))
    ensures forall b :: b in Later(st, cutoff)
                   <==> b in st.pending && cutoff.Some? && cutoff.value < b.ingress
  {
    SortMembers(ByIngress, Ready(st, cutoff));
    if cutoff.Some? {
      SelectDistinct(IngressUpTo(cutoff.value), st.pending);
      SelectDistinct(IngressAfter(cutoff.value), st.pending);
      SelectMember(IngressUpTo(cutoff.value), st.pending);
      SelectMember(IngressAfter(cutoff.value), st.pending);
    }
    SortDistinct(ByIngress, Ready(st, cutoff));
  }

  lemma ArriveKeeps(cfg: Setup, st: State, cutoff: Option<real>, bundles: Batch)
    requires Sane(st, bundles, cfg.cap)
    ensures Sane(Arrive(cfg, st, cutoff), bundles, cfg.cap)
    ensures Grows(st.queue, Arrive(cfg, st, cutoff).queue, Sort(ByIngress, Ready(st, cutoff)))
  {
    ReadyFacts(st, cutoff);
    AdmitAllKeeps(cfg.cap, cfg.Aware(), st.queue, Sort(ByIngress, Ready(st, cutoff)));
  }

  lemma BudgetNonNegative(w: Contacts.Window)
    requires w.Valid()
    ensures 0.0 <= w.Budget()
  {
  }

  lemma EligibleFacts(cfg: Setup, w: Contacts.Window, st: State)
    ensures forall b :: b in Eligible(Opened(cfg, w, st), w) <==>
              b in Opened(cfg, w, st).active && b.ingress < w.end
    ensures forall b :: b in Opened(cfg, w, st).active <==>
              b in Arrive(cfg, st, Some(w.end)).queue.active && w.start < b.expiration
  {
    SelectMember(IngressBefore(w.end), Opened(cfg, w, st).active);
    SelectMember(LiveAfter(w.start), Arrive(cfg, st, Some(w.end)).queue.active);
  }

  lemma SublistMembers(a: seq<Bundle>, s: seq<Bundle>)
    requires multiset(a) <= multiset(s)
    ensures forall b :: b in a ==> b in s
  {
    forall b | b in a ensures b in s {
      assert b in multiset(a);
      assert b in multiset(s);
    }
  }

  // What the drain of window k sends was in the buffer, had arrived before the window's end and had
  // not expired by its start; it never exceeds the window's bits.
  lemma SentWereEligible(cfg: Setup, ws: Plan, k: nat, st: State)
    requires k < |ws| && GoodCarry(st.carry)
    ensures var q := Opened(cfg, ws[k], st);
            forall b :: b in ChosenAt(cfg, ws, k, st).sent ==>
              b in q.active && b.ingress < ws[k].end && ws[k].start < b.expiration
    ensures BitsOf(ChosenAt(cfg, ws, k, st).sent) <= ws[k].Budget()
    ensures GoodCarry(ChosenAt(cfg, ws, k, st).carry)
  {
    var el := Eligible(Opened(cfg, ws[k], st), ws[k]);
    BudgetNonNegative(ws[k]);
    ChoiceWithinBudget(cfg, st.carry, el, ws[k].Budget(), NextStart(ws, k));
    SublistMembers(ChosenAt(cfg, ws, k, st).sent, el);
    EligibleFacts(cfg, ws[k], st);
  }

  lemma VisitKeeps(cfg: Setup, ws: Plan, k: nat, st: State, bundles: Batch)
    requires k < |ws| && Sane(st, bundles, cfg.cap)
    ensures Sane(Visit(cfg, ws, k, st), bundles, cfg.cap)
  {
    var a := Arrive(cfg, st, Some(ws[k].end));
    var q := Opened(cfg, ws[k], st);
    ArriveKeeps(cfg, st, Some(ws[k].end), bundles);
    ExpireKeeps(a.queue, ws[k].start, cfg.cap);
    SentWereEligible(cfg, ws, k, st);
    LeaveKeeps(q, ChosenAt(cfg, ws, k, st).sent, Sent(ws[k]), cfg.cap);
  }

  lemma StartSane(cfg: Setup, ws: Plan, bundles: Batch)
    ensures Sane(After(cfg, ws, bundles, 0), bundles, cfg.cap)
  {
  }

  lemma StepSane(cfg: Setup, ws: Plan, bundles: Batch, k: nat)
    requires k < |ws| && Sane(After(cfg, ws, bundles, k), bundles, cfg.cap)
    ensures Sane(After(cfg, ws, bundles, k + 1), bundles, cfg.cap)
  {
    hide Sane, Visit;
    VisitKeeps(cfg, ws, k, After(cfg, ws, bundles, k), bundles);
  }

  // Every reachable state accounts for every bundle exactly once and keeps the buffer under its cap.
  lemma {:induction false} EveryStateSane(cfg: Setup, ws: Plan, bundles: Batch, k: nat)
    requires k <= |ws|
    ensures Sane(After(cfg, ws, bundles, k), bundles, cfg.cap)
  {
    hide *;
    if k == 0 {
      StartSane(cfg, ws, bundles);
    } else {
      EveryStateSane(cfg, ws, bundles, k - 1);
      StepSane(cfg, ws, bundles, k - 1);
    }
  }
}
