/** Which windows reach a bundle: eligibility and delivery, window by window. */
module Reach {
  import opened Telemetry
  import opened Selection
  import opened Admission
  import opened Policies
  import opened Replay
  import opened Fates
  import opened Wrappers
  import Contacts

  function SentAt(cfg: Setup, ws: Plan, bundles: Batch, k: nat): seq<Bundle>
    requires k < |ws|
  {
    ChosenAt(cfg, ws, k, After(cfg, ws, bundles, k)).sent
  }

  function EligibleAt(cfg: Setup, ws: Plan, bundles: Batch, k: nat): seq<Bundle>
    requires k < |ws|
  {
    Eligible(Opened(cfg, ws[k], After(cfg, ws, bundles, k)), ws[k])
  }

  ghost predicate Overflows(cfg: Setup, ws: Plan, bundles: Batch, b: Bundle) {
    b in Run(cfg, ws, bundles) && Run(cfg, ws, bundles)[b].state == QueueOverflow
  }

  ghost predicate NoLoss(cfg: Setup, ws: Plan, bundles: Batch) {
    forall b :: b in bundles ==> !Overflows(cfg, ws, bundles, b)
  }

  function DeliveredSet(m: map<Bundle, Outcome>): set<Bundle> {
    set b | b in m && m[b].state == Delivered
  }

  // ---------------------------------------------------------------- eligibility

  // A bundle that overflows on arrival at window k stays lost.
  lemma ArriveOverflowIsFinal(cfg: Setup, ws: Plan, bundles: Batch, k: nat, b: Bundle)
    requires k < |ws|
    requires var m := Arrive(cfg, After(cfg, ws, bundles, k), Some(ws[k].end)).queue.outcomes;
             b in m && m[b].state == QueueOverflow
    ensures Overflows(cfg, ws, bundles, b)
  {
    hide Arrive, After, ChosenAt, Consistent, Run;
    var st := After(cfg, ws, bundles, k);
    var a := Arrive(cfg, st, Some(ws[k].end)).queue;
    assert Sane(st, bundles, cfg.cap) by { EveryStateSane(cfg, ws, bundles, k); }
    ArriveDecides(cfg, st, Some(ws[k].end), bundles, b);
    assert b !in a.active;
    VisitLeavesDecided(cfg, ws, k, st, b);
    AfterVisit(cfg, ws, bundles, k);
    FateIsFinal(cfg, ws, bundles, k + 1, b);
  }

  lemma AfterVisit(cfg: Setup, ws: Plan, bundles: Batch, k: nat)
    requires k < |ws|
    ensures After(cfg, ws, bundles, k + 1) == Visit(cfg, ws, k, After(cfg, ws, bundles, k))
  {
    hide Visit;
  }

  // Expiry and drain touch only what is in the buffer.
  lemma VisitLeavesDecided(cfg: Setup, ws: Plan, k: nat, st: State, b: Bundle)
    requires k < |ws| && GoodCarry(st.carry)
    requires var a := Arrive(cfg, st, Some(ws[k].end)).queue;
             Consistent(a, cfg.cap) && b in a.outcomes && b !in a.active
    ensures b in Visit(cfg, ws, k, st).queue.outcomes
    ensures Visit(cfg, ws, k, st).queue.outcomes[b] == Arrive(cfg, st, Some(ws[k].end)).queue.outcomes[b]
  {
    hide Arrive, ChosenAt, Consistent, Expire, Leave;
    var a := Arrive(cfg, st, Some(ws[k].end)).queue;
    var q := Opened(cfg, ws[k], st);
    ExpireDecides(a, ws[k].start, cfg.cap, b);
    assert Consistent(q, cfg.cap) by { ExpireKeeps(a, ws[k].start, cfg.cap); }
    SentWereEligible(cfg, ws, k, st);
    EligibleFacts(cfg, ws[k], st);
    LeaveDecides(q, ChosenAt(cfg, ws, k, st).sent, Sent(ws[k]), cfg.cap, b);
  }

  // What a bundle that never overflows, and has not been delivered, looks like when window k has
  // taken its arrivals.
  lemma StillWaiting(cfg: Setup, ws: Plan, bundles: Batch, k: nat, b: Bundle)
    requires k < |ws| && b in bundles && !Overflows(cfg, ws, bundles, b)
    requires b !in DeliveredSet(After(cfg, ws, bundles, k).queue.outcomes)
    requires b.ingress <= ws[k].end
    requires 0 < k ==> ws[k - 1].start < b.expiration
    ensures b in Arrive(cfg, After(cfg, ws, bundles, k), Some(ws[k].end)).queue.active
  {
    hide Arrive, After, Run;
    var st := After(cfg, ws, bundles, k);
    var a := Arrive(cfg, st, Some(ws[k].end)).queue;
    assert Sane(st, bundles, cfg.cap) by { EveryStateSane(cfg, ws, bundles, k); }
    NotDecidedBefore(cfg, ws, bundles, k, b);
    ArriveOffers(cfg, st, ws[k].end, bundles, b);
    ArriveDecides(cfg, st, Some(ws[k].end), bundles, b);
    if a.outcomes[b].state == QueueOverflow {
      ArriveOverflowIsFinal(cfg, ws, bundles, k, b);
    }
  }

  lemma ArriveOffers(cfg: Setup, st: State, cutoff: real, bundles: Batch, b: Bundle)
    requires Sane(st, bundles, cfg.cap) && b in bundles && b.ingress <= cutoff
    ensures b in Arrive(cfg, st, Some(cutoff)).queue.outcomes
  {
    ArriveKeeps(cfg, st, Some(cutoff), bundles);
    ReadyFacts(st, Some(cutoff));
  }

  lemma NotDecidedBefore(cfg: Setup, ws: Plan, bundles: Batch, k: nat, b: Bundle)
    requires k <= |ws| && !Overflows(cfg, ws, bundles, b)
    requires b !in DeliveredSet(After(cfg, ws, bundles, k).queue.outcomes)
    requires 0 < k ==> ws[k - 1].start < b.expiration
    ensures !Decided(After(cfg, ws, bundles, k).queue.outcomes, b)
  {
    hide After, Run;
    if Decided(After(cfg, ws, bundles, k).queue.outcomes, b) {
      FateEarned(cfg, ws, bundles, k, b);
      FateIsFinal(cfg, ws, bundles, k, b);
    }
  }

  // A bundle that never overflows is eligible at every window it is allowed in, until it is delivered.
  lemma UndeliveredIsEligible(cfg: Setup, ws: Plan, bundles: Batch, k: nat, b: Bundle)
    requires k < |ws| && b in bundles && !Overflows(cfg, ws, bundles, b)
    requires b !in DeliveredSet(After(cfg, ws, bundles, k).queue.outcomes)
    requires Allowed(b, ws[k])
    ensures b in EligibleAt(cfg, ws, bundles, k)
  {
    hide After, Run, Arrive, DeliveredSet, Overflows, Eligible, Opened;
    if 0 < k { Contacts.PlanIsOrdered(ws); }
    StillWaiting(cfg, ws, bundles, k, b);
    EligibleFacts(cfg, ws[k], After(cfg, ws, bundles, k));
  }

  // ---------------------------------------------------------------- delivery

  lemma VisitDelivers(cfg: Setup, ws: Plan, k: nat, st: State, bundles: Batch, b: Bundle)
    requires k < |ws| && Sane(st, bundles, cfg.cap)
    ensures b in DeliveredSet(Visit(cfg, ws, k, st).queue.outcomes)
       <==> b in DeliveredSet(st.queue.outcomes) || b in ChosenAt(cfg, ws, k, st).sent
    ensures b in ChosenAt(cfg, ws, k, st).sent ==> b !in DeliveredSet(st.queue.outcomes)
  {
    hide Arrive, ChosenAt, Expire, Leave, Sane;
    var w := ws[k];
    var a := Arrive(cfg, st, Some(w.end)).queue;
    var q := Opened(cfg, w, st);
    var sent := ChosenAt(cfg, ws, k, st).sent;
    ArriveDecides(cfg, st, Some(w.end), bundles, b);
    ExpireDecides(a, w.start, cfg.cap, b);
    ExpireKeeps(a, w.start, cfg.cap);
    assert forall x :: x in sent ==> x in q.active by {
      assert GoodCarry(st.carry) by { SaneCarry(st, bundles, cfg.cap); }
      SentWereEligible(cfg, ws, k, st);
    }
    LeaveDecides(q, sent, Sent(w), cfg.cap, b);
  }

  lemma SaneCarry(st: State, bundles: Batch, cap: real)
    requires Sane(st, bundles, cap)
    ensures GoodCarry(st.carry)
  {
  }

  // Window k turns exactly what it sends into deliveries, nothing twice.
  lemma DeliveredGrows(cfg: Setup, ws: Plan, bundles: Batch, k: nat)
    requires k < |ws|
    ensures var done := DeliveredSet(After(cfg, ws, bundles, k).queue.outcomes);
            var sent := set b | b in SentAt(cfg, ws, bundles, k);
            && DeliveredSet(After(cfg, ws, bundles, k + 1).queue.outcomes) == done + sent
            && done !! sent
  {
    hide After, Visit, ChosenAt, Sane;
    EveryStateSane(cfg, ws, bundles, k);
    AfterVisit(cfg, ws, bundles, k);
    forall b: Bundle
      ensures b in DeliveredSet(After(cfg, ws, bundles, k + 1).queue.outcomes)
         <==> b in DeliveredSet(After(cfg, ws, bundles, k).queue.outcomes) || b in SentAt(cfg, ws, bundles, k)
      ensures b in SentAt(cfg, ws, bundles, k) ==>
                b !in DeliveredSet(After(cfg, ws, bundles, k).queue.outcomes)
    {
      VisitDelivers(cfg, ws, k, After(cfg, ws, bundles, k), bundles, b);
    }
  }

  lemma SentFacts(cfg: Setup, ws: Plan, bundles: Batch, k: nat)
    requires k < |ws|
    ensures Distinct(SentAt(cfg, ws, bundles, k))
    ensures forall b :: b in SentAt(cfg, ws, bundles, k) ==> b in bundles && Allowed(b, ws[k])
    ensures BitsOf(SentAt(cfg, ws, bundles, k)) <= ws[k].Budget()
  {
    hide After, Opened, Choose;
    var st := After(cfg, ws, bundles, k);
    EveryStateSane(cfg, ws, bundles, k);
    SentDistinct(cfg, ws, k, st, bundles);
    OpenedFacts(cfg, ws, k, st, bundles);
    SentWereEligible(cfg, ws, k, st);
  }

  lemma OpenedFacts(cfg: Setup, ws: Plan, k: nat, st: State, bundles: Batch)
    requires k < |ws| && Sane(st, bundles, cfg.cap)
    ensures forall b :: b in Opened(cfg, ws[k], st).active ==> b in bundles
    ensures Distinct(Opened(cfg, ws[k], st).active)
  {
    ArriveKeeps(cfg, st, Some(ws[k].end), bundles);
    ExpireKeeps(Arrive(cfg, st, Some(ws[k].end)).queue, ws[k].start, cfg.cap);
    EligibleFacts(cfg, ws[k], st);
  }

  lemma SentDistinct(cfg: Setup, ws: Plan, k: nat, st: State, bundles: Batch)
    requires k < |ws| && Sane(st, bundles, cfg.cap)
    ensures Distinct(ChosenAt(cfg, ws, k, st).sent)
  {
    hide Opened, Choose, GoodCarry;
    var el := Eligible(Opened(cfg, ws[k], st), ws[k]);
    OpenedFacts(cfg, ws, k, st, bundles);
    SelectDistinct(IngressBefore(ws[k].end), Opened(cfg, ws[k], st).active);
    BudgetNonNegative(ws[k]);
    ChoiceWithinBudget(cfg, st.carry, el, ws[k].Budget(), NextStart(ws, k));
    SubDistinct(ChosenAt(cfg, ws, k, st).sent, el);
  }

  lemma RunDelivers(cfg: Setup, ws: Plan, bundles: Batch)
    ensures DeliveredSet(Run(cfg, ws, bundles)) == DeliveredSet(After(cfg, ws, bundles, |ws|).queue.outcomes)
  {
    hide After, Run;
    forall b: Bundle
      ensures b in DeliveredSet(Run(cfg, ws, bundles))
         <==> b in DeliveredSet(After(cfg, ws, bundles, |ws|).queue.outcomes)
    {
      RunDeliversOne(cfg, ws, bundles, b);
    }
  }

  lemma RunDeliversOne(cfg: Setup, ws: Plan, bundles: Batch, b: Bundle)
    ensures b in DeliveredSet(Run(cfg, ws, bundles))
       <==> b in DeliveredSet(After(cfg, ws, bundles, |ws|).queue.outcomes)
  {
    hide After, Arrive, Expire, Abandon, Sane, Consistent;
    var st := After(cfg, ws, bundles, |ws|);
    var a := Arrive(cfg, st, None).queue;
    ClosedSane(cfg, ws, bundles);
    ArriveDecides(cfg, st, None, bundles, b);
    if ws != [] { ExpireDecides(a, ws[|ws| - 1].end, cfg.cap, b); }
    ClosedActive(cfg, ws, bundles, b);
    AbandonDecides(Closed(cfg, ws, st), cfg.cap, b);
  }

  lemma ClosedActive(cfg: Setup, ws: Plan, bundles: Batch, b: Bundle)
    ensures var q := Closed(cfg, ws, After(cfg, ws, bundles, |ws|));
            b in q.outcomes ==> Decided(q.outcomes, b) || b in q.active
  {
    hide After, Closed;
    ClosedSane(cfg, ws, bundles);
  }
}
