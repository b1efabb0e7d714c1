/** The utility policy's two tiers: what is at risk goes first, whatever could wait, and what is at risk
    and not sent is lost. */
module TwoTier {
  import opened Traffic
  import opened Telemetry
  import opened Selection
  import opened Admission
  import opened Drain
  import opened Policies
  import opened Replay
  import opened Fates
  import opened Reach
  import opened Wrappers
  import Contacts

  function RiskTier(el: seq<Bundle>, next: Option<real>): seq<Bundle> {
    Sort(ByUtility, Select(AtRisk(next), el))
  }

  function SafeTier(el: seq<Bundle>, next: Option<real>): seq<Bundle> {
    Sort(ByDensity, Select(CanWait(next), el))
  }

  lemma TierTests(s: seq<Bundle>, el: seq<Bundle>, next: Option<real>, budget: real)
    ensures Select(AtRisk(next), Greedy(RiskTier(el, next), budget, false)) == Greedy(RiskTier(el, next), budget, false)
    ensures Select(AtRisk(next), Greedy(SafeTier(el, next), budget, false)) == []
  {
    SelectMember(AtRisk(next), el);
    SelectMember(CanWait(next), el);
    SortMembers(ByUtility, Select(AtRisk(next), el));
    SortMembers(ByDensity, Select(CanWait(next), el));
    GreedyMembers(RiskTier(el, next), budget, false);
    GreedyMembers(SafeTier(el, next), budget, false);
    SelectAll(AtRisk(next), Greedy(RiskTier(el, next), budget, false));
    SelectNone(AtRisk(next), Greedy(SafeTier(el, next), budget, false));
  }

  // The at-risk bundles sent are those of a drain of the at-risk tier alone.
  lemma RiskTierFirst(cfg: Config, carry: Carry, el: seq<Bundle>, budget: real, next: Option<real>)
    requires cfg.policy == UtilityAware
    ensures Select(AtRisk(next), Choose(cfg, carry, el, budget, next).sent)
         == Greedy(RiskTier(el, next), budget, false)
  {
    var risky, safe := RiskTier(el, next), SafeTier(el, next);
    var sent := Greedy(risky, budget, false);
    var rest := budget - BitsOf(sent);
    GreedyAppend(risky, safe, budget);
    TierTests(el, el, next, budget);
    TierTests(el, el, next, rest);
    SelectAppend(AtRisk(next), sent, Greedy(safe, rest, false));
    hide Greedy, Select, Sort, BitsOf;
  }

  // So they are the same whatever the safe tier holds.
  lemma SafeTierNeverMatters(
      cfg: Config, x: Carry, y: Carry, el: seq<Bundle>, other: seq<Bundle>, budget: real, next: Option<real>)
    requires cfg.policy == UtilityAware && Select(AtRisk(next), el) == Select(AtRisk(next), other)
    ensures Select(AtRisk(next), Choose(cfg, x, el, budget, next).sent)
         == Select(AtRisk(next), Choose(cfg, y, other, budget, next).sent)
  {
    hide Choose;
    RiskTierFirst(cfg, x, el, budget, next);
    RiskTierFirst(cfg, y, other, budget, next);
  }

  // ---------------------------------------------------------------- at risk and not sent means lost

  lemma QueuedIsUndelivered(cfg: Setup, ws: Plan, bundles: Batch, k: nat, b: Bundle)
    requires k < |ws| && b in Opened(cfg, ws[k], After(cfg, ws, bundles, k)).active
    ensures b !in DeliveredSet(After(cfg, ws, bundles, k).queue.outcomes)
  {
    hide After, Arrive;
    var st := After(cfg, ws, bundles, k);
    EveryStateSane(cfg, ws, bundles, k);
    ArriveDecides(cfg, st, Some(ws[k].end), bundles, b);
    EligibleFacts(cfg, ws[k], st);
  }

  lemma ArrivedBy(cfg: Setup, st: State, end: real, bundles: Batch, b: Bundle)
    requires Sane(st, bundles, cfg.cap)
    ensures b in Arrive(cfg, st, Some(end)).queue.outcomes ==> b in st.queue.outcomes || b.ingress <= end
  {
    ArriveKeeps(cfg, st, Some(end), bundles);
    ReadyFacts(st, Some(end));
  }

  lemma VisitOffers(cfg: Setup, ws: Plan, k: nat, st: State, bundles: Batch, b: Bundle)
    requires k < |ws| && Sane(st, bundles, cfg.cap)
    ensures b in Visit(cfg, ws, k, st).queue.outcomes ==> b in st.queue.outcomes || b.ingress <= ws[k].end
  {
    hide Arrive, ChosenAt, Expire, Leave, Sane;
    var a := Arrive(cfg, st, Some(ws[k].end)).queue;
    ArrivedBy(cfg, st, ws[k].end, bundles, b);
    ArriveDecides(cfg, st, Some(ws[k].end), bundles, b);
    ExpireDecides(a, ws[k].start, cfg.cap, b);
    ExpireKeeps(a, ws[k].start, cfg.cap);
    SaneCarry(st, bundles, cfg.cap);
    SentWereEligible(cfg, ws, k, st);
    LeaveDecides(Opened(cfg, ws[k], st), ChosenAt(cfg, ws, k, st).sent, Sent(ws[k]), cfg.cap, b);
  }

  // After k windows only what arrived by the end of the last of them has been offered.
  lemma {:induction false} OfferedHaveArrived(cfg: Setup, ws: Plan, bundles: Batch, k: nat, b: Bundle)
    requires k <= |ws| && b in After(cfg, ws, bundles, k).queue.outcomes
    ensures 0 < k && b.ingress <= ws[k - 1].end
  {
    hide After, Visit, Sane;
    if k == 0 {
      NothingOffered(cfg, ws, bundles, b);
    } else {
      EveryStateSane(cfg, ws, bundles, k - 1);
      AfterVisit(cfg, ws, bundles, k - 1);
      VisitOffers(cfg, ws, k - 1, After(cfg, ws, bundles, k - 1), bundles, b);
      if b in After(cfg, ws, bundles, k - 1).queue.outcomes {
        OfferedHaveArrived(cfg, ws, bundles, k - 1, b);
        Contacts.PlanIsOrdered(ws);
      }
    }
  }

  lemma QueuedHasArrived(cfg: Setup, ws: Plan, bundles: Batch, k: nat, b: Bundle)
    requires k < |ws| && b in Opened(cfg, ws[k], After(cfg, ws, bundles, k)).active
    ensures b in bundles && b.ingress <= ws[k].end
  {
    hide After, Arrive, Opened;
    var st := After(cfg, ws, bundles, k);
    EveryStateSane(cfg, ws, bundles, k);
    OpenedFacts(cfg, ws, k, st, bundles);
    EligibleFacts(cfg, ws[k], st);
    ArriveKeeps(cfg, st, Some(ws[k].end), bundles);
    ArrivedBy(cfg, st, ws[k].end, bundles, b);
    if b in st.queue.outcomes {
      OfferedHaveArrived(cfg, ws, bundles, k, b);
      Contacts.PlanIsOrdered(ws);
    }
  }

  lemma {:induction false} NotDeliveredFrom(cfg: Setup, ws: Plan, bundles: Batch, i: nat, k: nat, b: Bundle)
    requires i <= k <= |ws|
    requires b !in DeliveredSet(After(cfg, ws, bundles, i).queue.outcomes)
    requires i < |ws| ==> b.expiration <= ws[i].start
    ensures b !in DeliveredSet(After(cfg, ws, bundles, k).queue.outcomes)
    decreases k - i
  {
    hide After, SentAt, DeliveredSet;
    if i < k {
      DeliveredGrows(cfg, ws, bundles, i);
      SentFacts(cfg, ws, bundles, i);
      Contacts.PlanIsOrdered(ws);
      NotDeliveredFrom(cfg, ws, bundles, i + 1, k, b);
    }
  }

  ghost predicate HasLaterWindow(ws: Plan, k: nat, b: Bundle) {
    exists j :: k < j < |ws| && Allowed(b, ws[j])
  }

  // What has arrived by the end of window k can still go out later exactly when it outlives the start of
  // the next window.
  lemma LaterWindowIff(ws: Plan, k: nat, b: Bundle)
    requires k < |ws| && b.ingress <= ws[k].end
    ensures HasLaterWindow(ws, k, b) <==> k + 1 < |ws| && ws[k + 1].start < b.expiration
  {
    Contacts.PlanIsOrdered(ws);
    if k + 1 < |ws| && ws[k + 1].start < b.expiration {
      assert ws[k].end < ws[k + 1].end;
      assert Allowed(b, ws[k + 1]);
    }
  }

  // So the tiers are split exactly, but for a bundle that expires as the next window opens: the policy
  // lets it wait although nothing later can carry it.
  lemma TiersAreExactButAtTheBoundary(ws: Plan, k: nat, b: Bundle)
    requires k < |ws| && b.ingress <= ws[k].end
    ensures AtRisk(NextStart(ws, k)).Passes(b)
       <==> !HasLaterWindow(ws, k, b) && NextStart(ws, k) != Some(b.expiration)
  {
    LaterWindowIff(ws, k, b);
  }

  // Under every policy: a bundle that is in the buffer at window k, that no later window can carry and
  // that is not sent in this one is never delivered.
  lemma UnsentWithoutLaterWindowIsLost(cfg: Setup, ws: Plan, bundles: Batch, k: nat, b: Bundle)
    requires k < |ws| && b in Opened(cfg, ws[k], After(cfg, ws, bundles, k)).active
    requires !HasLaterWindow(ws, k, b) && b !in SentAt(cfg, ws, bundles, k)
    ensures b in bundles && b !in DeliveredSet(Run(cfg, ws, bundles))
  {
    hide After, Opened, SentAt, Run, Sane, HasLaterWindow;
    QueuedHasArrived(cfg, ws, bundles, k, b);
    LaterWindowIff(ws, k, b);
    QueuedIsUndelivered(cfg, ws, bundles, k, b);
    DeliveredGrows(cfg, ws, bundles, k);
    NotDeliveredFrom(cfg, ws, bundles, k + 1, |ws|, b);
    RunDelivers(cfg, ws, bundles);
  }

  // In particular one that the utility policy counts as at risk.
  lemma AtRiskUnsentIsLost(cfg: Setup, ws: Plan, bundles: Batch, k: nat, b: Bundle)
    requires k < |ws| && b in Opened(cfg, ws[k], After(cfg, ws, bundles, k)).active
    requires AtRisk(NextStart(ws, k)).Passes(b) && b !in SentAt(cfg, ws, bundles, k)
    ensures b in bundles && b !in DeliveredSet(Run(cfg, ws, bundles))
  {
    hide After, Opened, SentAt, Run, HasLaterWindow;
    QueuedHasArrived(cfg, ws, bundles, k, b);
    LaterWindowIff(ws, k, b);
    UnsentWithoutLaterWindowIsLost(cfg, ws, bundles, k, b);
  }

  // ---------------------------------------------------------------- a bundle on the boundary

  const SHORT := Contacts.Window("short", 0.0, 1.0, 8.0)
  const LATER := Contacts.Window("later", 10.0, 11.0, 8000.0)
  const URGENT := Bundle(1, Emergency, 1, 0.0, 10.0)
  const VIDEO := Bundle(2, Media, 1, 0.0, 5.0)
  const TIERED: Setup := Config(100.0, UtilityAware, None, true)

  function BoundaryPlan(): Plan {
    assert SHORT.Valid() && LATER.Valid();
    [SHORT, LATER]
  }

  function BoundaryBatch(): Batch {
    [URGENT, VIDEO]
  }

  lemma BoundaryArrivals()
    ensures Opened(TIERED, SHORT, Start(BoundaryBatch())).active == BoundaryBatch()
  {
    var s := BoundaryBatch();
    assert s[1..] == [VIDEO] && s[1..][1..] == [];
    assert Select(IngressUpTo(1.0), s[1..]) == [VIDEO];
    assert Select(IngressUpTo(1.0), s) == s;
    assert Sort(ByIngress, s[1..]) == [VIDEO];
    assert Sort(ByIngress, s) == s;
    var q := TryAdmit(100.0, true, EMPTY, URGENT);
    assert q.active == [URGENT] && Bytes(q.active) == 1;
    assert TryAdmit(100.0, true, q, VIDEO).active == [URGENT] + [VIDEO];
    assert Arrive(TIERED, Start(s), Some(1.0)).queue == AdmitAll(100.0, true, q, s[1..]);
    assert Select(LiveAfter(0.0), s[1..]) == [VIDEO];
  }

  lemma BoundaryChoice()
    ensures Choose(TIERED, NO_CARRY, BoundaryBatch(), 8.0, Some(10.0)).sent == [VIDEO]
  {
    var s := BoundaryBatch();
    assert s[1..] == [VIDEO] && s[1..][1..] == [];
    assert Select(AtRisk(Some(10.0)), s[1..]) == [VIDEO];
    assert Select(AtRisk(Some(10.0)), s) == [VIDEO];
    assert Select(CanWait(Some(10.0)), s[1..]) == [];
    assert Select(CanWait(Some(10.0)), s) == [URGENT];
    var ranked := RiskTier(s, Some(10.0)) + SafeTier(s, Some(10.0));
    assert ranked == [VIDEO, URGENT];
    assert ranked[1..] == [URGENT] && ranked[1..][1..] == [];
    assert Greedy(ranked[1..], 0.0, false) == [];
  }

  // An emergency bundle that expires as the next window opens gives way to a video bundle at risk, and
  // is lost.
  lemma BoundaryBundleIsLost()
    ensures SentAt(TIERED, BoundaryPlan(), BoundaryBatch(), 0) == [VIDEO]
    ensures URGENT in BoundaryBatch() && CanWait(NextStart(BoundaryPlan(), 0)).Passes(URGENT)
    ensures URGENT !in DeliveredSet(Run(TIERED, BoundaryPlan(), BoundaryBatch()))
  {
    var ws, s := BoundaryPlan(), BoundaryBatch();
    BoundaryArrivals();
    BoundaryChoice();
    hide Opened, Choose, Run, HasLaterWindow, Sort;
    assert After(TIERED, ws, s, 0) == Start(s);
    assert s[1..] == [VIDEO] && s[1..][1..] == [];
    assert Select(IngressBefore(1.0), s[1..]) == [VIDEO];
    assert Eligible(Opened(TIERED, SHORT, Start(s)), SHORT) == s;
    assert SHORT.Budget() == 8.0;
    LaterWindowIff(ws, 0, URGENT);
    UnsentWithoutLaterWindowIsLost(TIERED, ws, s, 0, URGENT);
  }
}
