/** Lower-priority traffic cannot change the fate of higher-priority traffic. */
module Interference {
  import opened Traffic
  import opened Telemetry
  import opened Selection
  import opened Admission
  import opened Drain
  import opened Drr
  import opened Policies
  import opened Replay
  import opened Wrappers
  import Contacts
  import Fates

  function Top(r: int, s: seq<Bundle>): seq<Bundle> {
    Select(RankAtMost(r), s)
  }

  // ---------------------------------------------------------------- drains that serve the top ranks first

  lemma RankedSplit(s: seq<Bundle>, r: int)
    ensures Sort(ByRank, s) == Sort(ByRank, Top(r, s)) + Select(RankAbove(r), Sort(ByRank, s))
  {
    var t := RankAtMost(r);
    var c := Sort(ByRank, s);
    SortSorted(ByRank, s);
    forall i, j | 0 <= i < j < |c| && t.Passes(c[j]) ensures t.Passes(c[i]) {
      assert !Selection.Before(ByRank, c[j], c[i]);
    }
    SplitByTest(t, c);
    SelectSort(t, ByRank, s);
  }

  lemma TopOfTop(r: int, s: seq<Bundle>, budget: real)
    ensures Top(r, Greedy(Sort(ByRank, Top(r, s)), budget, false))
         == Greedy(Sort(ByRank, Top(r, s)), budget, false)
  {
    GreedyMembers(Sort(ByRank, Top(r, s)), budget, false);
    SortMembers(ByRank, Top(r, s));
    SelectMember(RankAtMost(r), s);
    SelectAll(RankAtMost(r), Greedy(Sort(ByRank, Top(r, s)), budget, false));
  }

  lemma NoTopBelow(r: int, s: seq<Bundle>, budget: real)
    requires forall b :: b in s ==> r < b.Rank()
    ensures Top(r, Greedy(s, budget, false)) == []
  {
    GreedyMembers(s, budget, false);
    SelectNone(RankAtMost(r), Greedy(s, budget, false));
  }

  lemma StrictSendsTop(s: seq<Bundle>, budget: real, r: int)
    ensures Top(r, Greedy(Sort(ByRank, s), budget, false))
         == Greedy(Sort(ByRank, Top(r, s)), budget, false)
  {
    var hi := Sort(ByRank, Top(r, s));
    var lo := Select(RankAbove(r), Sort(ByRank, s));
    var left := budget - BitsOf(Greedy(hi, budget, false));
    RankedSplit(s, r);
    GreedyAppend(hi, lo, budget);
    SelectAppend(RankAtMost(r), Greedy(hi, budget, false), Greedy(lo, left, false));
    TopOfTop(r, s, budget);
    SelectMember(RankAbove(r), Sort(ByRank, s));
    NoTopBelow(r, lo, left);
  }

  // Keys that order a list alike sort it alike.
  lemma {:induction false} InsertAgree(k: SortKey, l: SortKey, b: Bundle, s: seq<Bundle>)
    requires forall x :: x in s ==> Selection.Before(k, x, b) == Selection.Before(l, x, b)
    ensures Selection.Insert(k, b, s) == Selection.Insert(l, b, s)
  {
    if s != [] {
      assert s[0] in s;
      InsertAgree(k, l, b, s[1..]);
    }
  }

  lemma {:induction false} EmergencySort(s: seq<Bundle>)
    requires forall b :: b in s ==> b.cls == Emergency
    ensures Sort(ByRank, s) == Sort(ByIngress, s)
  {
    if s != [] {
      assert s[0] in s;
      EmergencySort(s[1..]);
      SortMembers(ByIngress, s[1..]);
      InsertAgree(ByRank, ByIngress, s[0], Sort(ByIngress, s[1..]));
    }
  }

  lemma EmergencyLine(s: seq<Bundle>)
    ensures LineOf(Emergency, s) == Sort(ByRank, Top(0, s))
  {
    SelectAgree(OfClass(Emergency), RankAtMost(0), s);
    SelectMember(OfClass(Emergency), s);
    EmergencySort(Select(OfClass(Emergency), s));
  }

  // The round robin only ever sends the classes below emergency.
  lemma SharedSendsNoEmergency(skip: bool, carry: Carry, eligible: seq<Bundle>, budget: real)
    requires GoodCarry(carry) && 0.0 <= budget
    ensures Top(0, Shared(skip, carry, eligible, budget).sent) == []
  {
    hide Shared, Opening, Pool, Urgent, LineOf, BitsOf, Bundle.Rank;
    var s := Shared(skip, carry, eligible, budget);
    var o := Opening(carry, eligible, budget);
    SharedFacts(skip, carry, eligible, budget);
    OpeningFacts(carry, eligible, budget);
    forall b | b in s.sent ensures 0 < b.Rank() {
      assert b in multiset(s.sent);
      InPool(s, b);
      OpeningPool(carry, eligible, budget, b);
    }
    SelectNone(RankAtMost(0), s.sent);
  }

  lemma InPool(s: Share, b: Bundle)
    requires b in s.sent
    ensures b in Pool(s)
  {
    assert b in multiset(s.sent);
  }

  lemma OpeningPool(carry: Carry, eligible: seq<Bundle>, budget: real, b: Bundle)
    requires b in Pool(Opening(carry, eligible, budget))
    ensures 0 < b.Rank()
  {
    hide LineOf, Urgent;
    var o := Opening(carry, eligible, budget);
    LineMembers(Telemetry, eligible);
    LineMembers(ScienceBulk, eligible);
    LineMembers(Media, eligible);
    assert o.Line(Telemetry) == LineOf(Telemetry, eligible);
    assert o.Line(ScienceBulk) == LineOf(ScienceBulk, eligible);
    assert o.Line(Media) == LineOf(Media, eligible);
  }

  lemma RoundRobinSendsTop(cfg: Config, carry: Carry, eligible: seq<Bundle>, budget: real, next: Option<real>)
    requires RoundRobin(cfg.policy) && GoodCarry(carry) && 0.0 <= budget
    ensures Top(0, Choose(cfg, carry, eligible, budget, next).sent)
         == Greedy(Sort(ByRank, Top(0, eligible)), budget, false)
  {
    var skip := cfg.policy == WfqSkipOver;
    var s := Shared(skip, carry, eligible, budget);
    SelectAppend(RankAtMost(0), Urgent(eligible, budget), s.sent);
    SharedSendsNoEmergency(skip, carry, eligible, budget);
    EmergencyLine(eligible);
    TopOfTop(0, eligible, budget);
  }

  // The policies whose drain serves the ranks up to r first, in rank order, whatever else is queued.
  predicate TopFirst(cfg: Config, r: int) {
    cfg.policy == StrictPriority || (RoundRobin(cfg.policy) && r == 0)
  }

  lemma TopFirstSendsTop(cfg: Config, r: int, carry: Carry, eligible: seq<Bundle>, budget: real, next: Option<real>)
    requires TopFirst(cfg, r) && GoodCarry(carry) && 0.0 <= budget
    ensures Top(r, Choose(cfg, carry, eligible, budget, next).sent)
         == Greedy(Sort(ByRank, Top(r, eligible)), budget, false)
  {
    hide Greedy, Sort, Select, GoodCarry;
    if cfg.policy == StrictPriority {
      StrictSendsTop(eligible, budget, r);
    } else {
      RoundRobinSendsTop(cfg, carry, eligible, budget, next);
    }
  }

  // ---------------------------------------------------------------- the whole run

  // The same gateway run strict-priority, with eviction on admission.
  function Reference(cfg: Setup): Setup {
    Config(cfg.cap, StrictPriority, Some(true), true)
  }

  // Seen through the ranks up to r, the first state is the second.
  ghost predicate SameTop(r: int, st: State, ref: State) {
    Top(r, st.pending) == ref.pending && Project(RankAtMost(r), st.queue) == ref.queue
  }

  lemma ArriveSameTop(cfg: Setup, r: int, st: State, ref: State, cutoff: Option<real>)
    requires cfg.Aware() && SameTop(r, st, ref)
    ensures SameTop(r, Arrive(cfg, st, cutoff), Arrive(Reference(cfg), ref, cutoff))
  {
    var t := RankAtMost(r);
    var ready := Ready(st, cutoff);
    assert Top(r, ready) == Ready(ref, cutoff) && Top(r, Later(st, cutoff)) == Later(ref, cutoff) by {
      if cutoff.Some? {
        SelectSwap(t, IngressUpTo(cutoff.value), st.pending);
        SelectSwap(t, IngressAfter(cutoff.value), st.pending);
      }
    }
    SelectSort(t, ByIngress, ready);
    ProjectAdmitAll(cfg.cap, st.queue, Sort(ByIngress, ready), r);
  }

  lemma OpenedSameTop(cfg: Setup, r: int, st: State, ref: State, w: Contacts.Window)
    requires cfg.Aware() && SameTop(r, st, ref)
    ensures Project(RankAtMost(r), Opened(cfg, w, st)) == Opened(Reference(cfg), w, ref)
  {
    ArriveSameTop(cfg, r, st, ref, Some(w.end));
    ProjectExpire(RankAtMost(r), Arrive(cfg, st, Some(w.end)).queue, w.start);
  }

  lemma ChosenSameTop(cfg: Setup, r: int, ws: Plan, k: nat, st: State, ref: State)
    requires k < |ws| && cfg.Aware() && TopFirst(cfg, r) && SameTop(r, st, ref) && GoodCarry(st.carry)
    ensures Top(r, ChosenAt(cfg, ws, k, st).sent) == ChosenAt(Reference(cfg), ws, k, ref).sent
  {
    var w := ws[k];
    var q := Opened(cfg, w, st);
    hide Greedy, Sort, Select, GoodCarry, SameTop, Opened;
    OpenedSameTop(cfg, r, st, ref, w);
    SelectSwap(RankAtMost(r), IngressBefore(w.end), q.active);
    assert Top(r, Eligible(q, w)) == Eligible(Opened(Reference(cfg), w, ref), w);
    BudgetNonNegative(w);
    TopFirstSendsTop(cfg, r, st.carry, Eligible(q, w), w.Budget(), NextStart(ws, k));
  }

  lemma VisitSameTop(cfg: Setup, r: int, ws: Plan, k: nat, st: State, ref: State)
    requires k < |ws| && cfg.Aware() && TopFirst(cfg, r) && SameTop(r, st, ref) && GoodCarry(st.carry)
    ensures SameTop(r, Visit(cfg, ws, k, st), Visit(Reference(cfg), ws, k, ref))
  {
    hide Opened, ChosenAt, GoodCarry, Select, Leave;
    ArriveSameTop(cfg, r, st, ref, Some(ws[k].end));
    OpenedSameTop(cfg, r, st, ref, ws[k]);
    ChosenSameTop(cfg, r, ws, k, st, ref);
    ProjectLeave(RankAtMost(r), Opened(cfg, ws[k], st), ChosenAt(cfg, ws, k, st).sent, Sent(ws[k]));
  }

  // The input without the bundles below rank r.
  function Urgency(r: int, bundles: Batch): Batch {
    SelectDistinct(RankAtMost(r), bundles);
    Top(r, bundles)
  }

  lemma {:induction false} AfterSameTop(cfg: Setup, r: int, ws: Plan, bundles: Batch, k: nat)
    requires k <= |ws| && cfg.Aware() && TopFirst(cfg, r)
    ensures SameTop(r, After(cfg, ws, bundles, k), After(Reference(cfg), ws, Urgency(r, bundles), k))
  {
    hide *;
    if k == 0 {
      StartSameTop(cfg, r, ws, bundles);
    } else {
      AfterSameTop(cfg, r, ws, bundles, k - 1);
      StepSameTop(cfg, r, ws, bundles, k - 1);
    }
  }

  lemma StartSameTop(cfg: Setup, r: int, ws: Plan, bundles: Batch)
    ensures SameTop(r, After(cfg, ws, bundles, 0), After(Reference(cfg), ws, Urgency(r, bundles), 0))
  {
  }

  lemma StepSameTop(cfg: Setup, r: int, ws: Plan, bundles: Batch, k: nat)
    requires k < |ws| && cfg.Aware() && TopFirst(cfg, r)
    requires SameTop(r, After(cfg, ws, bundles, k), After(Reference(cfg), ws, Urgency(r, bundles), k))
    ensures SameTop(r, After(cfg, ws, bundles, k + 1), After(Reference(cfg), ws, Urgency(r, bundles), k + 1))
  {
    hide SameTop, Visit, TopFirst;
    EveryStateSane(cfg, ws, bundles, k);
    VisitSameTop(cfg, r, ws, k, After(cfg, ws, bundles, k),
                 After(Reference(cfg), ws, Urgency(r, bundles), k));
  }

  lemma ClosedSameTop(cfg: Setup, r: int, ws: Plan, st: State, ref: State)
    requires cfg.Aware() && SameTop(r, st, ref)
    ensures Project(RankAtMost(r), Closed(cfg, ws, st)) == Closed(Reference(cfg), ws, ref)
  {
    ArriveSameTop(cfg, r, st, ref, None);
    if ws != [] {
      ProjectExpire(RankAtMost(r), Arrive(cfg, st, None).queue, ws[|ws| - 1].end);
    }
  }

  // The fates of the ranks up to r are those of a strict-priority run from which every lower-ranked
  // bundle was deleted.
  lemma TopFatesAreReference(cfg: Setup, r: int, ws: Plan, bundles: Batch)
    requires cfg.Aware() && TopFirst(cfg, r)
    ensures Keep(RankAtMost(r), Run(cfg, ws, bundles))
         == Run(Reference(cfg), ws, Urgency(r, bundles))
  {
    hide SameTop, After, TopFirst, Closed, Keep, Record, Urgency;
    var st := After(cfg, ws, bundles, |ws|);
    var ref := After(Reference(cfg), ws, Urgency(r, bundles), |ws|);
    AfterSameTop(cfg, r, ws, bundles, |ws|);
    ClosedSameTop(cfg, r, ws, st, ref);
    var q := Closed(cfg, ws, st);
    KeepRecord(RankAtMost(r), q.outcomes, q.active, Abandoned);
  }

  // Strict priority with priority-aware admission: deleting everything below rank r changes no fate,
  // contact or timestamp at or above it.
  lemma NonInterference(cfg: Setup, r: int, ws: Plan, bundles: Batch)
    requires cfg.policy == StrictPriority && cfg.Aware()
    ensures Keep(RankAtMost(r), Run(cfg, ws, bundles)) == Run(cfg, ws, Urgency(r, bundles))
  {
    hide Run, Keep, Urgency;
    TopFatesAreReference(cfg, r, ws, bundles);
    TopFatesAreReference(cfg, r, ws, Urgency(r, bundles));
    UrgencyTwice(r, bundles);
    OnlyTopFates(cfg, r, ws, bundles);
  }

  lemma UrgencyTwice(r: int, bundles: Batch)
    ensures Urgency(r, Urgency(r, bundles)) == Urgency(r, bundles)
    ensures forall b :: b in Urgency(r, bundles) <==> b in bundles && b.Rank() <= r
  {
    SelectMember(RankAtMost(r), bundles);
    SelectAll(RankAtMost(r), Top(r, bundles));
  }

  lemma OnlyTopFates(cfg: Setup, r: int, ws: Plan, bundles: Batch)
    ensures Keep(RankAtMost(r), Run(cfg, ws, Urgency(r, bundles))) == Run(cfg, ws, Urgency(r, bundles))
  {
    hide Run, Urgency;
    Fates.EveryRunIsTotal(cfg, ws, Urgency(r, bundles));
    UrgencyTwice(r, bundles);
  }

  // The fate of every bundle of rank at most r, in any two inputs that agree on those ranks.
  lemma TopFatesIgnoreTheRest(cfg: Setup, r: int, ws: Plan, bundles: Batch, others: Batch, b: Bundle)
    requires cfg.policy == StrictPriority && cfg.Aware()
    requires Urgency(r, bundles) == Urgency(r, others)
    requires b in bundles && b.Rank() <= r
    ensures b in others && b in Run(cfg, ws, bundles) && b in Run(cfg, ws, others)
    ensures Run(cfg, ws, bundles)[b] == Run(cfg, ws, others)[b]
  {
    hide Run, Urgency;
    NonInterference(cfg, r, ws, bundles);
    NonInterference(cfg, r, ws, others);
    UrgencyTwice(r, bundles);
    UrgencyTwice(r, others);
    Fates.EveryRunIsTotal(cfg, ws, bundles);
    Fates.EveryRunIsTotal(cfg, ws, others);
    assert b in Keep(RankAtMost(r), Run(cfg, ws, bundles));
  }

  // ---------------------------------------------------------------- emergency traffic across policies

  predicate HardPreempts(p: Policy) {
    p == StrictPriority || RoundRobin(p)
  }

  // Under strict priority and both round robins an emergency bundle has the same fate, contact and
  // timestamps, although the other classes evolve differently.
  lemma EmergencyFateIsPolicyFree(cfg: Setup, other: Setup, ws: Plan, bundles: Batch, b: Bundle)
    requires HardPreempts(cfg.policy) && HardPreempts(other.policy)
    requires cfg.Aware() && other.Aware() && cfg.cap == other.cap
    requires b in bundles && b.cls == Emergency
    ensures b in Run(cfg, ws, bundles) && b in Run(other, ws, bundles)
    ensures Run(cfg, ws, bundles)[b] == Run(other, ws, bundles)[b]
  {
    hide Run, Urgency;
    TopFatesAreReference(cfg, 0, ws, bundles);
    TopFatesAreReference(other, 0, ws, bundles);
    assert Reference(cfg) == Reference(other);
    Fates.EveryRunIsTotal(cfg, ws, bundles);
    Fates.EveryRunIsTotal(other, ws, bundles);
    assert b in Keep(RankAtMost(0), Run(cfg, ws, bundles));
    assert b in Keep(RankAtMost(0), Run(other, ws, bundles));
  }
}
