/** What the rotating round robin carries from window to window: deficits grow by exactly what its rounds
    leave of their budgets, except where a line runs empty. */
module Deficits {
  import opened Traffic
  import opened Telemetry
  import opened Selection
  import opened Drain
  import opened Drr
  import opened Policies
  import opened Replay
  import opened Reach
  import opened WindowFairness
  import opened Starvation

  // ---------------------------------------------------------------- one round

  function Deficit(s: Share): real {
    s.Credit(Telemetry) + s.Credit(ScienceBulk) + s.Credit(Media)
  }

  // Between s and r classes were granted `granted` bits and sent what the budget lost; deficits keep what
  // was not sent, and exactly that if no line ran empty.
  ghost predicate Kept(s: Share, r: Share, granted: real, whole: bool) {
    && Deficit(r) - r.left <= Deficit(s) - s.left + granted
    && (whole ==> Deficit(r) - r.left == Deficit(s) - s.left + granted)
  }

  lemma KeptTwice(s: Share, t: Share, r: Share, p: real, q: real, first: bool, second: bool)
    requires Kept(s, t, p, first) && Kept(t, r, q, second)
    ensures Kept(s, r, p + q, first && second)
  {
  }

  lemma TurnKeeps(skip: bool, s: Share, c: TrafficClass, grant: real)
    requires Sound(s) && 0.0 <= grant && c in SHARED
    ensures var r := Turn(skip, s, c, grant); Kept(s, r, grant, r.Line(c) != [])
  {
    hide BitsOf, Greedy, Passed, Sound;
    TurnCost(skip, s, c, grant);
    assert forall d :: d != c ==> Turn(skip, s, c, grant).Credit(d) == s.Credit(d);
  }

  lemma TurnCost(skip: bool, s: Share, c: TrafficClass, grant: real)
    requires Sound(s) && 0.0 <= grant
    ensures var r := Turn(skip, s, c, grant);
            var kept := s.Credit(c) + grant - (s.left - r.left);
            r.Credit(c) <= kept && (r.Line(c) != [] ==> r.Credit(c) == kept)
  {
    GreedyWithinBudget(s.Line(c), Min(s.Credit(c) + grant, s.left), !skip);
  }

  // The classes in the list all have something in line.
  ghost predicate AllWait(s: Share, cs: seq<TrafficClass>) {
    forall c :: c in cs ==> s.Line(c) != []
  }

  lemma {:induction false} TurnsKeep(skip: bool, s: Share, cs: seq<TrafficClass>, budget: real, total: real)
    requires Sound(s) && 0.0 <= budget && 0.0 < total <= 12.0 && NoRepeat(cs)
    requires forall c :: c in cs ==> c in SHARED
    ensures var r := Turns(skip, s, cs, budget, total);
            Kept(s, r, Grants(cs, budget, total), AllWait(r, cs))
    decreases |cs|
  {
    hide Turn, Sound, Deficit, Share.Credit, Share.Line;
    if cs != [] {
      var grant := Quantum(budget, total, cs[0]);
      var t := Turn(skip, s, cs[0], grant);
      var r := Turns(skip, t, cs[1..], budget, total);
      GrantAtLeastTwelfth(cs[0], budget, total);
      assert cs[0] in cs;
      TurnSound(skip, s, cs[0], grant);
      TurnKeeps(skip, s, cs[0], grant);
      TurnsKeep(skip, t, cs[1..], budget, total);
      TurnsElsewhere(skip, t, cs[1..], budget, total, cs[0]);
      KeptTwice(s, t, r, grant, Grants(cs[1..], budget, total), t.Line(cs[0]) != [], AllWait(r, cs[1..]));
    }
  }

  // A round's grants are its budget, so deficits grow by what it leaves.
  lemma RoundKeeps(skip: bool, s: Share, order: seq<TrafficClass>)
    requires Sound(s) && VisitsShared(order) && Goes(s, order)
    ensures var r := Round(skip, s, order);
            && Sound(r)
            && Deficit(r) <= Deficit(s) + r.left
            && (NoneRunsDry(s, r) ==> Deficit(r) == Deficit(s) + r.left)
  {
    hide Turns, Sound, Deficit, Share.Line, Share.Credit, Grants;
    var cs := Backlogged(s, order);
    var r := Round(skip, s, order);
    BackloggedFacts(s, order);
    BackloggedNoRepeat(s, order);
    TurnsSound(skip, s, cs, s.left, TotalWeight(cs));
    TurnsKeep(skip, s, cs, s.left, TotalWeight(cs));
    GrantsShare(cs, s.left, TotalWeight(cs));
    WholeShare(s.left, TotalWeight(cs));
  }

  // No line that held something in s is empty in r.
  ghost predicate NoneRunsDry(s: Share, r: Share) {
    forall c :: c in SHARED && s.Line(c) != [] ==> r.Line(c) != []
  }

  // ---------------------------------------------------------------- one window

  // What the rounds of a window leave, summed over the rounds.
  function Leftovers(skip: bool, s: Share, order: seq<TrafficClass>, rnd: nat): real
    requires rnd <= LAST_ROUND
    decreases LAST_ROUND - rnd, s
  {
    if !Goes(s, order) then 0.0
    else
      var r := Round(skip, s, order);
      r.left + if rnd == LAST_ROUND then 0.0 else Leftovers(skip, r, order, rnd + 1)
  }

  lemma {:induction false} RoundsKeep(skip: bool, s: Share, order: seq<TrafficClass>, rnd: nat)
    requires rnd <= LAST_ROUND && Sound(s) && VisitsShared(order)
    ensures var r, rest := Rounds(skip, s, order, rnd), Leftovers(skip, s, order, rnd);
            && Deficit(r) <= Deficit(s) + rest
            && (NoneRunsDry(s, r) ==> Deficit(r) == Deficit(s) + rest)
    decreases LAST_ROUND - rnd, s
  {
    hide Goes, Round, Sound, VisitsShared, Deficit, Share.Line, Share.Credit, NoneRunsDry;
    if Goes(s, order) {
      var t := Round(skip, s, order);
      RoundKeeps(skip, s, order);
      if rnd < LAST_ROUND {
        RoundsKeep(skip, t, order, rnd + 1);
        if NoneRunsDry(s, Rounds(skip, t, order, rnd + 1)) { DryOnce(skip, s, order, rnd); }
      }
    }
  }

  // A line empty after a round stays empty: only an unbroken window has unbroken rounds.
  lemma DryOnce(skip: bool, s: Share, order: seq<TrafficClass>, rnd: nat)
    requires rnd < LAST_ROUND && Sound(s) && VisitsShared(order) && Goes(s, order)
    requires NoneRunsDry(s, Rounds(skip, Round(skip, s, order), order, rnd + 1))
    ensures NoneRunsDry(s, Round(skip, s, order))
    ensures NoneRunsDry(Round(skip, s, order), Rounds(skip, Round(skip, s, order), order, rnd + 1))
  {
    hide Goes, Round, Sound, Share.Line, Rounds;
    var t := Round(skip, s, order);
    var r := Rounds(skip, t, order, rnd + 1);
    RoundFactsFor(skip, s, order);
    OrderGood(order);
    forall c | c in SHARED
      ensures s.Line(c) != [] ==> t.Line(c) != []
      ensures t.Line(c) != [] ==> r.Line(c) != []
    {
      assert c in order;
      RoundFacts(skip, s, order, c);
      if r.Line(c) != [] { LeftMeansSteady(skip, t, order, rnd + 1, c); }
    }
  }

  // All deficits carried between windows.
  function Owing(carry: Carry): real {
    Owed(carry, Telemetry) + Owed(carry, ScienceBulk) + Owed(carry, Media)
  }

  // Every class that brings a deficit or a line into the window still has a line at its end.
  ghost predicate NoneForfeits(skip: bool, carry: Carry, el: seq<Bundle>, budget: real) {
    forall c :: c in SHARED && (0.0 < Owed(carry, c) || LineOf(c, el) != [])
            ==> Shared(skip, carry, el, budget).Line(c) != []
  }

  function WindowLeftovers(skip: bool, carry: Carry, el: seq<Bundle>, budget: real): real {
    Leftovers(skip, Opening(carry, el, budget), VisitOrder(carry.rotation), 0)
  }

  lemma OpeningOwes(carry: Carry, el: seq<Bundle>, budget: real)
    requires GoodCarry(carry)
    ensures var o := Opening(carry, el, budget);
            && Deficit(o) <= Owing(carry)
            && (forall c :: c in SHARED ==> o.Line(c) == LineOf(c, el))
            && ((forall c :: c in SHARED && 0.0 < Owed(carry, c) ==> LineOf(c, el) != [])
                  ==> Deficit(o) == Owing(carry))
  {
    hide LineOf, Urgent, BitsOf;
    assert SHARED == [Telemetry, ScienceBulk, Media];
    assert SHARED[0] == Telemetry && SHARED[1] == ScienceBulk && SHARED[2] == Media;
  }

  lemma WindowKeeps(skip: bool, carry: Carry, el: seq<Bundle>, budget: real)
    requires GoodCarry(carry) && 0.0 <= budget
    ensures var s, rest := Shared(skip, carry, el, budget), WindowLeftovers(skip, carry, el, budget);
            && Deficit(s) <= Owing(carry) + rest
            && (NoneForfeits(skip, carry, el, budget) ==> Deficit(s) == Owing(carry) + rest)
  {
    hide Opening, Rounds, VisitOrder, LineOf, Deficit, Owing, Owed, Pool, Urgent, Sound;
    hide Share.Line, Leftovers, Steady, GoodOrder;
    var o, order := Opening(carry, el, budget), VisitOrder(carry.rotation);
    OpeningFacts(carry, el, budget);
    OpeningOwes(carry, el, budget);
    VisitOrderVisits(carry.rotation);
    RoundsKeep(skip, o, order, 0);
    forall c | c in SHARED && Rounds(skip, o, order, 0).Line(c) != [] ensures o.Line(c) != [] {
      LeftMeansSteady(skip, o, order, 0, c);
    }
  }

  // ---------------------------------------------------------------- across windows

  function LeftoversAt(cfg: Setup, ws: Plan, bundles: Batch, k: nat): real
    requires k < |ws|
  {
    WindowLeftovers(cfg.policy == WfqSkipOver, After(cfg, ws, bundles, k).carry,
                    EligibleAt(cfg, ws, bundles, k), ws[k].Budget())
  }

  ghost predicate NoneForfeitsAt(cfg: Setup, ws: Plan, bundles: Batch, k: nat)
    requires k < |ws|
  {
    NoneForfeits(cfg.policy == WfqSkipOver, After(cfg, ws, bundles, k).carry,
                 EligibleAt(cfg, ws, bundles, k), ws[k].Budget())
  }

  // What the first k windows leave, summed over their rounds.
  function TotalLeft(cfg: Setup, ws: Plan, bundles: Batch, k: nat): real
    requires k <= |ws|
  {
    if k == 0 then 0.0 else TotalLeft(cfg, ws, bundles, k - 1) + LeftoversAt(cfg, ws, bundles, k - 1)
  }

  lemma OwingStep(cfg: Setup, ws: Plan, bundles: Batch, k: nat)
    requires RoundRobin(cfg.policy) && k < |ws|
    ensures var now, rest := Owing(After(cfg, ws, bundles, k).carry), LeftoversAt(cfg, ws, bundles, k);
            var next := Owing(After(cfg, ws, bundles, k + 1).carry);
            next <= now + rest && (NoneForfeitsAt(cfg, ws, bundles, k) ==> next == now + rest)
  {
    hide After, Opened, Shared, Urgent, WindowLeftovers, NoneForfeits, Sane, GoodCarry, Eligible;
    var st := After(cfg, ws, bundles, k);
    EveryStateSane(cfg, ws, bundles, k);
    SaneCarry(st, bundles, cfg.cap);
    BudgetNonNegative(ws[k]);
    RotationStep(cfg, ws, bundles, k);
    WindowKeeps(cfg.policy == WfqSkipOver, st.carry, EligibleAt(cfg, ws, bundles, k), ws[k].Budget());
  }

  lemma NothingOwed(cfg: Setup, ws: Plan, bundles: Batch)
    ensures Owing(After(cfg, ws, bundles, 0).carry) == 0.0
  {
  }

  // The deficits carried after k windows never exceed what the rounds so far left of their budgets, and
  // are exactly that as long as no class forfeits its own; there they stay bounded just when those leftovers
  // do.
  lemma {:induction false} DeficitsAreLeftovers(cfg: Setup, ws: Plan, bundles: Batch, k: nat)
    requires RoundRobin(cfg.policy) && k <= |ws|
    ensures var owing, rest := Owing(After(cfg, ws, bundles, k).carry), TotalLeft(cfg, ws, bundles, k);
            && owing <= rest
            && ((forall t :: 0 <= t < k ==> NoneForfeitsAt(cfg, ws, bundles, t)) ==> owing == rest)
  {
    hide After, Owing, LeftoversAt, NoneForfeitsAt;
    if k == 0 {
      NothingOwed(cfg, ws, bundles);
    } else {
      DeficitsAreLeftovers(cfg, ws, bundles, k - 1);
      OwingStep(cfg, ws, bundles, k - 1);
    }
  }

  // ---------------------------------------------------------------- idle classes

  // A class with nothing in line owes nothing.
  ghost predicate IdleOwesNone(s: Share) {
    forall c :: s.Line(c) == [] ==> s.Credit(c) == 0.0
  }

  lemma OpeningIdle(carry: Carry, el: seq<Bundle>, budget: real)
    ensures IdleOwesNone(Opening(carry, el, budget))
  {
    hide LineOf, Urgent, BitsOf;
  }

  lemma TurnIdle(skip: bool, s: Share, c: TrafficClass, grant: real)
    requires IdleOwesNone(s)
    ensures IdleOwesNone(Turn(skip, s, c, grant))
  {
    var r := Turn(skip, s, c, grant);
    hide Greedy, Passed, BitsOf;
    forall d | r.Line(d) == [] ensures r.Credit(d) == 0.0 {
      if d != c { TurnElsewhere(skip, s, c, grant, d); }
    }
  }

  lemma {:induction false} TurnsIdle(skip: bool, s: Share, cs: seq<TrafficClass>, budget: real, total: real)
    requires IdleOwesNone(s) && 0.0 < total
    ensures IdleOwesNone(Turns(skip, s, cs, budget, total))
    decreases |cs|
  {
    hide Turn, IdleOwesNone;
    if cs != [] {
      var grant := budget * (Weight(cs[0]) / total);
      TurnIdle(skip, s, cs[0], grant);
      TurnsIdle(skip, Turn(skip, s, cs[0], grant), cs[1..], budget, total);
    }
  }

  lemma {:induction false} RoundsIdle(skip: bool, s: Share, order: seq<TrafficClass>, rnd: nat)
    requires rnd <= LAST_ROUND && IdleOwesNone(s)
    ensures IdleOwesNone(Rounds(skip, s, order, rnd))
    decreases LAST_ROUND - rnd, s
  {
    hide Turns, IdleOwesNone;
    if Goes(s, order) {
      BackloggedFacts(s, order);
      TurnsIdle(skip, s, Backlogged(s, order), s.left, TotalWeight(Backlogged(s, order)));
      if rnd < LAST_ROUND { RoundsIdle(skip, Round(skip, s, order), order, rnd + 1); }
    }
  }

  // Nothing of class c is left in line once everything eligible of it has gone out.
  lemma SentOutIsIdle(skip: bool, carry: Carry, el: seq<Bundle>, budget: real, c: TrafficClass)
    requires GoodCarry(carry) && 0.0 <= budget && Distinct(el) && c in SHARED
    requires forall b :: b in el && b.cls == c ==> b in Shared(skip, carry, el, budget).sent
    ensures Shared(skip, carry, el, budget).Line(c) == []
  {
    hide Shared, Opening, Urgent, LineOf, Distinct, Sound, BitsOf;
    var o, s := Opening(carry, el, budget), Shared(skip, carry, el, budget);
    OpeningFacts(carry, el, budget);
    SharedFacts(skip, carry, el, budget);
    SharedPure(skip, carry, el, budget);
    if s.Line(c) != [] {
      var b := s.Line(c)[0];
      assert b in s.Line(c);
      InLine(s, c, b);
      assert b in multiset(el);
      InLineAndSent(s, c, b);
      DistinctCount(el, b);
    }
  }

  lemma InLine(s: Share, c: TrafficClass, b: Bundle)
    requires c in SHARED && b in s.Line(c)
    ensures b in Pool(s)
  {
    assert multiset(s.Line(c)) <= Pool(s);
    assert b in multiset(s.Line(c));
  }

  lemma InLineAndSent(s: Share, c: TrafficClass, b: Bundle)
    requires c in SHARED && b in s.Line(c) && b in s.sent
    ensures 2 <= Pool(s)[b]
  {
    assert b in multiset(s.Line(c)) && b in multiset(s.sent);
    assert multiset(s.sent) + multiset(s.Line(c)) <= Pool(s);
  }

  lemma SharedPure(skip: bool, carry: Carry, el: seq<Bundle>, budget: real)
    requires GoodCarry(carry) && 0.0 <= budget
    ensures Pure(Shared(skip, carry, el, budget))
  {
    hide Opening, Rounds, VisitOrder, Pure, Sound, VisitsShared, Pool, Urgent, Taken, SentBits;
    var o, order := Opening(carry, el, budget), VisitOrder(carry.rotation);
    OpeningFacts(carry, el, budget);
    OpeningPure(carry, el, budget);
    VisitOrderVisits(carry.rotation);
    RoundsAreTaken(skip, o, order, 0);
    TakenSend(skip, o, order, Executed(skip, o, order, 0), Telemetry);
  }

  // No hoarding: a shared class with nothing eligible left over after window k carries no deficit on.
  lemma NothingLeftOwesNothing(cfg: Setup, ws: Plan, bundles: Batch, k: nat, c: TrafficClass)
    requires RoundRobin(cfg.policy) && k < |ws| && c in SHARED
    requires forall b :: b in EligibleAt(cfg, ws, bundles, k) && b.cls == c ==> b in SentAt(cfg, ws, bundles, k)
    ensures CreditAt(cfg, ws, bundles, k + 1, c) == 0.0
  {
    hide After, Opened, Shared, Urgent, Sane, GoodCarry, Distinct, Eligible;
    var st, el := After(cfg, ws, bundles, k), EligibleAt(cfg, ws, bundles, k);
    var skip := cfg.policy == WfqSkipOver;
    EveryStateSane(cfg, ws, bundles, k);
    SaneCarry(st, bundles, cfg.cap);
    BudgetNonNegative(ws[k]);
    RotationStep(cfg, ws, bundles, k);
    EligibleDistinct(cfg, ws, bundles, k);
    UrgentIsEmergency(el, ws[k].Budget());
    assert c != Emergency;
    SentOutIsIdle(skip, st.carry, el, ws[k].Budget(), c);
    SharedIdle(skip, st.carry, el, ws[k].Budget(), c);
  }

  lemma EligibleDistinct(cfg: Setup, ws: Plan, bundles: Batch, k: nat)
    requires k < |ws|
    ensures Distinct(EligibleAt(cfg, ws, bundles, k))
  {
    hide After, Opened, Distinct, Sane;
    var st := After(cfg, ws, bundles, k);
    EveryStateSane(cfg, ws, bundles, k);
    OpenedFacts(cfg, ws, k, st, bundles);
    SelectDistinct(IngressBefore(ws[k].end), Opened(cfg, ws[k], st).active);
  }

  lemma SharedIdle(skip: bool, carry: Carry, el: seq<Bundle>, budget: real, c: TrafficClass)
    ensures var s := Shared(skip, carry, el, budget); s.Line(c) == [] ==> s.Credit(c) == 0.0
  {
    hide Opening, Rounds, VisitOrder;
    OpeningIdle(carry, el, budget);
    RoundsIdle(skip, Opening(carry, el, budget), VisitOrder(carry.rotation), 0);
  }
}
