/** The seven drain policies: what each sends from the eligible bundles of one window. */
module Policies {
  import opened Traffic
  import opened Telemetry
  import opened Selection
  import opened Drain
  import opened Drr
  import opened Wrappers

  datatype Policy =
    | Fifo | StrictPriority | Wfq | WfqSkipOver | DeadlineAware | UtilityAware | UtilityPure

  datatype Config = Config(
    cap: real,
    policy: Policy,
    priorityAware: Option<bool>,
    fifoSkipOver: bool)
  {
    // Unset means by policy: on for every class-aware policy, off for the class-blind floor.
    predicate Aware() {
      match priorityAware
      case None => policy != Fifo
      case Some(on) => on
    }
  }

  // Round-robin state that survives from window to window.
  datatype Carry = Carry(deficit: map<TrafficClass, real>, rotation: nat)

  const NO_CARRY := Carry(map[Telemetry := 0.0, ScienceBulk := 0.0, Media := 0.0], 0)

  datatype Choice = Choice(sent: seq<Bundle>, carry: Carry)

  predicate RoundRobin(p: Policy) {
    p == Wfq || p == WfqSkipOver
  }

  // The order in which the ordered policies try the eligible bundles.
  function Ranked(p: Policy, eligible: seq<Bundle>, next: Option<real>): seq<Bundle>
    requires !RoundRobin(p)
  {
    match p
    case Fifo => Sort(ByIngress, eligible)
    case StrictPriority => Sort(ByRank, eligible)
    case DeadlineAware => Sort(ByExpiration, eligible)
    case UtilityPure => Sort(ByDensity, eligible)
    case UtilityAware =>
      Sort(ByUtility, Select(AtRisk(next), eligible)) + Sort(ByDensity, Select(CanWait(next), eligible))
  }

  function LineOf(c: TrafficClass, eligible: seq<Bundle>): seq<Bundle> {
    Sort(ByIngress, Select(OfClass(c), eligible))
  }

  lemma LineMembers(c: TrafficClass, eligible: seq<Bundle>)
    ensures forall b :: b in LineOf(c, eligible) <==> b in eligible && b.cls == c
    ensures Distinct(eligible) ==> Distinct(LineOf(c, eligible))
  {
    SelectMember(OfClass(c), eligible);
    SortMembers(ByIngress, Select(OfClass(c), eligible));
    if Distinct(eligible) {
      SelectDistinct(OfClass(c), eligible);
      SortDistinct(ByIngress, Select(OfClass(c), eligible));
    }
  }

  function VisitOrder(rotation: nat): seq<TrafficClass> {
    SHARED[rotation % 3..] + SHARED[..rotation % 3]
  }

  // The share at the start of the round robin: emergency traffic has already gone, and classes with
  // nothing queued have lost their deficit.
  function Opening(carry: Carry, eligible: seq<Bundle>, budget: real): Share {
    var lines := map c | c in {Telemetry, ScienceBulk, Media} :: LineOf(c, eligible);
    var deficit := map c | c in {Telemetry, ScienceBulk, Media} ::
      if lines[c] == [] || c !in carry.deficit then 0.0 else carry.deficit[c];
    Share(lines, deficit, budget - BitsOf(Urgent(eligible, budget)), [])
  }

  function Urgent(eligible: seq<Bundle>, budget: real): seq<Bundle> {
    Greedy(LineOf(Emergency, eligible), budget, false)
  }

  function Shared(skip: bool, carry: Carry, eligible: seq<Bundle>, budget: real): Share {
    Rounds(skip, Opening(carry, eligible, budget), VisitOrder(carry.rotation), 0)
  }

  function Choose(cfg: Config, carry: Carry, eligible: seq<Bundle>, budget: real, next: Option<real>): Choice {
    if RoundRobin(cfg.policy) then
      var s := Shared(cfg.policy == WfqSkipOver, carry, eligible, budget);
      Choice(Urgent(eligible, budget) + s.sent, Carry(s.deficit, (carry.rotation + 1) % 3))
    else
      Choice(Greedy(Ranked(cfg.policy, eligible, next), budget, cfg.policy == Fifo && !cfg.fifoSkipOver), carry)
  }

  // ---------------------------------------------------------------- the round robin loses nothing

  ghost function Pool(s: Share): multiset<Bundle> {
    multiset(s.sent) + multiset(s.Line(Telemetry)) + multiset(s.Line(ScienceBulk)) + multiset(s.Line(Media))
  }

  // Between two shares of one window bundles only move from a line to the sent list, and budget only
  // turns into sent bits.
  ghost predicate Carried(s: Share, r: Share) {
    && Pool(r) == Pool(s)
    && BitsOf(r.sent) + r.left == BitsOf(s.sent) + s.left
  }

  lemma CarriedTwice(s: Share, t: Share, r: Share)
    requires Carried(s, t) && Carried(t, r)
    ensures Carried(s, r)
  {
  }

  lemma TurnCarries(skip: bool, s: Share, c: TrafficClass, grant: real)
    requires c in SHARED
    ensures Carried(s, Turn(skip, s, c, grant))
  {
    var room := Min(s.Credit(c) + grant, s.left);
    var out, kept := Greedy(s.Line(c), room, !skip), Passed(s.Line(c), room, !skip);
    var r := Turn(skip, s, c, grant);
    hide Greedy, Passed;
    BitsAppend(s.sent, out);
    assert r.sent == s.sent + out && r.Line(c) == kept;
    assert forall d :: d != c ==> r.Line(d) == s.Line(d);
    assert multiset(s.Line(c)) == multiset(out) + multiset(kept) by {
      GreedyPartition(s.Line(c), room, !skip);
    }
    MovedWithinPool(s, r, c, out);
  }

  lemma MovedWithinPool(s: Share, r: Share, c: TrafficClass, out: seq<Bundle>)
    requires c in SHARED
    requires r.sent == s.sent + out
    requires forall d :: d != c ==> r.Line(d) == s.Line(d)
    requires multiset(s.Line(c)) == multiset(out) + multiset(r.Line(c))
    ensures Pool(r) == Pool(s)
  {
    assert multiset(r.sent) == multiset(s.sent) + multiset(out);
  }

  lemma {:induction false} TurnsCarry(skip: bool, s: Share, cs: seq<TrafficClass>, budget: real, total: real)
    requires 0.0 < total && forall c :: c in cs ==> c in SHARED
    ensures Carried(s, Turns(skip, s, cs, budget, total))
    decreases |cs|
  {
    if cs != [] {
      var grant := budget * (Weight(cs[0]) / total);
      assert cs[0] in cs;
      TurnCarries(skip, s, cs[0], grant);
      TurnsCarry(skip, Turn(skip, s, cs[0], grant), cs[1..], budget, total);
    }
  }

  lemma RoundCarries(skip: bool, s: Share, order: seq<TrafficClass>)
    requires VisitsShared(order) && Sound(s) && Goes(s, order)
    ensures Carried(s, Round(skip, s, order))
    ensures Sound(Round(skip, s, order))
  {
    var cs := Backlogged(s, order);
    BackloggedFacts(s, order);
    TurnsCarry(skip, s, cs, s.left, TotalWeight(cs));
    TurnsSound(skip, s, cs, s.left, TotalWeight(cs));
  }

  ghost predicate VisitsShared(order: seq<TrafficClass>) {
    GoodOrder(order) && forall c :: c in SHARED <==> c in order
  }

  lemma {:induction false} RoundsCarry(skip: bool, s: Share, order: seq<TrafficClass>, rnd: nat)
    requires rnd <= LAST_ROUND && VisitsShared(order) && Sound(s)
    ensures Carried(s, Rounds(skip, s, order, rnd))
    ensures Sound(Rounds(skip, s, order, rnd))
    decreases LAST_ROUND - rnd
  {
    hide Goes, Round, Pool, Sound, VisitsShared;
    if Goes(s, order) {
      var r := Round(skip, s, order);
      RoundCarries(skip, s, order);
      if rnd < LAST_ROUND {
        RoundsCarry(skip, r, order, rnd + 1);
        CarriedTwice(s, r, Rounds(skip, r, order, rnd + 1));
      }
    }
  }

  lemma VisitOrderVisits(rotation: nat)
    ensures VisitsShared(VisitOrder(rotation))
  {
    var i := rotation % 3;
    var order := VisitOrder(rotation);
    assert SHARED == [Telemetry, ScienceBulk, Media];
    if i == 0 {
      assert order == [Telemetry, ScienceBulk, Media];
    } else if i == 1 {
      assert order == [ScienceBulk, Media, Telemetry];
    } else {
      assert order == [Media, Telemetry, ScienceBulk];
    }
    assert order[1..] == [order[1], order[2]];
    assert order[1..][1..] == [order[2]];
    assert order[1..][1..][1..] == [];
    assert TotalWeight(order[1..][1..]) == Weight(order[2]);
    assert TotalWeight(order[1..]) == Weight(order[1]) + TotalWeight(order[1..][1..]);
  }

  ghost predicate GoodCarry(carry: Carry) {
    forall c :: c in carry.deficit ==> 0.0 <= carry.deficit[c]
  }

  lemma {:induction false} ClassSplit(s: seq<Bundle>)
    ensures multiset(s) == multiset(Select(OfClass(Emergency), s)) + multiset(Select(OfClass(Telemetry), s))
                         + multiset(Select(OfClass(ScienceBulk), s)) + multiset(Select(OfClass(Media), s))
  {
    if s != [] {
      ClassSplit(s[1..]);
      assert s == [s[0]] + s[1..];
      SelectConsCount(Emergency, s);
      SelectConsCount(Telemetry, s);
      SelectConsCount(ScienceBulk, s);
      SelectConsCount(Media, s);
      hide Select;
    }
  }

  lemma SelectConsCount(c: TrafficClass, s: seq<Bundle>)
    requires s != []
    ensures multiset(Select(OfClass(c), s))
         == (if s[0].cls == c then multiset{s[0]} else multiset{}) + multiset(Select(OfClass(c), s[1..]))
  {
  }

  lemma OpeningFacts(carry: Carry, eligible: seq<Bundle>, budget: real)
    requires GoodCarry(carry) && 0.0 <= budget
    ensures var s := Opening(carry, eligible, budget);
            && Sound(s)
            && s.sent == []
            && s.left == budget - BitsOf(Urgent(eligible, budget))
            && multiset(LineOf(Emergency, eligible)) + Pool(s) == multiset(eligible)
  {
    hide Select, Sort, Greedy, BitsOf;
    var s := Opening(carry, eligible, budget);
    GreedyWithinBudget(LineOf(Emergency, eligible), budget, false);
    SortPermutes(ByIngress, Select(OfClass(Emergency), eligible));
    SortPermutes(ByIngress, Select(OfClass(Telemetry), eligible));
    SortPermutes(ByIngress, Select(OfClass(ScienceBulk), eligible));
    SortPermutes(ByIngress, Select(OfClass(Media), eligible));
    ClassSplit(eligible);
    assert s.Line(Telemetry) == LineOf(Telemetry, eligible);
    assert s.Line(ScienceBulk) == LineOf(ScienceBulk, eligible);
    assert s.Line(Media) == LineOf(Media, eligible);
  }

  // ---------------------------------------------------------------- every policy

  lemma RankedPermutes(p: Policy, eligible: seq<Bundle>, next: Option<real>)
    requires !RoundRobin(p)
    ensures multiset(Ranked(p, eligible, next)) == multiset(eligible)
  {
    match p
    case Fifo => SortPermutes(ByIngress, eligible);
    case StrictPriority => SortPermutes(ByRank, eligible);
    case DeadlineAware => SortPermutes(ByExpiration, eligible);
    case UtilityPure => SortPermutes(ByDensity, eligible);
    case UtilityAware =>
      TiersPermute(eligible, next);
  }

  lemma TiersPermute(eligible: seq<Bundle>, next: Option<real>)
    ensures multiset(Ranked(UtilityAware, eligible, next)) == multiset(eligible)
  {
    var risky, safe := Select(AtRisk(next), eligible), Select(CanWait(next), eligible);
    SortPermutes(ByUtility, risky);
    SortPermutes(ByDensity, safe);
    assert AtRisk(next).Dual() == CanWait(next);
    DualSplit(AtRisk(next), eligible);
    assert multiset(Sort(ByUtility, risky) + Sort(ByDensity, safe)) == multiset(risky) + multiset(safe);
  }

  lemma {:induction false} DualSplit(t: Test, s: seq<Bundle>)
    ensures multiset(Select(t, s)) + multiset(Select(t.Dual(), s)) == multiset(s)
  {
    if s != [] {
      DualSplit(t, s[1..]);
      assert s == [s[0]] + s[1..];
    }
  }

  lemma SharedFacts(skip: bool, carry: Carry, eligible: seq<Bundle>, budget: real)
    requires GoodCarry(carry) && 0.0 <= budget
    ensures var s := Shared(skip, carry, eligible, budget);
            && Sound(s)
            && Carried(Opening(carry, eligible, budget), s)
            && multiset(Urgent(eligible, budget) + s.sent) <= multiset(eligible)
            && BitsOf(Urgent(eligible, budget) + s.sent) <= budget
  {
    hide Opening, Rounds, VisitOrder, Greedy, LineOf, VisitsShared;
    var o := Opening(carry, eligible, budget);
    var s := Shared(skip, carry, eligible, budget);
    OpeningFacts(carry, eligible, budget);
    VisitOrderVisits(carry.rotation);
    RoundsCarry(skip, o, VisitOrder(carry.rotation), 0);
    GreedyPartition(LineOf(Emergency, eligible), budget, false);
    BitsAppend(Urgent(eligible, budget), s.sent);
    assert BitsOf([]) == 0.0;
    assert multiset(s.sent) <= Pool(s);
  }

  // Whatever the policy, what is sent comes from the eligible bundles, each at most once, and never
  // exceeds the window's bits.
  lemma ChoiceWithinBudget(cfg: Config, carry: Carry, eligible: seq<Bundle>, budget: real, next: Option<real>)
    requires GoodCarry(carry) && 0.0 <= budget
    ensures var c := Choose(cfg, carry, eligible, budget, next);
            && multiset(c.sent) <= multiset(eligible)
            && BitsOf(c.sent) <= budget
            && GoodCarry(c.carry)
  {
    if RoundRobin(cfg.policy) {
      var s := Shared(cfg.policy == WfqSkipOver, carry, eligible, budget);
      SharedFacts(cfg.policy == WfqSkipOver, carry, eligible, budget);
      forall c | c in s.deficit ensures 0.0 <= s.deficit[c] {
        assert 0.0 <= s.Credit(c);
      }
    } else {
      var stop := cfg.policy == Fifo && !cfg.fifoSkipOver;
      RankedPermutes(cfg.policy, eligible, next);
      GreedyPartition(Ranked(cfg.policy, eligible, next), budget, stop);
      GreedyWithinBudget(Ranked(cfg.policy, eligible, next), budget, stop);
    }
  }
}
