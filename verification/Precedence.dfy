/** What each policy's order means: a bundle is overtaken only by a strictly smaller one. */
module Precedence {
  import opened Traffic
  import opened Telemetry
  import opened Selection
  import opened Drain
  import opened Drr
  import opened Policies
  import opened Wrappers

  function Utility(b: Bundle): real {
    Spec(b.cls).utilityWeight
  }

  function Density(b: Bundle): real {
    Utility(b) / (b.size as real)
  }

  // Would not live to see the next window open; without a next window nothing does.
  predicate Doomed(b: Bundle, next: Option<real>) {
    next.None? || b.expiration < next.value
  }

  // The round robins order only emergency traffic before the rest, and each class by arrival.
  predicate PreemptsOrPrecedes(b: Bundle, c: Bundle) {
    (b.cls == Emergency && c.cls != Emergency) || (b.cls == c.cls && b.ingress < c.ingress)
  }

  // Policies under which a bundle that must wait for b never goes first, however small.
  predicate NeverOvertaken(cfg: Config, b: Bundle) {
    (cfg.policy == Fifo && !cfg.fifoSkipOver) || (cfg.policy == Wfq && b.cls != Emergency)
  }

  // Bundle b must be served before bundle c, as each policy promises.
  predicate Ahead(p: Policy, next: Option<real>, b: Bundle, c: Bundle) {
    match p
    case Fifo => b.ingress < c.ingress
    case StrictPriority => b.Rank() < c.Rank() || (b.Rank() == c.Rank() && b.ingress < c.ingress)
    case DeadlineAware => b.expiration < c.expiration
    case UtilityPure => Density(c) < Density(b)
    case UtilityAware =>
      if Doomed(b, next) then !Doomed(c, next) || Utility(c) < Utility(b)
      else !Doomed(c, next) && Density(c) < Density(b)
    case Wfq => PreemptsOrPrecedes(b, c)
    case WfqSkipOver => PreemptsOrPrecedes(b, c)
  }

  // ---------------------------------------------------------------- one list

  lemma {:induction false} SentFits(s: seq<Bundle>, budget: real, stop: bool, c: Bundle)
    requires c in Greedy(s, budget, stop)
    ensures c.Bits() <= budget
  {
    if s[0].Bits() <= budget {
      if c != s[0] { SentFits(s[1..], budget - s[0].Bits(), stop, c); }
    } else {
      SentFits(s[1..], budget, stop, c);
    }
  }

  lemma {:induction false} OvertakenInList(s: seq<Bundle>, budget: real, stop: bool, i: nat, j: nat)
    requires i < j < |s| && Distinct(s)
    requires s[i] !in Greedy(s, budget, stop) && s[j] in Greedy(s, budget, stop)
    ensures !stop && s[j].Bits() < s[i].Bits()
  {
    DistinctCons(s);
    assert s[j] == s[1..][j - 1] && s[j] != s[0];
    if i == 0 {
      SentFits(s, budget, stop, s[j]);
    } else {
      var left := if s[0].Bits() <= budget then budget - s[0].Bits() else budget;
      assert s[i] == s[1..][i - 1];
      OvertakenInList(s[1..], left, stop, i - 1, j - 1);
    }
  }

  lemma SortPlaces(k: SortKey, s: seq<Bundle>, b: Bundle, c: Bundle) returns (i: nat, j: nat)
    requires b in s && c in s && Before(k, b, c)
    ensures i < j < |Sort(k, s)| && Sort(k, s)[i] == b && Sort(k, s)[j] == c
  {
    hide Sort, Insert;
    SortMembers(k, s);
    SortSorted(k, s);
    var t := Sort(k, s);
    i :| 0 <= i < |t| && t[i] == b;
    j :| 0 <= j < |t| && t[j] == c;
  }

  // ---------------------------------------------------------------- ordered policies

  lemma TierPlaces(el: seq<Bundle>, next: Option<real>, b: Bundle, c: Bundle) returns (i: nat, j: nat)
    requires b in el && c in el && Ahead(UtilityAware, next, b, c)
    ensures var r := Ranked(UtilityAware, el, next); i < j < |r| && r[i] == b && r[j] == c
  {
    var risky, safe := Select(AtRisk(next), el), Select(CanWait(next), el);
    SelectMember(AtRisk(next), el);
    SelectMember(CanWait(next), el);
    SortMembers(ByUtility, risky);
    SortMembers(ByDensity, safe);
    hide Sort, Select;
    if Doomed(b, next) && Doomed(c, next) {
      i, j := SortPlaces(ByUtility, risky, b, c);
    } else if Doomed(b, next) {
      var first, second := Sort(ByUtility, risky), Sort(ByDensity, safe);
      assert b in first && c in second;
      i :| 0 <= i < |first| && first[i] == b;
      j :| 0 <= j < |second| && second[j] == c;
      j := |first| + j;
    } else {
      i, j := SortPlaces(ByDensity, safe, b, c);
      var n := |Sort(ByUtility, risky)|;
      i, j := n + i, n + j;
    }
  }

  lemma RankedPlaces(p: Policy, el: seq<Bundle>, next: Option<real>, b: Bundle, c: Bundle) returns (i: nat, j: nat)
    requires !RoundRobin(p) && b in el && c in el && Ahead(p, next, b, c)
    ensures var r := Ranked(p, el, next); i < j < |r| && r[i] == b && r[j] == c
  {
    hide Sort, Select;
    match p
    case Fifo => i, j := SortPlaces(ByIngress, el, b, c);
    case StrictPriority => i, j := SortPlaces(ByRank, el, b, c);
    case DeadlineAware => i, j := SortPlaces(ByExpiration, el, b, c);
    case UtilityPure => i, j := SortPlaces(ByDensity, el, b, c);
    case UtilityAware => i, j := TierPlaces(el, next, b, c);
  }

  lemma OrderedOvertakes(
      cfg: Config, carry: Carry, el: seq<Bundle>, budget: real, next: Option<real>, b: Bundle, c: Bundle)
    requires !RoundRobin(cfg.policy) && Distinct(el) && b in el && c in el && Ahead(cfg.policy, next, b, c)
    requires var sent := Choose(cfg, carry, el, budget, next).sent; b !in sent && c in sent
    ensures c.size < b.size && !(cfg.policy == Fifo && !cfg.fifoSkipOver)
  {
    hide Greedy, Ranked, Ahead;
    var ranked := Ranked(cfg.policy, el, next);
    RankedPermutes(cfg.policy, el, next);
    SubDistinct(ranked, el);
    var i, j := RankedPlaces(cfg.policy, el, next, b, c);
    OvertakenInList(ranked, budget, cfg.policy == Fifo && !cfg.fifoSkipOver, i, j);
  }

  // ---------------------------------------------------------------- emergency traffic in the round robin

  lemma UrgentUnsent(el: seq<Bundle>, budget: real, b: Bundle)
    requires b in el && b.cls == Emergency && b !in Urgent(el, budget)
    ensures budget - BitsOf(Urgent(el, budget)) < b.Bits()
  {
    var line := LineOf(Emergency, el);
    LineMembers(Emergency, el);
    GreedyPartition(line, budget, false);
    hide Greedy, Passed, LineOf;
    assert b in multiset(line);
    assert b !in multiset(Greedy(line, budget, false));
    assert b in multiset(Passed(line, budget, false));
    GreedyExhausts(line, budget, b);
  }

  lemma SharedFitsLeft(skip: bool, carry: Carry, el: seq<Bundle>, budget: real, c: Bundle)
    requires GoodCarry(carry) && 0.0 <= budget && c in Shared(skip, carry, el, budget).sent
    ensures c.Bits() <= budget - BitsOf(Urgent(el, budget))
  {
    hide Shared, Opening, Urgent, Pool;
    SharedFacts(skip, carry, el, budget);
    OpeningFacts(carry, el, budget);
    BytesMember(Shared(skip, carry, el, budget).sent, c);
    assert BitsOf([]) == 0.0;
  }

  lemma UrgentOvertakes(el: seq<Bundle>, budget: real, b: Bundle, c: Bundle)
    requires Distinct(el) && b in el && b.cls == Emergency && b.ingress < c.ingress
    requires b !in Urgent(el, budget) && c in Urgent(el, budget)
    ensures c.size < b.size
  {
    var line := Select(OfClass(Emergency), el);
    LineMembers(Emergency, el);
    GreedyPartition(LineOf(Emergency, el), budget, false);
    assert c in multiset(LineOf(Emergency, el)) by {
      assert c in multiset(Urgent(el, budget));
    }
    SelectMember(OfClass(Emergency), el);
    hide Greedy, Passed, Sort, Select;
    var i, j := SortPlaces(ByIngress, line, b, c);
    OvertakenInList(LineOf(Emergency, el), budget, false, i, j);
  }

  // ---------------------------------------------------------------- one class's line in the round robin

  ghost predicate Earlier(s: seq<Bundle>, b: Bundle, c: Bundle) {
    exists i, j :: 0 <= i < j < |s| && s[i] == b && s[j] == c
  }

  lemma EarlierCons(s: seq<Bundle>, b: Bundle, c: Bundle)
    requires s != [] && Earlier(s, b, c)
    ensures s[0] == b ==> c in s[1..]
    ensures s[0] != b ==> Earlier(s[1..], b, c)
  {
    var i, j :| 0 <= i < j < |s| && s[i] == b && s[j] == c;
    assert s[1..][j - 1] == c;
    if s[0] != b {
      assert s[1..][i - 1] == b;
    }
  }

  lemma ConsEarlier(s: seq<Bundle>, b: Bundle, c: Bundle)
    requires s != [] && (if s[0] == b then c in s[1..] else Earlier(s[1..], b, c))
    ensures Earlier(s, b, c)
  {
    if s[0] == b {
      var j :| 0 <= j < |s[1..]| && s[1..][j] == c;
      assert s[0] == b && s[j + 1] == c;
    } else {
      var i, j :| 0 <= i < j < |s[1..]| && s[1..][i] == b && s[1..][j] == c;
      assert s[i + 1] == b && s[j + 1] == c;
    }
  }

  lemma {:induction false} PassedKeepsMember(s: seq<Bundle>, budget: real, stop: bool, c: Bundle)
    requires c in s && c !in Greedy(s, budget, stop)
    ensures c in Passed(s, budget, stop)
  {
    if s[0].Bits() <= budget {
      PassedKeepsMember(s[1..], budget - s[0].Bits(), stop, c);
    } else if !stop && c != s[0] {
      PassedKeepsMember(s[1..], budget, stop, c);
    }
  }

  // Two bundles that both stay in line stay in order.
  lemma {:induction false} PassedKeepsOrder(s: seq<Bundle>, budget: real, stop: bool, b: Bundle, c: Bundle)
    requires Earlier(s, b, c) && b !in Greedy(s, budget, stop) && c !in Greedy(s, budget, stop)
    ensures Earlier(Passed(s, budget, stop), b, c)
  {
    hide Earlier;
    EarlierNonEmpty(s, b, c);
    EarlierCons(s, b, c);
    if s[0].Bits() <= budget {
      PassedKeepsOrder(s[1..], budget - s[0].Bits(), stop, b, c);
    } else if !stop {
      if s[0] == b {
        PassedKeepsMember(s[1..], budget, stop, c);
      } else {
        PassedKeepsOrder(s[1..], budget, stop, b, c);
      }
      ConsEarlier(Passed(s, budget, stop), b, c);
    }
  }

  lemma EarlierNonEmpty(s: seq<Bundle>, b: Bundle, c: Bundle)
    requires Earlier(s, b, c)
    ensures s != []
  {
  }

  // Bundle c is still in the line of class d, behind b.
  ghost predicate Behind(s: Share, d: TrafficClass, b: Bundle, c: Bundle) {
    && Distinct(s.Line(d)) && Earlier(s.Line(d), b, c) && c !in s.sent
    && forall e :: e != d ==> c !in s.Line(e)
  }

  // If c went out and b did not, c is smaller and the round robin was the skip-over one.
  ghost predicate Justified(skip: bool, r: Share, b: Bundle, c: Bundle) {
    b !in r.sent && c in r.sent ==> skip && c.size < b.size
  }

  lemma TurnFields(skip: bool, s: Share, d: TrafficClass, grant: real)
    ensures var r := Turn(skip, s, d, grant);
            var room := Min(s.Credit(d) + grant, s.left);
            && r.sent == s.sent + Greedy(s.Line(d), room, !skip)
            && r.Line(d) == Passed(s.Line(d), room, !skip)
            && forall e :: e != d ==> r.Line(e) == s.Line(e)
  {
  }

  lemma OwnTurnOrder(skip: bool, s: Share, d: TrafficClass, grant: real, b: Bundle, c: Bundle)
    requires Behind(s, d, b, c)
    ensures var r := Turn(skip, s, d, grant);
            Justified(skip, r, b, c) && (b in r.sent || c in r.sent || Behind(r, d, b, c))
  {
    hide Greedy, Passed, Turn, Share.Line, Share.Credit, Min, Earlier, Distinct;
    var line, room := s.Line(d), Min(s.Credit(d) + grant, s.left);
    TurnFields(skip, s, d, grant);
    if b !in Greedy(line, room, !skip) {
      if c in Greedy(line, room, !skip) {
        EarlierOvertaken(line, room, !skip, b, c);
      } else {
        PassedKeepsOrder(line, room, !skip, b, c);
        GreedyPartition(line, room, !skip);
        SubDistinct(Passed(line, room, !skip), line);
      }
    }
  }

  lemma EarlierOvertaken(s: seq<Bundle>, budget: real, stop: bool, b: Bundle, c: Bundle)
    requires Distinct(s) && Earlier(s, b, c) && b !in Greedy(s, budget, stop) && c in Greedy(s, budget, stop)
    ensures !stop && c.size < b.size
  {
    hide Greedy;
    var i, j :| 0 <= i < j < |s| && s[i] == b && s[j] == c;
    OvertakenInList(s, budget, stop, i, j);
  }

  lemma AbsentStays(s: seq<Bundle>, budget: real, stop: bool, c: Bundle)
    requires c !in s
    ensures c !in Greedy(s, budget, stop) && c !in Passed(s, budget, stop)
  {
    var out, kept := Greedy(s, budget, stop), Passed(s, budget, stop);
    GreedyPartition(s, budget, stop);
    hide Greedy, Passed;
    assert multiset(s)[c] == multiset(out)[c] + multiset(kept)[c];
    assert (c in out <==> c in multiset(out)) && (c in kept <==> c in multiset(kept));
  }

  lemma OtherTurnOrder(skip: bool, s: Share, d: TrafficClass, e: TrafficClass, grant: real, b: Bundle, c: Bundle)
    requires Behind(s, d, b, c) && e != d
    ensures Behind(Turn(skip, s, e, grant), d, b, c)
  {
    hide Greedy, Passed, Turn, Share.Line, Share.Credit, Min, Earlier, Distinct;
    TurnFields(skip, s, e, grant);
    AbsentStays(s.Line(e), Min(s.Credit(e) + grant, s.left), !skip, c);
  }

  lemma {:induction false} TurnsOrder(
      skip: bool, s: Share, cs: seq<TrafficClass>, budget: real, total: real, d: TrafficClass, b: Bundle, c: Bundle)
    requires 0.0 < total && Behind(s, d, b, c)
    ensures var r := Turns(skip, s, cs, budget, total);
            Justified(skip, r, b, c) && (b in r.sent || c in r.sent || Behind(r, d, b, c))
    decreases |cs|
  {
    hide Behind, Turn;
    if cs == [] {
      BehindUnsent(skip, s, d, b, c);
    } else {
      var grant := budget * (Weight(cs[0]) / total);
      var t := Turn(skip, s, cs[0], grant);
      if cs[0] == d {
        OwnTurnOrder(skip, s, d, grant, b, c);
      } else {
        OtherTurnOrder(skip, s, d, cs[0], grant, b, c);
        BehindUnsent(skip, t, d, b, c);
      }
      TurnsSentGrows(skip, t, cs[1..], budget, total, b);
      TurnsSentGrows(skip, t, cs[1..], budget, total, c);
      if b !in t.sent && c !in t.sent {
        TurnsOrder(skip, t, cs[1..], budget, total, d, b, c);
      }
    }
  }

  lemma BehindUnsent(skip: bool, s: Share, d: TrafficClass, b: Bundle, c: Bundle)
    requires Behind(s, d, b, c)
    ensures c !in s.sent && Justified(skip, s, b, c)
  {
  }

  lemma {:induction false} TurnsSentGrows(
      skip: bool, s: Share, cs: seq<TrafficClass>, budget: real, total: real, b: Bundle)
    requires 0.0 < total
    ensures b in s.sent ==> b in Turns(skip, s, cs, budget, total).sent
    decreases |cs|
  {
    if cs != [] {
      var grant := budget * (Weight(cs[0]) / total);
      assert b in s.sent ==> b in Turn(skip, s, cs[0], grant).sent;
      hide Turn;
      TurnsSentGrows(skip, Turn(skip, s, cs[0], grant), cs[1..], budget, total, b);
    }
  }

  lemma RoundOrder(skip: bool, s: Share, order: seq<TrafficClass>, d: TrafficClass, b: Bundle, c: Bundle)
    requires Goes(s, order) && Behind(s, d, b, c)
    ensures var r := Round(skip, s, order);
            Justified(skip, r, b, c) && (b in r.sent || c in r.sent || Behind(r, d, b, c))
  {
    BackloggedFacts(s, order);
    TurnsOrder(skip, s, Backlogged(s, order), s.left, TotalWeight(Backlogged(s, order)), d, b, c);
  }

  lemma RoundSentGrows(skip: bool, s: Share, order: seq<TrafficClass>, b: Bundle)
    requires Goes(s, order)
    ensures b in s.sent ==> b in Round(skip, s, order).sent
  {
    BackloggedFacts(s, order);
    TurnsSentGrows(skip, s, Backlogged(s, order), s.left, TotalWeight(Backlogged(s, order)), b);
  }

  lemma {:induction false} RoundsSentGrows(skip: bool, s: Share, order: seq<TrafficClass>, rnd: nat, b: Bundle)
    requires rnd <= LAST_ROUND
    ensures b in s.sent ==> b in Rounds(skip, s, order, rnd).sent
    decreases LAST_ROUND - rnd
  {
    hide Goes, Round;
    if Goes(s, order) {
      RoundSentGrows(skip, s, order, b);
      if rnd < LAST_ROUND {
        RoundsSentGrows(skip, Round(skip, s, order), order, rnd + 1, b);
      }
    }
  }

  lemma {:induction false} RoundsOrder(
      skip: bool, s: Share, order: seq<TrafficClass>, rnd: nat, d: TrafficClass, b: Bundle, c: Bundle)
    requires rnd <= LAST_ROUND && Behind(s, d, b, c)
    ensures Justified(skip, Rounds(skip, s, order, rnd), b, c)
    decreases LAST_ROUND - rnd
  {
    hide Goes, Round, Behind;
    BehindUnsent(skip, s, d, b, c);
    if Goes(s, order) {
      var r := Round(skip, s, order);
      RoundOrder(skip, s, order, d, b, c);
      if rnd < LAST_ROUND {
        RoundsSentGrows(skip, r, order, rnd + 1, b);
        RoundsSentGrows(skip, r, order, rnd + 1, c);
        if b !in r.sent && c !in r.sent {
          RoundsOrder(skip, r, order, rnd + 1, d, b, c);
        }
      }
    }
  }

  lemma OpeningBehind(carry: Carry, el: seq<Bundle>, budget: real, b: Bundle, c: Bundle)
    requires Distinct(el) && b in el && c in el && b.cls == c.cls != Emergency && b.ingress < c.ingress
    ensures Behind(Opening(carry, el, budget), b.cls, b, c)
  {
    var o, d := Opening(carry, el, budget), b.cls;
    LineMembers(d, el);
    hide Urgent, Sort, Select;
    SelectMember(OfClass(d), el);
    var i, j := SortPlaces(ByIngress, Select(OfClass(d), el), b, c);
    assert o.Line(d) == LineOf(d, el);
    assert LineOf(d, el)[i] == b && LineOf(d, el)[j] == c;
    forall e | e != d ensures c !in o.Line(e) {
      LineMembers(e, el);
    }
  }

  lemma SharedOvertakes(skip: bool, carry: Carry, el: seq<Bundle>, budget: real, b: Bundle, c: Bundle)
    requires Distinct(el) && b in el && c in el && b.cls == c.cls != Emergency && b.ingress < c.ingress
    ensures Justified(skip, Shared(skip, carry, el, budget), b, c)
  {
    hide Opening, Rounds, VisitOrder, Behind;
    OpeningBehind(carry, el, budget, b, c);
    RoundsOrder(skip, Opening(carry, el, budget), VisitOrder(carry.rotation), 0, b.cls, b, c);
  }

  // ---------------------------------------------------------------- every policy

  // When b should go first, is not sent, and c is, then c is strictly smaller than b: every policy lets
  // a bundle be overtaken only because it does not fit. Strict first-in first-out, and the standard
  // round robin within a class, let nothing overtake.
  lemma OvertakenOnlyBySmaller(
      cfg: Config, carry: Carry, el: seq<Bundle>, budget: real, next: Option<real>, b: Bundle, c: Bundle)
    requires GoodCarry(carry) && 0.0 <= budget && Distinct(el) && b in el && c in el
    requires Ahead(cfg.policy, next, b, c)
    requires var sent := Choose(cfg, carry, el, budget, next).sent; b !in sent && c in sent
    ensures c.size < b.size && !NeverOvertaken(cfg, b)
  {
    hide Greedy, Shared, Ranked, Urgent;
    if RoundRobin(cfg.policy) {
      var skip := cfg.policy == WfqSkipOver;
      UrgentMembers(el, budget);
      if b.cls != Emergency {
        SharedOvertakes(skip, carry, el, budget, b, c);
      } else if c in Urgent(el, budget) {
        UrgentOvertakes(el, budget, b, c);
      } else {
        UrgentUnsent(el, budget, b);
        SharedFitsLeft(skip, carry, el, budget, c);
      }
    } else {
      OrderedOvertakes(cfg, carry, el, budget, next, b, c);
    }
  }

  lemma UrgentMembers(el: seq<Bundle>, budget: real)
    ensures forall b :: b in Urgent(el, budget) ==> b.cls == Emergency
  {
    LineMembers(Emergency, el);
    GreedyPartition(LineOf(Emergency, el), budget, false);
    hide Greedy, Passed, LineOf;
    forall b | b in Urgent(el, budget) ensures b in LineOf(Emergency, el) {
      assert b in multiset(Urgent(el, budget));
      assert b in multiset(LineOf(Emergency, el));
    }
  }

  // ---------------------------------------------------------------- density and rank

  // The density order puts b before c exactly when b's utility for c's size exceeds c's utility for b's.
  lemma DensityOrder(b: Bundle, c: Bundle)
    ensures Before(ByDensity, b, c) <==> Utility(c) * b.size as real < Utility(b) * c.size as real
  {
    CrossMultiply(Utility(b), b.size as real, Utility(c), c.size as real);
  }

  lemma CrossMultiply(u: real, m: real, v: real, n: real)
    requires 0.0 < m && 0.0 < n
    ensures v / n < u / m <==> v * m < u * n
  {
    var x, y := u / m, v / n;
    assert u == x * m && v == y * n;
    assert v * m == y * (n * m) && u * n == x * (n * m);
    if y < x { Scale(n * m, y, x); }
    if x <= y { Scale(n * m, x, y); }
  }

  lemma Scale(k: real, a: real, b: real)
    requires 0.0 < k && a <= b
    ensures k * a <= k * b && (a < b ==> k * a < k * b)
  {
  }

  // Between classes that is a bound on the ratio of the sizes: density puts an emergency bundle before a
  // telemetry one, and a telemetry bundle before a science one, exactly while the first is less than ten
  // times the size of the second. Media has no utility and always comes last.
  lemma DensityKeepsRankIff(b: Bundle, c: Bundle)
    ensures b.cls == Emergency && c.cls == Telemetry ==>
              (Before(ByDensity, b, c) <==> b.size < 10 * c.size)
    ensures b.cls == Telemetry && c.cls == ScienceBulk ==>
              (Before(ByDensity, b, c) <==> b.size < 10 * c.size)
    ensures b.cls == Emergency && c.cls == ScienceBulk ==>
              (Before(ByDensity, b, c) <==> b.size < 100 * c.size)
    ensures b.cls != Media && c.cls == Media ==> Before(ByDensity, b, c)
  {
    DensityOrder(b, c);
  }

  // So a long emergency bundle is put behind a short telemetry one.
  lemma DensityInvertsRank()
    ensures var b, c := Bundle(1, Emergency, 11, 0.0, 1.0), Bundle(2, Telemetry, 1, 0.0, 1.0);
            b.Rank() < c.Rank() && Before(ByDensity, c, b)
  {
    var b, c := Bundle(1, Emergency, 11, 0.0, 1.0), Bundle(2, Telemetry, 1, 0.0, 1.0);
    DensityOrder(c, b);
  }
}
