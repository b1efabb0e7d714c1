/** Weighted fairness of the batch round robin inside one window: classes that stay backlogged share the
    bits in proportion to their weights, up to one deficit each. */
module WindowFairness {
  import opened Traffic
  import opened Telemetry
  import opened Selection
  import opened Drain
  import opened Drr
  import opened Policies

  function SentBits(s: Share, c: TrafficClass): real {
    BitsOf(Select(OfClass(c), s.sent))
  }

  // Every line holds bundles of its own class only.
  ghost predicate Pure(s: Share) {
    forall c, b :: b in s.Line(c) ==> b.cls == c
  }

  // Between s and r class c was granted `quantum` bits of deficit and paid for what it sent.
  ghost predicate Paid(s: Share, r: Share, c: TrafficClass, quantum: real) {
    r.Credit(c) == s.Credit(c) + quantum - (SentBits(r, c) - SentBits(s, c))
  }

  lemma PaidTwice(s: Share, t: Share, r: Share, c: TrafficClass, p: real, q: real)
    requires Paid(s, t, c, p) && Paid(t, r, c, q)
    ensures Paid(s, r, c, p + q)
  {
  }

  // ---------------------------------------------------------------- one turn

  lemma PassedMembers(s: seq<Bundle>, budget: real, stop: bool)
    ensures forall b :: b in Passed(s, budget, stop) ==> b in s
  {
    GreedyPartition(s, budget, stop);
    forall b | b in Passed(s, budget, stop) ensures b in s {
      assert b in multiset(Passed(s, budget, stop));
      assert b in multiset(s);
    }
  }

  lemma TurnPure(skip: bool, s: Share, d: TrafficClass, grant: real)
    requires Pure(s)
    ensures Pure(Turn(skip, s, d, grant))
  {
    var r := Turn(skip, s, d, grant);
    PassedMembers(s.Line(d), Min(s.Credit(d) + grant, s.left), !skip);
    hide Greedy, Passed, BitsOf;
    forall c, b | b in r.Line(c) ensures b.cls == c {
      assert b in s.Line(c);
    }
  }

  lemma TurnServes(skip: bool, s: Share, d: TrafficClass, grant: real, c: TrafficClass)
    requires Pure(s)
    ensures var r := Turn(skip, s, d, grant);
            SentBits(r, c) == SentBits(s, c) + if c == d then s.left - r.left else 0.0
  {
    var room := Min(s.Credit(d) + grant, s.left);
    var out := Greedy(s.Line(d), room, !skip);
    GreedyMembers(s.Line(d), room, !skip);
    SelectAppend(OfClass(c), s.sent, out);
    BitsAppend(Select(OfClass(c), s.sent), Select(OfClass(c), out));
    if c == d {
      SelectAll(OfClass(c), out);
    } else {
      SelectNone(OfClass(c), out);
    }
  }

  lemma TurnPays(skip: bool, s: Share, d: TrafficClass, grant: real, c: TrafficClass)
    requires Pure(s) && Sound(s) && 0.0 <= grant
    ensures var r := Turn(skip, s, d, grant);
            && (c != d ==> Paid(s, r, c, 0.0) && r.Line(c) == s.Line(c))
            && (c == d && r.Line(c) != [] ==> Paid(s, r, c, grant))
  {
    hide Turn, SentBits;
    TurnServes(skip, s, d, grant, c);
    if c == d {
      TurnFacts(skip, s, c, grant);
    } else {
      TurnElsewhere(skip, s, d, grant, c);
    }
  }

  // ---------------------------------------------------------------- one round

  function Quantum(budget: real, total: real, c: TrafficClass): real
    requires 0.0 < total
  {
    budget * (Weight(c) / total)
  }

  lemma {:induction false} TurnsPay(
      skip: bool, s: Share, cs: seq<TrafficClass>, budget: real, total: real, c: TrafficClass)
    requires Pure(s) && Sound(s) && 0.0 <= budget && 0.0 < total <= 12.0 && NoRepeat(cs)
    ensures var r := Turns(skip, s, cs, budget, total);
            && Pure(r)
            && (c !in cs ==> Paid(s, r, c, 0.0) && r.Line(c) == s.Line(c))
            && (c in cs && r.Line(c) != [] ==> Paid(s, r, c, Quantum(budget, total, c)))
    decreases |cs|
  {
    hide Turn, Pure, Sound, Paid;
    if cs == [] {
      NothingPaid(s, c);
    } else {
      var grant := Quantum(budget, total, cs[0]);
      var t := Turn(skip, s, cs[0], grant);
      var r := Turns(skip, t, cs[1..], budget, total);
      GrantAtLeastTwelfth(cs[0], budget, total);
      TurnSound(skip, s, cs[0], grant);
      TurnPure(skip, s, cs[0], grant);
      TurnPays(skip, s, cs[0], grant, c);
      TurnsPay(skip, t, cs[1..], budget, total, c);
      if c == cs[0] {
        if r.Line(c) != [] { PaidTwice(s, t, r, c, grant, 0.0); }
      } else if c in cs {
        if r.Line(c) != [] { PaidTwice(s, t, r, c, 0.0, Quantum(budget, total, c)); }
      } else {
        PaidTwice(s, t, r, c, 0.0, 0.0);
      }
    }
  }

  lemma NothingPaid(s: Share, c: TrafficClass)
    ensures Paid(s, s, c, 0.0) && Due(c, 0.0) == 0.0
  {
  }

  function RoundWeight(s: Share, order: seq<TrafficClass>): real {
    TotalWeight(Backlogged(s, order))
  }

  lemma RoundPays(skip: bool, s: Share, order: seq<TrafficClass>, c: TrafficClass)
    requires Pure(s) && Sound(s) && VisitsShared(order) && Goes(s, order) && c in order
    ensures var r := Round(skip, s, order);
            && Pure(r) && Sound(r) && 0.0 < RoundWeight(s, order)
            && (s.Line(c) != [] && r.Line(c) != [] ==> Paid(s, r, c, Quantum(s.left, RoundWeight(s, order), c)))
  {
    hide Pure, Paid, Turns;
    var cs := Backlogged(s, order);
    BackloggedFacts(s, order);
    BackloggedNoRepeat(s, order);
    TurnsSound(skip, s, cs, s.left, TotalWeight(cs));
    TurnsPay(skip, s, cs, s.left, TotalWeight(cs), c);
  }

  // ---------------------------------------------------------------- a stretch of rounds

  // The share after up to n rounds.
  function Taken(skip: bool, s: Share, order: seq<TrafficClass>, n: nat): Share
    decreases n
  {
    if n == 0 || !Goes(s, order) then s else Taken(skip, Round(skip, s, order), order, n - 1)
  }

  // The n rounds all take place, and class c has something in line before each and after the last.
  ghost predicate Steady(skip: bool, s: Share, order: seq<TrafficClass>, n: nat, c: TrafficClass)
    decreases n
  {
    s.Line(c) != [] && (0 < n ==> Goes(s, order) && Steady(skip, Round(skip, s, order), order, n - 1, c))
  }

  // What the n rounds grant per unit of weight.
  ghost function PerUnit(skip: bool, s: Share, order: seq<TrafficClass>, n: nat): real
    requires VisitsShared(order) && Sound(s)
    decreases n
  {
    if n == 0 || !Goes(s, order) then 0.0
    else
      RoundFactsFor(skip, s, order);
      s.left / RoundWeight(s, order) + PerUnit(skip, Round(skip, s, order), order, n - 1)
  }

  lemma RoundFactsFor(skip: bool, s: Share, order: seq<TrafficClass>)
    requires VisitsShared(order) && Sound(s) && Goes(s, order)
    ensures Sound(Round(skip, s, order)) && 0.0 < RoundWeight(s, order)
  {
    BackloggedFacts(s, order);
    TurnsSound(skip, s, Backlogged(s, order), s.left, TotalWeight(Backlogged(s, order)));
  }

  // The share of class c in g bits per unit of weight.
  function Due(c: TrafficClass, g: real): real {
    Weight(c) * g
  }

  lemma DueTwice(c: TrafficClass, g: real, h: real)
    ensures Due(c, g) + Due(c, h) == Due(c, g + h)
  {
  }

  lemma QuantumPerWeight(budget: real, total: real, c: TrafficClass)
    requires 0.0 < total
    ensures Quantum(budget, total, c) == Due(c, budget / total)
  {
    var w := Weight(c);
    assert budget * (w / total) == (budget * w) / total;
    assert w * (budget / total) == (w * budget) / total;
  }

  // Whatever a steady class has sent and whatever it still holds as deficit is its weight times what the
  // rounds granted per unit, beyond the deficit it began with.
  lemma {:induction false} SteadyPays(skip: bool, s: Share, order: seq<TrafficClass>, n: nat, c: TrafficClass)
    requires Pure(s) && Sound(s) && VisitsShared(order) && c in order && Steady(skip, s, order, n, c)
    ensures Paid(s, Taken(skip, s, order, n), c, Due(c, PerUnit(skip, s, order, n)))
    ensures Sound(Taken(skip, s, order, n)) && Taken(skip, s, order, n).Line(c) != []
    decreases n
  {
    hide Pure, Paid, Goes, Round, RoundWeight, Quantum, Sound, VisitsShared, Due;
    if n == 0 {
      NothingPaid(s, c);
    } else {
      var t := Round(skip, s, order);
      RoundPays(skip, s, order, c);
      SteadyNow(skip, t, order, n - 1, c);
      var g, rest := s.left / RoundWeight(s, order), PerUnit(skip, t, order, n - 1);
      SteadyPays(skip, t, order, n - 1, c);
      QuantumPerWeight(s.left, RoundWeight(s, order), c);
      PaidTwice(s, t, Taken(skip, t, order, n - 1), c, Due(c, g), Due(c, rest));
      DueTwice(c, g, rest);
    }
  }

  lemma SteadyNow(skip: bool, s: Share, order: seq<TrafficClass>, n: nat, c: TrafficClass)
    requires Steady(skip, s, order, n, c)
    ensures s.Line(c) != []
  {
  }

  // ---------------------------------------------------------------- two steady classes

  // Bits sent between s and r per unit of weight.
  function PerWeight(s: Share, r: Share, c: TrafficClass): real {
    (SentBits(r, c) - SentBits(s, c)) / Weight(c)
  }

  lemma ShareNearGrant(s: Share, r: Share, c: TrafficClass, g: real, m: real)
    requires Paid(s, r, c, Due(c, g))
    requires 0.0 <= s.Credit(c) <= m && 0.0 <= r.Credit(c) <= m
    ensures g - m / Weight(c) <= PerWeight(s, r, c) <= g + m / Weight(c)
  {
    var w := Weight(c);
    var sent := SentBits(r, c) - SentBits(s, c);
    assert sent == w * g + (s.Credit(c) - r.Credit(c));
    DivideShare(w, g, sent, m);
  }

  lemma DivideShare(w: real, g: real, sent: real, m: real)
    requires 1.0 <= w && w * g - m <= sent <= w * g + m
    ensures g - m / w <= sent / w <= g + m / w
  {
    assert w * (m / w) == m && w * (sent / w) == sent;
    var x, y := m / w, sent / w;
    if y < g - x { MulStrict(w, y, g - x); }
    if g + x < y { MulStrict(w, g + x, y); }
  }

  lemma MulStrict(w: real, a: real, b: real)
    requires 0.0 < w && a < b
    ensures w * a < w * b
  {
  }

  lemma NoRounds(skip: bool, s: Share, order: seq<TrafficClass>)
    ensures Taken(skip, s, order, 0) == s
  {
  }

  lemma OrderGood(order: seq<TrafficClass>)
    requires VisitsShared(order)
    ensures GoodOrder(order)
  {
  }

  // A steady class whose head still fits the budget holds less deficit than its head needs.
  lemma {:induction false} SteadyDeficit(
      skip: bool, s: Share, order: seq<TrafficClass>, n: nat, c: TrafficClass, m: real)
    requires 0 < n && Sound(s) && VisitsShared(order) && c in order && Steady(skip, s, order, n, c)
    requires HeadFits(Taken(skip, s, order, n), c) && Taken(skip, s, order, n).Line(c)[0].Bits() <= m
    ensures Taken(skip, s, order, n).Credit(c) <= m
    decreases n
  {
    hide Round, VisitsShared, Sound;
    var t := Round(skip, s, order);
    RoundFactsFor(skip, s, order);
    SteadyNow(skip, t, order, n - 1, c);
    if n == 1 {
      OrderGood(order);
      RoundFacts(skip, s, order, c);
    } else {
      SteadyDeficit(skip, t, order, n - 1, c, m);
    }
  }

  // While both heads still fit the budget, two classes that stay backlogged have sent bits in proportion
  // to their weights, up to m bits each: m bounds the deficits they came with and the heads in line.
  lemma EarlyRoundsAreFair(
      skip: bool, s: Share, order: seq<TrafficClass>, n: nat, i: TrafficClass, j: TrafficClass, m: real)
    requires Pure(s) && Sound(s) && VisitsShared(order) && i in order && j in order
    requires Steady(skip, s, order, n, i) && Steady(skip, s, order, n, j)
    requires s.Credit(i) <= m && s.Credit(j) <= m
    requires var r := Taken(skip, s, order, n);
             HeadFits(r, i) && r.Line(i)[0].Bits() <= m && HeadFits(r, j) && r.Line(j)[0].Bits() <= m
    ensures var r := Taken(skip, s, order, n);
            var slack := m / Weight(i) + m / Weight(j);
            -slack <= PerWeight(s, r, i) - PerWeight(s, r, j) <= slack
  {
    hide Pure, Paid, Taken, Steady, VisitsShared, Weight, PerWeight, PerUnit, Due, Share.Line;
    if 0 < n {
      SteadyDeficit(skip, s, order, n, i, m);
      SteadyDeficit(skip, s, order, n, j, m);
    } else {
      NoRounds(skip, s, order);
    }
    RoundsBalance(skip, s, order, n, i, j, m);
  }

  // Deficits of at most m before and after bound the imbalance.
  lemma RoundsBalance(
      skip: bool, s: Share, order: seq<TrafficClass>, n: nat, i: TrafficClass, j: TrafficClass, m: real)
    requires Pure(s) && Sound(s) && VisitsShared(order) && i in order && j in order
    requires Steady(skip, s, order, n, i) && Steady(skip, s, order, n, j)
    requires s.Credit(i) <= m && s.Credit(j) <= m
    requires var r := Taken(skip, s, order, n); r.Credit(i) <= m && r.Credit(j) <= m
    ensures var r := Taken(skip, s, order, n);
            var slack := m / Weight(i) + m / Weight(j);
            -slack <= PerWeight(s, r, i) - PerWeight(s, r, j) <= slack
  {
    hide Pure, Paid, Taken, Steady, VisitsShared, Weight, PerWeight, PerUnit, Due, Share.Line;
    var r, g := Taken(skip, s, order, n), PerUnit(skip, s, order, n);
    SteadyPays(skip, s, order, n, i);
    SteadyPays(skip, s, order, n, j);
    ShareNearGrant(s, r, i, g, m);
    ShareNearGrant(s, r, j, g, m);
  }

  // ---------------------------------------------------------------- the round that uses up the budget

  // No bundle in line is of more than m bits.
  ghost predicate Small(s: Share, m: real) {
    forall c, b :: b in s.Line(c) ==> b.Bits() <= m
  }

  lemma TurnSmall(skip: bool, s: Share, d: TrafficClass, grant: real, m: real)
    requires Small(s, m)
    ensures Small(Turn(skip, s, d, grant), m)
  {
    var r := Turn(skip, s, d, grant);
    PassedMembers(s.Line(d), Min(s.Credit(d) + grant, s.left), !skip);
    hide Greedy, Passed, BitsOf;
    forall c, b | b in r.Line(c) ensures b.Bits() <= m {
      assert b in s.Line(c);
    }
  }

  lemma {:induction false} TurnsSmall(
      skip: bool, s: Share, cs: seq<TrafficClass>, budget: real, total: real, m: real)
    requires Small(s, m) && 0.0 < total
    ensures Small(Turns(skip, s, cs, budget, total), m)
    decreases |cs|
  {
    hide Small, Turn;
    if cs != [] {
      var grant := budget * (Weight(cs[0]) / total);
      TurnSmall(skip, s, cs[0], grant, m);
      TurnsSmall(skip, Turn(skip, s, cs[0], grant), cs[1..], budget, total, m);
    }
  }

  // What a list of classes is granted in one round.
  function Grants(cs: seq<TrafficClass>, budget: real, total: real): real
    requires 0.0 < total
  {
    if cs == [] then 0.0 else Quantum(budget, total, cs[0]) + Grants(cs[1..], budget, total)
  }

  lemma {:induction false} GrantsShare(cs: seq<TrafficClass>, budget: real, total: real)
    requires 0.0 < total
    ensures Grants(cs, budget, total) == budget * (TotalWeight(cs) / total)
  {
    if cs != [] {
      GrantsShare(cs[1..], budget, total);
      var w, rest := Weight(cs[0]), TotalWeight(cs[1..]);
      assert (w + rest) / total == w / total + rest / total;
      assert budget * (w / total + rest / total) == budget * (w / total) + budget * (rest / total);
    }
  }

  lemma {:induction false} GrantsNonNegative(cs: seq<TrafficClass>, budget: real, total: real)
    requires 0.0 <= budget && 0.0 < total <= 12.0
    ensures 0.0 <= Grants(cs, budget, total)
  {
    if cs != [] {
      GrantAtLeastTwelfth(cs[0], budget, total);
      GrantsNonNegative(cs[1..], budget, total);
    }
  }

  // A turn sends no more than its class's deficit and grant, and leaves the class stuck.
  lemma TurnSpends(skip: bool, s: Share, c: TrafficClass, grant: real)
    requires Sound(s) && 0.0 <= grant
    ensures var r := Turn(skip, s, c, grant);
            && s.left - r.left <= s.Credit(c) + grant
            && (r.Line(c) != [] ==>
                  && r.Credit(c) == s.Credit(c) + grant - (s.left - r.left)
                  && (r.Credit(c) < r.Line(c)[0].Bits() || r.left < r.Line(c)[0].Bits()))
  {
    TurnFacts(skip, s, c, grant);
    GreedyWithinBudget(s.Line(c), Min(s.Credit(c) + grant, s.left), !skip);
  }

  // The deficits of n classes.
  function Depth(n: nat, deep: real): real {
    n as real * deep
  }

  lemma DepthStep(n: nat, deep: real)
    requires 0 < n && 0.0 <= deep
    ensures Depth(n, deep) == deep + Depth(n - 1, deep) && 0.0 <= Depth(n - 1, deep)
  {
    assert n as real == 1.0 + (n - 1) as real;
    NotNegative((n - 1) as real, deep);
  }

  // While at most `debt` has been spent beyond what was granted, a class ends its turn with no more
  // deficit than it came with, that debt and one bundle: later grants are still covered by the budget.
  lemma TurnCredit(
      skip: bool, s: Share, c: TrafficClass, grant: real, rest: real, deep: real, m: real, debt: real)
    requires Sound(s) && Small(s, m) && 0.0 <= grant && 0.0 <= rest && 0.0 <= deep && 0.0 <= debt
    requires s.Credit(c) <= deep && grant + rest - debt <= s.left
    ensures var t := Turn(skip, s, c, grant);
            && rest - (debt + deep) <= t.left
            && (t.Line(c) != [] ==> t.Credit(c) <= debt + deep + m)
  {
    hide Turn, Small, Sound, BitsOf;
    TurnSpends(skip, s, c, grant);
    TurnSmall(skip, s, c, grant, m);
    if Turn(skip, s, c, grant).Line(c) != [] { HeadSmall(Turn(skip, s, c, grant), c, m); }
  }

  // Over a round the debt grows by one deficit per class: the grants never exceed the budget.
  lemma {:induction false} TurnsCredit(
      skip: bool, s: Share, cs: seq<TrafficClass>, budget: real, total: real, c: TrafficClass,
      deep: real, m: real, debt: real)
    requires Sound(s) && Small(s, m) && NoRepeat(cs) && c in cs
    requires 0.0 <= budget && 0.0 < total <= 12.0 && 0.0 <= m && 0.0 <= deep
    requires forall d :: d in cs ==> s.Credit(d) <= deep
    requires Grants(cs, budget, total) - debt <= s.left && 0.0 <= debt
    ensures var r := Turns(skip, s, cs, budget, total);
            r.Line(c) != [] ==> r.Credit(c) <= debt + Depth(|cs|, deep) + m
    decreases |cs|
  {
    hide Turn, Small, Sound, Depth, Share.Line, Share.Credit;
    var grant, rest := Quantum(budget, total, cs[0]), Grants(cs[1..], budget, total);
    var t := Turn(skip, s, cs[0], grant);
    GrantAtLeastTwelfth(cs[0], budget, total);
    GrantsNonNegative(cs[1..], budget, total);
    TurnSound(skip, s, cs[0], grant);
    TurnSmall(skip, s, cs[0], grant, m);
    TurnCredit(skip, s, cs[0], grant, rest, deep, m, debt);
    DepthStep(|cs|, deep);
    if cs[0] == c {
      TurnsElsewhere(skip, t, cs[1..], budget, total, c);
    } else {
      forall d | d in cs[1..] ensures t.Credit(d) <= deep {
        TurnElsewhere(skip, s, cs[0], grant, d);
      }
      TurnsCredit(skip, t, cs[1..], budget, total, c, deep, m, debt + deep);
    }
  }

  lemma NotNegative(a: real, b: real)
    requires 0.0 <= a && 0.0 <= b
    ensures 0.0 <= a * b
  {
  }

  lemma HeadSmall(s: Share, c: TrafficClass, m: real)
    requires Small(s, m) && s.Line(c) != []
    ensures s.Line(c)[0].Bits() <= m
  {
    assert s.Line(c)[0] in s.Line(c);
  }

  // Every backlogged class has at most `deep` bits of deficit.
  ghost predicate Shallow(s: Share, deep: real) {
    forall c :: s.Line(c) != [] ==> s.Credit(c) <= deep
  }

  lemma {:induction false} BackloggedLength(s: Share, order: seq<TrafficClass>)
    ensures |Backlogged(s, order)| <= |order|
  {
    if order != [] { BackloggedLength(s, order[1..]); }
  }

  lemma RoundCredit(skip: bool, s: Share, order: seq<TrafficClass>, c: TrafficClass, deep: real, m: real)
    requires Sound(s) && Small(s, m) && VisitsShared(order) && |order| <= 3 && Goes(s, order) && c in order
    requires Shallow(s, deep) && 0.0 <= m && 0.0 <= deep
    ensures var r := Round(skip, s, order);
            && Small(r, m)
            && (r.Line(c) != [] ==> s.Line(c) != [] && r.Credit(c) <= 3.0 * deep + m)
  {
    hide Small, Turns, Shallow, Depth, Grants, Stuck, Share.Credit;
    var cs := Backlogged(s, order);
    BackloggedFacts(s, order);
    BackloggedNoRepeat(s, order);
    BackloggedLength(s, order);
    TurnsSmall(skip, s, cs, s.left, TotalWeight(cs), m);
    RoundFacts(skip, s, order, c);
    if c in cs {
      GrantsShare(cs, s.left, TotalWeight(cs));
      WholeShare(s.left, TotalWeight(cs));
      forall d | d in cs ensures s.Credit(d) <= deep { ShallowAt(s, d, deep); }
      TurnsCredit(skip, s, cs, s.left, TotalWeight(cs), c, deep, m, 0.0);
      AtMostThree(|cs|, deep);
    }
  }

  lemma WholeShare(budget: real, total: real)
    requires 0.0 < total
    ensures budget * (total / total) == budget
  {
  }

  lemma ShallowAt(s: Share, c: TrafficClass, deep: real)
    requires Shallow(s, deep) && s.Line(c) != []
    ensures s.Credit(c) <= deep
  {
  }

  lemma AtMostThree(n: nat, deep: real)
    requires n <= 3 && 0.0 <= deep
    ensures Depth(n, deep) <= 3.0 * deep
  {
  }

  // A round that leaves at least m bits leaves every backlogged class with less deficit than that.
  lemma RoundShallow(skip: bool, s: Share, order: seq<TrafficClass>, m: real)
    requires Sound(s) && Small(s, m) && VisitsShared(order) && |order| <= 3 && Goes(s, order)
    requires m <= Round(skip, s, order).left
    requires forall c :: s.Line(c) != [] ==> c in order
    ensures var r := Round(skip, s, order);
            Shallow(r, m) && Small(r, m) && forall c :: r.Line(c) != [] ==> c in order
  {
    hide Turns, Round;
    var r := Round(skip, s, order);
    RoundSmall(skip, s, order, m);
    forall c | r.Line(c) != [] ensures c in order && r.Credit(c) <= m {
      RoundLines(skip, s, order, c);
      RoundFacts(skip, s, order, c);
      HeadSmall(r, c, m);
    }
  }

  lemma RoundSmall(skip: bool, s: Share, order: seq<TrafficClass>, m: real)
    requires Small(s, m) && Goes(s, order)
    ensures Small(Round(skip, s, order), m)
  {
    hide Small, Turns;
    BackloggedFacts(s, order);
    TurnsSmall(skip, s, Backlogged(s, order), s.left, TotalWeight(Backlogged(s, order)), m);
  }

  lemma RoundLines(skip: bool, s: Share, order: seq<TrafficClass>, c: TrafficClass)
    requires Sound(s) && VisitsShared(order) && Goes(s, order)
    ensures c !in order ==> Round(skip, s, order).Line(c) == s.Line(c)
  {
    hide Turns;
    if c !in order {
      var cs := Backlogged(s, order);
      BackloggedFacts(s, order);
      TurnsElsewhere(skip, s, cs, s.left, TotalWeight(cs), c);
    }
  }

  // ---------------------------------------------------------------- the rounds after it

  // No class sends more than what the budget loses.
  lemma {:induction false} TurnsSend(
      skip: bool, s: Share, cs: seq<TrafficClass>, budget: real, total: real, c: TrafficClass)
    requires Pure(s) && Sound(s) && 0.0 <= budget && 0.0 < total <= 12.0
    ensures var r := Turns(skip, s, cs, budget, total);
            0.0 <= SentBits(r, c) - SentBits(s, c) <= s.left - r.left
    decreases |cs|
  {
    hide Turn, Pure, Sound, SentBits;
    if cs != [] {
      var grant := budget * (Weight(cs[0]) / total);
      var t := Turn(skip, s, cs[0], grant);
      GrantAtLeastTwelfth(cs[0], budget, total);
      TurnSound(skip, s, cs[0], grant);
      TurnPure(skip, s, cs[0], grant);
      TurnServes(skip, s, cs[0], grant, c);
      TurnsSend(skip, t, cs[1..], budget, total, c);
    }
  }

  lemma RoundSends(skip: bool, s: Share, order: seq<TrafficClass>, c: TrafficClass)
    requires Pure(s) && Sound(s) && VisitsShared(order) && Goes(s, order)
    ensures var r := Round(skip, s, order);
            Pure(r) && Sound(r) && 0.0 <= SentBits(r, c) - SentBits(s, c) <= s.left - r.left
  {
    hide Turns, Pure, SentBits;
    var cs := Backlogged(s, order);
    BackloggedFacts(s, order);
    BackloggedNoRepeat(s, order);
    TurnsSound(skip, s, cs, s.left, TotalWeight(cs));
    TurnsPay(skip, s, cs, s.left, TotalWeight(cs), c);
    TurnsSend(skip, s, cs, s.left, TotalWeight(cs), c);
  }

  lemma {:induction false} TakenSend(skip: bool, s: Share, order: seq<TrafficClass>, n: nat, c: TrafficClass)
    requires Pure(s) && Sound(s) && VisitsShared(order)
    ensures var r := Taken(skip, s, order, n);
            && Pure(r) && Sound(r)
            && 0.0 <= SentBits(r, c) - SentBits(s, c) <= s.left - r.left
    decreases n
  {
    hide Goes, Round, Pure, Sound, SentBits, VisitsShared;
    if 0 < n && Goes(s, order) {
      RoundSends(skip, s, order, c);
      TakenSend(skip, Round(skip, s, order), order, n - 1, c);
    }
  }

  lemma {:induction false} TakenSplit(skip: bool, s: Share, order: seq<TrafficClass>, p: nat, n: nat)
    requires p <= n
    ensures Taken(skip, s, order, n) == Taken(skip, Taken(skip, s, order, p), order, n - p)
    decreases p
  {
    hide Goes, Round;
    if 0 < p {
      if Goes(s, order) {
        TakenSplit(skip, Round(skip, s, order), order, p - 1, n - 1);
      }
    }
  }

  lemma {:induction false} SteadyPrefix(
      skip: bool, s: Share, order: seq<TrafficClass>, p: nat, n: nat, c: TrafficClass)
    requires p <= n && Steady(skip, s, order, n, c)
    ensures Steady(skip, s, order, p, c)
    decreases p
  {
    hide Goes, Round;
    if 0 < p { SteadyPrefix(skip, Round(skip, s, order), order, p - 1, n - 1, c); }
  }

  // The rounds split where the budget falls below m: up to there deficits are bounded.
  lemma {:induction false} SplitRounds(
      skip: bool, s: Share, order: seq<TrafficClass>, n: nat, i: TrafficClass, j: TrafficClass,
      deep: real, m: real) returns (p: nat)
    requires Sound(s) && Small(s, m) && VisitsShared(order) && |order| <= 3 && i in order && j in order
    requires Steady(skip, s, order, n, i) && Steady(skip, s, order, n, j)
    requires Shallow(s, deep) && 0.0 <= m <= deep && forall c :: s.Line(c) != [] ==> c in order
    ensures p <= n && (p == n || Taken(skip, s, order, p).left <= m)
    ensures var r := Taken(skip, s, order, p);
            r.Credit(i) <= 3.0 * deep + m && r.Credit(j) <= 3.0 * deep + m
    decreases n
  {
    hide Goes, Round, Small, Shallow, Sound, VisitsShared;
    SteadyNow(skip, s, order, n, i);
    SteadyNow(skip, s, order, n, j);
    ShallowAt(s, i, deep);
    ShallowAt(s, j, deep);
    p := 0;
    if 0 < n {
      var t := Round(skip, s, order);
      RoundFactsFor(skip, s, order);
      if t.left <= m {
        SteadyNow(skip, t, order, n - 1, i);
        SteadyNow(skip, t, order, n - 1, j);
        RoundCredit(skip, s, order, i, deep, m);
        RoundCredit(skip, s, order, j, deep, m);
        OneRound(skip, s, order);
        p := 1;
      } else {
        RoundShallow(skip, s, order, m);
        DeeperStill(t, m, deep);
        var q := SplitRounds(skip, t, order, n - 1, i, j, deep, m);
        p := q + 1;
      }
    }
  }

  lemma OneRound(skip: bool, s: Share, order: seq<TrafficClass>)
    requires Goes(s, order)
    ensures Taken(skip, s, order, 1) == Round(skip, s, order)
  {
    hide Round, Goes;
    NoRounds(skip, Round(skip, s, order), order);
  }

  lemma DeeperStill(s: Share, m: real, deep: real)
    requires Shallow(s, m) && m <= deep
    ensures Shallow(s, deep)
  {
  }

  // Over any number of rounds: two classes with something in line throughout have sent bits in
  // proportion to their weights, up to 3 * deep + 2 * m bits each.
  lemma RoundsAreFair(
      skip: bool, s: Share, order: seq<TrafficClass>, n: nat, i: TrafficClass, j: TrafficClass,
      deep: real, m: real)
    requires Pure(s) && Sound(s) && Small(s, m) && VisitsShared(order) && |order| <= 3
    requires i in order && j in order
    requires Steady(skip, s, order, n, i) && Steady(skip, s, order, n, j)
    requires Shallow(s, deep) && 0.0 <= m <= deep && forall c :: s.Line(c) != [] ==> c in order
    ensures var r := Taken(skip, s, order, n);
            var slack := (3.0 * deep + 2.0 * m) / Weight(i) + (3.0 * deep + 2.0 * m) / Weight(j);
            -slack <= PerWeight(s, r, i) - PerWeight(s, r, j) <= slack
  {
    hide Pure, Sound, Small, Taken, Steady, VisitsShared, Shallow, SentBits, Weight, PerWeight, Share.Line;
    var p := SplitRounds(skip, s, order, n, i, j, deep, m);
    var t, r := Taken(skip, s, order, p), Taken(skip, s, order, n);
    SteadyNow(skip, s, order, n, i);
    SteadyNow(skip, s, order, n, j);
    ShallowAt(s, i, deep);
    ShallowAt(s, j, deep);
    SteadyPrefix(skip, s, order, p, n, i);
    SteadyPrefix(skip, s, order, p, n, j);
    RoundsBalance(skip, s, order, p, i, j, 3.0 * deep + m);
    TakenSplit(skip, s, order, p, n);
    TakenSend(skip, s, order, p, i);
    TakenSend(skip, t, order, n - p, i);
    TakenSend(skip, t, order, n - p, j);
    SoundLeft(r);
    if p == n { NoRounds(skip, t, order); }
    TailAdds(s, t, r, i, m);
    TailAdds(s, t, r, j, m);
    SlackSum(deep, m, i);
    SlackSum(deep, m, j);
  }

  lemma SoundLeft(s: Share)
    requires Sound(s)
    ensures 0.0 <= s.left
  {
  }

  lemma TailAdds(s: Share, t: Share, r: Share, c: TrafficClass, m: real)
    requires 0.0 <= SentBits(r, c) - SentBits(t, c) <= m
    ensures 0.0 <= PerWeight(s, r, c) - PerWeight(s, t, c) <= m / Weight(c)
  {
    hide SentBits;
    var w := Weight(c);
    var x, y := SentBits(t, c) - SentBits(s, c), SentBits(r, c) - SentBits(t, c);
    assert (x + y) / w == x / w + y / w;
    DivideMono(w, y, m);
  }

  lemma DivideMono(w: real, y: real, m: real)
    requires 1.0 <= w && 0.0 <= y <= m
    ensures 0.0 <= y / w <= m / w
  {
    DivideShare(w, 0.0, y, m);
    assert (m - y) / w == m / w - y / w;
    NonNegativeQuotient(m - y, w);
    NonNegativeQuotient(y, w);
  }

  lemma NonNegativeQuotient(a: real, w: real)
    requires 0.0 <= a && 1.0 <= w
    ensures 0.0 <= a / w
  {
  }

  lemma SlackSum(deep: real, m: real, c: TrafficClass)
    ensures (3.0 * deep + 2.0 * m) / Weight(c) == (3.0 * deep + m) / Weight(c) + m / Weight(c)
  {
    var w := Weight(c);
    assert ((3.0 * deep + m) + m) / w == (3.0 * deep + m) / w + m / w;
  }

  // ---------------------------------------------------------------- one window

  // A window's loop takes exactly the rounds it executes.
  lemma {:induction false} RoundsAreTaken(skip: bool, s: Share, order: seq<TrafficClass>, rnd: nat)
    requires rnd <= LAST_ROUND
    ensures Rounds(skip, s, order, rnd) == Taken(skip, s, order, Executed(skip, s, order, rnd))
    decreases LAST_ROUND - rnd, s
  {
    hide Goes, Round;
    if Goes(s, order) {
      var t := Round(skip, s, order);
      if rnd == LAST_ROUND {
        assert Taken(skip, t, order, 0) == t;
      } else {
        RoundsAreTaken(skip, t, order, rnd + 1);
      }
    }
  }

  // A class with something left in line when the loop ends had something in line throughout.
  lemma {:induction false} LeftMeansSteady(
      skip: bool, s: Share, order: seq<TrafficClass>, rnd: nat, c: TrafficClass)
    requires rnd <= LAST_ROUND && Sound(s) && VisitsShared(order) && c in order
    requires Rounds(skip, s, order, rnd).Line(c) != []
    ensures s.Line(c) != [] && Steady(skip, s, order, Executed(skip, s, order, rnd), c)
    decreases LAST_ROUND - rnd, s
  {
    hide Goes, Round, Sound, VisitsShared;
    if Goes(s, order) {
      var t := Round(skip, s, order);
      RoundFactsFor(skip, s, order);
      OrderGood(order);
      if rnd < LAST_ROUND {
        LeftMeansSteady(skip, t, order, rnd + 1, c);
      }
      RoundFacts(skip, s, order, c);
    }
  }

  lemma OpeningPure(carry: Carry, eligible: seq<Bundle>, budget: real)
    ensures Pure(Opening(carry, eligible, budget))
  {
    var o := Opening(carry, eligible, budget);
    hide LineOf, Urgent, BitsOf;
    forall c, b | b in o.Line(c) ensures b.cls == c {
      LineMembers(c, eligible);
      assert o.Line(c) == LineOf(c, eligible);
    }
  }

  lemma OpeningBounds(carry: Carry, eligible: seq<Bundle>, budget: real, deep: real, m: real)
    requires forall b :: b in eligible ==> b.Bits() <= m
    requires forall c :: c in carry.deficit ==> carry.deficit[c] <= deep
    requires 0.0 <= deep
    ensures var o := Opening(carry, eligible, budget);
            && Small(o, m) && Shallow(o, deep)
            && (forall c :: o.Line(c) != [] ==> c in SHARED)
            && o.sent == []
  {
    var o := Opening(carry, eligible, budget);
    hide LineOf, Urgent, BitsOf;
    forall c, b | b in o.Line(c) ensures b.Bits() <= m {
      LineMembers(c, eligible);
      assert o.Line(c) == LineOf(c, eligible);
    }
  }

  lemma VisitOrderLength(rotation: nat)
    ensures |VisitOrder(rotation)| == 3
  {
  }

  // A whole window, last round included: two classes that still have something in line when the loop
  // ends have sent bits in proportion to their weights, up to 3 * deep + 2 * m bits each, where m bounds
  // the size of a bundle and deep, at least m, the deficits carried in.
  lemma WindowIsFair(
      skip: bool, carry: Carry, eligible: seq<Bundle>, budget: real, i: TrafficClass, j: TrafficClass,
      deep: real, m: real)
    requires GoodCarry(carry) && 0.0 <= budget && i in SHARED && j in SHARED && 0.0 <= m <= deep
    requires forall b :: b in eligible ==> b.Bits() <= m
    requires forall c :: c in carry.deficit ==> carry.deficit[c] <= deep
    requires var s := Shared(skip, carry, eligible, budget); s.Line(i) != [] && s.Line(j) != []
    ensures var s := Shared(skip, carry, eligible, budget);
            var slack := (3.0 * deep + 2.0 * m) / Weight(i) + (3.0 * deep + 2.0 * m) / Weight(j);
            -slack <= SentBits(s, i) / Weight(i) - SentBits(s, j) / Weight(j) <= slack
  {
    hide Opening, Rounds, VisitOrder, Pure, Sound, Small, Shallow, Steady, Taken, Executed, Pool, Urgent;
    var o, order := Opening(carry, eligible, budget), VisitOrder(carry.rotation);
    OpeningFacts(carry, eligible, budget);
    OpeningPure(carry, eligible, budget);
    OpeningBounds(carry, eligible, budget, deep, m);
    VisitOrderVisits(carry.rotation);
    VisitOrderLength(carry.rotation);
    RoundsAreTaken(skip, o, order, 0);
    LeftMeansSteady(skip, o, order, 0, i);
    LeftMeansSteady(skip, o, order, 0, j);
    RoundsAreFair(skip, o, order, Executed(skip, o, order, 0), i, j, deep, m);
    NothingSentYet(o, i);
    NothingSentYet(o, j);
  }

  lemma NothingSentYet(s: Share, c: TrafficClass)
    requires s.sent == []
    ensures SentBits(s, c) == 0.0
  {
  }
}
