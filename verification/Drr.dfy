/** Deficit round robin inside one contact window, and the bound on its rounds. */
module Drr {
  import opened Traffic
  import opened Telemetry
  import opened Selection
  import opened Drain

  const SHARED: seq<TrafficClass> := [Telemetry, ScienceBulk, Media]

  // The guard on the number of rounds in one window.
  const LAST_ROUND: nat := 10000

  datatype Share = Share(
    lines: map<TrafficClass, seq<Bundle>>,
    deficit: map<TrafficClass, real>,
    left: real,
    sent: seq<Bundle>)
  {
    function Line(c: TrafficClass): seq<Bundle> {
      if c in lines then lines[c] else []
    }

    function Credit(c: TrafficClass): real {
      if c in deficit then deficit[c] else 0.0
    }
  }

  function Weight(c: TrafficClass): real {
    Spec(c).queueBudget
  }

  function TotalWeight(cs: seq<TrafficClass>): real {
    if cs == [] then 0.0 else Weight(cs[0]) + TotalWeight(cs[1..])
  }

  function Min(a: real, b: real): real {
    if a <= b then a else b
  }

  // One class's turn: it receives its grant, sends what its deficit and the budget allow, and forgets
  // its deficit once its line is empty.
  function Turn(skip: bool, s: Share, c: TrafficClass, grant: real): Share {
    var credit := s.Credit(c) + grant;
    var room := Min(credit, s.left);
    var out := Greedy(s.Line(c), room, !skip);
    var kept := Passed(s.Line(c), room, !skip);
    Share(s.lines[c := kept],
          s.deficit[c := if kept == [] then 0.0 else credit - BitsOf(out)],
          s.left - BitsOf(out),
          s.sent + out)
  }

  function Backlogged(s: Share, order: seq<TrafficClass>): seq<TrafficClass> {
    if order == [] then []
    else if s.Line(order[0]) != [] then [order[0]] + Backlogged(s, order[1..])
    else Backlogged(s, order[1..])
  }

  // The budget seen at the start of the round is divided over the classes backlogged at its start.
  function Turns(skip: bool, s: Share, cs: seq<TrafficClass>, budget: real, total: real): Share
    requires 0.0 < total
    decreases |cs|
  {
    if cs == [] then s
    else Turns(skip, Turn(skip, s, cs[0], budget * (Weight(cs[0]) / total)), cs[1..], budget, total)
  }

  predicate HeadFits(s: Share, c: TrafficClass) {
    s.Line(c) != [] && s.Line(c)[0].Bits() <= s.left
  }

  // A round is started while budget remains and the head of some class fits it.
  predicate Goes(s: Share, order: seq<TrafficClass>) {
    0.0 < s.left && exists c :: c in order && HeadFits(s, c)
  }

  function Round(skip: bool, s: Share, order: seq<TrafficClass>): Share
    requires Goes(s, order)
  {
    BackloggedFacts(s, order);
    var cs := Backlogged(s, order);
    Turns(skip, s, cs, s.left, TotalWeight(cs))
  }

  function Rounds(skip: bool, s: Share, order: seq<TrafficClass>, rnd: nat): Share
    requires rnd <= LAST_ROUND
    decreases LAST_ROUND - rnd, s
  {
    if !Goes(s, order) then s
    else if rnd == LAST_ROUND then Round(skip, s, order)
    else Rounds(skip, Round(skip, s, order), order, rnd + 1)
  }

  // ---------------------------------------------------------------- weights

  lemma {:induction false} BackloggedFacts(s: Share, order: seq<TrafficClass>)
    ensures forall c :: c in Backlogged(s, order) <==> c in order && s.Line(c) != []
    ensures Backlogged(s, order) != [] ==> 0.0 < TotalWeight(Backlogged(s, order))
    ensures TotalWeight(Backlogged(s, order)) <= TotalWeight(order)
    ensures 0.0 <= TotalWeight(Backlogged(s, order))
  {
    if order != [] {
      BackloggedFacts(s, order[1..]);
    }
  }

  ghost predicate NoRepeat(cs: seq<TrafficClass>) {
    forall i, j :: 0 <= i < j < |cs| ==> cs[i] != cs[j]
  }

  lemma {:induction false} BackloggedNoRepeat(s: Share, order: seq<TrafficClass>)
    requires NoRepeat(order)
    ensures NoRepeat(Backlogged(s, order))
  {
    if order != [] {
      BackloggedNoRepeat(s, order[1..]);
      BackloggedFacts(s, order[1..]);
      var t := Backlogged(s, order[1..]);
      assert order[0] !in t;
      if s.Line(order[0]) != [] {
        var r := Backlogged(s, order);
        forall i, j | 0 <= i < j < |r| ensures r[i] != r[j] {
          assert r[j] == t[j - 1];
          if 0 < i { assert r[i] == t[i - 1]; }
        }
      }
    }
  }

  lemma MulMono(k: real, a: real, b: real)
    requires 0.0 <= k && a <= b
    ensures k * a <= k * b
  {
  }

  // Weights are 10:1:1, so no backlogged class is granted less than a twelfth.
  lemma GrantAtLeastTwelfth(c: TrafficClass, budget: real, total: real)
    requires 0.0 <= budget && 0.0 < total <= 12.0
    ensures budget * (Weight(c) / total) >= budget / 12.0
  {
    var share := Weight(c) / total;
    assert share * total == Weight(c) >= 1.0;
    MulMono(share, total, 12.0);
    MulMono(budget, 1.0 / 12.0, share);
  }

  // ---------------------------------------------------------------- one turn, one round

  // The head of a class is stuck when its deficit or the remaining budget is too small for it.
  predicate Stuck(s: Share, c: TrafficClass) {
    s.Line(c) != [] ==> s.Credit(c) < s.Line(c)[0].Bits() || s.left < s.Line(c)[0].Bits()
  }

  lemma {:induction false} PassedHeadStuck(s: seq<Bundle>, budget: real, stop: bool)
    requires Passed(s, budget, stop) != []
    ensures budget - BitsOf(Greedy(s, budget, stop)) < Passed(s, budget, stop)[0].Bits()
  {
    if stop {
      StrictSendsMaximalPrefix(s, budget);
    } else {
      GreedyExhausts(s, budget, Passed(s, budget, stop)[0]);
    }
  }

  lemma TurnFacts(skip: bool, s: Share, c: TrafficClass, grant: real)
    requires 0.0 <= s.left && 0.0 <= s.Credit(c) && 0.0 <= grant
    ensures var r := Turn(skip, s, c, grant);
            && 0.0 <= r.left <= s.left
            && 0.0 <= r.Credit(c)
            && Stuck(r, c)
            && (r.Line(c) != [] ==> r.Credit(c) == s.Credit(c) + grant - (s.left - r.left))
  {
    var room := Min(s.Credit(c) + grant, s.left);
    GreedyWithinBudget(s.Line(c), room, !skip);
    if Passed(s.Line(c), room, !skip) != [] {
      PassedHeadStuck(s.Line(c), room, !skip);
    }
  }

  lemma TurnElsewhere(skip: bool, s: Share, d: TrafficClass, grant: real, c: TrafficClass)
    requires c != d
    ensures var r := Turn(skip, s, d, grant); r.Line(c) == s.Line(c) && r.Credit(c) == s.Credit(c)
  {
  }

  ghost predicate Sound(s: Share) {
    0.0 <= s.left && forall c :: 0.0 <= s.Credit(c)
  }

  lemma TurnSound(skip: bool, s: Share, d: TrafficClass, grant: real)
    requires Sound(s) && 0.0 <= grant
    ensures Sound(Turn(skip, s, d, grant))
    ensures Turn(skip, s, d, grant).left <= s.left
  {
    TurnFacts(skip, s, d, grant);
    forall c ensures 0.0 <= Turn(skip, s, d, grant).Credit(c) {
      if c != d { TurnElsewhere(skip, s, d, grant, c); }
    }
  }

  lemma {:induction false} TurnsSound(skip: bool, s: Share, cs: seq<TrafficClass>, budget: real, total: real)
    requires Sound(s) && 0.0 <= budget && 0.0 < total <= 12.0
    ensures Sound(Turns(skip, s, cs, budget, total))
    ensures Turns(skip, s, cs, budget, total).left <= s.left
    decreases |cs|
  {
    if cs != [] {
      GrantAtLeastTwelfth(cs[0], budget, total);
      var grant := budget * (Weight(cs[0]) / total);
      TurnSound(skip, s, cs[0], grant);
      TurnsSound(skip, Turn(skip, s, cs[0], grant), cs[1..], budget, total);
    }
  }

  // A class not in the list keeps its line and deficit, and stays stuck.
  lemma {:induction false} TurnsElsewhere(
      skip: bool, s: Share, cs: seq<TrafficClass>, budget: real, total: real, c: TrafficClass)
    requires Sound(s) && 0.0 <= budget && 0.0 < total <= 12.0
    requires c !in cs
    ensures var r := Turns(skip, s, cs, budget, total);
            && r.Line(c) == s.Line(c) && r.Credit(c) == s.Credit(c)
            && (Stuck(s, c) ==> Stuck(r, c))
    decreases |cs|
  {
    hide Turn, Greedy, Passed;
    if cs != [] {
      GrantAtLeastTwelfth(cs[0], budget, total);
      var grant := budget * (Weight(cs[0]) / total);
      var t := Turn(skip, s, cs[0], grant);
      assert cs[0] != c;
      TurnSound(skip, s, cs[0], grant);
      TurnElsewhere(skip, s, cs[0], grant, c);
      TurnsElsewhere(skip, t, cs[1..], budget, total, c);
    }
  }

  // A class in the list ends its round stuck, and while its line is not empty its deficit has gained a
  // twelfth of the round's budget less at most what the round sent.
  ghost predicate Granted(s: Share, r: Share, c: TrafficClass, budget: real) {
    && Stuck(r, c)
    && (r.Line(c) != [] ==> r.Credit(c) >= s.Credit(c) + budget / 12.0 - (s.left - r.left))
  }

  lemma OwnTurnGrants(s: Share, t: Share, r: Share, c: TrafficClass, budget: real, grant: real)
    requires budget / 12.0 <= grant
    requires t.Line(c) != [] ==> t.Credit(c) == s.Credit(c) + grant - (s.left - t.left)
    requires r.Line(c) == t.Line(c) && r.Credit(c) == t.Credit(c) && Stuck(r, c) && r.left <= t.left
    ensures Granted(s, r, c, budget)
  {
  }

  lemma OtherTurnKeeps(s: Share, t: Share, r: Share, c: TrafficClass, budget: real)
    requires t.Line(c) == s.Line(c) && t.Credit(c) == s.Credit(c) && t.left <= s.left
    requires Granted(t, r, c, budget)
    ensures Granted(s, r, c, budget)
  {
  }

  lemma {:induction false} TurnsGrant(
      skip: bool, s: Share, cs: seq<TrafficClass>, budget: real, total: real, c: TrafficClass)
    requires Sound(s) && 0.0 <= budget && 0.0 < total <= 12.0
    requires c in cs && NoRepeat(cs)
    ensures Granted(s, Turns(skip, s, cs, budget, total), c, budget)
    decreases |cs|
  {
    hide Turn, Greedy, Passed;
    GrantAtLeastTwelfth(cs[0], budget, total);
    var grant := budget * (Weight(cs[0]) / total);
    var t := Turn(skip, s, cs[0], grant);
    var r := Turns(skip, t, cs[1..], budget, total);
    assert Turns(skip, s, cs, budget, total) == r;
    TurnSound(skip, s, cs[0], grant);
    if cs[0] == c {
      TurnsSound(skip, t, cs[1..], budget, total);
      TurnFacts(skip, s, c, grant);
      TurnsElsewhere(skip, t, cs[1..], budget, total, c);
      OwnTurnGrants(s, t, r, c, budget, grant);
    } else {
      TurnElsewhere(skip, s, cs[0], grant, c);
      TurnsGrant(skip, t, cs[1..], budget, total, c);
      OtherTurnKeeps(s, t, r, c, budget);
    }
  }

  ghost predicate GoodOrder(order: seq<TrafficClass>) {
    NoRepeat(order) && TotalWeight(order) <= 12.0
  }

  ghost predicate AllStuck(s: Share, order: seq<TrafficClass>) {
    forall c :: c in order ==> Stuck(s, c)
  }

  lemma RoundFacts(skip: bool, s: Share, order: seq<TrafficClass>, c: TrafficClass)
    requires Sound(s) && GoodOrder(order) && Goes(s, order) && c in order
    ensures var r := Round(skip, s, order);
            && Sound(r) && r.left <= s.left
            && Granted(s, r, c, s.left)
            && (r.Line(c) != [] ==> s.Line(c) != [])
  {
    var cs := Backlogged(s, order);
    BackloggedFacts(s, order);
    BackloggedNoRepeat(s, order);
    TurnsSound(skip, s, cs, s.left, TotalWeight(cs));
    if c in cs {
      TurnsGrant(skip, s, cs, s.left, TotalWeight(cs), c);
    } else {
      TurnsElsewhere(skip, s, cs, s.left, TotalWeight(cs), c);
    }
  }

  // ---------------------------------------------------------------- the budget halves every 24 rounds

  // j rounds into a block that began with budget r0.
  ghost predicate Gained(s: Share, order: seq<TrafficClass>, r0: real, j: nat) {
    && s.left <= r0
    && forall c :: c in order ==> GainedAt(s, r0, j, c)
  }

  lemma GainArithmetic(j: real, credit: real, left: real, credit': real, left': real, r0: real)
    requires 0.0 <= j && left' <= left
    requires credit >= j * left / 12.0 - (r0 - left)
    requires credit' >= credit + left / 12.0 - (left - left')
    ensures credit' >= (j + 1.0) * left' / 12.0 - (r0 - left')
  {
    MulMono(j + 1.0, left', left);
    assert (j + 1.0) * left == j * left + left;
  }

  ghost predicate GainedAt(s: Share, r0: real, j: nat, c: TrafficClass) {
    s.Line(c) != [] ==> s.Credit(c) >= (j as real) * s.left / 12.0 - (r0 - s.left)
  }

  lemma GainedStepAt(s: Share, r: Share, r0: real, j: nat, c: TrafficClass)
    requires GainedAt(s, r0, j, c) && Granted(s, r, c, s.left)
    requires r.left <= s.left && (r.Line(c) != [] ==> s.Line(c) != [])
    ensures GainedAt(r, r0, j + 1, c)
  {
    if r.Line(c) != [] {
      assert ((j + 1) as real) == (j as real) + 1.0;
      GainArithmetic(j as real, s.Credit(c), s.left, r.Credit(c), r.left, r0);
    }
  }

  lemma GainedStep(skip: bool, s: Share, order: seq<TrafficClass>, r0: real, j: nat)
    requires Sound(s) && GoodOrder(order) && Goes(s, order)
    requires Gained(s, order, r0, j)
    ensures Gained(Round(skip, s, order), order, r0, j + 1)
    ensures AllStuck(Round(skip, s, order), order)
    ensures Sound(Round(skip, s, order))
  {
    var r := Round(skip, s, order);
    var any :| any in order && HeadFits(s, any);
    RoundFacts(skip, s, order, any);
    forall c | c in order ensures Stuck(r, c) && GainedAt(r, r0, j + 1, c) {
      RoundFacts(skip, s, order, c);
      assert GainedAt(s, r0, j, c);
      GainedStepAt(s, r, r0, j, c);
    }
  }

  lemma BlockHalves(s: Share, order: seq<TrafficClass>, r0: real)
    requires Gained(s, order, r0, 24) && AllStuck(s, order) && Goes(s, order)
    ensures s.left < r0 / 2.0
  {
    var c :| c in order && HeadFits(s, c);
    assert Stuck(s, c) && GainedAt(s, r0, 24, c);
    assert (24 as real) == 24.0;
  }

  function Pow2(n: nat): nat {
    if n == 0 then 1 else 2 * Pow2(n - 1)
  }

  lemma DoubleUp(q: nat, now: real, then_: real, start: real)
    requires now <= then_ / 2.0 && (Pow2(q) as real) * then_ <= start
    ensures (Pow2(q + 1) as real) * now <= start
  {
    var p := Pow2(q) as real;
    MulMono(p, 2.0 * now, then_);
    assert (Pow2(q + 1) as real) == 2.0 * p;
    assert (2.0 * p) * now == p * (2.0 * now);
  }

  // A head that fits is at least one byte.
  lemma GoesNeedsByte(s: Share, order: seq<TrafficClass>)
    requires Goes(s, order)
    ensures 8.0 <= s.left
  {
    var c :| c in order && HeadFits(s, c);
  }

  // How many rounds the loop executes from round rnd on.
  function Executed(skip: bool, s: Share, order: seq<TrafficClass>, rnd: nat): nat
    requires rnd <= LAST_ROUND
    decreases LAST_ROUND - rnd, s
  {
    if !Goes(s, order) then 0
    else if rnd == LAST_ROUND then 1
    else 1 + Executed(skip, Round(skip, s, order), order, rnd + 1)
  }

  // A round j rounds into its block of 24, after q whole blocks: r0 is the budget at the start of the
  // block, b0 the initial one.
  ghost predicate Standing(s: Share, order: seq<TrafficClass>, q: nat, j: nat, r0: real, b0: real) {
    && Sound(s) && GoodOrder(order)
    && Gained(s, order, r0, j)
    && (0 < j ==> AllStuck(s, order))
    && (Pow2(q) as real) * r0 <= b0
  }

  lemma StandingInBlock(
      skip: bool, s: Share, order: seq<TrafficClass>, q: nat, j: nat, r0: real, b0: real)
    requires Standing(s, order, q, j, r0, b0) && Goes(s, order)
    ensures Standing(Round(skip, s, order), order, q, j + 1, r0, b0)
  {
    GainedStep(skip, s, order, r0, j);
  }

  lemma StandingNextBlock(r: Share, order: seq<TrafficClass>, q: nat, r0: real, b0: real)
    requires Standing(r, order, q, 24, r0, b0) && Goes(r, order)
    ensures Standing(r, order, q + 1, 0, r.left, b0)
  {
    BlockHalves(r, order, r0);
    DoubleUp(q, r.left, r0, b0);
    NewBlock(r, order);
  }

  lemma NewBlock(s: Share, order: seq<TrafficClass>)
    requires Sound(s)
    ensures Gained(s, order, s.left, 0)
  {
    forall c | c in order ensures GainedAt(s, s.left, 0, c) {
      assert 0.0 <= s.Credit(c);
      assert ((0 as real) * s.left) / 12.0 == 0.0;
    }
  }

  lemma StandingNeedsBudget(s: Share, order: seq<TrafficClass>, q: nat, j: nat, r0: real, b0: real)
    requires Standing(s, order, q, j, r0, b0) && Goes(s, order)
    ensures (8 * Pow2(q)) as real <= b0
  {
    GoesNeedsByte(s, order);
    EightTimes(Pow2(q), r0, b0);
  }

  lemma EightTimes(p: nat, r0: real, b0: real)
    requires 8.0 <= r0 && (p as real) * r0 <= b0
    ensures (8 * p) as real <= b0
  {
    MulMono(p as real, 8.0, r0);
    assert (8 * p) as real == (p as real) * 8.0;
  }

  lemma {:induction false} ExecutedNeedsBudget(
      skip: bool, s: Share, order: seq<TrafficClass>, rnd: nat, q: nat, j: nat, r0: real, b0: real)
    requires rnd <= LAST_ROUND && rnd == 24 * q + j && j < 24
    requires Standing(s, order, q, j, r0, b0)
    ensures var n := Executed(skip, s, order, rnd);
            0 < n ==> (8 * Pow2((rnd + n - 1) / 24)) as real <= b0
    decreases LAST_ROUND - rnd, s
  {
    hide Goes, Round, Standing, Pow2;
    if Goes(s, order) {
      StandingNeedsBudget(s, order, q, j, r0, b0);
      assert rnd / 24 == q;
      if rnd < LAST_ROUND {
        var r := Round(skip, s, order);
        StandingInBlock(skip, s, order, q, j, r0, b0);
        if Goes(r, order) {
          if j == 23 {
            StandingNextBlock(r, order, q, r0, b0);
            ExecutedNeedsBudget(skip, r, order, rnd + 1, q + 1, 0, r.left, b0);
          } else {
            ExecutedNeedsBudget(skip, r, order, rnd + 1, q, j + 1, r0, b0);
          }
        }
      }
    }
  }

  // A window that executes n rounds started with at least 8 * 2^((n - 1) / 24) bits.
  lemma RoundsNeedBudget(skip: bool, s: Share, order: seq<TrafficClass>)
    requires GoodOrder(order) && Sound(s)
    ensures var n := Executed(skip, s, order, 0);
            0 < n ==> (8 * Pow2((n - 1) / 24)) as real <= s.left
  {
    FirstStanding(s, order);
    ExecutedNeedsBudget(skip, s, order, 0, 0, 0, s.left, s.left);
  }

  lemma FirstStanding(s: Share, order: seq<TrafficClass>)
    requires GoodOrder(order) && Sound(s)
    ensures Standing(s, order, 0, 0, s.left, s.left)
  {
    NewBlock(s, order);
    assert (Pow2(0) as real) * s.left == s.left;
  }

  // ---------------------------------------------------------------- the loop and its guard

  lemma {:induction false} StopsEarlyOrAtGuard(skip: bool, s: Share, order: seq<TrafficClass>, rnd: nat)
    requires rnd <= LAST_ROUND
    ensures Executed(skip, s, order, rnd) <= LAST_ROUND + 1 - rnd
    ensures Goes(Rounds(skip, s, order, rnd), order)
        ==> Executed(skip, s, order, rnd) == LAST_ROUND + 1 - rnd
    decreases LAST_ROUND - rnd, s
  {
    if Goes(s, order) && rnd < LAST_ROUND {
      StopsEarlyOrAtGuard(skip, Round(skip, s, order), order, rnd + 1);
    }
  }

  // Below 8 * 2^416 bits the guard is never reached: the loop ends because the budget is spent or no
  // class head fits what is left of it.
  lemma GuardUnreachable(skip: bool, s: Share, order: seq<TrafficClass>)
    requires GoodOrder(order) && Sound(s)
    requires s.left < (8 * Pow2(416)) as real
    ensures Executed(skip, s, order, 0) <= LAST_ROUND
    ensures !Goes(Rounds(skip, s, order, 0), order)
  {
    assert LAST_ROUND / 24 == 416;
    StopsEarlyOrAtGuard(skip, s, order, 0);
    RoundsNeedBudget(skip, s, order);
  }

  // A loop that ends with a head that still fits has run exactly 10,001 rounds, and none runs more.
  lemma GuardAtTenThousand(skip: bool, s: Share, order: seq<TrafficClass>)
    ensures Executed(skip, s, order, 0) <= 10_001
    ensures Goes(Rounds(skip, s, order, 0), order) ==> Executed(skip, s, order, 0) == 10_001
  {
    StopsEarlyOrAtGuard(skip, s, order, 0);
  }
}
