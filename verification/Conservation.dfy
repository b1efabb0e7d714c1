/** Work conservation across policies: with bundles of one size, how many go out in a window does not
    depend on the policy. */
module Conservation {
  import opened Traffic
  import opened Telemetry
  import opened Selection
  import opened Drain
  import opened Drr
  import opened Policies
  import opened Wrappers

  function BitsEach(n: Size): real {
    (8 * n) as real
  }

  // k is all that a budget takes out of `total` bundles of `each` bits.
  ghost predicate Fills(k: nat, total: nat, each: real, budget: real) {
    && k <= total
    && (k as real) * each <= budget
    && (k < total ==> budget < ((k + 1) as real) * each)
  }

  lemma FillsOnce(j: nat, k: nat, total: nat, each: real, budget: real)
    requires 0.0 < each && Fills(j, total, each, budget) && Fills(k, total, each, budget)
    ensures j == k
  {
    if j < k {
      OneMoreExceeds(j, k, each, budget);
    } else if k < j {
      OneMoreExceeds(k, j, each, budget);
    }
  }

  lemma OneMoreExceeds(j: nat, k: nat, each: real, budget: real)
    requires j < k && 0.0 < each && budget < ((j + 1) as real) * each
    ensures budget < (k as real) * each
  {
    var a, c := (j + 1) as real, k as real;
    assert a <= c;
    MulMono(each, a, c);
    assert a * each == each * a && c * each == each * c;
  }

  lemma {:induction false} UniformBytes(s: seq<Bundle>, n: Size)
    requires Uniform(s, n)
    ensures Bytes(s) == |s| * n
  {
    if s != [] {
      assert s[0] in s;
      UniformBytes(s[1..], n);
    }
  }

  lemma UniformBits(s: seq<Bundle>, n: Size)
    requires Uniform(s, n)
    ensures BitsOf(s) == (|s| as real) * BitsEach(n)
  {
    UniformBytes(s, n);
    assert 8 * (|s| * n) == |s| * (8 * n);
    assert (|s| * (8 * n)) as real == (|s| as real) * ((8 * n) as real);
  }

  lemma UniformSub(a: seq<Bundle>, s: seq<Bundle>, n: Size)
    requires Uniform(s, n) && multiset(a) <= multiset(s)
    ensures Uniform(a, n) && |a| <= |s|
  {
    assert |multiset(a)| == |a| && |multiset(s)| == |s|;
    assert multiset(s) == multiset(a) + (multiset(s) - multiset(a));
    forall b | b in a ensures b.size == n {
      assert b in multiset(a);
      assert b in multiset(s);
    }
  }

  // Sent bundles fill a budget once what is left of it is too small for one more.
  lemma FilledBy(sent: seq<Bundle>, s: seq<Bundle>, n: Size, budget: real)
    requires Uniform(s, n) && multiset(sent) <= multiset(s) && BitsOf(sent) <= budget
    requires |sent| < |s| ==> budget - BitsOf(sent) < BitsEach(n)
    ensures Fills(|sent|, |s|, BitsEach(n), budget)
  {
    UniformSub(sent, s, n);
    UniformBits(sent, n);
    var k, each := |sent| as real, BitsEach(n);
    assert (|sent| + 1) as real == k + 1.0;
    assert (k + 1.0) * each == k * each + each;
  }

  // ---------------------------------------------------------------- ordered policies

  lemma InOrderFills(s: seq<Bundle>, n: Size, budget: real, stop: bool)
    requires Uniform(s, n) && 0.0 <= budget
    ensures Fills(|Greedy(s, budget, stop)|, |s|, BitsEach(n), budget)
  {
    var sent, kept := Greedy(s, budget, stop), Passed(s, budget, stop);
    GreedyPartition(s, budget, stop);
    GreedyWithinBudget(s, budget, stop);
    assert |multiset(sent) + multiset(kept)| == |sent| + |kept|;
    if kept != [] {
      PassedHeadStuck(s, budget, stop);
      assert kept[0] in multiset(kept);
      assert kept[0] in multiset(s);
    }
    FilledBy(sent, s, n, budget);
  }

  // ---------------------------------------------------------------- round robin

  // The loop ended because nothing at the head of a line fits what is left.
  predicate Finished(skip: bool, carry: Carry, el: seq<Bundle>, budget: real) {
    !Goes(Shared(skip, carry, el, budget), VisitOrder(carry.rotation))
  }

  lemma StuckLine(s: Share, order: seq<TrafficClass>, c: TrafficClass, n: Size)
    requires !Goes(s, order) && c in order && s.Line(c) != [] && s.Line(c)[0].size == n
    ensures s.left < BitsEach(n)
  {
  }

  lemma LeftSmall(s: Share, order: seq<TrafficClass>, n: Size)
    requires !Goes(s, order) && VisitsShared(order)
    requires forall c :: c in SHARED ==> Uniform(s.Line(c), n)
    requires s.Line(Telemetry) != [] || s.Line(ScienceBulk) != [] || s.Line(Media) != []
    ensures s.left < BitsEach(n)
  {
    var c := if s.Line(Telemetry) != [] then Telemetry else if s.Line(ScienceBulk) != [] then ScienceBulk else Media;
    assert c in SHARED;
    assert s.Line(c)[0] in s.Line(c);
    StuckLine(s, order, c, n);
  }

  lemma UrgentSplit(el: seq<Bundle>, budget: real, n: Size)
    requires Uniform(LineOf(Emergency, el), n) && 0.0 <= budget
    ensures multiset(Urgent(el, budget)) <= multiset(LineOf(Emergency, el))
    ensures |Urgent(el, budget)| < |LineOf(Emergency, el)| ==> budget - BitsOf(Urgent(el, budget)) < BitsEach(n)
  {
    var line := LineOf(Emergency, el);
    var kept := Passed(line, budget, false);
    GreedyPartition(line, budget, false);
    assert |multiset(line)| == |multiset(Urgent(el, budget))| + |multiset(kept)|;
    if kept != [] {
      GreedyExhausts(line, budget, kept[0]);
      assert kept[0] in multiset(kept);
      assert kept[0] in multiset(line);
    }
  }

  lemma LineUniform(s: Share, c: TrafficClass, el: seq<Bundle>, n: Size)
    requires Uniform(el, n) && c in SHARED && Pool(s) <= multiset(el)
    ensures Uniform(s.Line(c), n)
  {
    assert multiset(s.Line(c)) <= Pool(s);
    UniformSub(s.Line(c), el, n);
  }

  // If anything at all was left unsent, the budget left is too small for one more bundle.
  lemma SharedExhausts(o: Share, s: Share, order: seq<TrafficClass>, el: seq<Bundle>, budget: real, n: Size)
    requires Uniform(el, n) && 0.0 <= budget && VisitsShared(order) && !Goes(s, order)
    requires Carried(o, s) && o.sent == [] && o.left == budget - BitsOf(Urgent(el, budget))
    requires multiset(LineOf(Emergency, el)) + Pool(s) == multiset(el)
    requires |Urgent(el, budget) + s.sent| < |el|
    ensures budget - BitsOf(Urgent(el, budget) + s.sent) < BitsEach(n)
  {
    hide Goes, Greedy, LineOf, BitsOf, VisitsShared, Uniform, Urgent;
    var line, urgent := LineOf(Emergency, el), Urgent(el, budget);
    UniformSub(line, el, n);
    UrgentSplit(el, budget, n);
    UniformSub(urgent, line, n);
    SharedLeft(o, s, urgent, budget);
    if |urgent| == |line| {
      LineUniform(s, Telemetry, el, n);
      LineUniform(s, ScienceBulk, el, n);
      LineUniform(s, Media, el, n);
      PoolSizes(s, line, el);
      LeftSmall(s, order, n);
    }
  }

  lemma SharedFills(skip: bool, carry: Carry, el: seq<Bundle>, budget: real, n: Size)
    requires Uniform(el, n) && GoodCarry(carry) && 0.0 <= budget && Finished(skip, carry, el, budget)
    ensures Fills(|Urgent(el, budget) + Shared(skip, carry, el, budget).sent|, |el|, BitsEach(n), budget)
  {
    hide Goes, Greedy, Shared, LineOf, Opening, VisitOrder, Sound, BitsOf, VisitsShared, Urgent, Uniform, Fills, Pool;
    var o, s := Opening(carry, el, budget), Shared(skip, carry, el, budget);
    OpeningFacts(carry, el, budget);
    SharedFacts(skip, carry, el, budget);
    VisitOrderVisits(carry.rotation);
    if |Urgent(el, budget) + s.sent| < |el| {
      SharedExhausts(o, s, VisitOrder(carry.rotation), el, budget, n);
    }
    FilledBy(Urgent(el, budget) + s.sent, el, n, budget);
  }

  lemma SharedLeft(o: Share, s: Share, urgent: seq<Bundle>, budget: real)
    requires Carried(o, s) && o.sent == [] && o.left == budget - BitsOf(urgent)
    ensures s.left == budget - BitsOf(urgent + s.sent)
    ensures s.left <= o.left
  {
    BitsAppend(urgent, s.sent);
    assert BitsOf([]) == 0.0;
  }

  lemma PoolSizes(s: Share, line: seq<Bundle>, el: seq<Bundle>)
    requires multiset(line) + Pool(s) == multiset(el)
    ensures |el| == |line| + |s.sent| + |s.Line(Telemetry)| + |s.Line(ScienceBulk)| + |s.Line(Media)|
  {
    assert |multiset(el)| == |el|;
    assert |multiset(line) + Pool(s)| == |line| + |Pool(s)|;
    assert |Pool(s)| == |s.sent| + |s.Line(Telemetry)| + |s.Line(ScienceBulk)| + |s.Line(Media)|;
  }

  // ---------------------------------------------------------------- every policy

  // The round guard of the two round-robin policies was not what ended the window.
  predicate GuardNotHit(cfg: Config, carry: Carry, el: seq<Bundle>, budget: real) {
    RoundRobin(cfg.policy) ==> Finished(cfg.policy == WfqSkipOver, carry, el, budget)
  }

  lemma ChoiceFills(cfg: Config, carry: Carry, el: seq<Bundle>, budget: real, next: Option<real>, n: Size)
    requires Uniform(el, n) && GoodCarry(carry) && 0.0 <= budget && GuardNotHit(cfg, carry, el, budget)
    ensures Fills(|Choose(cfg, carry, el, budget, next).sent|, |el|, BitsEach(n), budget)
  {
    hide Greedy, Ranked, Shared, Urgent, Fills;
    if RoundRobin(cfg.policy) {
      SharedFills(cfg.policy == WfqSkipOver, carry, el, budget, n);
    } else {
      var ranked := Ranked(cfg.policy, el, next);
      RankedPermutes(cfg.policy, el, next);
      UniformSub(ranked, el, n);
      UniformSub(el, ranked, n);
      InOrderFills(ranked, n, budget, cfg.policy == Fifo && !cfg.fifoSkipOver);
    }
  }

  // From the same eligible bundles of one size, any two configurations send the same number in a
  // window, whatever their policies and their round-robin state.
  lemma AllPoliciesSendAsMany(
      c: Config, d: Config, x: Carry, y: Carry, el: seq<Bundle>, budget: real, next: Option<real>, n: Size)
    requires Uniform(el, n) && GoodCarry(x) && GoodCarry(y) && 0.0 <= budget
    requires GuardNotHit(c, x, el, budget) && GuardNotHit(d, y, el, budget)
    ensures |Choose(c, x, el, budget, next).sent| == |Choose(d, y, el, budget, next).sent|
  {
    hide Choose, Fills, GuardNotHit;
    ChoiceFills(c, x, el, budget, next, n);
    ChoiceFills(d, y, el, budget, next, n);
    FillsOnce(|Choose(c, x, el, budget, next).sent|, |Choose(d, y, el, budget, next).sent|,
              |el|, BitsEach(n), budget);
  }

  // No window budget below 8 * 2^416 bits can hit the guard.
  lemma GuardNeverHit(cfg: Config, carry: Carry, el: seq<Bundle>, budget: real)
    requires GoodCarry(carry) && 0.0 <= budget < (8 * Pow2(416)) as real
    ensures GuardNotHit(cfg, carry, el, budget)
  {
    hide Goes, Rounds, Opening, VisitOrder, Sound, Pow2, Urgent, Pool;
    if RoundRobin(cfg.policy) {
      OpeningFacts(carry, el, budget);
      UrgentSpends(el, budget);
      VisitOrderVisits(carry.rotation);
      GuardUnreachable(cfg.policy == WfqSkipOver, Opening(carry, el, budget), VisitOrder(carry.rotation));
    }
  }

  lemma UrgentSpends(el: seq<Bundle>, budget: real)
    ensures 0.0 <= BitsOf(Urgent(el, budget))
  {
  }

  // After any drain that skips over what does not fit, no unsent eligible bundle fits what remains.
  lemma NoRoomLeft(cfg: Config, carry: Carry, el: seq<Bundle>, budget: real, next: Option<real>, b: Bundle)
    requires !RoundRobin(cfg.policy) && !(cfg.policy == Fifo && !cfg.fifoSkipOver) && 0.0 <= budget
    requires b in el && b !in Choose(cfg, carry, el, budget, next).sent
    ensures budget - BitsOf(Choose(cfg, carry, el, budget, next).sent) < b.Bits()
  {
    var ranked := Ranked(cfg.policy, el, next);
    hide Greedy, Ranked;
    RankedPermutes(cfg.policy, el, next);
    GreedyPartition(ranked, budget, false);
    assert b in multiset(el);
    assert b !in multiset(Greedy(ranked, budget, false));
    assert b in multiset(Passed(ranked, budget, false));
    GreedyExhausts(ranked, budget, b);
  }
}
