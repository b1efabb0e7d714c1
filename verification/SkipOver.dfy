/** What the skip-over round robin promises of whole lines: after any round, nothing left in a line could
    still be paid for by its class and carried by the window. */
module SkipOver {
  import opened Traffic
  import opened Telemetry
  import opened Drain
  import opened Drr
  import opened Policies

  // Every bundle in line exceeds its class's deficit or the budget that is left.
  ghost predicate Exhausted(s: Share, c: TrafficClass) {
    forall b :: b in s.Line(c) ==> s.Credit(c) < b.Bits() || s.left < b.Bits()
  }

  lemma TurnExhausts(s: Share, c: TrafficClass, grant: real)
    ensures Exhausted(Turn(true, s, c, grant), c)
  {
    var r := Turn(true, s, c, grant);
    var room := Min(s.Credit(c) + grant, s.left);
    hide Passed, Greedy;
    forall b | b in r.Line(c) ensures r.Credit(c) < b.Bits() || r.left < b.Bits() {
      GreedyExhausts(s.Line(c), room, b);
    }
  }

  lemma TurnLeavesOthers(s: Share, d: TrafficClass, grant: real, c: TrafficClass)
    requires Sound(s) && 0.0 <= grant && c != d && Exhausted(s, c)
    ensures Exhausted(Turn(true, s, d, grant), c)
  {
    hide Turn;
    TurnElsewhere(true, s, d, grant, c);
    TurnSound(true, s, d, grant);
  }

  lemma {:induction false} TurnsKeepExhausted(
      s: Share, cs: seq<TrafficClass>, budget: real, total: real, c: TrafficClass)
    requires Sound(s) && 0.0 <= budget && 0.0 < total <= 12.0 && c !in cs && Exhausted(s, c)
    ensures Exhausted(Turns(true, s, cs, budget, total), c)
    decreases |cs|
  {
    hide Turn, Exhausted, Sound;
    if cs != [] {
      var grant := budget * (Weight(cs[0]) / total);
      GrantAtLeastTwelfth(cs[0], budget, total);
      TurnSound(true, s, cs[0], grant);
      TurnLeavesOthers(s, cs[0], grant, c);
      TurnsKeepExhausted(Turn(true, s, cs[0], grant), cs[1..], budget, total, c);
    }
  }

  lemma {:induction false} TurnsExhaust(
      s: Share, cs: seq<TrafficClass>, budget: real, total: real, c: TrafficClass)
    requires Sound(s) && 0.0 <= budget && 0.0 < total <= 12.0 && NoRepeat(cs) && c in cs
    ensures Exhausted(Turns(true, s, cs, budget, total), c)
    decreases |cs|
  {
    hide Turn, Exhausted, Sound;
    var grant := budget * (Weight(cs[0]) / total);
    GrantAtLeastTwelfth(cs[0], budget, total);
    TurnSound(true, s, cs[0], grant);
    if cs[0] == c {
      TurnExhausts(s, c, grant);
      TurnsKeepExhausted(Turn(true, s, c, grant), cs[1..], budget, total, c);
    } else {
      TurnsExhaust(Turn(true, s, cs[0], grant), cs[1..], budget, total, c);
    }
  }

  lemma RoundExhausts(s: Share, order: seq<TrafficClass>, c: TrafficClass)
    requires Sound(s) && VisitsShared(order) && Goes(s, order) && c in SHARED
    ensures Sound(Round(true, s, order)) && Exhausted(Round(true, s, order), c)
  {
    hide Turns, Sound, Exhausted, Goes;
    var cs := Backlogged(s, order);
    BackloggedFacts(s, order);
    BackloggedNoRepeat(s, order);
    SomeoneGoes(s, order);
    SoundBudget(s);
    TurnsSound(true, s, cs, s.left, TotalWeight(cs));
    if c in cs {
      TurnsExhaust(s, cs, s.left, TotalWeight(cs), c);
    } else {
      EmptyIsExhausted(s, c);
      TurnsKeepExhausted(s, cs, s.left, TotalWeight(cs), c);
    }
  }

  lemma SomeoneGoes(s: Share, order: seq<TrafficClass>)
    requires Goes(s, order)
    ensures Backlogged(s, order) != []
  {
    BackloggedFacts(s, order);
  }

  lemma SoundBudget(s: Share)
    requires Sound(s)
    ensures 0.0 <= s.left
  {
  }

  lemma EmptyIsExhausted(s: Share, c: TrafficClass)
    requires s.Line(c) == []
    ensures Exhausted(s, c)
  {
  }

  lemma {:induction false} RoundsExhaust(s: Share, order: seq<TrafficClass>, rnd: nat, c: TrafficClass)
    requires rnd <= LAST_ROUND && Sound(s) && VisitsShared(order) && c in SHARED
    requires Goes(s, order) || Exhausted(s, c)
    ensures Exhausted(Rounds(true, s, order, rnd), c)
    decreases LAST_ROUND - rnd, s
  {
    hide Goes, Round, Exhausted, Sound, VisitsShared;
    if Goes(s, order) {
      RoundExhausts(s, order, c);
      if rnd < LAST_ROUND {
        RoundsExhaust(Round(true, s, order), order, rnd + 1, c);
      }
    }
  }

  // A window of the skip-over round robin in which any round runs ends with nothing in any line that its
  // class could still pay for and the window still carry.
  lemma WindowExhausts(carry: Carry, eligible: seq<Bundle>, budget: real, c: TrafficClass, b: Bundle)
    requires GoodCarry(carry) && 0.0 <= budget && c in SHARED
    requires Goes(Opening(carry, eligible, budget), VisitOrder(carry.rotation))
    requires b in Shared(true, carry, eligible, budget).Line(c)
    ensures var s := Shared(true, carry, eligible, budget); s.Credit(c) < b.Bits() || s.left < b.Bits()
  {
    hide Opening, Rounds, VisitOrder, Sound, VisitsShared, Goes, Urgent, Pool;
    OpeningFacts(carry, eligible, budget);
    VisitOrderVisits(carry.rotation);
    RoundsExhaust(Opening(carry, eligible, budget), VisitOrder(carry.rotation), 0, c);
  }

  // The two round robins differ: a short telemetry bundle behind a long one goes out in the first round of
  // the skip-over variant, and never while the standard one waits for the long one.
  lemma SkipsTheLongHead(s: Share, c: TrafficClass, grant: real)
    requires |s.Line(c)| == 2 && 0.0 <= s.Credit(c) && 0.0 <= grant
    requires Min(s.Credit(c) + grant, s.left) < s.Line(c)[0].Bits()
    requires s.Line(c)[1].Bits() <= Min(s.Credit(c) + grant, s.left)
    ensures Turn(true, s, c, grant).sent == s.sent + [s.Line(c)[1]]
    ensures Turn(false, s, c, grant).sent == s.sent
  {
    var l, room := s.Line(c), Min(s.Credit(c) + grant, s.left);
    assert l[1..] == [l[1]] && l[1..][1..] == [];
    assert Greedy(l[1..][1..], room - l[1].Bits(), false) == [];
    assert Greedy(l[1..], room, false) == [l[1]];
    assert Greedy(l, room, false) == [l[1]];
    assert Greedy(l, room, true) == [];
  }
}
