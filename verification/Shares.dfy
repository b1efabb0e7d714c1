/** The batch round robin in numbers: who is visited when, how a round divides its budget, and what that
    makes of a window. */
module Shares {
  import opened Traffic
  import opened Telemetry
  import opened Drr
  import opened Policies
  import opened Replay
  import opened WindowFairness
  import opened Starvation

  // ---------------------------------------------------------------- the order of visits

  // The three orders come round in turn, window after window.
  lemma VisitsInTurn(cfg: Setup, ws: Plan, bundles: Batch, k: nat)
    requires RoundRobin(cfg.policy) && k <= |ws|
    ensures VisitOrder(After(cfg, ws, bundles, k).carry.rotation)
         == if k % 3 == 0 then [Telemetry, ScienceBulk, Media]
            else if k % 3 == 1 then [ScienceBulk, Media, Telemetry]
            else [Media, Telemetry, ScienceBulk]
  {
    hide After;
    RotationAt(cfg, ws, bundles, k);
    OrderOf(k % 3);
  }

  lemma OrderOf(i: nat)
    requires i < 3
    ensures VisitOrder(i) == if i == 0 then [Telemetry, ScienceBulk, Media]
                             else if i == 1 then [ScienceBulk, Media, Telemetry]
                             else [Media, Telemetry, ScienceBulk]
  {
    assert SHARED == [Telemetry, ScienceBulk, Media];
  }

  // ---------------------------------------------------------------- one round

  // Ten parts for telemetry, one each for science and media.
  function Parts(c: TrafficClass): real {
    if c == Telemetry then 10.0 else 1.0
  }

  // The parts of the classes with something in line.
  function PartsWaiting(s: Share): real {
    (if s.Line(Telemetry) != [] then 10.0 else 0.0)
    + (if s.Line(ScienceBulk) != [] then 1.0 else 0.0)
    + (if s.Line(Media) != [] then 1.0 else 0.0)
  }

  function PartOf(s: Share, c: TrafficClass): real {
    if s.Line(c) != [] then Weight(c) else 0.0
  }

  lemma WaitingWeight(s: Share, a: TrafficClass, b: TrafficClass, c: TrafficClass)
    ensures RoundWeight(s, [a, b, c]) == PartOf(s, a) + PartOf(s, b) + PartOf(s, c)
  {
    hide Weight, Share.Line;
    var order := [a, b, c];
    assert order[1..] == [b, c] && order[1..][1..] == [c] && order[1..][1..][1..] == [];
    OneMoreWaiting(s, order);
    OneMoreWaiting(s, order[1..]);
    OneMoreWaiting(s, order[1..][1..]);
    assert TotalWeight(Backlogged(s, [])) == 0.0;
  }

  lemma OneMoreWaiting(s: Share, order: seq<TrafficClass>)
    requires order != []
    ensures TotalWeight(Backlogged(s, order)) == PartOf(s, order[0]) + TotalWeight(Backlogged(s, order[1..]))
  {
    hide Weight;
    if s.Line(order[0]) != [] {
      assert ([order[0]] + Backlogged(s, order[1..]))[1..] == Backlogged(s, order[1..]);
    }
  }

  lemma WeightInOrder(s: Share, rotation: nat)
    ensures RoundWeight(s, VisitOrder(rotation)) == PartsWaiting(s)
  {
    hide RoundWeight;
    OrderOf(rotation % 3);
    assert VisitOrder(rotation) == VisitOrder(rotation % 3);
    WaitingWeight(s, Telemetry, ScienceBulk, Media);
    WaitingWeight(s, ScienceBulk, Media, Telemetry);
    WaitingWeight(s, Media, Telemetry, ScienceBulk);
  }

  // A round divides the budget it starts with over the classes waiting at its start, 10:1:1: a class that
  // still waits at its end has been granted exactly its parts.
  lemma RoundDividesBudget(skip: bool, s: Share, rotation: nat, c: TrafficClass)
    requires Pure(s) && Sound(s) && Goes(s, VisitOrder(rotation)) && c in SHARED
    requires Round(skip, s, VisitOrder(rotation)).Line(c) != []
    ensures 0.0 < PartsWaiting(s)
    ensures Paid(s, Round(skip, s, VisitOrder(rotation)), c, s.left * Parts(c) / PartsWaiting(s))
  {
    hide Pure, Sound, Goes, VisitOrder, Paid, PartsWaiting, RoundWeight, Round, GoodOrder;
    var order := VisitOrder(rotation);
    VisitOrderVisits(rotation);
    WeightInOrder(s, rotation);
    RoundPays(skip, s, order, c);
    RoundFacts(skip, s, order, c);
    QuantumInParts(s.left, PartsWaiting(s), c);
  }

  lemma QuantumInParts(budget: real, total: real, c: TrafficClass)
    requires 0.0 < total && c in SHARED
    ensures Quantum(budget, total, c) == budget * Parts(c) / total
  {
    assert SHARED[0] == Telemetry && SHARED[1] == ScienceBulk && SHARED[2] == Media;
    assert Weight(c) == Parts(c);
    var w := Parts(c);
    assert budget * (w / total) == (budget * w) / total;
  }

  // With all three waiting these are ten twelfths and one twelfth each.
  lemma RoundInTwelfths(skip: bool, s: Share, rotation: nat)
    requires Pure(s) && Sound(s) && Goes(s, VisitOrder(rotation))
    requires s.Line(Telemetry) != [] && s.Line(ScienceBulk) != [] && s.Line(Media) != []
    ensures var r := Round(skip, s, VisitOrder(rotation));
            && (r.Line(Telemetry) != [] ==> Paid(s, r, Telemetry, s.left * 10.0 / 12.0))
            && (r.Line(ScienceBulk) != [] ==> Paid(s, r, ScienceBulk, s.left * 1.0 / 12.0))
            && (r.Line(Media) != [] ==> Paid(s, r, Media, s.left * 1.0 / 12.0))
  {
    hide Pure, Sound, Goes, VisitOrder, Paid, Round;
    var r := Round(skip, s, VisitOrder(rotation));
    assert SHARED[0] == Telemetry && SHARED[1] == ScienceBulk && SHARED[2] == Media;
    AllWait(s);
    hide PartsWaiting, Parts, Share.Line;
    if r.Line(Telemetry) != [] { PaidParts(skip, s, rotation, Telemetry, s.left * 10.0 / 12.0); }
    if r.Line(ScienceBulk) != [] { PaidParts(skip, s, rotation, ScienceBulk, s.left * 1.0 / 12.0); }
    if r.Line(Media) != [] { PaidParts(skip, s, rotation, Media, s.left * 1.0 / 12.0); }
  }

  lemma PaidParts(skip: bool, s: Share, rotation: nat, c: TrafficClass, g: real)
    requires Pure(s) && Sound(s) && Goes(s, VisitOrder(rotation)) && c in SHARED
    requires Round(skip, s, VisitOrder(rotation)).Line(c) != []
    requires 0.0 < PartsWaiting(s) && g == s.left * Parts(c) / PartsWaiting(s)
    ensures Paid(s, Round(skip, s, VisitOrder(rotation)), c, g)
  {
    hide Pure, Sound, Goes, VisitOrder, Paid, PartsWaiting, Round, Parts;
    RoundDividesBudget(skip, s, rotation, c);
  }

  lemma AllWait(s: Share)
    requires s.Line(Telemetry) != [] && s.Line(ScienceBulk) != [] && s.Line(Media) != []
    ensures PartsWaiting(s) == 12.0
    ensures s.left * Parts(Telemetry) / PartsWaiting(s) == s.left * 10.0 / 12.0
    ensures s.left * Parts(ScienceBulk) / PartsWaiting(s) == s.left * 1.0 / 12.0
    ensures s.left * Parts(Media) / PartsWaiting(s) == s.left * 1.0 / 12.0
  {
  }

  // ---------------------------------------------------------------- one window

  ghost predicate Near(x: real, y: real, slack: real) {
    -slack <= x - y <= slack
  }

  // A whole window in numbers: what telemetry sends, over ten, is what science and media send, up to the
  // slack that carried deficits and bundle sizes allow, as long as the classes compared still wait.
  lemma WindowInTenths(skip: bool, carry: Carry, eligible: seq<Bundle>, budget: real, deep: real, m: real)
    requires GoodCarry(carry) && 0.0 <= budget && 0.0 <= m <= deep
    requires forall b :: b in eligible ==> b.Bits() <= m
    requires forall c :: c in carry.deficit ==> carry.deficit[c] <= deep
    ensures var s := Shared(skip, carry, eligible, budget);
            var bulk, tele := 3.0 * deep + 2.0 * m, SentBits(s, Telemetry);
            && (s.Line(Telemetry) != [] && s.Line(ScienceBulk) != [] ==>
                  Near(tele / 10.0, SentBits(s, ScienceBulk), bulk / 10.0 + bulk))
            && (s.Line(Telemetry) != [] && s.Line(Media) != [] ==>
                  Near(tele / 10.0, SentBits(s, Media), bulk / 10.0 + bulk))
            && (s.Line(ScienceBulk) != [] && s.Line(Media) != [] ==>
                  Near(SentBits(s, ScienceBulk), SentBits(s, Media), 2.0 * bulk))
  {
    hide Shared, SentBits, GoodCarry;
    var s := Shared(skip, carry, eligible, budget);
    assert SHARED[0] == Telemetry && SHARED[1] == ScienceBulk && SHARED[2] == Media;
    if s.Line(Telemetry) != [] && s.Line(ScienceBulk) != [] {
      WindowIsFair(skip, carry, eligible, budget, Telemetry, ScienceBulk, deep, m);
    }
    if s.Line(Telemetry) != [] && s.Line(Media) != [] {
      WindowIsFair(skip, carry, eligible, budget, Telemetry, Media, deep, m);
    }
    if s.Line(ScienceBulk) != [] && s.Line(Media) != [] {
      WindowIsFair(skip, carry, eligible, budget, ScienceBulk, Media, deep, m);
    }
  }
}
