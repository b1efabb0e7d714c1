/** The lifetime-to-gap law: when capacity never binds, the scheduler delivers exactly what a bundle's
    send time, its lifetime and the contact schedule predict, whatever the policy. */
module Lifetime {
  import opened Traffic
  import opened Telemetry
  import opened Selection
  import opened Admission
  import opened Drain
  import opened Drr
  import opened Policies
  import opened Replay
  import opened Fates
  import opened Reach
  import opened Wrappers
  import opened Prediction
  import Buffering
  import Contacts

  // ---------------------------------------------------------------- an uncontended window sends everything

  // The round robin's guard on rounds cannot be what stops it.
  predicate Bounded(cfg: Config, budget: real) {
    RoundRobin(cfg.policy) ==> budget < (8 * Pow2(416)) as real
  }

  lemma OrderedSendsAll(p: Policy, eligible: seq<Bundle>, budget: real, next: Option<real>, stop: bool)
    requires !RoundRobin(p) && BitsOf(eligible) <= budget
    ensures Greedy(Ranked(p, eligible, next), budget, stop) == Ranked(p, eligible, next)
  {
    RankedPermutes(p, eligible, next);
    BytesPermute(Ranked(p, eligible, next), eligible);
    GreedyAll(Ranked(p, eligible, next), budget, stop);
  }

  function Everything(urgent: seq<Bundle>, s: Share): seq<Bundle> {
    urgent + s.sent + s.Line(Telemetry) + s.Line(ScienceBulk) + s.Line(Media)
  }

  lemma EverythingBytes(urgent: seq<Bundle>, s: Share)
    ensures Bytes(Everything(urgent, s))
         == Bytes(urgent) + Bytes(s.sent) + Bytes(s.Line(Telemetry)) + Bytes(s.Line(ScienceBulk))
          + Bytes(s.Line(Media))
    ensures multiset(Everything(urgent, s)) == multiset(urgent) + Pool(s)
  {
    BytesAppend(urgent, s.sent);
    BytesAppend(urgent + s.sent, s.Line(Telemetry));
    BytesAppend(urgent + s.sent + s.Line(Telemetry), s.Line(ScienceBulk));
    BytesAppend(urgent + s.sent + s.Line(Telemetry) + s.Line(ScienceBulk), s.Line(Media));
  }

  // With budget for everything, a head left in line would still fit.
  lemma LeftoverFits(urgent: seq<Bundle>, s: Share, total: seq<Bundle>, budget: real, c: TrafficClass)
    requires multiset(urgent) + Pool(s) == multiset(total) && BitsOf(total) <= budget
    requires BitsOf(urgent) + BitsOf(s.sent) + s.left == budget
    requires c in SHARED && s.Line(c) != []
    ensures HeadFits(s, c) && 0.0 < s.left
  {
    hide Everything, Pool, Bytes;
    EverythingBytes(urgent, s);
    BytesPermute(Everything(urgent, s), total);
    BytesMember(s.Line(c), s.Line(c)[0]);
  }

  lemma RoundRobinEmpties(skip: bool, carry: Carry, eligible: seq<Bundle>, budget: real, c: TrafficClass)
    requires GoodCarry(carry) && BitsOf(eligible) <= budget < (8 * Pow2(416)) as real
    requires c in SHARED
    ensures var s := Shared(skip, carry, eligible, budget);
            s.Line(c) == [] && multiset(Urgent(eligible, budget)) + Pool(s) == multiset(eligible)
  {
    hide Pow2, Opening, Goes, Sound, Pool, VisitsShared, GoodOrder, Rounds, LineOf, BitsOf, HeadFits;
    var s := Shared(skip, carry, eligible, budget);
    var o := Opening(carry, eligible, budget);
    var order := VisitOrder(carry.rotation);
    BitsNonNegative(eligible);
    OpeningFacts(carry, eligible, budget);
    SharedFacts(skip, carry, eligible, budget);
    UrgentSendsAll(carry, eligible, budget);
    VisitOrderVisits(carry.rotation);
    GuardUnreachable(skip, o, order);
    assert BitsOf(o.sent) == 0.0 by { NoBits(); }
    if s.Line(c) != [] {
      LeftoverFits(Urgent(eligible, budget), s, eligible, budget, c);
      FitsGoes(s, order, c);
    }
  }

  lemma NoBits()
    ensures BitsOf([]) == 0.0
  {
  }

  lemma FitsGoes(s: Share, order: seq<TrafficClass>, c: TrafficClass)
    requires c in order && HeadFits(s, c) && 0.0 < s.left
    ensures Goes(s, order)
  {
  }

  // Emergency traffic alone never exceeds a budget for everything.
  lemma UrgentSendsAll(carry: Carry, eligible: seq<Bundle>, budget: real)
    requires GoodCarry(carry) && BitsOf(eligible) <= budget
    ensures Urgent(eligible, budget) == LineOf(Emergency, eligible)
    ensures Opening(carry, eligible, budget).left <= budget
  {
    var line := LineOf(Emergency, eligible);
    SortPermutes(ByIngress, Select(OfClass(Emergency), eligible));
    BytesPermute(line, Select(OfClass(Emergency), eligible));
    BytesSplit(OfClass(Emergency), eligible);
    GreedyAll(line, budget, false);
  }

  // When the budget covers every eligible bundle, every policy sends every eligible bundle.
  lemma EveryPolicySendsAll(
      cfg: Config, carry: Carry, eligible: seq<Bundle>, budget: real, next: Option<real>, b: Bundle)
    requires GoodCarry(carry) && BitsOf(eligible) <= budget && Bounded(cfg, budget) && b in eligible
    ensures b in Choose(cfg, carry, eligible, budget, next).sent
  {
    hide Pow2, Pool, Shared, Urgent, BitsOf, Greedy, Ranked, GoodCarry;
    if RoundRobin(cfg.policy) {
      var skip := cfg.policy == WfqSkipOver;
      RoundRobinEmpties(skip, carry, eligible, budget, Telemetry);
      RoundRobinEmpties(skip, carry, eligible, budget, ScienceBulk);
      RoundRobinEmpties(skip, carry, eligible, budget, Media);
      EmptyLines(Shared(skip, carry, eligible, budget));
      assert b in multiset(eligible);
    } else {
      OrderedSendsAll(cfg.policy, eligible, budget, next, cfg.policy == Fifo && !cfg.fifoSkipOver);
      RankedPermutes(cfg.policy, eligible, next);
      assert b in multiset(eligible);
      assert b in multiset(Ranked(cfg.policy, eligible, next));
    }
  }

  lemma EmptyLines(s: Share)
    requires s.Line(Telemetry) == [] && s.Line(ScienceBulk) == [] && s.Line(Media) == []
    ensures Pool(s) == multiset(s.sent)
  {
  }

  // ---------------------------------------------------------------- one bundle's fate

  function FirstOpen(ws: seq<Contacts.Window>, t: real): (f: nat)
    ensures f <= |ws|
    ensures forall i :: 0 <= i < f ==> ws[i].end <= t
    ensures f < |ws| ==> t < ws[f].end
  {
    if ws == [] || t < ws[0].end then 0 else 1 + FirstOpen(ws[1..], t)
  }

  // Every window could carry the whole input.
  ghost predicate Ample(cfg: Setup, ws: Plan, bundles: Batch) {
    forall k :: 0 <= k < |ws| ==> BitsOf(bundles) <= ws[k].Budget() && Bounded(cfg, ws[k].Budget())
  }

  lemma EligibleWithin(cfg: Setup, ws: Plan, bundles: Batch, k: nat)
    requires k < |ws|
    ensures BitsOf(EligibleAt(cfg, ws, bundles, k)) <= BitsOf(bundles)
  {
    hide After, Opened;
    var st := After(cfg, ws, bundles, k);
    var q := Opened(cfg, ws[k], st);
    EveryStateSane(cfg, ws, bundles, k);
    OpenedFacts(cfg, ws, k, st, bundles);
    SelectDistinct(IngressBefore(ws[k].end), q.active);
    SelectMember(IngressBefore(ws[k].end), q.active);
    BytesWithout(bundles, Eligible(q, ws[k]));
  }

  lemma AmpleSends(cfg: Setup, ws: Plan, bundles: Batch, k: nat, b: Bundle)
    requires k < |ws| && Ample(cfg, ws, bundles) && b in EligibleAt(cfg, ws, bundles, k)
    ensures b in SentAt(cfg, ws, bundles, k)
  {
    hide After, Opened, BitsOf, Bounded, Choose;
    EveryStateSane(cfg, ws, bundles, k);
    EligibleWithin(cfg, ws, bundles, k);
    EveryPolicySendsAll(cfg, After(cfg, ws, bundles, k).carry, EligibleAt(cfg, ws, bundles, k),
                        ws[k].Budget(), NextStart(ws, k), b);
  }

  // Nothing is delivered before the first window that ends after its arrival.
  lemma {:induction false} NotDeliveredEarly(cfg: Setup, ws: Plan, bundles: Batch, k: nat, b: Bundle)
    requires k <= FirstOpen(ws, b.ingress)
    ensures b !in DeliveredSet(After(cfg, ws, bundles, k).queue.outcomes)
  {
    hide After, DeliveredSet, SentAt;
    if k == 0 {
      NoneDelivered(cfg, ws, bundles, b);
    } else {
      NotDeliveredEarly(cfg, ws, bundles, k - 1, b);
      DeliveredGrows(cfg, ws, bundles, k - 1);
      SentFacts(cfg, ws, bundles, k - 1);
    }
  }

  lemma NoneDelivered(cfg: Setup, ws: Plan, bundles: Batch, b: Bundle)
    ensures b !in DeliveredSet(After(cfg, ws, bundles, 0).queue.outcomes)
  {
  }

  // The first window that ends after its arrival decides a bundle that does not overflow: it is
  // delivered there, or never.
  lemma DeliveredAtFirstOpen(cfg: Setup, ws: Plan, bundles: Batch, b: Bundle)
    requires Ample(cfg, ws, bundles) && b in bundles && !Overflows(cfg, ws, bundles, b)
    requires var f := FirstOpen(ws, b.ingress); f < |ws| && ws[f].start < b.expiration
    ensures b in Run(cfg, ws, bundles)
    ensures Run(cfg, ws, bundles)[b] == DeliveredBy(b, ws[FirstOpen(ws, b.ingress)])
  {
    hide After, Run, Overflows, Ample, SentAt, EligibleAt;
    var f := FirstOpen(ws, b.ingress);
    NotDeliveredEarly(cfg, ws, bundles, f, b);
    UndeliveredIsEligible(cfg, ws, bundles, f, b);
    AmpleSends(cfg, ws, bundles, f, b);
    SentOutcome(cfg, ws, bundles, f, b);
    FateIsFinal(cfg, ws, bundles, f + 1, b);
  }

  lemma SentOutcome(cfg: Setup, ws: Plan, bundles: Batch, k: nat, b: Bundle)
    requires k < |ws| && b in SentAt(cfg, ws, bundles, k)
    ensures Decided(After(cfg, ws, bundles, k + 1).queue.outcomes, b)
    ensures After(cfg, ws, bundles, k + 1).queue.outcomes[b] == DeliveredBy(b, ws[k])
  {
    hide After, SentAt;
    SentIsDelivered(cfg, ws, bundles, k, b);
    AfterDecides(cfg, ws, bundles, k, b);
  }

  lemma SentIsDelivered(cfg: Setup, ws: Plan, bundles: Batch, k: nat, b: Bundle)
    requires k < |ws| && b in SentAt(cfg, ws, bundles, k)
    ensures b in DeliveredSet(After(cfg, ws, bundles, k + 1).queue.outcomes)
    ensures b !in DeliveredSet(After(cfg, ws, bundles, k).queue.outcomes)
  {
    hide After, SentAt, DeliveredSet;
    DeliveredGrows(cfg, ws, bundles, k);
    assert b in set x | x in SentAt(cfg, ws, bundles, k);
  }

  lemma NeverAllowed(ws: Plan, b: Bundle)
    requires var f := FirstOpen(ws, b.ingress); f == |ws| || b.expiration <= ws[f].start
    ensures forall j :: 0 <= j < |ws| ==> !Allowed(b, ws[j])
  {
    var f := FirstOpen(ws, b.ingress);
    forall j | 0 <= j < |ws| ensures !Allowed(b, ws[j]) {
      if f <= j { StartsOrdered(ws, f, j); }
    }
  }

  lemma StartsOrdered(ws: Plan, i: nat, j: nat)
    requires i <= j < |ws|
    ensures ws[i].start <= ws[j].start
  {
    Contacts.PlanIsOrdered(ws);
  }

  lemma NotDeliveredAtAll(cfg: Setup, ws: Plan, bundles: Batch, b: Bundle)
    requires b in bundles
    requires var f := FirstOpen(ws, b.ingress); f == |ws| || b.expiration <= ws[f].start
    ensures b in Run(cfg, ws, bundles)
    ensures Run(cfg, ws, bundles)[b].state != Delivered
  {
    hide Run, Overflows;
    EveryRunIsTotal(cfg, ws, bundles);
    NeverAllowed(ws, b);
  }

  // ---------------------------------------------------------------- the law

  function Spans(ws: seq<Contacts.Window>): seq<Span> {
    if ws == [] then [] else [Span(ws[0].start, ws[0].end)] + Spans(ws[1..])
  }

  // The prediction looks only at the first window that ends after the send time.
  lemma {:induction false} PredictionAtFirstOpen(ws: seq<Contacts.Window>, t: real, ttl: real)
    requires forall i :: 0 <= i < |ws| ==> ws[i].start < ws[i].end
    ensures var f := FirstOpen(ws, t);
            PredictOne(t, Spans(ws), ttl) <==> f < |ws| && (ws[f].start <= t || ws[f].start - t < ttl)
  {
    if ws != [] && ws[0].end <= t {
      forall i | 0 <= i < |ws[1..]| ensures ws[1..][i].start < ws[1..][i].end {
        assert ws[1..][i] == ws[i + 1];
      }
      assert ws[0].start < ws[0].end;
      PredictionAtFirstOpen(ws[1..], t, ttl);
      assert Spans(ws)[1..] == Spans(ws[1..]);
    }
  }

  // Arriving inside a contact with a lifetime that had already ended when the contact opened: the one
  // case in which the scheduler expires what the prediction calls deliverable.
  ghost predicate StaleInContact(b: Bundle, ws: Plan) {
    exists k :: 0 <= k < |ws| && ws[k].Covers(b.ingress) && b.expiration <= ws[k].start
  }

  lemma StaleAtFirstOpen(b: Bundle, ws: Plan)
    ensures var f := FirstOpen(ws, b.ingress);
            StaleInContact(b, ws) <==> f < |ws| && ws[f].start <= b.ingress && b.expiration <= ws[f].start
  {
    var f := FirstOpen(ws, b.ingress);
    forall k | 0 <= k < |ws| && ws[k].Covers(b.ingress) ensures k == f {
      CoveringIsFirstOpen(ws, b.ingress, k);
    }
  }

  lemma CoveringIsFirstOpen(ws: Plan, t: real, k: nat)
    requires k < |ws| && ws[k].Covers(t)
    ensures FirstOpen(ws, t) == k
  {
    var f := FirstOpen(ws, t);
    assert f <= k;
    assert forall i :: 0 <= i < k ==> ws[i].end <= ws[k].start;
  }

  // When every window has room for everything, a bundle is delivered exactly when it is not lost to the
  // cap and the prediction says so, except for the one case above.
  lemma LifetimeLaw(cfg: Setup, ws: Plan, bundles: Batch, b: Bundle, ttl: real)
    requires Ample(cfg, ws, bundles) && b in bundles && b.expiration == b.ingress + ttl
    ensures b in Run(cfg, ws, bundles)
    ensures Run(cfg, ws, bundles)[b].state == Delivered
       <==> !Overflows(cfg, ws, bundles, b) && PredictOne(b.ingress, Spans(ws), ttl) && !StaleInContact(b, ws)
  {
    hide Run, Ample, StaleInContact, PredictOne, FirstOpen;
    var f := FirstOpen(ws, b.ingress);
    assert forall i :: 0 <= i < |ws| ==> ws[i].start < ws[i].end by {
      forall i | 0 <= i < |ws| ensures ws[i].start < ws[i].end { assert ws[i].Valid(); }
    }
    PredictionAtFirstOpen(ws, b.ingress, ttl);
    StaleAtFirstOpen(b, ws);
    EveryRunIsTotal(cfg, ws, bundles);
    if Overflows(cfg, ws, bundles, b) {
    } else if f < |ws| && ws[f].start < b.expiration {
      DeliveredAtFirstOpen(cfg, ws, bundles, b);
    } else {
      NotDeliveredAtAll(cfg, ws, bundles, b);
    }
  }

  // A positive lifetime never meets the exception: scheduler and prediction agree.
  lemma LawForPositiveLifetimes(cfg: Setup, ws: Plan, bundles: Batch, b: Bundle, ttl: real)
    requires Ample(cfg, ws, bundles) && b in bundles
    requires b.expiration == b.ingress + ttl && 0.0 < ttl
    ensures b in Run(cfg, ws, bundles)
    ensures Run(cfg, ws, bundles)[b].state == Delivered
       <==> !Overflows(cfg, ws, bundles, b) && PredictOne(b.ingress, Spans(ws), ttl)
  {
    hide Run, Overflows, Ample;
    LifetimeLaw(cfg, ws, bundles, b, ttl);
  }

  // The exception is real: a zero lifetime, sent at the very start of a contact.
  lemma LawFailsForZeroLifetime(cfg: Setup)
    ensures var w := Contacts.Window("c", 0.0, 1.0, 8000.0);
            var b := Bundle(0, Media, 1, 0.0, 0.0);
            && Contacts.ValidPlan([w]) && Distinct([b])
            && PredictOne(b.ingress, Spans([w]), 0.0)
            && b in Run(cfg, [w], [b]) && Run(cfg, [w], [b])[b].state != Delivered
  {
    var w := Contacts.Window("c", 0.0, 1.0, 8000.0);
    var b := Bundle(0, Media, 1, 0.0, 0.0);
    assert Spans([w])[0] == Span(0.0, 1.0);
    assert FirstOpen([w], 0.0) == 0;
    NotDeliveredAtAll(cfg, [w], [b], b);
  }

  // When capacity never binds, every policy gives a bundle the same record: state, contact and
  // timestamps.
  lemma PoliciesAgree(cfg: Setup, other: Setup, ws: Plan, bundles: Batch, b: Bundle)
    requires Ample(cfg, ws, bundles) && Ample(other, ws, bundles) && b in bundles
    requires !Overflows(cfg, ws, bundles, b) && !Overflows(other, ws, bundles, b)
    ensures b in Run(cfg, ws, bundles) && b in Run(other, ws, bundles)
    ensures Run(cfg, ws, bundles)[b] == Run(other, ws, bundles)[b]
  {
    hide Run, Ample;
    var f := FirstOpen(ws, b.ingress);
    if f < |ws| && ws[f].start < b.expiration {
      DeliveredAtFirstOpen(cfg, ws, bundles, b);
      DeliveredAtFirstOpen(other, ws, bundles, b);
    } else {
      NotDeliveredAtAll(cfg, ws, bundles, b);
      NotDeliveredAtAll(other, ws, bundles, b);
      EveryRunIsTotal(cfg, ws, bundles);
      EveryRunIsTotal(other, ws, bundles);
    }
  }

  // With a buffer that can hold everything, the law is what the scheduler does.
  lemma SchedulerImplementsLaw(cfg: Setup, ws: Plan, bundles: Batch, b: Bundle, ttl: real)
    requires Ample(cfg, ws, bundles) && Fits(Bytes(bundles), cfg.cap) && b in bundles
    requires b.expiration == b.ingress + ttl && 0.0 < ttl
    ensures b in Run(cfg, ws, bundles)
    ensures Run(cfg, ws, bundles)[b].state == Delivered <==> PredictOne(b.ingress, Spans(ws), ttl)
  {
    hide Run, Ample;
    Buffering.BigBufferLosesNothing(cfg, ws, bundles);
    LawForPositiveLifetimes(cfg, ws, bundles, b, ttl);
  }

  // And all policies give the same run: every state, contact and timestamp.
  lemma EveryPolicySameRun(cfg: Setup, other: Setup, ws: Plan, bundles: Batch)
    requires Ample(cfg, ws, bundles) && Fits(Bytes(bundles), cfg.cap)
    requires Ample(other, ws, bundles) && Fits(Bytes(bundles), other.cap)
    ensures Run(cfg, ws, bundles) == Run(other, ws, bundles)
  {
    hide Run, Ample;
    Buffering.BigBufferLosesNothing(cfg, ws, bundles);
    Buffering.BigBufferLosesNothing(other, ws, bundles);
    EveryRunIsTotal(cfg, ws, bundles);
    EveryRunIsTotal(other, ws, bundles);
    forall b | b in bundles ensures Run(cfg, ws, bundles)[b] == Run(other, ws, bundles)[b] {
      PoliciesAgree(cfg, other, ws, bundles, b);
    }
  }

  // ---------------------------------------------------------------- the closed form counts deliveries

  // One bundle in each whole second of the span, sent f into it.
  ghost predicate OnePerSlot(bundles: seq<Bundle>, w: seq<Slot>, lifetime: int, f: real)
    requires w != []
  {
    && |bundles| == SpanOf(w)
    && forall i :: 0 <= i < |bundles| ==>
         && bundles[i].ingress == (w[0].start + i) as real + f
         && bundles[i].expiration == bundles[i].ingress + lifetime as real
  }

  ghost function PredictedIn(s: seq<Bundle>, ws: seq<Contacts.Window>, ttl: real): set<Bundle> {
    set b | b in s && PredictOne(b.ingress, Spans(ws), ttl)
  }

  lemma PredictedCons(s: seq<Bundle>, ws: seq<Contacts.Window>, ttl: real)
    requires s != [] && Distinct(s)
    ensures |PredictedIn(s, ws, ttl)|
         == (if PredictOne(s[0].ingress, Spans(ws), ttl) then 1 else 0) + |PredictedIn(s[1..], ws, ttl)|
  {
    hide Spans, PredictOne;
    DistinctCons(s);
    var rest := PredictedIn(s[1..], ws, ttl);
    assert s == [s[0]] + s[1..];
    if PredictOne(s[0].ingress, Spans(ws), ttl) {
      assert PredictedIn(s, ws, ttl) == {s[0]} + rest && s[0] !in rest;
    } else {
      assert PredictedIn(s, ws, ttl) == rest;
    }
  }

  lemma {:induction false} PredictedCount(
      s: seq<Bundle>, ws: seq<Contacts.Window>, w: seq<Slot>, lifetime: int, f: real, lo: int)
    requires Distinct(s) && Spans(ws) == Exact(w)
    requires forall i :: 0 <= i < |s| ==> s[i].ingress == (lo + i) as real + f
    ensures |PredictedIn(s, ws, lifetime as real)| == Count(w, lifetime, f, lo, lo + |s|)
  {
    hide PredictOne, Spans, Exact;
    if s == [] {
      assert PredictedIn(s, ws, lifetime as real) == {};
    } else {
      PredictedCons(s, ws, lifetime as real);
      DistinctCons(s);
      assert forall i :: 0 <= i < |s[1..]| ==> s[1..][i] == s[i + 1];
      PredictedCount(s[1..], ws, w, lifetime, f, lo + 1);
    }
  }

  lemma {:induction false} SpansAt(ws: seq<Contacts.Window>, w: seq<Slot>)
    requires Spans(ws) == Exact(w)
    ensures |ws| == |w|
    ensures forall i :: 0 <= i < |w| ==> ws[i].start == w[i].start as real && ws[i].end == w[i].end as real
  {
    if ws != [] && w != [] {
      assert Spans(ws)[1..] == Spans(ws[1..]) && Exact(w)[1..] == Exact(w[1..]);
      assert Spans(ws)[0] == Exact(w)[0];
      SpansAt(ws[1..], w[1..]);
    }
  }

  // One bundle per whole second, a buffer that holds them all and windows that carry them all: under
  // every policy the number of deliveries is the contact time plus each gap up to the lifetime, and the
  // closed form is the fraction delivered.
  lemma DeliveriesMatchClosedForm(
      cfg: Setup, ws: Plan, bundles: Batch, w: seq<Slot>, lifetime: int, f: real)
    requires Ample(cfg, ws, bundles) && Fits(Bytes(bundles), cfg.cap)
    requires w != [] && Spans(ws) == Exact(w) && 0 < lifetime && 0.0 < f < 1.0
    requires OnePerSlot(bundles, w, lifetime, f)
    ensures |DeliveredSet(Run(cfg, ws, bundles))| == ContactTime(w) + BridgedGaps(w, lifetime)
    ensures bundles != [] ==>
              |DeliveredSet(Run(cfg, ws, bundles))| as real / |bundles| as real == ClosedForm(w, lifetime)
  {
    hide Run, Ample, PredictOne, Spans, Exact, Count, ContactTime, BridgedGaps, Distinct, Bytes;
    SpansAt(ws, w);
    SlotsOrdered(ws, w);
    ClosedFormCounts(w, lifetime, f);
    PredictedCount(bundles, ws, w, lifetime, f, w[0].start);
    DeliveredIsPredicted(cfg, ws, bundles, w, lifetime, f);
  }

  lemma SlotsOrdered(ws: Plan, w: seq<Slot>)
    requires |ws| == |w|
    requires forall i :: 0 <= i < |w| ==> ws[i].start == w[i].start as real && ws[i].end == w[i].end as real
    ensures OrderedSlots(w)
  {
    forall i | 0 <= i < |w| ensures w[i].start <= w[i].end {
      assert ws[i].Valid();
    }
    forall i | 0 < i < |w| ensures w[i - 1].end <= w[i].start {
      assert ws[i - 1].end <= ws[i].start;
    }
  }

  lemma DeliveredIsPredicted(
      cfg: Setup, ws: Plan, bundles: Batch, w: seq<Slot>, lifetime: int, f: real)
    requires Ample(cfg, ws, bundles) && Fits(Bytes(bundles), cfg.cap)
    requires w != [] && 0 < lifetime && OnePerSlot(bundles, w, lifetime, f)
    ensures DeliveredSet(Run(cfg, ws, bundles)) == PredictedIn(bundles, ws, lifetime as real)
  {
    hide Run, Ample, PredictOne, Spans, Distinct, Bytes;
    EveryRunIsTotal(cfg, ws, bundles);
    forall b | b in bundles
      ensures b in DeliveredSet(Run(cfg, ws, bundles)) <==> b in PredictedIn(bundles, ws, lifetime as real)
    {
      SchedulerImplementsLaw(cfg, ws, bundles, b, lifetime as real);
    }
  }
}
