/** The rotating round robin across windows: under the standard one a bundle at the head of its class goes
    out within fifteen windows it fits, and how carried deficits grow. */
module Starvation {
  import opened Traffic
  import opened Telemetry
  import opened Selection
  import opened Admission
  import opened Drain
  import opened Drr
  import opened Policies
  import opened Replay
  import opened Fates
  import opened Reach
  import opened WindowFairness
  import opened Wrappers
  import Contacts
  import Precedence

  ghost predicate Heads(s: Share, c: TrafficClass, h: Bundle) {
    s.Line(c) != [] && s.Line(c)[0] == h
  }

  // ---------------------------------------------------------------- one round

  // In the standard round robin an unsent head blocks its class.
  lemma TurnBlocks(s: Share, d: TrafficClass, grant: real, c: TrafficClass, h: Bundle)
    requires Pure(s) && Heads(s, c, h)
    ensures var r := Turn(false, s, d, grant);
            h !in r.sent ==> r.Line(c) == s.Line(c) && SentBits(r, c) == SentBits(s, c)
  {
    var r := Turn(false, s, d, grant);
    TurnServes(false, s, d, grant, c);
    if d == c && h !in r.sent {
      var room := Min(s.Credit(c) + grant, s.left);
      HeadOrNothing(s.Line(c), room);
      assert r.sent == s.sent + Greedy(s.Line(c), room, true);
      assert BitsOf([]) == 0.0;
    }
  }

  lemma HeadOrNothing(s: seq<Bundle>, room: real)
    requires s != []
    ensures s[0].Bits() <= room ==> s[0] in Greedy(s, room, true)
    ensures room < s[0].Bits() ==> Greedy(s, room, true) == [] && Passed(s, room, true) == s
  {
  }

  lemma {:induction false} TurnsBlock(
      s: Share, cs: seq<TrafficClass>, budget: real, total: real, c: TrafficClass, h: Bundle)
    requires Pure(s) && Heads(s, c, h) && 0.0 < total
    ensures var r := Turns(false, s, cs, budget, total);
            h !in r.sent ==> r.Line(c) == s.Line(c) && SentBits(r, c) == SentBits(s, c)
    decreases |cs|
  {
    hide Turn, Pure, SentBits;
    if cs != [] {
      var grant := budget * (Weight(cs[0]) / total);
      var t := Turn(false, s, cs[0], grant);
      TurnPure(false, s, cs[0], grant);
      TurnBlocks(s, cs[0], grant, c, h);
      Precedence.TurnsSentGrows(false, t, cs[1..], budget, total, h);
      if h !in t.sent {
        TurnsBlock(t, cs[1..], budget, total, c, h);
      }
    }
  }

  // A round leaves an unsent head with at least a twelfth of the budget more deficit.
  lemma RoundGrants(s: Share, order: seq<TrafficClass>, c: TrafficClass, h: Bundle)
    requires Pure(s) && Sound(s) && VisitsShared(order) && Goes(s, order) && c in order && Heads(s, c, h)
    ensures var r := Round(false, s, order);
            && Pure(r) && Sound(r)
            && (h !in r.sent ==> Heads(r, c, h) && r.Credit(c) >= s.Credit(c) + s.left / 12.0)
  {
    hide Pure, Sound, Turns, SentBits, Paid, Share.Credit;
    var cs := Backlogged(s, order);
    BackloggedFacts(s, order);
    RoundPays(false, s, order, c);
    TurnsBlock(s, cs, s.left, TotalWeight(cs), c, h);
    SoundLeft(s);
    if h !in Round(false, s, order).sent { UnsentKeepsGrant(s, Round(false, s, order), c, TotalWeight(cs)); }
  }

  lemma UnsentKeepsGrant(s: Share, r: Share, c: TrafficClass, total: real)
    requires 0.0 < total <= 12.0 && 0.0 <= s.left
    requires Paid(s, r, c, Quantum(s.left, total, c)) && SentBits(r, c) == SentBits(s, c)
    ensures r.Credit(c) >= s.Credit(c) + s.left / 12.0
  {
    hide SentBits, Quantum, Share.Credit;
    QuantumAtLeastTwelfth(c, s.left, total);
  }

  lemma QuantumAtLeastTwelfth(c: TrafficClass, budget: real, total: real)
    requires 0.0 < total <= 12.0 && 0.0 <= budget
    ensures Quantum(budget, total, c) >= budget / 12.0
  {
    hide Weight;
    GrantAtLeastTwelfth(c, budget, total);
  }

  // ---------------------------------------------------------------- one window

  lemma {:induction false} RoundsGrant(s: Share, order: seq<TrafficClass>, rnd: nat, c: TrafficClass, h: Bundle)
    requires rnd <= LAST_ROUND && Pure(s) && Sound(s) && VisitsShared(order) && c in order && Heads(s, c, h)
    ensures var r := Rounds(false, s, order, rnd);
            h !in r.sent ==> r.Credit(c) >= s.Credit(c) + if Goes(s, order) then s.left / 12.0 else 0.0
    decreases LAST_ROUND - rnd, s
  {
    hide Goes, Round, Pure, Sound, VisitsShared, Heads;
    if Goes(s, order) {
      var t := Round(false, s, order);
      RoundGrants(s, order, c, h);
      if rnd < LAST_ROUND {
        Precedence.RoundsSentGrows(false, t, order, rnd + 1, h);
        if h !in t.sent {
          RoundsGrant(t, order, rnd + 1, c, h);
          SoundLeft(t);
        }
      }
    }
  }

  // A fitting head of the class visited first goes out once its deficit covers it.
  lemma FirstIsServed(s: Share, order: seq<TrafficClass>, c: TrafficClass, h: Bundle)
    requires Sound(s) && VisitsShared(order) && order != [] && order[0] == c && Heads(s, c, h)
    requires h.Bits() <= s.left && h.Bits() <= s.Credit(c)
    ensures h in Rounds(false, s, order, 0).sent
  {
    hide VisitsShared, Sound, Round, Share.Credit;
    assert c in order;
    FittingHeadGoes(s, order, c);
    FirstTurnServes(s, order, c, h);
    Precedence.RoundsSentGrows(false, Round(false, s, order), order, 1, h);
  }

  lemma FittingHeadGoes(s: Share, order: seq<TrafficClass>, c: TrafficClass)
    requires c in order && HeadFits(s, c)
    ensures Goes(s, order)
  {
  }

  lemma FirstTurnServes(s: Share, order: seq<TrafficClass>, c: TrafficClass, h: Bundle)
    requires Sound(s) && order != [] && order[0] == c && Heads(s, c, h) && Goes(s, order) && VisitsShared(order)
    requires h.Bits() <= s.left && h.Bits() <= s.Credit(c)
    ensures h in Round(false, s, order).sent
  {
    hide Turns, Goes, Share.Credit;
    var cs := Backlogged(s, order);
    BackloggedFacts(s, order);
    assert cs != [] && cs[0] == c;
    FirstOfTurns(s, cs, s.left, TotalWeight(cs), h);
  }

  lemma FirstOfTurns(s: Share, cs: seq<TrafficClass>, budget: real, total: real, h: Bundle)
    requires cs != [] && Heads(s, cs[0], h) && 0.0 <= budget && 0.0 < total <= 12.0
    requires h.Bits() <= s.left && h.Bits() <= s.Credit(cs[0])
    ensures h in Turns(false, s, cs, budget, total).sent
  {
    hide Turn, Heads;
    var grant := budget * (Weight(cs[0]) / total);
    GrantAtLeastTwelfth(cs[0], budget, total);
    TurnServesHead(s, cs[0], grant, h);
    Precedence.TurnsSentGrows(false, Turn(false, s, cs[0], grant), cs[1..], budget, total, h);
  }

  lemma TurnServesHead(s: Share, c: TrafficClass, grant: real, h: Bundle)
    requires Heads(s, c, h) && 0.0 <= grant && h.Bits() <= s.left && h.Bits() <= s.Credit(c)
    ensures h in Turn(false, s, c, grant).sent
  {
    HeadOrNothing(s.Line(c), Min(s.Credit(c) + grant, s.left));
  }

  // The deficit a class brings into a window.
  function Owed(carry: Carry, c: TrafficClass): real {
    if c in carry.deficit then carry.deficit[c] else 0.0
  }

  // The bundle is the oldest of its class among the eligible ones.
  ghost predicate Oldest(el: seq<Bundle>, h: Bundle) {
    h in el && forall b :: b in el && b.cls == h.cls && b != h ==> h.ingress < b.ingress
  }

  lemma OldestHeads(carry: Carry, el: seq<Bundle>, budget: real, h: Bundle)
    requires Oldest(el, h) && h.cls != Emergency
    ensures var o := Opening(carry, el, budget);
            Heads(o, h.cls, h) && o.Credit(h.cls) == Owed(carry, h.cls)
  {
    var line := LineOf(h.cls, el);
    LineMembers(h.cls, el);
    SortSorted(ByIngress, Select(OfClass(h.cls), el));
    hide Sort, Select, Urgent;
    assert h in line;
    assert line[0] in line;
    var i :| 0 <= i < |line| && line[i] == h;
    assert 0 < i ==> !Before(ByIngress, line[i], line[0]);
    assert line[0] == h;
    assert Opening(carry, el, budget).Line(h.cls) == line;
  }

  // What the rest of the window has for the shared classes once emergency traffic has gone.
  function Remainder(el: seq<Bundle>, budget: real): real {
    budget - BitsOf(Urgent(el, budget))
  }

  // A window that does not send the oldest bundle of a class, although it fits what emergency traffic
  // leaves, leaves the class a twelfth of that bundle more deficit, and did not visit the class first
  // with its deficit covering the bundle.
  lemma WindowGrants(cfg: Config, carry: Carry, el: seq<Bundle>, budget: real, next: Option<real>, h: Bundle)
    requires cfg.policy == Wfq && GoodCarry(carry) && 0.0 <= budget && Oldest(el, h) && h.cls != Emergency
    requires h.Bits() <= Remainder(el, budget)
    requires h !in Choose(cfg, carry, el, budget, next).sent
    ensures var after := Choose(cfg, carry, el, budget, next).carry;
            Owed(after, h.cls) >= Owed(carry, h.cls) + h.Bits() / 12.0
    ensures VisitOrder(carry.rotation)[0] == h.cls ==> Owed(carry, h.cls) < h.Bits()
  {
    hide Opening, Rounds, VisitOrder, Urgent, Goes, Pure, Sound, VisitsShared, Pool, Oldest;
    var c, o, order := h.cls, Opening(carry, el, budget), VisitOrder(carry.rotation);
    OpeningFacts(carry, el, budget);
    OpeningPure(carry, el, budget);
    VisitOrderVisits(carry.rotation);
    SharedInOrder(order, c);
    OldestHeads(carry, el, budget, h);
    FittingHeadGoes(o, order, c);
    RoundsGrant(o, order, 0, c, h);
    if order[0] == c && h.Bits() <= Owed(carry, c) {
      FirstIsServed(o, order, c, h);
    }
  }

  lemma NoRoundSendsNone(s: Share, order: seq<TrafficClass>)
    requires !Goes(s, order)
    ensures Rounds(false, s, order, 0) == s
  {
  }

  lemma UrgentIsEmergency(el: seq<Bundle>, budget: real)
    ensures forall b :: b in Urgent(el, budget) ==> b.cls == Emergency
  {
    LineMembers(Emergency, el);
    GreedyMembers(LineOf(Emergency, el), budget, false);
  }

  lemma UnfitIsUnsent(cfg: Config, carry: Carry, el: seq<Bundle>, budget: real, h: Bundle)
    requires GoodCarry(carry) && 0.0 <= budget && Remainder(el, budget) < h.Bits()
    ensures h !in Shared(false, carry, el, budget).sent
  {
    hide Shared, Opening, Urgent, Greedy, Pool, Sound;
    var s := Shared(false, carry, el, budget);
    SharedFacts(false, carry, el, budget);
    BitsAppend(Urgent(el, budget), s.sent);
    if h in s.sent { InBits(h, s.sent); }
  }

  lemma SharedInOrder(order: seq<TrafficClass>, c: TrafficClass)
    requires VisitsShared(order) && c != Emergency
    ensures c in order && order != []
  {
    assert SHARED[PlaceOf(c)] == c;
  }

  // A head that does not fit what emergency traffic leaves collects a twelfth of it in every window that
  // serves any other class.
  lemma UnfitHeadCollects(
      cfg: Config, carry: Carry, el: seq<Bundle>, budget: real, next: Option<real>, h: Bundle)
    requires cfg.policy == Wfq && GoodCarry(carry) && 0.0 <= budget && Oldest(el, h) && h.cls != Emergency
    requires Remainder(el, budget) < h.Bits()
    requires exists b :: b in Choose(cfg, carry, el, budget, next).sent && b.cls != Emergency
    ensures var after := Choose(cfg, carry, el, budget, next).carry;
            Owed(after, h.cls) >= Owed(carry, h.cls) + Remainder(el, budget) / 12.0
  {
    hide Opening, Rounds, VisitOrder, Urgent, Goes, Pure, Sound, VisitsShared, Pool, Oldest;
    var c, o, order := h.cls, Opening(carry, el, budget), VisitOrder(carry.rotation);
    OpeningFacts(carry, el, budget);
    OpeningPure(carry, el, budget);
    VisitOrderVisits(carry.rotation);
    SharedInOrder(order, c);
    OldestHeads(carry, el, budget, h);
    UnfitIsUnsent(cfg, carry, el, budget, h);
    RoundsGrant(o, order, 0, c, h);
    if !Goes(o, order) {
      NoRoundSendsNone(o, order);
      UrgentIsEmergency(el, budget);
    }
  }

  // ---------------------------------------------------------------- across windows

  lemma {:induction false} RotationAt(cfg: Setup, ws: Plan, bundles: Batch, k: nat)
    requires RoundRobin(cfg.policy) && k <= |ws|
    ensures After(cfg, ws, bundles, k).carry.rotation == k % 3
  {
    hide *;
    if k == 0 {
      RotationFirst(cfg, ws, bundles);
    } else {
      RotationAt(cfg, ws, bundles, k - 1);
      RotationStep(cfg, ws, bundles, k - 1);
      NextThird(k);
    }
  }

  lemma NextThird(k: nat)
    requires 0 < k
    ensures ((k - 1) % 3 + 1) % 3 == k % 3
  {
  }

  lemma RotationFirst(cfg: Setup, ws: Plan, bundles: Batch)
    ensures After(cfg, ws, bundles, 0).carry.rotation == 0
  {
  }

  lemma RotationStep(cfg: Setup, ws: Plan, bundles: Batch, k: nat)
    requires RoundRobin(cfg.policy) && k < |ws|
    ensures After(cfg, ws, bundles, k + 1).carry.rotation == (After(cfg, ws, bundles, k).carry.rotation + 1) % 3
    ensures After(cfg, ws, bundles, k + 1).carry == ChosenAt(cfg, ws, k, After(cfg, ws, bundles, k)).carry
  {
    hide After, Opened, Shared, Urgent, Leave, Later;
    AfterVisit(cfg, ws, bundles, k);
  }

  // Class SHARED[i] is visited first in every third window.
  lemma FirstVisited(rotation: nat)
    ensures VisitOrder(rotation)[0] == SHARED[rotation % 3]
  {
  }

  // At window t the bundle is eligible, fits what emergency traffic leaves, and is not sent.
  ghost predicate WaitsAt(cfg: Setup, ws: Plan, bundles: Batch, t: nat, h: Bundle)
    requires t < |ws|
  {
    && h in EligibleAt(cfg, ws, bundles, t) && h !in SentAt(cfg, ws, bundles, t)
    && h.Bits() <= Remainder(EligibleAt(cfg, ws, bundles, t), ws[t].Budget())
  }

  // What is neither in the buffer nor still to come has its fate.
  lemma GoneIsDecided(cfg: Setup, ws: Plan, bundles: Batch, k: nat, b: Bundle)
    requires k < |ws| && b in bundles && b.ingress < ws[k].end && b !in EligibleAt(cfg, ws, bundles, k)
    ensures Decided(After(cfg, ws, bundles, k + 1).queue.outcomes, b)
  {
    hide After, Arrive, Expire, Leave, ChosenAt, Sane, Consistent;
    var st := After(cfg, ws, bundles, k);
    var a, q := Arrive(cfg, st, Some(ws[k].end)).queue, Opened(cfg, ws[k], st);
    EveryStateSane(cfg, ws, bundles, k);
    ArriveOffers(cfg, st, ws[k].end, bundles, b);
    ArriveDecides(cfg, st, Some(ws[k].end), bundles, b);
    ExpireDecides(a, ws[k].start, cfg.cap, b);
    ExpireKeeps(a, ws[k].start, cfg.cap);
    SelectMember(IngressBefore(ws[k].end), q.active);
    NotActiveIsDecided(q, cfg.cap, b);
    SaneCarry(st, bundles, cfg.cap);
    SentWereEligible(cfg, ws, k, st);
    LeaveDecides(q, ChosenAt(cfg, ws, k, st).sent, Sent(ws[k]), cfg.cap, b);
    AfterVisit(cfg, ws, bundles, k);
    SentNotDecided(q, cfg.cap, ChosenAt(cfg, ws, k, st).sent, b);
  }

  lemma NotActiveIsDecided(q: Queue, cap: real, b: Bundle)
    requires Consistent(q, cap) && b in q.outcomes && b !in q.active
    ensures Decided(q.outcomes, b)
  {
  }

  lemma SentNotDecided(q: Queue, cap: real, sent: seq<Bundle>, b: Bundle)
    requires Consistent(q, cap) && (forall x :: x in sent ==> x in q.active) && Decided(q.outcomes, b)
    ensures b !in sent
  {
  }

  lemma DecidedIsNotEligible(cfg: Setup, ws: Plan, bundles: Batch, k: nat, b: Bundle)
    requires k < |ws| && Decided(After(cfg, ws, bundles, k).queue.outcomes, b)
    ensures b !in EligibleAt(cfg, ws, bundles, k)
  {
    hide After, Arrive, Opened;
    var st := After(cfg, ws, bundles, k);
    EveryStateSane(cfg, ws, bundles, k);
    ArriveDecides(cfg, st, Some(ws[k].end), bundles, b);
    EligibleFacts(cfg, ws[k], st);
  }

  lemma EligibleKnown(cfg: Setup, ws: Plan, bundles: Batch, k: nat)
    requires k < |ws|
    ensures forall b :: b in EligibleAt(cfg, ws, bundles, k) ==> b in bundles && b.ingress < ws[k].end
  {
    hide After, Opened;
    var st := After(cfg, ws, bundles, k);
    EveryStateSane(cfg, ws, bundles, k);
    OpenedFacts(cfg, ws, k, st, bundles);
    EligibleFacts(cfg, ws[k], st);
  }

  // The oldest bundle of its class stays the oldest while it is eligible: what could precede it has had
  // its fate.
  lemma StaysOldest(cfg: Setup, ws: Plan, bundles: Batch, k: nat, t: nat, h: Bundle)
    requires k <= t < |ws| && Oldest(EligibleAt(cfg, ws, bundles, k), h)
    requires h in EligibleAt(cfg, ws, bundles, t)
    ensures Oldest(EligibleAt(cfg, ws, bundles, t), h)
  {
    hide After, EligibleAt, Decided;
    if k < t {
      EligibleKnown(cfg, ws, bundles, k);
      EligibleKnown(cfg, ws, bundles, t);
      forall b | b in EligibleAt(cfg, ws, bundles, t) && b.cls == h.cls && b != h ensures h.ingress < b.ingress {
        if b.ingress <= h.ingress {
          GoneIsDecided(cfg, ws, bundles, k, b);
          FateKept(cfg, ws, bundles, k + 1, t, b);
          DecidedIsNotEligible(cfg, ws, bundles, t, b);
        }
      }
    }
  }

  function CreditAt(cfg: Setup, ws: Plan, bundles: Batch, k: nat, c: TrafficClass): real
    requires k <= |ws|
  {
    Owed(After(cfg, ws, bundles, k).carry, c)
  }

  lemma StepGrants(cfg: Setup, ws: Plan, bundles: Batch, t: nat, h: Bundle)
    requires cfg.policy == Wfq && h.cls != Emergency && t < |ws|
    requires Oldest(EligibleAt(cfg, ws, bundles, t), h) && WaitsAt(cfg, ws, bundles, t, h)
    ensures CreditAt(cfg, ws, bundles, t + 1, h.cls) >= CreditAt(cfg, ws, bundles, t, h.cls) + h.Bits() / 12.0
    ensures SHARED[t % 3] == h.cls ==> CreditAt(cfg, ws, bundles, t, h.cls) < h.Bits()
  {
    hide After, Opened, Choose, Oldest, Remainder, Owed, VisitOrder, Sane, GoodCarry;
    var st := After(cfg, ws, bundles, t);
    EveryStateSane(cfg, ws, bundles, t);
    SaneCarry(st, bundles, cfg.cap);
    BudgetNonNegative(ws[t]);
    RotationAt(cfg, ws, bundles, t);
    RotationStep(cfg, ws, bundles, t);
    FirstVisited(st.carry.rotation);
    WindowGrants(cfg, st.carry, EligibleAt(cfg, ws, bundles, t), ws[t].Budget(), NextStart(ws, t), h);
  }

  lemma {:induction false} CreditGrows(cfg: Setup, ws: Plan, bundles: Batch, k: nat, n: nat, h: Bundle)
    requires cfg.policy == Wfq && h.cls != Emergency && k + n <= |ws|
    requires forall t :: k <= t < k + n ==> WaitsAt(cfg, ws, bundles, t, h)
    requires 0 < n ==> Oldest(EligibleAt(cfg, ws, bundles, k), h)
    ensures CreditAt(cfg, ws, bundles, k + n, h.cls) >= n as real * (h.Bits() / 12.0)
  {
    hide After, Oldest, EligibleAt, SentAt, Remainder, CreditAt;
    if n == 0 {
      CreditNonNegative(cfg, ws, bundles, k, h.cls);
    } else {
      var t := k + n - 1;
      assert WaitsAt(cfg, ws, bundles, t, h);
      CreditGrows(cfg, ws, bundles, k, n - 1, h);
      StaysOldest(cfg, ws, bundles, k, t, h);
      StepGrants(cfg, ws, bundles, t, h);
      OneMore(n, h.Bits() / 12.0);
    }
  }

  lemma OneMore(n: nat, x: real)
    requires 0 < n
    ensures n as real * x == (n - 1) as real * x + x
  {
    assert n as real == (n - 1) as real + 1.0;
  }

  lemma CreditNonNegative(cfg: Setup, ws: Plan, bundles: Batch, k: nat, c: TrafficClass)
    requires k <= |ws|
    ensures 0.0 <= CreditAt(cfg, ws, bundles, k, c)
  {
    hide After, Consistent;
    EveryStateSane(cfg, ws, bundles, k);
  }

  // No starvation under the standard round robin. Take the oldest eligible bundle of a shared class. Within
  // fifteen windows from there it is sent, or it has left the buffer, or some window has too few bits left
  // for it after emergency traffic.
  lemma NoStarvation(cfg: Setup, ws: Plan, bundles: Batch, k: nat, h: Bundle)
    requires cfg.policy == Wfq && h.cls != Emergency && k + 15 <= |ws|
    requires Oldest(EligibleAt(cfg, ws, bundles, k), h)
    ensures exists t :: k <= t < k + 15 && !WaitsAt(cfg, ws, bundles, t, h)
  {
    hide *;
    var n := TurnFor(h.cls, k);
    if forall t :: k <= t < k + n ==> WaitsAt(cfg, ws, bundles, t, h) {
      ServedByThen(cfg, ws, bundles, k, n, h);
      assert k <= k + n < k + 15;
    }
  }

  // Once it has waited for twelve windows, its class's deficit covers it.
  lemma ServedByThen(cfg: Setup, ws: Plan, bundles: Batch, k: nat, n: nat, h: Bundle)
    requires cfg.policy == Wfq && h.cls != Emergency && 12 <= n && k + n < |ws| && SHARED[(k + n) % 3] == h.cls
    requires Oldest(EligibleAt(cfg, ws, bundles, k), h)
    requires forall t :: k <= t < k + n ==> WaitsAt(cfg, ws, bundles, t, h)
    ensures !WaitsAt(cfg, ws, bundles, k + n, h)
  {
    hide Oldest, EligibleAt, SentAt, Remainder, CreditAt;
    var t := k + n;
    CreditGrows(cfg, ws, bundles, k, n, h);
    TwelveCover(n, h.Bits());
    if WaitsAt(cfg, ws, bundles, t, h) {
      StaysOldest(cfg, ws, bundles, k, t, h);
      StepGrants(cfg, ws, bundles, t, h);
    }
  }

  // So a bundle at the head of its class that never overflows, outlives fifteen windows and fits what
  // emergency traffic leaves of each is delivered.
  lemma OldestIsDelivered(cfg: Setup, ws: Plan, bundles: Batch, k: nat, h: Bundle)
    requires cfg.policy == Wfq && h.cls != Emergency && k + 15 <= |ws|
    requires Oldest(EligibleAt(cfg, ws, bundles, k), h) && !Overflows(cfg, ws, bundles, h)
    requires ws[k + 14].start < h.expiration
    requires forall t :: k <= t < k + 15 ==> h.Bits() <= Remainder(EligibleAt(cfg, ws, bundles, t), ws[t].Budget())
    ensures h in DeliveredSet(After(cfg, ws, bundles, k + 15).queue.outcomes)
  {
    hide Oldest, After, EligibleAt, SentAt, Remainder, Overflows, DeliveredSet;
    NoStarvation(cfg, ws, bundles, k, h);
    var t :| k <= t < k + 15 && !WaitsAt(cfg, ws, bundles, t, h);
    EligibleKnown(cfg, ws, bundles, k);
    HeadEligible(cfg, ws, bundles, k, h);
    Contacts.PlanIsOrdered(ws);
    assert Allowed(h, ws[t]);
    if h !in DeliveredSet(After(cfg, ws, bundles, t).queue.outcomes) {
      UndeliveredIsEligible(cfg, ws, bundles, t, h);
    }
    DeliveredGrows(cfg, ws, bundles, t);
    DeliveredStays(cfg, ws, bundles, t + 1, k + 15, h);
  }

  lemma HeadEligible(cfg: Setup, ws: Plan, bundles: Batch, k: nat, h: Bundle)
    requires k < |ws| && Oldest(EligibleAt(cfg, ws, bundles, k), h)
    ensures h in EligibleAt(cfg, ws, bundles, k)
  {
  }

  lemma DeliveredStays(cfg: Setup, ws: Plan, bundles: Batch, i: nat, k: nat, b: Bundle)
    requires i <= k <= |ws| && b in DeliveredSet(After(cfg, ws, bundles, i).queue.outcomes)
    ensures b in DeliveredSet(After(cfg, ws, bundles, k).queue.outcomes)
  {
    hide After;
    FateKept(cfg, ws, bundles, i, k, b);
  }

  lemma TwelveCover(n: nat, bits: real)
    requires 12 <= n && 0.0 <= bits
    ensures bits <= n as real * (bits / 12.0)
  {
    MulMono(bits / 12.0, 12.0, n as real);
    assert (bits / 12.0) * 12.0 == bits;
    assert n as real * (bits / 12.0) == (bits / 12.0) * n as real;
  }

  lemma NextOfThree(k: nat, i: nat)
    requires i < 3
    ensures (k + 12) % 3 == i || (k + 13) % 3 == i || (k + 14) % 3 == i
  {
  }

  function PlaceOf(c: TrafficClass): (i: nat)
    requires c != Emergency
    ensures i < 3 && SHARED[i] == c
  {
    match c
    case Telemetry => 0
    case ScienceBulk => 1
    case Media => 2
  }

  // One of the three windows from the twelfth on visits the class first.
  function TurnFor(c: TrafficClass, k: nat): (n: nat)
    requires c != Emergency
    ensures 12 <= n < 15 && SHARED[(k + n) % 3] == c
  {
    var i := PlaceOf(c);
    NextOfThree(k, i);
    if (k + 12) % 3 == i then 12 else if (k + 13) % 3 == i then 13 else 14
  }
}
