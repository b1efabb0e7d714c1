/** The order of eviction at the live gateway: lowest class first, newest first within a class, and not
    one bundle more than the arrival needs. */
module LiveEviction {
  import opened Traffic
  import opened Telemetry
  import opened Selection
  import opened Live
  import opened LiveOrder
  import LiveLaws

  function OfKind(s: seq<Bundle>, c: TrafficClass): seq<Bundle> {
    Select(OfClass(c), s)
  }

  // Removing the newest bundle of class c shortens that class's line at its end and no other.
  lemma NewestGone(s: seq<Bundle>, c: TrafficClass, d: TrafficClass)
    requires Has(s, c)
    ensures var w := Without(s, LastOf(s, c));
            && (d != c ==> OfKind(w, d) == OfKind(s, d))
            && OfKind(s, c) == OfKind(w, c) + [s[LastOf(s, c)]]
  {
    var i := LastOf(s, c);
    assert s == s[..i] + ([s[i]] + s[i + 1..]);
    SelectAppend(OfClass(c), s[..i], [s[i]] + s[i + 1..]);
    SelectAppend(OfClass(c), [s[i]], s[i + 1..]);
    SelectAppend(OfClass(c), s[..i], s[i + 1..]);
    SelectAppend(OfClass(d), s[..i], [s[i]] + s[i + 1..]);
    SelectAppend(OfClass(d), [s[i]], s[i + 1..]);
    SelectAppend(OfClass(d), s[..i], s[i + 1..]);
    SelectNone(OfClass(c), s[i + 1..]);
  }

  lemma {:induction false} ClassLosesNewest(g: Gate, c: TrafficClass, b: Bundle, cap: nat, d: TrafficClass)
    ensures OfKind(EvictClass(g, c, b, cap).queued, d) <= OfKind(g.queued, d)
    ensures d != c ==> OfKind(EvictClass(g, c, b, cap).queued, d) == OfKind(g.queued, d)
    decreases |g.queued|
  {
    hide Bytes, Select, LastOf;
    if Over(g.queued, b, cap) && Has(g.queued, c) {
      var i := LastOf(g.queued, c);
      LiveLaws.WithoutPartition(g.queued, i);
      NewestGone(g.queued, c, d);
      NewestGone(g.queued, c, c);
      ClassLosesNewest(g.(queued := Without(g.queued, i),
                          ledger := g.ledger.(evicted := g.ledger.evicted + [g.queued[i]])), c, b, cap, d);
    }
  }

  lemma {:induction false} ClassesLoseNewest(g: Gate, cs: seq<TrafficClass>, b: Bundle, cap: nat, d: TrafficClass)
    ensures OfKind(EvictBelow(g, cs, b, cap).queued, d) <= OfKind(g.queued, d)
    ensures d !in cs ==> OfKind(EvictBelow(g, cs, b, cap).queued, d) == OfKind(g.queued, d)
    decreases |cs|
  {
    hide OfKind, EvictClass;
    if cs != [] && b.Rank() < Rank(cs[0]) {
      ClassLosesNewest(g, cs[0], b, cap, d);
      ClassesLoseNewest(EvictClass(g, cs[0], b, cap), cs[1..], b, cap, d);
    }
  }

  // Once the arrival fits, nobody else is evicted.
  lemma {:induction false} FitsEvictsNone(g: Gate, cs: seq<TrafficClass>, b: Bundle, cap: nat)
    requires !Over(g.queued, b, cap)
    ensures EvictBelow(g, cs, b, cap) == g
    decreases |cs|
  {
    if cs != [] && b.Rank() < Rank(cs[0]) {
      FitsEvictsNone(g, cs[1..], b, cap);
    }
  }

  // If class cs[j] lost a bundle, every class before it in the order has none left.
  lemma {:induction false} EarlierClassesFirst(
      g: Gate, cs: seq<TrafficClass>, b: Bundle, cap: nat, i: nat, j: nat)
    requires i < j < |cs| && Descending(cs)
    ensures var e := EvictBelow(g, cs, b, cap);
            OfKind(e.queued, cs[j]) != OfKind(g.queued, cs[j]) ==> OfKind(e.queued, cs[i]) == []
    decreases |cs|
  {
    hide EvictClass, Bytes, Select;
    if b.Rank() < Rank(cs[0]) {
      var m := EvictClass(g, cs[0], b, cap);
      var e := EvictBelow(m, cs[1..], b, cap);
      assert cs[1..][j - 1] == cs[j] && Rank(cs[j]) < Rank(cs[0]);
      ClassLosesNewest(g, cs[0], b, cap, cs[j]);
      if i == 0 {
        if Over(m.queued, b, cap) {
          OverEmpties(g, cs[0], b, cap);
          ClassesLoseNewest(m, cs[1..], b, cap, cs[0]);
        } else {
          FitsEvictsNone(m, cs[1..], b, cap);
        }
      } else {
        assert cs[1..][i - 1] == cs[i];
        EarlierClassesFirst(m, cs[1..], b, cap, i - 1, j - 1);
      }
    }
  }

  lemma OverEmpties(g: Gate, c: TrafficClass, b: Bundle, cap: nat)
    requires Over(EvictClass(g, c, b, cap).queued, b, cap)
    ensures OfKind(EvictClass(g, c, b, cap).queued, c) == []
  {
    var e := EvictClass(g, c, b, cap);
    EvictClassFacts(g, c, b, cap, Rank(c) - 1);
    SelectNone(OfClass(c), e.queued);
  }

  // Without its last eviction the gateway would still be over its cap.
  ghost predicate LastNeeded(g: Gate, e: Gate, b: Bundle, cap: nat) {
    var n := |e.ledger.evicted|;
    g.ledger.evicted <= e.ledger.evicted
    && (|g.ledger.evicted| < n ==> cap < Bytes(e.queued) + e.ledger.evicted[n - 1].size + b.size)
  }

  lemma {:induction false} ClassLastNeeded(g: Gate, c: TrafficClass, b: Bundle, cap: nat)
    ensures LastNeeded(g, EvictClass(g, c, b, cap), b, cap)
    ensures |EvictClass(g, c, b, cap).ledger.evicted| == |g.ledger.evicted| ==> EvictClass(g, c, b, cap) == g
    decreases |g.queued|
  {
    hide Bytes, LastOf;
    if Over(g.queued, b, cap) && Has(g.queued, c) {
      var i := LastOf(g.queued, c);
      LiveLaws.WithoutPartition(g.queued, i);
      ClassLastNeeded(g.(queued := Without(g.queued, i),
                         ledger := g.ledger.(evicted := g.ledger.evicted + [g.queued[i]])), c, b, cap);
    }
  }

  lemma {:induction false} ClassesLastNeeded(g: Gate, cs: seq<TrafficClass>, b: Bundle, cap: nat)
    ensures LastNeeded(g, EvictBelow(g, cs, b, cap), b, cap)
    ensures |EvictBelow(g, cs, b, cap).ledger.evicted| == |g.ledger.evicted| ==> EvictBelow(g, cs, b, cap) == g
    decreases |cs|
  {
    hide Bytes, EvictClass;
    if cs != [] && b.Rank() < Rank(cs[0]) {
      ClassLastNeeded(g, cs[0], b, cap);
      ClassesLastNeeded(EvictClass(g, cs[0], b, cap), cs[1..], b, cap);
    }
  }

  // For any arrival: every class keeps its oldest bundles, a class loses none while a lower one still
  // has any, and the last eviction was needed.
  lemma EvictionOrder(cfg: LiveConfig, g: Gate, b: Bundle, now: real, c: TrafficClass, d: TrafficClass)
    requires Rank(c) < Rank(d)
    ensures var s := Swept(cfg, g, b, now);
            var r := MakeRoom(cfg, g, b, now);
            && OfKind(r.queued, c) <= OfKind(s.queued, c)
            && (OfKind(r.queued, c) != OfKind(s.queued, c) ==> OfKind(r.queued, d) == [])
            && LastNeeded(s, r, b, cfg.cap)
  {
    hide PurgeClasses, EvictBelow, Bytes, OfKind;
    var s := Swept(cfg, g, b, now);
    assert LOWEST_FIRST[3 - Rank(c)] == c && LOWEST_FIRST[3 - Rank(d)] == d;
    ClassesLoseNewest(s, LOWEST_FIRST, b, cfg.cap, c);
    EarlierClassesFirst(s, LOWEST_FIRST, b, cfg.cap, 3 - Rank(d), 3 - Rank(c));
    ClassesLastNeeded(s, LOWEST_FIRST, b, cfg.cap);
  }

  // ---------------------------------------------------------------- evicting in vain

  lemma {:induction false} NoneBelow(g: Gate, cs: seq<TrafficClass>, b: Bundle, cap: nat)
    requires forall x :: x in g.queued ==> x.Rank() <= b.Rank()
    ensures EvictBelow(g, cs, b, cap) == g
    decreases |cs|
  {
    if cs != [] && b.Rank() < Rank(cs[0]) {
      assert !Has(g.queued, cs[0]);
      NoneBelow(g, cs[1..], b, cap);
    }
  }

  // The arrival does not fit even beside the queued bundles of its own rank and above.
  predicate Hopeless(cfg: LiveConfig, g: Gate, b: Bundle, now: real) {
    cfg.cap < Bytes(OwnAndAbove(Swept(cfg, g, b, now).queued, b)) + b.size
  }

  // Priority admission refuses an arrival and evicts for it all the same exactly when the arrival is
  // hopeless and something below it is queued once overdue heads are gone.
  lemma EvictsInVainIff(cfg: LiveConfig, g: Gate, b: Bundle, now: real)
    requires cfg.admission == Priority
    ensures var s := Swept(cfg, g, b, now);
            (!Admits(cfg, g, b, now) && |s.ledger.evicted| < |MakeRoom(cfg, g, b, now).ledger.evicted|
             <==> Hopeless(cfg, g, b, now) && exists x :: x in s.queued && b.Rank() < x.Rank())
  {
    hide PurgeClasses, EvictBelow, Bytes, OwnAndAbove;
    var s := Swept(cfg, g, b, now);
    PriorityAdmission(cfg, g, b, now);
    ClassesLastNeeded(s, LOWEST_FIRST, b, cfg.cap);
    OwnAndAboveFacts(s.queued, b);
    if forall x :: x in s.queued ==> x.Rank() <= b.Rank() {
      NoneBelow(s, LOWEST_FIRST, b, cfg.cap);
    }
  }

  lemma OwnAndAboveFacts(s: seq<Bundle>, b: Bundle)
    ensures (exists x :: x in s && b.Rank() < x.Rank()) ==> OwnAndAbove(s, b) != s
  {
    SelectMember(RankAtMost(b.Rank()), s);
  }

  const FILLED := LiveConfig(StrictDrain, Priority, 10, Lifetimes(100.0, 100.0, 100.0, 100.0))
  const SIREN := Bundle(1, Emergency, 6, 0.0, 100.0)
  const CLIP := Bundle(2, Media, 4, 0.0, 100.0)
  const STATUS := Bundle(3, Telemetry, 5, 1.0, 101.0)

  lemma Filled()
    ensures var g := Steps(FILLED, NEW_GATE, [Offer(SIREN, 0.0), Offer(CLIP, 0.0)]);
            && g.queued == [SIREN, CLIP] && g.ledger == NEW_GATE.ledger
            && Bytes(g.queued) == 10
  {
    var calls := [Offer(SIREN, 0.0), Offer(CLIP, 0.0)];
    assert calls[1..] == [Offer(CLIP, 0.0)] && calls[1..][1..] == [];
    var one := Step(FILLED, NEW_GATE, calls[0]);
    assert one == NEW_GATE.(queued := [SIREN]);
    assert Bytes(one.queued) == 6;
    var two := Step(FILLED, one, calls[1]);
    assert two == NEW_GATE.(queued := [SIREN] + [CLIP]);
    assert Steps(FILLED, one, calls[1..]) == Steps(FILLED, two, []);
    assert two.queued[1..] == [CLIP];
    assert Bytes(two.queued[1..]) == 4;
  }

  // A media bundle is lost to a telemetry arrival that cannot fit beside the emergency bundle queued
  // before it.
  lemma EvictsAndStillRefuses()
    ensures var calls := [Offer(SIREN, 0.0), Offer(CLIP, 0.0), Offer(STATUS, 1.0)];
            var g := Steps(FILLED, NEW_GATE, calls);
            g.queued == [SIREN] && g.ledger.evicted != [] && STATUS in g.ledger.dropped
    ensures FILLED.Dated(SIREN) && FILLED.Dated(CLIP) && FILLED.Dated(STATUS)
  {
    var first := [Offer(SIREN, 0.0), Offer(CLIP, 0.0)];
    var calls := [Offer(SIREN, 0.0), Offer(CLIP, 0.0), Offer(STATUS, 1.0)];
    Filled();
    var g := Steps(FILLED, NEW_GATE, first);
    StepsOneMore(FILLED, NEW_GATE, first, Offer(STATUS, 1.0));
    assert first + [Offer(STATUS, 1.0)] == calls;
    hide Steps, PurgeClasses, EvictBelow;
    NothingOverdue(g, CLASSES, 1.0);
    PurgesEvictNone(g, CLASSES, 1.0);
    PriorityAdmission(FILLED, g, STATUS, 1.0);
    EvictsInVainIff(FILLED, g, STATUS, 1.0);
    OnlySiren(g.queued);
    assert CLIP in g.queued;
    assert 0 == |g.ledger.evicted|;
  }

  lemma OnlySiren(s: seq<Bundle>)
    requires s == [SIREN, CLIP]
    ensures OwnAndAbove(s, STATUS) == [SIREN] && Bytes([SIREN]) == 6
  {
    assert s[1..] == [CLIP];
    assert Select(RankAtMost(1), s[1..]) == [];
  }

  lemma {:induction false} StepsOneMore(cfg: LiveConfig, g: Gate, calls: seq<Call>, call: Call)
    ensures Steps(cfg, g, calls + [call]) == Step(cfg, Steps(cfg, g, calls), call)
    decreases |calls|
  {
    hide Step;
    if calls == [] {
      assert calls + [call] == [call] && [call][1..] == [];
    } else {
      assert (calls + [call])[1..] == calls[1..] + [call];
      StepsOneMore(cfg, Step(cfg, g, calls[0]), calls[1..], call);
    }
  }

  lemma {:induction false} NothingOverdue(g: Gate, cs: seq<TrafficClass>, now: real)
    requires forall b :: b in g.queued ==> now <= b.expiration
    ensures PurgeClasses(g, cs, now).queued == g.queued
    decreases |cs|
  {
    if cs != [] {
      SelectMember(OfClass(cs[0]), g.queued);
      PurgeSettled(g.queued, cs[0], now);
      NothingOverdue(PurgeClass(g, cs[0], now), cs[1..], now);
    }
  }
}
