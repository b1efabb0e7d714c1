/** What every interleaving of the live gateway's two calls keeps. */
module LiveLaws {
  import opened Traffic
  import opened Telemetry
  import opened Selection
  import opened Live
  import opened Wrappers

  // ---------------------------------------------------------------- conservation

  ghost function Gone(l: Ledger): multiset<Bundle> {
    multiset(l.dropped) + multiset(l.evicted) + multiset(l.expired) + multiset(l.returned)
  }

  // Every bundle ever offered: queued, or with one of four fates.
  ghost function Accounted(g: Gate): multiset<Bundle> {
    multiset(g.queued) + Gone(g.ledger)
  }

  lemma WithoutPartition(s: seq<Bundle>, i: nat)
    requires i < |s|
    ensures multiset(Without(s, i)) + multiset{s[i]} == multiset(s)
    ensures Bytes(s) == s[i].size + Bytes(Without(s, i))
  {
    hide Bytes;
    BytesRemoveAt(s, i);
    AroundCounts(s[..i], s[i], s[i + 1..]);
    assert s == s[..i] + ([s[i]] + s[i + 1..]);
  }

  lemma AroundCounts(a: seq<Bundle>, x: Bundle, b: seq<Bundle>)
    ensures multiset(a + b) + multiset{x} == multiset(a + ([x] + b))
  {
    assert multiset([x] + b) == multiset{x} + multiset(b);
  }

  lemma PurgeAccounts(g: Gate, c: TrafficClass, now: real)
    ensures Accounted(PurgeClass(g, c, now)) == Accounted(g)
    ensures Bytes(PurgeClass(g, c, now).queued) <= Bytes(g.queued)
  {
    PurgePartition(g.queued, c, now);
    PurgeBytes(g.queued, c, now);
    assert multiset(g.ledger.expired + Late(g.queued, c, now))
        == multiset(g.ledger.expired) + multiset(Late(g.queued, c, now));
  }

  lemma {:induction false} PurgeBytes(s: seq<Bundle>, c: TrafficClass, now: real)
    ensures Bytes(Purge(s, c, now)) <= Bytes(s)
  {
    if s != [] && (s[0].cls != c || s[0].expiration < now) {
      PurgeBytes(s[1..], c, now);
    }
  }

  lemma {:induction false} PurgesAccount(g: Gate, cs: seq<TrafficClass>, now: real)
    ensures Accounted(PurgeClasses(g, cs, now)) == Accounted(g)
    ensures Bytes(PurgeClasses(g, cs, now).queued) <= Bytes(g.queued)
    decreases |cs|
  {
    hide Accounted, Purge, Late;
    if cs != [] {
      PurgeAccounts(g, cs[0], now);
      PurgesAccount(PurgeClass(g, cs[0], now), cs[1..], now);
    }
  }

  lemma {:induction false} EvictClassAccounts(g: Gate, c: TrafficClass, b: Bundle, cap: nat)
    ensures Accounted(EvictClass(g, c, b, cap)) == Accounted(g)
    ensures Bytes(EvictClass(g, c, b, cap).queued) <= Bytes(g.queued)
    decreases |g.queued|
  {
    hide Bytes;
    if Over(g.queued, b, cap) && Has(g.queued, c) {
      var i := LastOf(g.queued, c);
      var m := g.(queued := Without(g.queued, i),
                  ledger := g.ledger.(evicted := g.ledger.evicted + [g.queued[i]]));
      WithoutPartition(g.queued, i);
      assert multiset(g.ledger.evicted + [g.queued[i]]) == multiset(g.ledger.evicted) + multiset{g.queued[i]};
      EvictClassAccounts(m, c, b, cap);
    }
  }

  lemma {:induction false} EvictBelowAccounts(g: Gate, cs: seq<TrafficClass>, b: Bundle, cap: nat)
    ensures Accounted(EvictBelow(g, cs, b, cap)) == Accounted(g)
    ensures Bytes(EvictBelow(g, cs, b, cap).queued) <= Bytes(g.queued)
    decreases |cs|
  {
    hide Accounted, EvictClass;
    if cs != [] && b.Rank() < Rank(cs[0]) {
      EvictClassAccounts(g, cs[0], b, cap);
      EvictBelowAccounts(EvictClass(g, cs[0], b, cap), cs[1..], b, cap);
    }
  }

  lemma MakeRoomAccounts(cfg: LiveConfig, g: Gate, b: Bundle, now: real)
    ensures Accounted(MakeRoom(cfg, g, b, now)) == Accounted(g)
    ensures Bytes(MakeRoom(cfg, g, b, now).queued) <= Bytes(g.queued)
  {
    hide Accounted, PurgeClasses, EvictBelow;
    var g1 := if Over(g.queued, b, cfg.cap) then PurgeClasses(g, CLASSES, now) else g;
    PurgesAccount(g, CLASSES, now);
    EvictBelowAccounts(g1, LOWEST_FIRST, b, cfg.cap);
  }

  // Admission gives the arrival a place or a fate, and keeps the buffer within its cap.
  lemma AdmitAccounts(cfg: LiveConfig, g: Gate, b: Bundle, now: real)
    requires Bytes(g.queued) <= cfg.cap
    ensures Accounted(Admit(cfg, g, b, now)) == Accounted(g) + multiset{b}
    ensures Bytes(Admit(cfg, g, b, now).queued) <= cfg.cap
  {
    hide MakeRoom;
    var r := MakeRoom(cfg, g, b, now);
    MakeRoomAccounts(cfg, g, b, now);
    BytesAppend(r.queued, [b]);
    assert Bytes([b]) == b.size;
    assert multiset(r.queued + [b]) == multiset(r.queued) + multiset{b};
    assert multiset(r.ledger.dropped + [b]) == multiset(r.ledger.dropped) + multiset{b};
  }

  lemma TakeAccounts(g: Gate, c: TrafficClass)
    requires Waiting(g, c)
    ensures Accounted(Take(g, c).gate) == Accounted(g)
    ensures Bytes(Take(g, c).gate.queued) <= Bytes(g.queued)
  {
    hide Bytes, Select;
    var i := FirstOf(g.queued, c);
    WithoutPartition(g.queued, i);
    assert multiset(g.ledger.returned + [g.queued[i]]) == multiset(g.ledger.returned) + multiset{g.queued[i]};
  }

  lemma {:induction false} NextFifoAccounts(g: Gate, now: real)
    ensures Accounted(NextFifo(g, now).gate) == Accounted(g)
    ensures Bytes(NextFifo(g, now).gate.queued) <= Bytes(g.queued)
    decreases |g.queued|
  {
    if g.queued != [] {
      hide Purge, Late;
      var b := g.queued[0];
      var p := PurgeClass(g, b.cls, now);
      PurgeAccounts(g, b.cls, now);
      if now <= b.expiration {
        FrontSettled(g.queued, now);
        var s := g.queued;
        assert p.queued == s && s == [s[0]] + s[1..];
        assert multiset(p.ledger.returned + [b]) == multiset(p.ledger.returned) + multiset{b};
      } else {
        PurgeShrinks(g.queued, b.cls, now);
        NextFifoAccounts(p, now);
      }
    }
  }

  // A list whose front is not overdue keeps its front's class untouched.
  lemma FrontSettled(s: seq<Bundle>, now: real)
    requires s != [] && now <= s[0].expiration
    ensures Purge(s, s[0].cls, now) == s && Late(s, s[0].cls, now) == []
  {
  }

  lemma {:induction false} NextStrictAccounts(g: Gate, cs: seq<TrafficClass>, now: real)
    ensures Accounted(NextStrict(g, cs, now).gate) == Accounted(g)
    ensures Bytes(NextStrict(g, cs, now).gate.queued) <= Bytes(g.queued)
    decreases |cs|
  {
    if cs != [] {
      hide Accounted, PurgeClass, Take;
      var p := PurgeClass(g, cs[0], now);
      PurgeAccounts(g, cs[0], now);
      if Waiting(p, cs[0]) {
        TakeAccounts(p, cs[0]);
      } else {
        NextStrictAccounts(p, cs[1..], now);
      }
    }
  }

  // Deficits and the visiting order play no part in the accounts.
  lemma TurnsAccount(g: Gate)
    requires g.rr != []
    ensures Accounted(SkipTurn(g)) == Accounted(g) && SkipTurn(g).queued == g.queued
    ensures Accounted(GrantTurn(g)) == Accounted(g) && GrantTurn(g).queued == g.queued
    ensures Waiting(g, g.rr[0]) ==>
              && Accounted(ServeTurn(g).gate) == Accounted(g)
              && Bytes(ServeTurn(g).gate.queued) <= Bytes(g.queued)
  {
    if Waiting(g, g.rr[0]) { TakeAccounts(g, g.rr[0]); }
  }

  lemma {:induction false} VisitsAccount(g: Gate, now: real, fuel: nat)
    ensures Accounted(Visits(g, now, fuel).gate) == Accounted(g)
    ensures Bytes(Visits(g, now, fuel).gate.queued) <= Bytes(g.queued)
    decreases fuel, g
  {
    hide Accounted, Purge, Late, SkipTurn, GrantTurn, ServeTurn, Bytes, Select;
    if 0 < fuel && g.rr != [] {
      var c := g.rr[0];
      var p := PurgeClass(g, c, now);
      PurgeAccounts(g, c, now);
      TurnsAccount(p);
      if !Waiting(p, c) {
        VisitsAccount(SkipTurn(p), now, fuel - 1);
      } else if p.Credit(c) < p.Line(c)[0].size as real {
        VisitsAccount(GrantTurn(p), now, fuel - 1);
      }
    }
  }

  lemma NextWfqAccounts(g: Gate, now: real)
    ensures Accounted(NextWfq(g, now).gate) == Accounted(g)
    ensures Bytes(NextWfq(g, now).gate.queued) <= Bytes(g.queued)
  {
    hide Accounted, PurgeClasses, Visits, Waiting;
    var p := PurgeClasses(g, g.rr, now);
    PurgesAccount(g, g.rr, now);
    ResetAccounts(p);
    VisitsAccount(p, now, PATIENCE);
  }

  lemma ResetAccounts(g: Gate)
    ensures Accounted(g.(deficit := map[Telemetry := 0.0, ScienceBulk := 0.0, Media := 0.0])) == Accounted(g)
  {
  }

  // Drawing moves bundles between accounts and never makes the buffer larger.
  lemma NextAccounts(cfg: LiveConfig, g: Gate, now: real)
    ensures Accounted(Next(cfg, g, now).gate) == Accounted(g)
    ensures Bytes(Next(cfg, g, now).gate.queued) <= Bytes(g.queued)
  {
    hide Accounted, PurgeClass, NextFifo, NextStrict, NextWfq, Take;
    if cfg.policy == FifoDrain {
      NextFifoAccounts(g, now);
    } else {
      var p := PurgeClass(g, Emergency, now);
      PurgeAccounts(g, Emergency, now);
      if Waiting(p, Emergency) { TakeAccounts(p, Emergency); }
      NextStrictAccounts(p, RR0, now);
      NextWfqAccounts(p, now);
    }
  }

  // Over every interleaving of calls: each bundle offered is queued or has exactly one fate, nothing
  // else ever appears, and the buffer never exceeds its cap.
  lemma {:induction false} EveryInterleavingConserves(cfg: LiveConfig, g: Gate, calls: seq<Call>)
    requires Bytes(g.queued) <= cfg.cap
    ensures Accounted(Steps(cfg, g, calls)) == Accounted(g) + multiset(Offered(calls))
    ensures Bytes(Steps(cfg, g, calls).queued) <= cfg.cap
    decreases |calls|
  {
    if calls != [] {
      hide Accounted, Admit, Next, Bytes;
      var m := Step(cfg, g, calls[0]);
      match calls[0] {
        case Offer(b, now) =>
          AdmitAccounts(cfg, g, b, now);
        case Draw(now) =>
          NextAccounts(cfg, g, now);
      }
      EveryInterleavingConserves(cfg, m, calls[1..]);
    }
  }

  // Distinct offers to a new gateway end up in exactly one place each.
  lemma OneFateEach(cfg: LiveConfig, calls: seq<Call>, b: Bundle)
    requires Distinct(Offered(calls)) && b in Offered(calls)
    ensures var g := Steps(cfg, NEW_GATE, calls);
            multiset(g.queued)[b] + multiset(g.ledger.dropped)[b] + multiset(g.ledger.evicted)[b]
            + multiset(g.ledger.expired)[b] + multiset(g.ledger.returned)[b] == 1
  {
    hide Steps;
    EveryInterleavingConserves(cfg, NEW_GATE, calls);
    DistinctCount(Offered(calls), b);
    var g := Steps(cfg, NEW_GATE, calls);
    assert Accounted(g)[b] == 1;
  }

  // ---------------------------------------------------------------- what a draw returns

  // A returned bundle was queued and is not overdue, and the oldest of its class among those left by
  // expiry.
  lemma TakeTimely(g: Gate, c: TrafficClass, now: real)
    requires Waiting(g, c) && now <= g.Line(c)[0].expiration
    ensures Take(g, c).out == Some(g.Line(c)[0])
    ensures now <= Take(g, c).out.value.expiration && Take(g, c).out.value in g.queued
  {
  }

  lemma PurgedLine(g: Gate, c: TrafficClass, now: real)
    ensures var p := PurgeClass(g, c, now);
            && (Waiting(p, c) ==> now <= p.Line(c)[0].expiration)
            && (forall b :: b in p.queued ==> b in g.queued)
            && (Waiting(p, c) <==> Backlogged(g, c, now))
  {
    PurgeFacts(g.queued, c, now);
    PurgeKeepsLive(g.queued, c, now);
  }

  // Some queued bundle of class c is not overdue.
  ghost predicate Backlogged(g: Gate, c: TrafficClass, now: real) {
    exists b :: b in g.queued && b.cls == c && now <= b.expiration
  }

  ghost predicate InTime(g: Gate, p: Pull, now: real) {
    p.out.Some? ==> p.out.value in g.queued && now <= p.out.value.expiration
  }

  lemma {:induction false} NextFifoTimely(g: Gate, now: real)
    ensures InTime(g, NextFifo(g, now), now)
    decreases |g.queued|
  {
    if g.queued != [] && g.queued[0].expiration < now {
      PurgeShrinks(g.queued, g.queued[0].cls, now);
      PurgedLine(g, g.queued[0].cls, now);
      NextFifoTimely(PurgeClass(g, g.queued[0].cls, now), now);
    }
  }

  lemma {:induction false} NextStrictTimely(g: Gate, cs: seq<TrafficClass>, now: real)
    ensures InTime(g, NextStrict(g, cs, now), now)
    decreases |cs|
  {
    if cs != [] {
      hide PurgeClass, Take, Backlogged;
      var p := PurgeClass(g, cs[0], now);
      PurgedLine(g, cs[0], now);
      if Waiting(p, cs[0]) {
        TakeTimely(p, cs[0], now);
      } else {
        NextStrictTimely(p, cs[1..], now);
      }
    }
  }

  lemma {:induction false} VisitsTimely(g: Gate, now: real, fuel: nat)
    ensures InTime(g, Visits(g, now, fuel), now)
    decreases fuel, g
  {
    hide Purge, Take, Backlogged;
    if 0 < fuel && g.rr != [] {
      var c := g.rr[0];
      var p := PurgeClass(g, c, now);
      PurgedLine(g, c, now);
      if !Waiting(p, c) {
        VisitsTimely(SkipTurn(p), now, fuel - 1);
      } else if p.Line(c)[0].size as real <= p.Credit(c) {
        TakeTimely(p, c, now);
      } else {
        VisitsTimely(GrantTurn(p), now, fuel - 1);
      }
    }
  }

  lemma {:induction false} PurgesOnlyRemove(g: Gate, cs: seq<TrafficClass>, now: real)
    ensures forall b :: b in PurgeClasses(g, cs, now).queued ==> b in g.queued
    decreases |cs|
  {
    if cs != [] {
      hide PurgeClass, Backlogged;
      PurgedLine(g, cs[0], now);
      PurgesOnlyRemove(PurgeClass(g, cs[0], now), cs[1..], now);
    }
  }

  // No policy ever returns a bundle that is not queued or has expired.
  lemma NothingLateReturned(cfg: LiveConfig, g: Gate, now: real)
    ensures InTime(g, Next(cfg, g, now), now)
  {
    hide PurgeClass, NextFifo, NextStrict, Visits, Take, PurgeClasses, Backlogged;
    if cfg.policy == FifoDrain {
      NextFifoTimely(g, now);
    } else {
      var p := PurgeClass(g, Emergency, now);
      PurgedLine(g, Emergency, now);
      if Waiting(p, Emergency) {
        TakeTimely(p, Emergency, now);
      } else if cfg.policy == StrictDrain {
        NextStrictTimely(p, RR0, now);
      } else {
        PurgesOnlyRemove(p, p.rr, now);
        VisitsTimely(PurgeClasses(p, p.rr, now), now, PATIENCE);
      }
    }
  }

  ghost predicate OffersDated(cfg: LiveConfig, calls: seq<Call>) {
    forall b :: b in Offered(calls) ==> cfg.Dated(b)
  }

  // After any calls on a new gateway, what is returned was offered and is not older than the lifetime of
  // its class.
  lemma NothingOlderThanItsLifetime(cfg: LiveConfig, calls: seq<Call>, now: real)
    requires OffersDated(cfg, calls)
    ensures var out := Next(cfg, Steps(cfg, NEW_GATE, calls), now).out;
            out.Some? ==>
              out.value in Offered(calls) && now - out.value.ingress <= cfg.lifetimes.Of(out.value.cls)
  {
    hide Next, Steps, Offered;
    var g := Steps(cfg, NEW_GATE, calls);
    NothingLateReturned(cfg, g, now);
    if Next(cfg, g, now).out.Some? {
      QueuedWereOffered(cfg, calls, Next(cfg, g, now).out.value);
    }
  }

  lemma QueuedWereOffered(cfg: LiveConfig, calls: seq<Call>, b: Bundle)
    requires b in Steps(cfg, NEW_GATE, calls).queued
    ensures b in Offered(calls)
  {
    hide Steps, Offered;
    var g := Steps(cfg, NEW_GATE, calls);
    assert Bytes(NEW_GATE.queued) == 0;
    EveryInterleavingConserves(cfg, NEW_GATE, calls);
    assert b in multiset(g.queued);
    assert b in Accounted(g);
    assert b in multiset(Offered(calls));
  }

  // Class by class.
  lemma NothingOlderByClass(cfg: LiveConfig, calls: seq<Call>, now: real)
    requires OffersDated(cfg, calls)
    ensures var out, l := Next(cfg, Steps(cfg, NEW_GATE, calls), now).out, cfg.lifetimes;
            out.Some? ==>
              var age := now - out.value.ingress;
              && (out.value.cls == Emergency ==> age <= l.emergency)
              && (out.value.cls == Telemetry ==> age <= l.telemetry)
              && (out.value.cls == ScienceBulk ==> age <= l.scienceBulk)
              && (out.value.cls == Media ==> age <= l.media)
  {
    hide Next, Steps, Offered;
    NothingOlderThanItsLifetime(cfg, calls, now);
  }
}
