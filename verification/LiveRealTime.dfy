/** The live gateway in real time: calls come in the order of their times and a bundle is offered as it
    arrives. Then each class's line is in order of expiry, the overdue bundles are exactly the heads that
    admission sheds, and nothing overdue ever counts against an arrival. */
module LiveRealTime {
  import opened Traffic
  import opened Telemetry
  import opened Selection
  import opened Live
  import opened LiveOrder
  import opened LiveDropTail
  import LiveEviction

  // ---------------------------------------------------------------- lines in order of expiry

  ghost predicate Rising(l: seq<Bundle>) {
    forall i, j :: 0 <= i < j < |l| ==> l[i].expiration <= l[j].expiration
  }

  ghost predicate InOrder(s: seq<Bundle>) {
    forall c :: Rising(Select(OfClass(c), s))
  }

  lemma InOrderTail(s: seq<Bundle>)
    requires s != [] && InOrder(s)
    ensures InOrder(s[1..])
    ensures forall b :: b in s[1..] && b.cls == s[0].cls ==> s[0].expiration <= b.expiration
  {
    forall c ensures Rising(Select(OfClass(c), s[1..])) {
      var l, m := Select(OfClass(c), s), Select(OfClass(c), s[1..]);
      assert Rising(l);
      if c == s[0].cls {
        forall i, j | 0 <= i < j < |m| ensures m[i].expiration <= m[j].expiration {
          assert m[i] == l[i + 1] && m[j] == l[j + 1];
        }
      }
    }
    var l, m := Select(OfClass(s[0].cls), s), Select(OfClass(s[0].cls), s[1..]);
    SelectMember(OfClass(s[0].cls), s[1..]);
    assert Rising(l) && l == [s[0]] + m;
    forall b | b in s[1..] && b.cls == s[0].cls ensures s[0].expiration <= b.expiration {
      assert b in m;
      var j :| 0 <= j < |m| && m[j] == b;
      assert l[j + 1] == b && l[0] == s[0];
    }
  }

  // In order, shedding leaves exactly what is not overdue.
  lemma {:induction false} ShedIsAlive(s: seq<Bundle>, settled: set<TrafficClass>, now: real)
    requires InOrder(s) && forall b :: b in s && b.cls in settled ==> now <= b.expiration
    ensures Shed(s, settled, now) == Alive(s, now)
  {
    hide InOrder;
    if s != [] {
      InOrderTail(s);
      assert s[0] in s;
      assert forall b :: b in s[1..] ==> b in s;
      if s[0].cls !in settled && now <= s[0].expiration {
        ShedIsAlive(s[1..], settled + {s[0].cls}, now);
      } else {
        ShedIsAlive(s[1..], settled, now);
      }
    }
  }

  // ---------------------------------------------------------------- what calls do to the lines

  ghost predicate Cut(l: seq<Bundle>, m: seq<Bundle>) {
    exists i, j :: 0 <= i <= j <= |l| && m == l[i..j]
  }

  // Every class's line in r is a stretch of its line in s.
  ghost predicate Trimmed(s: seq<Bundle>, r: seq<Bundle>) {
    forall c :: Cut(Select(OfClass(c), s), Select(OfClass(c), r))
  }

  lemma CutWhole(l: seq<Bundle>)
    ensures Cut(l, l)
  {
    assert l == l[0..|l|];
  }

  lemma CutTwice(l: seq<Bundle>, m: seq<Bundle>, n: seq<Bundle>)
    requires Cut(l, m) && Cut(m, n)
    ensures Cut(l, n)
  {
    var i, j :| 0 <= i <= j <= |l| && m == l[i..j];
    var p, q :| 0 <= p <= q <= |m| && n == m[p..q];
    var r := l[i + p..i + q];
    forall k | 0 <= k < |n| ensures n[k] == r[k] {
      assert n[k] == m[p + k] == l[i + (p + k)] == r[k];
    }
    assert n == r;
  }

  lemma CutRises(l: seq<Bundle>, m: seq<Bundle>)
    requires Cut(l, m) && Rising(l)
    ensures Rising(m) && forall b :: b in m ==> b in l
  {
  }

  lemma TrimmedWhole(s: seq<Bundle>)
    ensures Trimmed(s, s)
  {
    forall c ensures Cut(Select(OfClass(c), s), Select(OfClass(c), s)) { CutWhole(Select(OfClass(c), s)); }
  }

  lemma TrimmedTwice(s: seq<Bundle>, t: seq<Bundle>, r: seq<Bundle>)
    requires Trimmed(s, t) && Trimmed(t, r)
    ensures Trimmed(s, r)
  {
    forall c ensures Cut(Select(OfClass(c), s), Select(OfClass(c), r)) {
      CutTwice(Select(OfClass(c), s), Select(OfClass(c), t), Select(OfClass(c), r));
    }
  }

  lemma {:induction false} PurgedSuffix(s: seq<Bundle>, c: TrafficClass, now: real) returns (i: nat)
    ensures i <= |Select(OfClass(c), s)|
    ensures Select(OfClass(c), Purge(s, c, now)) == Select(OfClass(c), s)[i..]
  {
    i := 0;
    if s != [] {
      if s[0].cls != c {
        i := PurgedSuffix(s[1..], c, now);
      } else if s[0].expiration < now {
        var k := PurgedSuffix(s[1..], c, now);
        i := k + 1;
      }
    }
  }

  lemma PurgeTrims(s: seq<Bundle>, c: TrafficClass, now: real)
    ensures Trimmed(s, Purge(s, c, now))
  {
    var i := PurgedSuffix(s, c, now);
    hide Select, Purge;
    forall d ensures Cut(Select(OfClass(d), s), Select(OfClass(d), Purge(s, c, now))) {
      var l := Select(OfClass(d), s);
      if d == c {
        assert l[i..] == l[i..|l|];
      } else {
        PurgeElsewhere(s, c, now, d);
        CutWhole(l);
      }
    }
  }

  lemma {:induction false} PurgesTrim(g: Gate, cs: seq<TrafficClass>, now: real)
    ensures Trimmed(g.queued, PurgeClasses(g, cs, now).queued)
    decreases |cs|
  {
    hide Trimmed, Purge, Late;
    if cs == [] {
      TrimmedWhole(g.queued);
    } else {
      var m := PurgeClass(g, cs[0], now);
      PurgeTrims(g.queued, cs[0], now);
      PurgesTrim(m, cs[1..], now);
      TrimmedTwice(g.queued, m.queued, PurgeClasses(m, cs[1..], now).queued);
    }
  }

  lemma EvictionTrims(g: Gate, b: Bundle, cap: nat)
    ensures Trimmed(g.queued, EvictBelow(g, LOWEST_FIRST, b, cap).queued)
  {
    hide EvictBelow, Select;
    var e := EvictBelow(g, LOWEST_FIRST, b, cap);
    forall d ensures Cut(Select(OfClass(d), g.queued), Select(OfClass(d), e.queued)) {
      LiveEviction.ClassesLoseNewest(g, LOWEST_FIRST, b, cap, d);
      var l, m := Select(OfClass(d), g.queued), Select(OfClass(d), e.queued);
      assert m == l[0..|m|];
    }
  }

  // Taking the first of a class shortens that class's line at its head and no other.
  lemma TakeTrims(g: Gate, c: TrafficClass)
    requires Waiting(g, c)
    ensures Trimmed(g.queued, Take(g, c).gate.queued)
  {
    var i, s := FirstOf(g.queued, c), g.queued;
    hide Select, FirstOf, Cut;
    forall d ensures Cut(Select(OfClass(d), s), Select(OfClass(d), Without(s, i))) {
      FirstGone(s, i, d);
    }
  }

  lemma FirstGone(s: seq<Bundle>, i: nat, d: TrafficClass)
    requires i < |s| && forall j :: 0 <= j < i ==> s[j].cls != s[i].cls
    ensures Cut(Select(OfClass(d), s), Select(OfClass(d), Without(s, i)))
  {
    hide Select;
    var l, w := Select(OfClass(d), s), Without(s, i);
    SelectAround(OfClass(d), s[..i], s[i], s[i + 1..]);
    assert s == s[..i] + ([s[i]] + s[i + 1..]);
    if d == s[i].cls {
      SelectNone(OfClass(d), s[..i]);
      assert Select(OfClass(d), w) == l[1..|l|];
    } else {
      CutWhole(l);
    }
  }

  lemma SelectAround(t: Test, a: seq<Bundle>, b: Bundle, c: seq<Bundle>)
    ensures Select(t, a + ([b] + c)) == Select(t, a) + ((if t.Passes(b) then [b] else []) + Select(t, c))
    ensures Select(t, a + c) == Select(t, a) + Select(t, c)
  {
    SelectAppend(t, a, [b] + c);
    SelectAppend(t, [b], c);
    SelectAppend(t, a, c);
  }

  lemma TailTrims(s: seq<Bundle>)
    requires s != []
    ensures Trimmed(s, s[1..])
  {
    forall d ensures Cut(Select(OfClass(d), s), Select(OfClass(d), s[1..])) {
      var l := Select(OfClass(d), s);
      if d == s[0].cls {
        assert Select(OfClass(d), s[1..]) == l[1..|l|];
      } else {
        CutWhole(l);
      }
    }
  }

  lemma {:induction false} FifoTrims(g: Gate, now: real)
    ensures Trimmed(g.queued, NextFifo(g, now).gate.queued)
    decreases |g.queued|
  {
    hide Trimmed, Purge, Late;
    if g.queued == [] {
      TrimmedWhole(g.queued);
    } else {
      var b := g.queued[0];
      var p := PurgeClass(g, b.cls, now);
      PurgeTrims(g.queued, b.cls, now);
      if now <= b.expiration {
        FrontStays(g.queued, now);
        TailTrims(p.queued);
      } else {
        PurgeShrinks(g.queued, b.cls, now);
        FifoTrims(p, now);
        TrimmedTwice(g.queued, p.queued, NextFifo(p, now).gate.queued);
      }
    }
  }

  lemma FrontStays(s: seq<Bundle>, now: real)
    requires s != [] && now <= s[0].expiration
    ensures Purge(s, s[0].cls, now) == s
  {
  }

  lemma {:induction false} StrictTrims(g: Gate, cs: seq<TrafficClass>, now: real)
    ensures Trimmed(g.queued, NextStrict(g, cs, now).gate.queued)
    decreases |cs|
  {
    hide Trimmed, Purge, Late, Take;
    if cs == [] {
      TrimmedWhole(g.queued);
    } else {
      var p := PurgeClass(g, cs[0], now);
      PurgeTrims(g.queued, cs[0], now);
      if Waiting(p, cs[0]) {
        TakeTrims(p, cs[0]);
        TrimmedTwice(g.queued, p.queued, Take(p, cs[0]).gate.queued);
      } else {
        StrictTrims(p, cs[1..], now);
        TrimmedTwice(g.queued, p.queued, NextStrict(p, cs[1..], now).gate.queued);
      }
    }
  }

  lemma {:induction false} VisitsTrim(g: Gate, now: real, fuel: nat)
    ensures Trimmed(g.queued, Visits(g, now, fuel).gate.queued)
    decreases fuel
  {
    hide Trimmed, Purge, Late, Take;
    if fuel == 0 || g.rr == [] {
      TrimmedWhole(g.queued);
    } else {
      var c := g.rr[0];
      var p := PurgeClass(g, c, now);
      PurgeTrims(g.queued, c, now);
      var r := Visits(g, now, fuel).gate;
      if !Waiting(p, c) {
        VisitsTrim(SkipTurn(p), now, fuel - 1);
      } else if p.Line(c)[0].size as real <= p.Credit(c) {
        TakeTrims(p, c);
      } else {
        VisitsTrim(GrantTurn(p), now, fuel - 1);
      }
      TrimmedTwice(g.queued, p.queued, r.queued);
    }
  }

  lemma DrawTrims(cfg: LiveConfig, g: Gate, now: real)
    ensures Trimmed(g.queued, Next(cfg, g, now).gate.queued)
  {
    hide Trimmed, Purge, Late, Take, NextFifo, NextStrict, Visits, PurgeClasses, Waiting;
    if cfg.policy == FifoDrain {
      FifoTrims(g, now);
    } else {
      var p := PurgeClass(g, Emergency, now);
      PurgeTrims(g.queued, Emergency, now);
      var r := Next(cfg, g, now).gate;
      if Waiting(p, Emergency) {
        TakeTrims(p, Emergency);
      } else if cfg.policy == StrictDrain {
        StrictTrims(p, RR0, now);
      } else {
        var m := PurgeClasses(p, p.rr, now);
        PurgesTrim(p, p.rr, now);
        VisitsTrim(m, now, PATIENCE);
        TrimmedTwice(p.queued, m.queued, Visits(m, now, PATIENCE).gate.queued);
      }
      TrimmedTwice(g.queued, p.queued, r.queued);
    }
  }

  // ---------------------------------------------------------------- runs in real time

  // From time `from` on, calls come in the order of their times and bundles are offered as they arrive.
  predicate OnTime(cfg: LiveConfig, calls: seq<Call>, from: real)
    decreases |calls|
  {
    calls == [] || (from <= calls[0].at && OnTime(cfg, calls[1..], calls[0].at)
                    && (calls[0].Offer? ==> calls[0].b.ingress == calls[0].at && cfg.Dated(calls[0].b)))
  }

  // Lines are in order of expiry, and everything queued arrived by time t.
  ghost predicate Tidy(cfg: LiveConfig, g: Gate, t: real) {
    InOrder(g.queued) && forall b :: b in g.queued ==> cfg.Dated(b) && b.ingress <= t
  }

  lemma TrimmedTidy(cfg: LiveConfig, g: Gate, r: Gate, t: real)
    requires Tidy(cfg, g, t) && Trimmed(g.queued, r.queued)
    ensures Tidy(cfg, r, t)
  {
    hide Select;
    forall c
      ensures Rising(Select(OfClass(c), r.queued))
      ensures forall b :: b in Select(OfClass(c), r.queued) ==> b in Select(OfClass(c), g.queued)
    {
      CutRises(Select(OfClass(c), g.queued), Select(OfClass(c), r.queued));
    }
    forall b | b in r.queued ensures b in g.queued {
      SelectMember(OfClass(b.cls), r.queued);
      SelectMember(OfClass(b.cls), g.queued);
    }
  }

  lemma JoinTidy(cfg: LiveConfig, g: Gate, b: Bundle, t: real)
    requires Tidy(cfg, g, t) && t <= b.ingress && cfg.Dated(b)
    ensures Tidy(cfg, g.(queued := g.queued + [b]), b.ingress)
  {
    hide Select;
    var s := g.queued + [b];
    forall c ensures Rising(Select(OfClass(c), s)) {
      SelectAppend(OfClass(c), g.queued, [b]);
      SelectMember(OfClass(c), g.queued);
      if c == b.cls {
        SelectAll(OfClass(c), [b]);
      } else {
        SelectNone(OfClass(c), [b]);
      }
      var l := Select(OfClass(c), g.queued);
      assert Rising(l);
      forall i, j | 0 <= i < j < |Select(OfClass(c), s)|
        ensures Select(OfClass(c), s)[i].expiration <= Select(OfClass(c), s)[j].expiration
      {
        assert i < |l| ==> l[i] in l;
      }
    }
  }

  lemma OfferTidy(cfg: LiveConfig, g: Gate, b: Bundle, t: real)
    requires Tidy(cfg, g, t) && t <= b.ingress && cfg.Dated(b)
    ensures Tidy(cfg, Admit(cfg, g, b, b.ingress), b.ingress)
  {
    hide Tidy, Trimmed, PurgeClasses, EvictBelow, LiveConfig.Dated;
    var now := b.ingress;
    var s, r := Swept(cfg, g, b, now), MakeRoom(cfg, g, b, now);
    PurgesTrim(g, CLASSES, now);
    TrimmedWhole(g.queued);
    TrimmedTidy(cfg, g, s, t);
    EvictionTrims(s, b, cfg.cap);
    TrimmedWhole(s.queued);
    TrimmedTidy(cfg, s, r, t);
    JoinTidy(cfg, r, b, t);
    LaterTidy(cfg, r, t, now);
    TrimmedWhole(r.queued);
    TrimmedTidy(cfg, r, r.(ledger := r.ledger.(dropped := r.ledger.dropped + [b])), now);
  }

  lemma LaterTidy(cfg: LiveConfig, g: Gate, t: real, u: real)
    requires t <= u
    ensures Tidy(cfg, g, t) ==> Tidy(cfg, g, u)
  {
  }

  function LastTime(calls: seq<Call>, from: real): real {
    if calls == [] then from else LastTime(calls[1..], calls[0].at)
  }

  lemma {:induction false} StepsTidy(cfg: LiveConfig, g: Gate, calls: seq<Call>, from: real)
    requires Tidy(cfg, g, from) && OnTime(cfg, calls, from)
    ensures Tidy(cfg, Steps(cfg, g, calls), LastTime(calls, from))
    decreases |calls|
  {
    hide Tidy, Trimmed, Admit, Next;
    if calls != [] {
      var m := Step(cfg, g, calls[0]);
      match calls[0] {
        case Offer(b, now) =>
          OfferTidy(cfg, g, b, from);
        case Draw(now) =>
          DrawTrims(cfg, g, now);
          TrimmedTidy(cfg, g, m, from);
          LaterTidy(cfg, m, from, now);
      }
      StepsTidy(cfg, m, calls[1..], calls[0].at);
    }
  }

  lemma NewGateTidy(cfg: LiveConfig, t: real)
    ensures Tidy(cfg, NEW_GATE, t)
  {
  }

  // ---------------------------------------------------------------- what counts against an arrival

  lemma {:induction false} AliveBytes(s: seq<Bundle>, now: real)
    ensures Bytes(Alive(s, now)) <= Bytes(s)
  {
    BytesSplit(Timely(now), s);
  }

  // The bundles an arrival cannot displace: under drop-tail all that are not overdue, with priority
  // admission those of its own rank and above among them.
  function Incumbents(cfg: LiveConfig, s: seq<Bundle>, b: Bundle, now: real): seq<Bundle> {
    if cfg.admission == DropTail then Alive(s, now) else Select(RankAtMost(b.Rank()), Alive(s, now))
  }

  lemma TidyAdmits(cfg: LiveConfig, g: Gate, b: Bundle, now: real, t: real)
    requires Tidy(cfg, g, t)
    ensures Admits(cfg, g, b, now) <==> Bytes(Incumbents(cfg, g.queued, b, now)) + b.size <= cfg.cap
  {
    hide PurgeClasses, EvictBelow, Select, Bytes, Shed;
    PurgesShed(g, now);
    ShedIsAlive(g.queued, {}, now);
    AliveBytes(g.queued, now);
    BytesSplit(RankAtMost(b.Rank()), Alive(g.queued, now));
    if cfg.admission == Priority {
      PriorityAdmission(cfg, g, b, now);
      if !Over(g.queued, b, cfg.cap) { FitsOwn(cfg, g, b, now); }
    }
  }

  lemma FitsOwn(cfg: LiveConfig, g: Gate, b: Bundle, now: real)
    requires !Over(g.queued, b, cfg.cap)
    ensures Admits(cfg, g, b, now)
  {
  }

  // After any calls in real time on a new gateway an arrival enters exactly when it fits beside the queued
  // bundles that are not overdue: all of them under drop-tail, those of its own rank and above with
  // priority admission.
  lemma AdmittedInRealTime(cfg: LiveConfig, calls: seq<Call>, from: real, b: Bundle, now: real)
    requires OnTime(cfg, calls, from)
    ensures var g := Steps(cfg, NEW_GATE, calls);
            Admits(cfg, g, b, now) <==> Bytes(Incumbents(cfg, g.queued, b, now)) + b.size <= cfg.cap
  {
    hide Tidy, Steps, Admits, Incumbents;
    NewGateTidy(cfg, from);
    StepsTidy(cfg, NEW_GATE, calls, from);
    TidyAdmits(cfg, Steps(cfg, NEW_GATE, calls), b, now, LastTime(calls, from));
  }
}
