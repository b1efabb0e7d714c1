/** Which bundle the live gateway returns, and which arrivals it admits. */
module LiveOrder {
  import opened Traffic
  import opened Telemetry
  import opened Selection
  import opened Live
  import opened Wrappers

  // Queued bundles that are not overdue, in arrival order.
  function Alive(s: seq<Bundle>, now: real): seq<Bundle> {
    Select(Timely(now), s)
  }

  function Oldest(s: seq<Bundle>): Option<Bundle> {
    if s == [] then None else Some(s[0])
  }

  lemma {:induction false} PurgeKeepsAlive(s: seq<Bundle>, c: TrafficClass, now: real)
    ensures Alive(Purge(s, c, now), now) == Alive(s, now)
  {
    if s != [] && (s[0].cls != c || s[0].expiration < now) {
      PurgeKeepsAlive(s[1..], c, now);
    }
  }

  // After expiry the head of class c is its oldest live bundle.
  lemma {:induction false} PurgedHead(s: seq<Bundle>, c: TrafficClass, now: real)
    ensures Oldest(Select(OfClass(c), Purge(s, c, now))) == Oldest(Select(OfClass(c), Alive(s, now)))
  {
    if s != [] && (s[0].cls != c || s[0].expiration < now) {
      PurgedHead(s[1..], c, now);
    }
  }

  // ---------------------------------------------------------------- first-in first-out

  // A FIFO draw returns the earliest-admitted live bundle, None exactly when there is none, and every
  // other live bundle stays queued in order.
  lemma {:induction false} FifoReturnsFirstLive(g: Gate, now: real)
    ensures NextFifo(g, now).out == Oldest(Alive(g.queued, now))
    ensures NextFifo(g, now).out.Some? ==>
              Alive(NextFifo(g, now).gate.queued, now) == Alive(g.queued, now)[1..]
    ensures NextFifo(g, now).out.None? ==> Alive(NextFifo(g, now).gate.queued, now) == []
    decreases |g.queued|
  {
    if g.queued != [] {
      var b := g.queued[0];
      PurgeKeepsAlive(g.queued, b.cls, now);
      if b.expiration < now {
        PurgeShrinks(g.queued, b.cls, now);
        FifoReturnsFirstLive(PurgeClass(g, b.cls, now), now);
      } else {
        PurgeSettled(g.queued, b.cls, now);
      }
    }
  }

  // ---------------------------------------------------------------- strict priority

  // The oldest live bundle of the first listed class that has one.
  function FirstByClass(s: seq<Bundle>, cs: seq<TrafficClass>, now: real): Option<Bundle> {
    if cs == [] then None
    else if Select(OfClass(cs[0]), Alive(s, now)) != [] then Some(Select(OfClass(cs[0]), Alive(s, now))[0])
    else FirstByClass(s, cs[1..], now)
  }

  lemma TakeOldest(g: Gate, c: TrafficClass, now: real)
    ensures var p := PurgeClass(g, c, now);
            && (Waiting(p, c) <==> Select(OfClass(c), Alive(g.queued, now)) != [])
            && (Waiting(p, c) ==> Take(p, c).out == Oldest(Select(OfClass(c), Alive(g.queued, now))))
  {
    PurgedHead(g.queued, c, now);
  }

  lemma {:induction false} AliveByClass(s: seq<Bundle>, t: seq<Bundle>, cs: seq<TrafficClass>, now: real)
    requires Alive(s, now) == Alive(t, now)
    ensures FirstByClass(s, cs, now) == FirstByClass(t, cs, now)
  {
    if cs != [] {
      AliveByClass(s, t, cs[1..], now);
    }
  }

  lemma {:induction false} NextStrictReturns(g: Gate, cs: seq<TrafficClass>, now: real)
    ensures NextStrict(g, cs, now).out == FirstByClass(g.queued, cs, now)
    decreases |cs|
  {
    hide Purge, Late, Take, Alive;
    if cs != [] {
      var p := PurgeClass(g, cs[0], now);
      TakeOldest(g, cs[0], now);
      if !Waiting(p, cs[0]) {
        NextStrictReturns(p, cs[1..], now);
        PurgeKeepsAlive(g.queued, cs[0], now);
        AliveByClass(p.queued, g.queued, cs[1..], now);
      }
    }
  }

  // A strict draw returns the oldest live bundle of the highest rank that has one.
  lemma StrictReturnsHighestRank(cfg: LiveConfig, g: Gate, now: real)
    requires cfg.policy == StrictDrain
    ensures Next(cfg, g, now).out == FirstByClass(g.queued, CLASSES, now)
  {
    hide Purge, Late, Take, Alive;
    var p := PurgeClass(g, Emergency, now);
    TakeOldest(g, Emergency, now);
    NextStrictReturns(p, RR0, now);
    PurgeKeepsAlive(g.queued, Emergency, now);
    AliveByClass(p.queued, g.queued, RR0, now);
    assert CLASSES[1..] == RR0;
  }

  // ---------------------------------------------------------------- admission

  lemma {:induction false} EvictClassFacts(g: Gate, c: TrafficClass, b: Bundle, cap: nat, r: int)
    requires r < Rank(c)
    ensures var e := EvictClass(g, c, b, cap);
            && Select(RankAtMost(r), e.queued) == Select(RankAtMost(r), g.queued)
            && (Over(e.queued, b, cap) ==> !Has(e.queued, c))
            && (forall x :: x in e.queued ==> x in g.queued)
            && g.ledger.evicted <= e.ledger.evicted
            && (forall x :: x in e.ledger.evicted[|g.ledger.evicted|..] ==> x.cls == c)
    decreases |g.queued|
  {
    if Over(g.queued, b, cap) && Has(g.queued, c) {
      hide Bytes;
      var i := LastOf(g.queued, c);
      var m := g.(queued := Without(g.queued, i),
                  ledger := g.ledger.(evicted := g.ledger.evicted + [g.queued[i]]));
      RemovedRank(g.queued, i, r);
      EvictClassFacts(m, c, b, cap, r);
    }
  }

  lemma RemovedRank(s: seq<Bundle>, i: nat, r: int)
    requires i < |s| && r < s[i].Rank()
    ensures Select(RankAtMost(r), Without(s, i)) == Select(RankAtMost(r), s)
    ensures forall x :: x in Without(s, i) ==> x in s
  {
    assert s == s[..i] + ([s[i]] + s[i + 1..]);
    SelectAppend(RankAtMost(r), s[..i], [s[i]] + s[i + 1..]);
    SelectAppend(RankAtMost(r), [s[i]], s[i + 1..]);
    SelectAppend(RankAtMost(r), s[..i], s[i + 1..]);
  }

  ghost predicate Descending(cs: seq<TrafficClass>) {
    forall i, j :: 0 <= i < j < |cs| ==> Rank(cs[j]) < Rank(cs[i])
  }

  // What eviction for an arrival spares, and what it leaves when it was not enough.
  lemma {:induction false} EvictBelowFacts(g: Gate, cs: seq<TrafficClass>, b: Bundle, cap: nat)
    requires Descending(cs)
    ensures var e := EvictBelow(g, cs, b, cap);
            && Select(RankAtMost(b.Rank()), e.queued) == Select(RankAtMost(b.Rank()), g.queued)
            && (forall x :: x in e.queued ==> x in g.queued)
            && g.ledger.evicted <= e.ledger.evicted
            && (forall x :: x in e.ledger.evicted[|g.ledger.evicted|..] ==> b.Rank() < x.Rank())
            && (Over(e.queued, b, cap) ==>
                  forall x :: x in e.queued && x.cls in cs ==> x.Rank() <= b.Rank())
    decreases |cs|
  {
    hide Bytes;
    if cs != [] && b.Rank() < Rank(cs[0]) {
      var m := EvictClass(g, cs[0], b, cap);
      var e := EvictBelow(m, cs[1..], b, cap);
      EvictClassFacts(g, cs[0], b, cap, b.Rank());
      EvictBelowFacts(m, cs[1..], b, cap);
      OverBefore(m, cs[1..], b, cap);
      EvictedChain(g.ledger.evicted, m.ledger.evicted, e.ledger.evicted, b.Rank());
    } else if cs != [] {
      forall x | x in g.queued && x.cls in cs ensures x.Rank() <= b.Rank() {
        var j :| 0 <= j < |cs| && cs[j] == x.cls;
        assert j == 0 || Rank(cs[j]) < Rank(cs[0]);
      }
    }
  }

  lemma EvictedChain(x: seq<Bundle>, y: seq<Bundle>, z: seq<Bundle>, r: int)
    requires x <= y <= z
    requires forall b :: b in y[|x|..] ==> r < b.Rank()
    requires forall b :: b in z[|y|..] ==> r < b.Rank()
    ensures x <= z && forall b :: b in z[|x|..] ==> r < b.Rank()
  {
    assert z[|x|..] == y[|x|..] + z[|y|..];
  }

  // Eviction that ends over the cap was over it all along.
  lemma OverBefore(g: Gate, cs: seq<TrafficClass>, b: Bundle, cap: nat)
    ensures Over(EvictBelow(g, cs, b, cap).queued, b, cap) ==> Over(g.queued, b, cap)
    decreases |cs|
  {
    if cs != [] && b.Rank() < Rank(cs[0]) && !Over(g.queued, b, cap) {
      OverBefore(g, cs[1..], b, cap);
    }
  }

  // The bundles that matter to an arrival of rank r.
  function OwnAndAbove(s: seq<Bundle>, b: Bundle): seq<Bundle> {
    Select(RankAtMost(b.Rank()), s)
  }

  // What admission sees after its expiry pass, which runs only when the arrival does not fit.
  function Swept(cfg: LiveConfig, g: Gate, b: Bundle, now: real): Gate {
    if Over(g.queued, b, cfg.cap) then PurgeClasses(g, CLASSES, now) else g
  }

  // With priority admission an arrival is admitted exactly when it fits beside the queued bundles of
  // its own rank and above. When it is refused, every lower-ranked bundle has been evicted all the
  // same: unlike the batch scheduler, the live gateway does not check first that eviction can help.
  lemma PriorityAdmission(cfg: LiveConfig, g: Gate, b: Bundle, now: real)
    requires cfg.admission == Priority
    ensures var s := Swept(cfg, g, b, now);
            var r := MakeRoom(cfg, g, b, now);
            && (Admits(cfg, g, b, now) <==> Bytes(OwnAndAbove(s.queued, b)) + b.size <= cfg.cap)
            && OwnAndAbove(r.queued, b) == OwnAndAbove(s.queued, b)
            && (!Admits(cfg, g, b, now) ==> r.queued == OwnAndAbove(s.queued, b))
  {
    hide PurgeClasses, EvictBelow, Bytes;
    var s := Swept(cfg, g, b, now);
    var r := MakeRoom(cfg, g, b, now);
    var own := RankAtMost(b.Rank());
    EvictBelowFacts(s, LOWEST_FIRST, b, cfg.cap);
    BytesSplit(own, s.queued);
    BytesSplit(own, r.queued);
    if !Admits(cfg, g, b, now) {
      forall x | x in r.queued ensures own.Passes(x) {
        AllClassesListed(x.cls);
      }
      SelectAll(own, r.queued);
    }
  }

  lemma AllClassesListed(c: TrafficClass)
    ensures c in LOWEST_FIRST
  {
    match c
    case Emergency => assert LOWEST_FIRST[3] == c;
    case Telemetry => assert LOWEST_FIRST[2] == c;
    case ScienceBulk => assert LOWEST_FIRST[1] == c;
    case Media => assert LOWEST_FIRST[0] == c;
  }

  // Only strictly lower-priority bundles are ever evicted.
  lemma EvictedAreLower(cfg: LiveConfig, g: Gate, b: Bundle, now: real)
    ensures var r := MakeRoom(cfg, g, b, now);
            && g.ledger.evicted <= r.ledger.evicted
            && forall x :: x in r.ledger.evicted[|g.ledger.evicted|..] ==> b.Rank() < x.Rank()
  {
    hide EvictBelow, Bytes;
    var s := Swept(cfg, g, b, now);
    PurgesEvictNone(g, CLASSES, now);
    EvictBelowFacts(s, LOWEST_FIRST, b, cfg.cap);
  }

  lemma {:induction false} PurgesEvictNone(g: Gate, cs: seq<TrafficClass>, now: real)
    ensures PurgeClasses(g, cs, now).ledger.evicted == g.ledger.evicted
    decreases |cs|
  {
    if cs != [] {
      PurgesEvictNone(PurgeClass(g, cs[0], now), cs[1..], now);
    }
  }
}
