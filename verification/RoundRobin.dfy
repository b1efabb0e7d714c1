/** The resumable round robin of the live gateway: when it serves, and how fairly. */
module RoundRobin {
  import opened Traffic
  import opened Telemetry
  import opened Selection
  import opened Live
  import opened LiveLaws
  import opened Wrappers
  import LiveOrder

  // ---------------------------------------------------------------- the visiting order

  ghost predicate Cycle(rr: seq<TrafficClass>) {
    |rr| == 3 && Telemetry in rr && ScienceBulk in rr && Media in rr
  }

  function Position(rr: seq<TrafficClass>, c: TrafficClass): int {
    if 0 < |rr| && rr[0] == c then 0 else if 1 < |rr| && rr[1] == c then 1 else 2
  }

  predicate Shares(c: TrafficClass) {
    c != Emergency
  }

  // A rotation brings every class one place nearer the front, and the front class to the back.
  lemma RotationMoves(rr: seq<TrafficClass>, c: TrafficClass)
    requires Cycle(rr) && Shares(c)
    ensures Cycle(Rotated(rr)) && Shares(rr[0]) && rr[Position(rr, c)] == c
    ensures Position(Rotated(rr), c) == if rr[0] == c then 2 else Position(rr, c) - 1
  {
    CycleOf(rr);
    var r := Rotated(rr);
    assert r == [rr[1], rr[2], rr[0]];
  }

  lemma CycleOf(rr: seq<TrafficClass>)
    requires Cycle(rr)
    ensures rr[0] != rr[1] && rr[0] != rr[2] && rr[1] != rr[2]
    ensures rr[0] != Emergency && rr[1] != Emergency && rr[2] != Emergency
  {
    var i :| 0 <= i < 3 && rr[i] == Telemetry;
    var j :| 0 <= j < 3 && rr[j] == ScienceBulk;
    var k :| 0 <= k < 3 && rr[k] == Media;
  }

  // Credit after k more quanta.
  function Topped(credit: real, c: TrafficClass, k: int): real {
    if c == Telemetry then credit + 15000.0 * k as real else credit + 1500.0 * k as real
  }

  // No class has an overdue bundle at its head.
  ghost predicate Settled(g: Gate, now: real) {
    forall c :: Shares(c) && g.Line(c) != [] ==> now <= g.Line(c)[0].expiration
  }

  lemma SettledPurge(g: Gate, c: TrafficClass, now: real)
    requires Settled(g, now) && Shares(c)
    ensures PurgeClass(g, c, now) == g
  {
    PurgeSettled(g.queued, c, now);
    assert g.ledger.expired + [] == g.ledger.expired;
  }

  // ---------------------------------------------------------------- when the round robin serves

  // How often a class at the given position is visited in `fuel` visits.
  function VisitCount(fuel: nat, position: int): int {
    (fuel + 2 - position) / 3
  }

  // Class c gets to send its head within `fuel` visits if no other class does first.
  predicate Suffices(g: Gate, c: TrafficClass, fuel: nat) {
    && g.Line(c) != []
    && 1 <= VisitCount(fuel, Position(g.rr, c))
    && g.Line(c)[0].size as real <= Topped(g.Credit(c), c, VisitCount(fuel, Position(g.rr, c)) - 1)
  }

  predicate SomeSuffices(g: Gate, fuel: nat) {
    Suffices(g, Telemetry, fuel) || Suffices(g, ScienceBulk, fuel) || Suffices(g, Media, fuel)
  }

  lemma SkipSuffices(g: Gate, c: TrafficClass, fuel: nat)
    requires Cycle(g.rr) && Shares(c) && 0 < fuel && g.Line(g.rr[0]) == []
    ensures Cycle(SkipTurn(g).rr)
    ensures Suffices(SkipTurn(g), c, fuel - 1) <==> Suffices(g, c, fuel)
  {
    RotationMoves(g.rr, c);
  }

  lemma GrantSuffices(g: Gate, c: TrafficClass, fuel: nat)
    requires Cycle(g.rr) && Shares(c) && 0 < fuel
    requires g.Line(g.rr[0]) != [] && g.Credit(g.rr[0]) < g.Line(g.rr[0])[0].size as real
    ensures Cycle(GrantTurn(g).rr)
    ensures Suffices(GrantTurn(g), c, fuel - 1) <==> Suffices(g, c, fuel)
  {
    hide Select;
    RotationMoves(g.rr, c);
    if c == g.rr[0] {
      assert VisitCount(fuel, 0) == VisitCount(fuel - 1, 2) + 1;
    } else {
      assert VisitCount(fuel, Position(g.rr, c)) == VisitCount(fuel - 1, Position(g.rr, c) - 1);
    }
  }

  lemma ServeSuffices(g: Gate, fuel: nat)
    requires Cycle(g.rr) && 0 < fuel
    requires g.Line(g.rr[0]) != [] && g.Line(g.rr[0])[0].size as real <= g.Credit(g.rr[0])
    ensures SomeSuffices(g, fuel)
  {
    hide Select;
    RotationMoves(g.rr, Telemetry);
    assert Suffices(g, g.rr[0], fuel);
  }

  lemma NoFuel(g: Gate)
    ensures !SomeSuffices(g, 0)
  {
  }

  // A call of the round robin serves exactly when some class can accumulate its head's size within the
  // visits the call may make.
  lemma {:induction false} ServesExactly(g: Gate, now: real, fuel: nat)
    requires Cycle(g.rr) && Settled(g, now)
    ensures Visits(g, now, fuel).out.Some? <==> SomeSuffices(g, fuel)
    decreases fuel
  {
    hide Suffices, SkipTurn, GrantTurn, Purge, Late, Select, FirstOf;
    if fuel == 0 {
      NoFuel(g);
    } else {
      var c := g.rr[0];
      RotationMoves(g.rr, c);
      SettledPurge(g, c, now);
      if !Waiting(g, c) {
        SkipSuffices(g, Telemetry, fuel);
        SkipSuffices(g, ScienceBulk, fuel);
        SkipSuffices(g, Media, fuel);
        TurnsStaySettled(g, now);
        ServesExactly(SkipTurn(g), now, fuel - 1);
      } else if g.Line(c)[0].size as real <= g.Credit(c) {
        ServeSuffices(g, fuel);
      } else {
        GrantSuffices(g, Telemetry, fuel);
        GrantSuffices(g, ScienceBulk, fuel);
        GrantSuffices(g, Media, fuel);
        TurnsStaySettled(g, now);
        ServesExactly(GrantTurn(g), now, fuel - 1);
      }
    }
  }

  lemma TurnsStaySettled(g: Gate, now: real)
    requires g.rr != [] && Settled(g, now)
    ensures Settled(SkipTurn(g), now) && Settled(GrantTurn(g), now)
  {
    assert forall c :: SkipTurn(g).Line(c) == g.Line(c) && GrantTurn(g).Line(c) == g.Line(c);
  }

  lemma {:induction false} PurgesSettle(g: Gate, cs: seq<TrafficClass>, now: real, c: TrafficClass)
    ensures var p := PurgeClasses(g, cs, now);
            && (c in cs ==>
                  && (p.Line(c) != [] ==> now <= p.Line(c)[0].expiration)
                  && (Waiting(p, c) <==> Backlogged(g, c, now)))
            && (c !in cs ==> p.Line(c) == g.Line(c))
            && p.rr == g.rr && p.deficit == g.deficit && p.ledger.returned == g.ledger.returned
    decreases |cs|
  {
    hide Purge, Late, Select;
    if cs != [] {
      var m := PurgeClass(g, cs[0], now);
      PurgesSettle(m, cs[1..], now, c);
      PurgedLine(g, cs[0], now);
      if c in cs[1..] {
        BacklogSurvives(g, cs[0], now, c);
      } else if c != cs[0] {
        PurgeElsewhere(g.queued, cs[0], now, c);
      }
    }
  }

  lemma BacklogSurvives(g: Gate, c: TrafficClass, now: real, d: TrafficClass)
    ensures Backlogged(PurgeClass(g, c, now), d, now) <==> Backlogged(g, d, now)
  {
    PurgePartition(g.queued, c, now);
    PurgeFacts(g.queued, c, now);
    var p := PurgeClass(g, c, now);
    if Backlogged(g, d, now) {
      var b :| b in g.queued && b.cls == d && now <= b.expiration;
      assert b in multiset(g.queued);
      assert b in multiset(p.queued);
    }
  }

  // The gate as the round robin meets it: emergency and shared classes have shed their overdue heads.
  function Ready(g: Gate, now: real): Gate {
    PurgeClasses(PurgeClass(g, Emergency, now), g.rr, now)
  }

  lemma ReadyFacts(g: Gate, now: real)
    requires Cycle(g.rr)
    ensures Settled(Ready(g, now), now)
    ensures Ready(g, now).rr == g.rr && Ready(g, now).deficit == g.deficit
    ensures Ready(g, now).ledger.returned == g.ledger.returned
    ensures forall c :: Shares(c) ==> (Waiting(Ready(g, now), c) <==> Backlogged(g, c, now))
    ensures forall b :: b in Ready(g, now).queued ==> b in g.queued
  {
    hide Purge, Late, Select;
    var p := PurgeClass(g, Emergency, now);
    forall c | Shares(c)
      ensures Ready(g, now).Line(c) != [] ==> now <= Ready(g, now).Line(c)[0].expiration
      ensures Waiting(Ready(g, now), c) <==> Backlogged(g, c, now)
    {
      assert c in g.rr;
      PurgesSettle(p, g.rr, now, c);
      BacklogSurvives(g, Emergency, now, c);
    }
    PurgesSettle(p, g.rr, now, Emergency);
    PurgesOnlyRemove(p, g.rr, now);
    PurgedLine(g, Emergency, now);
  }

  // No live emergency bundle is queued, so a draw reaches the round robin.
  ghost predicate Contended(g: Gate, now: real) {
    !Backlogged(g, Emergency, now)
  }

  lemma WfqDraw(cfg: LiveConfig, g: Gate, now: real)
    requires cfg.policy == WfqDrain && Cycle(g.rr) && Contended(g, now)
    ensures var p := Ready(g, now);
            Next(cfg, g, now) ==
              if !Waiting(p, Telemetry) && !Waiting(p, ScienceBulk) && !Waiting(p, Media)
              then Pull(p.(deficit := map[Telemetry := 0.0, ScienceBulk := 0.0, Media := 0.0]), None)
              else Visits(p, now, PATIENCE)
  {
    hide Purge, Late, Select, Visits, PurgeClasses;
    PurgedLine(g, Emergency, now);
    CycleOf(g.rr);
    assert forall c :: c in g.rr <==> Shares(c);
  }

  // A draw comes back empty-handed exactly when nothing live is queued, or no waiting class can reach
  // its head's size in its share of the 10,000 visits.
  lemma WfqGivesUpExactly(cfg: LiveConfig, g: Gate, now: real)
    requires cfg.policy == WfqDrain && Cycle(g.rr) && Contended(g, now)
    ensures Next(cfg, g, now).out.None? <==> !SomeSuffices(Ready(g, now), PATIENCE)
  {
    hide Purge, Late, Select, Visits, PurgeClasses, Next;
    ReadyFacts(g, now);
    WfqDraw(cfg, g, now);
    ServesExactly(Ready(g, now), now, PATIENCE);
  }

  // Heads of at most 4,998,000 bytes are always within reach.
  lemma WfqNeverGivesUpEarly(cfg: LiveConfig, g: Gate, now: real)
    requires cfg.policy == WfqDrain && Cycle(g.rr)
    requires forall c :: Shares(c) ==> 0.0 <= g.Credit(c)
    requires forall b :: b in g.queued ==> b.size <= 4_998_000
    ensures Next(cfg, g, now).out.None? <==> forall b :: b in g.queued ==> b.expiration < now
  {
    hide Next, PurgeClasses, Purge, Late;
    if Backlogged(g, Emergency, now) {
      EmergencyFirst(cfg, g, now);
    } else {
      ReadyFacts(g, now);
      WfqGivesUpExactly(cfg, g, now);
      if b :| b in g.queued && now <= b.expiration {
        assert Backlogged(g, b.cls, now) && Shares(b.cls);
        WithinReach(Ready(g, now), b.cls);
        assert Suffices(Ready(g, now), b.cls, PATIENCE);
      } else {
        assert !Waiting(Ready(g, now), Telemetry);
        assert !Waiting(Ready(g, now), ScienceBulk);
        assert !Waiting(Ready(g, now), Media);
      }
    }
  }

  lemma WithinReach(p: Gate, c: TrafficClass)
    requires Cycle(p.rr) && Shares(c) && Waiting(p, c) && 0.0 <= p.Credit(c)
    requires forall b :: b in p.queued ==> b.size <= 4_998_000
    ensures Suffices(p, c, PATIENCE)
  {
    SelectMember(OfClass(c), p.queued);
    assert p.Line(c)[0] in p.Line(c);
    assert 3333 <= VisitCount(PATIENCE, Position(p.rr, c));
  }

  lemma EmergencyFirst(cfg: LiveConfig, g: Gate, now: real)
    requires cfg.policy != FifoDrain && Backlogged(g, Emergency, now)
    ensures Next(cfg, g, now).out.Some?
  {
    PurgedLine(g, Emergency, now);
  }

  lemma FirstOffer(cfg: LiveConfig, b: Bundle)
    requires b.size <= cfg.cap
    ensures Steps(cfg, NEW_GATE, [Offer(b, b.ingress)]) == NEW_GATE.(queued := [b])
  {
    assert [Offer(b, b.ingress)][1..] == [];
    assert Bytes(NEW_GATE.queued) == 0;
  }

  // One byte more, offered to a new gateway in the class visited last, and a call gives up on it although
  // it is queued and not overdue.
  lemma OneByteTooMany(cfg: LiveConfig, b: Bundle, now: real)
    requires cfg.policy == WfqDrain && b.size <= cfg.cap && cfg.Dated(b)
    requires b.cls == Media && b.size == 4_998_001 && now <= b.expiration
    ensures var g := Steps(cfg, NEW_GATE, [Offer(b, b.ingress)]);
            g.queued == [b] && Next(cfg, g, now).out.None?
  {
    var g := NEW_GATE.(queued := [b]);
    FirstOffer(cfg, b);
    hide Next, Ready, Select, Steps;
    assert RR0[0] == Telemetry && RR0[1] == ScienceBulk && RR0[2] == Media;
    NothingToPurge(g, now);
    WfqGivesUpExactly(cfg, g, now);
    LastInLine(g);
  }

  lemma LastInLine(g: Gate)
    requires g.rr == RR0 && g.Line(Telemetry) == [] && g.Line(ScienceBulk) == []
    requires g.Line(Media) != [] ==> g.Credit(Media) == 0.0 && 4_998_000 < g.Line(Media)[0].size
    ensures !SomeSuffices(g, PATIENCE)
  {
    hide Select;
    assert Position(g.rr, Media) == 2;
    assert VisitCount(PATIENCE, 2) == 3333;
    assert Topped(0.0, Media, 3332) == 4_998_000.0;
  }

  lemma NothingToPurge(g: Gate, now: real)
    requires |g.queued| == 1 && g.queued[0].cls == Media && now <= g.queued[0].expiration && g.rr == RR0
    ensures Ready(g, now) == g
    ensures g.Line(Telemetry) == [] && g.Line(ScienceBulk) == [] && g.Line(Media) == g.queued
  {
    SingleLine(g.queued, Emergency);
    SingleLine(g.queued, Telemetry);
    SingleLine(g.queued, ScienceBulk);
    SingleLine(g.queued, Media);
    SettledPurgeAny(g, Emergency, now);
    SettledPurgeAny(g, Telemetry, now);
    SettledPurgeAny(g, ScienceBulk, now);
    SettledPurgeAny(g, Media, now);
    assert RR0[1..] == [ScienceBulk, Media] && RR0[1..][1..] == [Media] && RR0[1..][1..][1..] == [];
  }

  lemma SingleLine(s: seq<Bundle>, c: TrafficClass)
    requires |s| == 1
    ensures Select(OfClass(c), s) == if s[0].cls == c then s else []
  {
    assert s[1..] == [] && s == [s[0]];
  }

  lemma SettledPurgeAny(g: Gate, c: TrafficClass, now: real)
    requires g.Line(c) == [] || now <= g.Line(c)[0].expiration
    ensures PurgeClass(g, c, now) == g
  {
    PurgeSettled(g.queued, c, now);
    assert g.ledger.expired + [] == g.ledger.expired;
  }

  // ---------------------------------------------------------------- fairness

  // Bytes of class c returned so far.
  function ServedBytes(g: Gate, c: TrafficClass): nat {
    Bytes(Select(OfClass(c), g.ledger.returned))
  }

  // Between g and r class c received k quanta and paid for what it sent, and the order moved on.
  ghost predicate Metered(g: Gate, r: Gate, c: TrafficClass, k: nat) {
    r.Credit(c) == Topped(g.Credit(c), c, k) - (ServedBytes(r, c) - ServedBytes(g, c)) as real
  }

  // Rounds the order has advanced, as class c sees it: three per quantum, less its place in line.
  function Phase(g: Gate, r: Gate, c: TrafficClass, k: nat): int {
    3 * k - Position(r.rr, c) + Position(g.rr, c)
  }

  lemma MeteredTwice(g: Gate, m: Gate, r: Gate, c: TrafficClass, k: nat, l: nat)
    requires Metered(g, m, c, k) && Metered(m, r, c, l)
    ensures Metered(g, r, c, k + l)
    ensures Phase(g, r, c, k + l) == Phase(g, m, c, k) + Phase(m, r, c, l)
  {
  }

  lemma StillMetered(g: Gate, r: Gate, c: TrafficClass)
    requires r.deficit == g.deficit && r.rr == g.rr && ServedBytes(r, c) == ServedBytes(g, c)
    ensures Metered(g, r, c, 0) && Phase(g, r, c, 0) == 0
  {
  }

  // One visit that does not serve: a backlogged class gains a quantum exactly when it is its turn.
  lemma GrantMeters(g: Gate, c: TrafficClass) returns (k: nat)
    requires Cycle(g.rr) && Shares(c)
    ensures Metered(g, GrantTurn(g), c, k) && Phase(g, GrantTurn(g), c, k) == 1
  {
    hide Select, Bytes;
    RotationMoves(g.rr, c);
    k := if g.rr[0] == c then 1 else 0;
  }

  lemma SkipMeters(g: Gate, c: TrafficClass)
    requires Cycle(g.rr) && Shares(c) && g.rr[0] != c
    ensures Metered(g, SkipTurn(g), c, 0) && Phase(g, SkipTurn(g), c, 0) == 1
  {
    hide Select, Bytes;
    RotationMoves(g.rr, c);
  }

  lemma TakeServes(g: Gate, d: TrafficClass, c: TrafficClass)
    requires Waiting(g, d)
    ensures ServedBytes(Take(g, d).gate, c)
         == ServedBytes(g, c) + if c == d then g.Line(d)[0].size as int else 0
  {
    var b := g.queued[FirstOf(g.queued, d)];
    SelectAppend(OfClass(c), g.ledger.returned, [b]);
    BytesAppend(Select(OfClass(c), g.ledger.returned), Select(OfClass(c), [b]));
    assert Bytes([b]) == b.size;
  }

  lemma ServeMeters(g: Gate, c: TrafficClass)
    requires Cycle(g.rr) && Waiting(g, g.rr[0])
    ensures Metered(g, ServeTurn(g).gate, c, 0) && Phase(g, ServeTurn(g).gate, c, 0) == 0
  {
    hide Select, Bytes, FirstOf;
    TakeServes(g, g.rr[0], c);
  }

  // Two classes that stay backlogged through a call: what each received, and equal phases.
  lemma {:induction false} VisitsMeter(g: Gate, now: real, fuel: nat, i: TrafficClass, j: TrafficClass)
      returns (k: nat, l: nat)
    requires Cycle(g.rr) && Settled(g, now) && Shares(i) && Shares(j)
    requires Waiting(g, i) && Waiting(g, j)
    ensures var r := Visits(g, now, fuel).gate;
            && Cycle(r.rr)
            && Metered(g, r, i, k) && Metered(g, r, j, l)
            && Phase(g, r, i, k) == Phase(g, r, j, l)
    decreases fuel
  {
    hide Purge, Late, Select, SkipTurn, GrantTurn, ServeTurn, Metered, Phase, ServedBytes;
    k, l := 0, 0;
    var c := g.rr[0];
    RotationMoves(g.rr, c);
    SettledPurge(g, c, now);
    if fuel == 0 {
      StillMetered(g, g, i);
      StillMetered(g, g, j);
    } else if !Waiting(g, c) {
      SkipMeters(g, i);
      SkipMeters(g, j);
      TurnsKeep(g, now);
      var k1, l1 := VisitsMeter(SkipTurn(g), now, fuel - 1, i, j);
      k, l := k1, l1;
      var r := Visits(g, now, fuel).gate;
      MeteredTwice(g, SkipTurn(g), r, i, 0, k1);
      MeteredTwice(g, SkipTurn(g), r, j, 0, l1);
    } else if g.Line(c)[0].size as real <= g.Credit(c) {
      ServeMeters(g, i);
      ServeMeters(g, j);
      ServeKeepsOrder(g);
    } else {
      var k0 := GrantMeters(g, i);
      var l0 := GrantMeters(g, j);
      TurnsKeep(g, now);
      var k1, l1 := VisitsMeter(GrantTurn(g), now, fuel - 1, i, j);
      k, l := k0 + k1, l0 + l1;
      var r := Visits(g, now, fuel).gate;
      MeteredTwice(g, GrantTurn(g), r, i, k0, k1);
      MeteredTwice(g, GrantTurn(g), r, j, l0, l1);
    }
  }

  lemma ServeKeepsOrder(g: Gate)
    requires g.rr != [] && Waiting(g, g.rr[0])
    ensures ServeTurn(g).gate.rr == g.rr
  {
  }

  lemma TurnsKeep(g: Gate, now: real)
    requires Cycle(g.rr) && Settled(g, now)
    ensures Settled(SkipTurn(g), now) && Settled(GrantTurn(g), now)
    ensures Cycle(SkipTurn(g).rr) && Cycle(GrantTurn(g).rr)
    ensures SkipTurn(g).queued == g.queued && GrantTurn(g).queued == g.queued
  {
    TurnsStaySettled(g, now);
    RotationMoves(g.rr, Telemetry);
  }

  // A call leaves two classes comparable: an admission, a draw served by emergency traffic, or a draw
  // that finds both of them backlogged.
  ghost predicate Fair(cfg: LiveConfig, g: Gate, call: Call, i: TrafficClass, j: TrafficClass) {
    call.Draw? && Contended(g, call.at) ==> Backlogged(g, i, call.at) && Backlogged(g, j, call.at)
  }

  lemma DrawMeters(cfg: LiveConfig, g: Gate, now: real, i: TrafficClass, j: TrafficClass)
      returns (k: nat, l: nat)
    requires cfg.policy == WfqDrain && Cycle(g.rr) && Shares(i) && Shares(j)
    requires Fair(cfg, g, Draw(now), i, j)
    ensures var r := Next(cfg, g, now).gate;
            && Cycle(r.rr)
            && Metered(g, r, i, k) && Metered(g, r, j, l)
            && Phase(g, r, i, k) == Phase(g, r, j, l)
  {
    hide Purge, Late, Select, Visits, Metered, Phase, ServedBytes, PurgeClasses, Next, FirstOf;
    if Contended(g, now) {
      var p := Ready(g, now);
      ReadyFacts(g, now);
      WfqDraw(cfg, g, now);
      ServedFromReturned(g, p, i);
      ServedFromReturned(g, p, j);
      StillMetered(g, p, i);
      StillMetered(g, p, j);
      k, l := VisitsMeter(p, now, PATIENCE, i, j);
      var r := Visits(p, now, PATIENCE).gate;
      assert Waiting(p, i) && i in [Telemetry, ScienceBulk, Media];
      MeteredTwice(g, p, r, i, 0, k);
      MeteredTwice(g, p, r, j, 0, l);
    } else {
      EmergencyMeters(cfg, g, now, i);
      EmergencyMeters(cfg, g, now, j);
      k, l := 0, 0;
    }
  }

  lemma ServedFromReturned(g: Gate, r: Gate, c: TrafficClass)
    requires r.ledger.returned == g.ledger.returned
    ensures ServedBytes(r, c) == ServedBytes(g, c)
  {
  }

  lemma EmergencyMeters(cfg: LiveConfig, g: Gate, now: real, c: TrafficClass)
    requires cfg.policy == WfqDrain && Cycle(g.rr) && Shares(c) && !Contended(g, now)
    ensures var r := Next(cfg, g, now).gate;
            r.rr == g.rr && Metered(g, r, c, 0) && Phase(g, r, c, 0) == 0
  {
    hide Purge, Late, Select, Metered, Phase, ServedBytes, FirstOf;
    PurgedLine(g, Emergency, now);
    var p := PurgeClass(g, Emergency, now);
    TakeServes(p, Emergency, c);
    ServedFromReturned(g, p, c);
    StillMetered(g, Take(p, Emergency).gate, c);
  }

  lemma {:induction false} EvictionKeepsTurns(g: Gate, c: TrafficClass, b: Bundle, cap: nat)
    ensures var r := EvictClass(g, c, b, cap);
            r.deficit == g.deficit && r.rr == g.rr && r.ledger.returned == g.ledger.returned
            && forall x :: x in r.queued ==> x in g.queued
    decreases |g.queued|
  {
    hide Bytes;
    if Over(g.queued, b, cap) && Has(g.queued, c) {
      var i := LastOf(g.queued, c);
      WithoutPartition(g.queued, i);
      EvictionKeepsTurns(g.(queued := Without(g.queued, i),
                            ledger := g.ledger.(evicted := g.ledger.evicted + [g.queued[i]])), c, b, cap);
    }
  }

  lemma {:induction false} EvictionsKeepTurns(g: Gate, cs: seq<TrafficClass>, b: Bundle, cap: nat)
    ensures var r := EvictBelow(g, cs, b, cap);
            r.deficit == g.deficit && r.rr == g.rr && r.ledger.returned == g.ledger.returned
            && forall x :: x in r.queued ==> x in g.queued
    decreases |cs|
  {
    hide EvictClass;
    if cs != [] && b.Rank() < Rank(cs[0]) {
      EvictionKeepsTurns(g, cs[0], b, cap);
      EvictionsKeepTurns(EvictClass(g, cs[0], b, cap), cs[1..], b, cap);
    }
  }

  // Admission never touches the round robin.
  lemma AdmitKeepsTurns(cfg: LiveConfig, g: Gate, b: Bundle, now: real)
    ensures var r := Admit(cfg, g, b, now);
            r.deficit == g.deficit && r.rr == g.rr && r.ledger.returned == g.ledger.returned
            && forall x :: x in r.queued ==> x in g.queued || x == b
  {
    hide PurgeClasses, EvictBelow, Bytes;
    PurgesSettle(g, CLASSES, now, Emergency);
    PurgesOnlyRemove(g, CLASSES, now);
    EvictionsKeepTurns(g, LOWEST_FIRST, b, cfg.cap);
    EvictionsKeepTurns(PurgeClasses(g, CLASSES, now), LOWEST_FIRST, b, cfg.cap);
  }

  // ---------------------------------------------------------------- bounded deficits

  // Deficits are never negative and never a whole quantum above the largest size n.
  ghost predicate Bounded(g: Gate, n: nat) {
    && Cycle(g.rr)
    && (forall b :: b in g.queued ==> b.size <= n)
    && (forall c :: Shares(c) ==> 0.0 <= g.Credit(c) < Topped(n as real, c, 1))
  }

  // Changing the deficit of one class within its bound keeps everything bounded.
  lemma CreditBounded(g: Gate, h: Gate, c: TrafficClass, credit: real, n: nat)
    requires Bounded(g, n) && Cycle(h.rr) && Shares(c)
    requires forall b :: b in h.queued ==> b in g.queued
    requires h.deficit == g.deficit[c := credit] && 0.0 <= credit < Topped(n as real, c, 1)
    ensures Bounded(h, n)
  {
    hide Cycle, Topped;
    forall d | Shares(d) ensures 0.0 <= h.Credit(d) < Topped(n as real, d, 1) {
      assert 0.0 <= g.Credit(d) < Topped(n as real, d, 1);
    }
  }

  lemma NextInCycle(rr: seq<TrafficClass>)
    requires Cycle(rr)
    ensures rr != [] && Cycle(Rotated(rr)) && Shares(rr[0])
  {
    RotationMoves(rr, Telemetry);
  }

  lemma HeadSize(g: Gate, c: TrafficClass, n: nat)
    requires Bounded(g, n) && Waiting(g, c)
    ensures g.Line(c) != [] && g.Line(c)[0].size <= n
  {
    SelectMember(OfClass(c), g.queued);
    assert g.Line(c)[0] in g.Line(c);
  }

  lemma QuantumTops(credit: real, c: TrafficClass, n: nat)
    requires Shares(c) && credit < n as real
    ensures credit + QUANTUM * Weight(c) < Topped(n as real, c, 1)
    ensures 0.0 <= QUANTUM * Weight(c)
    ensures (n as real) < Topped(n as real, c, 1)
  {
  }

  lemma RestWasQueued(g: Gate, c: TrafficClass)
    requires Waiting(g, c)
    ensures forall b :: b in Live.Take(g, c).gate.queued ==> b in g.queued
  {
    WithoutPartition(g.queued, FirstOf(g.queued, c));
  }

  lemma TurnsBounded(g: Gate, n: nat)
    requires Bounded(g, n)
    ensures Bounded(SkipTurn(g), n)
    ensures Waiting(g, g.rr[0]) && g.Credit(g.rr[0]) < g.Line(g.rr[0])[0].size as real ==> Bounded(GrantTurn(g), n)
    ensures Waiting(g, g.rr[0]) && g.Line(g.rr[0])[0].size as real <= g.Credit(g.rr[0]) ==>
              Bounded(ServeTurn(g).gate, n)
  {
    hide Select, Topped, Cycle, Weight, FirstOf, Without;
    NextInCycle(g.rr);
    var c := g.rr[0];
    assert 0.0 <= g.Credit(c) < Topped(n as real, c, 1);
    QuantumTops(-1.0, c, n);
    CreditBounded(g, SkipTurn(g), c, 0.0, n);
    if Waiting(g, c) {
      HeadSize(g, c, n);
      var size := g.Line(c)[0].size as real;
      if g.Credit(c) < size {
        QuantumTops(g.Credit(c), c, n);
        CreditBounded(g, GrantTurn(g), c, g.Credit(c) + QUANTUM * Weight(c), n);
      } else {
        RestWasQueued(g, c);
        CreditBounded(g, ServeTurn(g).gate, c, g.Credit(c) - size, n);
      }
    }
  }

  lemma PurgeBounded(g: Gate, c: TrafficClass, now: real, n: nat)
    requires Bounded(g, n)
    ensures Bounded(PurgeClass(g, c, now), n)
  {
    PurgeFacts(g.queued, c, now);
  }

  lemma {:induction false} PurgesBounded(g: Gate, cs: seq<TrafficClass>, now: real, n: nat)
    requires Bounded(g, n)
    ensures Bounded(PurgeClasses(g, cs, now), n)
    decreases |cs|
  {
    hide Bounded, PurgeClass;
    if cs != [] {
      PurgeBounded(g, cs[0], now, n);
      PurgesBounded(PurgeClass(g, cs[0], now), cs[1..], now, n);
    }
  }

  lemma {:induction false} VisitsBounded(g: Gate, now: real, fuel: nat, n: nat)
    requires Bounded(g, n)
    ensures Bounded(Visits(g, now, fuel).gate, n)
    decreases fuel
  {
    hide Bounded, Purge, Late, Select, SkipTurn, GrantTurn, ServeTurn;
    if 0 < fuel && g.rr != [] {
      var c := g.rr[0];
      var p := PurgeClass(g, c, now);
      PurgeBounded(g, c, now, n);
      TurnsBounded(p, n);
      if !Waiting(p, c) {
        VisitsBounded(SkipTurn(p), now, fuel - 1, n);
      } else if p.Credit(c) < p.Line(c)[0].size as real {
        VisitsBounded(GrantTurn(p), now, fuel - 1, n);
      }
    }
  }

  lemma TakeBounded(g: Gate, c: TrafficClass, n: nat)
    requires Bounded(g, n) && Waiting(g, c)
    ensures Bounded(Take(g, c).gate, n)
  {
    WithoutPartition(g.queued, FirstOf(g.queued, c));
  }

  lemma ResetBounded(g: Gate, n: nat)
    requires Bounded(g, n)
    ensures Bounded(g.(deficit := map[Telemetry := 0.0, ScienceBulk := 0.0, Media := 0.0]), n)
  {
  }

  lemma StepBounded(cfg: LiveConfig, g: Gate, call: Call, n: nat)
    requires cfg.policy == WfqDrain && Bounded(g, n) && (call.Offer? ==> call.b.size <= n)
    ensures Bounded(Step(cfg, g, call), n)
  {
    hide PurgeClasses, PurgeClass, Take, Visits, Waiting;
    match call {
      case Offer(b, now) =>
        hide Admit;
        AdmitKeepsTurns(cfg, g, b, now);
      case Draw(now) =>
        hide Bounded;
        var p := PurgeClass(g, Emergency, now);
        PurgeBounded(g, Emergency, now, n);
        if Waiting(p, Emergency) {
          TakeBounded(p, Emergency, n);
        } else {
          var q := PurgeClasses(p, p.rr, now);
          PurgesBounded(p, p.rr, now, n);
          ResetBounded(q, n);
          VisitsBounded(q, now, PATIENCE, n);
        }
    }
  }

  ghost predicate OffersUpTo(calls: seq<Call>, n: nat) {
    forall i :: 0 <= i < |calls| && calls[i].Offer? ==> calls[i].b.size <= n
  }

  // Every reachable gate has bounded deficits.
  lemma {:induction false} StepsBounded(cfg: LiveConfig, g: Gate, calls: seq<Call>, n: nat)
    requires cfg.policy == WfqDrain && Bounded(g, n) && OffersUpTo(calls, n)
    ensures Bounded(Steps(cfg, g, calls), n)
    decreases |calls|
  {
    hide Bounded, Step;
    if calls != [] {
      assert calls[0].Offer? ==> calls[0].b.size <= n;
      StepBounded(cfg, g, calls[0], n);
      TailOffers(calls, n);
      StepsBounded(cfg, Step(cfg, g, calls[0]), calls[1..], n);
    }
  }

  lemma TailOffers(calls: seq<Call>, n: nat)
    requires calls != [] && OffersUpTo(calls, n)
    ensures OffersUpTo(calls[1..], n)
  {
    forall i | 0 <= i < |calls[1..]| && calls[1..][i].Offer? ensures calls[1..][i].b.size <= n {
      assert calls[1..][i] == calls[i + 1];
    }
  }

  lemma NewGateBounded(n: nat)
    ensures Bounded(NEW_GATE, n)
  {
    assert RR0[0] == Telemetry && RR0[1] == ScienceBulk && RR0[2] == Media;
  }

  // ---------------------------------------------------------------- the bound

  // Classes i and j are backlogged at every draw the round robin answers.
  ghost predicate Busy(cfg: LiveConfig, g: Gate, calls: seq<Call>, i: TrafficClass, j: TrafficClass)
    decreases |calls|
  {
    calls == [] || (Fair(cfg, g, calls[0], i, j) && Busy(cfg, Step(cfg, g, calls[0]), calls[1..], i, j))
  }

  lemma {:induction false} SegmentMeters(
      cfg: LiveConfig, g: Gate, calls: seq<Call>, i: TrafficClass, j: TrafficClass) returns (k: nat, l: nat)
    requires cfg.policy == WfqDrain && Cycle(g.rr) && Shares(i) && Shares(j)
    requires Busy(cfg, g, calls, i, j)
    ensures var r := Steps(cfg, g, calls);
            && Cycle(r.rr)
            && Metered(g, r, i, k) && Metered(g, r, j, l)
            && Phase(g, r, i, k) == Phase(g, r, j, l)
    decreases |calls|
  {
    hide Metered, Phase, ServedBytes, Fair, Next, Admit;
    if calls == [] {
      StillMetered(g, g, i);
      StillMetered(g, g, j);
      k, l := 0, 0;
    } else {
      var m := Step(cfg, g, calls[0]);
      var k0, l0 := CallMeters(cfg, g, calls[0], i, j);
      var k1, l1 := SegmentMeters(cfg, m, calls[1..], i, j);
      var r := Steps(cfg, g, calls);
      k, l := k0 + k1, l0 + l1;
      MeteredTwice(g, m, r, i, k0, k1);
      MeteredTwice(g, m, r, j, l0, l1);
    }
  }

  lemma CallMeters(cfg: LiveConfig, g: Gate, call: Call, i: TrafficClass, j: TrafficClass)
      returns (k: nat, l: nat)
    requires cfg.policy == WfqDrain && Cycle(g.rr) && Shares(i) && Shares(j) && Fair(cfg, g, call, i, j)
    ensures var r := Step(cfg, g, call);
            && Cycle(r.rr)
            && Metered(g, r, i, k) && Metered(g, r, j, l)
            && Phase(g, r, i, k) == Phase(g, r, j, l)
  {
    hide Metered, Phase, ServedBytes, Fair, Next, Admit;
    match call {
      case Offer(b, now) =>
        AdmitKeepsTurns(cfg, g, b, now);
        var r := Step(cfg, g, call);
        ServedFromReturned(g, r, i);
        ServedFromReturned(g, r, j);
        StillMetered(g, r, i);
        StillMetered(g, r, j);
        k, l := 0, 0;
      case Draw(now) =>
        k, l := DrawMeters(cfg, g, now, i, j);
    }
  }

  // Bytes per unit weight returned to class c between g and r.
  function Share(g: Gate, r: Gate, c: TrafficClass): real {
    (ServedBytes(r, c) - ServedBytes(g, c)) as real / Weight(c)
  }

  // Phases that agree keep the numbers of quanta within one of each other.
  lemma QuantaBalanced(g: Gate, r: Gate, i: TrafficClass, j: TrafficClass, k: nat, l: nat)
    requires Cycle(g.rr) && Cycle(r.rr) && Shares(i) && Shares(j)
    requires Phase(g, r, i, k) == Phase(g, r, j, l)
    ensures -1 <= k - l <= 1
  {
    RotationMoves(g.rr, i);
    RotationMoves(g.rr, j);
    RotationMoves(r.rr, i);
    RotationMoves(r.rr, j);
  }

  lemma ShareNearQuanta(g: Gate, r: Gate, c: TrafficClass, k: nat, n: nat)
    requires Metered(g, r, c, k) && Shares(c) && Bounded(g, n) && Bounded(r, n)
    ensures 1500.0 * k as real - (n as real / Weight(c) + 1500.0) < Share(g, r, c)
          < 1500.0 * k as real + (n as real / Weight(c) + 1500.0)
  {
    hide ServedBytes, Gate.Credit;
    assert 0.0 <= g.Credit(c) < Topped(n as real, c, 1);
    assert 0.0 <= r.Credit(c) < Topped(n as real, c, 1);
    var s := (ServedBytes(r, c) - ServedBytes(g, c)) as real;
    assert s == Topped(g.Credit(c), c, k) - r.Credit(c);
  }

  // Over any stretch of calls in which two classes are backlogged at every draw the round robin
  // answers, their bytes per unit weight differ by less than three quanta and one largest bundle each.
  lemma RoundRobinIsFair(
      cfg: LiveConfig, g: Gate, calls: seq<Call>, i: TrafficClass, j: TrafficClass, n: nat)
    requires cfg.policy == WfqDrain && Bounded(g, n) && OffersUpTo(calls, n)
    requires Shares(i) && Shares(j) && Busy(cfg, g, calls, i, j)
    ensures var r := Steps(cfg, g, calls);
            var slack := 3.0 * 1500.0 + n as real / Weight(i) + n as real / Weight(j);
            -slack < Share(g, r, i) - Share(g, r, j) < slack
  {
    hide Metered, Phase, ServedBytes, Busy, Steps, Share;
    var r := Steps(cfg, g, calls);
    var k, l := SegmentMeters(cfg, g, calls, i, j);
    StepsBounded(cfg, g, calls, n);
    QuantaBalanced(g, r, i, j, k, l);
    ShareNearQuanta(g, r, i, k, n);
    ShareNearQuanta(g, r, j, l, n);
  }

  // ---------------------------------------------------------------- edges of a draw

  // Under strict and round-robin drains a live emergency bundle goes first: the oldest one.
  lemma EmergencyPreempts(cfg: LiveConfig, g: Gate, now: real)
    requires cfg.policy != FifoDrain && Backlogged(g, Emergency, now)
    ensures Select(OfClass(Emergency), Select(Timely(now), g.queued)) != []
    ensures Next(cfg, g, now).out == Some(Select(OfClass(Emergency), Select(Timely(now), g.queued))[0])
  {
    hide Purge, Late, Take;
    PurgedLine(g, Emergency, now);
    LiveOrder.TakeOldest(g, Emergency, now);
  }

  // A round-robin draw that finds nothing live forgets every deficit.
  lemma IdleDrawForgets(cfg: LiveConfig, g: Gate, now: real, c: TrafficClass)
    requires cfg.policy == WfqDrain && Cycle(g.rr) && forall b :: b in g.queued ==> b.expiration < now
    ensures Next(cfg, g, now).out == None && Next(cfg, g, now).gate.Credit(c) == 0.0
  {
    hide Purge, Late, Select, PurgeClasses, Visits;
    assert Contended(g, now);
    ReadyFacts(g, now);
    WfqDraw(cfg, g, now);
  }

  // How large a single bundle a draw can still serve, by the class's place in the visiting order: the class
  // visited first is visited 3,334 times in one call, the others 3,333 times.
  function Reach(c: TrafficClass, position: int): int {
    (if c == Telemetry then 15_000 else 1_500) * if position == 0 then 3_333 else 3_332
  }

  lemma LoneBundleServedIff(cfg: LiveConfig, g: Gate, b: Bundle, now: real)
    requires cfg.policy == WfqDrain && Cycle(g.rr) && g.queued == [b] && Shares(b.cls)
    requires now <= b.expiration && g.Credit(b.cls) == 0.0
    ensures Next(cfg, g, now).out == Some(b) <==> b.size <= Reach(b.cls, Position(g.rr, b.cls))
  {
    hide Next, Ready;
    forall c ensures g.Line(c) == if c == b.cls then [b] else [] { LineOfOne(b, c); }
    OnlyOneToPurge(g, b, now);
    WfqGivesUpExactly(cfg, g, now);
    LoneSuffices(g, b);
    NothingLateReturned(cfg, g, now);
  }

  lemma LineOfOne(b: Bundle, c: TrafficClass)
    ensures Select(OfClass(c), [b]) == if c == b.cls then [b] else []
  {
    assert [b][1..] == [];
  }

  lemma OnlyOneToPurge(g: Gate, b: Bundle, now: real)
    requires Cycle(g.rr) && g.queued == [b] && Shares(b.cls) && now <= b.expiration
    ensures Ready(g, now) == g && Contended(g, now)
  {
    hide PurgeClasses;
    forall c ensures PurgeClass(g, c, now) == g {
      assert g.ledger.expired + [] == g.ledger.expired;
      PurgeSettled(g.queued, c, now);
    }
    PurgesNothing(g, g.rr, now);
  }

  lemma {:induction false} PurgesNothing(g: Gate, cs: seq<TrafficClass>, now: real)
    requires forall c :: PurgeClass(g, c, now) == g
    ensures PurgeClasses(g, cs, now) == g
    decreases |cs|
  {
    hide PurgeClass;
    if cs != [] { PurgesNothing(g, cs[1..], now); }
  }

  lemma LoneSuffices(g: Gate, b: Bundle)
    requires Cycle(g.rr) && Shares(b.cls) && g.Credit(b.cls) == 0.0 && g.Line(b.cls) == [b]
    requires forall c :: c != b.cls ==> g.Line(c) == []
    ensures SomeSuffices(g, PATIENCE) <==> b.size <= Reach(b.cls, Position(g.rr, b.cls))
  {
    hide Select, Gate.Line;
    var p := Position(g.rr, b.cls);
    assert VisitCount(PATIENCE, p) == if p == 0 then 3_334 else 3_333;
    assert Suffices(g, b.cls, PATIENCE) <==> b.size <= Reach(b.cls, p);
  }
}
