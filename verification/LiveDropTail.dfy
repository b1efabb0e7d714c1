/** Drop-tail admission at the live gateway, and what either admission mode decides when calls come in real
    time: nothing overdue ever counts against an arrival. */
module LiveDropTail {
  import opened Traffic
  import opened Telemetry
  import opened Selection
  import opened Live
  import opened LiveOrder

  // ---------------------------------------------------------------- shedding in one pass

  // One pass over the list: a bundle goes when it is overdue and so were all before it in its class.
  // Classes in `settled` have shown a bundle that is not overdue.
  function Shed(s: seq<Bundle>, settled: set<TrafficClass>, now: real): seq<Bundle> {
    if s == [] then []
    else if s[0].cls in settled then [s[0]] + Shed(s[1..], settled, now)
    else if s[0].expiration < now then Shed(s[1..], settled, now)
    else [s[0]] + Shed(s[1..], settled + {s[0].cls}, now)
  }

  lemma {:induction false} ShedNothing(s: seq<Bundle>, settled: set<TrafficClass>, now: real)
    requires forall c: TrafficClass :: c in settled
    ensures Shed(s, settled, now) == s
  {
    if s != [] { ShedNothing(s[1..], settled, now); }
  }

  // Purging one more class is no longer counting it as settled.
  lemma {:induction false} PurgeUnsettles(s: seq<Bundle>, settled: set<TrafficClass>, c: TrafficClass, now: real)
    requires c in settled
    ensures Purge(Shed(s, settled, now), c, now) == Shed(s, settled - {c}, now)
  {
    if s != [] {
      var d := s[0].cls;
      if d == c {
        if s[0].expiration < now {
          PurgeUnsettles(s[1..], settled, c, now);
        } else {
          assert settled - {c} + {d} == settled;
        }
      } else if d in settled {
        PurgeUnsettles(s[1..], settled, c, now);
      } else if s[0].expiration < now {
        PurgeUnsettles(s[1..], settled, c, now);
      } else {
        PurgeUnsettles(s[1..], settled + {d}, c, now);
        assert settled + {d} - {c} == settled - {c} + {d};
      }
    }
  }

  const EVERY_CLASS: set<TrafficClass> := {Emergency, Telemetry, ScienceBulk, Media}

  lemma EveryClassListed(c: TrafficClass)
    ensures c in EVERY_CLASS
  {
    match c
    case Emergency =>
    case Telemetry =>
    case ScienceBulk =>
    case Media =>
  }

  // The four purges of an admission are one shedding pass.
  lemma PurgesShed(g: Gate, now: real)
    ensures PurgeClasses(g, CLASSES, now).queued == Shed(g.queued, {}, now)
    ensures PurgeClasses(g, CLASSES, now).ledger.evicted == g.ledger.evicted
    ensures PurgeClasses(g, CLASSES, now).ledger.dropped == g.ledger.dropped
    ensures PurgeClasses(g, CLASSES, now).ledger.returned == g.ledger.returned
  {
    hide Purge, Late, Shed;
    var all := EVERY_CLASS;
    forall c: TrafficClass ensures c in all { EveryClassListed(c); }
    ShedNothing(g.queued, all, now);
    var g1 := PurgeClass(g, Emergency, now);
    var g2 := PurgeClass(g1, Telemetry, now);
    var g3 := PurgeClass(g2, ScienceBulk, now);
    var g4 := PurgeClass(g3, Media, now);
    PurgeUnsettles(g.queued, all, Emergency, now);
    PurgeUnsettles(g.queued, all - {Emergency}, Telemetry, now);
    PurgeUnsettles(g.queued, all - {Emergency} - {Telemetry}, ScienceBulk, now);
    PurgeUnsettles(g.queued, all - {Emergency} - {Telemetry} - {ScienceBulk}, Media, now);
    assert all - {Emergency} - {Telemetry} - {ScienceBulk} - {Media} == {};
    FourPurges(g, now);
  }

  lemma FourPurges(g: Gate, now: real)
    ensures PurgeClasses(g, CLASSES, now)
         == PurgeClass(PurgeClass(PurgeClass(PurgeClass(g, Emergency, now), Telemetry, now), ScienceBulk, now),
                       Media, now)
  {
    hide PurgeClass;
    assert CLASSES[1..] == [Telemetry, ScienceBulk, Media];
    assert CLASSES[1..][1..] == [ScienceBulk, Media];
    assert CLASSES[1..][1..][1..] == [Media];
    assert CLASSES[1..][1..][1..][1..] == [];
  }

  lemma {:induction false} ShedKeepsAlive(s: seq<Bundle>, settled: set<TrafficClass>, now: real)
    ensures Alive(Shed(s, settled, now), now) == Alive(s, now)
  {
    if s != [] {
      ShedKeepsAlive(s[1..], settled, now);
      ShedKeepsAlive(s[1..], settled + {s[0].cls}, now);
    }
  }

  // ---------------------------------------------------------------- one offer

  // In either mode an arrival that fits joins at the end and nothing else happens: no purge, no eviction.
  lemma FitsOutright(cfg: LiveConfig, g: Gate, b: Bundle, now: real)
    requires Bytes(g.queued) + b.size <= cfg.cap
    ensures Admit(cfg, g, b, now) == g.(queued := g.queued + [b])
  {
  }

  // A drop-tail arrival that does not fit sheds the overdue heads, enters exactly when it fits beside what
  // is left, and is otherwise dropped; nothing is evicted.
  lemma DropTailAdmission(cfg: LiveConfig, g: Gate, b: Bundle, now: real)
    requires cfg.admission == DropTail && cfg.cap < Bytes(g.queued) + b.size
    ensures var r, kept := Admit(cfg, g, b, now), Shed(g.queued, {}, now);
            && (Bytes(kept) + b.size <= cfg.cap ==>
                  r.queued == kept + [b] && r.ledger.dropped == g.ledger.dropped)
            && (cfg.cap < Bytes(kept) + b.size ==>
                  r.queued == kept && r.ledger.dropped == g.ledger.dropped + [b])
            && r.ledger.evicted == g.ledger.evicted && r.ledger.returned == g.ledger.returned
  {
    hide PurgeClasses, Shed, Bytes;
    PurgesShed(g, now);
  }

  // So whatever arrives at a drop-tail gateway, every queued bundle that is not overdue stays, in order.
  lemma DropTailKeepsAlive(cfg: LiveConfig, g: Gate, b: Bundle, now: real)
    requires cfg.admission == DropTail
    ensures Alive(Admit(cfg, g, b, now).queued, now)
         == Alive(g.queued, now) + if Admits(cfg, g, b, now) then Alive([b], now) else []
  {
    hide Admit, Shed, Bytes, PurgeClasses;
    PurgesShed(g, now);
    ShedKeepsAlive(g.queued, {}, now);
    if Over(g.queued, b, cfg.cap) {
      DropTailAdmission(cfg, g, b, now);
      SelectAppend(Timely(now), Shed(g.queued, {}, now), [b]);
    } else {
      FitsOutright(cfg, g, b, now);
      SelectAppend(Timely(now), g.queued, [b]);
    }
  }

  // ---------------------------------------------------------------- no draw evicts

  lemma {:induction false} FifoEvictsNone(g: Gate, now: real)
    ensures NextFifo(g, now).gate.ledger.evicted == g.ledger.evicted
    decreases |g.queued|
  {
    if g.queued != [] && g.queued[0].expiration < now {
      PurgeShrinks(g.queued, g.queued[0].cls, now);
      FifoEvictsNone(PurgeClass(g, g.queued[0].cls, now), now);
    }
  }

  lemma {:induction false} StrictEvictsNone(g: Gate, cs: seq<TrafficClass>, now: real)
    ensures NextStrict(g, cs, now).gate.ledger.evicted == g.ledger.evicted
    decreases |cs|
  {
    if cs != [] { StrictEvictsNone(PurgeClass(g, cs[0], now), cs[1..], now); }
  }

  lemma {:induction false} VisitsEvictNone(g: Gate, now: real, fuel: nat)
    ensures Visits(g, now, fuel).gate.ledger.evicted == g.ledger.evicted
    decreases fuel
  {
    hide Purge, Late, Select, FirstOf;
    if 0 < fuel && g.rr != [] {
      var p := PurgeClass(g, g.rr[0], now);
      VisitsEvictNone(SkipTurn(p), now, fuel - 1);
      VisitsEvictNone(GrantTurn(p), now, fuel - 1);
    }
  }

  lemma DrawEvictsNone(cfg: LiveConfig, g: Gate, now: real)
    ensures Next(cfg, g, now).gate.ledger.evicted == g.ledger.evicted
  {
    hide Purge, Late, NextFifo, NextStrict, Visits, PurgeClasses, Select, FirstOf;
    var p := PurgeClass(g, Emergency, now);
    FifoEvictsNone(g, now);
    StrictEvictsNone(p, RR0, now);
    PurgesEvictNone(p, p.rr, now);
    VisitsEvictNone(PurgeClasses(p, p.rr, now), now, PATIENCE);
  }

  // No calls at all on a drop-tail gateway evict anything.
  lemma {:induction false} DropTailNeverEvicts(cfg: LiveConfig, g: Gate, calls: seq<Call>)
    requires cfg.admission == DropTail
    ensures Steps(cfg, g, calls).ledger.evicted == g.ledger.evicted
    decreases |calls|
  {
    hide Admit, Next, Shed, Bytes;
    if calls != [] {
      match calls[0] {
        case Offer(b, now) =>
          if Over(g.queued, b, cfg.cap) {
            DropTailAdmission(cfg, g, b, now);
          } else {
            FitsOutright(cfg, g, b, now);
          }
        case Draw(now) => DrawEvictsNone(cfg, g, now);
      }
      DropTailNeverEvicts(cfg, Step(cfg, g, calls[0]), calls[1..]);
    }
  }
}
