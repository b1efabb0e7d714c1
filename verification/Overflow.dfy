/** Why a bundle overflows: it was refused because it did not fit, or it gave way to an arrival of strictly
    higher priority that then came in. */
module Overflow {
  import opened Telemetry
  import opened Selection
  import opened Admission
  import opened Replay
  import opened Fates
  import opened Reach
  import opened Wrappers
  import Buffering

  // The queued bundles an arrival cannot displace: those of its own rank and above, or all of them when
  // admission is class-blind.
  function Standing(aware: bool, q: Queue, b: Bundle): seq<Bundle> {
    if aware then Select(RankAtMost(b.Rank()), q.active) else q.active
  }

  // Arrival b does not fit beside the bundles it cannot displace.
  predicate Refused(cap: real, aware: bool, q: Queue, b: Bundle) {
    !Fits(Bytes(Standing(aware, q, b)) + b.size, cap)
  }

  // Queued bundle b is evicted for arrival x, which is of strictly higher priority and comes in.
  predicate GivesWay(cap: real, aware: bool, q: Queue, x: Bundle, b: Bundle) {
    && aware && x.Rank() < b.Rank() && b in q.active
    && b in EvictedFor(q, x, cap) && x in TryAdmit(cap, aware, q, x).active
  }

  predicate LosesNow(cap: real, aware: bool, q: Queue, x: Bundle, b: Bundle) {
    (b == x && Refused(cap, aware, q, b)) || GivesWay(cap, aware, q, x, b)
  }

  // Some arrival of the list is the reason.
  predicate LosesDuring(cap: real, aware: bool, q: Queue, s: seq<Bundle>, b: Bundle)
    decreases |s|
  {
    s != [] && (LosesNow(cap, aware, q, s[0], b)
                || LosesDuring(cap, aware, TryAdmit(cap, aware, q, s[0]), s[1..], b))
  }

  // ---------------------------------------------------------------- one arrival

  // Room after eviction is exactly not being refused.
  lemma RoomIsNotRefused(cap: real, q: Queue, x: Bundle)
    ensures Refused(cap, true, q, x) <==> !RoomAfterEviction(q, x, cap)
    ensures Fits(Bytes(q.active) + x.size, cap) ==> RoomAfterEviction(q, x, cap)
  {
    BytesSplit(RankAtMost(x.Rank()), q.active);
  }

  lemma FittingLosesNobody(cap: real, aware: bool, q: Queue, x: Bundle, b: Bundle)
    requires Fits(Bytes(q.active) + x.size, cap)
    ensures !LosesNow(cap, aware, q, x, b)
  {
    RoomIsNotRefused(cap, q, x);
  }

  lemma EvictionLosesVictims(cap: real, q: Queue, x: Bundle, b: Bundle)
    requires Consistent(q, cap) && x !in q.outcomes && !Decided(q.outcomes, b)
    requires !Fits(Bytes(q.active) + x.size, cap) && RoomAfterEviction(q, x, cap)
    ensures Decided(TryAdmit(cap, true, q, x).outcomes, b) <==> LosesNow(cap, true, q, x, b)
  {
    var v := EvictedFor(q, x, cap);
    RoomIsNotRefused(cap, q, x);
    VictimsAreLowest(q, x, cap);
    RecordAt(q.outcomes, v, Overflowed, b);
    RecordAt(Leave(q, v, Overflowed).outcomes, [x], Admitted, b);
    hide EvictedFor, Bytes, Select, Record, RoomAfterEviction, Refused;
    assert x in Join(Leave(q, v, Overflowed), x).active;
  }

  lemma DropLosesArrival(cap: real, aware: bool, q: Queue, x: Bundle, b: Bundle)
    requires Consistent(q, cap) && x !in q.outcomes && !Decided(q.outcomes, b)
    requires !Fits(Bytes(q.active) + x.size, cap) && !(aware && RoomAfterEviction(q, x, cap))
    ensures Decided(TryAdmit(cap, aware, q, x).outcomes, b) <==> LosesNow(cap, aware, q, x, b)
  {
    RoomIsNotRefused(cap, q, x);
    RecordAt(q.outcomes, [x], Overflowed, b);
    hide EvictedFor, Bytes, Select, Record;
    assert x !in q.active;
  }

  // An arrival loses exactly the bundles it has a reason to.
  lemma AdmitLosesIff(cap: real, aware: bool, q: Queue, x: Bundle, b: Bundle)
    requires Consistent(q, cap) && x !in q.outcomes && !Decided(q.outcomes, b)
    ensures Decided(TryAdmit(cap, aware, q, x).outcomes, b) <==> LosesNow(cap, aware, q, x, b)
  {
    if Fits(Bytes(q.active) + x.size, cap) {
      FittingLosesNobody(cap, aware, q, x, b);
      RecordAt(q.outcomes, [x], Admitted, b);
    } else if aware && RoomAfterEviction(q, x, cap) {
      EvictionLosesVictims(cap, q, x, b);
    } else {
      DropLosesArrival(cap, aware, q, x, b);
    }
  }

  lemma {:induction false} AdmitAllLosesIff(cap: real, aware: bool, q: Queue, s: seq<Bundle>, b: Bundle)
    requires Consistent(q, cap) && Distinct(s) && forall x :: x in s ==> x !in q.outcomes
    requires !Decided(q.outcomes, b)
    ensures Decided(AdmitAll(cap, aware, q, s).outcomes, b) <==> LosesDuring(cap, aware, q, s, b)
    decreases |s|
  {
    hide TryAdmit, LosesNow, Consistent;
    if s != [] {
      var m := TryAdmit(cap, aware, q, s[0]);
      AdmitKeeps(cap, aware, q, s[0]);
      AdmitLosesIff(cap, aware, q, s[0], b);
      DistinctCons(s);
      AdmitAllKeeps(cap, aware, m, s[1..]);
      if !Decided(m.outcomes, b) {
        AdmitAllLosesIff(cap, aware, m, s[1..], b);
      }
    }
  }

  // ---------------------------------------------------------------- the whole run

  function Cutoff(ws: Plan, k: nat): Option<real> {
    if k < |ws| then Some(ws[k].end) else None
  }

  // Bundle b is lost while the arrivals before window k, or those after the last one, are offered.
  predicate LosesAt(cfg: Setup, ws: Plan, bundles: Batch, k: nat, b: Bundle)
    requires k <= |ws|
  {
    var st := After(cfg, ws, bundles, k);
    && !Decided(st.queue.outcomes, b)
    && LosesDuring(cfg.cap, cfg.Aware(), st.queue, Sort(ByIngress, Ready(st, Cutoff(ws, k))), b)
  }

  lemma LosesAtIff(cfg: Setup, ws: Plan, bundles: Batch, k: nat, b: Bundle)
    requires k <= |ws| && !Decided(After(cfg, ws, bundles, k).queue.outcomes, b)
    ensures var r := Arrive(cfg, After(cfg, ws, bundles, k), Cutoff(ws, k)).queue.outcomes;
            && (LosesAt(cfg, ws, bundles, k, b) <==> Decided(r, b))
            && (Decided(r, b) ==> r[b].state == QueueOverflow)
  {
    hide After, LosesDuring, AdmitAll, Sort, Ready, Consistent;
    var st := After(cfg, ws, bundles, k);
    EveryStateSane(cfg, ws, bundles, k);
    ReadyFacts(st, Cutoff(ws, k));
    ArriveDecides(cfg, st, Cutoff(ws, k), bundles, b);
    AdmitAllLosesIff(cfg.cap, cfg.Aware(), st.queue, Sort(ByIngress, Ready(st, Cutoff(ws, k))), b);
  }

  lemma LosesAtOnce(cfg: Setup, ws: Plan, bundles: Batch, k: nat, b: Bundle)
    requires k <= |ws| && LosesAt(cfg, ws, bundles, k, b)
    ensures !Decided(After(cfg, ws, bundles, k).queue.outcomes, b)
  {
    hide After, LosesDuring, Ready, Sort;
  }

  lemma DecidedIsRecorded(m: map<Bundle, Outcome>, b: Bundle)
    ensures Decided(m, b) ==> b in m
  {
  }

  lemma LosesAtIsFinal(cfg: Setup, ws: Plan, bundles: Batch, k: nat, b: Bundle)
    requires k <= |ws| && LosesAt(cfg, ws, bundles, k, b)
    ensures Overflows(cfg, ws, bundles, b)
  {
    hide After, LosesDuring, Arrive, Overflows, LosesAt, Decided;
    LosesAtOnce(cfg, ws, bundles, k, b);
    LosesAtIff(cfg, ws, bundles, k, b);
    DecidedIsRecorded(Arrive(cfg, After(cfg, ws, bundles, k), Cutoff(ws, k)).queue.outcomes, b);
    if k < |ws| {
      ArriveOverflowIsFinal(cfg, ws, bundles, k, b);
    } else {
      Buffering.EndOverflowIsFinal(cfg, ws, bundles, b);
    }
  }

  // In a visit, only admission makes a bundle overflow.
  lemma VisitOverflows(cfg: Setup, ws: Plan, k: nat, st: State, bundles: Batch, b: Bundle)
    requires k < |ws| && Sane(st, bundles, cfg.cap) && !Decided(st.queue.outcomes, b)
    requires var m := Visit(cfg, ws, k, st).queue.outcomes; b in m && m[b].state == QueueOverflow
    ensures Decided(Arrive(cfg, st, Some(ws[k].end)).queue.outcomes, b)
  {
    hide Arrive, ChosenAt, Expire, Leave, Sane;
    var w := ws[k];
    var a, q := Arrive(cfg, st, Some(w.end)).queue, Opened(cfg, w, st);
    ArriveDecides(cfg, st, Some(w.end), bundles, b);
    ExpireDecides(a, w.start, cfg.cap, b);
    ExpireKeeps(a, w.start, cfg.cap);
    SaneCarry(st, bundles, cfg.cap);
    SentWereEligible(cfg, ws, k, st);
    LeaveDecides(q, ChosenAt(cfg, ws, k, st).sent, Sent(w), cfg.cap, b);
  }

  lemma {:induction false} OverflowedByThen(cfg: Setup, ws: Plan, bundles: Batch, n: nat, b: Bundle) returns (k: nat)
    requires n <= |ws|
    requires var m := After(cfg, ws, bundles, n).queue.outcomes; b in m && m[b].state == QueueOverflow
    ensures k < n && LosesAt(cfg, ws, bundles, k, b)
    decreases n
  {
    hide After, Visit, Sane, LosesAt, Arrive;
    if n == 0 {
      NothingOffered(cfg, ws, bundles, b);
    } else if Decided(After(cfg, ws, bundles, n - 1).queue.outcomes, b) {
      FateKeptOnce(cfg, ws, bundles, n - 1, b);
      k := OverflowedByThen(cfg, ws, bundles, n - 1, b);
    } else {
      k := n - 1;
      EveryStateSane(cfg, ws, bundles, k);
      AfterVisit(cfg, ws, bundles, k);
      VisitOverflows(cfg, ws, k, After(cfg, ws, bundles, k), bundles, b);
      LosesAtIff(cfg, ws, bundles, k, b);
    }
  }

  lemma EndOverflows(cfg: Setup, ws: Plan, bundles: Batch, b: Bundle)
    requires Overflows(cfg, ws, bundles, b) && !Decided(After(cfg, ws, bundles, |ws|).queue.outcomes, b)
    ensures LosesAt(cfg, ws, bundles, |ws|, b)
  {
    hide After, Arrive, Expire, LosesAt, Abandon, Sane, Consistent;
    var st := After(cfg, ws, bundles, |ws|);
    ClosedSane(cfg, ws, bundles);
    ArriveDecides(cfg, st, None, bundles, b);
    if ws != [] { ExpireDecides(Arrive(cfg, st, None).queue, ws[|ws| - 1].end, cfg.cap, b); }
    ClosedActive(cfg, ws, bundles, b);
    AbandonDecides(Closed(cfg, ws, st), cfg.cap, b);
    LosesAtIff(cfg, ws, bundles, |ws|, b);
  }

  // A bundle overflows exactly when, at some offer, it is the arrival and does not fit beside what it
  // cannot displace, or it is queued and gives way to an arrival of strictly higher priority.
  lemma OverflowIff(cfg: Setup, ws: Plan, bundles: Batch, b: Bundle)
    ensures Overflows(cfg, ws, bundles, b) <==> exists k :: 0 <= k <= |ws| && LosesAt(cfg, ws, bundles, k, b)
  {
    if k :| 0 <= k <= |ws| && LosesAt(cfg, ws, bundles, k, b) {
      LosesAtIsFinal(cfg, ws, bundles, k, b);
    }
    if Overflows(cfg, ws, bundles, b) {
      OverflowHasCause(cfg, ws, bundles, b);
    }
  }

  lemma OverflowHasCause(cfg: Setup, ws: Plan, bundles: Batch, b: Bundle)
    requires Overflows(cfg, ws, bundles, b)
    ensures exists k :: 0 <= k <= |ws| && LosesAt(cfg, ws, bundles, k, b)
  {
    hide After, LosesAt, Run;
    if Decided(After(cfg, ws, bundles, |ws|).queue.outcomes, b) {
      FateIsFinal(cfg, ws, bundles, |ws|, b);
      var k := OverflowedByThen(cfg, ws, bundles, |ws|, b);
    } else {
      EndOverflows(cfg, ws, bundles, b);
    }
  }
}
