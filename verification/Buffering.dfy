/** Runs that lose nothing to the buffer: a larger buffer, or another admission mode, changes nothing. */
module Buffering {
  import opened Telemetry
  import opened Selection
  import opened Admission
  import opened Policies
  import opened Replay
  import opened Fates
  import opened Reach
  import opened Wrappers

  ghost predicate Clean(m: map<Bundle, Outcome>) {
    forall b :: b in m ==> m[b].state != QueueOverflow
  }

  // ---------------------------------------------------------------- admission without loss

  // An admission that loses nobody evicted nobody: the arrival simply fitted.
  lemma CleanAdmitFits(cap: real, aware: bool, q: Queue, b: Bundle)
    requires Consistent(q, cap) && b !in q.outcomes && Clean(TryAdmit(cap, aware, q, b).outcomes)
    ensures Fits(Bytes(q.active) + b.size, cap)
  {
    hide Victims, Bytes, Select, Sort;
    if !Fits(Bytes(q.active) + b.size, cap) {
      if aware && RoomAfterEviction(q, b, cap) {
        EvictionLosesSome(cap, q, b);
      } else {
        RecordAt(q.outcomes, [b], Overflowed, b);
      }
    }
  }

  lemma EvictionLosesSome(cap: real, q: Queue, b: Bundle)
    requires Consistent(q, cap) && b !in q.outcomes
    requires !Fits(Bytes(q.active) + b.size, cap) && RoomAfterEviction(q, b, cap)
    ensures !Clean(Join(Leave(q, EvictedFor(q, b, cap), Overflowed), b).outcomes)
  {
    var v := EvictedFor(q, b, cap);
    EvictionIsMinimal(q, b, cap);
    VictimsAreLowest(q, b, cap);
    hide EvictedFor, Bytes, Select, Below;
    assert v[0] in v;
    RecordAt(q.outcomes, v, Overflowed, v[0]);
    RecordAt(Leave(q, v, Overflowed).outcomes, [b], Admitted, v[0]);
  }

  lemma CleanBefore(q: Queue, r: Queue, s: seq<Bundle>)
    requires Grows(q, r, s) && Clean(r.outcomes)
    ensures Clean(q.outcomes)
  {
  }

  lemma {:induction false} CleanAdmitAllSame(
      cap: real, cap': real, aware: bool, aware': bool, q: Queue, s: seq<Bundle>)
    requires cap <= cap' && Consistent(q, cap) && Distinct(s) && forall b :: b in s ==> b !in q.outcomes
    requires Clean(AdmitAll(cap, aware, q, s).outcomes)
    ensures AdmitAll(cap', aware', q, s) == AdmitAll(cap, aware, q, s)
    ensures AdmitAll(cap, aware, q, s).active == q.active + s
    decreases |s|
  {
    hide Consistent, Clean, Record, Bytes, EvictedFor, Below, Leave, Grows;
    if s == [] {
      assert q.active + [] == q.active;
    } else {
      var m := TryAdmit(cap, aware, q, s[0]);
      AdmitKeeps(cap, aware, q, s[0]);
      DistinctCons(s);
      GrownFresh(q, m, s);
      AdmitAllKeeps(cap, aware, m, s[1..]);
      CleanBefore(m, AdmitAll(cap, aware, m, s[1..]), s[1..]);
      CleanAdmitFits(cap, aware, q, s[0]);
      assert m == Join(q, s[0]) && TryAdmit(cap', aware', q, s[0]) == m;
      CleanAdmitAllSame(cap, cap', aware, aware', m, s[1..]);
      assert q.active + [s[0]] + s[1..] == q.active + s;
    }
  }

  lemma GrownFresh(q: Queue, m: Queue, s: seq<Bundle>)
    requires s != [] && Grows(q, m, [s[0]])
    requires s[0] !in s[1..] && forall b :: b in s ==> b !in q.outcomes
    ensures forall b :: b in s[1..] ==> b !in m.outcomes
  {
  }

  // ---------------------------------------------------------------- runs without loss

  // The same policy behind a buffer at least as large, whatever its admission mode.
  predicate Roomier(cfg: Setup, cfg': Setup) {
    cfg.cap <= cfg'.cap && cfg'.policy == cfg.policy && cfg'.fifoSkipOver == cfg.fifoSkipOver
  }

  lemma ArriveSame(cfg: Setup, cfg': Setup, st: State, cutoff: Option<real>, bundles: Batch)
    requires Roomier(cfg, cfg') && Sane(st, bundles, cfg.cap)
    requires Clean(Arrive(cfg, st, cutoff).queue.outcomes)
    ensures Arrive(cfg', st, cutoff) == Arrive(cfg, st, cutoff)
  {
    hide Clean, Consistent, AdmitAll;
    ReadyFacts(st, cutoff);
    CleanAdmitAllSame(cfg.cap, cfg'.cap, cfg.Aware(), cfg'.Aware(), st.queue, Sort(ByIngress, Ready(st, cutoff)));
  }

  lemma NoLossCleanArrival(cfg: Setup, ws: Plan, bundles: Batch, k: nat)
    requires k < |ws| && NoLoss(cfg, ws, bundles)
    ensures Clean(Arrive(cfg, After(cfg, ws, bundles, k), Some(ws[k].end)).queue.outcomes)
  {
    hide After, Arrive, Overflows;
    var st := After(cfg, ws, bundles, k);
    var m := Arrive(cfg, st, Some(ws[k].end)).queue.outcomes;
    EveryStateSane(cfg, ws, bundles, k);
    ArriveKeeps(cfg, st, Some(ws[k].end), bundles);
    forall b | b in m ensures m[b].state != QueueOverflow {
      if m[b].state == QueueOverflow {
        ArriveOverflowIsFinal(cfg, ws, bundles, k, b);
      }
    }
  }

  lemma NoLossCleanEnd(cfg: Setup, ws: Plan, bundles: Batch)
    requires NoLoss(cfg, ws, bundles)
    ensures Clean(Arrive(cfg, After(cfg, ws, bundles, |ws|), None).queue.outcomes)
  {
    hide After, Arrive, Expire, Abandon, Run;
    var st := After(cfg, ws, bundles, |ws|);
    var m := Arrive(cfg, st, None).queue.outcomes;
    ClosedSane(cfg, ws, bundles);
    forall b | b in m ensures m[b].state != QueueOverflow {
      if m[b].state == QueueOverflow {
        EndOverflowIsFinal(cfg, ws, bundles, b);
      }
    }
  }

  lemma EndOverflowIsFinal(cfg: Setup, ws: Plan, bundles: Batch, b: Bundle)
    requires var m := Arrive(cfg, After(cfg, ws, bundles, |ws|), None).queue.outcomes;
             b in m && m[b].state == QueueOverflow
    ensures Overflows(cfg, ws, bundles, b)
  {
    hide After, Arrive, Expire, Abandon;
    var st := After(cfg, ws, bundles, |ws|);
    ClosedSane(cfg, ws, bundles);
    if ws != [] { ExpireDecides(Arrive(cfg, st, None).queue, ws[|ws| - 1].end, cfg.cap, b); }
    AbandonDecides(Closed(cfg, ws, st), cfg.cap, b);
  }

  lemma {:induction false} AfterSame(cfg: Setup, cfg': Setup, ws: Plan, bundles: Batch, k: nat)
    requires k <= |ws| && Roomier(cfg, cfg') && NoLoss(cfg, ws, bundles)
    ensures After(cfg', ws, bundles, k) == After(cfg, ws, bundles, k)
  {
    hide *;
    if k == 0 {
      StartsSame(cfg, cfg', ws, bundles);
    } else {
      AfterSame(cfg, cfg', ws, bundles, k - 1);
      StepSame(cfg, cfg', ws, bundles, k - 1);
    }
  }

  lemma StartsSame(cfg: Setup, cfg': Setup, ws: Plan, bundles: Batch)
    ensures After(cfg', ws, bundles, 0) == After(cfg, ws, bundles, 0)
  {
  }

  lemma StepSame(cfg: Setup, cfg': Setup, ws: Plan, bundles: Batch, k: nat)
    requires k < |ws| && Roomier(cfg, cfg') && NoLoss(cfg, ws, bundles)
    requires After(cfg', ws, bundles, k) == After(cfg, ws, bundles, k)
    ensures After(cfg', ws, bundles, k + 1) == After(cfg, ws, bundles, k + 1)
  {
    hide Visit, NoLoss, Roomier, Sane, Arrive;
    EveryStateSane(cfg, ws, bundles, k);
    NoLossCleanArrival(cfg, ws, bundles, k);
    VisitSame(cfg, cfg', ws, k, After(cfg, ws, bundles, k), bundles);
    AfterVisit(cfg, ws, bundles, k);
    AfterVisit(cfg', ws, bundles, k);
  }

  lemma VisitSame(cfg: Setup, cfg': Setup, ws: Plan, k: nat, st: State, bundles: Batch)
    requires k < |ws| && Roomier(cfg, cfg') && Sane(st, bundles, cfg.cap)
    requires Clean(Arrive(cfg, st, Some(ws[k].end)).queue.outcomes)
    ensures Visit(cfg', ws, k, st) == Visit(cfg, ws, k, st)
  {
    hide Arrive, Expire, Leave, Clean, Sane;
    ArriveSame(cfg, cfg', st, Some(ws[k].end), bundles);
    ChooseSame(cfg, cfg', st.carry, Eligible(Opened(cfg, ws[k], st), ws[k]), ws[k].Budget(), NextStart(ws, k));
  }

  lemma ChooseSame(cfg: Setup, cfg': Setup, carry: Carry, eligible: seq<Bundle>, budget: real, next: Option<real>)
    requires Roomier(cfg, cfg')
    ensures Choose(cfg', carry, eligible, budget, next) == Choose(cfg, carry, eligible, budget, next)
  {
  }

  // If nothing overflows, every larger buffer and every admission mode give the same run.
  lemma LargerBufferSameRun(cfg: Setup, cfg': Setup, ws: Plan, bundles: Batch)
    requires Roomier(cfg, cfg') && NoLoss(cfg, ws, bundles)
    ensures Run(cfg', ws, bundles) == Run(cfg, ws, bundles)
  {
    hide After, Arrive, NoLoss, Roomier, Abandon, Sane;
    AfterSame(cfg, cfg', ws, bundles, |ws|);
    EveryStateSane(cfg, ws, bundles, |ws|);
    NoLossCleanEnd(cfg, ws, bundles);
    ArriveSame(cfg, cfg', After(cfg, ws, bundles, |ws|), None, bundles);
  }

  // ---------------------------------------------------------------- a buffer that holds everything

  lemma {:induction false} AdmitAllFits(cap: real, aware: bool, q: Queue, s: seq<Bundle>)
    requires Consistent(q, cap) && Distinct(s) && forall b :: b in s ==> b !in q.outcomes
    requires Clean(q.outcomes) && Fits(Bytes(q.active) + Bytes(s), cap)
    ensures Clean(AdmitAll(cap, aware, q, s).outcomes)
    decreases |s|
  {
    hide Consistent, Clean, Record;
    if s != [] {
      var m := TryAdmit(cap, aware, q, s[0]);
      AdmitKeeps(cap, aware, q, s[0]);
      DistinctCons(s);
      GrownFresh(q, m, s);
      assert m == Join(q, s[0]);
      JoinClean(q, s[0]);
      BytesAppend(q.active, [s[0]]);
      assert Bytes([s[0]]) == s[0].size;
      AdmitAllFits(cap, aware, m, s[1..]);
    }
  }

  lemma JoinClean(q: Queue, b: Bundle)
    requires Clean(q.outcomes) && b !in q.outcomes
    ensures Clean(Join(q, b).outcomes)
  {
    forall x | x in Join(q, b).outcomes ensures Join(q, b).outcomes[x].state != QueueOverflow {
      RecordAt(q.outcomes, [b], Admitted, x);
    }
  }

  lemma PartFits(part: seq<Bundle>, bundles: Batch)
    requires Distinct(part) && forall b :: b in part ==> b in bundles
    ensures Bytes(part) <= Bytes(bundles)
  {
    BytesWithout(bundles, part);
  }

  lemma ArriveClean(cfg: Setup, st: State, cutoff: Option<real>, bundles: Batch)
    requires Sane(st, bundles, cfg.cap) && Clean(st.queue.outcomes) && Fits(Bytes(bundles), cfg.cap)
    ensures Clean(Arrive(cfg, st, cutoff).queue.outcomes)
  {
    hide Clean, AdmitAll, Bytes;
    var s := Sort(ByIngress, Ready(st, cutoff));
    ReadyFacts(st, cutoff);
    DistinctAppend(st.queue.active, s);
    PartFits(st.queue.active + s, bundles);
    BytesAppend(st.queue.active, s);
    AdmitAllFits(cfg.cap, cfg.Aware(), st.queue, s);
  }

  lemma LeaveClean(q: Queue, gone: seq<Bundle>, e: Event, cap: real)
    requires Consistent(q, cap) && Clean(q.outcomes) && (forall x :: x in gone ==> x in q.active)
    requires e.Expired? || e.Sent? || e.Abandoned?
    ensures Clean(Leave(q, gone, e).outcomes)
  {
    forall b | b in Leave(q, gone, e).outcomes ensures Leave(q, gone, e).outcomes[b].state != QueueOverflow {
      LeaveDecides(q, gone, e, cap, b);
    }
  }

  lemma ExpireClean(q: Queue, cutoff: real, cap: real)
    requires Consistent(q, cap) && Clean(q.outcomes)
    ensures Clean(Expire(q, cutoff).outcomes)
  {
    hide Clean, Consistent, Expire, Leave;
    ExpireIsLeave(q, cutoff);
    SelectMember(StaleAt(cutoff), q.active);
    LeaveClean(q, Select(StaleAt(cutoff), q.active), Expired, cap);
  }

  lemma VisitClean(cfg: Setup, ws: Plan, k: nat, st: State, bundles: Batch)
    requires k < |ws| && Sane(st, bundles, cfg.cap) && Clean(st.queue.outcomes)
    requires Fits(Bytes(bundles), cfg.cap)
    ensures Clean(Visit(cfg, ws, k, st).queue.outcomes)
  {
    hide Clean, Consistent, Expire, Leave, Arrive, ChosenAt;
    var a := Arrive(cfg, st, Some(ws[k].end));
    ArriveKeeps(cfg, st, Some(ws[k].end), bundles);
    ArriveClean(cfg, st, Some(ws[k].end), bundles);
    ExpireKeeps(a.queue, ws[k].start, cfg.cap);
    ExpireClean(a.queue, ws[k].start, cfg.cap);
    SentWereEligible(cfg, ws, k, st);
    LeaveClean(Opened(cfg, ws[k], st), ChosenAt(cfg, ws, k, st).sent, Sent(ws[k]), cfg.cap);
  }

  lemma {:induction false} AfterClean(cfg: Setup, ws: Plan, bundles: Batch, k: nat)
    requires k <= |ws| && Fits(Bytes(bundles), cfg.cap)
    ensures Clean(After(cfg, ws, bundles, k).queue.outcomes)
  {
    hide *;
    if k == 0 {
      StartClean(cfg, ws, bundles);
    } else {
      AfterClean(cfg, ws, bundles, k - 1);
      EveryStateSane(cfg, ws, bundles, k - 1);
      VisitClean(cfg, ws, k - 1, After(cfg, ws, bundles, k - 1), bundles);
      AfterVisit(cfg, ws, bundles, k - 1);
    }
  }

  lemma StartClean(cfg: Setup, ws: Plan, bundles: Batch)
    ensures Clean(After(cfg, ws, bundles, 0).queue.outcomes)
  {
  }

  // A cap of at least the total input size never loses a bundle to overflow, under any policy.
  lemma BigBufferLosesNothing(cfg: Setup, ws: Plan, bundles: Batch)
    requires Fits(Bytes(bundles), cfg.cap)
    ensures NoLoss(cfg, ws, bundles)
  {
    hide After, Arrive, Expire, Leave, Consistent, Bytes;
    var st := After(cfg, ws, bundles, |ws|);
    var q := Closed(cfg, ws, st);
    AfterClean(cfg, ws, bundles, |ws|);
    ClosedSane(cfg, ws, bundles);
    ArriveClean(cfg, st, None, bundles);
    if ws != [] { ExpireClean(Arrive(cfg, st, None).queue, ws[|ws| - 1].end, cfg.cap); }
    forall b | b in bundles ensures !Overflows(cfg, ws, bundles, b) {
      ClosedActive(cfg, ws, bundles, b);
      AbandonDecides(q, cfg.cap, b);
    }
  }
}
