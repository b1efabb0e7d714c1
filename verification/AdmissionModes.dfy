/** Which admission mode each configuration runs, said on its fields: class-blind for first-in first-out by
    default and wherever it is switched off, priority-aware everywhere else. */
module AdmissionModes {
  import opened Traffic
  import opened Telemetry
  import opened Selection
  import opened Admission
  import opened Policies
  import opened Replay
  import opened Fates
  import opened Reach
  import opened Overflow
  import opened Wrappers
  import Contacts

  // ---------------------------------------------------------------- one offer

  // The buffer after a run has offered it one bundle.
  function Offered(cfg: Setup, q: Queue, b: Bundle): Queue {
    Arrive(cfg, State([b], q, NO_CARRY), None).queue
  }

  function OfferedEach(cfg: Setup, q: Queue, s: seq<Bundle>): Queue
    decreases |s|
  {
    if s == [] then q else OfferedEach(cfg, Offered(cfg, q, s[0]), s[1..])
  }

  lemma OneOffer(cfg: Setup, q: Queue, b: Bundle)
    ensures Offered(cfg, q, b) == TryAdmit(cfg.cap, cfg.Aware(), q, b)
  {
    assert Sort(ByIngress, [b]) == [b];
    hide TryAdmit, Sort, Config.Aware;
    AdmitAllOne(cfg.cap, cfg.Aware(), q, b);
  }

  lemma AdmitAllOne(cap: real, aware: bool, q: Queue, b: Bundle)
    ensures AdmitAll(cap, aware, q, [b]) == TryAdmit(cap, aware, q, b)
  {
    hide TryAdmit;
    var r := TryAdmit(cap, aware, q, b);
    assert [b][1..] == [];
    assert AdmitAll(cap, aware, r, []) == r;
  }

  lemma {:induction false} AdmitsOneByOne(cfg: Setup, q: Queue, s: seq<Bundle>)
    ensures AdmitAll(cfg.cap, cfg.Aware(), q, s) == OfferedEach(cfg, q, s)
    decreases |s|
  {
    hide TryAdmit, Offered, Config.Aware;
    if s != [] {
      OneOffer(cfg, q, s[0]);
      AdmitsOneByOne(cfg, Offered(cfg, q, s[0]), s[1..]);
    }
  }

  // What arrives between two windows is offered one bundle at a time, in the order of arrival.
  lemma ArrivesOneByOne(cfg: Setup, st: State, cutoff: Option<real>)
    ensures Arrive(cfg, st, cutoff).queue == OfferedEach(cfg, st.queue, Sort(ByIngress, Ready(st, cutoff)))
  {
    hide Offered, Config.Aware, Sort, Ready;
    AdmitsOneByOne(cfg, st.queue, Sort(ByIngress, Ready(st, cutoff)));
  }

  // First-in first-out unless told otherwise, and every policy told so, is class-blind: the arrival enters
  // exactly when it fits beside everything queued, and whatever is queued stays.
  lemma ClassBlindOffer(cfg: Setup, q: Queue, b: Bundle)
    requires (cfg.priorityAware == None && cfg.policy == Fifo) || cfg.priorityAware == Some(false)
    requires b !in q.outcomes
    ensures var r := Offered(cfg, q, b);
            && r.active == (if (Bytes(q.active) + b.size) as real <= cfg.cap then q.active + [b] else q.active)
            && forall x :: x in q.outcomes ==> x in r.outcomes && r.outcomes[x] == q.outcomes[x]
  {
    OneOffer(cfg, q, b);
  }

  // The six other policies unless told otherwise, and every policy told so, are priority-aware: the arrival
  // enters exactly when it fits beside what is queued of its own rank and above, all of which stays.
  lemma PriorityAwareOffer(cfg: Setup, q: Queue, b: Bundle)
    requires (cfg.priorityAware == None && cfg.policy != Fifo) || cfg.priorityAware == Some(true)
    requires b !in q.active
    ensures var r, own := Offered(cfg, q, b), Select(RankAtMost(b.Rank()), q.active);
            && (b in r.active <==> (Bytes(own) + b.size) as real <= cfg.cap)
            && Select(RankAtMost(b.Rank()), r.active) == if b in r.active then own + [b] else own
  {
    OneOffer(cfg, q, b);
    AdmittedIffOwnRankFits(cfg.cap, q, b);
    OwnStays(cfg.cap, q, b);
  }

  lemma OwnStays(cap: real, q: Queue, b: Bundle)
    requires b !in q.active
    ensures var r, own := TryAdmit(cap, true, q, b), Select(RankAtMost(b.Rank()), q.active);
            Select(RankAtMost(b.Rank()), r.active) == if b in r.active then own + [b] else own
  {
    var t, gone := RankAtMost(b.Rank()), EvictedFor(q, b, cap);
    var kept := Select(NotAmong(gone), q.active);
    hide EvictedFor, Select, Below;
    SelectAppend(t, q.active, [b]);
    SelectAppend(t, kept, [b]);
    SelectAll(t, [b]);
    VictimsAreLowest(q, b, cap);
    SelectSwap(t, NotAmong(gone), q.active);
    SelectMember(t, q.active);
    SelectAll(NotAmong(gone), Select(t, q.active));
  }

  // ---------------------------------------------------------------- a whole run

  lemma NeverGivesWay(cfg: Setup, q: Queue, x: Bundle, b: Bundle)
    requires (cfg.priorityAware == None && cfg.policy == Fifo) || cfg.priorityAware == Some(false)
             || b.cls == Emergency
    ensures !GivesWay(cfg.cap, cfg.Aware(), q, x, b)
  {
  }

  lemma {:induction false} QueuedIsNotOffered(cfg: Setup, q: Queue, s: seq<Bundle>, b: Bundle)
    requires (cfg.priorityAware == None && cfg.policy == Fifo) || cfg.priorityAware == Some(false)
             || b.cls == Emergency
    requires b !in s
    ensures !LosesDuring(cfg.cap, cfg.Aware(), q, s, b)
    decreases |s|
  {
    hide TryAdmit, GivesWay, Config.Aware, Refused;
    if s != [] {
      assert s[0] in s;
      NeverGivesWay(cfg, q, s[0], b);
      QueuedIsNotOffered(cfg, TryAdmit(cfg.cap, cfg.Aware(), q, s[0]), s[1..], b);
    }
  }

  // In a class-blind run what is in the buffer is never lost to its cap, and an emergency bundle never is
  // in any run.
  lemma BufferedIsSafe(cfg: Setup, ws: Plan, bundles: Batch, k: nat, b: Bundle)
    requires (cfg.priorityAware == None && cfg.policy == Fifo) || cfg.priorityAware == Some(false)
             || b.cls == Emergency
    requires k <= |ws| && b in After(cfg, ws, bundles, k).queue.active
    ensures !Overflows(cfg, ws, bundles, b)
  {
    hide After, Overflows, LosesAt, Config.Aware, Ready, Sort, LosesDuring, Consistent;
    if Overflows(cfg, ws, bundles, b) {
      OverflowHasCause(cfg, ws, bundles, b);
      var j :| 0 <= j <= |ws| && LosesAt(cfg, ws, bundles, j, b);
      if j < k {
        LostIsGone(cfg, ws, bundles, j, k, b);
      } else {
        BufferedIsOffered(cfg, ws, bundles, k, j, b);
        NotLostAgain(cfg, ws, bundles, j, b);
      }
    }
  }

  lemma LostIsGone(cfg: Setup, ws: Plan, bundles: Batch, j: nat, k: nat, b: Bundle)
    requires j < k <= |ws| && LosesAt(cfg, ws, bundles, j, b)
    ensures b !in After(cfg, ws, bundles, k).queue.active
  {
    hide After, LosesAt, Arrive, Visit;
    var st := After(cfg, ws, bundles, j);
    LosesAtOnce(cfg, ws, bundles, j, b);
    LosesAtIff(cfg, ws, bundles, j, b);
    EveryStateSane(cfg, ws, bundles, j);
    ArriveDecides(cfg, st, Some(ws[j].end), bundles, b);
    VisitLeavesDecided(cfg, ws, j, st, b);
    AfterVisit(cfg, ws, bundles, j);
    FateKept(cfg, ws, bundles, j + 1, k, b);
    EveryStateSane(cfg, ws, bundles, k);
  }

  // After k windows exactly what arrived by the end of the last one has been offered.
  lemma {:induction false} PendingIff(cfg: Setup, ws: Plan, bundles: Batch, k: nat, b: Bundle)
    requires k <= |ws|
    ensures b in After(cfg, ws, bundles, k).pending
       <==> b in bundles && (0 < k ==> ws[k - 1].end < b.ingress)
  {
    hide Visit;
    if 0 < k {
      var st := After(cfg, ws, bundles, k - 1);
      PendingIff(cfg, ws, bundles, k - 1, b);
      AfterVisit(cfg, ws, bundles, k - 1);
      VisitPending(cfg, ws, k - 1, st, b);
      if 1 < k { Contacts.PlanIsOrdered(ws); }
    }
  }

  lemma VisitPending(cfg: Setup, ws: Plan, k: nat, st: State, b: Bundle)
    requires k < |ws|
    ensures b in Visit(cfg, ws, k, st).pending <==> b in st.pending && ws[k].end < b.ingress
  {
    SelectMember(IngressAfter(ws[k].end), st.pending);
  }

  lemma OfferedIff(cfg: Setup, ws: Plan, bundles: Batch, k: nat, b: Bundle)
    requires k < |ws|
    ensures b in After(cfg, ws, bundles, k + 1).queue.outcomes <==> b in bundles && b.ingress <= ws[k].end
  {
    hide After;
    PendingIff(cfg, ws, bundles, k + 1, b);
    EveryStateSane(cfg, ws, bundles, k + 1);
  }

  lemma BufferedIsOffered(cfg: Setup, ws: Plan, bundles: Batch, k: nat, j: nat, b: Bundle)
    requires k <= j <= |ws| && b in After(cfg, ws, bundles, k).queue.active
    ensures b in After(cfg, ws, bundles, j).queue.outcomes
  {
    hide After;
    EveryStateSane(cfg, ws, bundles, k);
    EveryStateSane(cfg, ws, bundles, j);
    PendingIff(cfg, ws, bundles, k, b);
    PendingIff(cfg, ws, bundles, j, b);
    Contacts.PlanIsOrdered(ws);
  }

  lemma NotLostAgain(cfg: Setup, ws: Plan, bundles: Batch, j: nat, b: Bundle)
    requires (cfg.priorityAware == None && cfg.policy == Fifo) || cfg.priorityAware == Some(false)
             || b.cls == Emergency
    requires j <= |ws| && b in After(cfg, ws, bundles, j).queue.outcomes
    ensures !LosesAt(cfg, ws, bundles, j, b)
  {
    hide After, LosesDuring, Config.Aware, Consistent;
    var st := After(cfg, ws, bundles, j);
    EveryStateSane(cfg, ws, bundles, j);
    ReadyFacts(st, Cutoff(ws, j));
    QueuedIsNotOffered(cfg, st.queue, Sort(ByIngress, Ready(st, Cutoff(ws, j))), b);
  }
}
