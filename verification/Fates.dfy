/** Every run is total: each bundle gets one fate, no fate is ever revised, and each fate is earned. */
module Fates {
  import opened Telemetry
  import opened Selection
  import opened Admission
  import opened Replay
  import opened Wrappers
  import Contacts

  // What bundle b's record says when window w delivered it.
  function DeliveredBy(b: Bundle, w: Contacts.Window): Outcome {
    Outcome(Delivered, Some(b.ingress), Some(w.start), Some(w.start), Some(w.contactId))
  }

  predicate Allowed(b: Bundle, w: Contacts.Window) {
    b.ingress < w.end && w.start < b.expiration
  }

  ghost predicate ServedWithin(b: Bundle, o: Outcome, ws: Plan, k: nat)
    requires k <= |ws|
  {
    exists j :: 0 <= j < k && Allowed(b, ws[j]) && o == DeliveredBy(b, ws[j])
  }

  // A bundle lost to the buffer's cap was refused on arrival or evicted while waiting.
  predicate Lost(b: Bundle, o: Outcome) {
    o == UNTOUCHED.(state := QueueOverflow) || o == Waiting(b).(state := QueueOverflow)
  }

  // A decided fate after k windows is one of three, and its cause is on record.
  ghost predicate Earned(b: Bundle, o: Outcome, ws: Plan, k: nat)
    requires k <= |ws|
  {
    match o.state
    case Pending => o == Waiting(b)
    case Delivered => ServedWithin(b, o, ws, k)
    case TtlExpired => 0 < k && b.expiration <= ws[k - 1].start && o == Waiting(b).(state := TtlExpired)
    case QueueOverflow => Lost(b, o)
    case NeverScheduled => false
  }

  // ---------------------------------------------------------------- who gets a fate in one step

  predicate Decided(m: map<Bundle, Outcome>, b: Bundle) {
    b in m && m[b].state != Pending
  }

  // Admission decides nothing but overflow.
  ghost predicate OnlyOverflows(q: Queue, r: Queue) {
    forall b :: Decided(r.outcomes, b) && !Decided(q.outcomes, b) ==> Lost(b, r.outcomes[b])
  }

  lemma AdmitOnlyOverflows(cap: real, aware: bool, q: Queue, b: Bundle)
    requires Consistent(q, cap) && b !in q.outcomes
    ensures OnlyOverflows(q, TryAdmit(cap, aware, q, b))
  {
    var r := TryAdmit(cap, aware, q, b);
    forall x | Decided(r.outcomes, x) && !Decided(q.outcomes, x)
      ensures Lost(x, r.outcomes[x])
    {
      if Fits(Bytes(q.active) + b.size, cap) {
        RecordAt(q.outcomes, [b], Admitted, x);
      } else if aware && RoomAfterEviction(q, b, cap) {
        var v := EvictedFor(q, b, cap);
        RecordAt(q.outcomes, v, Overflowed, x);
        RecordAt(Leave(q, v, Overflowed).outcomes, [b], Admitted, x);
      } else {
        RecordAt(q.outcomes, [b], Overflowed, x);
      }
    }
  }

  lemma {:induction false} AdmitAllOnlyOverflows(cap: real, aware: bool, q: Queue, s: seq<Bundle>)
    requires Consistent(q, cap) && Distinct(s) && forall b :: b in s ==> b !in q.outcomes
    ensures OnlyOverflows(q, AdmitAll(cap, aware, q, s))
    decreases |s|
  {
    if s != [] {
      var m := TryAdmit(cap, aware, q, s[0]);
      AdmitKeeps(cap, aware, q, s[0]);
      AdmitOnlyOverflows(cap, aware, q, s[0]);
      DistinctCons(s);
      AdmitAllKeeps(cap, aware, m, s[1..]);
      AdmitAllOnlyOverflows(cap, aware, m, s[1..]);
    }
  }

  lemma ArriveOnlyOverflows(cfg: Setup, st: State, cutoff: Option<real>, bundles: Batch)
    requires Sane(st, bundles, cfg.cap)
    ensures OnlyOverflows(st.queue, Arrive(cfg, st, cutoff).queue)
  {
    ReadyFacts(st, cutoff);
    AdmitAllOnlyOverflows(cfg.cap, cfg.Aware(), st.queue, Sort(ByIngress, Ready(st, cutoff)));
  }

  // Leaving gives exactly the departing bundles their fate.
  lemma LeaveDecides(q: Queue, gone: seq<Bundle>, e: Event, cap: real, b: Bundle)
    requires Consistent(q, cap) && forall x :: x in gone ==> x in q.active
    ensures b in Leave(q, gone, e).outcomes <==> b in q.outcomes
    ensures b in gone ==> Leave(q, gone, e).outcomes[b] == Apply(e, b, Waiting(b))
    ensures b in q.outcomes && b !in gone ==> Leave(q, gone, e).outcomes[b] == q.outcomes[b]
  {
    RecordAt(q.outcomes, gone, e, b);
  }

  lemma ExpireDecides(q: Queue, cutoff: real, cap: real, b: Bundle)
    requires Consistent(q, cap)
    ensures b in Expire(q, cutoff).outcomes <==> b in q.outcomes
    ensures b in q.active && b.expiration <= cutoff ==>
              Expire(q, cutoff).outcomes[b] == Waiting(b).(state := TtlExpired)
    ensures b in q.outcomes && !(b in q.active && b.expiration <= cutoff) ==>
              Expire(q, cutoff).outcomes[b] == q.outcomes[b]
  {
    ExpireIsLeave(q, cutoff);
    SelectMember(StaleAt(cutoff), q.active);
    LeaveDecides(q, Select(StaleAt(cutoff), q.active), Expired, cap, b);
  }

  // ---------------------------------------------------------------- fates are earned

  // The outcomes a visit to window w can leave a bundle that had no fate before.
  predicate EarnedNow(b: Bundle, o: Outcome, w: Contacts.Window) {
    || o == Waiting(b)
    || Lost(b, o)
    || (b.expiration <= w.start && o == Waiting(b).(state := TtlExpired))
    || (Allowed(b, w) && o == DeliveredBy(b, w))
  }

  lemma EarnedStep(b: Bundle, o: Outcome, ws: Plan, k: nat)
    requires k < |ws|
    ensures Earned(b, o, ws, k) || EarnedNow(b, o, ws[k]) ==> Earned(b, o, ws, k + 1)
  {
    if 0 < k {
      Contacts.PlanIsOrdered(ws);
    }
  }

  lemma ArriveDecides(cfg: Setup, st: State, cutoff: Option<real>, bundles: Batch, b: Bundle)
    requires Sane(st, bundles, cfg.cap)
    ensures var r := Arrive(cfg, st, cutoff).queue;
            && Consistent(r, cfg.cap)
            && (Decided(st.queue.outcomes, b) ==> Decided(r.outcomes, b) && r.outcomes[b] == st.queue.outcomes[b])
            && (b in r.outcomes && !Decided(st.queue.outcomes, b) ==>
                  r.outcomes[b] == Waiting(b) || Lost(b, r.outcomes[b]))
  {
    ArriveKeeps(cfg, st, cutoff, bundles);
    ArriveOnlyOverflows(cfg, st, cutoff, bundles);
  }

  // One visit, as one bundle sees it: its fate is the old one or one this window can give.
  lemma VisitDecides(cfg: Setup, ws: Plan, k: nat, st: State, bundles: Batch, b: Bundle)
    requires k < |ws| && Sane(st, bundles, cfg.cap)
    requires b in Visit(cfg, ws, k, st).queue.outcomes
    ensures var o := Visit(cfg, ws, k, st).queue.outcomes[b];
            (Decided(st.queue.outcomes, b) && o == st.queue.outcomes[b]) || EarnedNow(b, o, ws[k])
  {
    hide Consistent, ChosenAt, Arrive, Expire, Leave, Decided;
    var w := ws[k];
    var a := Arrive(cfg, st, Some(w.end)).queue;
    var q := Opened(cfg, w, st);
    var sent := ChosenAt(cfg, ws, k, st).sent;
    ArriveDecides(cfg, st, Some(w.end), bundles, b);
    assert Consistent(q, cfg.cap) by { ExpireKeeps(a, w.start, cfg.cap); }
    ExpireDecides(a, w.start, cfg.cap, b);
    assert (forall x :: x in sent ==> x in q.active) && (b in sent ==> Allowed(b, w)) by {
      SentWereEligible(cfg, ws, k, st);
    }
    LeaveDecides(q, sent, Sent(w), cfg.cap, b);
  }

  lemma AfterDecides(cfg: Setup, ws: Plan, bundles: Batch, k: nat, b: Bundle)
    requires k < |ws|
    requires b in After(cfg, ws, bundles, k + 1).queue.outcomes
    ensures var m, o := After(cfg, ws, bundles, k).queue.outcomes, After(cfg, ws, bundles, k + 1).queue.outcomes[b];
            (b in m && o == m[b]) || EarnedNow(b, o, ws[k])
  {
    hide Sane, Visit, EarnedNow;
    EveryStateSane(cfg, ws, bundles, k);
    VisitDecides(cfg, ws, k, After(cfg, ws, bundles, k), bundles, b);
  }

  lemma NothingOffered(cfg: Setup, ws: Plan, bundles: Batch, b: Bundle)
    ensures b !in After(cfg, ws, bundles, 0).queue.outcomes
  {
  }

  lemma {:induction false} FateEarned(cfg: Setup, ws: Plan, bundles: Batch, k: nat, b: Bundle)
    requires k <= |ws| && b in After(cfg, ws, bundles, k).queue.outcomes
    ensures Earned(b, After(cfg, ws, bundles, k).queue.outcomes[b], ws, k)
  {
    hide *;
    if k == 0 {
      NothingOffered(cfg, ws, bundles, b);
    } else {
      AfterDecides(cfg, ws, bundles, k - 1, b);
      if b in After(cfg, ws, bundles, k - 1).queue.outcomes {
        FateEarned(cfg, ws, bundles, k - 1, b);
      }
      EarnedStep(b, After(cfg, ws, bundles, k).queue.outcomes[b], ws, k - 1);
    }
  }

  // ---------------------------------------------------------------- fates are never revised

  lemma VisitKeepsFate(cfg: Setup, ws: Plan, k: nat, st: State, bundles: Batch, b: Bundle)
    requires k < |ws| && Sane(st, bundles, cfg.cap) && Decided(st.queue.outcomes, b)
    ensures Decided(Visit(cfg, ws, k, st).queue.outcomes, b)
    ensures Visit(cfg, ws, k, st).queue.outcomes[b] == st.queue.outcomes[b]
  {
    var a := Arrive(cfg, st, Some(ws[k].end)).queue;
    ArriveKeeps(cfg, st, Some(ws[k].end), bundles);
    ExpireDecides(a, ws[k].start, cfg.cap, b);
    ExpireKeeps(a, ws[k].start, cfg.cap);
    SentWereEligible(cfg, ws, k, st);
    LeaveDecides(Opened(cfg, ws[k], st), ChosenAt(cfg, ws, k, st).sent, Sent(ws[k]), cfg.cap, b);
  }

  lemma {:induction false} FateKept(cfg: Setup, ws: Plan, bundles: Batch, i: nat, k: nat, b: Bundle)
    requires i <= k <= |ws|
    requires Decided(After(cfg, ws, bundles, i).queue.outcomes, b)
    ensures Decided(After(cfg, ws, bundles, k).queue.outcomes, b)
    ensures After(cfg, ws, bundles, k).queue.outcomes[b] == After(cfg, ws, bundles, i).queue.outcomes[b]
    decreases k - i
  {
    hide *;
    if i < k {
      FateKeptOnce(cfg, ws, bundles, i, b);
      FateKept(cfg, ws, bundles, i + 1, k, b);
    }
  }

  lemma FateKeptOnce(cfg: Setup, ws: Plan, bundles: Batch, i: nat, b: Bundle)
    requires i < |ws|
    requires Decided(After(cfg, ws, bundles, i).queue.outcomes, b)
    ensures Decided(After(cfg, ws, bundles, i + 1).queue.outcomes, b)
    ensures After(cfg, ws, bundles, i + 1).queue.outcomes[b] == After(cfg, ws, bundles, i).queue.outcomes[b]
  {
    hide Sane, Visit, Decided;
    EveryStateSane(cfg, ws, bundles, i);
    VisitKeepsFate(cfg, ws, i, After(cfg, ws, bundles, i), bundles, b);
  }

  lemma ClosedSane(cfg: Setup, ws: Plan, bundles: Batch)
    ensures var st := After(cfg, ws, bundles, |ws|);
            && Sane(st, bundles, cfg.cap)
            && Sane(Arrive(cfg, st, None), bundles, cfg.cap)
            && Grows(st.queue, Arrive(cfg, st, None).queue, Sort(ByIngress, Ready(st, None)))
            && Consistent(Closed(cfg, ws, st), cfg.cap)
            && (forall b :: b in bundles <==> b in Closed(cfg, ws, st).outcomes)
  {
    var st := After(cfg, ws, bundles, |ws|);
    EveryStateSane(cfg, ws, bundles, |ws|);
    ArriveKeeps(cfg, st, None, bundles);
    ReadyFacts(st, None);
    if ws != [] {
      ExpireKeeps(Arrive(cfg, st, None).queue, ws[|ws| - 1].end, cfg.cap);
    }
  }

  lemma AbandonDecides(q: Queue, cap: real, b: Bundle)
    requires Consistent(q, cap)
    ensures b in Abandon(q).outcomes <==> b in q.outcomes
    ensures b in q.active ==> Abandon(q).outcomes[b] == Waiting(b).(state := NeverScheduled)
    ensures Decided(q.outcomes, b) ==> Abandon(q).outcomes[b] == q.outcomes[b]
  {
    RecordAt(q.outcomes, q.active, Abandoned, b);
  }

  // A fate decided after k windows is the bundle's final one.
  lemma FateIsFinal(cfg: Setup, ws: Plan, bundles: Batch, k: nat, b: Bundle)
    requires k <= |ws|
    requires Decided(After(cfg, ws, bundles, k).queue.outcomes, b)
    ensures b in Run(cfg, ws, bundles)
    ensures Run(cfg, ws, bundles)[b] == After(cfg, ws, bundles, k).queue.outcomes[b]
  {
    var st := After(cfg, ws, bundles, |ws|);
    FateKept(cfg, ws, bundles, k, |ws|, b);
    ClosedSane(cfg, ws, bundles);
    if ws != [] {
      ExpireDecides(Arrive(cfg, st, None).queue, ws[|ws| - 1].end, cfg.cap, b);
    }
    AbandonDecides(Closed(cfg, ws, st), cfg.cap, b);
  }

  // The final fate of one bundle: exactly one of four, each with its cause.
  ghost predicate FinalFate(b: Bundle, o: Outcome, ws: Plan) {
    match o.state
    case Pending => false
    case Delivered => ServedWithin(b, o, ws, |ws|)
    case TtlExpired => ws != [] && b.expiration <= ws[|ws| - 1].end && o == Waiting(b).(state := TtlExpired)
    case QueueOverflow => Lost(b, o)
    case NeverScheduled =>
      (ws != [] ==> ws[|ws| - 1].end < b.expiration) && o == Waiting(b).(state := NeverScheduled)
  }

  lemma EveryRunIsTotal(cfg: Setup, ws: Plan, bundles: Batch)
    ensures forall b :: b in bundles <==> b in Run(cfg, ws, bundles)
    ensures forall b :: b in bundles ==> FinalFate(b, Run(cfg, ws, bundles)[b], ws)
  {
    ClosedSane(cfg, ws, bundles);
    var st := After(cfg, ws, bundles, |ws|);
    forall b ensures b in bundles <==> b in Run(cfg, ws, bundles) {
      AbandonDecides(Closed(cfg, ws, st), cfg.cap, b);
    }
    forall b | b in bundles ensures FinalFate(b, Run(cfg, ws, bundles)[b], ws) {
      FinalFateOf(cfg, ws, bundles, b);
    }
  }

  lemma FinalFateOf(cfg: Setup, ws: Plan, bundles: Batch, b: Bundle)
    requires b in bundles && b in Run(cfg, ws, bundles)
    ensures FinalFate(b, Run(cfg, ws, bundles)[b], ws)
  {
    hide After, Arrive, Expire, Abandon, Record, Select, Sort, Bytes;
    var st := After(cfg, ws, bundles, |ws|);
    var a := Arrive(cfg, st, None).queue;
    ClosedSane(cfg, ws, bundles);
    ArriveOnlyOverflows(cfg, st, None, bundles);
    AbandonDecides(Closed(cfg, ws, st), cfg.cap, b);
    if ws != [] {
      assert ws[|ws| - 1].Valid();
      ExpireDecides(a, ws[|ws| - 1].end, cfg.cap, b);
      SelectMember(LiveAfter(ws[|ws| - 1].end), a.active);
    }
    if Decided(st.queue.outcomes, b) {
      FateEarned(cfg, ws, bundles, |ws|, b);
    }
  }
}
