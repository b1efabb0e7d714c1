/** The batch scheduler as an object: it moves bundle records between its buffer and their fates, window
    by window, refining the run on values of module Replay. */
module Scheduler {
  import opened Traffic
  import opened Telemetry
  import opened Selection
  import opened Admission
  import opened Drain
  import opened Policies
  import opened Replay
  import opened Records
  import opened Wrappers
  import Contacts
  import Drr
  import opened Bookkeeping

  class Scheduler {
    const cfg: Setup
    const plan: Plan
    // What the clock shows; nothing a run writes depends on it.
    const clock: real
    var active: seq<BundleRecord>
    var activeBytes: int
    var deficit: map<TrafficClass, real>
    var rotation: nat
    // The records of the run, the value each stands for, and everything written into them so far.
    ghost var records: set<BundleRecord>
    ghost var info: Reading
    ghost var outcomes: map<Bundle, Outcome>

    constructor (cfg: Setup, plan: Plan, clock: real)
      ensures this.cfg == cfg && this.plan == plan
      ensures active == [] && activeBytes == 0 && Rotation() == NO_CARRY
    {
      this.cfg, this.plan, this.clock := cfg, plan, clock;
      active, activeBytes := [], 0;
      deficit, rotation := NO_CARRY.deficit, 0;
      records, info, outcomes := {}, map[], map[];
    }

    function Rotation(): Carry
      reads this`deficit, this`rotation
    {
      Carry(deficit, rotation)
    }

    // Distinct records stand for distinct bundles, and every record holds exactly what was written.
    ghost predicate Linked()
      reads this`records, this`info, this`outcomes, records
    {
      && (forall r :: r in records ==> ReadsAs(info, r))
      && (forall r, t :: r in records && t in records && r != t ==> info[r] != info[t])
      && (forall r :: r in records ==> r.Result() == OutcomeOf(outcomes, info[r]))
    }

    ghost predicate Mine(s: seq<BundleRecord>)
      reads this`records
    {
      forall r :: r in s ==> r in records
    }

    ghost function View(): Queue
      requires Read(info, active)
      reads this`info, this`active, this`outcomes
    {
      Queue(Values(info, active), outcomes)
    }

    // ---------------------------------------------------------------- writing into a record

    // A mark that drops a bundle; it is never refused.
    method Drop(r: BundleRecord, s: TerminalState, ts: Option<real>, ghost e: Event)
      requires Linked() && r in records && OutcomeOf(outcomes, info[r]).state == Pending
      requires (e == Overflowed && s == QueueOverflow) || (e == Expired && s == TtlExpired)
            || (e == Abandoned && s == TerminalState.NeverScheduled)
      modifies this`outcomes, r`state, r`deliveryTs
      ensures Linked()
      ensures outcomes == Record(old(outcomes), [info[r]], e)
    {
      hide BundleRecord.Info;
      var done := r.Mark(s, ts, clock);
      assert done.Ok?;
      outcomes := Record(outcomes, [info[r]], e);
    }

    // A transmission in window w.
    method Send(r: BundleRecord, w: Contacts.Window)
      requires Linked() && r in records && OutcomeOf(outcomes, info[r]) == Waiting(info[r])
      modifies this`outcomes, this`activeBytes, r`state, r`sentTs, r`deliveryTs, r`contact
      ensures Linked()
      ensures outcomes == Record(old(outcomes), [info[r]], Sent(w))
      ensures activeBytes == old(activeBytes) - r.size
    {
      hide BundleRecord.Info;
      ReadSize(info, r);
      r.sentTs := Some(w.start);
      r.contact := Some(w.contactId);
      var done := r.Mark(Delivered, Some(w.start), clock);
      assert done.Ok?;
      activeBytes := activeBytes - r.size;
      outcomes := Record(outcomes, [info[r]], Sent(w));
    }

    method AdmitOne(r: BundleRecord)
      requires Linked() && Mine(active) && r in records
      modifies this`active, this`activeBytes, this`outcomes, r`admittedTs
      ensures Linked() && Mine(active) && Read(info, active)
      ensures View() == Join(old(View()), info[r])
      ensures activeBytes == old(activeBytes) + r.size
    {
      hide BundleRecord.Info;
      ReadSize(info, r);
      r.admittedTs := Some(r.ingress);
      ValuesSnoc(info, active, r);
      active := active + [r];
      activeBytes := activeBytes + r.size;
      outcomes := Record(outcomes, [info[r]], Admitted);
    }

    // ---------------------------------------------------------------- draining

    // Tries a list in order against a bit budget; a record that does not fit is passed over, or ends the
    // drain when `stop` is set.
    method SendFitting(line: seq<BundleRecord>, w: Contacts.Window, budget: real, stop: bool)
        returns (kept: seq<BundleRecord>, left: real)
      requires Linked() && Mine(line) && Read(info, line) && AllWaiting(outcomes, Values(info, line))
      modifies this`outcomes, this`activeBytes
      modifies records`state, records`sentTs, records`deliveryTs, records`contact
      ensures Linked()
      ensures (forall r :: r in kept ==> r in line) && Read(info, kept)
      ensures Values(info, kept) == Passed(Values(info, line), budget, stop)
      ensures outcomes == Record(old(outcomes), Greedy(Values(info, line), budget, stop), Sent(w))
      ensures activeBytes == old(activeBytes) - Bytes(Greedy(Values(info, line), budget, stop))
      ensures left == budget - BitsOf(Greedy(Values(info, line), budget, stop))
    {
      hide Linked, Values, Greedy, Passed, AllWaiting, Record, Bytes;
      kept, left := [], budget;
      ghost var sent, all := [], Values(info, line);
      NothingSent(info, line, outcomes, Sent(w));
      for i := 0 to |line|
        invariant Linked() && (forall r :: r in kept ==> r in line) && Read(info, kept) && Read(info, line[i..])
        invariant AllWaiting(outcomes, Values(info, line[i..]))
        invariant sent + Greedy(Values(info, line[i..]), left, stop) == Greedy(all, budget, stop)
        invariant Values(info, kept) + Passed(Values(info, line[i..]), left, stop) == Passed(all, budget, stop)
        invariant forall b :: b in Values(info, line[i..]) ==> b !in sent
        invariant outcomes == Record(old(outcomes), sent, Sent(w))
        invariant activeBytes == old(activeBytes) - Bytes(sent)
        invariant left == budget - BitsOf(sent)
      {
        ghost var rest := Values(info, line[i + 1..]);
        RestOf(info, line, i);
        GreedyCons(info[line[i]], rest, left, stop);
        assert ReadsAs(info, line[i]) by { LinkedReads(line[i]); }
        if (8 * line[i].size) as real <= left {
          WaitingTail(outcomes, rest, info[line[i]], Sent(w));
          RecordTwice(old(outcomes), sent, [info[line[i]]], Sent(w));
          SentOneMore(sent, info[line[i]]);
          Send(line[i], w);
          left := left - (8 * line[i].size) as real;
          sent := sent + [info[line[i]]];
        } else if stop {
          ValuesAppend(info, kept, line[i..]);
          kept := kept + line[i..];
          assert sent + [] == sent;
          return;
        } else {
          WaitingSub(outcomes, rest, info[line[i]]);
          ValuesSnoc(info, kept, line[i]);
          kept := kept + [line[i]];
        }
      }
      assert sent + [] == sent;
    }

    lemma LinkedFaithful(s: seq<BundleRecord>)
      requires Linked() && Mine(s)
      ensures Faithful(info, s) && Read(info, s)
    {
    }

    lemma LinkedReads(r: BundleRecord)
      requires Linked() && r in records
      ensures ReadsAs(info, r)
    {
    }

    // ---------------------------------------------------------------- admission

    ghost predicate Valid()
      reads this`records, this`info, this`outcomes, records, this`active, this`activeBytes
      reads this`deficit, this`rotation
    {
      && Linked() && Mine(active) && Read(info, active)
      && Consistent(View(), cfg.cap)
      && activeBytes == Bytes(View().active)
      && GoodCarry(Rotation())
    }

    // One eviction.
    method Evict(victim: BundleRecord, ts: real)
      requires Linked() && Mine(active) && victim in active && Distinct(View().active)
      requires OutcomeOf(outcomes, info[victim]).state == Pending
      modifies this`active, this`activeBytes, this`outcomes, victim`state, victim`deliveryTs
      ensures Linked() && Mine(active)
      ensures active == RemoveFrom(old(active), victim) && Read(info, active)
      ensures outcomes == Record(old(outcomes), [info[victim]], Overflowed)
      ensures View() == Leave(old(View()), [info[victim]], Overflowed)
      ensures activeBytes == old(activeBytes) - info[victim].size
    {
      hide Linked, Values, Select, Record;
      LinkedFaithful(active);
      ReadSize(info, victim);
      ValuesRemoved(info, active, victim);
      active := RemoveFrom(active, victim);
      activeBytes := activeBytes - victim.size;
      Drop(victim, QueueOverflow, Some(ts), Overflowed);
    }

    // The first i candidates have been evicted from queue q for arrival b; `gone` are their values.
    ghost predicate Evicting(b: Bundle, candidates: seq<BundleRecord>, i: nat, q: Queue, gone: seq<Bundle>)
      requires i <= |candidates|
      reads this`records, this`info, this`outcomes, records, this`active, this`activeBytes
    {
      && Linked() && Mine(active) && Read(info, active) && Read(info, candidates[i..])
      && (forall r :: r in candidates[i..] ==> r in active)
      && AllWaiting(outcomes, Values(info, candidates[i..]))
      && (forall x :: x in Values(info, candidates[i..]) ==> x !in gone)
      && View() == Leave(q, gone, Overflowed)
      && activeBytes == Bytes(q.active) - Bytes(gone)
      && gone + Victims(Values(info, candidates[i..]), activeBytes + b.size, cfg.cap) == EvictedFor(q, b, cfg.cap)
    }

    method EvictNext(incoming: BundleRecord, candidates: seq<BundleRecord>, i: nat, ghost q: Queue,
                     ghost gone: seq<Bundle>)
      requires Linked() && Read(info, candidates) && i < |candidates| && incoming in records && Distinct(q.active)
      requires Evicting(info[incoming], candidates, i, q, gone)
      requires !Fits(activeBytes + info[incoming].size, cfg.cap)
      modifies this`active, this`activeBytes, this`outcomes, records`state, records`deliveryTs
      ensures candidates[i] in info
      ensures Evicting(info[incoming], candidates, i + 1, q, gone + [info[candidates[i]]])
    {
      hide Linked, Values, Select, Bytes, Record, Sort, Victims, Leave, AllWaiting, EvictedFor, Distinct;
      hide BundleRecord.Info, Contacts.ValidPlan;
      LinkedReads(incoming);
      RestOf(info, candidates, i);
      ghost var b, x, rest := info[incoming], info[candidates[i]], Values(info, candidates[i + 1..]);
      WaitingSub(outcomes, rest, x);
      VictimsCons(x, rest, activeBytes + b.size, cfg.cap);
      WaitingTail(outcomes, rest, x, Overflowed);
      NoRepeat(candidates, i);
      LeaveTwice(q, gone, [x], Overflowed);
      SentOneMore(gone, x);
      LeaveDistinct(q, gone, Overflowed);
      Evict(candidates[i], incoming.ingress);
      assert gone + ([x] + Victims(rest, activeBytes + b.size, cfg.cap))
          == gone + [x] + Victims(rest, activeBytes + b.size, cfg.cap);
    }

    // Evicts candidates in order until the arrival fits.
    method EvictUntilFits(incoming: BundleRecord, candidates: seq<BundleRecord>)
      requires Valid() && incoming in records
      requires !Fits(activeBytes + incoming.size, cfg.cap) && RoomAfterEviction(View(), info[incoming], cfg.cap)
      requires (forall r :: r in candidates ==> r in active) && Read(info, candidates)
      requires Values(info, candidates) == Sort(ForEviction, Below(View(), info[incoming]))
      modifies this`active, this`activeBytes, this`outcomes, records`state, records`deliveryTs
      ensures Valid()
      ensures View() == Leave(old(View()), EvictedFor(old(View()), info[incoming], cfg.cap), Overflowed)
      ensures Fits(activeBytes + incoming.size, cfg.cap)
    {
      hide Linked, Values, Select, Bytes, Record, Sort, Victims, Consistent, Leave, AllWaiting, Evicting;
      hide EvictedFor, Below, RoomAfterEviction, Distinct, GoodCarry, BundleRecord.Info, Contacts.ValidPlan;
      LinkedReads(incoming);
      ReadSize(info, incoming);
      ghost var q, b, gone := View(), info[incoming], [];
      EvictionStarts(q, b, cfg.cap);
      EvictingNone(b, candidates, q);
      ghost var fits := false;
      for i := 0 to |candidates|
        invariant Linked() && !fits && Evicting(b, candidates, i, q, gone)
      {
        EvictingLinked(b, candidates, i, q, gone);
        if Fits(activeBytes + incoming.size, cfg.cap) {
          fits := true;
          EvictingDone(b, candidates, i, q, gone);
          break;
        }
        EvictNext(incoming, candidates, i, q, gone);
        gone := gone + [info[candidates[i]]];
        EvictingLinked(b, candidates, i + 1, q, gone);
      }
      if !fits {
        EvictingLinked(b, candidates, |candidates|, q, gone);
        EvictingDone(b, candidates, |candidates|, q, gone);
      }
      EvictionEnds(q, b, cfg.cap);
    }

    lemma EvictingNone(b: Bundle, candidates: seq<BundleRecord>, q: Queue)
      requires Linked() && Mine(active) && Read(info, active) && Read(info, candidates) && q == View()
      requires (forall r :: r in candidates ==> r in active) && AllWaiting(outcomes, Values(info, candidates))
      requires activeBytes == Bytes(q.active) && Leave(q, [], Overflowed) == q && Bytes([]) == 0
      requires Victims(Values(info, candidates), activeBytes + b.size, cfg.cap) == EvictedFor(q, b, cfg.cap)
      ensures Evicting(b, candidates, 0, q, [])
    {
      hide Linked, Values, Bytes, Victims, Leave, AllWaiting, EvictedFor;
      assert candidates[0..] == candidates;
      assert [] + EvictedFor(q, b, cfg.cap) == EvictedFor(q, b, cfg.cap);
    }

    lemma EvictingLinked(b: Bundle, candidates: seq<BundleRecord>, i: nat, q: Queue, gone: seq<Bundle>)
      requires i <= |candidates| && Evicting(b, candidates, i, q, gone)
      ensures Linked() && Mine(active) && Read(info, active)
      ensures View() == Leave(q, gone, Overflowed) && activeBytes == Bytes(q.active) - Bytes(gone)
    {
    }

    lemma EvictingDone(b: Bundle, candidates: seq<BundleRecord>, i: nat, q: Queue, gone: seq<Bundle>)
      requires i <= |candidates| && Evicting(b, candidates, i, q, gone)
      requires i == |candidates| || Fits(activeBytes + b.size, cfg.cap)
      ensures gone == EvictedFor(q, b, cfg.cap)
    {
      hide Linked, Bytes, Leave, AllWaiting, EvictedFor, Select;
      NoVictims(activeBytes + b.size, cfg.cap, info, candidates);
      assert gone + [] == gone;
    }

    lemma NoRepeat(s: seq<BundleRecord>, i: nat)
      requires Read(info, s) && i < |s| && Distinct(Values(info, s[i..]))
      ensures s[i] !in s[i + 1..]
    {
      RestOf(info, s, i);
      DistinctCons(Values(info, s[i..]));
      ValuesMember(info, s[i + 1..], info[s[i]]);
    }

    // Makes room for an arrival that does not fit by evicting strictly lower-priority queued records,
    // lowest rank first and newest first within a rank, unless even all of them would not be enough.
    method EvictLowerPriorityToFit(incoming: BundleRecord) returns (ok: bool)
      requires Valid() && incoming in records
      requires !Fits(activeBytes + incoming.size, cfg.cap)
      modifies this`active, this`activeBytes, this`outcomes, records`state, records`deliveryTs
      ensures Valid()
      ensures ok == RoomAfterEviction(old(View()), info[incoming], cfg.cap)
      ensures View() == if ok then Leave(old(View()), EvictedFor(old(View()), info[incoming], cfg.cap), Overflowed)
                        else old(View())
      ensures ok ==> Fits(activeBytes + incoming.size, cfg.cap)
    {
      hide Linked, Values, Select, Bytes, Record, Sort, Victims, Consistent, Test.Passes;
      LinkedFaithful(active);
      LinkedReads(incoming);
      ReadSize(info, incoming);
      ghost var q, b := View(), info[incoming];
      var candidates := Pick(active, RankAbove(incoming.Info().Rank()), info);
      BelowFacts(q, b);
      NothingLeft(info, candidates, RankAbove(b.Rank()));
      if candidates == [] {
        return false;
      }
      var free := cfg.cap - activeBytes as real;
      var freed := TotalBytes(candidates, info);
      if free + (freed as real) < incoming.size as real {
        return false;
      }
      candidates := SortRecords(ForEviction, candidates, info);
      EvictUntilFits(incoming, candidates);
      ok := Fits(activeBytes + incoming.size, cfg.cap);
    }

    method TryAdmit(r: BundleRecord)
      requires Valid() && r in records && info[r] !in outcomes
      modifies this`active, this`activeBytes, this`outcomes
      modifies records`state, records`deliveryTs, records`admittedTs
      ensures Valid()
      ensures View() == Admission.TryAdmit(cfg.cap, cfg.Aware(), old(View()), info[r])
    {
      hide Linked, Values, Consistent, Record;
      LinkedFaithful(active);
      LinkedReads(r);
      ReadSize(info, r);
      ghost var q, b := View(), info[r];
      AdmitKeeps(cfg.cap, cfg.Aware(), q, b);
      AdmissionBytes(cfg.cap, cfg.Aware(), q, b);
      if Fits(activeBytes + r.size, cfg.cap) {
        AdmitOne(r);
        return;
      }
      if cfg.Aware() {
        var ok := EvictLowerPriorityToFit(r);
        if ok {
          AdmitOne(r);
          return;
        }
      }
      Drop(r, QueueOverflow, Some(r.ingress), Overflowed);
    }

    // Offers everything that has arrived by the cutoff in ingress order and returns what has not; no
    // cutoff means everything.
    method AdmitArrivals(pending: seq<BundleRecord>, cutoff: Option<real>, ghost bundles: Batch)
        returns (future: seq<BundleRecord>)
      requires Valid() && Mine(pending) && Read(info, pending)
      requires Sane(State(Values(info, pending), View(), Rotation()), bundles, cfg.cap)
      modifies this`active, this`activeBytes, this`outcomes
      modifies records`state, records`deliveryTs, records`admittedTs
      ensures Valid() && Mine(future) && Read(info, future)
      ensures State(Values(info, future), View(), Rotation())
           == Arrive(cfg, old(State(Values(info, pending), View(), Rotation())), cutoff)
    {
      hide Linked, Values, Consistent, Record, Select, Sort;
      ghost var st := State(Values(info, pending), View(), Rotation());
      LinkedFaithful(pending);
      ReadyFacts(st, cutoff);
      var ready := pending;
      future := [];
      if cutoff.Some? {
        ready := Pick(pending, IngressUpTo(cutoff.value), info);
        future := Pick(pending, IngressAfter(cutoff.value), info);
      }
      NothingLeft(info, pending, IngressUpTo(0.0));
      var arrivals := SortRecords(ByIngress, ready, info);
      OfferInOrder(arrivals);
    }

    method OfferInOrder(arrivals: seq<BundleRecord>)
      requires Valid() && Mine(arrivals) && Read(info, arrivals) && Distinct(Values(info, arrivals))
      requires forall b :: b in Values(info, arrivals) ==> b !in outcomes
      modifies this`active, this`activeBytes, this`outcomes
      modifies records`state, records`deliveryTs, records`admittedTs
      ensures Valid()
      ensures View() == AdmitAll(cfg.cap, cfg.Aware(), old(View()), Values(info, arrivals))
    {
      hide Linked, Values, Consistent, Record, AdmitAll, Distinct, Admission.TryAdmit;
      NothingLeft(info, arrivals, IngressUpTo(0.0));
      AdmitNone(cfg.cap, cfg.Aware());
      for i := 0 to |arrivals|
        invariant Valid() && Read(info, arrivals[i..]) && Distinct(Values(info, arrivals[i..]))
        invariant forall b :: b in Values(info, arrivals[i..]) ==> b !in outcomes
        invariant AdmitAll(cfg.cap, cfg.Aware(), View(), Values(info, arrivals[i..]))
               == AdmitAll(cfg.cap, cfg.Aware(), old(View()), Values(info, arrivals))
      {
        ghost var x, rest := info[arrivals[i]], Values(info, arrivals[i + 1..]);
        RestOf(info, arrivals, i);
        AdmitCons(cfg.cap, cfg.Aware(), View(), x, rest);
        AdmitKeeps(cfg.cap, cfg.Aware(), View(), x);
        TryAdmit(arrivals[i]);
      }
    }

    // ---------------------------------------------------------------- expiry

    method ExpireInBlackout(cutoff: real)
      requires Valid()
      modifies this`active, this`activeBytes, this`outcomes, records`state, records`deliveryTs
      ensures Valid()
      ensures View() == Expire(old(View()), cutoff)
    {
      hide Linked, Values, Consistent, Record, Select, AllWaiting, Bytes;
      ExpiryStarts(View(), cutoff, cfg.cap);
      var still := ExpireEach(cutoff);
      active := still;
    }

    // Marks the records whose lifetime has passed and returns the others.
    method ExpireEach(cutoff: real) returns (still: seq<BundleRecord>)
      requires Linked() && Mine(active) && Read(info, active) && AllWaiting(outcomes, Values(info, active))
      modifies this`activeBytes, this`outcomes, records`state, records`deliveryTs
      ensures Linked() && Mine(still) && Read(info, still)
      ensures Values(info, still) == Select(LiveAfter(cutoff), Values(info, active))
      ensures outcomes == Record(old(outcomes), Select(StaleAt(cutoff), Values(info, active)), Expired)
      ensures activeBytes == old(activeBytes) - Bytes(Select(StaleAt(cutoff), Values(info, active)))
    {
      hide Linked, Values, Record, Select, AllWaiting, Bytes, Test.Passes, BundleRecord.Info;
      ghost var all, gone := Values(info, active), [];
      still := [];
      NothingLeft(info, active, StaleAt(cutoff));
      NothingLeft(info, active, LiveAfter(cutoff));
      NothingSent(info, active, outcomes, Expired);
      for i := 0 to |active|
        invariant Linked() && Mine(still) && Read(info, still) && Read(info, active[i..])
        invariant AllWaiting(outcomes, Values(info, active[i..]))
        invariant forall b :: b in Values(info, active[i..]) ==> b !in gone
        invariant Values(info, still) + Select(LiveAfter(cutoff), Values(info, active[i..]))
               == Select(LiveAfter(cutoff), all)
        invariant gone + Select(StaleAt(cutoff), Values(info, active[i..])) == Select(StaleAt(cutoff), all)
        invariant outcomes == Record(old(outcomes), gone, Expired)
        invariant activeBytes == old(activeBytes) - Bytes(gone)
      {
        var r := active[i];
        ghost var x, rest := info[r], Values(info, active[i + 1..]);
        RestOf(info, active, i);
        LinkedReads(r);
        ReadSize(info, r);
        LinkedState(r);
        ExpiryCons(cutoff, x, rest);
        WaitingTail(outcomes, rest, x, Expired);
        if r.state == Pending && r.expiration.Some? && r.expiration.value <= cutoff {
          RecordTwice(old(outcomes), gone, [x], Expired);
          SentOneMore(gone, x);
          Drop(r, TtlExpired, Some(cutoff), Expired);
          activeBytes := activeBytes - r.size;
          gone := gone + [x];
        } else {
          WaitingSub(outcomes, rest, x);
          ValuesSnoc(info, still, r);
          still := still + [r];
        }
      }
      assert Values(info, still) + [] == Values(info, still) && gone + [] == gone;
    }

    lemma LinkedState(r: BundleRecord)
      requires Linked() && r in records
      ensures r.Result() == OutcomeOf(outcomes, info[r])
    {
    }

    // ---------------------------------------------------------------- one window

    // The ordered policies: sort, then try in order. The two tiers of the utility policy are tried one
    // after the other against the same budget.
    method DrainInOrder(eligible: seq<BundleRecord>, w: Contacts.Window, ghost k: nat)
      requires k < |plan| && w == plan[k] && !RoundRobin(cfg.policy)
      requires Linked() && Mine(eligible) && Read(info, eligible) && AllWaiting(outcomes, Values(info, eligible))
      modifies this`outcomes, this`activeBytes
      modifies records`state, records`sentTs, records`deliveryTs, records`contact
      ensures Linked()
      ensures var sent := Choose(cfg, Rotation(), Values(info, eligible), plan[k].Budget(), NextStart(plan, k)).sent;
              && outcomes == Record(old(outcomes), sent, Sent(plan[k]))
              && activeBytes == old(activeBytes) - Bytes(sent)
    {
      hide Linked, Values, Record, Select, AllWaiting, Bytes, Sort, Greedy;
      LinkedFaithful(eligible);
      var ordered: seq<BundleRecord>;
      match cfg.policy {
        case Fifo => ordered := SortRecords(ByIngress, eligible, info);
        case StrictPriority => ordered := SortRecords(ByRank, eligible, info);
        case DeadlineAware => ordered := SortRecords(ByExpiration, eligible, info);
        case UtilityPure => ordered := SortRecords(ByDensity, eligible, info);
        case UtilityAware => ordered := Tiers(eligible, w, k);
      }
      RankedWaiting(outcomes, cfg.policy, Values(info, eligible), NextStart(plan, k));
      var _, _ := SendFitting(ordered, w, w.Budget(), cfg.policy == Fifo && !cfg.fifoSkipOver);
    }

    // Bundles that would not live to the next window, by utility, before the others, by density.
    method Tiers(eligible: seq<BundleRecord>, w: Contacts.Window, ghost k: nat) returns (ordered: seq<BundleRecord>)
      requires k < |plan| && w == plan[k]
      requires Linked() && Mine(eligible) && Read(info, eligible)
      ensures Mine(ordered) && Read(info, ordered)
      ensures Values(info, ordered) == Ranked(UtilityAware, Values(info, eligible), NextStart(plan, k))
    {
      hide Linked, Values, Select, Sort;
      LinkedFaithful(eligible);
      Contacts.PlanIsOrdered(plan);
      Contacts.WalkVisitsInOrder(plan, k);
      var window := Contacts.NextAfter(plan, w.end);
      var next := if window.Some? then Some(window.value.start) else None;
      var risky := Pick(eligible, AtRisk(next), info);
      var safe := Pick(eligible, CanWait(next), info);
      LinkedFaithful(risky);
      LinkedFaithful(safe);
      risky := SortRecords(ByUtility, risky, info);
      safe := SortRecords(ByDensity, safe, info);
      ValuesAppend(info, risky, safe);
      ordered := risky + safe;
    }

    // ---------------------------------------------------------------- the round robin of one window

    // The lists of records per shared class are the lines of the share s.
    ghost predicate LinesAre(lines: Lines, s: Drr.Share)
      reads this`records, this`info
    {
      forall c :: c in Drr.SHARED ==>
        && c in lines && Mine(lines[c]) && Read(info, lines[c])
        && Values(info, lines[c]) == s.Line(c)
    }

    // The lines, the deficits and the remaining budget are those of the share s, and everything still in
    // line is waiting.
    ghost predicate Tracks(lines: Lines, left: real, s: Drr.Share)
      reads this`records, this`info, this`outcomes, this`deficit
    {
      && deficit == s.deficit && left == s.left && LinesAre(lines, s)
      && forall c :: c in Drr.SHARED ==> c in deficit && LineWaits(outcomes, s, c)
    }

    // Since `base` exactly the bundles in `sent` have gone out in window w.
    ghost predicate HasSent(base: Tally, sent: seq<Bundle>, w: Contacts.Window)
      reads this`outcomes, this`activeBytes
    {
      outcomes == Record(base.outcomes, sent, Sent(w)) && activeBytes == base.bytes - Bytes(sent)
    }

    // One class's turn: its grant, then whatever fits both its deficit and the remaining budget; an empty
    // line forgets its deficit.
    method TakeTurn(lines: Lines, left: real, c: TrafficClass, grant: real, w: Contacts.Window, skip: bool,
                    ghost s: Drr.Share, ghost base: Tally, ghost urgent: seq<Bundle>)
        returns (lines': Lines, left': real)
      requires Linked() && Tracks(lines, left, s) && c in Drr.SHARED
      requires HasSent(base, urgent + s.sent, w)
      modifies this`outcomes, this`activeBytes, this`deficit
      modifies records`state, records`sentTs, records`deliveryTs, records`contact
      ensures Linked() && Tracks(lines', left', Drr.Turn(skip, s, c, grant))
      ensures HasSent(base, urgent + Drr.Turn(skip, s, c, grant).sent, w)
    {
      hide Linked, Values, Record, AllWaiting, Bytes, Greedy, Passed, LineWaits, Read, Mine, LinesAre;
      hide Drr.Turn, Drr.Share.Line, Drr.Share.Credit, Drr.Min, BitsOf, BundleRecord.Info, BundleRecord.Result;
      CreditOf(s, c);
      TurnParts(skip, s, c, grant);
      var credit := deficit[c] + grant;
      var room := Drr.Min(credit, left);
      ghost var out := Greedy(s.Line(c), room, !skip);
      TurnKeepsWaiting(outcomes, s, c, skip, grant, w);
      LineIsWaiting(outcomes, s, c);
      SentJoins(base, urgent + s.sent, out, s.Line(c), outcomes, w);
      LineIs(lines, s, c);
      var kept, rest := SendFitting(lines[c], w, room, !skip);
      MineStill(kept, lines[c]);
      lines' := lines[c := kept];
      left' := left - (room - rest);
      deficit := deficit[c := if kept == [] then 0.0 else credit - (room - rest)];
      NothingLeft(info, kept, OfClass(c));
      ValuesAt(info, kept);
      LinesAfterTurn(lines, s, Drr.Turn(skip, s, c, grant), c, kept);
      assert urgent + Drr.Turn(skip, s, c, grant).sent == urgent + s.sent + out;
    }

    lemma LineIs(lines: Lines, s: Drr.Share, c: TrafficClass)
      requires LinesAre(lines, s) && c in Drr.SHARED
      ensures c in lines && Mine(lines[c]) && Read(info, lines[c]) && Values(info, lines[c]) == s.Line(c)
    {
    }

    lemma LinesAfterTurn(lines: Lines, s: Drr.Share, r: Drr.Share, c: TrafficClass, kept: seq<BundleRecord>)
      requires LinesAre(lines, s) && Mine(kept) && Read(info, kept) && Values(info, kept) == r.Line(c)
      requires forall d :: d != c ==> r.Line(d) == s.Line(d)
      ensures LinesAre(lines[c := kept], r)
    {
    }

    lemma MineStill(kept: seq<BundleRecord>, line: seq<BundleRecord>)
      requires Mine(line) && forall r :: r in kept ==> r in line
      ensures Mine(kept)
    {
    }

    // One round: the remaining budget is divided over the backlogged classes by weight.
    method TakeRound(lines: Lines, left: real, order: seq<TrafficClass>, w: Contacts.Window, skip: bool,
                     ghost s: Drr.Share, ghost base: Tally, ghost urgent: seq<Bundle>)
        returns (lines': Lines, left': real)
      requires Linked() && Tracks(lines, left, s) && VisitsShared(order) && Drr.Goes(s, order)
      requires HasSent(base, urgent + s.sent, w)
      modifies this`outcomes, this`activeBytes, this`deficit
      modifies records`state, records`sentTs, records`deliveryTs, records`contact
      ensures Linked() && Tracks(lines', left', Drr.Round(skip, s, order))
      ensures HasSent(base, urgent + Drr.Round(skip, s, order).sent, w)
    {
      hide Linked, Tracks, HasSent, Drr.Turn, Drr.Turns, Drr.Goes;
      TracksHeads(lines, left, s);
      BackloggedSame(lines, s, order);
      RoundTotal(s, order);
      var backlogged := BackloggedIn(lines, order);
      var total := Drr.TotalWeight(backlogged);
      lines', left' := lines, left;
      ghost var t := s;
      TurnsDone(skip, s, left, total, backlogged);
      for i := 0 to |backlogged|
        invariant Linked() && Tracks(lines', left', t)
        invariant HasSent(base, urgent + t.sent, w)
        invariant Drr.Turns(skip, t, backlogged[i..], left, total) == Drr.Turns(skip, s, backlogged, left, total)
      {
        var c := backlogged[i];
        var grant := left * (Drr.Weight(c) / total);
        assert c in backlogged;
        NextTurn(skip, t, backlogged, i, left, total, grant);
        lines', left' := TakeTurn(lines', left', c, grant, w, skip, t, base, urgent);
        t := Drr.Turn(skip, t, c, grant);
      }
      TurnsDone(skip, t, left, total, backlogged);
    }

    lemma TracksHeads(lines: Lines, left: real, s: Drr.Share)
      requires Linked() && Tracks(lines, left, s)
      ensures left == s.left
      ensures forall c :: c in Drr.SHARED ==> c in lines && SameHead(lines[c], s.Line(c))
    {
      forall c | c in Drr.SHARED ensures SameHead(lines[c], s.Line(c)) {
        if lines[c] != [] {
          LinkedReads(lines[c][0]);
          ReadSize(info, lines[c][0]);
        }
      }
    }

    // Rounds repeat while budget remains and some class head fits it, up to the guard.
    method TakeRounds(lines: Lines, left: real, order: seq<TrafficClass>, w: Contacts.Window, skip: bool,
                      ghost start: Drr.Share, ghost base: Tally, ghost urgent: seq<Bundle>)
      requires Linked() && Tracks(lines, left, start) && VisitsShared(order) && start.sent == []
      requires HasSent(base, urgent, w)
      modifies this`outcomes, this`activeBytes, this`deficit
      modifies records`state, records`sentTs, records`deliveryTs, records`contact
      ensures Linked() && deficit == Drr.Rounds(skip, start, order, 0).deficit
      ensures HasSent(base, urgent + Drr.Rounds(skip, start, order, 0).sent, w)
    {
      hide Linked, Tracks, HasSent, Drr.Goes, Drr.Round;
      var lines', left' := lines, left;
      ghost var s := start;
      assert urgent + s.sent == urgent;
      var rnd := 0;
      while 0.0 < left'
        invariant Linked() && Tracks(lines', left', s) && HasSent(base, urgent + s.sent, w)
        invariant 0 <= rnd <= Drr.LAST_ROUND
        invariant Drr.Rounds(skip, s, order, rnd) == Drr.Rounds(skip, start, order, 0)
        decreases Drr.LAST_ROUND - rnd
      {
        TracksHeads(lines', left', s);
        FitsSame(lines', s, order);
        RoundsStep(skip, s, order, rnd);
        if !(exists c :: c in order && HeadFitsIn(lines', c, left')) {
          break;
        }
        lines', left' := TakeRound(lines', left', order, w, skip, s, base, urgent);
        s := Drr.Round(skip, s, order);
        rnd := rnd + 1;
        if rnd > Drr.LAST_ROUND {
          break;
        }
      }
      assert s == Drr.Rounds(skip, start, order, 0) by {
        if left' <= 0.0 && rnd <= Drr.LAST_ROUND {
          TracksHeads(lines', left', s);
          SpentStops(s, order);
          RoundsStep(skip, s, order, rnd);
        }
      }
      TracksDeficit(lines', left', s);
    }

    lemma TracksDeficit(lines: Lines, left: real, s: Drr.Share)
      requires Tracks(lines, left, s)
      ensures deficit == s.deficit
    {
    }

    // The three shared classes' lines, each in ingress order.
    method ByClass(eligible: seq<BundleRecord>) returns (lines: Lines)
      requires Linked() && Mine(eligible) && Read(info, eligible)
      ensures forall c :: c in Drr.SHARED ==>
                && c in lines && Mine(lines[c]) && Read(info, lines[c])
                && Values(info, lines[c]) == LineOf(c, Values(info, eligible))
    {
      hide Linked, Values, Select, Sort;
      var t := ClassLine(Telemetry, eligible);
      var s := ClassLine(ScienceBulk, eligible);
      var m := ClassLine(Media, eligible);
      lines := map[Telemetry := t, ScienceBulk := s, Media := m];
    }

    method ClassLine(c: TrafficClass, eligible: seq<BundleRecord>) returns (line: seq<BundleRecord>)
      requires Linked() && Mine(eligible) && Read(info, eligible)
      ensures Mine(line) && Read(info, line) && Values(info, line) == LineOf(c, Values(info, eligible))
    {
      hide Linked, Values, Select, Sort;
      LinkedFaithful(eligible);
      line := Pick(eligible, OfClass(c), info);
      LinkedFaithful(line);
      line := SortRecords(ByIngress, line, info);
    }

    // Idle classes do not hoard deficit.
    method ResetIdle(lines: Lines, ghost el: seq<Bundle>, ghost budget: real)
      requires forall c :: c in Drr.SHARED ==>
                 c in lines && Read(info, lines[c]) && Values(info, lines[c]) == LineOf(c, el)
      modifies this`deficit
      ensures deficit == Opening(old(Rotation()), el, budget).deficit
      ensures forall c :: c in Drr.SHARED ==> c in deficit
    {
      hide Values, LineOf, Urgent, BitsOf;
      forall c | c in Drr.SHARED ensures lines[c] == [] <==> LineOf(c, el) == [] {
        ValuesAt(info, lines[c]);
      }
      deficit := map c | c in {Telemetry, ScienceBulk, Media} ::
        if c !in lines || lines[c] == [] || c !in deficit then 0.0 else deficit[c];
    }

    lemma TracksOpening(lines: Lines, left: real, carry: Carry, el: seq<Bundle>, budget: real)
      requires forall c :: c in Drr.SHARED ==>
                 && c in lines && c in deficit && Mine(lines[c]) && Read(info, lines[c])
                 && Values(info, lines[c]) == LineOf(c, el)
                 && LineWaits(outcomes, Opening(carry, el, budget), c)
      requires deficit == Opening(carry, el, budget).deficit && left == budget - BitsOf(Urgent(el, budget))
      ensures Tracks(lines, left, Opening(carry, el, budget)) && Opening(carry, el, budget).sent == []
    {
      hide Values, LineOf, Urgent, BitsOf, LineWaits;
    }

    // Emergency traffic goes first; the other classes share what is left, starting one class further
    // every window.
    method DrainShared(eligible: seq<BundleRecord>, w: Contacts.Window, ghost k: nat)
      requires k < |plan| && w == plan[k] && RoundRobin(cfg.policy)
      requires Linked() && Mine(eligible) && Read(info, eligible) && AllWaiting(outcomes, Values(info, eligible))
      modifies this`outcomes, this`activeBytes, this`deficit, this`rotation
      modifies records`state, records`sentTs, records`deliveryTs, records`contact
      ensures Linked()
      ensures var c := Choose(cfg, old(Rotation()), Values(info, eligible), plan[k].Budget(), NextStart(plan, k));
              && outcomes == Record(old(outcomes), c.sent, Sent(plan[k]))
              && activeBytes == old(activeBytes) - Bytes(c.sent)
              && Rotation() == c.carry
    {
      hide Linked, Values, Record, AllWaiting, Bytes, Greedy, Drr.Rounds, VisitOrder, LineWaits;
      hide VisitsShared, LineOf, Opening, Mine, Read, Tracks, Contacts.Window.Budget;
      var skip := cfg.policy == WfqSkipOver;
      ghost var carry, el := Rotation(), Values(info, eligible);
      ghost var urgent := Urgent(el, w.Budget());
      ghost var base := Tally(outcomes, activeBytes);
      OpeningWaits(outcomes, carry, el, w);
      var emergency := ClassLine(Emergency, eligible);
      var _, left := SendFitting(emergency, w, w.Budget(), false);
      var lines := ByClass(eligible);
      ResetIdle(lines, el, w.Budget());
      TracksOpening(lines, left, carry, el, w.Budget());
      VisitOrderVisits(rotation);
      TakeRounds(lines, left, VisitOrder(rotation), w, skip, Opening(carry, el, w.Budget()), base, urgent);
      rotation := (rotation + 1) % 3;
    }

    // The records of a list that have no fate yet.
    method StillPending(s: seq<BundleRecord>, ghost m: map<Bundle, Outcome>, ghost sent: seq<Bundle>,
                        ghost w: Contacts.Window)
        returns (still: seq<BundleRecord>)
      requires Linked() && Mine(s) && Read(info, s) && AllWaiting(m, Values(info, s))
      requires outcomes == Record(m, sent, Sent(w))
      ensures Mine(still) && Read(info, still)
      ensures Values(info, still) == Select(NotAmong(sent), Values(info, s))
    {
      hide Linked, Values, Select, Record, AllWaiting, Test.Passes;
      still := [];
      NothingLeft(info, s, NotAmong(sent));
      for i := 0 to |s|
        invariant Mine(still) && Read(info, still) && Read(info, s[i..])
        invariant AllWaiting(m, Values(info, s[i..]))
        invariant Values(info, still) + Select(NotAmong(sent), Values(info, s[i..]))
               == Select(NotAmong(sent), Values(info, s))
      {
        ghost var x, rest := info[s[i]], Values(info, s[i + 1..]);
        RestOf(info, s, i);
        WaitingSub(m, rest, x);
        SelectCons(NotAmong(sent), x, rest);
        LinkedState(s[i]);
        PendingUnlessSent(m, rest, x, sent, w);
        if s[i].state == Pending {
          ValuesSnoc(info, still, s[i]);
          still := still + [s[i]];
        }
      }
      assert Values(info, still) + [] == Values(info, still);
    }

    // Drains a window of the plan under the configured policy.
    method DrainWindow(w: Contacts.Window, ghost k: nat)
      requires Valid() && k < |plan| && w == plan[k]
      modifies this`active, this`activeBytes, this`outcomes, this`deficit, this`rotation
      modifies records`state, records`sentTs, records`deliveryTs, records`contact
      ensures Valid()
      ensures var c := ChosenFrom(cfg, old(Rotation()), old(View()), plan, k);
              View() == Leave(old(View()), c.sent, Sent(plan[k])) && Rotation() == c.carry
    {
      hide Linked, Values, Consistent, Record, Select, AllWaiting, Bytes, Greedy, Choose, Leave, Contacts.Window.Budget;
      ghost var q, carry := View(), Rotation();
      DrainFacts(cfg, carry, q, plan, k);
      LinkedFaithful(active);
      var pending := StillPending(active, outcomes, [], w);
      LinkedFaithful(pending);
      var eligible := Pick(pending, IngressBefore(w.end), info);
      if RoundRobin(cfg.policy) {
        DrainShared(eligible, w, k);
      } else {
        DrainInOrder(eligible, w, k);
        KeepsCarry(cfg, carry, Eligible(q, plan[k]), plan[k].Budget(), NextStart(plan, k));
      }
      active := StillPending(active, q.outcomes, ChosenFrom(cfg, carry, q, plan, k).sent, plan[k]);
      LeaveParts(q, ChosenFrom(cfg, carry, q, plan, k).sent, plan[k]);
    }

    // ---------------------------------------------------------------- the run

    // What is still queued when the plan is over was never scheduled.
    method AbandonQueued()
      requires Linked() && Mine(active) && Read(info, active) && AllWaiting(outcomes, Values(info, active))
      modifies this`active, this`outcomes, records`state, records`deliveryTs
      ensures Linked() && active == []
      ensures outcomes == Record(old(outcomes), old(Values(info, active)), Abandoned)
    {
      hide Linked, Values, Record, AllWaiting;
      ghost var gone := [];
      NothingSent(info, active, outcomes, Abandoned);
      for i := 0 to |active|
        invariant Linked() && active == old(active) && Read(info, active[i..])
        invariant AllWaiting(outcomes, Values(info, active[i..]))
        invariant forall b :: b in Values(info, active[i..]) ==> b !in gone
        invariant gone + Values(info, active[i..]) == Values(info, active)
        invariant outcomes == Record(old(outcomes), gone, Abandoned)
      {
        var r := active[i];
        ghost var x, rest := info[r], Values(info, active[i + 1..]);
        RestOf(info, active, i);
        LinkedState(r);
        WaitingTail(outcomes, rest, x, Abandoned);
        RecordTwice(old(outcomes), gone, [x], Abandoned);
        if r.state == Pending {
          Drop(r, TerminalState.NeverScheduled, None, Abandoned);
        }
        gone := gone + [x];
      }
      assert gone + [] == gone;
      active := [];
    }

    // The last act: everything still to come arrives, what has outlived its lifetime by the last window's
    // end expires, and the rest is abandoned.
    method Finish(pending: seq<BundleRecord>, lastEnd: Option<real>, ghost bundles: Batch)
      requires Valid() && Mine(pending) && Read(info, pending)
      requires Sane(State(Values(info, pending), View(), Rotation()), bundles, cfg.cap)
      requires lastEnd == if plan == [] then None else Some(plan[|plan| - 1].end)
      modifies this`active, this`activeBytes, this`outcomes
      modifies records`state, records`deliveryTs, records`admittedTs
      ensures Linked() && active == []
      ensures outcomes
           == Abandon(Closed(cfg, plan, old(State(Values(info, pending), View(), Rotation())))).outcomes
      ensures activeBytes
           == Bytes(Closed(cfg, plan, old(State(Values(info, pending), View(), Rotation()))).active)
    {
      hide Linked, Values, Consistent, Record, AllWaiting, Bytes, Sane, Arrive, Expire;
      var _ := AdmitArrivals(pending, None, bundles);
      if lastEnd.Some? {
        ExpireInBlackout(lastEnd.value);
      }
      ExpiryStarts(View(), 0.0, cfg.cap);
      AbandonQueued();
    }

    // Runs every bundle through the whole plan. A bundle without a lifetime is refused before anything
    // happens; otherwise every record ends exactly as the run on values says.
    method Run(bundles: seq<BundleRecord>) returns (r: Result<(), RunError>)
      requires active == [] && activeBytes == 0 && Rotation() == NO_CARRY
      requires forall i, j :: 0 <= i < j < |bundles| ==> bundles[i].id != bundles[j].id
      requires forall b :: b in bundles ==> b.Result() == UNTOUCHED
      modifies this
      modifies bundles`state, bundles`admittedTs, bundles`sentTs, bundles`deliveryTs, bundles`contact
      ensures r.Err? <==> exists b :: b in bundles && b.expiration.None?
      ensures r.Err? ==>
                exists i :: 0 <= i < |bundles| && FirstWithout(bundles, i) && r == Err(NoLifetime(bundles[i].id))
      ensures r.Err? ==> unchanged(this) && forall b :: b in bundles ==> b.Result() == UNTOUCHED
      ensures r.Ok? ==> active == [] && Distinct(InfosOf(bundles))
      ensures r.Ok? ==> forall b :: b in bundles ==>
                b.Result() == OutcomeOf(Replay.Run(cfg, plan, InfosOf(bundles)), b.Info())
      // The buffer is emptied but its byte count is not reset.
      ensures r.Ok? ==> var last := After(cfg, plan, InfosOf(bundles), |plan|);
                activeBytes == Bytes(Closed(cfg, plan, last).active) && Rotation() == last.carry
    {
      hide *;
      for i := 0 to |bundles|
        invariant forall j :: 0 <= j < i ==> bundles[j].expiration.Some?
      {
        if bundles[i].expiration.None? {
          IsFirst(bundles, i);
          return Err(NoLifetime(bundles[i].id));
        }
      }
      Begin(bundles);
      RunWindows(bundles);
      r := Ok(());
      assert records == set b | b in bundles;
      forall b | b in bundles
        ensures b.Result() == OutcomeOf(Replay.Run(cfg, plan, InfosOf(bundles)), b.Info())
      {
        LinkedReads(b);
        LinkedState(b);
      }
    }

    // Ghost bookkeeping before the first window.
    ghost method Begin(bundles: seq<BundleRecord>)
      requires active == [] && activeBytes == 0 && Rotation() == NO_CARRY
      requires forall i, j :: 0 <= i < j < |bundles| ==> bundles[i].id != bundles[j].id
      requires forall b :: b in bundles ==> b.Result() == UNTOUCHED && b.expiration.Some?
      modifies this`records, this`info, this`outcomes
      ensures Valid() && Mine(bundles) && Read(info, bundles) && records == (set b | b in bundles)
      ensures Values(info, bundles) == InfosOf(bundles) && Distinct(InfosOf(bundles))
      ensures outcomes == map[]
    {
      hide BundleRecord.Result, BundleRecord.Info, Consistent, InfosOf, Values, GoodCarry, Bytes, Distinct;
      InfosDistinct(bundles);
      NoCarryGood();
      EmptyConsistent(cfg.cap);
      records := set b | b in bundles;
      info := map b | b in bundles :: b.Info();
      outcomes := map[];
      SameValues(info, bundles);
      NothingLeft(info, active, IngressUpTo(0.0));
    }

    // One window: arrivals up to its end come in before anything expires at its start.
    method VisitWindow(pending: seq<BundleRecord>, w: Contacts.Window, ghost k: nat, ghost bundles: Batch)
        returns (future: seq<BundleRecord>)
      requires Valid() && Mine(pending) && Read(info, pending) && k < |plan| && w == plan[k]
      requires State(Values(info, pending), View(), Rotation()) == After(cfg, plan, bundles, k)
      modifies this`active, this`activeBytes, this`outcomes, this`deficit, this`rotation
      modifies records`state, records`admittedTs, records`sentTs, records`deliveryTs, records`contact
      ensures Valid() && Mine(future) && Read(info, future)
      ensures State(Values(info, future), View(), Rotation()) == After(cfg, plan, bundles, k + 1)
    {
      hide Linked, Values, Consistent, Visit, After, Sane, Arrive, Expire, Eligible, Leave, Choose, NextStart, Bytes;
      EveryStateSane(cfg, plan, bundles, k);
      AfterNext(cfg, plan, bundles, k);
      future := AdmitArrivals(pending, Some(w.end), bundles);
      ExpireInBlackout(w.start);
      DrainWindow(w, k);
    }

    // The walk over the windows, from any instant before the plan.
    method RunWindows(bundles: seq<BundleRecord>)
      requires Valid() && Mine(bundles) && Read(info, bundles) && Distinct(Values(info, bundles))
      requires active == [] && Rotation() == NO_CARRY && outcomes == map[]
      modifies this`active, this`activeBytes, this`outcomes, this`deficit, this`rotation
      modifies records`state, records`admittedTs, records`sentTs, records`deliveryTs, records`contact
      ensures Linked() && active == []
      ensures outcomes == Replay.Run(cfg, plan, Values(info, bundles))
      ensures var last := After(cfg, plan, Values(info, bundles), |plan|);
              activeBytes == Bytes(Closed(cfg, plan, last).active) && Rotation() == last.carry
    {
      hide Linked, Values, Consistent, After, Sane, Closed, Abandon, Bytes, GoodCarry, Contacts.NextAfter;
      hide Contacts.ValidPlan, Contacts.Ordered;
      ghost var batch: Batch := Values(info, bundles);
      ghost var k := 0;
      var pending := bundles;
      var lastEnd: Option<real> := None;
      Contacts.PlanIsOrdered(plan);
      var before := if plan == [] then 0.0 else plan[0].start - 1.0;
      Contacts.WalkStarts(plan, before);
      var window := Contacts.NextAfter(plan, before);
      AfterNone(cfg, plan, batch);
      NothingLeft(info, active, IngressUpTo(0.0));
      while window.Some?
        invariant 0 <= k <= |plan|
        invariant window == if k < |plan| then Some(plan[k]) else None
        invariant lastEnd == if k == 0 then None else Some(plan[k - 1].end)
        invariant Valid() && Mine(pending) && Read(info, pending)
        invariant State(Values(info, pending), View(), Rotation()) == After(cfg, plan, batch, k)
        decreases |plan| - k
      {
        var w := window.value;
        pending := VisitWindow(pending, w, k, batch);
        lastEnd := Some(w.end);
        Contacts.WalkVisitsInOrder(plan, k);
        window := Contacts.NextAfter(plan, w.end);
        k := k + 1;
      }
      EveryStateSane(cfg, plan, batch, |plan|);
      Finish(pending, lastEnd, batch);
    }
  }
}
