/** Buffer sizing under class-blind admission, as native bundle nodes admit: exactly which caps are safe,
    and from which cap on every cap is. */
module ClassBlind {
  import opened Traffic
  import opened Telemetry
  import opened Selection
  import opened Admission
  import opened Replay
  import opened Fates
  import opened Reach
  import opened Lifetime
  import opened Sizing
  import Buffering
  import Interference
  import opened Wrappers

  // ---------------------------------------------------------------- tail drop

  // What a class-blind buffer holds after a list of arrivals, `load` bytes being taken already: each
  // arrival that fits, in order.
  function TailDrop(s: seq<Bundle>, load: nat, cap: real): seq<Bundle> {
    if s == [] then []
    else if Fits(load + s[0].size, cap) then [s[0]] + TailDrop(s[1..], load + s[0].size, cap)
    else TailDrop(s[1..], load, cap)
  }

  lemma {:induction false} AdmitsTailDrop(cap: real, q: Queue, s: seq<Bundle>)
    ensures AdmitAll(cap, false, q, s).active == q.active + TailDrop(s, Bytes(q.active), cap)
    decreases |s|
  {
    if s == [] {
      assert q.active + [] == q.active;
    } else {
      var m := TryAdmit(cap, false, q, s[0]);
      AdmitsTailDrop(cap, m, s[1..]);
      BytesAppend(q.active, [s[0]]);
      assert Bytes([s[0]]) == s[0].size;
      var rest := TailDrop(s[1..], Bytes(m.active), cap);
      assert q.active + [s[0]] + rest == q.active + ([s[0]] + rest);
    }
  }

  // A list that fits as a whole is kept as a whole.
  lemma {:induction false} PrefixKept(p: seq<Bundle>, t: seq<Bundle>, load: nat, cap: real)
    requires Fits(load + Bytes(p), cap)
    ensures TailDrop(p + t, load, cap) == p + TailDrop(t, load + Bytes(p), cap)
  {
    if p == [] {
      assert p + t == t;
    } else {
      assert (p + t)[1..] == p[1..] + t;
      PrefixKept(p[1..], t, load + p[0].size, cap);
    }
  }

  lemma {:induction false} TailDropMembers(s: seq<Bundle>, load: nat, cap: real)
    ensures forall b :: b in TailDrop(s, load, cap) ==> b in s
  {
    if s != [] {
      TailDropMembers(s[1..], load, cap);
      TailDropMembers(s[1..], load + s[0].size, cap);
    }
  }

  // ---------------------------------------------------------------- one trial

  lemma ArrivalsOf(cfg: Setup, trace: Batch, gap: real)
    requires 0 < Bytes(trace) && InGap(trace, gap) && !cfg.Aware()
    ensures var ws := DrainPlan(gap, Bytes(trace));
            && ws[0].start == gap && ws[0].end == gap + 10.0
            && After(cfg, ws, trace, 0) == Start(trace)
            && Arrive(cfg, Start(trace), Some(ws[0].end)).queue.active
               == TailDrop(Sort(ByIngress, trace), 0, cfg.cap)
  {
    hide TailDrop, AdmitAll, Sort;
    PlanStart(gap, Bytes(trace));
    var end := gap + 10.0;
    SelectAll(IngressUpTo(end), trace);
    AdmitsTailDrop(cfg.cap, EMPTY, Sort(ByIngress, trace));
    var kept := TailDrop(Sort(ByIngress, trace), 0, cfg.cap);
    assert [] + kept == kept;
  }

  // A bundle the buffer holds is delivered if it outlives the gap.
  lemma HeldIsDelivered(trace: Batch, gap: real, cap: real, b: Bundle)
    requires 0.0 < cap && 0 < Bytes(trace) && InGap(trace, gap)
    requires b in TailDrop(Sort(ByIngress, trace), 0, cap) && b in trace && gap < b.expiration
    ensures var m := Run(Trial(cap, false), DrainPlan(gap, Bytes(trace)), trace);
            b in m && m[b].state == Delivered
  {
    hide Arrive, Run, After, SentAt, Ample, DrainPlan, TailDrop, Sort, Bytes;
    var cfg := Trial(cap, false);
    var ws := DrainPlan(gap, Bytes(trace));
    ArrivalsOf(cfg, trace, gap);
    PlanStart(gap, Bytes(trace));
    EligibleFacts(cfg, ws[0], Start(trace));
    DrainIsAmple(cfg, trace, gap, trace);
    AmpleSends(cfg, ws, trace, 0, b);
    SentOutcome(cfg, ws, trace, 0, b);
    FateIsFinal(cfg, ws, trace, 1, b);
  }

  // A bundle the buffer does not hold is lost.
  lemma NotHeldIsLost(trace: Batch, gap: real, cap: real, b: Bundle)
    requires 0.0 < cap && 0 < Bytes(trace) && InGap(trace, gap)
    requires b !in TailDrop(Sort(ByIngress, trace), 0, cap) && b in trace
    ensures Overflows(Trial(cap, false), DrainPlan(gap, Bytes(trace)), trace, b)
  {
    hide Arrive, Run, After, DrainPlan, TailDrop, Sort, Bytes;
    var cfg := Trial(cap, false);
    var ws := DrainPlan(gap, Bytes(trace));
    ArrivalsOf(cfg, trace, gap);
    PlanStart(gap, Bytes(trace));
    EveryStateSane(cfg, ws, trace, 0);
    ArriveOffers(cfg, Start(trace), ws[0].end, trace, b);
    ArriveDecides(cfg, Start(trace), Some(ws[0].end), trace, b);
    NothingOffered(cfg, ws, trace, b);
    ArriveOverflowIsFinal(cfg, ws, trace, 0, b);
  }

  ghost predicate HoldsProtected(trace: seq<Bundle>, cap: real) {
    forall b :: b in trace && Protected(b) ==> b in TailDrop(Sort(ByIngress, trace), 0, cap)
  }

  // A class-blind cap is safe exactly when tail drop in arrival order refuses no protected bundle and
  // every protected bundle outlives the gap.
  lemma BlindSafeIff(trace: Batch, gap: real, cap: real)
    requires 0.0 < cap && 0 < Bytes(trace) && InGap(trace, gap)
    ensures Safe(trace, gap, false, cap) <==> HoldsProtected(trace, cap) && Survives(trace, gap)
  {
    hide Run, TailDrop, Sort, DrainPlan, Bytes;
    if !Survives(trace, gap) {
      NeverSafe(trace, gap, false, cap);
    } else {
      forall b | b in trace && Protected(b)
        ensures var m := Run(Trial(cap, false), DrainPlan(gap, Bytes(trace)), trace);
                b in TailDrop(Sort(ByIngress, trace), 0, cap) <==> b in m && m[b].state == Delivered
      {
        if b in TailDrop(Sort(ByIngress, trace), 0, cap) {
          HeldIsDelivered(trace, gap, cap, b);
        } else {
          NotHeldIsLost(trace, gap, cap, b);
        }
      }
    }
  }

  // ---------------------------------------------------------------- the class-blind threshold

  // How many bundles, from the front, reach up to the last protected one.
  function ThroughLastProtected(s: seq<Bundle>): (n: nat)
    ensures n <= |s|
    ensures 0 < n ==> Protected(s[n - 1])
    ensures forall i :: n <= i < |s| ==> !Protected(s[i])
  {
    if s == [] then 0
    else if Protected(s[|s| - 1]) then |s|
    else ThroughLastProtected(s[..|s| - 1])
  }

  // The bytes that have arrived, of any class, when the last protected bundle has.
  function Backlog(trace: seq<Bundle>): nat {
    var s := Sort(ByIngress, trace);
    Bytes(s[..ThroughLastProtected(s)])
  }

  lemma SortedParts(trace: Batch)
    ensures var s := Sort(ByIngress, trace);
            var n := ThroughLastProtected(s);
            && Distinct(s) && s == s[..n] + s[n..]
            && (forall b :: b in trace <==> b in s)
            && (forall b :: b in s[n..] ==> !Protected(b))
            && (0 < n ==> s[..n] == s[..n - 1] + [s[n - 1]] && s[n - 1] in trace)
  {
    hide Sort, ThroughLastProtected, Distinct, Protected;
    SortMembers(ByIngress, trace);
    SortDistinct(ByIngress, trace);
    NothingProtectedAfter(Sort(ByIngress, trace));
  }

  lemma NothingProtectedAfter(s: seq<Bundle>)
    ensures forall b :: b in s[ThroughLastProtected(s)..] ==> !Protected(b)
  {
    hide ThroughLastProtected, Protected;
    var n := ThroughLastProtected(s);
    forall b | b in s[n..] ensures !Protected(b) {
      var i :| 0 <= i < |s[n..]| && s[n..][i] == b;
      assert s[n + i] == b;
    }
  }

  lemma BacklogHolds(trace: Batch, cap: real)
    requires Fits(Backlog(trace), cap)
    ensures HoldsProtected(trace, cap)
  {
    hide Sort, TailDrop, Bytes;
    var s := Sort(ByIngress, trace);
    var n := ThroughLastProtected(s);
    SortedParts(trace);
    PrefixKept(s[..n], s[n..], 0, cap);
  }

  // The arrivals split at the last protected bundle.
  lemma AroundLastProtected(trace: Batch) returns (p: seq<Bundle>, x: Bundle, t: seq<Bundle>)
    requires 0 < Backlog(trace)
    ensures Sort(ByIngress, trace) == p + ([x] + t) && x !in p && x !in t
    ensures x in trace && Protected(x) && Backlog(trace) == Bytes(p) + x.size
  {
    hide Sort;
    var s := Sort(ByIngress, trace);
    var n := ThroughLastProtected(s);
    SortedParts(trace);
    assert Bytes([]) == 0;
    hide ThroughLastProtected;
    p, x, t := s[..n - 1], s[n - 1], s[n..];
    BytesAppend(p, [x]);
    assert Bytes([x]) == x.size;
    assert s == p + ([x] + t);
    OnceOnly(p, x, t);
  }

  lemma OnceOnly(p: seq<Bundle>, x: Bundle, t: seq<Bundle>)
    requires Distinct(p + ([x] + t))
    ensures x !in p && x !in t
  {
    var s := p + ([x] + t);
    assert s[|p|] == x;
    forall i | 0 <= i < |p| ensures p[i] != x { assert s[i] == p[i]; }
    forall i | 0 <= i < |t| ensures t[i] != x { assert s[|p| + 1 + i] == t[i]; }
  }

  // A cap below the backlog at which everything before the last protected bundle fits, and it does not.
  lemma JustTooSmall(trace: Batch, cap: real) returns (c: real)
    requires 0.0 < cap && !Fits(Backlog(trace), cap)
    ensures cap <= c && !HoldsProtected(trace, c)
  {
    hide Sort, Backlog, Bytes, TailDrop;
    var p, x, t := AroundLastProtected(trace);
    c := if cap <= Bytes(p) as real then Bytes(p) as real else cap;
    PrefixKept(p, [x] + t, 0, c);
    Refused(x, t, Bytes(p), c);
  }

  lemma Refused(x: Bundle, t: seq<Bundle>, load: nat, cap: real)
    requires !Fits(load + x.size, cap) && x !in t
    ensures x !in TailDrop([x] + t, load, cap)
  {
    assert ([x] + t)[1..] == t;
    TailDropMembers(t, load, cap);
  }

  // Class-blind admission guarantees delivery from a cap on exactly when that cap holds everything that
  // arrives up to the last protected bundle, whatever its class, and the protected bundles survive.
  lemma BlindGuaranteeIff(trace: Batch, gap: real, cap: real)
    requires 0.0 < cap && 0 < Bytes(trace) && InGap(trace, gap)
    ensures (forall c: real :: cap <= c ==> Safe(trace, gap, false, c))
       <==> Survives(trace, gap) && Fits(Backlog(trace), cap)
  {
    hide Safe, HoldsProtected, Backlog, Survives, Bytes;
    if Survives(trace, gap) && Fits(Backlog(trace), cap) {
      forall c: real | cap <= c ensures Safe(trace, gap, false, c) {
        BacklogHolds(trace, c);
        BlindSafeIff(trace, gap, c);
      }
    } else if Survives(trace, gap) {
      var c := JustTooSmall(trace, cap);
      BlindSafeIff(trace, gap, c);
    } else {
      BlindSafeIff(trace, gap, cap);
    }
  }

  // ---------------------------------------------------------------- bundles of one size

  // With one size, what is refused once is refused from then on.
  lemma {:induction false} UniformTailDrop(p: seq<Bundle>, x: Bundle, t: seq<Bundle>, load: nat, cap: real)
    requires Uniform(p + ([x] + t), x.size) && !Fits(load + Bytes(p) + x.size, cap)
    requires x !in p && x !in t
    ensures x !in TailDrop(p + ([x] + t), load, cap)
  {
    var s := p + ([x] + t);
    assert s[0] in s;
    if p == [] {
      assert s[1..] == t;
      TailDropMembers(t, load, cap);
    } else {
      assert s[1..] == p[1..] + ([x] + t);
      if Fits(load + s[0].size, cap) {
        UniformTailDrop(p[1..], x, t, load + s[0].size, cap);
      } else {
        NothingMoreFits(s, load, cap, x.size);
      }
    }
  }

  lemma {:induction false} NothingMoreFits(s: seq<Bundle>, load: nat, cap: real, n: nat)
    requires Uniform(s, n) && !Fits(load + n, cap)
    ensures TailDrop(s, load, cap) == []
  {
    if s != [] {
      assert s[0] in s;
      NothingMoreFits(s[1..], load, cap, n);
    }
  }

  lemma UniformTooSmall(trace: Batch, cap: real, n: nat)
    requires Uniform(trace, n) && 0.0 < cap && !Fits(Backlog(trace), cap)
    ensures !HoldsProtected(trace, cap)
  {
    hide Sort, Backlog, Bytes, TailDrop;
    var p, x, t := AroundLastProtected(trace);
    SortMembers(ByIngress, trace);
    UniformTailDrop(p, x, t, 0, cap);
  }

  // For bundles of one size safety is monotone, and the threshold decides it cap by cap.
  lemma UniformBlindSafeIff(trace: Batch, gap: real, cap: real, n: nat)
    requires 0.0 < cap && 0 < Bytes(trace) && InGap(trace, gap) && Uniform(trace, n)
    ensures Safe(trace, gap, false, cap) <==> Survives(trace, gap) && Fits(Backlog(trace), cap)
  {
    hide Safe, HoldsProtected, Backlog, Survives, Bytes, Uniform;
    BlindSafeIff(trace, gap, cap);
    if Fits(Backlog(trace), cap) {
      BacklogHolds(trace, cap);
    } else {
      UniformTooSmall(trace, cap, n);
    }
  }

  // ---------------------------------------------------------------- what the search then finds

  lemma BacklogWithinTotal(trace: Batch)
    ensures Backlog(trace) <= Bytes(trace)
  {
    hide ThroughLastProtected, Sort;
    var s := Sort(ByIngress, trace);
    var n := ThroughLastProtected(s);
    assert s == s[..n] + s[n..];
    BytesAppend(s[..n], s[n..]);
    SortPermutes(ByIngress, trace);
    BytesPermute(s, trace);
  }

  // For bundles of one size the class-blind search pins that backlog to within its last bracket.
  lemma BlindSearchPinsBacklog(trace: Batch, gap: real, hi: real, n: nat)
    requires Found(trace, gap, false, hi) && InGap(trace, gap) && Survives(trace, gap) && Uniform(trace, n)
    ensures Backlog(trace) as real <= hi
    ensures hi - Width(Bytes(trace)) < Backlog(trace) as real || hi - Width(Bytes(trace)) == 1.0
  {
    hide Safe, Backlog, Survives, Uniform;
    BacklogWithinTotal(trace);
    UniformBlindSafeIff(trace, gap, hi, n);
    if hi - Width(Bytes(trace)) != 1.0 { UniformBlindSafeIff(trace, gap, hi - Width(Bytes(trace)), n); }
  }

  // A cap that is safe class-blind is safe with priority-aware admission.
  lemma BlindSafeIsAwareSafe(trace: Batch, gap: real, cap: real)
    requires 0.0 < cap && 0 < Bytes(trace) && InGap(trace, gap) && Safe(trace, gap, false, cap)
    ensures Safe(trace, gap, true, cap)
  {
    hide Safe, TailDrop, Sort, Survives;
    BlindSafeIff(trace, gap, cap);
    ProtectedHeldFit(trace, cap);
    SafeIff(trace, gap, cap);
  }

  lemma {:induction false} TailDropFits(s: seq<Bundle>, load: nat, cap: real)
    requires Fits(load, cap)
    ensures Fits(load + Bytes(TailDrop(s, load, cap)), cap)
  {
    if s != [] {
      if Fits(load + s[0].size, cap) {
        TailDropFits(s[1..], load + s[0].size, cap);
        var rest := TailDrop(s[1..], load + s[0].size, cap);
        assert Bytes([s[0]] + rest) == s[0].size + Bytes(rest) by { assert ([s[0]] + rest)[1..] == rest; }
      } else {
        TailDropFits(s[1..], load, cap);
      }
    }
  }

  lemma {:induction false} TailDropDistinct(s: seq<Bundle>, load: nat, cap: real)
    requires Distinct(s)
    ensures Distinct(TailDrop(s, load, cap))
  {
    if s != [] {
      DistinctCons(s);
      TailDropDistinct(s[1..], load, cap);
      TailDropDistinct(s[1..], load + s[0].size, cap);
      TailDropMembers(s[1..], load + s[0].size, cap);
      if Fits(load + s[0].size, cap) { DistinctCons(TailDrop(s, load, cap)); }
    }
  }

  lemma ProtectedHeldFit(trace: Batch, cap: real)
    requires 0.0 < cap && HoldsProtected(trace, cap)
    ensures Fits(ProtectedBytes(trace), cap)
  {
    hide Sort, TailDrop, Interference.Urgency;
    var s := Sort(ByIngress, trace);
    var kept := TailDrop(s, 0, cap);
    SortedParts(trace);
    TailDropDistinct(s, 0, cap);
    TailDropFits(s, 0, cap);
    Interference.UrgencyTwice(PROTECTED_MAX_RANK, trace);
    Buffering.PartFits(Interference.Urgency(PROTECTED_MAX_RANK, trace), kept);
  }

  // ---------------------------------------------------------------- a trace on which it is not monotone

  const BULKY_LOAD := ClassLoad(Media, 0.6, 6)
  const ALERT_LOAD := ClassLoad(Emergency, 0.4, 4)
  const BULKY := Bundle(1, Media, 6, 0.0, 3600.0)
  const ALERT := Bundle(2, Emergency, 4, 0.0, 300.0)

  lemma SingleArrival(load: ClassLoad, id: nat)
    requires Interval(load) == 10.0
    ensures ClassTrace(load, 10.0, 0.0, id)
         == [Bundle(id, load.cls, load.bundleSize, 0.0, 0.0 + Spec(load.cls).defaultTtl)]
  {
    assert ClassTrace(load, 10.0, 0.0 + Interval(load), id + 1) == [];
  }

  lemma MixedTrace()
    ensures Trace([BULKY_LOAD, ALERT_LOAD], 10.0) == [BULKY, ALERT]
  {
    var profile := [BULKY_LOAD, ALERT_LOAD];
    assert profile[1..] == [ALERT_LOAD] && profile[1..][1..] == [];
    SingleArrival(BULKY_LOAD, 1);
    SingleArrival(ALERT_LOAD, 2);
    assert TraceFrom(profile[1..], 10.0, 2) == [ALERT] + [];
  }

  lemma MixedSorted()
    ensures Sort(ByIngress, [BULKY, ALERT]) == [BULKY, ALERT]
    ensures Bytes([BULKY, ALERT]) == 10
  {
    var s := [BULKY, ALERT];
    assert s[1..] == [ALERT] && s[1..][1..] == [];
    assert Sort(ByIngress, s[1..]) == [ALERT];
    assert Bytes(s[1..]) == 4;
  }

  // A buffer of 5 bytes refuses the bulky bundle and delivers the alert; one of 6 does the opposite, and
  // one of 10 is safe again.
  lemma BlindNotMonotone()
    ensures var trace := Trace([BULKY_LOAD, ALERT_LOAD], 10.0);
            && 0 < Bytes(trace)
            && Safe(trace, 10.0, false, 5.0)
            && !Safe(trace, 10.0, false, 6.0)
            && forall c: real :: 10.0 <= c ==> Safe(trace, 10.0, false, c)
  {
    hide Safe, Trace;
    var trace := Trace([BULKY_LOAD, ALERT_LOAD], 10.0);
    MixedTrace();
    MixedSorted();
    assert trace[1..] == [ALERT] && trace[1..][1..] == [];
    assert TailDrop(trace[1..], 0, 5.0) == [ALERT];
    assert TailDrop(trace, 0, 5.0) == [ALERT];
    assert TailDrop(trace[1..], 6, 6.0) == [];
    assert TailDrop(trace, 0, 6.0) == [BULKY];
    assert ThroughLastProtected(trace) == 2 && trace[..2] == trace;
    BlindSafeIff(trace, 10.0, 5.0);
    BlindSafeIff(trace, 10.0, 6.0);
    BlindGuaranteeIff(trace, 10.0, 10.0);
  }
}
