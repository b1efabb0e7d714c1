/** Buffer sizing: what the search for the smallest safe buffer finds, and when it can find anything. */
module Sizing {
  import opened Traffic
  import opened Telemetry
  import opened Selection
  import opened Admission
  import opened Policies
  import opened Replay
  import opened Fates
  import opened Reach
  import opened Buffering
  import opened Interference
  import opened Lifetime
  import opened Wrappers
  import Contacts
  import Drr

  const PROTECTED_MAX_RANK: nat := 1
  const STEPS: nat := 40

  type Rate = r: real | 0.0 < r witness 1.0

  datatype ClassLoad = ClassLoad(cls: TrafficClass, byteRate: Rate, bundleSize: Size)

  // ---------------------------------------------------------------- protected fates and the buffer

  // If no bundle of rank at most r overflows, every larger buffer gives those ranks the same records.
  lemma ProtectedFatesStable(cfg: Setup, cfg': Setup, r: int, ws: Plan, bundles: Batch)
    requires TopFirst(cfg, r) && cfg'.policy == cfg.policy && cfg.Aware() && cfg'.Aware()
    requires cfg.cap <= cfg'.cap
    requires forall b :: b in bundles && b.Rank() <= r ==> !Overflows(cfg, ws, bundles, b)
    ensures Keep(RankAtMost(r), Run(cfg', ws, bundles)) == Keep(RankAtMost(r), Run(cfg, ws, bundles))
  {
    hide Run, Urgency, Keep;
    var top := Urgency(r, bundles);
    TopFatesAreReference(cfg, r, ws, bundles);
    TopFatesAreReference(cfg', r, ws, bundles);
    ReferenceLosesNone(cfg, r, ws, bundles);
    LargerBufferSameRun(Reference(cfg), Reference(cfg'), ws, top);
  }

  lemma ReferenceLosesNone(cfg: Setup, r: int, ws: Plan, bundles: Batch)
    requires TopFirst(cfg, r) && cfg.Aware()
    requires forall b :: b in bundles && b.Rank() <= r ==> !Overflows(cfg, ws, bundles, b)
    ensures NoLoss(Reference(cfg), ws, Urgency(r, bundles))
  {
    hide Run, Urgency;
    TopFatesAreReference(cfg, r, ws, bundles);
    UrgencyTwice(r, bundles);
    forall b | b in Urgency(r, bundles) ensures !Overflows(Reference(cfg), ws, Urgency(r, bundles), b) {
      KeepAt(RankAtMost(r), Run(cfg, ws, bundles), b);
    }
  }

  // A cap of at least the protected bytes loses no protected bundle.
  lemma ProtectedBytesSuffice(cfg: Setup, r: int, ws: Plan, bundles: Batch, b: Bundle)
    requires TopFirst(cfg, r) && cfg.Aware() && Fits(Bytes(Urgency(r, bundles)), cfg.cap)
    requires b in bundles && b.Rank() <= r
    ensures !Overflows(cfg, ws, bundles, b)
  {
    hide Run, Urgency;
    TopFatesAreReference(cfg, r, ws, bundles);
    BigBufferLosesNothing(Reference(cfg), ws, Urgency(r, bundles));
    UrgencyTwice(r, bundles);
    KeepAt(RankAtMost(r), Run(cfg, ws, bundles), b);
  }

  // ---------------------------------------------------------------- the trace

  lemma IntervalStep(gap: real, t: real, interval: real)
    requires 0.0 < interval
    ensures (gap - (t + interval)) / interval == (gap - t) / interval - 1.0
  {
    assert (gap - (t + interval)) / interval == ((gap - t) - interval) / interval;
    assert ((gap - t) - interval) / interval == (gap - t) / interval - interval / interval;
  }

  function Interval(load: ClassLoad): (i: real)
    ensures 0.0 < i
  {
    load.bundleSize as real / load.byteRate
  }

  // Periodic arrivals of one class from t on, numbered from id.
  function ClassTrace(load: ClassLoad, gap: real, t: real, id: nat): seq<Bundle>
    decreases (gap - t) / Interval(load)
  {
    if gap <= t then []
    else
      IntervalStep(gap, t, Interval(load));
      [Bundle(id, load.cls, load.bundleSize, t, t + Spec(load.cls).defaultTtl)]
      + ClassTrace(load, gap, t + Interval(load), id + 1)
  }

  function TraceFrom(profile: seq<ClassLoad>, gap: real, id: nat): seq<Bundle> {
    if profile == [] then []
    else
      var first := ClassTrace(profile[0], gap, 0.0, id);
      first + TraceFrom(profile[1..], gap, id + |first|)
  }

  function Trace(profile: seq<ClassLoad>, gap: real): Batch {
    TraceDistinct(profile, gap, 1);
    TraceFrom(profile, gap, 1)
  }

  ghost predicate Numbered(s: seq<Bundle>, id: nat) {
    forall i :: 0 <= i < |s| ==> s[i].id == id + i
  }

  lemma {:induction false} ClassTraceNumbered(load: ClassLoad, gap: real, t: real, id: nat)
    ensures Numbered(ClassTrace(load, gap, t, id), id)
    decreases (gap - t) / Interval(load)
  {
    if t < gap {
      IntervalStep(gap, t, Interval(load));
      ClassTraceNumbered(load, gap, t + Interval(load), id + 1);
    }
  }

  lemma {:induction false} TraceNumbered(profile: seq<ClassLoad>, gap: real, id: nat)
    ensures Numbered(TraceFrom(profile, gap, id), id)
  {
    if profile != [] {
      var first := ClassTrace(profile[0], gap, 0.0, id);
      ClassTraceNumbered(profile[0], gap, 0.0, id);
      TraceNumbered(profile[1..], gap, id + |first|);
    }
  }

  lemma TraceDistinct(profile: seq<ClassLoad>, gap: real, id: nat)
    ensures Distinct(TraceFrom(profile, gap, id))
  {
    TraceNumbered(profile, gap, id);
  }

  // Every bundle of the trace arrives inside the gap and carries its class's default lifetime.
  ghost predicate FromProfile(b: Bundle, profile: seq<ClassLoad>, gap: real) {
    && 0.0 <= b.ingress < gap
    && b.expiration == b.ingress + Spec(b.cls).defaultTtl
    && exists i :: 0 <= i < |profile| && profile[i].cls == b.cls
  }

  lemma {:induction false} ClassTraceFacts(load: ClassLoad, gap: real, t: real, id: nat)
    ensures forall b :: b in ClassTrace(load, gap, t, id) ==>
              t <= b.ingress < gap && b.expiration == b.ingress + Spec(b.cls).defaultTtl && b.cls == load.cls
    ensures t < gap ==> Bundle(id, load.cls, load.bundleSize, t, t + Spec(load.cls).defaultTtl)
                        in ClassTrace(load, gap, t, id)
    decreases (gap - t) / Interval(load)
  {
    if t < gap {
      IntervalStep(gap, t, Interval(load));
      ClassTraceFacts(load, gap, t + Interval(load), id + 1);
    }
  }

  lemma {:induction false} TraceFacts(profile: seq<ClassLoad>, gap: real, id: nat, b: Bundle)
    requires b in TraceFrom(profile, gap, id)
    ensures FromProfile(b, profile, gap)
  {
    var first := ClassTrace(profile[0], gap, 0.0, id);
    ClassTraceFacts(profile[0], gap, 0.0, id);
    if b !in first {
      TraceFacts(profile[1..], gap, id + |first|, b);
      var i :| 0 <= i < |profile[1..]| && profile[1..][i].cls == b.cls;
      assert profile[i + 1].cls == b.cls;
    }
  }

  // Each class of the profile has an arrival at the very start of the gap.
  lemma {:induction false} TraceStartsEveryClass(profile: seq<ClassLoad>, gap: real, id: nat, i: nat)
      returns (b: Bundle)
    requires i < |profile| && 0.0 < gap
    ensures b in TraceFrom(profile, gap, id) && b.cls == profile[i].cls
    ensures b.ingress == 0.0 && b.expiration == Spec(b.cls).defaultTtl
  {
    var first := ClassTrace(profile[0], gap, 0.0, id);
    if i == 0 {
      ClassTraceFacts(profile[0], gap, 0.0, id);
      b := Bundle(id, profile[0].cls, profile[0].bundleSize, 0.0, 0.0 + Spec(profile[0].cls).defaultTtl);
    } else {
      b := TraceStartsEveryClass(profile[1..], gap, id + |first|, i - 1);
    }
  }

  // ---------------------------------------------------------------- one trial

  // One contact right after the gap, wide enough for the whole backlog ten times over.
  function DrainWindow(gap: real, total: nat): Contacts.Window {
    Contacts.Window("drain", gap, gap + 10.0, (total * 8 * 10) as real)
  }

  function DrainPlan(gap: real, total: nat): Plan
    requires 0 < total
  {
    assert DrainWindow(gap, total).Valid();
    [DrainWindow(gap, total)]
  }

  function Trial(cap: real, aware: bool): Setup
    requires 0.0 < cap
  {
    Config(cap, StrictPriority, Some(aware), true)
  }

  predicate Protected(b: Bundle) {
    b.Rank() <= PROTECTED_MAX_RANK
  }

  // Every protected bundle of the input was delivered.
  predicate AllProtectedDelivered(bundles: seq<Bundle>, m: map<Bundle, Outcome>) {
    forall b :: b in bundles && Protected(b) ==> b in m && m[b].state == Delivered
  }

  predicate Safe(trace: Batch, gap: real, aware: bool, cap: real)
    requires 0.0 < cap && 0 < Bytes(trace)
  {
    AllProtectedDelivered(trace, Run(Trial(cap, aware), DrainPlan(gap, Bytes(trace)), trace))
  }

  function ProtectedBytes(trace: Batch): nat {
    Bytes(Urgency(PROTECTED_MAX_RANK, trace))
  }

  // Every protected bundle outlives the gap.
  predicate Survives(trace: seq<Bundle>, gap: real) {
    forall b :: b in trace && Protected(b) ==> gap < b.expiration
  }

  ghost predicate InGap(trace: seq<Bundle>, gap: real) {
    forall b :: b in trace ==> b.ingress < gap
  }

  // The one contact carries any part of the trace.
  lemma DrainIsAmple(cfg: Setup, trace: Batch, gap: real, part: Batch)
    requires 0 < Bytes(trace) && cfg.policy == StrictPriority && forall b :: b in part ==> b in trace
    ensures Ample(cfg, DrainPlan(gap, Bytes(trace)), part)
  {
    hide Drr.Pow2;
    var total := Bytes(trace);
    PartFits(part, trace);
    assert DrainWindow(gap, total).Budget() == 10.0 * (total * 80) as real;
    assert BitsOf(part) <= DrainWindow(gap, total).Budget();
  }

  lemma FirstIsOpen(gap: real, total: nat, t: real)
    requires 0 < total && t < gap
    ensures FirstOpen(DrainPlan(gap, total), t) == 0
  {
  }

  lemma EnoughIsSafe(trace: Batch, gap: real, cap: real)
    requires 0.0 < cap && 0 < Bytes(trace) && InGap(trace, gap)
    requires Fits(ProtectedBytes(trace), cap) && Survives(trace, gap)
    ensures Safe(trace, gap, true, cap)
  {
    hide Run, Urgency, Overflows, Ample, DrainPlan, Keep;
    var r := PROTECTED_MAX_RANK;
    var cfg := Trial(cap, true);
    var ws := DrainPlan(gap, Bytes(trace));
    var top := Urgency(r, trace);
    TopFatesAreReference(cfg, r, ws, trace);
    BigBufferLosesNothing(Reference(cfg), ws, top);
    UrgencyTwice(r, trace);
    DrainIsAmple(Reference(cfg), trace, gap, top);
    forall b | b in trace && Protected(b)
      ensures b in Run(cfg, ws, trace) && Run(cfg, ws, trace)[b].state == Delivered
    {
      FirstIsOpen(gap, Bytes(trace), b.ingress);
      PlanStart(gap, Bytes(trace));
      DeliveredAtFirstOpen(Reference(cfg), ws, top, b);
      KeepAt(RankAtMost(r), Run(cfg, ws, trace), b);
    }
  }

  lemma PlanStart(gap: real, total: nat)
    requires 0 < total
    ensures var ws := DrainPlan(gap, total); |ws| == 1 && ws[0] == DrainWindow(gap, total)
  {
  }

  lemma KeepAt(t: Test, m: map<Bundle, Outcome>, b: Bundle)
    ensures b in Keep(t, m) <==> b in m && t.Passes(b)
    ensures b in Keep(t, m) ==> Keep(t, m)[b] == m[b]
  {
  }

  lemma SafeLosesNone(trace: Batch, gap: real, cap: real)
    requires 0.0 < cap && 0 < Bytes(trace) && Safe(trace, gap, true, cap)
    ensures NoLoss(Reference(Trial(cap, true)), DrainPlan(gap, Bytes(trace)),
                   Urgency(PROTECTED_MAX_RANK, trace))
  {
    hide Run, Urgency, DrainPlan;
    ReferenceLosesNone(Trial(cap, true), PROTECTED_MAX_RANK, DrainPlan(gap, Bytes(trace)), trace);
  }

  // A run that loses nothing before its only window held everything at once.
  lemma NoLossHeldAll(cfg: Setup, w: Contacts.Window, bundles: Batch)
    requires w.Valid() && NoLoss(cfg, [w], bundles)
    requires forall b :: b in bundles ==> b.ingress <= w.end
    ensures Fits(Bytes(bundles), cfg.cap)
  {
    hide Run, NoLoss, AdmitAll, Clean;
    var ws: Plan := [w];
    var st := After(cfg, ws, bundles, 0);
    var a := Arrive(cfg, st, Some(w.end)).queue;
    SelectAll(IngressUpTo(w.end), bundles);
    var s := Sort(ByIngress, bundles);
    EveryStateSane(cfg, ws, bundles, 0);
    ReadyFacts(st, Some(w.end));
    NoLossCleanArrival(cfg, ws, bundles, 0);
    CleanAdmitAllSame(cfg.cap, cfg.cap, cfg.Aware(), cfg.Aware(), st.queue, s);
    AdmitAllKeeps(cfg.cap, cfg.Aware(), st.queue, s);
    assert a.active == [] + s == s;
    SortPermutes(ByIngress, bundles);
    BytesPermute(s, bundles);
  }

  lemma SafeIsEnough(trace: Batch, gap: real, cap: real)
    requires 0.0 < cap && 0 < Bytes(trace) && InGap(trace, gap) && Safe(trace, gap, true, cap)
    ensures Fits(ProtectedBytes(trace), cap) && Survives(trace, gap)
  {
    hide Run, Urgency, NoLoss, Bytes;
    var cfg := Trial(cap, true);
    var total := Bytes(trace);
    SafeLosesNone(trace, gap, cap);
    UrgencyTwice(PROTECTED_MAX_RANK, trace);
    assert DrainWindow(gap, total).Valid();
    NoLossHeldAll(Reference(cfg), DrainWindow(gap, total), Urgency(PROTECTED_MAX_RANK, trace));
    EveryRunIsTotal(cfg, DrainPlan(gap, total), trace);
  }

  // With priority-aware admission a cap is safe exactly when it holds the protected bytes and every
  // protected bundle outlives the gap.
  lemma SafeIff(trace: Batch, gap: real, cap: real)
    requires 0.0 < cap && 0 < Bytes(trace) && InGap(trace, gap)
    ensures Safe(trace, gap, true, cap) <==> Fits(ProtectedBytes(trace), cap) && Survives(trace, gap)
  {
    hide Safe, Survives, ProtectedBytes;
    if Safe(trace, gap, true, cap) { SafeIsEnough(trace, gap, cap); }
    if Fits(ProtectedBytes(trace), cap) && Survives(trace, gap) { EnoughIsSafe(trace, gap, cap); }
  }

  // A trace survives exactly when no protected class of the profile has a lifetime that ends within
  // the gap: each class has an arrival at its very start.
  lemma SurvivesIff(profile: seq<ClassLoad>, gap: real)
    requires 0.0 < gap
    ensures Survives(Trace(profile, gap), gap)
       <==> forall i :: 0 <= i < |profile| && Rank(profile[i].cls) <= PROTECTED_MAX_RANK ==>
              gap < Spec(profile[i].cls).defaultTtl
  {
    var trace := Trace(profile, gap);
    if Survives(trace, gap) {
      forall i | 0 <= i < |profile| && Rank(profile[i].cls) <= PROTECTED_MAX_RANK
        ensures gap < Spec(profile[i].cls).defaultTtl
      {
        var b := TraceStartsEveryClass(profile, gap, 1, i);
        assert Protected(b);
      }
    }
    if forall i :: 0 <= i < |profile| && Rank(profile[i].cls) <= PROTECTED_MAX_RANK ==>
         gap < Spec(profile[i].cls).defaultTtl {
      forall b | b in trace && Protected(b) ensures gap < b.expiration {
        TraceFacts(profile, gap, 1, b);
      }
    }
  }

  // ---------------------------------------------------------------- building the trace

  method MakeTrace(profile: seq<ClassLoad>, gap: real) returns (bundles: seq<Bundle>)
    ensures bundles == Trace(profile, gap)
  {
    hide ClassTrace;
    var id: nat := 0;
    bundles := [];
    for i := 0 to |profile|
      invariant bundles + TraceFrom(profile[i..], gap, id + 1) == TraceFrom(profile, gap, 1)
      invariant id == |bundles|
    {
      assert profile[i..][0] == profile[i] && profile[i..][1..] == profile[i + 1..];
      var first := Arrivals(profile[i], gap, id + 1);
      ghost var rest := TraceFrom(profile[i + 1..], gap, id + 1 + |first|);
      assert bundles + (first + rest) == bundles + first + rest;
      bundles := bundles + first;
      id := id + |first|;
    }
    assert profile[|profile|..] == [];
    assert bundles + [] == bundles;
  }

  method Arrivals(load: ClassLoad, gap: real, id: nat) returns (s: seq<Bundle>)
    ensures s == ClassTrace(load, gap, 0.0, id)
  {
    var t := 0.0;
    s := [];
    while t < gap
      invariant 0.0 <= t && s + ClassTrace(load, gap, t, id + |s|) == ClassTrace(load, gap, 0.0, id)
      decreases (gap - t) / Interval(load)
    {
      var b := Bundle(id + |s|, load.cls, load.bundleSize, t, t + Spec(load.cls).defaultTtl);
      ghost var tail := ClassTrace(load, gap, t + Interval(load), id + |s| + 1);
      assert s + ([b] + tail) == (s + [b]) + tail;
      IntervalStep(gap, t, Interval(load));
      s := s + [b];
      t := t + Interval(load);
    }
    assert s + [] == s;
  }

  // The k-th arrival of a class is at k intervals, and every multiple of the interval inside the gap is
  // there.
  lemma {:induction false} ArrivalTimes(load: ClassLoad, gap: real, t: real, id: nat, k: nat)
    ensures var s := ClassTrace(load, gap, t, id);
            && (k < |s| <==> t + k as real * Interval(load) < gap)
            && (k < |s| ==> s[k].ingress == t + k as real * Interval(load) && s[k].id == id + k
                            && s[k].cls == load.cls && s[k].size == load.bundleSize)
    decreases k
  {
    var step := Interval(load);
    if 0 < k {
      var j := (k - 1) as real;
      assert k as real == j + 1.0;
      assert (j + 1.0) * step == j * step + step;
      if t < gap {
        ArrivalTimes(load, gap, t + step, id + 1, k - 1);
      } else {
        NotNegative(k as real, step);
      }
    }
  }

  lemma NotNegative(a: real, b: real)
    requires 0.0 <= a && 0.0 <= b
    ensures 0.0 <= a * b
  {
  }

  // ---------------------------------------------------------------- the search

  datatype SizingError = NoTraffic

  // The width of the bracket after the last halving.
  function Width(total: nat): real {
    PowPositive(STEPS);
    (total - 1) as real / Drr.Pow2(STEPS) as real
  }

  // What the search returns, as its upper end: safe or never improved on, and the lower end of its last
  // bracket unsafe or never raised.
  ghost predicate Found(trace: Batch, gap: real, aware: bool, hi: real) {
    && 0 < Bytes(trace)
    && 0.0 < hi && 1.0 <= hi - Width(Bytes(trace))
    && (hi == Bytes(trace) as real || Safe(trace, gap, aware, hi))
    && (hi - Width(Bytes(trace)) == 1.0 || !Safe(trace, gap, aware, hi - Width(Bytes(trace))))
  }

  lemma {:induction false} PowPositive(n: nat)
    ensures 1 <= Drr.Pow2(n)
  {
    if 0 < n { PowPositive(n - 1); }
  }

  // After i halvings of the bracket [1, total].
  ghost predicate Halved(lo: real, hi: real, total: nat, i: nat) {
    1.0 <= lo <= hi && (hi - lo) * (Drr.Pow2(i) as real) == (total - 1) as real
  }

  lemma HalvedStep(lo: real, hi: real, total: nat, i: nat)
    requires Halved(lo, hi, total, i)
    ensures Halved((lo + hi) / 2.0, hi, total, i + 1) && Halved(lo, (lo + hi) / 2.0, total, i + 1)
  {
    var w, p := hi - lo, Drr.Pow2(i) as real;
    assert Drr.Pow2(i + 1) as real == 2.0 * p;
    assert (w / 2.0) * (2.0 * p) == w * p;
    assert hi - (lo + hi) / 2.0 == w / 2.0 && (lo + hi) / 2.0 - lo == w / 2.0;
  }

  lemma HalvedStart(total: nat)
    requires 0 < total
    ensures Halved(1.0, total as real, total, 0)
  {
  }

  lemma HalvedEnd(lo: real, hi: real, total: nat)
    requires Halved(lo, hi, total, STEPS)
    ensures lo == hi - Width(total)
  {
    PowPositive(STEPS);
    DivideOut(hi - lo, Drr.Pow2(STEPS) as real, (total - 1) as real);
  }

  lemma DivideOut(w: real, p: real, t: real)
    requires 0.0 < p && w * p == t
    ensures w == t / p
  {
  }

  method MinBuffer(profile: seq<ClassLoad>, gap: real, aware: bool) returns (r: Result<(real, nat), SizingError>)
    ensures r.Err? <==> Bytes(Trace(profile, gap)) == 0
    ensures r.Ok? ==> r.value.1 == Bytes(Trace(profile, gap))
    ensures r.Ok? ==> Found(Trace(profile, gap), gap, aware, r.value.0)
  {
    hide Safe, Trace, Halved, Width, Bytes;
    var trace := MakeTrace(profile, gap);
    var total := Bytes(trace);
    if total == 0 {
      return Err(NoTraffic);
    }
    var lo, hi := 1.0, total as real;
    HalvedStart(total);
    for i := 0 to STEPS
      invariant 1.0 <= lo <= hi && Halved(lo, hi, total, i)
      invariant hi == total as real || Safe(trace, gap, aware, hi)
      invariant lo == 1.0 || !Safe(trace, gap, aware, lo)
    {
      var mid := (lo + hi) / 2.0;
      HalvedStep(lo, hi, total, i);
      if Safe(trace, gap, aware, mid) {
        hi := mid;
      } else {
        lo := mid;
      }
    }
    HalvedEnd(lo, hi, total);
    return Ok((hi, total));
  }

  // Priority-aware and survivable: the search pins the protected bytes to within its last bracket.
  lemma SearchPinsProtectedBytes(trace: Batch, gap: real, hi: real)
    requires Found(trace, gap, true, hi) && InGap(trace, gap) && Survives(trace, gap)
    ensures ProtectedBytes(trace) as real <= hi
    ensures hi - Width(Bytes(trace)) < ProtectedBytes(trace) as real || hi - Width(Bytes(trace)) == 1.0
  {
    hide Safe, Urgency;
    SafeIff(trace, gap, hi);
    if hi - Width(Bytes(trace)) != 1.0 { SafeIff(trace, gap, hi - Width(Bytes(trace))); }
    UrgencyTwice(PROTECTED_MAX_RANK, trace);
    PartFits(Urgency(PROTECTED_MAX_RANK, trace), trace);
  }

  // A protected bundle that does not outlive the gap makes every cap unsafe, in either admission mode.
  lemma NeverSafe(trace: Batch, gap: real, aware: bool, cap: real)
    requires 0.0 < cap && 0 < Bytes(trace) && !Survives(trace, gap)
    ensures !Safe(trace, gap, aware, cap)
  {
    hide Run;
    var cfg := Trial(cap, aware);
    var ws := DrainPlan(gap, Bytes(trace));
    EveryRunIsTotal(cfg, ws, trace);
    var b :| b in trace && Protected(b) && b.expiration <= gap;
    NotDeliveredLate(cfg, ws, trace, b);
  }

  lemma NotDeliveredLate(cfg: Setup, ws: Plan, bundles: Batch, b: Bundle)
    requires b in bundles && forall k :: 0 <= k < |ws| ==> b.expiration <= ws[k].start
    ensures b in Run(cfg, ws, bundles)
    ensures Run(cfg, ws, bundles)[b].state != Delivered
  {
    hide Run;
    EveryRunIsTotal(cfg, ws, bundles);
  }

  // Then the search learns nothing: it returns the whole trace, whatever the admission mode.
  lemma SearchFindsNothing(trace: Batch, gap: real, aware: bool, hi: real)
    requires Found(trace, gap, aware, hi) && !Survives(trace, gap)
    ensures hi == Bytes(trace) as real
  {
    hide Safe;
    if Safe(trace, gap, aware, hi) { NeverSafe(trace, gap, aware, hi); }
  }

  // The mission profile the analysis ships with.
  const MISSION_PROFILE: seq<ClassLoad> := [
    ClassLoad(Emergency, 128.0 / 60.0, 128),
    ClassLoad(Telemetry, 2000.0, 8192),
    ClassLoad(ScienceBulk, 250000.0, 65536)
  ]

  // Emergency bundles live 300 seconds: over any gap of at least that, such as the 2000 seconds of the
  // validation run, both searches on the shipped profile return the whole backlog.
  lemma MissionSearchFindsNothing(gap: real, aware: bool, hi: real)
    requires 300.0 <= gap && Found(Trace(MISSION_PROFILE, gap), gap, aware, hi)
    ensures hi == Bytes(Trace(MISSION_PROFILE, gap)) as real
  {
    assert MISSION_PROFILE[0].cls == Emergency;
    SurvivesIff(MISSION_PROFILE, gap);
    SearchFindsNothing(Trace(MISSION_PROFILE, gap), gap, aware, hi);
  }
}
