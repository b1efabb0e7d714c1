/** What the class table makes of a run: how long each class can wait, which classes matter to which, and
    what the mission profile needs. */
module ClassTable {
  import opened Traffic
  import opened Telemetry
  import opened Selection
  import opened Admission
  import opened Policies
  import opened Replay
  import opened Interference
  import opened Lifetime
  import opened Prediction
  import opened Sizing
  import opened Wrappers
  import Fates
  import Drr

  // ---------------------------------------------------------------- lifetimes

  // How long a bundle of each class lives unless told otherwise: five minutes, an hour, sixteen hours, an
  // hour.
  function Seconds(c: TrafficClass): real {
    match c
    case Emergency => 5.0 * 60.0
    case Telemetry => 3600.0
    case ScienceBulk => 16.0 * 3600.0
    case Media => 3600.0
  }

  // With a buffer for everything and ample windows, a bundle with its class's default lifetime is delivered
  // exactly when it arrives in a contact or the next one opens within these seconds.
  lemma DefaultLifetimesReach(cfg: Setup, ws: Plan, bundles: Batch, b: Bundle)
    requires Ample(cfg, ws, bundles) && Fits(Bytes(bundles), cfg.cap) && b in bundles
    requires b.expiration == b.ingress + Spec(b.cls).defaultTtl
    ensures b in Run(cfg, ws, bundles)
    ensures Run(cfg, ws, bundles)[b].state == Delivered <==> PredictOne(b.ingress, Spans(ws), Seconds(b.cls))
  {
    hide Run, Ample, Spans, PredictOne;
    SchedulerImplementsLaw(cfg, ws, bundles, b, Seconds(b.cls));
  }

  // The mission's protected classes in seconds: over a gap every emergency bundle needs more than five
  // minutes' worth of lifetime and every telemetry bundle more than an hour's.
  lemma SurvivesInSeconds(profile: seq<ClassLoad>, gap: real)
    requires 0.0 < gap
    ensures Survives(Trace(profile, gap), gap)
       <==> forall i :: 0 <= i < |profile| ==>
              && (profile[i].cls == Emergency ==> gap < 300.0)
              && (profile[i].cls == Telemetry ==> gap < 3600.0)
  {
    SurvivesIff(profile, gap);
  }

  // ---------------------------------------------------------------- which classes matter to which

  lemma WithoutClasses(bundles: Batch, r: int, others: Batch)
    requires others == Select(RankAtMost(r), bundles)
    ensures Urgency(r, others) == Urgency(r, bundles)
  {
    SelectMember(RankAtMost(r), bundles);
    SelectAll(RankAtMost(r), others);
  }

  // Under strict priority with priority-aware admission media traffic never matters to any other class.
  lemma MediaNeverMatters(cfg: Setup, ws: Plan, bundles: Batch, others: Batch, b: Bundle)
    requires cfg.policy == StrictPriority && cfg.priorityAware != Some(false)
    requires others == Select(OutsideClass(Media), bundles)
    requires b in bundles && b.cls != Media
    ensures b in Run(cfg, ws, bundles) && b in Run(cfg, ws, others)
    ensures Run(cfg, ws, bundles)[b] == Run(cfg, ws, others)[b]
  {
    hide Run, Urgency;
    SelectAgree(OutsideClass(Media), RankAtMost(2), bundles);
    WithoutClasses(bundles, 2, others);
    TopFatesIgnoreTheRest(cfg, 2, ws, bundles, others, b);
  }

  // Neither science nor media matters to emergency and telemetry traffic.
  lemma ScienceAndMediaNeverMatter(cfg: Setup, ws: Plan, bundles: Batch, others: Batch, b: Bundle)
    requires cfg.policy == StrictPriority && cfg.priorityAware != Some(false)
    requires others == Select(OutsideClass(Media), Select(OutsideClass(ScienceBulk), bundles))
    requires b in bundles && (b.cls == Emergency || b.cls == Telemetry)
    ensures b in Run(cfg, ws, bundles) && b in Run(cfg, ws, others)
    ensures Run(cfg, ws, bundles)[b] == Run(cfg, ws, others)[b]
  {
    hide Run, Urgency;
    BelowTelemetry(bundles);
    WithoutClasses(bundles, 1, others);
    TopFatesIgnoreTheRest(cfg, 1, ws, bundles, others, b);
  }

  lemma {:induction false} BelowTelemetry(s: seq<Bundle>)
    ensures Select(OutsideClass(Media), Select(OutsideClass(ScienceBulk), s)) == Select(RankAtMost(1), s)
  {
    if s != [] { BelowTelemetry(s[1..]); }
  }

  // And nothing but emergency traffic matters to emergency traffic, under both round robins as well.
  lemma OnlyEmergencyMatters(cfg: Setup, ws: Plan, bundles: Batch, others: Batch, b: Bundle)
    requires cfg.policy == StrictPriority || cfg.policy == Wfq || cfg.policy == WfqSkipOver
    requires cfg.priorityAware != Some(false)
    requires others == Select(OfClass(Emergency), bundles)
    requires b in bundles && b.cls == Emergency
    ensures b in Run(cfg, ws, bundles) && b in Run(cfg, ws, others)
    ensures Run(cfg, ws, bundles)[b] == Run(cfg, ws, others)[b]
  {
    hide Run, Urgency, Keep;
    SelectAgree(OfClass(Emergency), RankAtMost(0), bundles);
    WithoutClasses(bundles, 0, others);
    UrgencyTwice(0, bundles);
    UrgencyTwice(0, others);
    TopFatesAreReference(cfg, 0, ws, bundles);
    TopFatesAreReference(cfg, 0, ws, others);
    Fates.EveryRunIsTotal(cfg, ws, bundles);
    Fates.EveryRunIsTotal(cfg, ws, others);
    KeepAt(RankAtMost(0), Run(cfg, ws, bundles), b);
    KeepAt(RankAtMost(0), Run(cfg, ws, others), b);
  }

  // ---------------------------------------------------------------- the mission profile

  // A class's trace holds n bundles when exactly the first n multiples of its interval fall inside the gap.
  lemma TraceLength(load: ClassLoad, gap: real, id: nat, n: nat)
    requires 0 < n && (n - 1) as real * Interval(load) < gap <= n as real * Interval(load)
    ensures |ClassTrace(load, gap, 0.0, id)| == n
  {
    hide Interval, ClassTrace;
    ArrivalTimes(load, gap, 0.0, id, n - 1);
    ArrivalTimes(load, gap, 0.0, id, n);
  }

  lemma {:induction false} ClassTraceBytes(load: ClassLoad, gap: real, t: real, id: nat)
    ensures Bytes(ClassTrace(load, gap, t, id)) == load.bundleSize * |ClassTrace(load, gap, t, id)|
    ensures forall b :: b in ClassTrace(load, gap, t, id) ==> b.cls == load.cls
    decreases (gap - t) / Interval(load)
  {
    if t < gap {
      IntervalStep(gap, t, Interval(load));
      ClassTraceBytes(load, gap, t + Interval(load), id + 1);
      var rest := ClassTrace(load, gap, t + Interval(load), id + 1);
      var first := Bundle(id, load.cls, load.bundleSize, t, t + Spec(load.cls).defaultTtl);
      assert ([first] + rest)[1..] == rest;
      assert load.bundleSize * (1 + |rest|) == load.bundleSize + load.bundleSize * |rest|;
    }
  }

  lemma MissionIntervals()
    ensures Interval(MISSION_PROFILE[0]) == 60.0
    ensures Interval(MISSION_PROFILE[1]) == 4.096
    ensures Interval(MISSION_PROFILE[2]) == 0.262144
  {
  }

  // The validation run's trace of 2000 seconds, to the byte: 34 alerts, 489 telemetry and 7,630 science
  // bundles, of which the protected ones make 4.01 of 504.05 megabytes.
  lemma MissionBacklog()
    ensures ProtectedBytes(Trace(MISSION_PROFILE, 2000.0)) == 34 * 128 + 489 * 8192 == 4_010_240
    ensures Bytes(Trace(MISSION_PROFILE, 2000.0)) == 4_010_240 + 7630 * 65536 == 504_049_920
  {
    hide ClassTrace, Interval, Bytes, Select;
    var e, t, s := MISSION_PROFILE[0], MISSION_PROFILE[1], MISSION_PROFILE[2];
    var x := ClassTrace(e, 2000.0, 0.0, 1);
    var y := ClassTrace(t, 2000.0, 0.0, 1 + |x|);
    var z := ClassTrace(s, 2000.0, 0.0, 1 + |x| + |y|);
    MissionIntervals();
    TraceLength(e, 2000.0, 1, 34);
    TraceLength(t, 2000.0, 1 + |x|, 489);
    TraceLength(s, 2000.0, 1 + |x| + |y|, 7630);
    ClassTraceBytes(e, 2000.0, 0.0, 1);
    ClassTraceBytes(t, 2000.0, 0.0, 1 + |x|);
    ClassTraceBytes(s, 2000.0, 0.0, 1 + |x| + |y|);
    ThreeClassTrace(MISSION_PROFILE, 2000.0, x, y, z);
    BytesAppend(x, y + z);
    BytesAppend(y, z);
    SelectAppend(RankAtMost(1), x, y + z);
    SelectAppend(RankAtMost(1), y, z);
    SelectAll(RankAtMost(1), x);
    SelectAll(RankAtMost(1), y);
    SelectNone(RankAtMost(1), z);
    BytesAppend(x, y);
    assert x + (y + []) == x + y;
  }

  lemma TraceOneMore(profile: seq<ClassLoad>, gap: real, id: nat)
    requires profile != []
    ensures var first := ClassTrace(profile[0], gap, 0.0, id);
            TraceFrom(profile, gap, id) == first + TraceFrom(profile[1..], gap, id + |first|)
  {
    hide ClassTrace;
  }

  lemma TailsOfThree(profile: seq<ClassLoad>)
    requires |profile| == 3
    ensures profile[1..][0] == profile[1] && profile[1..][1..][0] == profile[2] && profile[1..][1..][1..] == []
  {
  }

  lemma ThreeClassTrace(profile: seq<ClassLoad>, gap: real, x: seq<Bundle>, y: seq<Bundle>, z: seq<Bundle>)
    requires |profile| == 3
    requires x == ClassTrace(profile[0], gap, 0.0, 1)
    requires y == ClassTrace(profile[1], gap, 0.0, 1 + |x|)
    requires z == ClassTrace(profile[2], gap, 0.0, 1 + |x| + |y|)
    ensures Trace(profile, gap) == x + (y + z)
  {
    hide *;
    var rest := profile[1..];
    var last := rest[1..];
    TailsOfThree(profile);
    TraceIsFrom(profile, gap);
    TraceOneMore(profile, gap, 1);
    TraceOneMore(rest, gap, 1 + |x|);
    TraceOneMore(last, gap, 1 + |x| + |y|);
    NoTrace(gap, 1 + |x| + |y| + |z|);
    assert z + [] == z;
  }

  lemma TraceIsFrom(profile: seq<ClassLoad>, gap: real)
    ensures Trace(profile, gap) == TraceFrom(profile, gap, 1)
  {
    hide TraceFrom;
  }

  lemma NoTrace(gap: real, id: nat)
    ensures TraceFrom([], gap, id) == []
  {
  }

  // The search halves its bracket forty times: for a profile that survives the gap its result is above the
  // protected bytes by at most the 1,099,511,627,776th part of the backlog, unless its lower end never moved.
  lemma SearchPrecision(trace: Batch, gap: real, hi: real)
    requires Found(trace, gap, true, hi) && InGap(trace, gap) && Survives(trace, gap)
    ensures var width := (Bytes(trace) - 1) as real / 1_099_511_627_776.0;
            && ProtectedBytes(trace) as real <= hi
            && (hi < ProtectedBytes(trace) as real + width || hi == 1.0 + width)
  {
    hide Safe, ProtectedBytes, Bytes;
    SearchPinsProtectedBytes(trace, gap, hi);
    FortyHalvings();
  }

  lemma FortyHalvings()
    ensures Drr.Pow2(STEPS) == 1_099_511_627_776
  {
    assert Drr.Pow2(10) == 1024;
    Doubled(10, 10);
    Doubled(20, 20);
  }

  lemma {:induction false} Doubled(m: nat, n: nat)
    ensures Drr.Pow2(m + n) == Drr.Pow2(m) * Drr.Pow2(n)
  {
    if n == 0 {
    } else {
      Doubled(m, n - 1);
      assert Drr.Pow2(m) * (2 * Drr.Pow2(n - 1)) == 2 * (Drr.Pow2(m) * Drr.Pow2(n - 1));
    }
  }

  // The search's one contact could carry the whole trace a hundred times over.
  lemma DrainCarriesHundredfold(gap: real, trace: Batch)
    ensures DrainWindow(gap, Bytes(trace)).Budget() == 100.0 * BitsOf(trace)
  {
    hide Bytes;
  }
}
