/** The analytical buffer figures, rate times gap, against the bytes a trace of the gap really holds. */
module Analytical {
  import opened Traffic
  import opened Telemetry
  import opened Selection
  import opened Sizing
  import Conservation

  // Bytes per second, and one bundle each, of the classes up to rank r.
  function RateUpTo(profile: seq<ClassLoad>, r: int): real {
    if profile == [] then 0.0
    else (if Rank(profile[0].cls) <= r then profile[0].byteRate else 0.0) + RateUpTo(profile[1..], r)
  }

  function OneOfEach(profile: seq<ClassLoad>, r: int): nat {
    if profile == [] then 0
    else (if Rank(profile[0].cls) <= r then profile[0].bundleSize else 0) + OneOfEach(profile[1..], r)
  }

  // The figure the analysis reports: the rate over the gap.
  function Figure(profile: seq<ClassLoad>, r: int, gap: real): real {
    RateUpTo(profile, r) * gap
  }

  // The gap is a whole number of the class's intervals.
  ghost predicate Divides(load: ClassLoad, gap: real) {
    exists n: nat :: Times(n, load) == gap
  }

  function Times(n: nat, load: ClassLoad): real {
    n as real * Interval(load)
  }

  // ---------------------------------------------------------------- one class

  lemma ClassCount(load: ClassLoad, gap: real, id: nat)
    requires 0.0 < gap
    ensures var n := |ClassTrace(load, gap, 0.0, id)|;
            && 0 < n && Times(n - 1, load) < gap <= Times(n, load)
            && Bytes(ClassTrace(load, gap, 0.0, id)) == n * load.bundleSize
  {
    var s := ClassTrace(load, gap, 0.0, id);
    ArrivalTimes(load, gap, 0.0, id, |s|);
    ArrivalTimes(load, gap, 0.0, id, 0);
    ArrivalTimes(load, gap, 0.0, id, |s| - 1);
    forall b | b in s ensures b.size == load.bundleSize {
      var k :| 0 <= k < |s| && s[k] == b;
      ArrivalTimes(load, gap, 0.0, id, k);
    }
    Conservation.UniformBytes(s, load.bundleSize);
  }

  function ClassFigure(load: ClassLoad, gap: real): real {
    load.byteRate * gap
  }

  // What n intervals' worth of the class's rate amounts to.
  lemma RateTimes(load: ClassLoad, n: nat)
    ensures ClassFigure(load, Times(n, load)) == (n * load.bundleSize) as real
  {
    var i, r, k := Interval(load), load.byteRate, n as real;
    assert r * i == load.bundleSize as real;
    assert r * (k * i) == k * (r * i);
    assert (n * load.bundleSize) as real == k * load.bundleSize as real;
  }

  lemma RateMono(load: ClassLoad, a: real, b: real)
    ensures a <= b ==> ClassFigure(load, a) <= ClassFigure(load, b)
    ensures a < b ==> ClassFigure(load, a) < ClassFigure(load, b)
  {
  }

  lemma TimesOrder(load: ClassLoad, a: nat, b: nat)
    ensures a <= b ==> Times(a, load) <= Times(b, load)
    ensures a < b ==> Times(a, load) < Times(b, load)
  {
  }

  lemma DividesIff(load: ClassLoad, gap: real, n: nat)
    requires 0 < n && Times(n - 1, load) < gap <= Times(n, load)
    ensures Divides(load, gap) <==> gap == Times(n, load)
  {
    hide Times;
    if Divides(load, gap) {
      var k: nat :| Times(k, load) == gap;
      TimesOrder(load, k, n - 1);
      TimesOrder(load, n, k);
    }
  }

  lemma OneFewer(load: ClassLoad, n: nat)
    requires 0 < n
    ensures (n * load.bundleSize) as real == ((n - 1) * load.bundleSize) as real + load.bundleSize as real
  {
    assert n * load.bundleSize == (n - 1) * load.bundleSize + load.bundleSize;
  }

  // One class holds at least its rate over the gap, less than one bundle more, and exactly that much
  // when its interval divides the gap.
  lemma ClassBytes(load: ClassLoad, gap: real, id: nat)
    requires 0.0 < gap
    ensures var bytes := Bytes(ClassTrace(load, gap, 0.0, id)) as real;
            && ClassFigure(load, gap) <= bytes < ClassFigure(load, gap) + load.bundleSize as real
            && (bytes == ClassFigure(load, gap) <==> Divides(load, gap))
  {
    hide ClassFigure, Times, Divides, ClassTrace, Bytes;
    var n := |ClassTrace(load, gap, 0.0, id)|;
    ClassCount(load, gap, id);
    RateTimes(load, n);
    RateTimes(load, n - 1);
    OneFewer(load, n);
    RateMono(load, gap, Times(n, load));
    RateMono(load, Times(n - 1, load), gap);
    DividesIff(load, gap, n);
  }

  // ---------------------------------------------------------------- a profile

  function BytesUpTo(s: seq<Bundle>, r: int): nat {
    Bytes(Select(RankAtMost(r), s))
  }

  lemma BytesUpToCons(profile: seq<ClassLoad>, gap: real, id: nat, r: int)
    requires profile != []
    ensures var first := ClassTrace(profile[0], gap, 0.0, id);
            var own := if Rank(profile[0].cls) <= r then Bytes(first) else 0;
            BytesUpTo(TraceFrom(profile, gap, id), r) == own + BytesUpTo(TraceFrom(profile[1..], gap, id + |first|), r)
  {
    var first := ClassTrace(profile[0], gap, 0.0, id);
    var rest := TraceFrom(profile[1..], gap, id + |first|);
    ClassTraceFacts(profile[0], gap, 0.0, id);
    SelectAppend(RankAtMost(r), first, rest);
    BytesAppend(Select(RankAtMost(r), first), Select(RankAtMost(r), rest));
    if Rank(profile[0].cls) <= r {
      SelectAll(RankAtMost(r), first);
    } else {
      SelectNone(RankAtMost(r), first);
    }
  }

  lemma FigureCons(profile: seq<ClassLoad>, r: int, gap: real)
    requires profile != []
    ensures Figure(profile, r, gap)
         == (if Rank(profile[0].cls) <= r then ClassFigure(profile[0], gap) else 0.0) + Figure(profile[1..], r, gap)
  {
  }

  ghost predicate AllDivide(profile: seq<ClassLoad>, r: int, gap: real) {
    forall i :: 0 <= i < |profile| && Rank(profile[i].cls) <= r ==> Divides(profile[i], gap)
  }

  lemma AllDivideCons(profile: seq<ClassLoad>, r: int, gap: real)
    requires profile != []
    ensures AllDivide(profile, r, gap)
       <==> (Rank(profile[0].cls) <= r ==> Divides(profile[0], gap)) && AllDivide(profile[1..], r, gap)
  {
    hide Divides;
    if (Rank(profile[0].cls) <= r ==> Divides(profile[0], gap)) && AllDivide(profile[1..], r, gap) {
      forall i | 0 <= i < |profile| && Rank(profile[i].cls) <= r ensures Divides(profile[i], gap) {
        if 0 < i { assert profile[i] == profile[1..][i - 1]; }
      }
    }
    if AllDivide(profile, r, gap) {
      forall i | 0 <= i < |profile[1..]| && Rank(profile[1..][i].cls) <= r ensures Divides(profile[1..][i], gap) {
        assert profile[1..][i] == profile[i + 1];
      }
    }
  }

  lemma {:induction false} FigurePositive(profile: seq<ClassLoad>, r: int, gap: real)
    requires 0.0 < gap
    ensures 0.0 <= Figure(profile, r, gap)
    ensures 0 < OneOfEach(profile, r) ==> 0.0 < Figure(profile, r, gap)
  {
    hide Figure;
    if profile == [] {
      NoClasses(r, gap);
    } else {
      FigureCons(profile, r, gap);
      RateMono(profile[0], 0.0, gap);
      FigurePositive(profile[1..], r, gap);
    }
  }

  // For the classes up to rank r the trace holds at least the figure and less than one bundle of each
  // class more.
  lemma {:induction false} FigureBounds(profile: seq<ClassLoad>, r: int, gap: real, id: nat)
    requires 0.0 < gap
    ensures var bytes := BytesUpTo(TraceFrom(profile, gap, id), r) as real;
            && Figure(profile, r, gap) <= bytes <= Figure(profile, r, gap) + OneOfEach(profile, r) as real
            && (0 < OneOfEach(profile, r) ==> bytes < Figure(profile, r, gap) + OneOfEach(profile, r) as real)
  {
    hide Figure, ClassFigure, BytesUpTo, ClassTrace, Divides, TraceFrom, Rank, Bytes;
    if profile == [] {
      NoClasses(r, gap);
      NoTrace(gap, id);
    } else {
      var first := ClassTrace(profile[0], gap, 0.0, id);
      BytesUpToCons(profile, gap, id, r);
      FigureCons(profile, r, gap);
      ClassBytes(profile[0], gap, id);
      FigureBounds(profile[1..], r, gap, id + |first|);
    }
  }

  // It holds exactly the figure when every interval divides the gap.
  lemma {:induction false} FigureExactIff(profile: seq<ClassLoad>, r: int, gap: real, id: nat)
    requires 0.0 < gap
    ensures BytesUpTo(TraceFrom(profile, gap, id), r) as real == Figure(profile, r, gap) <==> AllDivide(profile, r, gap)
  {
    hide Figure, ClassFigure, BytesUpTo, ClassTrace, Divides, TraceFrom, AllDivide, Rank, OneOfEach, Bytes;
    if profile == [] {
      NoClasses(r, gap);
      NoTrace(gap, id);
    } else {
      var first := ClassTrace(profile[0], gap, 0.0, id);
      BytesUpToCons(profile, gap, id, r);
      FigureCons(profile, r, gap);
      AllDivideCons(profile, r, gap);
      ClassBytes(profile[0], gap, id);
      FigureBounds(profile[1..], r, gap, id + |first|);
      FigureExactIff(profile[1..], r, gap, id + |first|);
    }
  }

  lemma NoTrace(gap: real, id: nat)
    ensures TraceFrom([], gap, id) == []
  {
  }

  lemma NoClasses(r: int, gap: real)
    ensures Figure([], r, gap) == 0.0 && BytesUpTo([], r) == 0 && AllDivide([], r, gap)
  {
  }

  // ---------------------------------------------------------------- the two figures as buffer sizes

  lemma TraceParts(profile: seq<ClassLoad>, gap: real)
    ensures var trace := Trace(profile, gap);
            && InGap(trace, gap) && ProtectedBytes(trace) == BytesUpTo(trace, PROTECTED_MAX_RANK)
            && ProtectedBytes(trace) <= Bytes(trace) && BytesUpTo(trace, 3) == Bytes(trace)
  {
    hide TraceFrom;
    var trace := Trace(profile, gap);
    forall b | b in trace ensures b.ingress < gap {
      TraceFacts(profile, gap, 1, b);
    }
    BytesSplit(RankAtMost(PROTECTED_MAX_RANK), trace);
    SelectAll(RankAtMost(3), trace);
  }

  // The priority-aware figure is within one protected bundle per class of what is needed, and is itself
  // a safe cap exactly when every protected interval divides the gap and the protected classes outlive it.
  lemma CriticalFigureSafeIff(profile: seq<ClassLoad>, gap: real)
    requires 0.0 < gap && 0 < OneOfEach(profile, PROTECTED_MAX_RANK)
    ensures var cap := Figure(profile, PROTECTED_MAX_RANK, gap);
            var trace := Trace(profile, gap);
            && 0.0 < cap && 0 < Bytes(trace)
            && cap <= ProtectedBytes(trace) as real < cap + OneOfEach(profile, PROTECTED_MAX_RANK) as real
            && (Safe(trace, gap, true, cap)
                <==> AllDivide(profile, PROTECTED_MAX_RANK, gap) && Survives(trace, gap))
  {
    hide TraceFrom, Safe, AllDivide, Survives, Figure, BytesUpTo, ProtectedBytes;
    TraceParts(profile, gap);
    FigureBounds(profile, PROTECTED_MAX_RANK, gap, 1);
    FigureExactIff(profile, PROTECTED_MAX_RANK, gap, 1);
    FigurePositive(profile, PROTECTED_MAX_RANK, gap);
    SafeIff(Trace(profile, gap), gap, Figure(profile, PROTECTED_MAX_RANK, gap));
  }

  // The native figure is within one bundle per class of the whole backlog.
  lemma NativeFigureBounds(profile: seq<ClassLoad>, gap: real)
    requires 0.0 < gap && profile != []
    ensures var figure := Figure(profile, 3, gap);
            figure <= Bytes(Trace(profile, gap)) as real < figure + OneOfEach(profile, 3) as real
  {
    hide TraceFrom, Figure, BytesUpTo;
    TraceParts(profile, gap);
    FigureBounds(profile, 3, gap, 1);
    assert Rank(profile[0].cls) <= 3;
  }
}
