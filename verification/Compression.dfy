/** What time compression does to a schedule: every end goes to the nearest whole unit, and the contact
    time, the gaps and the law's numerator move by no more than that. */
module Compression {
  import opened Prediction

  // The nearest whole number, and the even one when two are equally near.
  ghost predicate Nearest(n: int, x: real) {
    var off := n as real - x;
    -0.5 <= off <= 0.5 && (off == -0.5 || off == 0.5 ==> n % 2 == 0)
  }

  lemma OnlyOneNearest(n: int, m: int, x: real)
    requires Nearest(n, x) && Nearest(m, x)
    ensures n == m
  {
    WholeStep(n, m);
    WholeStep(m, n);
  }

  lemma WholeStep(n: int, m: int)
    ensures n < m ==> n as real + 1.0 <= m as real
  {
  }

  lemma RoundIsNearest(x: real)
    ensures Nearest(Round(x), x)
  {
  }

  lemma {:induction false} CompressFromAt(plan: seq<Span>, s0: real, k: real, i: nat)
    requires 0.0 < k && i < |plan|
    ensures |CompressFrom(plan, s0, k)| == |plan|
    ensures var w := CompressFrom(plan, s0, k)[i];
            Nearest(w.start, (plan[i].start - s0) / k) && Nearest(w.end, (plan[i].end - s0) / k)
  {
    hide Round, Nearest;
    RoundIsNearest((plan[0].start - s0) / k);
    RoundIsNearest((plan[0].end - s0) / k);
    if 1 < |plan| {
      CompressFromAt(plan[1..], s0, k, if 0 < i then i - 1 else 0);
    }
  }

  // Every window's two ends, counted from the first window's start and scaled, go to the nearest unit.
  lemma CompressedEnds(plan: seq<Span>, k: real, i: nat)
    requires plan != [] && 0.0 < k && i < |plan|
    ensures |Compressed(plan, k)| == |plan|
    ensures var w := Compressed(plan, k)[i];
            && Nearest(w.start, (plan[i].start - plan[0].start) / k)
            && Nearest(w.end, (plan[i].end - plan[0].start) / k)
  {
    CompressFromAt(plan, plan[0].start, k, i);
  }

  // ---------------------------------------------------------------- lengths

  ghost predicate Within(x: real, y: real, slack: real) {
    -slack <= x - y <= slack
  }

  // Two rounded ends are as far apart as the scaled ones, to within a unit.
  lemma NearestApart(a: int, b: int, s: real, t: real, s0: real, k: real)
    requires 0.0 < k && Nearest(a, (s - s0) / k) && Nearest(b, (t - s0) / k)
    ensures Within((b - a) as real, (t - s) / k, 1.0)
  {
    assert (t - s0) / k - (s - s0) / k == (t - s) / k;
  }

  // No contact and no gap changes by more than one unit.
  lemma LengthsKept(plan: seq<Span>, k: real, i: nat)
    requires plan != [] && 0.0 < k && i < |plan|
    ensures |Compressed(plan, k)| == |plan|
    ensures var w := Compressed(plan, k);
            && Within((w[i].end - w[i].start) as real, (plan[i].end - plan[i].start) / k, 1.0)
            && (i + 1 < |plan| ==>
                  Within((w[i + 1].start - w[i].end) as real, (plan[i + 1].start - plan[i].end) / k, 1.0))
  {
    hide Compressed, Nearest;
    CompressedEnds(plan, k, i);
    var w := Compressed(plan, k);
    NearestApart(w[i].start, w[i].end, plan[i].start, plan[i].end, plan[0].start, k);
    if i + 1 < |plan| {
      CompressedEnds(plan, k, i + 1);
      NearestApart(w[i].end, w[i + 1].start, plan[i].end, plan[i + 1].start, plan[0].start, k);
    }
  }

  // ---------------------------------------------------------------- the law's numerator

  function Least(a: real, b: real): real {
    if a <= b then a else b
  }

  function OpenTime(plan: seq<Span>): real {
    if plan == [] then 0.0 else plan[0].end - plan[0].start + OpenTime(plan[1..])
  }

  function BridgedTime(plan: seq<Span>, lifetime: real): real {
    if |plan| < 2 then 0.0
    else Least(lifetime, plan[1].start - plan[0].end) + BridgedTime(plan[1..], lifetime)
  }

  lemma WithinSum(a: real, b: real, x: real, y: real, p: real, q: real, k: real)
    requires 0.0 < k && Within(a, x / k, p) && Within(b, y / k, q)
    ensures Within(a + b, (x + y) / k, p + q)
  {
    assert (x + y) / k == x / k + y / k;
  }

  lemma {:induction false} OpenTimeKept(plan: seq<Span>, s0: real, k: real)
    requires 0.0 < k
    ensures Within(ContactTime(CompressFrom(plan, s0, k)) as real, OpenTime(plan) / k, |plan| as real)
  {
    hide Round, Nearest, Within;
    if plan == [] {
      NothingKept(s0, k);
    } else {
      var a, b := plan[0].start, plan[0].end;
      RoundIsNearest((a - s0) / k);
      RoundIsNearest((b - s0) / k);
      var p, q := Round((a - s0) / k), Round((b - s0) / k);
      NearestApart(p, q, a, b, s0, k);
      OpenTimeKept(plan[1..], s0, k);
      var rest := ContactTime(CompressFrom(plan[1..], s0, k));
      WithinSum((q - p) as real, rest as real, b - a, OpenTime(plan[1..]), 1.0, |plan[1..]| as real, k);
      assert CompressFrom(plan, s0, k)[1..] == CompressFrom(plan[1..], s0, k);
      assert ContactTime(CompressFrom(plan, s0, k)) == (q - p) + rest;
      assert |plan| as real == 1.0 + |plan[1..]| as real;
    }
  }

  lemma NothingKept(s0: real, k: real)
    requires 0.0 < k
    ensures Within(ContactTime(CompressFrom([], s0, k)) as real, OpenTime([]) / k, 0.0)
  {
  }

  lemma ScaledLeast(x: real, gap: real, k: real)
    requires 0.0 < k
    ensures Least(x * k, gap) / k == Least(x, gap / k)
  {
    assert (x * k) / k == x;
    DivideOrder(x * k, gap, k);
  }

  lemma LeastNear(l: int, a: int, y: real)
    requires Within(a as real, y, 1.0)
    ensures Within(Min(l, a) as real, Least(l as real, y), 1.0)
  {
  }

  lemma LeastKept(l: int, a: int, gap: real, k: real)
    requires 0.0 < k && Within(a as real, gap / k, 1.0)
    ensures Within(Min(l, a) as real, Least(l as real * k, gap) / k, 1.0)
  {
    hide Within, Least, Min;
    ScaledLeast(l as real, gap, k);
    LeastNear(l, a, gap / k);
  }

  lemma DivideOrder(a: real, b: real, k: real)
    requires 0.0 < k
    ensures a <= b <==> a / k <= b / k
  {
    assert a == (a / k) * k && b == (b / k) * k;
    if a / k <= b / k {
      var d := b / k - a / k;
      assert b - a == d * k;
    } else {
      var d := a / k - b / k;
      assert a - b == d * k;
    }
  }

  lemma {:induction false} BridgedTimeKept(plan: seq<Span>, s0: real, k: real, l: int)
    requires plan != [] && 0.0 < k
    ensures Within(BridgedGaps(CompressFrom(plan, s0, k), l) as real,
                   BridgedTime(plan, l as real * k) / k, (|plan| - 1) as real)
  {
    hide Round, Nearest, Within, Least, Min;
    var w, t := CompressFrom(plan, s0, k), l as real * k;
    if |plan| == 1 {
      OneWindowKept(plan, s0, k, l);
    } else {
      var rest := plan[1..];
      CompressFromAt(plan, s0, k, 0);
      CompressFromAt(plan, s0, k, 1);
      NearestApart(w[0].end, w[1].start, plan[0].end, plan[1].start, s0, k);
      LeastKept(l, w[1].start - w[0].end, plan[1].start - plan[0].end, k);
      BridgedTimeKept(rest, s0, k, l);
      assert w[1..] == CompressFrom(rest, s0, k);
      WithinSum(Min(l, w[1].start - w[0].end) as real, BridgedGaps(w[1..], l) as real,
                Least(t, plan[1].start - plan[0].end), BridgedTime(rest, t), 1.0, (|rest| - 1) as real, k);
      assert (|plan| - 1) as real == 1.0 + (|rest| - 1) as real;
    }
  }

  lemma OneWindowKept(plan: seq<Span>, s0: real, k: real, l: int)
    requires |plan| == 1 && 0.0 < k
    ensures Within(BridgedGaps(CompressFrom(plan, s0, k), l) as real, BridgedTime(plan, l as real * k) / k, 0.0)
  {
    assert |CompressFrom(plan, s0, k)| == 1;
    assert 0.0 / k == 0.0;
  }

  // The compressed law against the law on the plan itself: with the lifetime scaled alike, the contact time
  // and the bridged gaps are those of the plan over k, to within one unit a window and one a gap, and the
  // span to within one unit.
  lemma LawSurvivesCompression(plan: seq<Span>, k: real, lifetime: int)
    requires plan != [] && 0.0 < k
    ensures var w := Compressed(plan, k);
            && |w| == |plan|
            && Within(ContactTime(w) as real, OpenTime(plan) / k, |plan| as real)
            && Within(BridgedGaps(w, lifetime) as real, BridgedTime(plan, lifetime as real * k) / k,
                      (|plan| - 1) as real)
            && Within(SpanOf(w) as real, (plan[|plan| - 1].end - plan[0].start) / k, 1.0)
  {
    hide Nearest, Within;
    var s0, n, w := plan[0].start, |plan|, Compressed(plan, k);
    OpenTimeKept(plan, s0, k);
    BridgedTimeKept(plan, s0, k, lifetime);
    CompressedEnds(plan, k, 0);
    CompressedEnds(plan, k, n - 1);
    NearestApart(w[0].start, w[n - 1].end, plan[0].start, plan[n - 1].end, s0, k);
  }
}
