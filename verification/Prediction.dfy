/** The per-bundle prediction and its closed form on an integer schedule. */
module Prediction {
  datatype Span = Span(start: real, end: real)

  // Deliverable iff sent inside a contact, or the next contact opens before the lifetime runs out.
  predicate PredictOne(t: real, contacts: seq<Span>, lifetime: real) {
    if contacts == [] then false
    else if contacts[0].start <= t < contacts[0].end then true
    else if t < contacts[0].start then contacts[0].start - t < lifetime
    else PredictOne(t, contacts[1..], lifetime)
  }

  // ---------------------------------------------------------------- time compression

  datatype Slot = Slot(start: int, end: int)

  // Rounding to the nearest integer, ties to even.
  function Round(x: real): int {
    var lo := x.Floor;
    var d := x - lo as real;
    if d < 0.5 then lo
    else if 0.5 < d then lo + 1
    else if lo % 2 == 0 then lo
    else lo + 1
  }

  function Compressed(plan: seq<Span>, k: real): seq<Slot>
    requires plan != [] && 0.0 < k
  {
    CompressFrom(plan, plan[0].start, k)
  }

  function CompressFrom(plan: seq<Span>, s0: real, k: real): seq<Slot>
    requires 0.0 < k
  {
    if plan == [] then []
    else [Slot(Round((plan[0].start - s0) / k), Round((plan[0].end - s0) / k))] + CompressFrom(plan[1..], s0, k)
  }

  // Contacts in order, possibly empty, never overlapping.
  ghost predicate OrderedSlots(w: seq<Slot>) {
    && (forall i :: 0 <= i < |w| ==> w[i].start <= w[i].end)
    && (forall i :: 0 < i < |w| ==> w[i - 1].end <= w[i].start)
  }

  ghost predicate OrderedSpans(p: seq<Span>) {
    && (forall i :: 0 <= i < |p| ==> p[i].start <= p[i].end)
    && (forall i :: 0 < i < |p| ==> p[i - 1].end <= p[i].start)
  }

  lemma RoundMonotone(x: real, y: real)
    requires x <= y
    ensures Round(x) <= Round(y)
  {
  }

  lemma ScaledMonotone(x: real, y: real, s0: real, k: real)
    requires x <= y && 0.0 < k
    ensures Round((x - s0) / k) <= Round((y - s0) / k)
  {
    assert (x - s0) / k <= (y - s0) / k;
    RoundMonotone((x - s0) / k, (y - s0) / k);
  }

  // Compression keeps contacts in order and apart, whatever the factor.
  lemma {:induction false} CompressFromKeepsOrder(plan: seq<Span>, s0: real, k: real)
    requires OrderedSpans(plan) && 0.0 < k
    ensures OrderedSlots(CompressFrom(plan, s0, k)) && |CompressFrom(plan, s0, k)| == |plan|
  {
    if plan != [] {
      var rest := CompressFrom(plan[1..], s0, k);
      var w := CompressFrom(plan, s0, k);
      assert OrderedSpans(plan[1..]) by {
        forall i | 0 < i < |plan[1..]| ensures plan[1..][i - 1].end <= plan[1..][i].start {
          assert plan[i].end <= plan[i + 1].start;
        }
      }
      CompressFromKeepsOrder(plan[1..], s0, k);
      ScaledMonotone(plan[0].start, plan[0].end, s0, k);
      if |plan| > 1 {
        assert plan[0].end <= plan[1].start;
        ScaledMonotone(plan[0].end, plan[1].start, s0, k);
      }
      forall i | 0 < i < |w| ensures w[i - 1].end <= w[i].start {
        assert w[i] == rest[i - 1];
        if 1 < i { assert w[i - 1] == rest[i - 2]; }
      }
    }
  }

  // The compressed schedule starts at zero and keeps every window, in order and disjoint.
  lemma CompressionKeepsOrder(plan: seq<Span>, k: real)
    requires plan != [] && OrderedSpans(plan) && 0.0 < k
    ensures var w := Compressed(plan, k); OrderedSlots(w) && |w| == |plan| && w[0].start == 0
  {
    CompressFromKeepsOrder(plan, plan[0].start, k);
    assert (plan[0].start - plan[0].start) / k == 0.0;
  }

  // ---------------------------------------------------------------- the closed form

  function Min(a: int, b: int): int {
    if a <= b then a else b
  }

  function ContactTime(w: seq<Slot>): int {
    if w == [] then 0 else w[0].end - w[0].start + ContactTime(w[1..])
  }

  function BridgedGaps(w: seq<Slot>, lifetime: int): int {
    if |w| < 2 then 0 else Min(lifetime, w[1].start - w[0].end) + BridgedGaps(w[1..], lifetime)
  }

  function SpanOf(w: seq<Slot>): int
    requires w != []
  {
    w[|w| - 1].end - w[0].start
  }

  function ClosedForm(w: seq<Slot>, lifetime: int): real
    requires w != [] && SpanOf(w) != 0
  {
    (ContactTime(w) + BridgedGaps(w, lifetime)) as real / SpanOf(w) as real
  }

  // ---------------------------------------------------------------- counting the prediction

  function Exact(w: seq<Slot>): seq<Span> {
    if w == [] then [] else [Span(w[0].start as real, w[0].end as real)] + Exact(w[1..])
  }

  predicate Predicted(w: seq<Slot>, lifetime: int, f: real, i: int) {
    PredictOne(i as real + f, Exact(w), lifetime as real)
  }

  // How many of the send slots lo, lo + 1, ..., hi - 1 are predicted deliverable.
  function Count(w: seq<Slot>, lifetime: int, f: real, lo: int, hi: int): int
    decreases hi - lo
  {
    if hi <= lo then 0
    else (if Predicted(w, lifetime, f, lo) then 1 else 0) + Count(w, lifetime, f, lo + 1, hi)
  }

  lemma {:induction false} CountSplit(w: seq<Slot>, lifetime: int, f: real, lo: int, mid: int, hi: int)
    requires lo <= mid <= hi
    ensures Count(w, lifetime, f, lo, hi) == Count(w, lifetime, f, lo, mid) + Count(w, lifetime, f, mid, hi)
    decreases mid - lo
  {
    if lo < mid {
      CountSplit(w, lifetime, f, lo + 1, mid, hi);
    }
  }

  lemma {:induction false} CountUniform(w: seq<Slot>, lifetime: int, f: real, lo: int, hi: int, yes: bool)
    requires lo <= hi && forall i :: lo <= i < hi ==> Predicted(w, lifetime, f, i) == yes
    ensures Count(w, lifetime, f, lo, hi) == if yes then hi - lo else 0
    decreases hi - lo
  {
    if lo < hi {
      assert Predicted(w, lifetime, f, lo) == yes;
      CountUniform(w, lifetime, f, lo + 1, hi, yes);
    }
  }

  // Slots after a contact do not see it.
  lemma {:induction false} CountSkipsFirst(w: seq<Slot>, lifetime: int, f: real, lo: int, hi: int)
    requires w != [] && w[0].start <= w[0].end <= lo && 0.0 < f
    ensures Count(w, lifetime, f, lo, hi) == Count(w[1..], lifetime, f, lo, hi)
    decreases hi - lo
  {
    if lo < hi {
      CountSkipsFirst(w, lifetime, f, lo + 1, hi);
      assert Exact(w)[1..] == Exact(w[1..]);
    }
  }

  lemma CountInContact(w: seq<Slot>, lifetime: int, f: real)
    requires w != [] && w[0].start <= w[0].end && 0.0 < f < 1.0
    ensures Count(w, lifetime, f, w[0].start, w[0].end) == w[0].end - w[0].start
  {
    forall i | w[0].start <= i < w[0].end ensures Predicted(w, lifetime, f, i) == true {
      assert i as real + 1.0 <= w[0].end as real;
    }
    CountUniform(w, lifetime, f, w[0].start, w[0].end, true);
  }

  // Of the slots in a gap before a contact exactly the last `lifetime` are bridged.
  lemma CountInGap(w: seq<Slot>, lifetime: int, f: real, from: int)
    requires w != [] && from <= w[0].start && 0 <= lifetime && 0.0 < f < 1.0
    ensures Count(w, lifetime, f, from, w[0].start) == Min(lifetime, w[0].start - from)
  {
    var s := w[0].start;
    var cut := if from <= s - lifetime then s - lifetime else from;
    forall i | from <= i < s ensures Predicted(w, lifetime, f, i) == (cut <= i) {
      assert i as real + 1.0 <= s as real;
      assert Predicted(w, lifetime, f, i) == (s as real - (i as real + f) < lifetime as real);
      if i < cut { assert i + 1 <= s - lifetime; }
    }
    CountSplit(w, lifetime, f, from, cut, s);
    CountUniform(w, lifetime, f, from, cut, false);
    CountUniform(w, lifetime, f, cut, s, true);
  }

  // The exact number of deliverable send slots over the whole span is the closed form's numerator.
  lemma {:induction false} ClosedFormCounts(w: seq<Slot>, lifetime: int, f: real)
    requires w != [] && OrderedSlots(w) && 0 <= lifetime && 0.0 < f < 1.0
    ensures w[0].start <= w[|w| - 1].end
    ensures Count(w, lifetime, f, w[0].start, w[|w| - 1].end) == ContactTime(w) + BridgedGaps(w, lifetime)
  {
    CountInContact(w, lifetime, f);
    if |w| > 1 {
      var rest := w[1..];
      assert OrderedSlots(rest) by {
        forall i | 0 < i < |rest| ensures rest[i - 1].end <= rest[i].start {
          assert w[i].end <= w[i + 1].start;
        }
      }
      ClosedFormCounts(rest, lifetime, f);
      var a, b, c, d := w[0].start, w[0].end, w[1].start, w[|w| - 1].end;
      assert rest[0] == w[1] && rest[|rest| - 1] == w[|w| - 1];
      assert b <= c;
      CountSplit(w, lifetime, f, a, b, d);
      CountSplit(w, lifetime, f, b, c, d);
      CountSkipsFirst(w, lifetime, f, b, c);
      CountSkipsFirst(w, lifetime, f, c, d);
      CountInGap(rest, lifetime, f, b);
    } else {
      assert w[1..] == [];
    }
  }

  // The closed form is the fraction of send slots predicted deliverable.
  lemma ClosedFormIsFraction(w: seq<Slot>, lifetime: int, f: real)
    requires w != [] && OrderedSlots(w) && SpanOf(w) != 0 && 0 <= lifetime && 0.0 < f < 1.0
    ensures ClosedForm(w, lifetime)
         == Count(w, lifetime, f, w[0].start, w[|w| - 1].end) as real / SpanOf(w) as real
  {
    ClosedFormCounts(w, lifetime, f);
  }
}
