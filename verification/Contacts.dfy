/** Contact windows and the contact plan: a sorted, non-overlapping schedule and its two queries. */
module Contacts {
  import opened Wrappers

  datatype Window = Window(contactId: string, start: real, end: real, rate: real)
  {
    // What construction of a window enforces.
    predicate Valid() {
      start < end && 0.0 < rate
    }

    predicate Covers(ts: real) {
      start <= ts < end
    }

    // Bits the window carries at its nominal rate.
    function Budget(): real {
      (end - start) * rate
    }

    predicate Apart(other: Window) {
      end <= other.start || other.end <= start
    }
  }

  datatype PlanError = Overlap(first: Window, second: Window)

  // ---------------------------------------------------------------- construction

  // Stable insertion by start time.
  function Insert(w: Window, s: seq<Window>): seq<Window> {
    if s == [] then [w]
    else if s[0].start < w.start then [s[0]] + Insert(w, s[1..])
    else [w] + s
  }

  function SortByStart(ws: seq<Window>): seq<Window> {
    if ws == [] then [] else Insert(ws[0], SortByStart(ws[1..]))
  }

  // The first adjacent pair, in sorted order, that overlaps.
  function FirstClash(ws: seq<Window>): Option<PlanError> {
    if |ws| < 2 then None
    else if ws[1].start < ws[0].end then Some(Overlap(ws[0], ws[1]))
    else FirstClash(ws[1..])
  }

  function MakePlan(ws: seq<Window>): Result<seq<Window>, PlanError> {
    var sorted := SortByStart(ws);
    match FirstClash(sorted)
    case Some(clash) => Err(clash)
    case None => Ok(sorted)
  }

  // What every constructed plan satisfies.
  ghost predicate ValidPlan(ws: seq<Window>) {
    && (forall i :: 0 <= i < |ws| ==> ws[i].Valid())
    && (forall i, j :: 0 <= i < j < |ws| ==> ws[i].end <= ws[j].start)
  }

  type Plan = ws: seq<Window> | ValidPlan(ws)

  ghost predicate AllValid(ws: seq<Window>) {
    forall w :: w in ws ==> w.Valid()
  }

  // No two windows overlap, whatever their order in the list.
  ghost predicate PairwiseApart(ws: seq<Window>) {
    forall i, j :: 0 <= i < j < |ws| ==> ws[i].Apart(ws[j])
  }

  ghost predicate ApartFromAll(w: Window, ws: seq<Window>) {
    forall v :: v in ws ==> w.Apart(v)
  }

  ghost predicate Ordered(ws: seq<Window>) {
    forall i, j :: 0 <= i < j < |ws| ==> ws[i].start <= ws[j].start
  }

  lemma PairwiseApartCons(ws: seq<Window>)
    requires ws != []
    ensures PairwiseApart(ws) <==> ApartFromAll(ws[0], ws[1..]) && PairwiseApart(ws[1..])
  {
    if PairwiseApart(ws) {
      forall i, j | 0 <= i < j < |ws[1..]| ensures ws[1..][i].Apart(ws[1..][j]) {
        assert ws[i + 1].Apart(ws[j + 1]);
      }
      forall v | v in ws[1..] ensures ws[0].Apart(v) {
        var j :| 0 <= j < |ws[1..]| && ws[1..][j] == v;
        assert ws[0].Apart(ws[j + 1]);
      }
    }
    if ApartFromAll(ws[0], ws[1..]) && PairwiseApart(ws[1..]) {
      forall i, j | 0 <= i < j < |ws| ensures ws[i].Apart(ws[j]) {
        assert ws[j] == ws[1..][j - 1];
        if 0 < i { assert ws[i] == ws[1..][i - 1]; }
      }
    }
  }

  lemma {:induction false} InsertMembers(w: Window, s: seq<Window>)
    ensures multiset(Insert(w, s)) == multiset{w} + multiset(s)
    ensures forall v :: v in Insert(w, s) <==> v == w || v in s
  {
    if s != [] && s[0].start < w.start {
      InsertMembers(w, s[1..]);
      assert s == [s[0]] + s[1..];
    }
  }

  lemma {:induction false} InsertOrdered(w: Window, s: seq<Window>)
    requires Ordered(s)
    ensures Ordered(Insert(w, s))
  {
    if s != [] && s[0].start < w.start {
      var t := Insert(w, s[1..]);
      InsertOrdered(w, s[1..]);
      InsertMembers(w, s[1..]);
      forall v | v in t ensures s[0].start <= v.start {
      }
    }
  }

  lemma {:induction false} InsertApart(w: Window, s: seq<Window>)
    ensures PairwiseApart(Insert(w, s)) <==> ApartFromAll(w, s) && PairwiseApart(s)
  {
    var r := Insert(w, s);
    PairwiseApartCons(r);
    if s != [] && s[0].start < w.start {
      InsertApart(w, s[1..]);
      InsertMembers(w, s[1..]);
      PairwiseApartCons(s);
      assert r[1..] == Insert(w, s[1..]);
      assert s == [s[0]] + s[1..];
      assert s[0].Apart(w) == w.Apart(s[0]);
    } else {
      assert r[1..] == s;
    }
  }

  lemma {:induction false} SortFacts(ws: seq<Window>)
    ensures multiset(SortByStart(ws)) == multiset(ws)
    ensures forall v :: v in SortByStart(ws) <==> v in ws
    ensures Ordered(SortByStart(ws))
    ensures PairwiseApart(SortByStart(ws)) <==> PairwiseApart(ws)
  {
    if ws != [] {
      SortFacts(ws[1..]);
      InsertMembers(ws[0], SortByStart(ws[1..]));
      InsertOrdered(ws[0], SortByStart(ws[1..]));
      InsertApart(ws[0], SortByStart(ws[1..]));
      assert ws == [ws[0]] + ws[1..];
      PairwiseApartCons(ws);
    }
  }

  // On ordered windows the adjacent-only check decides pairwise disjointness.
  lemma {:induction false} AdjacentCheckDecides(ws: seq<Window>)
    requires AllValid(ws) && Ordered(ws)
    ensures FirstClash(ws).None? <==> ValidPlan(ws)
    ensures FirstClash(ws).None? <==> PairwiseApart(ws)
  {
    if |ws| >= 2 {
      var t := ws[1..];
      assert forall i :: 0 <= i < |t| ==> t[i] == ws[i + 1];
      AdjacentCheckDecides(t);
      if ws[1].start < ws[0].end {
        assert ws[0].start <= ws[1].start;
        assert ws[0].Valid() && ws[1].Valid();
        assert !ws[0].Apart(ws[1]);
      } else if FirstClash(t).None? {
        forall i, j | 0 <= i < j < |ws| ensures ws[i].end <= ws[j].start {
          if i == 0 {
            assert ws[1].start <= ws[j].start;
          } else {
            assert ws[i] == t[i - 1] && ws[j] == t[j - 1];
          }
        }
        PlanIsPairwiseApart(ws);
      } else {
        TailOfPlan(ws);
        PairwiseApartCons(ws);
      }
    }
  }

  lemma TailOfPlan(ws: seq<Window>)
    requires ws != []
    ensures ValidPlan(ws) ==> ValidPlan(ws[1..])
  {
  }

  lemma PlanIsPairwiseApart(ws: seq<Window>)
    requires forall i, j :: 0 <= i < j < |ws| ==> ws[i].end <= ws[j].start
    ensures PairwiseApart(ws)
  {
  }

  // Construction succeeds exactly on pairwise disjoint input, and then yields the same windows as a
  // valid plan.
  lemma MakePlanDecides(ws: seq<Window>)
    requires AllValid(ws)
    ensures MakePlan(ws).Ok? <==> PairwiseApart(ws)
    ensures MakePlan(ws).Ok? ==> ValidPlan(MakePlan(ws).value)
    ensures MakePlan(ws).Ok? ==> multiset(MakePlan(ws).value) == multiset(ws)
  {
    SortFacts(ws);
    AdjacentCheckDecides(SortByStart(ws));
  }

  // ---------------------------------------------------------------- queries

  // bisect_right over the start times: the number of windows starting at or before ts.
  function BisectRight(ws: seq<Window>, ts: real, lo: nat, hi: nat): (r: nat)
    requires lo <= hi <= |ws|
    requires Ordered(ws)
    requires forall i :: 0 <= i < lo ==> ws[i].start <= ts
    requires forall i :: hi <= i < |ws| ==> ts < ws[i].start
    ensures lo <= r <= hi
    ensures forall i :: 0 <= i < r ==> ws[i].start <= ts
    ensures forall i :: r <= i < |ws| ==> ts < ws[i].start
    decreases hi - lo
  {
    if lo == hi then lo
    else
      var mid := (lo + hi) / 2;
      if ts < ws[mid].start then BisectRight(ws, ts, lo, mid) else BisectRight(ws, ts, mid + 1, hi)
  }

  function ActiveAt(ws: seq<Window>, ts: real): Option<Window>
    requires Ordered(ws)
  {
    var r := BisectRight(ws, ts, 0, |ws|);
    if r == 0 then None
    else if ws[r - 1].Covers(ts) then Some(ws[r - 1])
    else None
  }

  function NextAfter(ws: seq<Window>, ts: real): Option<Window>
    requires Ordered(ws)
  {
    var active := ActiveAt(ws, ts);
    if active.Some? then active
    else
      var r := BisectRight(ws, ts, 0, |ws|);
      if r < |ws| then Some(ws[r]) else None
  }

  // Reference definitions: scan the list from the front.
  function FirstCovering(ws: seq<Window>, ts: real): Option<Window> {
    if ws == [] then None
    else if ws[0].Covers(ts) then Some(ws[0])
    else FirstCovering(ws[1..], ts)
  }

  function FirstEndingAfter(ws: seq<Window>, ts: real): Option<Window> {
    if ws == [] then None
    else if ts < ws[0].end then Some(ws[0])
    else FirstEndingAfter(ws[1..], ts)
  }

  lemma PlanIsOrdered(ws: seq<Window>)
    requires ValidPlan(ws)
    ensures Ordered(ws)
    ensures forall i, j :: 0 <= i < j < |ws| ==> ws[i].start < ws[j].start && ws[i].end < ws[j].end
  {
    forall i, j | 0 <= i < j < |ws|
      ensures ws[i].start < ws[j].start && ws[i].end < ws[j].end
    {
      assert ws[i].Valid() && ws[j].Valid();
      assert ws[i].end <= ws[j].start;
    }
  }

  lemma {:induction false} FirstCoveringAt(ws: seq<Window>, ts: real, k: nat)
    requires k <= |ws|
    requires forall i :: 0 <= i < k ==> !ws[i].Covers(ts)
    ensures FirstCovering(ws, ts)
         == if k < |ws| && ws[k].Covers(ts) then Some(ws[k]) else FirstCovering(ws[k..], ts)
  {
    if k == 0 {
      assert ws[0..] == ws;
    } else {
      assert !ws[0].Covers(ts);
      FirstCoveringAt(ws[1..], ts, k - 1);
      assert ws[1..][k - 1..] == ws[k..];
    }
  }

  lemma {:induction false} NoneCovering(ws: seq<Window>, ts: real)
    requires forall i :: 0 <= i < |ws| ==> !ws[i].Covers(ts)
    ensures FirstCovering(ws, ts) == None
  {
    if ws != [] {
      assert !ws[0].Covers(ts);
      forall i | 0 <= i < |ws[1..]| ensures !ws[1..][i].Covers(ts) {
        assert ws[1..][i] == ws[i + 1];
      }
      NoneCovering(ws[1..], ts);
    }
  }

  lemma {:induction false} FirstEndingAfterAt(ws: seq<Window>, ts: real, k: nat)
    requires k <= |ws|
    requires forall i :: 0 <= i < k ==> ws[i].end <= ts
    requires k < |ws| ==> ts < ws[k].end
    ensures FirstEndingAfter(ws, ts) == if k < |ws| then Some(ws[k]) else None
  {
    if 0 < k {
      assert ws[0].end <= ts;
      forall i | 0 <= i < k - 1 ensures ws[1..][i].end <= ts {
        assert ws[1..][i] == ws[i + 1];
      }
      FirstEndingAfterAt(ws[1..], ts, k - 1);
    }
  }

  // Bisection finds the one covering window exactly as a linear scan does, and the next window is the
  // first one that has not ended yet.
  lemma {:induction false} QueriesMatchLinearScan(ws: seq<Window>, ts: real)
    requires ValidPlan(ws) && Ordered(ws)
    ensures ActiveAt(ws, ts) == FirstCovering(ws, ts)
    ensures NextAfter(ws, ts) == FirstEndingAfter(ws, ts)
    ensures forall i :: 0 <= i < |ws| && ws[i].Covers(ts) ==> ActiveAt(ws, ts) == Some(ws[i])
  {
    PlanIsOrdered(ws);
    var r := BisectRight(ws, ts, 0, |ws|);
    if 0 < r {
      forall i | 0 <= i < r - 1 ensures ws[i].end <= ts {
        assert ws[i].end <= ws[r - 1].start;
      }
      if ts < ws[r - 1].end {
        FirstCoveringAt(ws, ts, r - 1);
        FirstEndingAfterAt(ws, ts, r - 1);
      } else {
        NoneCovering(ws, ts);
        if r < |ws| { assert ws[r].Valid(); }
        FirstEndingAfterAt(ws, ts, r);
      }
    } else {
      NoneCovering(ws, ts);
      if r < |ws| { assert ws[r].Valid(); }
      FirstEndingAfterAt(ws, ts, r);
    }
  }

  // The walk of the replay loop: from any instant before the plan the first window is found, and from
  // the end of window k the next one is window k + 1, back-to-back windows included.
  lemma {:induction false} WalkVisitsInOrder(ws: seq<Window>, k: nat)
    requires ValidPlan(ws) && Ordered(ws)
    requires k < |ws|
    ensures NextAfter(ws, ws[k].end) == if k + 1 < |ws| then Some(ws[k + 1]) else None
  {
    PlanIsOrdered(ws);
    QueriesMatchLinearScan(ws, ws[k].end);
    if k + 1 < |ws| { assert ws[k].end < ws[k + 1].end; }
    FirstEndingAfterAt(ws, ws[k].end, k + 1);
  }

  lemma {:induction false} WalkStarts(ws: seq<Window>, ts: real)
    requires ValidPlan(ws) && Ordered(ws)
    requires ws != [] ==> ts < ws[0].start
    ensures NextAfter(ws, ts) == if ws == [] then None else Some(ws[0])
  {
    QueriesMatchLinearScan(ws, ts);
    if ws != [] { assert ws[0].Valid(); }
    FirstEndingAfterAt(ws, ts, 0);
  }
}
