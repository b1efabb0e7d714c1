/** Earliest deadline first is throughput-optimal for equal sizes: no schedule delivers more. */
module Edf {
  import opened Telemetry
  import opened Selection
  import opened Drain
  import opened Policies
  import opened Replay
  import opened Fates
  import opened Reach
  import Contacts

  // Which window, by index, carries which bundle.
  type Schedule = map<Bundle, nat>

  function Carriage(a: Schedule, k: nat): set<Bundle> {
    set b | b in a && a[b] == k
  }

  // Bits of m bundles of n bytes each.
  function Cost(n: nat, m: nat): real {
    (8 * n * m) as real
  }

  ghost predicate Feasible(a: Schedule, ws: Plan, bundles: Batch, n: nat) {
    && (forall b :: b in a ==> b in bundles && a[b] < |ws| && Allowed(b, ws[a[b]]))
    && (forall k :: 0 <= k < |ws| ==> Cost(n, |Carriage(a, k)|) <= ws[k].Budget())
  }

  // A schedule for windows k onwards, with `room` bits left in window k.
  ghost predicate Remaining(a: Schedule, ws: Plan, n: nat, k: nat, room: real)
    requires k < |ws|
  {
    && (forall b :: b in a ==> k <= a[b] < |ws| && Allowed(b, ws[a[b]]))
    && Cost(n, |Carriage(a, k)|) <= room
    && (forall i :: k < i < |ws| ==> Cost(n, |Carriage(a, i)|) <= ws[i].Budget())
  }

  // ---------------------------------------------------------------- counting

  lemma CostStep(n: nat, m: nat)
    requires 0 < m
    ensures Cost(n, m) == Cost(n, m - 1) + (8 * n) as real
  {
    assert 8 * n * m == 8 * n * (m - 1) + 8 * n;
  }

  lemma CostMono(n: nat, m: nat, m': nat)
    requires m <= m'
    ensures Cost(n, m) <= Cost(n, m')
  {
    assert n * m <= n * m';
    assert 8 * n * m == 8 * (n * m) && 8 * n * m' == 8 * (n * m');
  }

  lemma DropCarriage(a: Schedule, g: Bundle, k: nat)
    requires g in a
    ensures Carriage(a - {g}, k) == Carriage(a, k) - {g}
    ensures |a - {g}| == |a| - 1
  {
    assert (a - {g}).Keys == a.Keys - {g};
  }

  lemma MoveCarriage(a: Schedule, s: Bundle, j: nat, k: nat)
    requires s in a
    ensures Carriage(a[s := j], k) == if k == j then Carriage(a, k) + {s} else Carriage(a, k) - {s}
    ensures |a[s := j]| == |a|
  {
    assert a[s := j].Keys == a.Keys;
  }

  // ---------------------------------------------------------------- one exchange

  // Sending the earliest deadline g in window k costs any schedule at most one bundle: whatever the
  // schedule does in window k can make way for g.
  lemma Exchange(a: Schedule, ws: Plan, n: nat, k: nat, room: real, g: Bundle) returns (a': Schedule)
    requires k < |ws| && Remaining(a, ws, n, k, room)
    requires (8 * n) as real <= room && Allowed(g, ws[k])
    requires forall s :: s in Carriage(a, k) ==> Allowed(s, ws[k]) && g.expiration <= s.expiration
    ensures Remaining(a', ws, n, k, room - (8 * n) as real)
    ensures g !in a' && a'.Keys <= a.Keys && Carriage(a', k) <= Carriage(a, k)
    ensures |a| <= |a'| + 1
  {
    if g in a && a[g] == k {
      a' := Drop(a, ws, n, k, room, g);
    } else if Carriage(a, k) == {} {
      a' := a;
      if g in a { a' := DropLater(a, ws, n, k, room, g); }
      assert Cost(n, 0) == 0.0;
    } else {
      var s :| s in Carriage(a, k);
      if g in a {
        a' := Swap(a, ws, n, k, room, g, s);
      } else {
        a' := Drop(a, ws, n, k, room, s);
      }
    }
  }

  lemma Drop(a: Schedule, ws: Plan, n: nat, k: nat, room: real, g: Bundle) returns (a': Schedule)
    requires k < |ws| && Remaining(a, ws, n, k, room) && g in a && a[g] == k
    ensures a' == a - {g} && |a| == |a'| + 1
    ensures Remaining(a', ws, n, k, room - (8 * n) as real)
    ensures Carriage(a', k) <= Carriage(a, k)
  {
    hide Cost, Contacts.Window.Budget, Contacts.ValidPlan, Allowed, Carriage;
    a' := a - {g};
    DropCarriage(a, g, k);
    DropHere(a, n, k, g);
    forall i | k < i < |ws| ensures Cost(n, |Carriage(a', i)|) <= ws[i].Budget() {
      DropElsewhere(a, g, k, i);
    }
  }

  lemma DropHere(a: Schedule, n: nat, k: nat, g: Bundle)
    requires g in a && a[g] == k
    ensures Cost(n, |Carriage(a, k) - {g}|) == Cost(n, |Carriage(a, k)|) - (8 * n) as real
  {
    assert g in Carriage(a, k);
    CostStep(n, |Carriage(a, k)|);
  }

  lemma DropElsewhere(a: Schedule, g: Bundle, k: nat, i: nat)
    requires g in a && a[g] == k && i != k
    ensures Carriage(a - {g}, i) == Carriage(a, i)
  {
    DropCarriage(a, g, i);
  }

  lemma DropLater(a: Schedule, ws: Plan, n: nat, k: nat, room: real, g: Bundle) returns (a': Schedule)
    requires k < |ws| && Remaining(a, ws, n, k, room) && g in a && Carriage(a, k) == {}
    requires (8 * n) as real <= room
    ensures a' == a - {g} && |a| == |a'| + 1
    ensures Remaining(a', ws, n, k, room - (8 * n) as real)
    ensures Carriage(a', k) == {}
  {
    a' := a - {g};
    DropCarriage(a, g, k);
    assert Carriage(a', k) == {};
    assert Cost(n, |Carriage(a', k)|) == 0.0;
    forall i | k < i < |ws| ensures Cost(n, |Carriage(a', i)|) <= ws[i].Budget() {
      DropCarriage(a, g, i);
      CardSubset(Carriage(a', i), Carriage(a, i));
      CostMono(n, |Carriage(a', i)|, |Carriage(a, i)|);
    }
  }

  lemma CardSubset(x: set<Bundle>, y: set<Bundle>)
    requires x <= y
    ensures |x| <= |y|
  {
    assert y == x + (y - x);
    assert |y| == |x| + |y - x|;
  }

  // g leaves its later window j, and s, which the schedule had in window k, takes its place there.
  lemma Swap(a: Schedule, ws: Plan, n: nat, k: nat, room: real, g: Bundle, s: Bundle) returns (a': Schedule)
    requires k < |ws| && Remaining(a, ws, n, k, room)
    requires g in a && a[g] != k && s in Carriage(a, k)
    requires Allowed(s, ws[k]) && g.expiration <= s.expiration
    ensures |a| == |a'| + 1 && g !in a' && a'.Keys <= a.Keys
    ensures Remaining(a', ws, n, k, room - (8 * n) as real)
    ensures Carriage(a', k) <= Carriage(a, k)
  {
    hide Cost, Contacts.Window.Budget, Contacts.ValidPlan, Allowed, Carriage;
    a' := (a - {g})[s := a[g]];
    SwapHere(a, n, k, g, s);
    assert Cost(n, |Carriage(a', k)|) <= room - (8 * n) as real;
    forall b | b in a' ensures k <= a'[b] < |ws| && Allowed(b, ws[a'[b]]) {
      SwapAllowed(a, ws, n, k, room, g, s, b);
    }
    forall i | k < i < |ws| ensures Cost(n, |Carriage(a', i)|) <= ws[i].Budget() {
      SwapElsewhere(a, g, s, k, i);
    }
  }

  lemma SwapAllowed(a: Schedule, ws: Plan, n: nat, k: nat, room: real, g: Bundle, s: Bundle, b: Bundle)
    requires k < |ws| && Remaining(a, ws, n, k, room)
    requires g in a && a[g] != k && Allowed(s, ws[k]) && g.expiration <= s.expiration
    requires b in (a - {g})[s := a[g]]
    ensures var j := (a - {g})[s := a[g]][b]; k <= j < |ws| && Allowed(b, ws[j])
  {
    hide Cost, Contacts.Window.Budget, Carriage, Allowed;
    if b == s {
      LaterSuits(ws, k, a[g], g, s);
    }
  }

  lemma LaterSuits(ws: Plan, k: nat, j: nat, g: Bundle, s: Bundle)
    requires k < j < |ws| && Allowed(s, ws[k]) && Allowed(g, ws[j]) && g.expiration <= s.expiration
    ensures Allowed(s, ws[j])
  {
    Contacts.PlanIsOrdered(ws);
  }

  lemma SwapHere(a: Schedule, n: nat, k: nat, g: Bundle, s: Bundle)
    requires g in a && a[g] != k && s in Carriage(a, k)
    ensures var a' := (a - {g})[s := a[g]];
            && Carriage(a', k) == Carriage(a, k) - {s}
            && Cost(n, |Carriage(a', k)|) == Cost(n, |Carriage(a, k)|) - (8 * n) as real
            && |a'| == |a| - 1 && g !in a' && a'.Keys <= a.Keys
  {
    DropCarriage(a, g, k);
    MoveCarriage(a - {g}, s, a[g], k);
    CostStep(n, |Carriage(a, k)|);
  }

  lemma SwapElsewhere(a: Schedule, g: Bundle, s: Bundle, k: nat, i: nat)
    requires g in a && a[g] != k && s in Carriage(a, k) && i != k
    ensures |Carriage((a - {g})[s := a[g]], i)| == |Carriage(a, i)|
  {
    DropCarriage(a, g, i);
    MoveCarriage(a - {g}, s, a[g], i);
    SwapCounts(a, g, s, k, i);
  }

  lemma SwapCounts(a: Schedule, g: Bundle, s: Bundle, k: nat, i: nat)
    requires g in a && a[g] != k && s in Carriage(a, k) && i != k
    ensures var c := Carriage(a, i) - {g};
            |if i == a[g] then c + {s} else c - {s}| == |Carriage(a, i)|
  {
    assert s !in Carriage(a, i);
    if i == a[g] {
      assert g in Carriage(a, i);
    } else {
      assert Carriage(a, i) - {g} == Carriage(a, i);
      assert Carriage(a, i) - {s} == Carriage(a, i);
    }
  }

  // ---------------------------------------------------------------- one window

  lemma NothingHere(a: Schedule, ws: Plan, n: nat, k: nat, room: real)
    requires k < |ws| && Remaining(a, ws, n, k, room)
    ensures (forall b :: b !in Carriage(a, k)) ==> Carriage(a, k) == {} && Remaining(a, ws, n, k, 0.0)
  {
    if forall b :: b !in Carriage(a, k) {
      assert Carriage(a, k) == {};
      assert Cost(n, |Carriage(a, k)|) == 0.0;
    }
  }

  lemma NothingFitsHere(a: Schedule, ws: Plan, n: nat, k: nat, room: real)
    requires k < |ws| && Remaining(a, ws, n, k, room) && room < (8 * n) as real
    ensures Carriage(a, k) == {}
  {
    NothingFits(a, n, k, room);
  }

  // Draining a deadline-ordered list in window k: what is left of any schedule, for the bundles not
  // sent, is no smaller than the schedule less what was sent.
  lemma {:induction false} DrainBeatsSchedule(
      list: seq<Bundle>, a: Schedule, ws: Plan, n: nat, k: nat, room: real) returns (a': Schedule)
    requires k < |ws| && Remaining(a, ws, n, k, room)
    requires Sorted(ByExpiration, list) && Uniform(list, n)
    requires forall b :: b in list ==> Allowed(b, ws[k])
    requires forall b :: b in Carriage(a, k) ==> b in list
    ensures |a| <= |Greedy(list, room, false)| + |a'|
    ensures a'.Keys <= a.Keys && forall b :: b in Greedy(list, room, false) ==> b !in a'
    ensures Carriage(a', k) == {}
    ensures Remaining(a', ws, n, k, 0.0)
    decreases |list|
  {
    hide Remaining, Cost, Sorted, Contacts.Window.Valid;
    if list == [] {
      a' := a;
      NothingHere(a, ws, n, k, room);
    } else {
      var g, rest := list[0], list[1..];
      SortedCons(ByExpiration, list);
      assert list == [g] + rest && g in list && g.Bits() == (8 * n) as real;
      if g.Bits() <= room {
        var a1 := Exchange(a, ws, n, k, room, g);
        forall b | b in Carriage(a1, k) ensures b in rest {
          assert b in list && b != g;
        }
        a' := DrainBeatsSchedule(rest, a1, ws, n, k, room - g.Bits());
      } else {
        NothingFitsHere(a, ws, n, k, room);
        a' := DrainBeatsSchedule(rest, a, ws, n, k, room);
      }
    }
  }

  // A window with no room for one bundle carries none.
  lemma NothingFits(a: Schedule, n: nat, k: nat, room: real)
    requires Cost(n, |Carriage(a, k)|) <= room < (8 * n) as real
    ensures Carriage(a, k) == {}
  {
    CostOfSome(n, |Carriage(a, k)|);
  }

  lemma CostOfSome(n: nat, m: nat)
    ensures 0 < m ==> (8 * n) as real <= Cost(n, m)
  {
    if 0 < m {
      CostMono(n, 1, m);
      assert Cost(n, 1) == (8 * n) as real;
    }
  }

  // ---------------------------------------------------------------- the whole run

  // Once window k is over, its schedule is one for the windows after it.
  ghost predicate Ahead(a: Schedule, ws: Plan, n: nat, k: nat)
    requires k <= |ws|
  {
    && (forall b :: b in a ==> k <= a[b] < |ws| && Allowed(b, ws[a[b]]))
    && (forall i :: k <= i < |ws| ==> Cost(n, |Carriage(a, i)|) <= ws[i].Budget())
  }

  lemma WindowBeatsSchedule(cfg: Setup, ws: Plan, bundles: Batch, n: nat, k: nat, a: Schedule)
      returns (a': Schedule)
    requires k < |ws| && cfg.policy == DeadlineAware && Uniform(bundles, n) && NoLoss(cfg, ws, bundles)
    requires Ahead(a, ws, n, k)
    requires forall b :: b in a ==>
               b in bundles && b !in DeliveredSet(After(cfg, ws, bundles, k).queue.outcomes)
    ensures Ahead(a', ws, n, k + 1)
    ensures forall b :: b in a' ==>
              b in bundles && b !in DeliveredSet(After(cfg, ws, bundles, k + 1).queue.outcomes)
    ensures |a| <= |SentAt(cfg, ws, bundles, k)| + |a'|
  {
    hide After, Run, Opened, Eligible, DeliveredSet, Allowed;
    var el := EligibleAt(cfg, ws, bundles, k);
    var list := Sort(ByExpiration, el);
    EligibleAreAllowed(cfg, ws, bundles, k);
    SortSorted(ByExpiration, el);
    SortMembers(ByExpiration, el);
    forall b | b in Carriage(a, k) ensures b in list {
      UndeliveredIsEligible(cfg, ws, bundles, k, b);
    }
    assert SentAt(cfg, ws, bundles, k) == Greedy(list, ws[k].Budget(), false);
    a' := DrainBeatsSchedule(list, a, ws, n, k, ws[k].Budget());
    DeliveredGrows(cfg, ws, bundles, k);
    LaterOnly(a', ws, n, k);
  }

  lemma LaterOnly(a: Schedule, ws: Plan, n: nat, k: nat)
    requires k < |ws| && Remaining(a, ws, n, k, 0.0) && Carriage(a, k) == {}
    ensures Ahead(a, ws, n, k + 1)
  {
    forall b | b in a ensures k + 1 <= a[b] {
      assert b in Carriage(a, k) <==> a[b] == k;
    }
  }

  lemma EligibleAreAllowed(cfg: Setup, ws: Plan, bundles: Batch, k: nat)
    requires k < |ws|
    ensures forall b :: b in EligibleAt(cfg, ws, bundles, k) ==> b in bundles && Allowed(b, ws[k])
  {
    hide After, Opened, Eligible;
    var st := After(cfg, ws, bundles, k);
    EveryStateSane(cfg, ws, bundles, k);
    OpenedFacts(cfg, ws, k, st, bundles);
    EligibleFacts(cfg, ws[k], st);
  }

  lemma WholeSchedule(cfg: Setup, ws: Plan, bundles: Batch, n: nat, a: Schedule)
    requires Feasible(a, ws, bundles, n)
    ensures Ahead(a, ws, n, 0)
    ensures DeliveredSet(After(cfg, ws, bundles, 0).queue.outcomes) == {}
    ensures forall b :: b in a ==> b in bundles
  {
  }

  // After every window, what was delivered plus what a schedule can still deliver covers the schedule.
  lemma {:induction false} DeliveredBeatsSchedule(
      cfg: Setup, ws: Plan, bundles: Batch, n: nat, k: nat, a: Schedule) returns (a': Schedule)
    requires k <= |ws| && cfg.policy == DeadlineAware && Uniform(bundles, n) && NoLoss(cfg, ws, bundles)
    requires Feasible(a, ws, bundles, n)
    ensures Ahead(a', ws, n, k)
    ensures forall b :: b in a' ==>
              b in bundles && b !in DeliveredSet(After(cfg, ws, bundles, k).queue.outcomes)
    ensures |a| <= |DeliveredSet(After(cfg, ws, bundles, k).queue.outcomes)| + |a'|
    decreases k
  {
    hide After, Run, DeliveredSet, Ahead, Uniform, NoLoss, Feasible, SentAt;
    if k == 0 {
      a' := a;
      WholeSchedule(cfg, ws, bundles, n, a);
    } else {
      var p := DeliveredBeatsSchedule(cfg, ws, bundles, n, k - 1, a);
      a' := WindowBeatsSchedule(cfg, ws, bundles, n, k - 1, p);
      DeliveredCount(cfg, ws, bundles, k - 1);
    }
  }

  lemma DeliveredCount(cfg: Setup, ws: Plan, bundles: Batch, k: nat)
    requires k < |ws|
    ensures |DeliveredSet(After(cfg, ws, bundles, k + 1).queue.outcomes)|
         == |DeliveredSet(After(cfg, ws, bundles, k).queue.outcomes)| + |SentAt(cfg, ws, bundles, k)|
  {
    hide After, SentAt, DeliveredSet;
    DeliveredGrows(cfg, ws, bundles, k);
    SentFacts(cfg, ws, bundles, k);
    DistinctCard(SentAt(cfg, ws, bundles, k));
  }

  lemma {:induction false} DistinctCard(s: seq<Bundle>)
    requires Distinct(s)
    ensures |set b | b in s| == |s|
  {
    if s != [] {
      DistinctCons(s);
      DistinctCard(s[1..]);
      assert (set b | b in s) == {s[0]} + set b | b in s[1..];
    }
  }

  // A deadline-ordered run without overflow delivers at least as many bundles as any schedule that
  // respects arrivals, lifetimes and every window's bits.
  lemma EdfIsOptimal(cfg: Setup, ws: Plan, bundles: Batch, n: nat, a: Schedule)
    requires cfg.policy == DeadlineAware && Uniform(bundles, n) && NoLoss(cfg, ws, bundles)
    requires Feasible(a, ws, bundles, n)
    ensures |a| <= |DeliveredSet(Run(cfg, ws, bundles))|
  {
    hide After, Run, DeliveredSet, Uniform, NoLoss, Feasible;
    var p := DeliveredBeatsSchedule(cfg, ws, bundles, n, |ws|, a);
    RunDelivers(cfg, ws, bundles);
    assert p.Keys == {};
  }

  // ---------------------------------------------------------------- every run is such a schedule

  // Which window served which bundle, for the first k windows of a run.
  function Served(cfg: Setup, ws: Plan, bundles: Batch, k: nat): Schedule
    requires k <= |ws|
  {
    if k == 0 then map[]
    else Served(cfg, ws, bundles, k - 1) + AllAt(SentAt(cfg, ws, bundles, k - 1), k - 1)
  }

  function AllAt(s: seq<Bundle>, k: nat): Schedule {
    map b | b in s :: k
  }

  lemma {:induction false} ServedAt(cfg: Setup, ws: Plan, bundles: Batch, k: nat, b: Bundle)
    requires k <= |ws|
    ensures var a := Served(cfg, ws, bundles, k);
            && (b in a ==> a[b] < k && b in SentAt(cfg, ws, bundles, a[b]))
            && (b in a <==> b in DeliveredSet(After(cfg, ws, bundles, k).queue.outcomes))
  {
    hide After, SentAt, DeliveredSet;
    if k == 0 {
      NothingDelivered(cfg, ws, bundles);
    } else {
      ServedAt(cfg, ws, bundles, k - 1, b);
      DeliveredGrows(cfg, ws, bundles, k - 1);
    }
  }

  lemma {:induction false} SentIsServed(cfg: Setup, ws: Plan, bundles: Batch, k: nat, i: nat, b: Bundle)
    requires i < k <= |ws| && b in SentAt(cfg, ws, bundles, i)
    ensures var a := Served(cfg, ws, bundles, k); b in a && a[b] == i
  {
    hide After, SentAt, DeliveredSet;
    if i < k - 1 {
      SentIsServed(cfg, ws, bundles, k - 1, i, b);
      ServedAt(cfg, ws, bundles, k - 1, b);
      DeliveredGrows(cfg, ws, bundles, k - 1);
    }
  }

  lemma ServedCarriage(cfg: Setup, ws: Plan, bundles: Batch, i: nat)
    requires i < |ws|
    ensures Carriage(Served(cfg, ws, bundles, |ws|), i) == set b | b in SentAt(cfg, ws, bundles, i)
  {
    hide After, SentAt, DeliveredSet, Served;
    forall b: Bundle
      ensures b in Carriage(Served(cfg, ws, bundles, |ws|), i) <==> b in SentAt(cfg, ws, bundles, i)
    {
      ServedAt(cfg, ws, bundles, |ws|, b);
      if b in SentAt(cfg, ws, bundles, i) { SentIsServed(cfg, ws, bundles, |ws|, i, b); }
    }
  }

  lemma NothingDelivered(cfg: Setup, ws: Plan, bundles: Batch)
    ensures DeliveredSet(After(cfg, ws, bundles, 0).queue.outcomes) == {}
  {
  }

  lemma {:induction false} EqualBits(s: seq<Bundle>, n: nat)
    requires Uniform(s, n)
    ensures BitsOf(s) == Cost(n, |s|)
  {
    if s != [] {
      assert s[0] in s;
      EqualBits(s[1..], n);
      CostStep(n, |s|);
      BitsCons(s);
    } else {
      assert Cost(n, 0) == 0.0;
    }
  }

  // What any run delivers, under any policy, is a feasible schedule.
  lemma RunIsFeasible(cfg: Setup, ws: Plan, bundles: Batch, n: nat)
    requires Uniform(bundles, n)
    ensures Feasible(Served(cfg, ws, bundles, |ws|), ws, bundles, n)
    ensures Served(cfg, ws, bundles, |ws|).Keys == DeliveredSet(Run(cfg, ws, bundles))
  {
    hide After, SentAt, DeliveredSet, Run, Served, Cost, Contacts.Window.Budget, Allowed;
    var a := Served(cfg, ws, bundles, |ws|);
    RunDelivers(cfg, ws, bundles);
    forall b: Bundle ensures b in a <==> b in DeliveredSet(Run(cfg, ws, bundles)) {
      ServedAt(cfg, ws, bundles, |ws|, b);
    }
    forall k | 0 <= k < |ws| ensures Cost(n, |Carriage(a, k)|) <= ws[k].Budget() {
      SentFacts(cfg, ws, bundles, k);
      ServedCarriage(cfg, ws, bundles, k);
      DistinctCard(SentAt(cfg, ws, bundles, k));
      EqualBits(SentAt(cfg, ws, bundles, k), n);
    }
    forall b | b in a ensures b in bundles && a[b] < |ws| && Allowed(b, ws[a[b]]) {
      ServedAt(cfg, ws, bundles, |ws|, b);
      SentFacts(cfg, ws, bundles, a[b]);
    }
  }

  // No policy, admission mode or buffer delivers more equal-sized bundles than earliest deadline first
  // does without overflow.
  lemma NoRunBeatsEdf(cfg: Setup, other: Setup, ws: Plan, bundles: Batch, n: nat)
    requires cfg.policy == DeadlineAware && Uniform(bundles, n) && NoLoss(cfg, ws, bundles)
    ensures |DeliveredSet(Run(other, ws, bundles))| <= |DeliveredSet(Run(cfg, ws, bundles))|
  {
    hide After, Run, DeliveredSet, NoLoss, Feasible, Served;
    RunIsFeasible(other, ws, bundles, n);
    EdfIsOptimal(cfg, ws, bundles, n, Served(other, ws, bundles, |ws|));
    assert |Served(other, ws, bundles, |ws|)| == |Served(other, ws, bundles, |ws|).Keys|;
  }
}
