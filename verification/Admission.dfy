/** The bounded buffer on values: admission with priority eviction, and expiry. */
module Admission {
  import opened Telemetry
  import opened Selection
  import opened Wrappers
  import Contacts

  // The buffer and everything written into records so far.
  datatype Queue = Queue(active: seq<Bundle>, outcomes: map<Bundle, Outcome>)

  datatype Event = Admitted | Overflowed | Expired | Sent(window: Contacts.Window) | Abandoned

  function OutcomeOf(m: map<Bundle, Outcome>, b: Bundle): Outcome {
    if b in m then m[b] else UNTOUCHED
  }

  function Apply(e: Event, b: Bundle, o: Outcome): Outcome {
    match e
    case Admitted => o.(admittedTs := Some(b.ingress))
    case Overflowed => o.(state := QueueOverflow)
    case Expired => o.(state := TtlExpired)
    case Sent(w) => o.(state := Delivered, sentTs := Some(w.start), deliveryTs := Some(w.start),
                       contact := Some(w.contactId))
    case Abandoned => o.(state := TerminalState.NeverScheduled)
  }

  function Record(m: map<Bundle, Outcome>, s: seq<Bundle>, e: Event): map<Bundle, Outcome> {
    map b | b in m.Keys + (set x | x in s) :: if b in s then Apply(e, b, OutcomeOf(m, b)) else m[b]
  }

  lemma RecordAt(m: map<Bundle, Outcome>, s: seq<Bundle>, e: Event, b: Bundle)
    ensures b in Record(m, s, e) <==> b in m || b in s
    ensures b in s ==> Record(m, s, e)[b] == Apply(e, b, OutcomeOf(m, b))
    ensures b in m && b !in s ==> Record(m, s, e)[b] == m[b]
  {
  }

  // ---------------------------------------------------------------- admission

  predicate Fits(bytes: int, cap: real) {
    bytes as real <= cap
  }

  // Strictly lower-priority bundles in the buffer.
  function Below(q: Queue, b: Bundle): seq<Bundle> {
    Select(RankAbove(b.Rank()), q.active)
  }

  // The shortest prefix of the candidates whose departure brings the load under the cap.
  function Victims(candidates: seq<Bundle>, load: int, cap: real): seq<Bundle> {
    if candidates == [] || Fits(load, cap) then []
    else [candidates[0]] + Victims(candidates[1..], load - candidates[0].size, cap)
  }

  function EvictedFor(q: Queue, b: Bundle, cap: real): seq<Bundle> {
    Victims(Sort(ForEviction, Below(q, b)), Bytes(q.active) + b.size, cap)
  }

  function Leave(q: Queue, gone: seq<Bundle>, e: Event): Queue {
    Queue(Select(NotAmong(gone), q.active), Record(q.outcomes, gone, e))
  }

  function Join(q: Queue, b: Bundle): Queue {
    Queue(q.active + [b], Record(q.outcomes, [b], Admitted))
  }

  predicate RoomAfterEviction(q: Queue, b: Bundle, cap: real) {
    Fits(Bytes(q.active) - Bytes(Below(q, b)) + b.size, cap)
  }

  function TryAdmit(cap: real, aware: bool, q: Queue, b: Bundle): Queue {
    if Fits(Bytes(q.active) + b.size, cap) then Join(q, b)
    else if aware && RoomAfterEviction(q, b, cap) then
      Join(Leave(q, EvictedFor(q, b, cap), Overflowed), b)
    else Queue(q.active, Record(q.outcomes, [b], Overflowed))
  }

  function AdmitAll(cap: real, aware: bool, q: Queue, arrivals: seq<Bundle>): Queue
    decreases |arrivals|
  {
    if arrivals == [] then q
    else AdmitAll(cap, aware, TryAdmit(cap, aware, q, arrivals[0]), arrivals[1..])
  }

  // ---------------------------------------------------------------- expiry

  function Expire(q: Queue, cutoff: real): Queue {
    Queue(Select(LiveAfter(cutoff), q.active),
          Record(q.outcomes, Select(StaleAt(cutoff), q.active), Expired))
  }

  // ---------------------------------------------------------------- eviction is minimal

  lemma {:induction false} VictimsPrefix(c: seq<Bundle>, load: int, cap: real)
    ensures Victims(c, load, cap) <= c
  {
    if c != [] && !Fits(load, cap) {
      VictimsPrefix(c[1..], load - c[0].size, cap);
    }
  }

  lemma {:induction false} VictimsSuffice(c: seq<Bundle>, load: int, cap: real)
    requires Fits(load - Bytes(c), cap)
    ensures Fits(load - Bytes(Victims(c, load, cap)), cap)
  {
    if c != [] && !Fits(load, cap) {
      VictimsSuffice(c[1..], load - c[0].size, cap);
    }
  }

  lemma {:induction false} VictimsMinimal(c: seq<Bundle>, load: int, cap: real)
    requires Victims(c, load, cap) != []
    ensures var v := Victims(c, load, cap); !Fits(load - Bytes(v[..|v| - 1]), cap)
  {
    var v := Victims(c, load, cap);
    var t := Victims(c[1..], load - c[0].size, cap);
    if t == [] {
      assert v[..|v| - 1] == [];
    } else {
      VictimsMinimal(c[1..], load - c[0].size, cap);
      assert v[..|v| - 1] == [c[0]] + t[..|t| - 1];
      assert v[..|v| - 1][1..] == t[..|t| - 1];
    }
  }

  // Who may be evicted, and in which order.
  lemma VictimsAreLowest(q: Queue, b: Bundle, cap: real)
    ensures EvictedFor(q, b, cap) <= Sort(ForEviction, Below(q, b))
    ensures forall x :: x in EvictedFor(q, b, cap) ==> x in q.active && b.Rank() < x.Rank()
  {
    var c := Sort(ForEviction, Below(q, b));
    VictimsPrefix(c, Bytes(q.active) + b.size, cap);
    forall x | x in EvictedFor(q, b, cap) ensures x in q.active && b.Rank() < x.Rank() {
      assert x in c;
      SortMembers(ForEviction, Below(q, b));
      SelectMember(RankAbove(b.Rank()), q.active);
    }
  }

  lemma PrefixDistinct(s: seq<Bundle>, v: seq<Bundle>)
    requires Distinct(s) && v <= s
    ensures Distinct(v)
  {
    assert v == s[..|v|];
  }

  lemma VictimsDistinct(q: Queue, b: Bundle, cap: real)
    requires Distinct(q.active)
    ensures Distinct(EvictedFor(q, b, cap))
  {
    SelectDistinct(RankAbove(b.Rank()), q.active);
    SortDistinct(ForEviction, Below(q, b));
    VictimsPrefix(Sort(ForEviction, Below(q, b)), Bytes(q.active) + b.size, cap);
    PrefixDistinct(Sort(ForEviction, Below(q, b)), EvictedFor(q, b, cap));
  }

  // A victim is never of higher priority, nor older within its rank, than a candidate that stays.
  lemma VictimsBeforeSurvivors(q: Queue, b: Bundle, cap: real, x: Bundle, y: Bundle)
    requires x in EvictedFor(q, b, cap) && y in Below(q, b) && y !in EvictedFor(q, b, cap)
    ensures y.Rank() < x.Rank() || (y.Rank() == x.Rank() && y.ingress <= x.ingress)
  {
    var c := Sort(ForEviction, Below(q, b));
    SortMembers(ForEviction, Below(q, b));
    SortSorted(ForEviction, Below(q, b));
    VictimsPrefix(c, Bytes(q.active) + b.size, cap);
    OrderAcrossPrefix(c, EvictedFor(q, b, cap), x, y);
  }

  // Eviction happens only to admit and stops as soon as the arrival fits: without the last victim it
  // would not.
  lemma EvictionIsMinimal(q: Queue, b: Bundle, cap: real)
    requires Distinct(q.active)
    requires !Fits(Bytes(q.active) + b.size, cap) && RoomAfterEviction(q, b, cap)
    ensures var v := EvictedFor(q, b, cap);
            && v != []
            && Bytes(Select(NotAmong(v), q.active)) == Bytes(q.active) - Bytes(v)
            && Fits(Bytes(q.active) - Bytes(v) + b.size, cap)
            && !Fits(Bytes(q.active) - Bytes(v[..|v| - 1]) + b.size, cap)
  {
    var c := Sort(ForEviction, Below(q, b));
    var v := EvictedFor(q, b, cap);
    var load := Bytes(q.active) + b.size;
    hide Sort, Below, Select;
    assert Bytes(c) == Bytes(Below(q, b)) by {
      SortPermutes(ForEviction, Below(q, b));
      BytesPermute(c, Below(q, b));
    }
    VictimsSuffice(c, load, cap);
    assert Bytes([]) == 0;
    VictimsMinimal(c, load, cap);
    assert Bytes(Select(NotAmong(v), q.active)) == Bytes(q.active) - Bytes(v) by {
      VictimsAreLowest(q, b, cap);
      VictimsDistinct(q, b, cap);
      BytesWithout(q.active, v);
    }
  }

  lemma OrderAcrossPrefix(c: seq<Bundle>, v: seq<Bundle>, x: Bundle, y: Bundle)
    requires v <= c && Sorted(ForEviction, c)
    requires x in v && y in c && y !in v
    ensures y.Rank() < x.Rank() || (y.Rank() == x.Rank() && y.ingress <= x.ingress)
  {
    var i :| 0 <= i < |v| && v[i] == x;
    var j :| 0 <= j < |c| && c[j] == y;
    assert c[i] == x;
    assert |v| <= j;
    assert !Before(ForEviction, c[j], c[i]);
  }

  // ---------------------------------------------------------------- what an admission decides

  // With priority-aware admission an arrival enters exactly when it fits beside the queued bundles of
  // its own rank and above: lower-priority bytes never matter.
  lemma AdmittedIffOwnRankFits(cap: real, q: Queue, b: Bundle)
    requires b !in q.active
    ensures b in TryAdmit(cap, true, q, b).active
       <==> Fits(Bytes(Select(RankAtMost(b.Rank()), q.active)) + b.size, cap)
  {
    BytesSplit(RankAtMost(b.Rank()), q.active);
  }

  // ---------------------------------------------------------------- projection to the top ranks

  function Keep(t: Test, m: map<Bundle, Outcome>): map<Bundle, Outcome> {
    map b | b in m && t.Passes(b) :: m[b]
  }

  function Project(t: Test, q: Queue): Queue {
    Queue(Select(t, q.active), Keep(t, q.outcomes))
  }

  lemma KeepRecordAt(t: Test, m: map<Bundle, Outcome>, s: seq<Bundle>, e: Event, b: Bundle)
    ensures var l, r := Keep(t, Record(m, s, e)), Record(Keep(t, m), Select(t, s), e);
            (b in l <==> b in r) && (b in l ==> l[b] == r[b])
  {
    SelectMember(t, s);
    RecordAt(m, s, e, b);
    RecordAt(Keep(t, m), Select(t, s), e, b);
  }

  lemma KeepRecord(t: Test, m: map<Bundle, Outcome>, s: seq<Bundle>, e: Event)
    ensures Keep(t, Record(m, s, e)) == Record(Keep(t, m), Select(t, s), e)
  {
    forall b ensures var l, r := Keep(t, Record(m, s, e)), Record(Keep(t, m), Select(t, s), e);
                     (b in l <==> b in r) && (b in l ==> l[b] == r[b])
    {
      KeepRecordAt(t, m, s, e, b);
    }
  }

  lemma RecordNothing(m: map<Bundle, Outcome>, e: Event)
    ensures Record(m, [], e) == m
  {
  }

  lemma SelectWithout(t: Test, s: seq<Bundle>, gone: seq<Bundle>)
    ensures Select(t, Select(NotAmong(gone), s)) == Select(NotAmong(Select(t, gone)), Select(t, s))
  {
    SelectSwap(t, NotAmong(gone), s);
    forall b | b in Select(t, s)
      ensures NotAmong(gone).Passes(b) == NotAmong(Select(t, gone)).Passes(b)
    {
      SelectMember(t, s);
      SelectMember(t, gone);
    }
    SelectAgree(NotAmong(gone), NotAmong(Select(t, gone)), Select(t, s));
  }

  lemma ProjectLeave(t: Test, q: Queue, gone: seq<Bundle>, e: Event)
    ensures Project(t, Leave(q, gone, e)) == Leave(Project(t, q), Select(t, gone), e)
  {
    KeepRecord(t, q.outcomes, gone, e);
    SelectWithout(t, q.active, gone);
  }

  lemma ProjectJoin(t: Test, q: Queue, b: Bundle)
    ensures Project(t, Join(q, b)) == if t.Passes(b) then Join(Project(t, q), b) else Project(t, q)
  {
    SelectAppend(t, q.active, [b]);
    KeepRecord(t, q.outcomes, [b], Admitted);
    RecordNothing(Keep(t, q.outcomes), Admitted);
  }

  lemma ProjectExpire(t: Test, q: Queue, cutoff: real)
    ensures Project(t, Expire(q, cutoff)) == Expire(Project(t, q), cutoff)
  {
    SelectSwap(t, LiveAfter(cutoff), q.active);
    SelectSwap(t, StaleAt(cutoff), q.active);
    KeepRecord(t, q.outcomes, Select(StaleAt(cutoff), q.active), Expired);
  }

  // Victims of a concatenation: the second part is touched only when the whole first part is not enough.
  lemma {:induction false} VictimsAppend(a: seq<Bundle>, c: seq<Bundle>, load: int, cap: real)
    ensures Victims(a + c, load, cap)
         == if Fits(load - Bytes(a), cap) then Victims(a, load, cap)
            else a + Victims(c, load - Bytes(a), cap)
  {
    if a == [] {
      assert a + c == c;
    } else {
      assert (a + c)[1..] == a[1..] + c;
      VictimsAppend(a[1..], c, load - a[0].size, cap);
    }
  }

  // Candidates sorted for eviction list every rank beyond r before any rank up to r.
  lemma CandidatesSplit(q: Queue, b: Bundle, r: int)
    requires b.Rank() <= r
    ensures Sort(ForEviction, Below(q, b))
         == Sort(ForEviction, Select(RankAbove(r), q.active))
          + Sort(ForEviction, Below(Project(RankAtMost(r), q), b))
  {
    var low, top, bottom := RankAbove(b.Rank()), RankAtMost(r), RankAbove(r);
    var c := Sort(ForEviction, Below(q, b));
    SortSorted(ForEviction, Below(q, b));
    forall i, j | 0 <= i < j < |c| && bottom.Passes(c[j]) ensures bottom.Passes(c[i]) {
      assert !Before(ForEviction, c[j], c[i]);
    }
    SplitByTest(bottom, c);
    assert Select(bottom, c) == Sort(ForEviction, Select(bottom, q.active)) by {
      SelectSort(bottom, ForEviction, Below(q, b));
      SelectAbsorb(bottom, low, q.active);
    }
    assert Select(top, c) == Sort(ForEviction, Below(Project(top, q), b)) by {
      SelectSort(top, ForEviction, Below(q, b));
      SelectSwap(top, low, q.active);
    }
  }

  lemma SortedPart(t: Test, s: seq<Bundle>)
    ensures Bytes(Sort(ForEviction, Select(t, s))) == Bytes(Select(t, s))
    ensures Select(t.Dual(), Sort(ForEviction, Select(t, s))) == []
    ensures Select(t, Sort(ForEviction, Select(t, s))) == Sort(ForEviction, Select(t, s))
  {
    SortPermutes(ForEviction, Select(t, s));
    BytesPermute(Sort(ForEviction, Select(t, s)), Select(t, s));
    SortMembers(ForEviction, Select(t, s));
    SelectMember(t, s);
    SelectNone(t.Dual(), Sort(ForEviction, Select(t, s)));
    SelectAll(t, Sort(ForEviction, Select(t, s)));
  }

  // The loads seen by an arrival of rank at most r with and without the lower ranks.
  lemma ProjectedLoads(q: Queue, b: Bundle, r: int)
    requires b.Rank() <= r
    ensures var p := Project(RankAtMost(r), q);
            && Bytes(p.active) <= Bytes(q.active)
            && Bytes(q.active) - Bytes(Below(q, b)) == Bytes(p.active) - Bytes(Below(p, b))
  {
    var top, own := RankAtMost(r), RankAtMost(b.Rank());
    BytesSplit(top, q.active);
    BytesSplit(own, q.active);
    BytesSplit(own, Select(top, q.active));
    SelectAbsorb(own, top, q.active);
  }

  lemma SelectVictims(t: Test, hi: seq<Bundle>, lo: seq<Bundle>, load: int, cap: real)
    requires Select(t, hi) == [] && Select(t, lo) == lo
    ensures Select(t, Victims(hi + lo, load, cap)) == Victims(lo, load - Bytes(hi), cap)
  {
    VictimsAppend(hi, lo, load, cap);
    if Fits(load - Bytes(hi), cap) {
      VictimsPrefix(hi, load, cap);
      NoneOfPrefix(t, hi, Victims(hi, load, cap));
    } else {
      var w := Victims(lo, load - Bytes(hi), cap);
      VictimsPrefix(lo, load - Bytes(hi), cap);
      SelectAppend(t, hi, w);
      AllOfPrefix(t, lo, w);
    }
  }

  lemma HighPart(q: Queue, r: int)
    ensures var hi := Sort(ForEviction, Select(RankAbove(r), q.active));
            && Select(RankAtMost(r), hi) == []
            && Bytes(hi) == Bytes(q.active) - Bytes(Select(RankAtMost(r), q.active))
  {
    SortedPart(RankAbove(r), q.active);
    BytesSplit(RankAtMost(r), q.active);
    assert RankAbove(r).Dual() == RankAtMost(r) && RankAtMost(r).Dual() == RankAbove(r);
  }

  lemma LowPart(q: Queue, b: Bundle, r: int)
    ensures var lo := Sort(ForEviction, Below(Project(RankAtMost(r), q), b));
            Select(RankAtMost(r), lo) == lo
  {
    SelectSwap(RankAtMost(r), RankAbove(b.Rank()), q.active);
    SortedPart(RankAtMost(r), Below(q, b));
  }

  lemma ProjectVictims(cap: real, q: Queue, b: Bundle, r: int)
    requires b.Rank() <= r
    ensures Select(RankAtMost(r), EvictedFor(q, b, cap))
         == EvictedFor(Project(RankAtMost(r), q), b, cap)
  {
    var hi := Sort(ForEviction, Select(RankAbove(r), q.active));
    var lo := Sort(ForEviction, Below(Project(RankAtMost(r), q), b));
    CandidatesSplit(q, b, r);
    HighPart(q, r);
    LowPart(q, b, r);
    SelectVictims(RankAtMost(r), hi, lo, Bytes(q.active) + b.size, cap);
  }

  lemma ProjectEviction(cap: real, q: Queue, b: Bundle, r: int)
    requires b.Rank() <= r
    ensures Project(RankAtMost(r), Join(Leave(q, EvictedFor(q, b, cap), Overflowed), b))
         == Join(Leave(Project(RankAtMost(r), q), EvictedFor(Project(RankAtMost(r), q), b, cap), Overflowed), b)
  {
    var t := RankAtMost(r);
    var v := EvictedFor(q, b, cap);
    ProjectVictims(cap, q, b, r);
    ProjectJoin(t, Leave(q, v, Overflowed), b);
    ProjectLeave(t, q, v, Overflowed);
  }

  // Evicting nothing is not evicting.
  lemma FitsWithoutEviction(cap: real, q: Queue, b: Bundle)
    requires Fits(Bytes(q.active) + b.size, cap)
    ensures Join(Leave(q, EvictedFor(q, b, cap), Overflowed), b) == Join(q, b)
  {
    LeaveNothing(q, Overflowed);
  }

  // A top-rank arrival fares the same with and without the lower ranks in the buffer.
  lemma ProjectAdmitKept(cap: real, q: Queue, b: Bundle, r: int)
    requires b.Rank() <= r
    ensures Project(RankAtMost(r), TryAdmit(cap, true, q, b))
         == TryAdmit(cap, true, Project(RankAtMost(r), q), b)
  {
    var t := RankAtMost(r);
    var p := Project(t, q);
    ProjectedLoads(q, b, r);
    if Fits(Bytes(q.active) + b.size, cap) {
      ProjectJoin(t, q, b);
    } else if RoomAfterEviction(q, b, cap) {
      ProjectEviction(cap, q, b, r);
      if Fits(Bytes(p.active) + b.size, cap) {
        FitsWithoutEviction(cap, p, b);
      }
    } else {
      KeepRecord(t, q.outcomes, [b], Overflowed);
    }
  }

  lemma NoneOfPrefix(t: Test, s: seq<Bundle>, v: seq<Bundle>)
    requires v <= s && Select(t, s) == []
    ensures Select(t, v) == []
  {
    assert s == v + s[|v|..];
    SelectAppend(t, v, s[|v|..]);
  }

  lemma AllOfPrefix(t: Test, s: seq<Bundle>, v: seq<Bundle>)
    requires v <= s && Select(t, s) == s
    ensures Select(t, v) == v
  {
    SelectMember(t, s);
    SelectAll(t, v);
  }

  lemma LeaveNothing(q: Queue, e: Event)
    ensures Leave(q, [], e) == q
  {
    SelectAll(NotAmong([]), q.active);
    RecordNothing(q.outcomes, e);
  }

  // A low-rank arrival, whatever becomes of it, leaves the top ranks untouched.
  lemma ProjectAdmitDropped(cap: real, q: Queue, b: Bundle, r: int)
    requires r < b.Rank()
    ensures Project(RankAtMost(r), TryAdmit(cap, true, q, b)) == Project(RankAtMost(r), q)
  {
    var t := RankAtMost(r);
    if Fits(Bytes(q.active) + b.size, cap) {
      ProjectJoin(t, q, b);
    } else if RoomAfterEviction(q, b, cap) {
      var v := EvictedFor(q, b, cap);
      SortMembers(ForEviction, Below(q, b));
      SelectMember(RankAbove(b.Rank()), q.active);
      VictimsPrefix(Sort(ForEviction, Below(q, b)), Bytes(q.active) + b.size, cap);
      forall x | x in v ensures !t.Passes(x) {
        assert x in Below(q, b);
        assert RankAbove(b.Rank()).Passes(x);
      }
      SelectNone(t, v);
      ProjectJoin(t, Leave(q, v, Overflowed), b);
      ProjectLeave(t, q, v, Overflowed);
      LeaveNothing(Project(t, q), Overflowed);
    } else {
      KeepRecord(t, q.outcomes, [b], Overflowed);
      RecordNothing(Keep(t, q.outcomes), Overflowed);
    }
  }

  lemma {:induction false} ProjectAdmitAll(cap: real, q: Queue, arrivals: seq<Bundle>, r: int)
    ensures Project(RankAtMost(r), AdmitAll(cap, true, q, arrivals))
         == AdmitAll(cap, true, Project(RankAtMost(r), q), Select(RankAtMost(r), arrivals))
    decreases |arrivals|
  {
    if arrivals != [] {
      var b := arrivals[0];
      ProjectAdmitAll(cap, TryAdmit(cap, true, q, b), arrivals[1..], r);
      if b.Rank() <= r {
        ProjectAdmitKept(cap, q, b, r);
      } else {
        ProjectAdmitDropped(cap, q, b, r);
      }
    }
  }
}
