/** Facts on values that the scheduler's methods need step by step: outcomes written one at a time, lists
    drained from the front, shares of the round robin turn by turn. */
module Bookkeeping {
  import opened Traffic
  import opened Telemetry
  import opened Selection
  import opened Admission
  import opened Drain
  import opened Policies
  import opened Replay
  import opened Records
  import opened Wrappers
  import Contacts
  import Drr

  // ---------------------------------------------------------------- writing outcomes in several steps

  lemma RecordTwice(m: map<Bundle, Outcome>, a: seq<Bundle>, b: seq<Bundle>, e: Event)
    requires forall x :: x in b ==> x !in a
    ensures Record(Record(m, a, e), b, e) == Record(m, a + b, e)
  {
    var l, r := Record(Record(m, a, e), b, e), Record(m, a + b, e);
    forall x ensures (x in l <==> x in r) && (x in l ==> l[x] == r[x]) {
      RecordAt(m, a, e, x);
      RecordAt(Record(m, a, e), b, e, x);
      RecordAt(m, a + b, e, x);
    }
  }

  // Queued bundles, each once, with nothing written beyond their admission.
  ghost predicate AllWaiting(m: map<Bundle, Outcome>, s: seq<Bundle>) {
    Distinct(s) && forall b :: b in s ==> OutcomeOf(m, b) == Waiting(b)
  }

  lemma WaitingTail(m: map<Bundle, Outcome>, s: seq<Bundle>, x: Bundle, e: Event)
    requires AllWaiting(m, [x] + s)
    ensures x !in s && OutcomeOf(m, x) == Waiting(x) && Distinct([x] + s)
    ensures AllWaiting(Record(m, [x], e), s)
  {
    var t := [x] + s;
    DistinctCons(t);
    assert t[0] == x && t[1..] == s;
    forall b | b in s ensures OutcomeOf(Record(m, [x], e), b) == Waiting(b) {
      assert b in t;
      RecordAt(m, [x], e, b);
    }
  }

  lemma WaitingSub(m: map<Bundle, Outcome>, s: seq<Bundle>, x: Bundle)
    requires AllWaiting(m, [x] + s)
    ensures AllWaiting(m, s)
  {
    var t := [x] + s;
    DistinctCons(t);
    assert t[0] == x && t[1..] == s;
  }

  lemma GreedyCons(x: Bundle, s: seq<Bundle>, budget: real, stop: bool)
    ensures x.Bits() <= budget ==>
              && Greedy([x] + s, budget, stop) == [x] + Greedy(s, budget - x.Bits(), stop)
              && Passed([x] + s, budget, stop) == Passed(s, budget - x.Bits(), stop)
    ensures budget < x.Bits() && stop ==>
              Greedy([x] + s, budget, stop) == [] && Passed([x] + s, budget, stop) == [x] + s
    ensures budget < x.Bits() && !stop ==>
              && Greedy([x] + s, budget, stop) == Greedy(s, budget, stop)
              && Passed([x] + s, budget, stop) == [x] + Passed(s, budget, stop)
  {
    assert ([x] + s)[1..] == s;
  }

  lemma NothingSent(info: Reading, line: seq<BundleRecord>, m: map<Bundle, Outcome>, e: Event)
    requires Read(info, line)
    ensures line[0..] == line && line[|line|..] == [] && Values(info, []) == []
    ensures Record(m, [], e) == m && Bytes([]) == 0
    ensures forall budget, stop :: Greedy([], budget, stop) == [] && Passed([], budget, stop) == []
  {
    RecordNothing(m, e);
  }

  lemma SentOneMore(sent: seq<Bundle>, x: Bundle)
    ensures Bytes(sent + [x]) == Bytes(sent) + x.size
    ensures BitsOf(sent + [x]) == BitsOf(sent) + x.Bits()
  {
    BytesAppend(sent, [x]);
    assert Bytes([x]) == x.size;
  }

  lemma {:induction false} SelectTwice(a: seq<Bundle>, b: seq<Bundle>, s: seq<Bundle>)
    ensures Select(NotAmong(b), Select(NotAmong(a), s)) == Select(NotAmong(a + b), s)
  {
    if s != [] { SelectTwice(a, b, s[1..]); }
  }

  lemma LeaveTwice(q: Queue, a: seq<Bundle>, b: seq<Bundle>, e: Event)
    requires forall x :: x in b ==> x !in a
    ensures Leave(Leave(q, a, e), b, e) == Leave(q, a + b, e)
  {
    SelectTwice(a, b, q.active);
    RecordTwice(q.outcomes, a, b, e);
  }

  lemma VictimsCons(x: Bundle, s: seq<Bundle>, load: int, cap: real)
    ensures Victims([x] + s, load, cap) == if Fits(load, cap) then [] else [x] + Victims(s, load - x.size, cap)
  {
    assert ([x] + s)[1..] == s;
  }

  lemma NoVictims(load: int, cap: real, info: Reading, s: seq<BundleRecord>)
    ensures Victims([], load, cap) == []
    ensures s[|s|..] == [] && Values(info, []) == []
    ensures Fits(load, cap) ==> forall c {:trigger Victims(c, load, cap)} :: Victims(c, load, cap) == []
  {
  }

  lemma LeaveDistinct(q: Queue, gone: seq<Bundle>, e: Event)
    ensures Distinct(q.active) ==> Distinct(Leave(q, gone, e).active)
  {
    if Distinct(q.active) { SelectDistinct(NotAmong(gone), q.active); }
  }

  lemma EvictionStarts(q: Queue, b: Bundle, cap: real)
    requires Consistent(q, cap)
    ensures AllWaiting(q.outcomes, Sort(ForEviction, Below(q, b)))
    ensures Leave(q, [], Overflowed) == q && Bytes([]) == 0 && Distinct(q.active)
    ensures EvictedFor(q, b, cap) == Victims(Sort(ForEviction, Below(q, b)), Bytes(q.active) + b.size, cap)
  {
    SelectMember(RankAbove(b.Rank()), q.active);
    SelectDistinct(RankAbove(b.Rank()), q.active);
    SortMembers(ForEviction, Below(q, b));
    SortDistinct(ForEviction, Below(q, b));
    LeaveNothing(q, Overflowed);
  }

  lemma ConsistentDistinct(q: Queue, cap: real)
    requires Consistent(q, cap)
    ensures Distinct(q.active)
  {
  }

  lemma EvictionEnds(q: Queue, b: Bundle, cap: real)
    requires Consistent(q, cap) && !Fits(Bytes(q.active) + b.size, cap) && RoomAfterEviction(q, b, cap)
    ensures var v := EvictedFor(q, b, cap);
            && Consistent(Leave(q, v, Overflowed), cap)
            && Bytes(Leave(q, v, Overflowed).active) == Bytes(q.active) - Bytes(v)
            && Fits(Bytes(q.active) - Bytes(v) + b.size, cap)
  {
    hide Bytes, Sort, Victims, EvictedFor, Below, Record, Select, Distinct;
    ConsistentDistinct(q, cap);
    EvictionIsMinimal(q, b, cap);
    VictimsAreLowest(q, b, cap);
    LeaveKeeps(q, EvictedFor(q, b, cap), Overflowed, cap);
  }

  lemma BelowFacts(q: Queue, b: Bundle)
    ensures Below(q, b) == [] ==> Bytes(Below(q, b)) == 0
  {
  }

  // How an admission changes the byte count.
  lemma AdmissionBytes(cap: real, aware: bool, q: Queue, b: Bundle)
    requires Consistent(q, cap)
    ensures Bytes(Join(q, b).active) == Bytes(q.active) + b.size
    ensures var m := Leave(q, EvictedFor(q, b, cap), Overflowed);
            Bytes(Join(m, b).active) == Bytes(m.active) + b.size
  {
    BytesAppend(q.active, [b]);
    BytesAppend(Leave(q, EvictedFor(q, b, cap), Overflowed).active, [b]);
    assert Bytes([b]) == b.size;
  }

  lemma AdmitNone(cap: real, aware: bool)
    ensures forall q :: AdmitAll(cap, aware, q, []) == q
  {
  }

  lemma AdmitCons(cap: real, aware: bool, q: Queue, x: Bundle, s: seq<Bundle>)
    requires Distinct([x] + s)
    ensures AdmitAll(cap, aware, q, [x] + s) == AdmitAll(cap, aware, Admission.TryAdmit(cap, aware, q, x), s)
    ensures Distinct(s) && x !in s
    ensures x in [x] + s && forall b :: b in s ==> b in [x] + s
  {
    DistinctCons([x] + s);
    assert ([x] + s)[1..] == s;
  }

  lemma ExpiryCons(cutoff: real, x: Bundle, s: seq<Bundle>)
    ensures x.expiration <= cutoff ==>
              && Select(StaleAt(cutoff), [x] + s) == [x] + Select(StaleAt(cutoff), s)
              && Select(LiveAfter(cutoff), [x] + s) == Select(LiveAfter(cutoff), s)
    ensures cutoff < x.expiration ==>
              && Select(StaleAt(cutoff), [x] + s) == Select(StaleAt(cutoff), s)
              && Select(LiveAfter(cutoff), [x] + s) == [x] + Select(LiveAfter(cutoff), s)
  {
    SelectCons(StaleAt(cutoff), x, s);
    SelectCons(LiveAfter(cutoff), x, s);
  }

  lemma ExpiryStarts(q: Queue, cutoff: real, cap: real)
    requires Consistent(q, cap)
    ensures AllWaiting(q.outcomes, q.active)
    ensures Record(q.outcomes, [], Expired) == q.outcomes && Bytes([]) == 0
    ensures Consistent(Expire(q, cutoff), cap)
    ensures Bytes(Expire(q, cutoff).active) == Bytes(q.active) - Bytes(Select(StaleAt(cutoff), q.active))
  {
    RecordNothing(q.outcomes, Expired);
    ExpireKeeps(q, cutoff, cap);
    BytesSplit(StaleAt(cutoff), q.active);
  }

  lemma WaitingPermuted(m: map<Bundle, Outcome>, s: seq<Bundle>, t: seq<Bundle>)
    requires AllWaiting(m, s) && multiset(t) == multiset(s)
    ensures AllWaiting(m, t)
  {
    forall b ensures multiset(t)[b] <= 1 {
      DistinctCount(s, b);
    }
    CountDistinct(t);
    forall b | b in t ensures b in s {
      assert b in multiset(t);
    }
  }

  lemma RankedWaiting(m: map<Bundle, Outcome>, p: Policy, s: seq<Bundle>, next: Option<real>)
    requires !RoundRobin(p) && AllWaiting(m, s)
    ensures AllWaiting(m, Ranked(p, s, next))
  {
    RankedPermutes(p, s, next);
    WaitingPermuted(m, s, Ranked(p, s, next));
  }

  // ---------------------------------------------------------------- lines of the round robin

  // What was written and how many bytes were queued when a window opened.
  datatype Tally = Tally(outcomes: map<Bundle, Outcome>, bytes: int)

  type Lines = map<TrafficClass, seq<BundleRecord>>

  ghost predicate LineWaits(m: map<Bundle, Outcome>, s: Drr.Share, c: TrafficClass) {
    AllWaiting(m, s.Line(c)) && forall b :: b in s.Line(c) ==> b.cls == c
  }

  lemma LineIsWaiting(m: map<Bundle, Outcome>, s: Drr.Share, c: TrafficClass)
    requires LineWaits(m, s, c)
    ensures AllWaiting(m, s.Line(c))
  {
  }

  lemma GreedySplit(s: seq<Bundle>, budget: real, stop: bool)
    requires Distinct(s)
    ensures Distinct(Passed(s, budget, stop))
    ensures forall b :: b in Greedy(s, budget, stop) ==> b in s && b !in Passed(s, budget, stop)
    ensures forall b :: b in Passed(s, budget, stop) ==> b in s
  {
    var out, kept := Greedy(s, budget, stop), Passed(s, budget, stop);
    GreedyPartition(s, budget, stop);
    forall b ensures multiset(out)[b] + multiset(kept)[b] <= 1 {
      DistinctCount(s, b);
      assert multiset(s)[b] == multiset(out)[b] + multiset(kept)[b];
    }
    CountDistinct(kept);
    forall b
      ensures b in out ==> b in s && b !in kept
      ensures b in kept ==> b in s
    {
      assert multiset(s)[b] == multiset(out)[b] + multiset(kept)[b];
      assert b in out <==> b in multiset(out);
      assert b in kept <==> b in multiset(kept);
      assert b in s <==> b in multiset(s);
    }
  }

  // A turn of class c leaves everything still in line waiting.
  lemma TurnKeepsWaiting(m: map<Bundle, Outcome>, s: Drr.Share, c: TrafficClass, skip: bool, grant: real,
                         w: Contacts.Window)
    requires forall d :: d in Drr.SHARED ==> LineWaits(m, s, d)
    requires c in Drr.SHARED
    ensures var out := Greedy(s.Line(c), Drr.Min(s.Credit(c) + grant, s.left), !skip);
            && (forall b :: b in out ==> b in s.Line(c))
            && (forall d :: d in Drr.SHARED ==> LineWaits(Record(m, out, Sent(w)), Drr.Turn(skip, s, c, grant), d))
  {
    var room := Drr.Min(s.Credit(c) + grant, s.left);
    var out := Greedy(s.Line(c), room, !skip);
    var r := Drr.Turn(skip, s, c, grant);
    assert LineWaits(m, s, c);
    GreedySplit(s.Line(c), room, !skip);
    forall d | d in Drr.SHARED ensures LineWaits(Record(m, out, Sent(w)), r, d) {
      assert LineWaits(m, s, d);
      hide Greedy, Passed;
      assert r.Line(d) == if d == c then Passed(s.Line(c), room, !skip) else s.Line(d);
      forall b | b in r.Line(d) ensures OutcomeOf(Record(m, out, Sent(w)), b) == Waiting(b) && b.cls == d {
        assert b in s.Line(d);
        RecordAt(m, out, Sent(w), b);
      }
    }
  }

  // What is waiting has not been sent, so sending some of it adds to what has been.
  lemma SentJoins(base: Tally, sent: seq<Bundle>, out: seq<Bundle>, line: seq<Bundle>, m: map<Bundle, Outcome>,
                  w: Contacts.Window)
    requires m == Record(base.outcomes, sent, Sent(w)) && AllWaiting(m, line)
    requires forall b :: b in out ==> b in line
    ensures Record(m, out, Sent(w)) == Record(base.outcomes, sent + out, Sent(w))
    ensures Bytes(sent + out) == Bytes(sent) + Bytes(out)
  {
    forall b | b in out ensures b !in sent {
      RecordAt(base.outcomes, sent, Sent(w), b);
    }
    RecordTwice(base.outcomes, sent, out, Sent(w));
    BytesAppend(sent, out);
  }

  // A list of records and the list of its values are empty together and agree on the size of the head.
  ghost predicate SameHead(line: seq<BundleRecord>, s: seq<Bundle>) {
    (line == [] <==> s == []) && (line != [] ==> line[0].size == s[0].size)
  }

  function BackloggedIn(lines: Lines, order: seq<TrafficClass>): seq<TrafficClass> {
    if order == [] then []
    else if order[0] in lines && lines[order[0]] != [] then [order[0]] + BackloggedIn(lines, order[1..])
    else BackloggedIn(lines, order[1..])
  }

  lemma {:induction false} BackloggedSame(lines: Lines, s: Drr.Share, order: seq<TrafficClass>)
    requires forall c :: c in order ==> c in lines && SameHead(lines[c], s.Line(c))
    ensures BackloggedIn(lines, order) == Drr.Backlogged(s, order)
  {
    if order != [] {
      BackloggedSame(lines, s, order[1..]);
      assert order[0] in order;
    }
  }

  lemma TurnsDone(skip: bool, s: Drr.Share, budget: real, total: real, cs: seq<TrafficClass>)
    ensures 0.0 < total ==> Drr.Turns(skip, s, [], budget, total) == s
    ensures cs[0..] == cs && cs[|cs|..] == []
  {
  }

  lemma TurnsCons(skip: bool, s: Drr.Share, cs: seq<TrafficClass>, budget: real, total: real, grant: real)
    requires cs != [] && 0.0 < total && grant == budget * (Drr.Weight(cs[0]) / total)
    ensures Drr.Turns(skip, s, cs, budget, total)
         == Drr.Turns(skip, Drr.Turn(skip, s, cs[0], grant), cs[1..], budget, total)
  {
    hide Drr.Turn;
  }

  lemma NextTurn(skip: bool, s: Drr.Share, cs: seq<TrafficClass>, i: nat, budget: real, total: real, grant: real)
    requires i < |cs| && 0.0 < total && grant == budget * (Drr.Weight(cs[i]) / total)
    ensures Drr.Turns(skip, s, cs[i..], budget, total)
         == Drr.Turns(skip, Drr.Turn(skip, s, cs[i], grant), cs[i + 1..], budget, total)
  {
    hide *;
    assert cs[i..][0] == cs[i] && cs[i..][1..] == cs[i + 1..];
    TurnsCons(skip, s, cs[i..], budget, total, grant);
  }

  lemma RoundTotal(s: Drr.Share, order: seq<TrafficClass>)
    requires Drr.Goes(s, order)
    ensures 0.0 < Drr.TotalWeight(Drr.Backlogged(s, order))
    ensures forall c :: c in Drr.Backlogged(s, order) ==> c in order
  {
    Drr.BackloggedFacts(s, order);
    var c :| c in order && Drr.HeadFits(s, c);
    assert c in Drr.Backlogged(s, order);
  }

  predicate HeadFitsIn(lines: Lines, c: TrafficClass, left: real) {
    c in lines && lines[c] != [] && (8 * lines[c][0].size) as real <= left
  }

  lemma FitsSame(lines: Lines, s: Drr.Share, order: seq<TrafficClass>)
    requires forall c :: c in order ==> c in lines && SameHead(lines[c], s.Line(c))
    ensures Drr.Goes(s, order) <==> 0.0 < s.left && exists c :: c in order && HeadFitsIn(lines, c, s.left)
  {
    assert forall c :: c in order ==> (HeadFitsIn(lines, c, s.left) <==> Drr.HeadFits(s, c));
  }

  lemma SpentStops(s: Drr.Share, order: seq<TrafficClass>)
    ensures s.left <= 0.0 ==> !Drr.Goes(s, order)
  {
  }

  lemma TurnParts(skip: bool, s: Drr.Share, c: TrafficClass, grant: real)
    ensures var credit := s.Credit(c) + grant;
            var out := Greedy(s.Line(c), Drr.Min(credit, s.left), !skip);
            var kept := Passed(s.Line(c), Drr.Min(credit, s.left), !skip);
            var r := Drr.Turn(skip, s, c, grant);
            && r.deficit == s.deficit[c := if kept == [] then 0.0 else credit - BitsOf(out)]
            && r.left == s.left - BitsOf(out)
            && r.sent == s.sent + out
            && r.Line(c) == kept
    ensures forall d :: d != c ==> Drr.Turn(skip, s, c, grant).Line(d) == s.Line(d)
  {
  }

  lemma CreditOf(s: Drr.Share, c: TrafficClass)
    requires c in s.deficit
    ensures s.Credit(c) == s.deficit[c]
  {
  }

  lemma RoundsStep(skip: bool, s: Drr.Share, order: seq<TrafficClass>, rnd: nat)
    requires rnd <= Drr.LAST_ROUND
    ensures !Drr.Goes(s, order) ==> Drr.Rounds(skip, s, order, rnd) == s
    ensures Drr.Goes(s, order) ==>
              Drr.Rounds(skip, s, order, rnd)
              == if rnd == Drr.LAST_ROUND then Drr.Round(skip, s, order)
                 else Drr.Rounds(skip, Drr.Round(skip, s, order), order, rnd + 1)
  {
  }

  // When the emergency bundles have gone, every shared line is still waiting.
  lemma OpeningWaits(m: map<Bundle, Outcome>, carry: Carry, el: seq<Bundle>, w: Contacts.Window)
    requires AllWaiting(m, el)
    ensures AllWaiting(m, LineOf(Emergency, el))
    ensures var urgent := Urgent(el, w.Budget());
            forall c :: c in Drr.SHARED ==>
              LineWaits(Record(m, urgent, Sent(w)), Opening(carry, el, w.Budget()), c)
  {
    var urgent, o := Urgent(el, w.Budget()), Opening(carry, el, w.Budget());
    LineMembers(Emergency, el);
    GreedySplit(LineOf(Emergency, el), w.Budget(), false);
    forall c | c in Drr.SHARED ensures LineWaits(Record(m, urgent, Sent(w)), o, c) {
      hide Greedy, LineOf, BitsOf, Record;
      LineMembers(c, el);
      assert o.Line(c) == LineOf(c, el);
      forall b | b in o.Line(c) ensures OutcomeOf(Record(m, urgent, Sent(w)), b) == Waiting(b) {
        RecordAt(m, urgent, Sent(w), b);
      }
    }
  }

  lemma PendingUnlessSent(m: map<Bundle, Outcome>, s: seq<Bundle>, x: Bundle, sent: seq<Bundle>, w: Contacts.Window)
    requires AllWaiting(m, [x] + s)
    ensures OutcomeOf(Record(m, sent, Sent(w)), x).state == Pending <==> NotAmong(sent).Passes(x)
  {
    assert x in [x] + s;
    RecordAt(m, sent, Sent(w), x);
  }

  // ---------------------------------------------------------------- one window on values

  function ChosenFrom(cfg: Setup, carry: Carry, q: Queue, ws: Plan, k: nat): Choice
    requires k < |ws|
  {
    Choose(cfg, carry, Eligible(q, ws[k]), ws[k].Budget(), NextStart(ws, k))
  }

  lemma DrainFacts(cfg: Setup, carry: Carry, q: Queue, ws: Plan, k: nat)
    requires k < |ws| && Consistent(q, cfg.cap) && GoodCarry(carry)
    ensures AllWaiting(q.outcomes, q.active) && AllWaiting(q.outcomes, Eligible(q, ws[k]))
    ensures Record(q.outcomes, [], Sent(ws[k])) == q.outcomes && Select(NotAmong([]), q.active) == q.active
    ensures var c := ChosenFrom(cfg, carry, q, ws, k);
            && GoodCarry(c.carry)
            && Consistent(Leave(q, c.sent, Sent(ws[k])), cfg.cap)
            && Bytes(Leave(q, c.sent, Sent(ws[k])).active) == Bytes(q.active) - Bytes(c.sent)
  {
    var el := Eligible(q, ws[k]);
    SelectMember(IngressBefore(ws[k].end), q.active);
    SelectDistinct(IngressBefore(ws[k].end), q.active);
    LeaveNothing(q, Sent(ws[k]));
    BudgetNonNegative(ws[k]);
    ChoiceWithinBudget(cfg, carry, el, ws[k].Budget(), NextStart(ws, k));
    SentFromQueue(q, el, ChosenFrom(cfg, carry, q, ws, k).sent, ws[k], cfg.cap);
  }

  lemma SentFromQueue(q: Queue, el: seq<Bundle>, sent: seq<Bundle>, w: Contacts.Window, cap: real)
    requires Consistent(q, cap) && Distinct(el) && multiset(sent) <= multiset(el)
    requires forall b :: b in el ==> b in q.active
    ensures Consistent(Leave(q, sent, Sent(w)), cap)
    ensures Bytes(Leave(q, sent, Sent(w)).active) == Bytes(q.active) - Bytes(sent)
  {
    SublistMembers(sent, el);
    forall b ensures multiset(sent)[b] <= 1 {
      DistinctCount(el, b);
    }
    CountDistinct(sent);
    BytesWithout(q.active, sent);
    LeaveKeeps(q, sent, Sent(w), cap);
  }

  lemma LeaveParts(q: Queue, sent: seq<Bundle>, w: Contacts.Window)
    ensures Leave(q, sent, Sent(w)) == Queue(Select(NotAmong(sent), q.active), Record(q.outcomes, sent, Sent(w)))
  {
  }

  lemma KeepsCarry(cfg: Config, carry: Carry, el: seq<Bundle>, budget: real, next: Option<real>)
    requires !RoundRobin(cfg.policy)
    ensures Choose(cfg, carry, el, budget, next).carry == carry
  {
  }

  // ---------------------------------------------------------------- the run on values

  datatype RunError = NoLifetime(id: nat)

  // Record i is the first of the list that has no lifetime.
  ghost predicate FirstWithout(s: seq<BundleRecord>, i: nat)
    requires i < |s|
    reads s`expiration
  {
    s[i].expiration.None? && forall j :: 0 <= j < i ==> s[j].expiration.Some?
  }

  lemma IsFirst(s: seq<BundleRecord>, i: nat)
    requires i < |s| && s[i].expiration.None? && forall j :: 0 <= j < i ==> s[j].expiration.Some?
    ensures FirstWithout(s, i)
  {
  }

  function InfosOf(s: seq<BundleRecord>): seq<Bundle>
    reads s`expiration
  {
    if s == [] then [] else [s[0].Info()] + InfosOf(s[1..])
  }

  lemma {:induction false} InfosAt(s: seq<BundleRecord>)
    ensures |InfosOf(s)| == |s|
    ensures forall i :: 0 <= i < |s| ==> InfosOf(s)[i] == s[i].Info()
  {
    if s != [] { InfosAt(s[1..]); }
  }

  lemma NoCarryGood()
    ensures GoodCarry(NO_CARRY)
  {
  }

  lemma EmptyConsistent(cap: real)
    ensures 0.0 < cap ==> Consistent(Queue([], map[]), cap)
    ensures Bytes([]) == 0
  {
  }

  lemma InfosDistinct(s: seq<BundleRecord>)
    requires forall i, j :: 0 <= i < j < |s| ==> s[i].id != s[j].id
    ensures Distinct(InfosOf(s))
    ensures forall r, t :: r in s && t in s && r != t ==> r.Info() != t.Info()
  {
    InfosAt(s);
    forall r, t | r in s && t in s && r != t ensures r.Info() != t.Info() {
      var i :| 0 <= i < |s| && s[i] == r;
      var j :| 0 <= j < |s| && s[j] == t;
      assert r.id != t.id;
    }
  }

  lemma SameValues(info: Reading, s: seq<BundleRecord>)
    requires Faithful(info, s)
    ensures Read(info, s) && Values(info, s) == InfosOf(s)
  {
    hide BundleRecord.Info, Values, InfosOf;
    InfosAt(s);
    ValuesAt(info, s);
    forall i | 0 <= i < |s| ensures Values(info, s)[i] == InfosOf(s)[i] {
      assert ReadsAs(info, s[i]);
    }
  }

  lemma AfterNone(cfg: Setup, ws: Plan, bundles: Batch)
    ensures After(cfg, ws, bundles, 0) == State(bundles, Queue([], map[]), NO_CARRY)
  {
  }

  // The state after window k, step by step.
  lemma AfterNext(cfg: Setup, ws: Plan, bundles: Batch, k: nat)
    requires k < |ws|
    ensures var st := After(cfg, ws, bundles, k);
            var a := Arrive(cfg, st, Some(ws[k].end));
            var q := Expire(a.queue, ws[k].start);
            var c := Choose(cfg, a.carry, Eligible(q, ws[k]), ws[k].Budget(), NextStart(ws, k));
            After(cfg, ws, bundles, k + 1) == State(a.pending, Leave(q, c.sent, Sent(ws[k])), c.carry)
  {
    hide Choose, AdmitAll, Leave, Sort;
  }
}
