/** The live gateway as an object: per-class queues, a global queue with lazy deletion, a byte count and
    a resumable round robin, refining the arrival-ordered list of module Live. */
module LiveGateway {
  import opened Traffic
  import opened Telemetry
  import opened Selection
  import opened Live
  import opened Wrappers
  import LiveLaws

  // A bundle offered to the gateway.
  class LiveBundle {
    const info: Bundle
    var gone: bool

    constructor (info: Bundle)
      ensures this.info == info && !gone
    {
      this.info := info;
      gone := false;
    }
  }

  // ---------------------------------------------------------------- lists of bundles

  function Infos(s: seq<LiveBundle>): seq<Bundle> {
    if s == [] then [] else [s[0].info] + Infos(s[1..])
  }

  function OfCls(s: seq<LiveBundle>, c: TrafficClass): seq<LiveBundle> {
    if s == [] then []
    else if s[0].info.cls == c then [s[0]] + OfCls(s[1..], c)
    else OfCls(s[1..], c)
  }

  function KeepIn(s: seq<LiveBundle>, those: seq<LiveBundle>): seq<LiveBundle> {
    if s == [] then []
    else if s[0] in those then [s[0]] + KeepIn(s[1..], those)
    else KeepIn(s[1..], those)
  }

  function Drop(s: seq<LiveBundle>, i: nat): seq<LiveBundle>
    requires i < |s|
  {
    s[..i] + s[i + 1..]
  }

  ghost predicate NoDup(s: seq<LiveBundle>) {
    forall i, j :: 0 <= i < j < |s| ==> s[i] != s[j]
  }

  lemma {:induction false} InfosAt(s: seq<LiveBundle>)
    ensures |Infos(s)| == |s|
    ensures forall i :: 0 <= i < |s| ==> Infos(s)[i] == s[i].info
  {
    if s != [] { InfosAt(s[1..]); }
  }

  lemma {:induction false} InfosOfCls(s: seq<LiveBundle>, c: TrafficClass)
    ensures Infos(OfCls(s, c)) == Select(OfClass(c), Infos(s))
  {
    if s != [] { InfosOfCls(s[1..], c); }
  }

  lemma InfosDrop(s: seq<LiveBundle>, i: nat)
    requires i < |s|
    ensures |Infos(s)| == |s| && Infos(Drop(s, i)) == Without(Infos(s), i)
    ensures Infos(s)[i] == s[i].info
  {
    InfosAt(s);
    InfosAt(Drop(s, i));
  }

  lemma InfosAppend(s: seq<LiveBundle>, x: LiveBundle)
    ensures Infos(s + [x]) == Infos(s) + [x.info]
  {
    InfosAt(s);
    InfosAt(s + [x]);
  }

  lemma {:induction false} OfClsMembers(s: seq<LiveBundle>, c: TrafficClass)
    ensures forall x :: x in OfCls(s, c) <==> x in s && x.info.cls == c
  {
    if s != [] {
      OfClsMembers(s[1..], c);
      assert s == [s[0]] + s[1..];
    }
  }

  lemma {:induction false} OfClsAppend(s: seq<LiveBundle>, t: seq<LiveBundle>, c: TrafficClass)
    ensures OfCls(s + t, c) == OfCls(s, c) + OfCls(t, c)
  {
    if s == [] {
      assert s + t == t;
    } else {
      assert (s + t)[1..] == s[1..] + t;
      OfClsAppend(s[1..], t, c);
    }
  }

  // Dropping the i-th element drops it from its own class and from no other.
  lemma OfClsDrop(s: seq<LiveBundle>, i: nat, c: TrafficClass)
    requires i < |s|
    ensures s[i].info.cls != c ==> OfCls(Drop(s, i), c) == OfCls(s, c)
    ensures s[i].info.cls == c ==>
              && OfCls(s, c) == OfCls(s[..i], c) + [s[i]] + OfCls(s[i + 1..], c)
              && OfCls(Drop(s, i), c) == OfCls(s[..i], c) + OfCls(s[i + 1..], c)
  {
    assert s == s[..i] + ([s[i]] + s[i + 1..]);
    OfClsAppend(s[..i], [s[i]] + s[i + 1..], c);
    OfClsAppend([s[i]], s[i + 1..], c);
    OfClsAppend(s[..i], s[i + 1..], c);
    assert OfCls([s[i]], c) == if s[i].info.cls == c then [s[i]] else [];
  }

  lemma {:induction false} OfClsNone(s: seq<LiveBundle>, c: TrafficClass)
    requires forall x :: x in s ==> x.info.cls != c
    ensures OfCls(s, c) == []
  {
    if s != [] {
      assert s[0] in s;
      OfClsNone(s[1..], c);
    }
  }

  lemma {:induction false} KeepAgree(s: seq<LiveBundle>, a: seq<LiveBundle>, b: seq<LiveBundle>)
    requires forall x :: x in s ==> (x in a <==> x in b)
    ensures KeepIn(s, a) == KeepIn(s, b)
  {
    if s != [] {
      assert s[0] in s;
      KeepAgree(s[1..], a, b);
    }
  }

  lemma {:induction false} KeepMembers(s: seq<LiveBundle>, those: seq<LiveBundle>)
    ensures forall x :: x in KeepIn(s, those) <==> x in s && x in those
  {
    if s != [] {
      KeepMembers(s[1..], those);
      assert s == [s[0]] + s[1..];
    }
  }

  lemma {:induction false} KeepKeep(s: seq<LiveBundle>, a: seq<LiveBundle>, b: seq<LiveBundle>)
    requires forall x :: x in b ==> x in a
    ensures KeepIn(KeepIn(s, a), b) == KeepIn(s, b)
  {
    if s != [] {
      KeepKeep(s[1..], a, b);
    }
  }

  lemma {:induction false} KeepAppend(s: seq<LiveBundle>, t: seq<LiveBundle>, those: seq<LiveBundle>)
    ensures KeepIn(s + t, those) == KeepIn(s, those) + KeepIn(t, those)
  {
    if s == [] {
      assert s + t == t;
    } else {
      assert (s + t)[1..] == s[1..] + t;
      KeepAppend(s[1..], t, those);
    }
  }

  lemma {:induction false} KeepAll(s: seq<LiveBundle>, those: seq<LiveBundle>)
    requires forall x :: x in s ==> x in those
    ensures KeepIn(s, those) == s
  {
    if s != [] {
      assert s[0] in s;
      KeepAll(s[1..], those);
    }
  }

  lemma KeepDrop(s: seq<LiveBundle>, i: nat)
    requires NoDup(s) && i < |s|
    ensures KeepIn(s, Drop(s, i)) == Drop(s, i)
  {
    hide KeepIn, NoDup;
    assert s == s[..i] + ([s[i]] + s[i + 1..]);
    DropMembers(s, i);
    KeepAround(s[..i], s[i], s[i + 1..]);
  }

  lemma KeepAround(a: seq<LiveBundle>, x: LiveBundle, b: seq<LiveBundle>)
    ensures x !in a + b ==> KeepIn(a + ([x] + b), a + b) == a + b
  {
    hide KeepIn;
    if x !in a + b {
      KeepAppend(a, [x] + b, a + b);
      KeepAppend([x], b, a + b);
      KeepParts(a, b);
      KeepNone(x, a + b);
      assert [] + b == b;
    }
  }

  lemma KeepParts(a: seq<LiveBundle>, b: seq<LiveBundle>)
    ensures KeepIn(a, a + b) == a && KeepIn(b, a + b) == b
  {
    KeepAll(a, a + b);
    KeepAll(b, a + b);
  }

  lemma KeepNone(x: LiveBundle, those: seq<LiveBundle>)
    requires x !in those
    ensures KeepIn([x], those) == []
  {
  }

  lemma DropMembers(s: seq<LiveBundle>, i: nat)
    requires NoDup(s) && i < |s|
    ensures NoDup(Drop(s, i))
    ensures forall x :: x in Drop(s, i) <==> x in s && x != s[i]
  {
    forall x | x in s && x != s[i] ensures x in Drop(s, i) {
      var j :| 0 <= j < |s| && s[j] == x;
      assert Drop(s, i)[if j < i then j else j - 1] == x;
    }
    forall x | x in Drop(s, i) ensures x in s && x != s[i] {
      var j :| 0 <= j < |Drop(s, i)| && Drop(s, i)[j] == x;
      assert x == s[if j < i then j else j + 1];
    }
  }

  // ---------------------------------------------------------------- the abstract list

  // What is queued, seen through the lazy queue: `live` lists the entries that are not gone.
  ghost predicate Mirrors(fifo: seq<LiveBundle>, live: seq<LiveBundle>) {
    NoDup(fifo) && NoDup(live) && KeepIn(fifo, live) == live
  }

  lemma MirrorsDrop(fifo: seq<LiveBundle>, live: seq<LiveBundle>, i: nat)
    requires Mirrors(fifo, live) && i < |live|
    ensures Mirrors(fifo, Drop(live, i))
  {
    DropMembers(live, i);
    KeepDrop(live, i);
    KeepKeep(fifo, live, Drop(live, i));
  }

  lemma MirrorsAppend(fifo: seq<LiveBundle>, live: seq<LiveBundle>, x: LiveBundle)
    requires Mirrors(fifo, live) && x !in fifo
    ensures x !in live && Mirrors(fifo + [x], live + [x])
  {
    KeepMembers(fifo, live);
    KeepAppend(fifo, [x], live + [x]);
    KeepAgree(fifo, live, live + [x]);
    assert KeepIn([x], live + [x]) == [x];
  }

  lemma MirrorsPop(fifo: seq<LiveBundle>, live: seq<LiveBundle>)
    requires Mirrors(fifo, live) && fifo != [] && fifo[0] !in live
    ensures Mirrors(fifo[1..], live)
  {
  }

  lemma MirrorsFront(fifo: seq<LiveBundle>, live: seq<LiveBundle>)
    requires Mirrors(fifo, live) && fifo != [] && fifo[0] in live
    ensures live != [] && live[0] == fifo[0]
  {
  }

  // The first of a class in the list is the head of the class queue, the last its tail.
  lemma FirstIsHead(live: seq<LiveBundle>, c: TrafficClass) returns (i: nat)
    requires OfCls(live, c) != []
    ensures i < |live| && live[i] == OfCls(live, c)[0] && live[i].info.cls == c
    ensures OfCls(Drop(live, i), c) == OfCls(live, c)[1..]
    ensures Select(OfClass(c), Infos(live)) != [] && i == FirstOf(Infos(live), c)
  {
    InfosAt(live);
    InfosOfCls(live, c);
    InfosAt(OfCls(live, c));
    i := FirstOf(Infos(live), c);
    OfClsDrop(live, i, c);
    OfClsNone(live[..i], c);
  }

  lemma LastIsTail(live: seq<LiveBundle>, c: TrafficClass) returns (i: nat)
    requires OfCls(live, c) != []
    ensures i < |live| && live[i] == OfCls(live, c)[|OfCls(live, c)| - 1] && live[i].info.cls == c
    ensures OfCls(Drop(live, i), c) == OfCls(live, c)[..|OfCls(live, c)| - 1]
    ensures Has(Infos(live), c) && i == LastOf(Infos(live), c)
  {
    InfosAt(live);
    HasIffQueued(live, c);
    i := LastOf(Infos(live), c);
    OfClsDrop(live, i, c);
    OfClsNone(live[i + 1..], c);
  }

  lemma HasIffQueued(live: seq<LiveBundle>, c: TrafficClass)
    ensures Has(Infos(live), c) <==> OfCls(live, c) != []
  {
    InfosOfCls(live, c);
    SelectMember(OfClass(c), Infos(live));
    InfosAt(OfCls(live, c));
    if OfCls(live, c) != [] {
      assert Select(OfClass(c), Infos(live))[0] in Select(OfClass(c), Infos(live));
    }
  }

  // Removing an overdue head is the first step of a purge.
  lemma {:induction false} PurgeStep(s: seq<Bundle>, c: TrafficClass, now: real)
    requires Select(OfClass(c), s) != [] && Select(OfClass(c), s)[0].expiration < now
    ensures Purge(Without(s, FirstOf(s, c)), c, now) == Purge(s, c, now)
    ensures Late(s, c, now) == [Select(OfClass(c), s)[0]] + Late(Without(s, FirstOf(s, c)), c, now)
  {
    var w := Without(s, FirstOf(s, c));
    if s[0].cls == c {
      assert w == s[1..];
    } else {
      PurgeStep(s[1..], c, now);
      assert w == [s[0]] + Without(s[1..], FirstOf(s[1..], c));
    }
  }

  // ---------------------------------------------------------------- the gateway

  class LiveGateway {
    const cfg: LiveConfig
    var q: map<TrafficClass, seq<LiveBundle>>
    var fifo: seq<LiveBundle>
    var bytes: int
    var deficit: map<TrafficClass, real>
    var rr: seq<TrafficClass>
    // The queued bundles in arrival order, and what became of the others.
    ghost var live: seq<LiveBundle>
    ghost var ledger: Ledger

    ghost predicate Valid()
      reads this, fifo
    {
      && Mirrors(fifo, live)
      && (forall x :: x in fifo ==> (x.gone <==> x !in live))
      && (forall x :: x in live ==> cfg.Dated(x.info))
      && (forall c: TrafficClass :: c in q && q[c] == OfCls(live, c))
      && bytes == Bytes(Infos(live))
      && (forall c :: c in RR0 ==> c in deficit)
      && |rr| == 3 && rr[0] != rr[1] && rr[0] != rr[2] && rr[1] != rr[2]
      && (forall c :: c in rr ==> c in RR0)
    }

    ghost function View(): Gate
      reads this
    {
      Gate(Infos(live), deficit, rr, ledger)
    }

    constructor (cfg: LiveConfig)
      ensures Valid() && View() == NEW_GATE && this.cfg == cfg
    {
      this.cfg := cfg;
      q := map[Emergency := [], Telemetry := [], ScienceBulk := [], Media := []];
      fifo := [];
      bytes := 0;
      deficit := map[Telemetry := 0.0, ScienceBulk := 0.0, Media := 0.0];
      rr := [Telemetry, ScienceBulk, Media];
      live := [];
      ledger := Ledger([], [], [], []);
      new;
      forall c: TrafficClass ensures c in q && q[c] == OfCls(live, c) {
        match c
        case Emergency =>
        case Telemetry =>
        case ScienceBulk =>
        case Media =>
      }
    }

    // A queued bundle leaves: its class queue loses it at one end, the global queue only marks it.
    method Forget(c: TrafficClass, newest: bool, ghost i: nat) returns (x: LiveBundle)
      requires Valid() && q[c] != []
      requires i < |live| && live[i].info.cls == c
      requires live[i] == if newest then q[c][|q[c]| - 1] else q[c][0]
      requires OfCls(Drop(live, i), c) == if newest then q[c][..|q[c]| - 1] else q[c][1..]
      modifies this`q, this`bytes, this`live, fifo`gone
      ensures Valid() && x == old(live[i]) && x !in live
      ensures live == Drop(old(live), i)
      ensures q[c] == if newest then old(q[c])[..|old(q[c])| - 1] else old(q[c])[1..]
    {
      hide Mirrors, KeepIn, OfCls, Bytes, Infos;
      MirrorsIn(fifo, live);
      MirrorsDrop(fifo, live, i);
      MirrorsIn(fifo, Drop(live, i));
      DropMembersOf(fifo, live, i);
      DropBytes(live, i);
      forall d: TrafficClass | d != c ensures OfCls(Drop(live, i), d) == OfCls(live, d) {
        OfClsDrop(live, i, d);
      }
      x := if newest then q[c][|q[c]| - 1] else q[c][0];
      assert x in fifo;
      q := q[c := if newest then q[c][..|q[c]| - 1] else q[c][1..]];
      x.gone := true;
      bytes := bytes - x.info.size;
      live := Drop(live, i);
    }

    // The head of class c after overdue bundles have been discarded.
    method Head(c: TrafficClass, now: real) returns (h: LiveBundle?)
      requires Valid()
      modifies this`q, this`bytes, this`live, this`ledger, fifo`gone
      ensures Valid() && View() == PurgeClass(old(View()), c, now)
      ensures h == null <==> !Waiting(View(), c)
      ensures h == null <==> q[c] == []
      ensures h != null ==> h == q[c][0] && h.info == View().Line(c)[0] && now <= h.info.expiration
      ensures forall x :: x in live ==> x in old(live)
      ensures forall x :: x in old(live) && x !in live ==> x.info.expiration < now
    {
      hide Purge, Late, KeepIn, Mirrors, FirstOf, Select, Infos, OfCls, Bytes, Lifetimes.Of, NoDup;
      while q[c] != []
        invariant Valid()
        invariant View().deficit == old(deficit) && View().rr == old(rr)
        invariant PurgeClass(View(), c, now) == PurgeClass(old(View()), c, now)
        invariant forall x :: x in live ==> x in old(live)
        invariant forall x :: x in old(live) && x !in live ==> x.info.expiration < now
        decreases |q[c]|
      {
        HeadInfo(live, c);
        h := q[c][0];
        InList(live, c);
        MirrorsIn(fifo, live);
        assert cfg.Dated(h.info);
        if h.gone {
          assert false;
        } else if cfg.lifetimes.Of(c) < now - h.info.ingress {
          ghost var i := FirstIsHead(live, c);
          ghost var s := Infos(live);
          PurgeStep(s, c, now);
          LateChain(ledger.expired, h.info, Late(Without(s, FirstOf(s, c)), c, now));
          InfosDrop(live, i);
          DropMembersOf(fifo, live, i);
          HeadInfo(live, c);
          h := Forget(c, false, i);
          ledger := ledger.(expired := ledger.expired + [h.info]);
        } else {
          PurgeSettled(Infos(live), c, now);
          assert ledger.expired + [] == ledger.expired;
          return h;
        }
      }
      NoHead(live, c);
      PurgeSettled(Infos(live), c, now);
      assert ledger.expired + [] == ledger.expired;
      return null;
    }

    // The oldest queued bundle of class c leaves to be sent.
    method Take(c: TrafficClass) returns (b: LiveBundle)
      requires Valid() && q[c] != []
      modifies this`q, this`bytes, this`live, this`ledger, fifo`gone
      ensures Valid() && Waiting(old(View()), c)
      ensures Live.Take(old(View()), c) == Pull(View(), Some(b.info))
      ensures b == old(q[c][0]) && b !in live
      ensures forall x :: x in old(live) && x !in live ==> x == b
    {
      InfosOfCls(live, c);
      InfosAt(q[c]);
      ghost var i := FirstIsHead(live, c);
      InfosDrop(live, i);
      DropMembersOf(fifo, live, i);
      b := Forget(c, false, i);
      ledger := ledger.(returned := ledger.returned + [b.info]);
    }

    // The newest bundles of class c leave until the arrival fits or the class is empty.
    method EvictFrom(c: TrafficClass, b: LiveBundle)
      requires Valid()
      modifies this`q, this`bytes, this`live, this`ledger, fifo`gone
      ensures Valid() && View() == EvictClass(old(View()), c, b.info, cfg.cap)
      ensures forall x :: x in live ==> x in old(live)
    {
      hide Bytes, Mirrors, KeepIn, LastOf, Infos, OfCls, Has;
      while q[c] != [] && cfg.cap < bytes + b.info.size
        invariant Valid()
        invariant View().deficit == old(deficit) && View().rr == old(rr)
        invariant EvictClass(View(), c, b.info, cfg.cap) == EvictClass(old(View()), c, b.info, cfg.cap)
        invariant forall x :: x in live ==> x in old(live)
        decreases |q[c]|
      {
        HasIffQueued(live, c);
        ghost var i := LastIsTail(live, c);
        InfosDrop(live, i);
        DropMembersOf(fifo, live, i);
        var v := Forget(c, true, i);
        ledger := ledger.(evicted := ledger.evicted + [v.info]);
      }
      HasIffQueued(live, c);
    }

    // Discards overdue heads of every class.
    method Sweep(now: real)
      requires Valid()
      modifies this`q, this`bytes, this`live, this`ledger, fifo`gone
      ensures Valid() && View() == PurgeClasses(old(View()), CLASSES, now)
      ensures forall x :: x in live ==> x in old(live)
    {
      hide Bytes, Mirrors, KeepIn, PurgeClass, Infos, OfCls;
      var cs := [Emergency, Telemetry, ScienceBulk, Media];
      assert cs == CLASSES;
      for k := 0 to |cs|
        invariant Valid()
        invariant PurgeClasses(View(), cs[k..], now) == PurgeClasses(old(View()), cs, now)
        invariant forall x :: x in live ==> x in old(live)
      {
        assert cs[k..][0] == cs[k] && cs[k..][1..] == cs[k + 1..];
        var _ := Head(cs[k], now);
      }
      assert cs[|cs|..] == [];
    }

    // Evicts from the lowest class up, never from the arrival's own rank or above.
    method EvictLower(b: LiveBundle)
      requires Valid()
      modifies this`q, this`bytes, this`live, this`ledger, fifo`gone
      ensures Valid() && View() == EvictBelow(old(View()), LOWEST_FIRST, b.info, cfg.cap)
    {
      hide Bytes, Mirrors, KeepIn, EvictClass, Infos, OfCls;
      var cs := [Media, ScienceBulk, Telemetry, Emergency];
      assert cs == LOWEST_FIRST;
      var k := 0;
      while k < |cs| && b.info.Rank() < Rank(cs[k])
        invariant 0 <= k <= |cs| && Valid()
        invariant EvictBelow(View(), cs[k..], b.info, cfg.cap) == EvictBelow(old(View()), cs, b.info, cfg.cap)
      {
        assert cs[k..][0] == cs[k] && cs[k..][1..] == cs[k + 1..];
        EvictFrom(cs[k], b);
        k := k + 1;
      }
      assert k < |cs| ==> cs[k..][0] == cs[k];
    }

    // Offers a bundle: true iff it was admitted.
    method Admit(b: LiveBundle, now: real) returns (admitted: bool)
      requires Valid() && b !in fifo && cfg.Dated(b.info)
      modifies this`q, this`bytes, this`live, this`ledger, this`fifo, fifo`gone, b`gone
      ensures Valid() && View() == Live.Admit(cfg, old(View()), b.info, now)
      ensures admitted == Admits(cfg, old(View()), b.info, now)
      ensures fifo == if admitted then old(fifo) + [b] else old(fifo)
    {
      hide Bytes, Mirrors, KeepIn, PurgeClasses, EvictBelow, Infos, OfCls;
      if cfg.cap < bytes + b.info.size {
        Sweep(now);
      }
      if cfg.cap < bytes + b.info.size && cfg.admission == Priority {
        EvictLower(b);
      }
      if cfg.cap < bytes + b.info.size {
        ledger := ledger.(dropped := ledger.dropped + [b.info]);
        return false;
      }
      Enter(b);
      return true;
    }

    // An admitted bundle joins its class queue and the global one.
    method Enter(b: LiveBundle)
      requires Valid() && b !in fifo && cfg.Dated(b.info)
      modifies this`q, this`bytes, this`live, this`fifo, b`gone
      ensures Valid() && fifo == old(fifo) + [b]
      ensures View() == old(View()).(queued := old(View()).queued + [b.info])
    {
      hide Mirrors, KeepIn, Bytes;
      MirrorsAppend(fifo, live, b);
      InfosAppend(live, b);
      AppendBytes(Infos(live), b.info);
      forall d: TrafficClass
        ensures OfCls(live + [b], d) == if d == b.info.cls then OfCls(live, d) + [b] else OfCls(live, d)
      {
        OfClsAppend(live, [b], d);
        assert OfCls([b], d) == if d == b.info.cls then [b] else [];
      }
      b.gone := false;
      q := q[b.info.cls := q[b.info.cls] + [b]];
      fifo := fifo + [b];
      bytes := bytes + b.info.size;
      live := live + [b];
    }

    // The next bundle to transmit, if any.
    method Next(now: real) returns (b: LiveBundle?)
      requires Valid()
      modifies this, fifo`gone
      ensures Valid()
      ensures Live.Next(cfg, old(View()), now) == Pull(View(), if b == null then None else Some(b.info))
      // Only the first-in first-out drain ever shortens the global queue.
      ensures cfg.policy != FifoDrain ==> fifo == old(fifo)
    {
      hide Mirrors, KeepIn, PurgeClass, Live.Take, NextFifo, NextStrict, NextWfq, Select;
      if cfg.policy == FifoDrain {
        b := NextInOrder(now);
        return;
      }
      var h := Head(Emergency, now);
      if h != null {
        b := Take(Emergency);
        return;
      }
      if cfg.policy == StrictDrain {
        b := NextByRank(now);
        return;
      }
      b := NextByTurn(now);
    }

    method NextInOrder(now: real) returns (b: LiveBundle?)
      requires Valid()
      modifies this`q, this`bytes, this`live, this`ledger, this`fifo, fifo`gone
      ensures Valid()
      ensures NextFifo(old(View()), now) == Pull(View(), if b == null then None else Some(b.info))
      // Only the returned bundle and overdue ones leave: nothing live is skipped.
      ensures forall x :: x in old(live) && x !in live ==> x == b || x.info.expiration < now
    {
      hide Mirrors, KeepIn, Purge, Late, OfCls, Bytes, Infos, Live.Take;
      ghost var n: nat := 0;
      while fifo != []
        invariant Valid() && n <= |old(fifo)| && fifo == old(fifo)[n..]
        invariant View().deficit == old(deficit) && View().rr == old(rr)
        invariant NextFifo(View(), now) == NextFifo(old(View()), now)
        invariant forall x :: x in old(live) && x !in live ==> x.info.expiration < now
        decreases |fifo|
      {
        var x := fifo[0];
        n := n + 1;
        if x.gone {
          PopGone();
        } else {
          ghost var before := View();
          FrontInfo(fifo, live);
          var h := Head(x.info.cls, now);
          if h == x {
            TakeFront(before, now);
            b := Take(x.info.cls);
            PopGone();
            return;
          }
          FrontLeft(fifo, live, x.info.cls);
          assert x.info.expiration < now;
          PopGone();
        }
      }
      MirrorsEmpty(fifo, live);
      return null;
    }

    method NextByRank(now: real) returns (b: LiveBundle?)
      requires Valid()
      modifies this`q, this`bytes, this`live, this`ledger, fifo`gone
      ensures Valid()
      ensures NextStrict(old(View()), RR0, now) == Pull(View(), if b == null then None else Some(b.info))
    {
      hide Mirrors, KeepIn, Purge, Late, Live.Take, Select;
      var cs := [Telemetry, ScienceBulk, Media];
      assert cs == RR0;
      for k := 0 to |cs|
        invariant Valid()
        invariant NextStrict(View(), cs[k..], now) == NextStrict(old(View()), cs, now)
      {
        assert cs[k..][0] == cs[k] && cs[k..][1..] == cs[k + 1..];
        var h := Head(cs[k], now);
        if h != null {
          b := Take(cs[k]);
          return;
        }
      }
      assert cs[|cs|..] == [];
      return null;
    }

    method NextByTurn(now: real) returns (b: LiveBundle?)
      requires Valid()
      modifies this`q, this`bytes, this`live, this`ledger, this`deficit, this`rr, fifo`gone
      ensures Valid()
      ensures NextWfq(old(View()), now) == Pull(View(), if b == null then None else Some(b.info))
    {
      hide Mirrors, KeepIn, Purge, Late, Live.Take, Select, Visits, OfCls;
      var any := false;
      for k := 0 to |rr|
        invariant Valid() && rr == old(rr) && deficit == old(deficit)
        invariant PurgeClasses(View(), rr[k..], now) == PurgeClasses(old(View()), rr, now)
        invariant any <==> exists i :: 0 <= i < k && Waiting(View(), rr[i])
      {
        assert rr[k..][0] == rr[k] && rr[k..][1..] == rr[k + 1..];
        ghost var before := View();
        var h := Head(rr[k], now);
        OthersStillWait(before, rr[k], now);
        any := any || h != null;
      }
      assert rr[|rr|..] == [];
      ghost var p := View();
      assert any <==> exists c :: c in rr && Waiting(p, c) by {
        WaitingByIndex(p, any);
      }
      if !any {
        deficit := map[Telemetry := 0.0, ScienceBulk := 0.0, Media := 0.0];
        return null;
      }
      b := TakeTurns(now, PATIENCE);
    }

    method TakeTurns(now: real, patience: nat) returns (b: LiveBundle?)
      requires Valid()
      modifies this`q, this`bytes, this`live, this`ledger, this`deficit, this`rr, fifo`gone
      ensures Valid()
      ensures Visits(old(View()), now, patience) == Pull(View(), if b == null then None else Some(b.info))
    {
      hide Mirrors, KeepIn, PurgeClass, FirstOf, Select, OfCls, Bytes, Infos, Visits, ServeTurn;
      for k := 0 to patience
        invariant Valid() && fifo == old(fifo)
        invariant Visits(View(), now, patience - k) == Visits(old(View()), now, patience)
      {
        var c := rr[0];
        VisitStep(View(), now, patience - k);
        var h := Head(c, now);
        if h == null {
          PassTurn(0.0);
        } else if h.info.size as real <= deficit[c] {
          b := Serve(c);
          return;
        } else {
          PassTurn(deficit[c] + QUANTUM * Weight(c));
        }
      }
      VisitsOver(View(), now);
      return null;
    }

    // The class whose turn it is ends it with the given deficit.
    method PassTurn(credit: real)
      requires Valid()
      modifies this`deficit, this`rr
      ensures Valid() && View() == old(View()).(deficit := old(deficit)[old(rr)[0] := credit], rr := Rotated(old(rr)))
    {
      hide Mirrors, KeepIn, OfCls, Bytes, Infos;
      deficit := deficit[rr[0] := credit];
      rr := rr[1..] + [rr[0]];
    }

    // The class whose turn it is pays for its head and keeps its turn.
    method Serve(c: TrafficClass) returns (b: LiveBundle)
      requires Valid() && c == rr[0] && q[c] != []
      modifies this`q, this`bytes, this`live, this`ledger, this`deficit, fifo`gone
      ensures Valid() && Waiting(old(View()), c)
      ensures ServeTurn(old(View())) == Pull(View(), Some(b.info))
    {
      hide Mirrors, KeepIn, OfCls, Bytes, Infos, FirstOf, Select;
      HeadInfo(live, c);
      deficit := deficit[c := deficit[c] - q[c][0].info.size as real];
      b := Take(c);
    }

    // The front of the global queue goes once it is marked.
    method PopGone()
      requires Valid() && fifo != [] && fifo[0] !in live
      modifies this`fifo
      ensures Valid() && fifo == old(fifo)[1..]
    {
      MirrorsPop(fifo, live);
      fifo := fifo[1..];
    }
  }

  lemma VisitStep(g: Gate, now: real, fuel: nat)
    requires 0 < fuel && g.rr != []
    ensures var p := PurgeClass(g, g.rr[0], now);
            var c := p.rr[0];
            && (!Waiting(p, c) ==>
                  Visits(g, now, fuel)
                  == Visits(p.(deficit := p.deficit[c := 0.0], rr := Rotated(p.rr)), now, fuel - 1))
            && (Waiting(p, c) && p.Line(c)[0].size as real <= p.Credit(c) ==>
                  Visits(g, now, fuel) == ServeTurn(p))
            && (Waiting(p, c) && p.Credit(c) < p.Line(c)[0].size as real ==>
                  Visits(g, now, fuel)
                  == Visits(p.(deficit := p.deficit[c := p.Credit(c) + QUANTUM * Weight(c)], rr := Rotated(p.rr)),
                            now, fuel - 1))
  {
  }

  lemma VisitsOver(g: Gate, now: real)
    ensures Visits(g, now, 0) == Pull(g, None)
  {
  }

  lemma MirrorsIn(fifo: seq<LiveBundle>, live: seq<LiveBundle>)
    requires Mirrors(fifo, live)
    ensures NoDup(live) && forall x :: x in live ==> x in fifo
  {
    KeepMembers(fifo, live);
  }

  lemma DropMembersOf(fifo: seq<LiveBundle>, live: seq<LiveBundle>, i: nat)
    requires Mirrors(fifo, live) && i < |live|
    ensures forall x :: x in Drop(live, i) <==> x in live && x != live[i]
  {
    DropMembers(live, i);
  }

  lemma DropBytes(live: seq<LiveBundle>, i: nat)
    requires i < |live|
    ensures Bytes(Infos(live)) == live[i].info.size + Bytes(Infos(Drop(live, i)))
  {
    InfosDrop(live, i);
    LiveLaws.WithoutPartition(Infos(live), i);
  }

  lemma AppendBytes(s: seq<Bundle>, b: Bundle)
    ensures Bytes(s + [b]) == Bytes(s) + b.size
  {
    BytesAppend(s, [b]);
    assert Bytes([b]) == b.size;
  }

  lemma MirrorsEmpty(fifo: seq<LiveBundle>, live: seq<LiveBundle>)
    requires Mirrors(fifo, live) && fifo == []
    ensures live == [] && Infos(live) == []
  {
  }

  // The front of the global queue, while present, is the front of the list.
  lemma FrontInfo(fifo: seq<LiveBundle>, live: seq<LiveBundle>)
    requires Mirrors(fifo, live) && fifo != [] && fifo[0] in live
    ensures Infos(live) != [] && Infos(live)[0] == fifo[0].info
  {
    MirrorsFront(fifo, live);
  }

  // If the front is present and another bundle heads its class, there is a contradiction.
  lemma FrontLeft(fifo: seq<LiveBundle>, live: seq<LiveBundle>, c: TrafficClass)
    requires Mirrors(fifo, live) && fifo != [] && fifo[0].info.cls == c
    requires OfCls(live, c) == [] || OfCls(live, c)[0] != fifo[0]
    ensures fifo[0] !in live
  {
    if fifo[0] in live {
      MirrorsFront(fifo, live);
    }
  }

  // Sending a front that is not overdue is taking the head of its class.
  lemma TakeFront(g: Gate, now: real)
    requires g.queued != [] && now <= g.queued[0].expiration
    ensures var c := g.queued[0].cls;
            && PurgeClass(g, c, now) == g && Waiting(g, c)
            && NextFifo(g, now) == Live.Take(g, c)
  {
    LiveLaws.FrontSettled(g.queued, now);
    assert g.ledger.expired + [] == g.ledger.expired;
    assert Without(g.queued, 0) == g.queued[1..];
  }

  lemma OthersStillWait(g: Gate, c: TrafficClass, now: real)
    ensures forall d :: d != c ==> (Waiting(PurgeClass(g, c, now), d) <==> Waiting(g, d))
  {
    forall d | d != c ensures Waiting(PurgeClass(g, c, now), d) <==> Waiting(g, d) {
      PurgeElsewhere(g.queued, c, now, d);
    }
  }

  lemma WaitingByIndex(p: Gate, any: bool)
    requires any <==> exists i :: 0 <= i < |p.rr| && Waiting(p, p.rr[i])
    ensures any <==> exists c :: c in p.rr && Waiting(p, c)
  {
  }

  lemma HeadInfo(live: seq<LiveBundle>, c: TrafficClass)
    requires OfCls(live, c) != []
    ensures var l := Select(OfClass(c), Infos(live)); l != [] && l[0] == OfCls(live, c)[0].info
  {
    InfosOfCls(live, c);
    InfosAt(OfCls(live, c));
  }

  lemma NoHead(live: seq<LiveBundle>, c: TrafficClass)
    requires OfCls(live, c) == []
    ensures Select(OfClass(c), Infos(live)) == []
  {
    InfosOfCls(live, c);
  }

  lemma InList(live: seq<LiveBundle>, c: TrafficClass)
    requires OfCls(live, c) != []
    ensures OfCls(live, c)[0] in live && OfCls(live, c)[0].info.cls == c
  {
    OfClsMembers(live, c);
  }

  lemma LateChain(e: seq<Bundle>, b: Bundle, rest: seq<Bundle>)
    ensures e + ([b] + rest) == (e + [b]) + rest
  {
  }
}
