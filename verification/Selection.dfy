/** Sublists of bundles chosen by a test, their byte counts, and stable sorting. */
module Selection {
  import opened Traffic
  import opened Telemetry
  import opened Wrappers

  // ---------------------------------------------------------------- tests

  datatype Test =
    | RankAtMost(rank: int) | RankAbove(rank: int)
    | OfClass(cls: TrafficClass) | OutsideClass(cls: TrafficClass)
    | IngressUpTo(ts: real) | IngressAfter(ts: real)
    | IngressBefore(ts: real) | IngressFrom(ts: real)
    | LiveAfter(ts: real) | StaleAt(ts: real)
    | Timely(now: real) | Overdue(now: real)
    | AtRisk(next: Option<real>) | CanWait(next: Option<real>)
    | Among(those: seq<Bundle>) | NotAmong(those: seq<Bundle>)
  {
    predicate Passes(b: Bundle) {
      match this
      case RankAtMost(r) => b.Rank() <= r
      case RankAbove(r) => r < b.Rank()
      case OfClass(c) => b.cls == c
      case OutsideClass(c) => b.cls != c
      case IngressUpTo(t) => b.ingress <= t
      case IngressAfter(t) => t < b.ingress
      case IngressBefore(t) => b.ingress < t
      case IngressFrom(t) => t <= b.ingress
      case LiveAfter(t) => t < b.expiration
      case StaleAt(t) => b.expiration <= t
      // The live gateway's limit is inclusive: a bundle is late once its lifetime is strictly exceeded.
      case Timely(now) => now <= b.expiration
      case Overdue(now) => b.expiration < now
      // No next window counts as one that never opens: everything is at risk.
      case AtRisk(next) => next.None? || b.expiration < next.value
      case CanWait(next) => next.Some? && next.value <= b.expiration
      case Among(s) => b in s
      case NotAmong(s) => b !in s
    }

    // The test that passes exactly what this one fails.
    function Dual(): (d: Test)
      ensures forall b :: d.Passes(b) <==> !Passes(b)
    {
      match this
      case RankAtMost(r) => RankAbove(r)
      case RankAbove(r) => RankAtMost(r)
      case OfClass(c) => OutsideClass(c)
      case OutsideClass(c) => OfClass(c)
      case IngressUpTo(t) => IngressAfter(t)
      case IngressAfter(t) => IngressUpTo(t)
      case IngressBefore(t) => IngressFrom(t)
      case IngressFrom(t) => IngressBefore(t)
      case LiveAfter(t) => StaleAt(t)
      case StaleAt(t) => LiveAfter(t)
      case Timely(now) => Overdue(now)
      case Overdue(now) => Timely(now)
      case AtRisk(next) => CanWait(next)
      case CanWait(next) => AtRisk(next)
      case Among(s) => NotAmong(s)
      case NotAmong(s) => Among(s)
    }
  }

  function Select(t: Test, s: seq<Bundle>): seq<Bundle> {
    if s == [] then []
    else if t.Passes(s[0]) then [s[0]] + Select(t, s[1..])
    else Select(t, s[1..])
  }

  lemma {:induction false} SelectMember(t: Test, s: seq<Bundle>)
    ensures forall b :: b in Select(t, s) <==> b in s && t.Passes(b)
  {
    if s != [] {
      SelectMember(t, s[1..]);
      assert s == [s[0]] + s[1..];
    }
  }

  lemma {:induction false} SelectAppend(t: Test, a: seq<Bundle>, b: seq<Bundle>)
    ensures Select(t, a + b) == Select(t, a) + Select(t, b)
  {
    if a == [] {
      assert a + b == b;
    } else {
      assert (a + b)[1..] == a[1..] + b;
      SelectAppend(t, a[1..], b);
    }
  }

  lemma {:induction false} SelectSwap(t: Test, u: Test, s: seq<Bundle>)
    ensures Select(t, Select(u, s)) == Select(u, Select(t, s))
  {
    if s != [] {
      SelectSwap(t, u, s[1..]);
    }
  }

  // Two tests that agree on a list select the same sublist.
  lemma {:induction false} SelectAgree(t: Test, u: Test, s: seq<Bundle>)
    requires forall b :: b in s ==> t.Passes(b) == u.Passes(b)
    ensures Select(t, s) == Select(u, s)
  {
    if s != [] {
      assert s[0] in s;
      SelectAgree(t, u, s[1..]);
    }
  }

  lemma {:induction false} SelectAll(t: Test, s: seq<Bundle>)
    requires forall b :: b in s ==> t.Passes(b)
    ensures Select(t, s) == s
  {
    if s != [] {
      assert s[0] in s;
      SelectAll(t, s[1..]);
    }
  }

  lemma {:induction false} SelectNone(t: Test, s: seq<Bundle>)
    requires forall b :: b in s ==> !t.Passes(b)
    ensures Select(t, s) == []
  {
    if s != [] {
      assert s[0] in s;
      SelectNone(t, s[1..]);
    }
  }

  // Selecting by u first changes nothing when everything that passes t passes u.
  lemma {:induction false} SelectAbsorb(t: Test, u: Test, s: seq<Bundle>)
    requires forall b :: b in s && t.Passes(b) ==> u.Passes(b)
    ensures Select(t, Select(u, s)) == Select(t, s)
  {
    if s != [] {
      assert s[0] in s;
      SelectAbsorb(t, u, s[1..]);
    }
  }

  // ---------------------------------------------------------------- distinct lists

  ghost predicate Distinct(s: seq<Bundle>) {
    forall i, j :: 0 <= i < j < |s| ==> s[i] != s[j]
  }

  lemma DistinctCons(s: seq<Bundle>)
    requires s != []
    ensures Distinct(s) <==> s[0] !in s[1..] && Distinct(s[1..])
  {
    if s[0] !in s[1..] && Distinct(s[1..]) {
      forall i, j | 0 <= i < j < |s| ensures s[i] != s[j] {
        assert s[j] == s[1..][j - 1];
        if 0 < i { assert s[i] == s[1..][i - 1]; }
      }
    }
  }

  lemma {:induction false} SelectDistinct(t: Test, s: seq<Bundle>)
    requires Distinct(s)
    ensures Distinct(Select(t, s))
  {
    if s != [] {
      DistinctCons(s);
      SelectDistinct(t, s[1..]);
      SelectMember(t, s[1..]);
      if t.Passes(s[0]) {
        DistinctCons(Select(t, s));
      }
    }
  }

  lemma DistinctAppend(a: seq<Bundle>, b: seq<Bundle>)
    requires Distinct(a) && Distinct(b)
    requires forall x :: x in a ==> x !in b
    ensures Distinct(a + b)
  {
    forall i, j | 0 <= i < j < |a + b| ensures (a + b)[i] != (a + b)[j] {
      if i < |a| <= j {
        assert (a + b)[i] in a && (a + b)[j] in b;
      }
    }
  }

  // All bundles of a list have size n.
  ghost predicate Uniform(s: seq<Bundle>, n: nat) {
    forall b :: b in s ==> b.size == n
  }

  // ---------------------------------------------------------------- bytes

  function Bytes(s: seq<Bundle>): nat {
    if s == [] then 0 else s[0].size + Bytes(s[1..])
  }

  function BitsOf(s: seq<Bundle>): real {
    (8 * Bytes(s)) as real
  }

  lemma {:induction false} BytesAppend(a: seq<Bundle>, b: seq<Bundle>)
    ensures Bytes(a + b) == Bytes(a) + Bytes(b)
  {
    if a == [] {
      assert a + b == b;
    } else {
      assert (a + b)[1..] == a[1..] + b;
      BytesAppend(a[1..], b);
    }
  }

  lemma {:induction false} BytesSplit(t: Test, s: seq<Bundle>)
    ensures Bytes(s) == Bytes(Select(t, s)) + Bytes(Select(t.Dual(), s))
  {
    if s != [] {
      BytesSplit(t, s[1..]);
    }
  }

  lemma {:induction false} BytesMember(s: seq<Bundle>, b: Bundle)
    requires b in s
    ensures b.size <= Bytes(s)
  {
    if b != s[0] {
      BytesMember(s[1..], b);
    }
  }

  // Bytes depend on which bundles are in the list, not on their order.
  lemma {:induction false} BytesRemoveAt(s: seq<Bundle>, i: nat)
    requires i < |s|
    ensures Bytes(s) == s[i].size + Bytes(s[..i] + s[i + 1..])
  {
    assert s == s[..i] + ([s[i]] + s[i + 1..]);
    BytesAppend(s[..i], [s[i]] + s[i + 1..]);
    BytesAppend([s[i]], s[i + 1..]);
    BytesAppend(s[..i], s[i + 1..]);
  }

  lemma {:induction false} BytesPermute(a: seq<Bundle>, b: seq<Bundle>)
    requires multiset(a) == multiset(b)
    ensures Bytes(a) == Bytes(b)
    decreases |a|
  {
    if a == [] {
      assert |multiset(b)| == 0;
    } else {
      assert a[0] in multiset(b);
      var i :| 0 <= i < |b| && b[i] == a[0];
      var b' := b[..i] + b[i + 1..];
      assert a == [a[0]] + a[1..];
      assert b == b[..i] + [b[i]] + b[i + 1..];
      assert multiset(a[1..]) == multiset(a) - multiset{a[0]};
      assert multiset(b') == multiset(b) - multiset{b[i]};
      BytesPermute(a[1..], b');
      BytesRemoveAt(b, i);
    }
  }

  // Taking a distinct sublist away removes exactly its bytes.
  lemma {:induction false} BytesWithout(s: seq<Bundle>, gone: seq<Bundle>)
    requires Distinct(s) && Distinct(gone)
    requires forall b :: b in gone ==> b in s
    ensures Bytes(Select(NotAmong(gone), s)) == Bytes(s) - Bytes(gone)
  {
    var back := Select(Among(gone), s);
    BytesSplit(NotAmong(gone), s);
    SelectDistinct(Among(gone), s);
    SelectMember(Among(gone), s);
    SameMembersSameMultiset(back, gone);
    BytesPermute(back, gone);
  }

  lemma {:induction false} DistinctCount(s: seq<Bundle>, b: Bundle)
    requires Distinct(s)
    ensures multiset(s)[b] == if b in s then 1 else 0
  {
    if s != [] {
      DistinctCons(s);
      DistinctCount(s[1..], b);
      assert s == [s[0]] + s[1..];
    }
  }

  // Part of a distinct list is distinct.
  lemma SubDistinct(a: seq<Bundle>, s: seq<Bundle>)
    requires Distinct(s) && multiset(a) <= multiset(s)
    ensures Distinct(a)
  {
    forall b ensures multiset(a)[b] <= 1 {
      DistinctCount(s, b);
    }
    CountDistinct(a);
  }

  lemma SameMembersSameMultiset(a: seq<Bundle>, b: seq<Bundle>)
    requires Distinct(a) && Distinct(b)
    requires forall x :: x in a <==> x in b
    ensures multiset(a) == multiset(b)
  {
    forall x: Bundle ensures multiset(a)[x] == multiset(b)[x] {
      DistinctCount(a, x);
      DistinctCount(b, x);
    }
  }

  // ---------------------------------------------------------------- stable sorting

  datatype SortKey = ByIngress | ByRank | ByExpiration | ForEviction | ByUtility | ByDensity

  // Sort keys are pairs compared lexicographically; a descending key is negated.
  function Major(k: SortKey, b: Bundle): int {
    match k
    case ByRank => b.Rank()
    case ForEviction => 0 - b.Rank()
    case _ => 0
  }

  function Minor(k: SortKey, b: Bundle): real {
    match k
    case ByIngress => b.ingress
    case ByRank => b.ingress
    case ByExpiration => b.expiration
    case ForEviction => -b.ingress
    case ByUtility => -Spec(b.cls).utilityWeight
    case ByDensity => -(Spec(b.cls).utilityWeight / (b.size as real))
  }

  predicate Before(k: SortKey, a: Bundle, b: Bundle) {
    Major(k, a) < Major(k, b) || (Major(k, a) == Major(k, b) && Minor(k, a) < Minor(k, b))
  }

  function Insert(k: SortKey, b: Bundle, s: seq<Bundle>): seq<Bundle> {
    if s == [] then [b]
    else if Before(k, s[0], b) then [s[0]] + Insert(k, b, s[1..])
    else [b] + s
  }

  function Sort(k: SortKey, s: seq<Bundle>): seq<Bundle> {
    if s == [] then [] else Insert(k, s[0], Sort(k, s[1..]))
  }

  ghost predicate Sorted(k: SortKey, s: seq<Bundle>) {
    forall i, j :: 0 <= i < j < |s| ==> !Before(k, s[j], s[i])
  }

  lemma SortedCons(k: SortKey, s: seq<Bundle>)
    requires s != []
    ensures Sorted(k, s) <==> Sorted(k, s[1..]) && forall b :: b in s[1..] ==> !Before(k, b, s[0])
  {
    if Sorted(k, s[1..]) && forall b :: b in s[1..] ==> !Before(k, b, s[0]) {
      forall i, j | 0 <= i < j < |s| ensures !Before(k, s[j], s[i]) {
        assert s[j] == s[1..][j - 1];
        if 0 < i { assert s[i] == s[1..][i - 1]; }
      }
    }
    if Sorted(k, s) {
      forall b | b in s[1..] ensures !Before(k, b, s[0]) {
        var j :| 0 <= j < |s[1..]| && s[1..][j] == b;
        assert s[j + 1] == b;
      }
    }
  }

  lemma {:induction false} InsertMembers(k: SortKey, b: Bundle, s: seq<Bundle>)
    ensures multiset(Insert(k, b, s)) == multiset{b} + multiset(s)
  {
    if s != [] && Before(k, s[0], b) {
      InsertMembers(k, b, s[1..]);
      assert s == [s[0]] + s[1..];
    }
  }

  lemma {:induction false} InsertSorted(k: SortKey, b: Bundle, s: seq<Bundle>)
    requires Sorted(k, s)
    ensures Sorted(k, Insert(k, b, s))
  {
    var r := Insert(k, b, s);
    if s != [] {
      SortedCons(k, s);
      SortedCons(k, r);
      if Before(k, s[0], b) {
        InsertSorted(k, b, s[1..]);
        InsertMembers(k, b, s[1..]);
        assert r[1..] == Insert(k, b, s[1..]);
        forall x | x in r[1..] ensures !Before(k, x, r[0]) {
          assert x in multiset(r[1..]);
        }
      } else {
        assert r[1..] == s;
      }
    }
  }

  lemma {:induction false} SortPermutes(k: SortKey, s: seq<Bundle>)
    ensures multiset(Sort(k, s)) == multiset(s)
  {
    if s != [] {
      SortPermutes(k, s[1..]);
      InsertMembers(k, s[0], Sort(k, s[1..]));
      assert s == [s[0]] + s[1..];
    }
  }

  lemma SortMembers(k: SortKey, s: seq<Bundle>)
    ensures forall b :: b in Sort(k, s) <==> b in s
    ensures |Sort(k, s)| == |s|
  {
    SortPermutes(k, s);
    assert |multiset(Sort(k, s))| == |multiset(s)|;
    forall b ensures b in Sort(k, s) <==> b in s {
      assert b in Sort(k, s) <==> b in multiset(Sort(k, s));
    }
  }

  lemma {:induction false} SortSorted(k: SortKey, s: seq<Bundle>)
    ensures Sorted(k, Sort(k, s))
  {
    if s != [] {
      SortSorted(k, s[1..]);
      InsertSorted(k, s[0], Sort(k, s[1..]));
    }
  }

  lemma {:induction false} CountDistinct(s: seq<Bundle>)
    requires forall b :: multiset(s)[b] <= 1
    ensures Distinct(s)
  {
    if s != [] {
      assert s == [s[0]] + s[1..];
      assert multiset(s) == multiset{s[0]} + multiset(s[1..]);
      assert multiset(s)[s[0]] <= 1;
      assert forall b :: multiset(s[1..])[b] <= multiset(s)[b];
      CountDistinct(s[1..]);
      DistinctCons(s);
    }
  }

  lemma SortDistinct(k: SortKey, s: seq<Bundle>)
    requires Distinct(s)
    ensures Distinct(Sort(k, s))
  {
    SortPermutes(k, s);
    forall b ensures multiset(s)[b] <= 1 {
      DistinctCount(s, b);
    }
    CountDistinct(Sort(k, s));
  }

  lemma {:induction false} SelectInsert(t: Test, k: SortKey, b: Bundle, s: seq<Bundle>)
    requires Sorted(k, s)
    ensures Select(t, Insert(k, b, s))
         == if t.Passes(b) then Insert(k, b, Select(t, s)) else Select(t, s)
  {
    hide Before, Test.Passes;
    if s != [] {
      SortedCons(k, s);
      if Before(k, s[0], b) {
        SelectInsert(t, k, b, s[1..]);
      } else {
        var u := Select(t, s);
        SelectMember(t, s);
        if u != [] {
          assert s == [s[0]] + s[1..] && u[0] in s;
          NotBeforeTransitive(k, u[0], s[0], b);
        }
      }
    }
  }

  lemma NotBeforeTransitive(k: SortKey, x: Bundle, y: Bundle, z: Bundle)
    ensures !Before(k, x, y) && !Before(k, y, z) ==> !Before(k, x, z)
    ensures !Before(k, x, x)
  {
  }

  // Stable sorting commutes with selection.
  lemma {:induction false} SelectSort(t: Test, k: SortKey, s: seq<Bundle>)
    ensures Select(t, Sort(k, s)) == Sort(k, Select(t, s))
  {
    if s != [] {
      SelectSort(t, k, s[1..]);
      SortSorted(k, s[1..]);
      SelectInsert(t, k, s[0], Sort(k, s[1..]));
    }
  }

  // A list in which everything passing a test precedes everything failing it is the concatenation of
  // the two parts.
  lemma {:induction false} SplitByTest(t: Test, s: seq<Bundle>)
    requires forall i, j :: 0 <= i < j < |s| && t.Passes(s[j]) ==> t.Passes(s[i])
    ensures s == Select(t, s) + Select(t.Dual(), s)
  {
    if s != [] {
      if t.Passes(s[0]) {
        forall i, j | 0 <= i < j < |s[1..]| && t.Passes(s[1..][j]) ensures t.Passes(s[1..][i]) {
          assert s[1..][j] == s[j + 1] && s[1..][i] == s[i + 1];
        }
        SplitByTest(t, s[1..]);
      } else {
        forall b | b in s ensures !t.Passes(b) {
          var j :| 0 <= j < |s| && s[j] == b;
        }
        SelectNone(t, s);
        SelectAll(t.Dual(), s);
      }
    }
  }

  // ---------------------------------------------------------------- ties

  // The bundles of a list that sort alike with b.
  function Ties(k: SortKey, b: Bundle, s: seq<Bundle>): seq<Bundle> {
    if s == [] then []
    else if !Before(k, b, s[0]) && !Before(k, s[0], b) then [s[0]] + Ties(k, b, s[1..])
    else Ties(k, b, s[1..])
  }

  lemma {:induction false} InsertBeforeTies(k: SortKey, b: Bundle, x: Bundle, s: seq<Bundle>)
    ensures Ties(k, b, Insert(k, x, s)) == Ties(k, b, [x]) + Ties(k, b, s)
  {
    if s != [] && Before(k, s[0], x) {
      InsertBeforeTies(k, b, x, s[1..]);
    }
  }

  // Sorting is stable: bundles that sort alike keep their order.
  lemma {:induction false} SortStable(k: SortKey, b: Bundle, s: seq<Bundle>)
    ensures Ties(k, b, Sort(k, s)) == Ties(k, b, s)
  {
    if s != [] {
      SortStable(k, b, s[1..]);
      InsertBeforeTies(k, b, s[0], Sort(k, s[1..]));
    }
  }
}
