/** The greedy drain shared by the ordered policies, on values. */
module Drain {
  import opened Telemetry
  import opened Selection

  // Bundles sent when a list is tried in order against a bit budget. A bundle that does not fit is
  // passed over, or ends the drain when `stop` is set.
  function Greedy(s: seq<Bundle>, budget: real, stop: bool): seq<Bundle> {
    if s == [] then []
    else if s[0].Bits() <= budget then [s[0]] + Greedy(s[1..], budget - s[0].Bits(), stop)
    else if stop then []
    else Greedy(s[1..], budget, stop)
  }

  // What the same drain leaves behind, in order.
  function Passed(s: seq<Bundle>, budget: real, stop: bool): seq<Bundle> {
    if s == [] then []
    else if s[0].Bits() <= budget then Passed(s[1..], budget - s[0].Bits(), stop)
    else if stop then s
    else [s[0]] + Passed(s[1..], budget, stop)
  }

  lemma BitsCons(s: seq<Bundle>)
    requires s != []
    ensures BitsOf(s) == s[0].Bits() + BitsOf(s[1..])
  {
  }

  lemma BitsAppend(a: seq<Bundle>, b: seq<Bundle>)
    ensures BitsOf(a + b) == BitsOf(a) + BitsOf(b)
  {
    BytesAppend(a, b);
  }

  lemma BitsNonNegative(s: seq<Bundle>)
    ensures 0.0 <= BitsOf(s)
  {
  }

  lemma {:induction false} InBits(b: Bundle, s: seq<Bundle>)
    requires b in s
    ensures b.Bits() <= BitsOf(s)
  {
    BitsCons(s);
    BitsNonNegative(s[1..]);
    if b != s[0] { InBits(b, s[1..]); }
  }

  lemma {:induction false} GreedyPartition(s: seq<Bundle>, budget: real, stop: bool)
    ensures multiset(Greedy(s, budget, stop)) + multiset(Passed(s, budget, stop)) == multiset(s)
  {
    if s != [] {
      assert s == [s[0]] + s[1..];
      if s[0].Bits() <= budget {
        GreedyPartition(s[1..], budget - s[0].Bits(), stop);
      } else if !stop {
        GreedyPartition(s[1..], budget, stop);
      }
    }
  }

  lemma GreedyMembers(s: seq<Bundle>, budget: real, stop: bool)
    ensures forall b :: b in Greedy(s, budget, stop) ==> b in s
  {
    GreedyPartition(s, budget, stop);
    forall b | b in Greedy(s, budget, stop) ensures b in s {
      assert b in multiset(Greedy(s, budget, stop));
      assert b in multiset(s);
    }
  }

  // A drain never exceeds its budget.
  lemma {:induction false} GreedyWithinBudget(s: seq<Bundle>, budget: real, stop: bool)
    requires 0.0 <= budget
    ensures BitsOf(Greedy(s, budget, stop)) <= budget
  {
    if s != [] {
      if s[0].Bits() <= budget {
        GreedyWithinBudget(s[1..], budget - s[0].Bits(), stop);
        BitsCons(Greedy(s, budget, stop));
      } else if !stop {
        GreedyWithinBudget(s[1..], budget, stop);
      }
    }
  }

  // After a skip-over drain nothing left behind fits what remains of the budget.
  lemma {:induction false} GreedyExhausts(s: seq<Bundle>, budget: real, b: Bundle)
    requires b in Passed(s, budget, false)
    ensures budget - BitsOf(Greedy(s, budget, false)) < b.Bits()
  {
    if s[0].Bits() <= budget {
      GreedyExhausts(s[1..], budget - s[0].Bits(), b);
      BitsCons(Greedy(s, budget, false));
    } else if b in Passed(s[1..], budget, false) {
      GreedyExhausts(s[1..], budget, b);
    } else {
      GreedyOnlySpends(s[1..], budget, false);
    }
  }

  lemma {:induction false} GreedyOnlySpends(s: seq<Bundle>, budget: real, stop: bool)
    ensures 0.0 <= BitsOf(Greedy(s, budget, stop))
  {
  }

  // A strict drain sends a prefix, and the bundle after it does not fit what remains.
  lemma {:induction false} StrictSendsMaximalPrefix(s: seq<Bundle>, budget: real)
    ensures s == Greedy(s, budget, true) + Passed(s, budget, true)
    ensures Passed(s, budget, true) != [] ==>
              budget - BitsOf(Greedy(s, budget, true)) < Passed(s, budget, true)[0].Bits()
  {
    if s != [] && s[0].Bits() <= budget {
      StrictSendsMaximalPrefix(s[1..], budget - s[0].Bits());
      BitsCons(Greedy(s, budget, true));
    }
  }

  // Draining a concatenation is draining its parts in turn: what comes later never affects what came
  // first.
  lemma {:induction false} GreedyAppend(a: seq<Bundle>, b: seq<Bundle>, budget: real)
    ensures Greedy(a + b, budget, false)
         == Greedy(a, budget, false) + Greedy(b, budget - BitsOf(Greedy(a, budget, false)), false)
  {
    if a == [] {
      assert a + b == b;
    } else {
      assert (a + b)[1..] == a[1..] + b;
      if a[0].Bits() <= budget {
        GreedyAppend(a[1..], b, budget - a[0].Bits());
        BitsCons(Greedy(a, budget, false));
      } else {
        GreedyAppend(a[1..], b, budget);
      }
    }
  }

  // A budget that covers the whole list sends the whole list.
  lemma {:induction false} GreedyAll(s: seq<Bundle>, budget: real, stop: bool)
    requires BitsOf(s) <= budget
    ensures Greedy(s, budget, stop) == s
    ensures Passed(s, budget, stop) == []
  {
    if s != [] {
      BitsCons(s);
      GreedyAll(s[1..], budget - s[0].Bits(), stop);
    }
  }
}
