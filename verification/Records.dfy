/** Lists of bundle records: the values they stand for, filtering and stable sorting. */
module Records {
  import opened Telemetry
  import opened Selection
  import opened Wrappers

  // A fixed reading of each record as a value.
  type Reading = map<BundleRecord, Bundle>

  ghost predicate ReadsAs(info: Reading, r: BundleRecord)
    reads r`expiration
  {
    r in info && r.expiration.Some? && info[r] == r.Info()
  }

  ghost predicate Read(info: Reading, s: seq<BundleRecord>) {
    forall r :: r in s ==> r in info
  }

  // Records are read under `info` exactly as they are.
  ghost predicate Faithful(info: Reading, s: seq<BundleRecord>)
    reads s`expiration
  {
    forall r :: r in s ==> ReadsAs(info, r)
  }

  ghost function Values(info: Reading, s: seq<BundleRecord>): seq<Bundle>
    requires Read(info, s)
  {
    if s == [] then [] else [info[s[0]]] + Values(info, s[1..])
  }

  lemma {:induction false} ValuesAt(info: Reading, s: seq<BundleRecord>)
    requires Read(info, s)
    ensures |Values(info, s)| == |s|
    ensures forall i :: 0 <= i < |s| ==> Values(info, s)[i] == info[s[i]]
  {
    if s != [] { ValuesAt(info, s[1..]); }
  }

  lemma {:induction false} ValuesAppend(info: Reading, s: seq<BundleRecord>, t: seq<BundleRecord>)
    requires Read(info, s) && Read(info, t)
    ensures Read(info, s + t)
    ensures Values(info, s + t) == Values(info, s) + Values(info, t)
  {
    if s == [] {
      assert s + t == t;
    } else {
      assert (s + t)[1..] == s[1..] + t;
      ValuesAppend(info, s[1..], t);
    }
  }

  lemma ValuesSnoc(info: Reading, s: seq<BundleRecord>, r: BundleRecord)
    requires Read(info, s) && r in info
    ensures Read(info, s + [r])
    ensures Values(info, s + [r]) == Values(info, s) + [info[r]]
  {
    ValuesAppend(info, s, [r]);
    assert Values(info, [r]) == [info[r]];
  }

  lemma ValuesMember(info: Reading, s: seq<BundleRecord>, b: Bundle)
    requires Read(info, s)
    ensures b in Values(info, s) <==> exists r :: r in s && info[r] == b
  {
    ValuesAt(info, s);
    if b in Values(info, s) {
      var i :| 0 <= i < |Values(info, s)| && Values(info, s)[i] == b;
      assert s[i] in s;
    }
    if r :| r in s && info[r] == b {
      var i :| 0 <= i < |s| && s[i] == r;
      assert Values(info, s)[i] == b;
    }
  }

  // The head of what is left of a list at position i.
  lemma RestOf(info: Reading, s: seq<BundleRecord>, i: nat)
    requires Read(info, s) && i < |s|
    ensures s[i] in s && Read(info, s[i..]) && Read(info, s[i + 1..])
    ensures Values(info, s[i..]) == [info[s[i]]] + Values(info, s[i + 1..])
  {
    assert s[i..][1..] == s[i + 1..];
  }

  // ---------------------------------------------------------------- selecting

  lemma SelectCons(t: Test, b: Bundle, s: seq<Bundle>)
    ensures Select(t, [b] + s) == (if t.Passes(b) then [b] else []) + Select(t, s)
  {
  }

  lemma NothingLeft(info: Reading, s: seq<BundleRecord>, t: Test)
    requires Read(info, s)
    ensures s[0..] == s && s[|s|..] == [] && Values(info, []) == [] && Select(t, []) == []
  {
  }

  method Pick(s: seq<BundleRecord>, t: Test, ghost info: Reading) returns (yes: seq<BundleRecord>)
    requires Faithful(info, s)
    ensures forall r :: r in yes ==> r in s
    ensures Read(info, s) && Read(info, yes) && Values(info, yes) == Select(t, Values(info, s))
  {
    hide Test.Passes, BundleRecord.Info, Values, Select;
    NothingLeft(info, s, t);
    yes := [];
    for i := 0 to |s|
      invariant forall r :: r in yes ==> r in s
      invariant Read(info, yes) && Read(info, s[i..])
      invariant Values(info, yes) + Select(t, Values(info, s[i..])) == Select(t, Values(info, s))
    {
      RestOf(info, s, i);
      SelectCons(t, info[s[i]], Values(info, s[i + 1..]));
      assert ReadsAs(info, s[i]);
      if t.Passes(s[i].Info()) {
        ValuesSnoc(info, yes, s[i]);
        yes := yes + [s[i]];
      }
    }
  }

  // ---------------------------------------------------------------- sorting

  method InsertRecord(k: SortKey, b: BundleRecord, s: seq<BundleRecord>, ghost info: Reading)
      returns (t: seq<BundleRecord>)
    requires Faithful(info, s) && ReadsAs(info, b)
    ensures forall r :: r in t <==> r == b || r in s
    ensures Read(info, t) && Read(info, s)
    ensures Values(info, t) == Selection.Insert(k, info[b], Values(info, s))
  {
    hide Before, BundleRecord.Info;
    if s == [] {
      ValuesSnoc(info, [], b);
      return [b];
    }
    assert s == [s[0]] + s[1..];
    assert ReadsAs(info, s[0]);
    if Before(k, s[0].Info(), b.Info()) {
      t := InsertRecord(k, b, s[1..], info);
      ValuesAppend(info, [s[0]], t);
      ValuesSnoc(info, [], s[0]);
      t := [s[0]] + t;
    } else {
      ValuesAppend(info, [b], s);
      ValuesSnoc(info, [], b);
      t := [b] + s;
    }
  }

  // The library's stable sort by key.
  method SortRecords(k: SortKey, s: seq<BundleRecord>, ghost info: Reading) returns (t: seq<BundleRecord>)
    requires Faithful(info, s)
    ensures forall r :: r in t <==> r in s
    ensures Read(info, t) && Read(info, s)
    ensures Values(info, t) == Sort(k, Values(info, s))
  {
    if s == [] {
      return [];
    }
    assert s == [s[0]] + s[1..];
    t := SortRecords(k, s[1..], info);
    t := InsertRecord(k, s[0], t, info);
  }

  // ---------------------------------------------------------------- removing one record

  function RemoveFrom(s: seq<BundleRecord>, r: BundleRecord): (t: seq<BundleRecord>)
    ensures forall x :: x in t ==> x in s
    ensures forall x :: x in s && x != r ==> x in t
  {
    if s == [] then []
    else if s[0] == r then s[1..]
    else [s[0]] + RemoveFrom(s[1..], r)
  }

  lemma {:induction false} ValuesRemoved(info: Reading, s: seq<BundleRecord>, r: BundleRecord)
    requires Read(info, s) && r in s && Distinct(Values(info, s))
    ensures Values(info, RemoveFrom(s, r)) == Select(NotAmong([info[r]]), Values(info, s))
  {
    var v := Values(info, s);
    DistinctCons(v);
    assert v[1..] == Values(info, s[1..]);
    if s[0] == r {
      SelectAll(NotAmong([info[r]]), v[1..]);
    } else {
      assert r in s[1..];
      ValuesMember(info, s[1..], info[r]);
      ValuesRemoved(info, s[1..], r);
    }
  }

  method TotalBytes(s: seq<BundleRecord>, ghost info: Reading) returns (n: nat)
    requires Faithful(info, s)
    ensures Read(info, s) && n == Bytes(Values(info, s))
  {
    hide BundleRecord.Info;
    n := 0;
    for i := 0 to |s|
      invariant Read(info, s[i..])
      invariant n + Bytes(Values(info, s[i..])) == Bytes(Values(info, s))
    {
      RestOf(info, s, i);
      ReadSize(info, s[i]);
      n := n + s[i].size;
    }
  }

  lemma ReadSize(info: Reading, r: BundleRecord)
    requires ReadsAs(info, r)
    ensures info[r].size == r.size && info[r].ingress == r.ingress && info[r].cls == r.cls
    ensures r.expiration == Some(info[r].expiration)
  {
  }
}
