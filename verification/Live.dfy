/** The live gateway on values: one arrival-ordered list of queued bundles, and what each call does. */
module Live {
  import opened Traffic
  import opened Telemetry
  import opened Selection
  import opened Wrappers

  datatype LivePolicy = FifoDrain | StrictDrain | WfqDrain

  datatype LiveAdmission = DropTail | Priority

  // How long a bundle of each class may wait.
  datatype Lifetimes = Lifetimes(emergency: real, telemetry: real, scienceBulk: real, media: real)
  {
    function Of(c: TrafficClass): real {
      match c
      case Emergency => emergency
      case Telemetry => telemetry
      case ScienceBulk => scienceBulk
      case Media => media
    }
  }

  datatype LiveConfig = LiveConfig(
    policy: LivePolicy,
    admission: LiveAdmission,
    cap: nat,
    lifetimes: Lifetimes)
  {
    // A bundle of the live gateway expires its class's lifetime after its arrival.
    predicate Dated(b: Bundle) {
      b.expiration == b.ingress + lifetimes.Of(b.cls)
    }
  }

  // Bytes added per unit weight on each round-robin visit.
  const QUANTUM: real := 1500.0

  // Visits one call of the round robin may make before it gives up.
  const PATIENCE: nat := 10000

  const RR0: seq<TrafficClass> := [Telemetry, ScienceBulk, Media]

  const CLASSES: seq<TrafficClass> := [Emergency, Telemetry, ScienceBulk, Media]

  function Weight(c: TrafficClass): real {
    if c == Telemetry then 10.0 else 1.0
  }

  // What became of the bundles that are no longer queued, each list in order of events.
  datatype Ledger = Ledger(
    dropped: seq<Bundle>,
    evicted: seq<Bundle>,
    expired: seq<Bundle>,
    returned: seq<Bundle>)

  datatype Gate = Gate(
    queued: seq<Bundle>,
    deficit: map<TrafficClass, real>,
    rr: seq<TrafficClass>,
    ledger: Ledger)
  {
    function Credit(c: TrafficClass): real {
      if c in deficit then deficit[c] else 0.0
    }

    function Line(c: TrafficClass): seq<Bundle> {
      Select(OfClass(c), queued)
    }
  }

  const NEW_GATE := Gate([], map[Telemetry := 0.0, ScienceBulk := 0.0, Media := 0.0], RR0,
                         Ledger([], [], [], []))

  // ---------------------------------------------------------------- expiry at the head of a class

  // The list without the overdue bundles at the head of class c.
  function Purge(s: seq<Bundle>, c: TrafficClass, now: real): seq<Bundle> {
    if s == [] then []
    else if s[0].cls != c then [s[0]] + Purge(s[1..], c, now)
    else if s[0].expiration < now then Purge(s[1..], c, now)
    else s
  }

  function Late(s: seq<Bundle>, c: TrafficClass, now: real): seq<Bundle> {
    if s == [] then []
    else if s[0].cls != c then Late(s[1..], c, now)
    else if s[0].expiration < now then [s[0]] + Late(s[1..], c, now)
    else []
  }

  function PurgeClass(g: Gate, c: TrafficClass, now: real): Gate {
    g.(queued := Purge(g.queued, c, now),
       ledger := g.ledger.(expired := g.ledger.expired + Late(g.queued, c, now)))
  }

  function PurgeClasses(g: Gate, cs: seq<TrafficClass>, now: real): Gate
    decreases |cs|
  {
    if cs == [] then g else PurgeClasses(PurgeClass(g, cs[0], now), cs[1..], now)
  }

  // ---------------------------------------------------------------- admission

  function Without(s: seq<Bundle>, i: nat): seq<Bundle>
    requires i < |s|
  {
    s[..i] + s[i + 1..]
  }

  function LastOf(s: seq<Bundle>, c: TrafficClass): (i: nat)
    requires exists b :: b in s && b.cls == c
    ensures i < |s| && s[i].cls == c
    ensures forall j :: i < j < |s| ==> s[j].cls != c
  {
    if s[|s| - 1].cls == c then |s| - 1
    else
      assert exists b :: b in s[..|s| - 1] && b.cls == c by {
        var b :| b in s && b.cls == c;
        assert b in s[..|s| - 1];
      }
      LastOf(s[..|s| - 1], c)
  }

  predicate Over(s: seq<Bundle>, b: Bundle, cap: nat) {
    cap < Bytes(s) + b.size
  }

  predicate Has(s: seq<Bundle>, c: TrafficClass) {
    exists b :: b in s && b.cls == c
  }

  // The newest bundles of class c leave, one at a time, until the arrival fits or none is left.
  function EvictClass(g: Gate, c: TrafficClass, b: Bundle, cap: nat): Gate
    decreases |g.queued|
  {
    if !Over(g.queued, b, cap) || !Has(g.queued, c) then g
    else
      var i := LastOf(g.queued, c);
      EvictClass(g.(queued := Without(g.queued, i),
                    ledger := g.ledger.(evicted := g.ledger.evicted + [g.queued[i]])), c, b, cap)
  }

  // Lowest rank first, and only ranks strictly below the arrival's.
  function EvictBelow(g: Gate, cs: seq<TrafficClass>, b: Bundle, cap: nat): Gate
    decreases |cs|
  {
    if cs == [] || Rank(cs[0]) <= b.Rank() then g
    else EvictBelow(EvictClass(g, cs[0], b, cap), cs[1..], b, cap)
  }

  const LOWEST_FIRST: seq<TrafficClass> := [Media, ScienceBulk, Telemetry, Emergency]

  function MakeRoom(cfg: LiveConfig, g: Gate, b: Bundle, now: real): Gate {
    var g1 := if Over(g.queued, b, cfg.cap) then PurgeClasses(g, CLASSES, now) else g;
    if Over(g1.queued, b, cfg.cap) && cfg.admission == Priority then EvictBelow(g1, LOWEST_FIRST, b, cfg.cap)
    else g1
  }

  predicate Admits(cfg: LiveConfig, g: Gate, b: Bundle, now: real) {
    !Over(MakeRoom(cfg, g, b, now).queued, b, cfg.cap)
  }

  function Admit(cfg: LiveConfig, g: Gate, b: Bundle, now: real): Gate {
    var r := MakeRoom(cfg, g, b, now);
    if Over(r.queued, b, cfg.cap) then r.(ledger := r.ledger.(dropped := r.ledger.dropped + [b]))
    else r.(queued := r.queued + [b])
  }

  // ---------------------------------------------------------------- draining

  datatype Pull = Pull(gate: Gate, out: Option<Bundle>)

  // Class c after expiry, if it still has a bundle.
  predicate Waiting(g: Gate, c: TrafficClass) {
    g.Line(c) != []
  }

  function FirstOf(s: seq<Bundle>, c: TrafficClass): (i: nat)
    requires Select(OfClass(c), s) != []
    ensures i < |s| && s[i] == Select(OfClass(c), s)[0] && s[i].cls == c
    ensures forall j :: 0 <= j < i ==> s[j].cls != c
  {
    if s[0].cls == c then 0 else 1 + FirstOf(s[1..], c)
  }

  function Take(g: Gate, c: TrafficClass): Pull
    requires Waiting(g, c)
  {
    var i := FirstOf(g.queued, c);
    Pull(g.(queued := Without(g.queued, i),
            ledger := g.ledger.(returned := g.ledger.returned + [g.queued[i]])),
         Some(g.queued[i]))
  }

  // First-in first-out: the oldest bundle, discarding overdue ones on the way.
  function NextFifo(g: Gate, now: real): Pull
    decreases |g.queued|
  {
    if g.queued == [] then Pull(g, None)
    else
      var b := g.queued[0];
      var p := PurgeClass(g, b.cls, now);
      if now <= b.expiration then
        Pull(p.(queued := p.queued[1..], ledger := p.ledger.(returned := p.ledger.returned + [b])), Some(b))
      else
        PurgeShrinks(g.queued, b.cls, now);
        NextFifo(p, now)
  }

  // The first of the listed classes that has a live bundle.
  function NextStrict(g: Gate, cs: seq<TrafficClass>, now: real): Pull
    decreases |cs|
  {
    if cs == [] then Pull(g, None)
    else
      var p := PurgeClass(g, cs[0], now);
      if Waiting(p, cs[0]) then Take(p, cs[0]) else NextStrict(p, cs[1..], now)
  }

  function Rotated(rr: seq<TrafficClass>): seq<TrafficClass> {
    if rr == [] then [] else rr[1..] + [rr[0]]
  }

  // A visit to an empty class: its deficit is forgotten.
  function SkipTurn(g: Gate): Gate
    requires g.rr != []
  {
    g.(deficit := g.deficit[g.rr[0] := 0.0], rr := Rotated(g.rr))
  }

  // A visit whose deficit does not cover the head: one more quantum, and on to the next class.
  function GrantTurn(g: Gate): Gate
    requires g.rr != []
  {
    var c := g.rr[0];
    g.(deficit := g.deficit[c := g.Credit(c) + QUANTUM * Weight(c)], rr := Rotated(g.rr))
  }

  // A visit that sends the head: its bytes are paid for, and the class keeps its turn.
  function ServeTurn(g: Gate): Pull
    requires g.rr != [] && Waiting(g, g.rr[0])
  {
    var c := g.rr[0];
    var t := Take(g, c);
    Pull(t.gate.(deficit := g.deficit[c := g.Credit(c) - g.Line(c)[0].size as real]), t.out)
  }

  // Up to `fuel` visits of the round robin.
  function Visits(g: Gate, now: real, fuel: nat): Pull
    decreases fuel, g
  {
    if fuel == 0 || g.rr == [] then Pull(g, None)
    else
      var c := g.rr[0];
      var p := PurgeClass(g, c, now);
      if !Waiting(p, c) then Visits(SkipTurn(p), now, fuel - 1)
      else if p.Line(c)[0].size as real <= p.Credit(c) then ServeTurn(p)
      else Visits(GrantTurn(p), now, fuel - 1)
  }

  function NextWfq(g: Gate, now: real): Pull {
    var p := PurgeClasses(g, g.rr, now);
    if forall c :: c in g.rr ==> !Waiting(p, c) then
      Pull(p.(deficit := map[Telemetry := 0.0, ScienceBulk := 0.0, Media := 0.0]), None)
    else Visits(p, now, PATIENCE)
  }

  function Next(cfg: LiveConfig, g: Gate, now: real): Pull {
    if cfg.policy == FifoDrain then NextFifo(g, now)
    else
      var p := PurgeClass(g, Emergency, now);
      if Waiting(p, Emergency) then Take(p, Emergency)
      else if cfg.policy == StrictDrain then NextStrict(p, RR0, now)
      else NextWfq(p, now)
  }

  // ---------------------------------------------------------------- interleavings

  datatype Call = Offer(b: Bundle, at: real) | Draw(at: real)

  function Step(cfg: LiveConfig, g: Gate, call: Call): Gate {
    match call
    case Offer(b, now) => Admit(cfg, g, b, now)
    case Draw(now) => Next(cfg, g, now).gate
  }

  function Steps(cfg: LiveConfig, g: Gate, calls: seq<Call>): Gate
    decreases |calls|
  {
    if calls == [] then g else Steps(cfg, Step(cfg, g, calls[0]), calls[1..])
  }

  function Offered(calls: seq<Call>): seq<Bundle> {
    if calls == [] then []
    else if calls[0].Offer? then [calls[0].b] + Offered(calls[1..])
    else Offered(calls[1..])
  }

  // ---------------------------------------------------------------- what purging does

  lemma {:induction false} PurgeShrinks(s: seq<Bundle>, c: TrafficClass, now: real)
    ensures |Purge(s, c, now)| <= |s|
    ensures s != [] && s[0].cls == c && s[0].expiration < now ==> |Purge(s, c, now)| < |s|
  {
    if s != [] && (s[0].cls != c || s[0].expiration < now) {
      PurgeShrinks(s[1..], c, now);
    }
  }

  lemma {:induction false} PurgePartition(s: seq<Bundle>, c: TrafficClass, now: real)
    ensures multiset(Purge(s, c, now)) + multiset(Late(s, c, now)) == multiset(s)
  {
    if s != [] && (s[0].cls != c || s[0].expiration < now) {
      PurgePartition(s[1..], c, now);
      assert s == [s[0]] + s[1..];
    }
  }

  // Only overdue bundles of class c go, and the first that stays is not overdue.
  lemma {:induction false} PurgeFacts(s: seq<Bundle>, c: TrafficClass, now: real)
    ensures forall b :: b in Late(s, c, now) ==> b.cls == c && b.expiration < now
    ensures var l := Select(OfClass(c), Purge(s, c, now)); l != [] ==> now <= l[0].expiration
    ensures forall b :: b in Purge(s, c, now) ==> b in s
  {
    if s != [] && (s[0].cls != c || s[0].expiration < now) {
      PurgeFacts(s[1..], c, now);
    }
  }

  lemma {:induction false} PurgeElsewhere(s: seq<Bundle>, c: TrafficClass, now: real, d: TrafficClass)
    requires d != c
    ensures Select(OfClass(d), Purge(s, c, now)) == Select(OfClass(d), s)
  {
    if s != [] && (s[0].cls != c || s[0].expiration < now) {
      PurgeElsewhere(s[1..], c, now, d);
    }
  }

  // Purging the head of a line that is not overdue changes nothing.
  lemma {:induction false} PurgeSettled(s: seq<Bundle>, c: TrafficClass, now: real)
    requires var l := Select(OfClass(c), s); l == [] || now <= l[0].expiration
    ensures Purge(s, c, now) == s && Late(s, c, now) == []
  {
    if s != [] && s[0].cls != c {
      PurgeSettled(s[1..], c, now);
    }
  }

  // A line keeps a bundle exactly when it holds one that is not overdue.
  lemma {:induction false} PurgeKeepsLive(s: seq<Bundle>, c: TrafficClass, now: real)
    ensures Select(OfClass(c), Purge(s, c, now)) != []
       <==> exists b :: b in s && b.cls == c && now <= b.expiration
  {
    if s != [] {
      assert s == [s[0]] + s[1..];
      PurgeKeepsLive(s[1..], c, now);
    }
  }
}
