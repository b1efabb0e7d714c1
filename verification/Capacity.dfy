/** What a window carries: with bundles of one size, exactly as many as its seconds times its rate allow. */
module Capacity {
  import opened Telemetry
  import opened Selection
  import opened Policies
  import opened Replay
  import opened Reach
  import opened Conservation
  import opened Drr
  import Contacts

  // k bundles of n bytes are all that `seconds` at `rate` bits per second take out of `total`.
  ghost predicate Carries(k: nat, total: nat, n: Size, seconds: real, rate: real) {
    && k <= total
    && (8 * n * k) as real <= seconds * rate
    && (k < total ==> seconds * rate < (8 * n * (k + 1)) as real)
  }

  lemma BitsOfMany(n: Size, k: nat)
    ensures (k as real) * BitsEach(n) == (8 * n * k) as real
  {
    assert k * (8 * n) == 8 * n * k;
    assert (k * (8 * n)) as real == (k as real) * ((8 * n) as real);
  }

  // When every eligible bundle has n bytes, a window sends as many as fit it, under every policy, in every
  // state of the round robin and whatever came before.
  lemma WindowSendsAsManyAsFit(cfg: Setup, ws: Plan, bundles: Batch, k: nat, n: Size)
    requires k < |ws| && Uniform(EligibleAt(cfg, ws, bundles, k), n)
    requires RoundRobin(cfg.policy) ==> ws[k].Budget() < (8 * Pow2(416)) as real
    ensures Carries(|SentAt(cfg, ws, bundles, k)|, |EligibleAt(cfg, ws, bundles, k)|, n,
                    ws[k].end - ws[k].start, ws[k].rate)
  {
    hide After, Opened, Uniform, Fills, GuardNotHit, Pow2, Choose;
    var st, el := After(cfg, ws, bundles, k), EligibleAt(cfg, ws, bundles, k);
    var sent := |SentAt(cfg, ws, bundles, k)|;
    EveryStateSane(cfg, ws, bundles, k);
    SaneCarry(st, bundles, cfg.cap);
    BudgetNonNegative(ws[k]);
    if RoundRobin(cfg.policy) {
      GuardNeverHit(cfg, st.carry, el, ws[k].Budget());
    } else {
      NoGuard(cfg, st.carry, el, ws[k].Budget());
    }
    ChoiceFills(cfg, st.carry, el, ws[k].Budget(), NextStart(ws, k), n);
    FillsCarries(sent, |el|, n, ws[k]);
  }

  lemma NoGuard(cfg: Config, carry: Carry, el: seq<Bundle>, budget: real)
    requires !RoundRobin(cfg.policy)
    ensures GuardNotHit(cfg, carry, el, budget)
  {
  }

  lemma FillsCarries(k: nat, total: nat, n: Size, w: Contacts.Window)
    requires Fills(k, total, BitsEach(n), w.Budget())
    ensures Carries(k, total, n, w.end - w.start, w.rate)
  {
    hide BitsEach;
    BitsOfMany(n, k);
    BitsOfMany(n, k + 1);
  }
}
