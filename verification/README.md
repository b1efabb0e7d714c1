# LunaBridge gateway: a verified model

LunaBridge is a store-carry-forward gateway: it keeps class-marked bundles in a bounded buffer across
relay blackouts and drains them during contact windows. This project models its three cores in Dafny and
proves what they guarantee.

**The batch scheduler** (`gateway/scheduler.py` over `gateway/contact_plan.py` and
`gateway/telemetry.py`). `Scheduler.Scheduler` is the object: its fields, the records it marks in place,
its admission and drain loops and the walk over the windows. Every method states its whole effect as a
function on values, and `Run` ends with every record exactly as `Replay.Run` says; `Records` and
`Bookkeeping` hold its helpers. `Contacts`, `Admission`, `Drain`, `Drr`, `Policies` and `Replay` are those
functions. The theorems about whole runs are in `Fates`
(every run is total), `Overflow` (what is lost to the cap, and to whom), `Interference` (low ranks cannot touch high ones), `Edf` (deadline order is
optimal), `Lifetime` (the lifetime law), `Buffering`, `Sizing`, `Analytical` and `ClassBlind` (buffer size under
both admission modes, and the analytical figures), `Precedence` (what each policy's order means), `TwoTier` and `Conservation` (utility
tiers, work conservation), `Drr` and `WindowFairness` (the round guard and the weights inside a window),
`SkipOver` (what skipping buys), `Shares` (the weights in numbers), `Starvation` and `Deficits` (the round
robin across windows), `AdmissionModes` (which configuration admits how), `Capacity` (how much a window
carries) and `ClassTable` (what the class constants make of a run).

**The live gateway** (`link_controller/live_gateway.py`). `LiveGateway.LiveGateway` is the object with its
per-class queues, its global queue with lazy deletion, its byte count and its resumable round robin. It
refines `Live`, one arrival-ordered list with a ledger of fates. `LiveLaws`, `LiveOrder`, `LiveEviction`,
`LiveDropTail` and `RoundRobin` prove conservation, order, exact admission in both modes and fairness over
any interleaving of calls; `LiveRealTime` says what admission comes to when calls arrive in real time.

**The lifetime-to-gap law** (`link_controller/ceiling_pilot.py`). `Prediction` has the per-bundle
predicate, the time compression and the closed form, and shows that the closed form is an exact count;
`Compression` says how far a compressed schedule is from the plan;
`Lifetime` shows that a scheduler delivers exactly that many.

Time, bits and deficits are exact reals, bytes are integers, and a bundle is at least one byte. Distinct
records have distinct identifiers. The instant before everything is any instant before the first window.
A constructed plan is the subset type `Contacts.Plan`, a positive cap the subset type `Replay.Setup`.

## What came out differently from the documentation

- The module text of `gateway/scheduler.py` (lines 96-105) puts expiry before admission and admits up to
  the window's start. The code admits up to the window's end and then expires at its start
  (lines 678-683). The model follows the code; `Fates.EveryRunIsTotal` states what that yields.
- `analysis/README.md` (lines 24-26) reports 4.0 MB for priority-aware admission over a 2000 s gap. With
  the lifetimes in `gateway/traffic.py` an emergency bundle sent at the start of the gap lives 300 s, so
  no buffer is safe and the search returns the whole backlog for either admission mode
  (`Sizing.MissionSearchFindsNothing`). The protected traffic of that gap is indeed 4.01 MB of 504.05 MB
  (`ClassTable.MissionBacklog`). `Sizing.SafeIff` says exactly when a cap is safe with
  priority-aware admission, `ClassBlind.BlindSafeIff` when it is with class-blind admission, and
  `Sizing.SurvivesIff` when the profile can be safe at all.
- The lifetime law fails for a bundle that is sent inside a contact with no lifetime left when that
  contact opened: the prediction says yes, the scheduler expires it (`Lifetime.LawFailsForZeroLifetime`).
  `Lifetime.LifetimeLaw` gives the exact condition; for positive lifetimes the law holds as stated.
- With class-blind admission a larger buffer can lose what a smaller one delivers
  (`ClassBlind.BlindNotMonotone`, on a trace the search itself would build), so one safe cap says nothing
  about larger ones. Every cap from some value on is safe exactly when that value holds everything that
  arrives up to the last protected bundle, whatever its class, and the protected bundles outlive the gap
  (`ClassBlind.BlindGuaranteeIff`); with bundles of one size that condition decides every single cap
  (`ClassBlind.UniformBlindSafeIff`).
- The live gateway can evict for an arrival and still refuse it (`LiveEviction.EvictsAndStillRefuses`),
  and does so exactly when the arrival is hopeless and something below it is queued
  (`LiveEviction.EvictsInVainIff`); the batch scheduler cannot (`Admission.EvictionIsMinimal`).
- The live round robin makes at most 10,000 visits per call. It returns nothing although something is
  queued exactly when no waiting class can reach its head's size in the visits its place in the order
  gives it (`RoundRobin.WfqGivesUpExactly`). Heads of at most 4,998,000 bytes always suffice, for every
  class and place (`RoundRobin.WfqNeverGivesUpEarly`), and the bound is sharp for a class of weight one
  that is visited last (`RoundRobin.OneByteTooMany`).
- The module text of `gateway/scheduler.py` (lines 19-24) says that utility per byte never inverts class
  rank. It depends on sizes (`Precedence.DensityOrder`): an emergency bundle goes before a telemetry one
  exactly while it is less than ten times its size (`Precedence.DensityKeepsRankIff`), and 11 bytes
  against one byte inverts the rank (`Precedence.DensityInvertsRank`).
- The analytical figure B_critical of `analysis/buffer_sizing.py` (line 80) falls short of what is needed by
  less than one protected bundle per class. It is itself a safe cap exactly when every protected class's
  interval divides the gap and the protected classes outlive it (`Analytical.CriticalFigureSafeIff`).
- The batch round robin resets idle classes to avoid hoarding, but deficits of backlogged classes have no
  bound across windows: they grow by exactly what the rounds leave of their budgets
  (`Deficits.DeficitsAreLeftovers`), and a head that fits no window collects in every window that serves
  another class (`Starvation.UnfitHeadCollects`). So the bound of `WindowFairness.WindowIsFair` names the
  deficits carried in, and no constant covers every window.
- The byte cap of the live gateway does not bound what it holds. The global queue is appended on every
  admission and popped by the first-in first-out draw alone, so under the two other drains it keeps every
  bundle ever admitted; `LiveGateway.LiveGateway.Next` states that they leave it as it is.
- The utility policy counts a bundle that expires exactly as the next window opens as one that can wait
  (`gateway/scheduler.py`, line 490), although expiry then takes it first (line 380): the tiers are exact
  but for that bundle (`TwoTier.TiersAreExactButAtTheBoundary`), which can be lost to one of lower value
  (`TwoTier.BoundaryBundleIsLost`).

## Model

| member | source | states |
|---|---|---|
| Contacts.MakePlanDecides | gateway/contact_plan.py:106-115 | building a plan succeeds exactly when the given windows are pairwise disjoint, in any input order, and then holds the same windows in a valid order |
| Contacts.AdjacentCheckDecides | gateway/contact_plan.py:95-114 | checking neighbours only decides pairwise disjointness; back-to-back windows are no overlap |
| Contacts.QueriesMatchLinearScan | gateway/contact_plan.py:120-141 | both bisection queries agree with a scan from the front; at most one window covers an instant and it is the one returned |
| Contacts.WalkVisitsInOrder | gateway/scheduler.py:673-683 | asking for the window after the end of window k yields window k+1, or none after the last, also when windows touch |
| Contacts.WalkStarts | gateway/scheduler.py:672-674 | from any instant before the plan the walk starts at the first window |
| Telemetry.BundleRecord.constructor | gateway/telemetry.py:105-136 | a new record is pending, without lifetime and without timestamps |
| Telemetry.BundleRecord.SetTtl | gateway/telemetry.py:159-173 | the expiration is ingress plus the given lifetime or the class default |
| Telemetry.BundleRecord.Mark | gateway/telemetry.py:175-196 | a mark succeeds exactly on a pending record with a terminal state; a refused mark changes nothing; delivery is stamped once, with the clock when no time is given |
| Selection.SelectSort | gateway/scheduler.py:444-466 | stable sorting commutes with selecting a sublist: what is not selected never reorders what is |
| Selection.SortStable | gateway/scheduler.py:444-466 | bundles that sort alike keep their order |
| Selection.Test.Dual | gateway/scheduler.py:367-386 | every filter has a complement, so the ready and future lists, and the expired and kept lists, partition |
| Admission.EvictionIsMinimal | gateway/scheduler.py:313-342 | eviction happens only when it makes room, removes exactly the victims' bytes, and without the last victim the arrival would not fit |
| Admission.VictimsAreLowest | gateway/scheduler.py:323-342 | victims are a prefix of the (lowest rank, newest) order of the queued bundles of strictly lower priority |
| Admission.VictimsBeforeSurvivors | gateway/scheduler.py:333-341 | no candidate that stays is of lower priority, or newer within its rank, than a victim |
| Admission.AdmittedIffOwnRankFits | gateway/scheduler.py:344-357 | with priority-aware admission an arrival enters exactly when it fits beside the queued bundles of its own rank and above |
| Admission.ProjectAdmitAll | gateway/scheduler.py:359-372 | admitting a list of arrivals, seen through the ranks up to r, is admitting the arrivals of those ranks alone |
| Drain.GreedyWithinBudget | gateway/scheduler.py:417-441 | a drain never sends more bits than the budget |
| Drain.GreedyExhausts | gateway/scheduler.py:417-441 | after a skip-over drain nothing passed over fits what is left of the budget |
| Drain.StrictSendsMaximalPrefix | gateway/scheduler.py:436-441 | a drain that stops at the first misfit sends a prefix, and the next bundle does not fit the rest |
| Drain.GreedyPartition | gateway/scheduler.py:417-441 | every listed bundle is either sent or left, once |
| Drain.GreedyAppend | gateway/scheduler.py:495-516 | draining two tiers in turn is draining their concatenation: a later tier never affects an earlier one |
| Drr.RoundsNeedBudget | gateway/scheduler.py:588-650 | a window that executes n rounds began with at least 8 * 2^((n-1)/24) bits: the budget halves every 24 rounds |
| Drr.GuardUnreachable | gateway/scheduler.py:648-650 | below 8 * 2^416 bits the round guard never fires, and on exit no class head fits what is left |
| Drr.RoundFacts | gateway/scheduler.py:594-646 | a round leaves no class with a head it could still pay for, and gives every backlogged class at least a twelfth of the budget less what was sent |
| Drr.GuardAtTenThousand | gateway/scheduler.py:648-650 | a window never runs more than 10,001 rounds, and runs that many whenever a head that fits is left at its end |
| SkipOver.RoundExhausts | gateway/scheduler.py:625-646 | after any round of the skip-over round robin every bundle left in any line exceeds its class's deficit or the budget left |
| SkipOver.WindowExhausts | gateway/scheduler.py:531-652 | and so at the end of a window in which any round runs |
| SkipOver.SkipsTheLongHead | gateway/scheduler.py:606-645 | where the two round robins differ: a short bundle behind a head that does not fit goes out in one and stays in the other |
| Shares.VisitsInTurn | gateway/scheduler.py:571-573 | the three visiting orders, listed, come round in turn from window to window |
| Shares.RoundDividesBudget | gateway/scheduler.py:588-605 | a round grants a class still waiting ten parts or one of its budget, out of the parts of the classes waiting at its start |
| Shares.RoundInTwelfths | gateway/traffic.py:121-154 | with all three waiting these are ten twelfths for telemetry and one each for science and media |
| Shares.WindowInTenths | gateway/scheduler.py:577-605 | over a whole window telemetry's bits over ten, science's and media's are equal up to the slack that deficits and bundle sizes allow |
| Policies.ChoiceWithinBudget | gateway/scheduler.py:389-415 | under every policy what is sent comes from the eligible bundles, each at most once, within the window's bits, and deficits stay non-negative |
| Policies.SharedFacts | gateway/scheduler.py:531-652 | the round robin loses and duplicates nothing, and budget only turns into sent bits |
| Policies.RankedPermutes | gateway/scheduler.py:444-529 | every ordered policy tries exactly the eligible bundles |
| Replay.EveryStateSane | gateway/scheduler.py:655-696 | in every reachable state each bundle is still to come or has been offered, the buffer holds exactly the pending ones once, and their bytes fit the cap |
| Replay.SentWereEligible | gateway/scheduler.py:389-394 | what a window sends was queued, arrived before the window's end, expires after its start and fits its bits |
| Replay.AdmitKeeps | gateway/scheduler.py:344-357 | an admission decides only new fates, keeps the buffer consistent and under the cap |
| Fates.EveryRunIsTotal | gateway/scheduler.py:655-696 | a run gives every bundle of the input, and no other, exactly one final fate, and each fate has its cause: delivered in an allowed window, expired by the last end, lost to the cap on arrival or while waiting (for what reason, `Overflow.OverflowIff` says), never scheduled only when outliving the plan |
| Fates.FateIsFinal | gateway/telemetry.py:175-196 | a fate decided after any window is the bundle's fate at the end of the run |
| Fates.FateEarned | gateway/scheduler.py:374-386 | after any number of windows a decided fate has its cause on record |
| Overflow.AdmitLosesIff | gateway/scheduler.py:344-357 | an offer costs exactly these their place: the arrival, when it does not fit beside what it cannot displace, and each queued bundle that gives way to it when it then comes in |
| Overflow.OverflowIff | gateway/scheduler.py:313-357 | a bundle overflows in a run exactly when some offer refuses it for not fitting beside its own rank and above (class-blind: beside everything queued), or evicts it for an arrival of strictly higher priority that comes in |
| AdmissionModes.ClassBlindOffer | gateway/scheduler.py:303-357 | first-in first-out by default, and any policy so configured, admits an arrival exactly when it fits beside everything queued, and changes nothing else |
| AdmissionModes.PriorityAwareOffer | gateway/scheduler.py:303-357 | the six other policies by default, and any so configured, admit it exactly when it fits beside its own rank and above, all of which stays |
| AdmissionModes.ArrivesOneByOne | gateway/scheduler.py:359-372 | what arrives between two windows is offered one bundle at a time in order of arrival |
| AdmissionModes.BufferedIsSafe | gateway/scheduler.py:289-357 | in a class-blind run nothing that is in the buffer is lost to its cap, and in no run an emergency bundle |
| AdmissionModes.OfferedIff | gateway/scheduler.py:359-372 | after a window exactly what arrived by its end has been offered |
| Interference.NonInterference | gateway/scheduler.py:313-357 | under strict priority with priority-aware admission, deleting every bundle beyond rank r leaves state, contact and timestamps of the others unchanged |
| Interference.TopFatesIgnoreTheRest | gateway/scheduler.py:444-447 | two inputs that agree on the ranks up to r give those ranks the same fates |
| Interference.TopFatesAreReference | gateway/scheduler.py:655-696 | whenever a policy serves the top ranks first, their part of the run is the strict-priority run on them alone |
| Interference.EmergencyFateIsPolicyFree | gateway/scheduler.py:544-563 | an emergency bundle has the same fate, contact and timestamps under strict priority and both round robins |
| Reach.UndeliveredIsEligible | gateway/scheduler.py:389-394 | a bundle that never overflows is eligible in every window it is allowed in until it is delivered |
| Reach.DeliveredGrows | gateway/scheduler.py:425-435 | each window turns exactly what it sends into deliveries, nothing twice |
| Edf.EdfIsOptimal | gateway/scheduler.py:459-466 | with equal sizes and no overflow, a deadline-order run delivers at least as many bundles as any assignment to allowed windows within their budgets |
| Edf.RunIsFeasible | gateway/scheduler.py:655-696 | every run, under any policy and buffer, is such an assignment, and its domain is what the run delivers |
| Edf.NoRunBeatsEdf | gateway/scheduler.py:459-466 | so no policy, buffer or admission mode delivers more |
| Edf.Exchange | gateway/scheduler.py:459-466 | the exchange step: a schedule can give up its window's slot to the earliest deadline and lose at most one bundle |
| Capacity.WindowSendsAsManyAsFit | gateway/contact_plan.py:67-81 | with bundles of n bytes a window sends as many as its seconds times its rate hold at 8n bits each, or all there are, under every policy |
| Buffering.LargerBufferSameRun | gateway/scheduler.py:344-357 | if nothing overflows, any larger buffer, class-blind or not, gives the identical run |
| Buffering.BigBufferLosesNothing | gateway/scheduler.py:344-357 | a cap of at least all the bytes loses nothing |
| Compression.CompressedEnds | link_controller/ceiling_pilot.py:60-65 | every window's ends, counted from the first start and divided by the factor, go to the nearest unit, the even one of two |
| Compression.LengthsKept | link_controller/ceiling_pilot.py:60-65 | no contact and no gap differs from the original over the factor by more than one unit |
| Compression.LawSurvivesCompression | link_controller/ceiling_pilot.py:60-72 | contact time and bridged gaps, with the lifetime scaled alike, differ by at most one unit a window and one a gap, and the span by one |
| Prediction.ClosedFormCounts | link_controller/ceiling_pilot.py:68-85 | the number of whole-second send slots predicted deliverable is the contact time plus each gap up to the lifetime |
| Prediction.ClosedFormIsFraction | link_controller/ceiling_pilot.py:68-72 | the closed form is that count over the span |
| Prediction.CompressionKeepsOrder | link_controller/ceiling_pilot.py:61-65 | scaling and rounding a schedule keeps every window, ordered and disjoint, and starts it at zero (`Compression.CompressedEnds` says where) |
| Lifetime.LifetimeLaw | link_controller/ceiling_pilot.py:75-85 | when budgets never bind, a bundle is delivered exactly when it is not lost to the cap, is predicted deliverable and did not enter a contact already stale |
| Lifetime.LawForPositiveLifetimes | link_controller/ceiling_pilot.py:75-85 | for positive lifetimes delivery is prediction without loss to the cap |
| Lifetime.SchedulerImplementsLaw | gateway/scheduler.py:655-696 | a scheduler whose buffer holds everything implements the law |
| Lifetime.DeliveriesMatchClosedForm | link_controller/ceiling_pilot.py:68-72 | with one bundle per second of the span, under every policy, the deliveries number contact time plus each gap up to the lifetime, and the closed form is the fraction delivered |
| Lifetime.LawFailsForZeroLifetime | link_controller/ceiling_pilot.py:79-80 | a bundle on which prediction and scheduler differ |
| Lifetime.PoliciesAgree | README.md:127 | when budgets never bind, a bundle that overflows under neither has the same record under both policies |
| Lifetime.EveryPolicySameRun | README.md:127 | and with room for everything all policies give the identical run |
| Lifetime.EveryPolicySendsAll | gateway/scheduler.py:389-415 | a window whose budget covers the eligible bundles sends them all, under each of the seven policies |
| ClassTable.DefaultLifetimesReach | gateway/traffic.py:95-155 | with a buffer for everything and ample windows, a bundle with its class's default lifetime is delivered exactly when the next contact is within 300, 3,600, 57,600 or 3,600 seconds |
| ClassTable.MediaNeverMatters | gateway/scheduler.py:313-357 | under strict priority with eviction, deleting all media traffic changes no other bundle's record |
| ClassTable.ScienceAndMediaNeverMatter | gateway/scheduler.py:313-357 | deleting science and media changes no emergency or telemetry record |
| ClassTable.OnlyEmergencyMatters | gateway/scheduler.py:544-563 | deleting everything else changes no emergency record, under both round robins as well |
| Precedence.OvertakenOnlyBySmaller | gateway/scheduler.py:444-652 | for each of the seven policies: if b should go before c, is not sent and c is, then c is strictly smaller; strict first-in first-out, and the standard round robin within a class, let nothing overtake |
| Precedence.DensityOrder | gateway/scheduler.py:518-529 | the density order puts b before c exactly when b's utility times c's size exceeds c's utility times b's size |
| Precedence.DensityKeepsRankIff | gateway/scheduler.py:19-24 | which size ratios keep the class ranks in that order: below ten between neighbouring classes, below a hundred between emergency and science, any with media |
| Precedence.DensityInvertsRank | gateway/scheduler.py:19-24 | an emergency bundle that it puts behind a telemetry one |
| TwoTier.RiskTierFirst | gateway/scheduler.py:484-516 | the at-risk bundles sent are those of draining the at-risk tier alone, by utility |
| TwoTier.SafeTierNeverMatters | gateway/scheduler.py:484-516 | whatever the safe tier holds, the same at-risk bundles go out |
| TwoTier.TiersAreExactButAtTheBoundary | gateway/scheduler.py:484-493 | at risk means no later window can carry the bundle, except when it expires as the next one opens |
| TwoTier.LaterWindowIff | gateway/scheduler.py:378-380 | a later window can carry what has arrived exactly when it outlives the start of the next one |
| TwoTier.UnsentWithoutLaterWindowIsLost | gateway/scheduler.py:374-386 | under every policy a queued bundle that no later window can carry and that is not sent is never delivered |
| TwoTier.AtRiskUnsentIsLost | gateway/scheduler.py:184-189 | in particular one at risk |
| TwoTier.BoundaryBundleIsLost | gateway/scheduler.py:489-493 | an emergency bundle expiring as the next window opens gives way to a video bundle at risk, and is lost |
| WindowFairness.SteadyPays | gateway/scheduler.py:577-605 | what a class that stays backlogged sends, with the deficit it keeps, is its weight times what the rounds grant per unit, beyond the deficit it came with |
| WindowFairness.EarlyRoundsAreFair | gateway/scheduler.py:577-605 | over rounds in which two classes stay backlogged and their heads still fit, the bits they send per weight differ by at most one deficit each |
| WindowFairness.RoundsAreFair | gateway/scheduler.py:588-650 | over any number of rounds, those that use up the budget included, they differ by at most three opening deficits and two bundles each |
| WindowFairness.WindowIsFair | gateway/scheduler.py:531-652 | that bound for a whole window, from its opening to the end of its loop: two classes with something left in line have sent bits in proportion to their weights |
| WindowFairness.RoundsAreTaken | gateway/scheduler.py:588-650 | a window's loop takes exactly the rounds it executes, with the last one |
| Deficits.NothingLeftOwesNothing | gateway/scheduler.py:575-647 | a shared class with nothing eligible left over after a window carries no deficit into the next |
| Starvation.NoStarvation | gateway/scheduler.py:80-85 | under the standard round robin the oldest eligible bundle of a shared class does not wait through fifteen windows: in one of them it is sent, has left the buffer, or does not fit what emergency traffic leaves |
| Starvation.OldestIsDelivered | gateway/scheduler.py:531-535 | so one that never overflows, outlives fifteen windows and fits what emergency traffic leaves of each is delivered |
| Starvation.WindowGrants | gateway/scheduler.py:588-650 | a window that passes it over although it fits adds a twelfth of its bits to its class's deficit, and did not visit the class first with the deficit covering it |
| Starvation.UnfitHeadCollects | gateway/scheduler.py:594-605 | a head that does not fit collects a twelfth of what emergency traffic leaves in each window that serves another class |
| Starvation.RotationAt | gateway/scheduler.py:572-652 | window k visits the shared classes in the order rotated k times |
| Deficits.RoundKeeps | gateway/scheduler.py:594-646 | a round adds at most what it leaves of the budget to the deficits, and exactly that when no line runs empty |
| Deficits.DeficitsAreLeftovers | gateway/scheduler.py:82-84 | the deficits carried after k windows are at most what the rounds so far left of their budgets, and exactly that while no class forfeits its own |
| Conservation.AllPoliciesSendAsMany | gateway/scheduler.py:389-415 | from the same eligible bundles of one size any two configurations send the same number, if the round guard is not what stopped them |
| Conservation.GuardNeverHit | gateway/scheduler.py:648-650 | no budget below 8 * 2^416 bits lets the guard stop a window |
| Conservation.NoRoomLeft | gateway/scheduler.py:417-456 | after a skip-over ordered drain no unsent eligible bundle fits what remains |
| Sizing.MakeTrace | analysis/buffer_sizing.py:85-97 | the trace is the periodic arrivals of every class, numbered from one |
| Sizing.Arrivals | analysis/buffer_sizing.py:88-96 | the loop over one class builds its periodic trace |
| Sizing.ArrivalTimes | analysis/buffer_sizing.py:88-96 | the k-th arrival of a class is at k intervals, and every multiple of the interval inside the gap is there |
| Sizing.TraceFacts | analysis/buffer_sizing.py:85-97 | every bundle of a trace arrives inside the gap with its class's default lifetime |
| Sizing.MinBuffer | analysis/buffer_sizing.py:111-136 | the search returns an upper end that is safe or never improved on, one bracket width above a cap that is unsafe or never raised; an empty trace is an error |
| Sizing.SafeIff | analysis/buffer_sizing.py:100-129 | with priority-aware admission a cap is safe exactly when it holds the protected bytes and every protected bundle outlives the gap |
| Sizing.SurvivesIff | analysis/buffer_sizing.py:85-97 | the profile can be safe exactly when every protected class has a default lifetime beyond the gap |
| Sizing.ProtectedFatesStable | gateway/scheduler.py:313-357 | if no protected bundle overflows at one cap, all protected fates are the same at every larger cap |
| Sizing.ProtectedBytesSuffice | gateway/scheduler.py:313-357 | a cap that holds the protected bytes loses no protected bundle to overflow |
| Sizing.SearchPinsProtectedBytes | analysis/buffer_sizing.py:121-136 | when the profile can be safe, the search ends within one bracket of the protected bytes |
| Sizing.SearchFindsNothing | analysis/buffer_sizing.py:121-136 | when it cannot, the search returns the whole backlog |
| Sizing.MissionSearchFindsNothing | analysis/buffer_sizing.py:56-62 | for the mission profile and any gap of 300 s or more it cannot |
| ClassTable.SurvivesInSeconds | analysis/buffer_sizing.py:62-97 | the profile can be safe exactly when the gap is under 300 seconds if it has emergency traffic and under an hour if it has telemetry |
| ClassTable.MissionBacklog | analysis/buffer_sizing.py:54-97 | the trace of the validation run to the byte: 4,010,240 protected of 504,049,920 |
| ClassTable.SearchPrecision | analysis/buffer_sizing.py:121-136 | forty halvings: the search ends within the 1,099,511,627,776th part of the backlog of the protected bytes, unless its lower end never moved |
| ClassTable.DrainCarriesHundredfold | analysis/buffer_sizing.py:117-119 | the search's contact could carry the trace a hundred times |
| Analytical.FigureExactIff | analysis/buffer_sizing.py:74-97 | for the classes up to a rank, rate times gap is what the trace holds exactly when every interval divides the gap |
| Analytical.CriticalFigureSafeIff | analysis/buffer_sizing.py:74-108 | B_critical is below what must be held by less than one protected bundle per class, and is itself safe exactly when the protected intervals divide the gap and survival holds |
| Analytical.NativeFigureBounds | analysis/buffer_sizing.py:74-82 | B_native is below the whole backlog by less than one bundle per class |
| ClassBlind.AdmitsTailDrop | gateway/scheduler.py:344-357 | class-blind admission keeps each arrival that fits and nothing else |
| ClassBlind.BlindSafeIff | analysis/buffer_sizing.py:100-129 | a class-blind cap is safe exactly when tail drop in arrival order refuses no protected bundle and every protected bundle outlives the gap |
| ClassBlind.BlindGuaranteeIff | analysis/buffer_sizing.py:13-16 | every cap from a value on is safe exactly when that value holds everything that arrives up to the last protected bundle and the protected bundles outlive the gap |
| ClassBlind.UniformBlindSafeIff | analysis/buffer_sizing.py:13-16 | with bundles of one size that decides every single cap |
| ClassBlind.BlindSearchPinsBacklog | analysis/buffer_sizing.py:121-136 | and the class-blind search ends within one bracket of that backlog |
| ClassBlind.BlindSafeIsAwareSafe | analysis/buffer_sizing.py:13-21 | a cap that is safe class-blind is safe with priority-aware admission |
| ClassBlind.BlindNotMonotone | analysis/buffer_sizing.py:123-135 | a trace the search would build that is safe at 5 bytes, unsafe at 6 and safe from 10 on |
| Records.Pick | gateway/scheduler.py:367-368 | filtering records keeps exactly those passing, in order |
| Records.SortRecords | gateway/scheduler.py:453-466 | the stable sort by key |
| Scheduler.Scheduler.constructor | gateway/scheduler.py:226-267 | a new scheduler has an empty buffer and no deficit |
| Scheduler.Scheduler.AdmitOne | gateway/scheduler.py:308-311 | the record joins the buffer and its admission is stamped |
| Scheduler.Scheduler.Evict | gateway/scheduler.py:338-340 | one victim leaves the buffer and is marked overflowed |
| Scheduler.Scheduler.EvictLowerPriorityToFit | gateway/scheduler.py:313-342 | it succeeds exactly when evicting all lower priorities would make room, evicts the minimal prefix, and otherwise changes nothing |
| Scheduler.Scheduler.TryAdmit | gateway/scheduler.py:344-357 | the buffer and every record become what the admission function says, and no mark is refused |
| Scheduler.Scheduler.AdmitArrivals | gateway/scheduler.py:359-372 | everything ready is offered in ingress order, the rest is returned |
| Scheduler.Scheduler.ExpireInBlackout | gateway/scheduler.py:374-386 | exactly the queued records whose lifetime has passed are marked expired and leave |
| Scheduler.Scheduler.SendFitting | gateway/scheduler.py:417-441 | the greedy loop sends and keeps exactly what the greedy drain says, and accounts for bits and bytes |
| Scheduler.Scheduler.DrainInOrder | gateway/scheduler.py:444-529 | the five ordered policies |
| Scheduler.Scheduler.Tiers | gateway/scheduler.py:484-500 | at-risk records by utility, then the others by density, split at the start of the plan's next window |
| Scheduler.Scheduler.TakeTurn | gateway/scheduler.py:603-646 | one class's turn of the round robin, standard and skip-over |
| Scheduler.Scheduler.TakeRounds | gateway/scheduler.py:588-650 | the rounds of one window, with their guard |
| Scheduler.Scheduler.DrainShared | gateway/scheduler.py:531-652 | emergency first, then the round robin in rotated order; deficits and rotation carry over |
| Scheduler.Scheduler.DrainWindow | gateway/scheduler.py:389-415 | the buffer, the records and the round-robin state after one window, under any policy |
| Scheduler.Scheduler.VisitWindow | gateway/scheduler.py:678-683 | admission, expiry and drain of one window take the state after k windows to the state after k+1 |
| Scheduler.Scheduler.Finish | gateway/scheduler.py:685-696 | the rest arrives, what is stale at the last end expires, the remainder is never scheduled |
| Scheduler.Scheduler.Run | gateway/scheduler.py:655-696 | a bundle without a lifetime is refused before anything changes; otherwise every record ends as the run on values says, and the byte count keeps what was abandoned |
| LiveLaws.EveryInterleavingConserves | link_controller/live_gateway.py:49-135 | over any interleaving of calls, what was queued or offered is queued or has a fate, once, and the bytes stay within the cap |
| LiveLaws.OneFateEach | link_controller/live_gateway.py:49-135 | each offered bundle is queued, dropped, evicted, expired or returned, exactly one of them |
| LiveLaws.NothingLateReturned | link_controller/live_gateway.py:77-135 | from any state a returned bundle was queued and has not expired |
| LiveLaws.NothingOlderThanItsLifetime | link_controller/live_gateway.py:77-135 | after any calls on a new gateway a returned bundle was offered and is not older than its class's lifetime |
| LiveLaws.NothingOlderByClass | link_controller/live_gateway.py:77-88 | the same, class by class |
| LiveOrder.FifoReturnsFirstLive | link_controller/live_gateway.py:99-110 | first-in first-out returns the earliest-admitted queued bundle that is not overdue, none exactly when there is none, and keeps the others |
| LiveOrder.StrictReturnsHighestRank | link_controller/live_gateway.py:111-117 | strict drain returns the oldest live bundle of the highest rank that has one |
| LiveOrder.PriorityAdmission | link_controller/live_gateway.py:53-75 | an arrival is admitted exactly when it fits beside its own rank and above, which are never touched; a refused arrival has evicted all lower ranks |
| LiveOrder.EvictedAreLower | link_controller/live_gateway.py:58-66 | every bundle evicted for an arrival is of strictly lower priority |
| LiveEviction.EvictionOrder | link_controller/live_gateway.py:58-66 | every class keeps its oldest bundles, a class loses none while a lower one still has any, and without the last eviction the arrival would still not fit |
| LiveEviction.EvictsInVainIff | link_controller/live_gateway.py:58-69 | a refused arrival evicts exactly when it does not fit beside its own rank and above and something below it is queued |
| LiveEviction.EvictsAndStillRefuses | link_controller/live_gateway.py:58-69 | three offers to a new gateway, the last of which costs a queued bundle its place and is refused |
| LiveDropTail.PurgesShed | link_controller/live_gateway.py:53-57 | the four purges of an admission are one pass that drops each class's overdue heads |
| LiveDropTail.FitsOutright | link_controller/live_gateway.py:53-74 | in either mode an arrival that fits joins at the end and nothing else happens |
| LiveDropTail.DropTailAdmission | link_controller/live_gateway.py:53-74 | a drop-tail arrival that does not fit sheds the overdue heads, enters exactly when it fits beside the rest and is dropped otherwise; nothing is evicted |
| LiveDropTail.DropTailKeepsAlive | link_controller/live_gateway.py:58-74 | whatever arrives at a drop-tail gateway, every queued bundle that is not overdue stays, in order |
| LiveDropTail.DropTailNeverEvicts | link_controller/live_gateway.py:49-135 | no calls on a drop-tail gateway evict anything |
| LiveRealTime.ShedIsAlive | link_controller/live_gateway.py:54-57 | lines in order of expiry shed exactly what is overdue |
| LiveRealTime.StepsTidy | link_controller/live_gateway.py:54-57 | calls in real time keep every line in order of expiry |
| LiveRealTime.AdmittedInRealTime | link_controller/live_gateway.py:49-74 | after any calls in real time an arrival enters exactly when it fits beside the queued bundles that are not overdue: all of them under drop-tail, those of its own rank and above with priority admission |
| RoundRobin.EmergencyPreempts | link_controller/live_gateway.py:111-112 | under the strict and the round-robin drain the oldest live emergency bundle goes first |
| RoundRobin.IdleDrawForgets | link_controller/live_gateway.py:118-123 | a round-robin draw that finds nothing live forgets every deficit |
| RoundRobin.LoneBundleServedIff | link_controller/live_gateway.py:124-135 | the largest single bundle a draw can serve, by class and place in the visiting order |
| RoundRobin.ServesExactly | link_controller/live_gateway.py:124-135 | the visits return a bundle exactly when some class's deficit can reach its head in the visits it gets |
| RoundRobin.WfqGivesUpExactly | link_controller/live_gateway.py:118-135 | the exact condition under which a draw returns nothing |
| RoundRobin.WfqNeverGivesUpEarly | link_controller/live_gateway.py:118-135 | with bundles of at most 4,998,000 bytes a draw returns nothing only when nothing live is queued |
| RoundRobin.OneByteTooMany | link_controller/live_gateway.py:124-135 | one byte more, offered to a new gateway in the class visited last, and the queued bundle is not returned |
| RoundRobin.StepsBounded | link_controller/live_gateway.py:118-135 | in every reachable state a deficit is non-negative and less than one quantum above the largest size |
| RoundRobin.NewGateBounded | link_controller/live_gateway.py:43-44 | a new gateway satisfies the bound |
| RoundRobin.RoundRobinIsFair | link_controller/live_gateway.py:118-135 | over any stretch of calls in which two classes are backlogged at every round-robin draw, their bytes per weight differ by less than three quanta plus one largest bundle each |
| LiveGateway.LiveGateway.constructor | link_controller/live_gateway.py:35-46 | a new gateway is empty |
| LiveGateway.LiveGateway.Head | link_controller/live_gateway.py:77-88 | overdue heads of a class expire and its first live bundle is returned |
| LiveGateway.LiveGateway.Take | link_controller/live_gateway.py:90-94 | the head of a class leaves every queue and the byte count |
| LiveGateway.LiveGateway.EvictFrom | link_controller/live_gateway.py:62-66 | the newest of a class leave until the arrival fits |
| LiveGateway.LiveGateway.Admit | link_controller/live_gateway.py:49-74 | both queues, the byte count and the verdict are those of the list, and the invariant between the queues holds |
| LiveGateway.LiveGateway.NextInOrder | link_controller/live_gateway.py:99-110 | the scan of the lazy queue returns what the list returns, and only the returned bundle and overdue ones leave |
| LiveGateway.LiveGateway.NextByTurn | link_controller/live_gateway.py:118-135 | the round robin on the queues is the round robin on the list |
| LiveGateway.LiveGateway.Next | link_controller/live_gateway.py:96-135 | the next bundle, for each of the three drains; only the first-in first-out draw touches the global queue |
| LiveGateway.MirrorsAppend | link_controller/live_gateway.py:70-73 | an admitted bundle joins both queues at the end |
| LiveGateway.FirstIsHead | link_controller/live_gateway.py:90-91 | the head of a class queue is the first of its class in arrival order |
| LiveGateway.LastIsTail | link_controller/live_gateway.py:62-64 | the tail of a class queue is the last of its class in arrival order |

## Left out

- Live plumbing: packet capture, the protocol clients, network namespaces and the µD3TN processes are I/O and foreign software.
- Threads and locks: the live gateway's calls are atomic and may interleave in any order.
- Logs, decision lists, snapshots and files: only the fates they record are kept, as the ghost ledger of the live gateway and the records of the batch scheduler.
- Floating-point rounding in budgets, deficits and the bisection of the buffer search: arithmetic is exact.
- Random workloads, radio channel code, link budgets and figures.
- Packet classification, delivery ratios and mission utility: table lookups and simple sums.
- Python's negative infinity as the start of the walk is an instant before the first window, and its positive infinity as a cutoff is the absence of a cutoff.
- The clock: a mark without a time reads it; the model takes the reading as a parameter, and nothing a run writes depends on it.
- LiveGateway.LiveGateway.Admit: a bundle carries its expiration, arrival plus its class's configured lifetime, beside its arrival time, and admission asks that the two agree; the code compares ages, which is the same test.
- Removal by equality: the code removes a victim by comparing all fields of a record; with distinct identifiers that is the record itself, which the model removes.
- The stable sort is the library's; it is modelled by insertion.
- Sizing trials: the code runs the scheduler on deep copies of the trace; the model uses the run on values, which `Scheduler.Scheduler.Run` shows to be the same.
- The order of the last two steps of a first-in first-out draw, taking from the class queue and popping the global one, is exchanged; nothing is observable in between.
- Refused constructions: a window that does not end after it starts or has no rate, and a scheduler with a cap of zero or less, are excluded by types instead of raised as errors; the empty buffer search, which meets the first of these, does return its error.
- Scheduler.Scheduler.Run: requires an unused scheduler, because the byte count is not reset at the end of a run; distinct identifiers, because the code removes victims by equality; and records nothing has been written into, because a mark on a settled record raises.
- Lifetime.LifetimeLaw: for the two round robins it asks for window budgets below 8 * 2^416 bits, because above that the guard on rounds could in principle end a window early.
- Lifetime.EveryPolicySendsAll: asks for the same bound, for the same reason.
- Conservation.AllPoliciesSendAsMany: asks that the round guard did not stop the window, which `Conservation.GuardNeverHit` discharges for every budget below 8 * 2^416 bits.
