/** Stage counts and milestones of the operator dashboard (operator-dashboard.ts and the
    observer in cash-wallet-cutover-dashboard.ts). */
module StageProgress {
  import opened Common
  import opened Division
  import opened Migrations
  import opened Routing
  import ForwardRuns

  datatype Stage =
    | PendingStage | Provisioning | Moving | Fees | Finalizing | CompleteStage | SkippedStage
    | Attention | RollingBack | RolledBackStage

  /** CASH_WALLET_CUTOVER_STAGE_STATUSES; an account without a record is None. */
  predicate InStage(stage: Stage, status: Option<Status>) {
    match stage
    case PendingStage => status == None || status == Some(NotStarted)
    case Provisioning => status == Some(Started) || status == Some(Provisioned)
    case Moving =>
      || status == Some(BalanceRead) || status == Some(InvoiceCreated) || status == Some(BalanceMoveSending)
      || status == Some(BalanceMoveSent) || status == Some(BalanceMoveVerified)
    case Fees => status == Some(FeeInvoiceCreated) || status == Some(FeeSending) || status == Some(FeeReimbursed)
    case Finalizing => status == Some(PointerFlipped) || status == Some(LegacyZeroVerified)
    case CompleteStage => status == Some(Complete)
    case SkippedStage => status == Some(Skipped)
    case Attention => status == Some(Failed) || status == Some(RequiresReview)
    case RollingBack => status == Some(RollbackStarted)
    case RolledBackStage => status == Some(RolledBack)
  }

  /** The stage a status is counted under. */
  function StageOf(status: Option<Status>): Stage {
    match status
    case None => PendingStage
    case Some(NotStarted) => PendingStage
    case Some(Started) => Provisioning
    case Some(Provisioned) => Provisioning
    case Some(FeeInvoiceCreated) => Fees
    case Some(FeeSending) => Fees
    case Some(FeeReimbursed) => Fees
    case Some(PointerFlipped) => Finalizing
    case Some(LegacyZeroVerified) => Finalizing
    case Some(Complete) => CompleteStage
    case Some(Skipped) => SkippedStage
    case Some(Failed) => Attention
    case Some(RequiresReview) => Attention
    case Some(RollbackStarted) => RollingBack
    case Some(RolledBack) => RolledBackStage
    case Some(_) => Moving
  }

  /** The table lists every status, and lists it once. */
  lemma {:induction false} StagesPartition(status: Option<Status>, stage: Stage)
    ensures InStage(stage, status) <==> stage == StageOf(status)
  {}

  /** The stages in flight follow the order of the steps; done is who the guard sends to
      USDT, attention who it turns away as failed. */
  lemma {:induction false} StagesFollowSteps(status: Status)
    ensures var stage, rank := StageOf(Some(status)), ForwardRuns.Rank(status);
            && (stage == PendingStage <==> rank == 0)
            && (stage == Provisioning <==> 1 <= rank <= 2)
            && (stage == Moving <==> 3 <= rank <= 7)
            && (stage == Fees <==> 8 <= rank <= 10)
            && (stage == Finalizing <==> 11 <= rank <= 12)
            && (stage == CompleteStage || stage == SkippedStage <==> Guard(InProgress, Some(status)) == Ok(Usdt))
            && (stage == Attention <==> Guard(InProgress, Some(status)) == Err(MigrationFailed))
            && (stage == RolledBackStage <==> Guard(CutoverDone, Some(status)) == Ok(LegacyUsd))
            && (stage == CompleteStage <==> Rollbackable(status) && Guard(InProgress, Some(status)) == Ok(Usdt))
  {}

  datatype Summary = Summary(
    total: nat,
    eligible: nat,
    counts: map<Stage, nat>,
    inFlight: nat,
    done: nat,
    percent: nat,
    missingUsdt: nat,
    state: CutoverState)

  function CountIn(statuses: seq<Option<Status>>, stage: Stage): nat {
    if statuses == [] then 0
    else CountIn(statuses[..|statuses| - 1], stage) + if InStage(stage, statuses[|statuses| - 1]) then 1 else 0
  }

  function CountNone(statuses: seq<Option<Status>>): nat {
    if statuses == [] then 0
    else CountNone(statuses[..|statuses| - 1]) + if statuses[|statuses| - 1] == None then 1 else 0
  }

  function InFlight(statuses: seq<Option<Status>>): nat {
    CountIn(statuses, Provisioning) + CountIn(statuses, Moving) + CountIn(statuses, Fees) + CountIn(statuses, Finalizing)
  }

  function Done(statuses: seq<Option<Status>>): nat { CountIn(statuses, CompleteStage) + CountIn(statuses, SkippedStage) }

  function Eligible(statuses: seq<Option<Status>>, state: CutoverState): int {
    if state == Pre then |statuses| else |statuses| - CountNone(statuses)
  }

  function CountRecords(statuses: seq<Option<Status>>): nat {
    if statuses == [] then 0
    else CountRecords(statuses[..|statuses| - 1]) + if statuses[|statuses| - 1].Some? then 1 else 0
  }

  /** Before the cutover all accounts count, afterwards those with a record. */
  lemma {:induction false} EligibleIsPlanned(statuses: seq<Option<Status>>, state: CutoverState)
    ensures Eligible(statuses, state) == if state == Pre then |statuses| else CountRecords(statuses)
    decreases |statuses|
  {
    if statuses != [] { EligibleIsPlanned(statuses[..|statuses| - 1], state); }
  }

  /** Every account is in one stage. Accounts without a record are pending, so they can
      be left out of the denominator without losing any that are done. */
  lemma {:induction false} StagesAddUp(statuses: seq<Option<Status>>)
    ensures CountIn(statuses, PendingStage) + InFlight(statuses) + Done(statuses) + CountIn(statuses, Attention)
            + CountIn(statuses, RollingBack) + CountIn(statuses, RolledBackStage) == |statuses|
    ensures CountNone(statuses) <= CountIn(statuses, PendingStage)
    decreases |statuses|
  {
    if statuses != [] {
      StagesAddUp(statuses[..|statuses| - 1]);
      CountStep(statuses, PendingStage);
      CountStep(statuses, Provisioning);
      CountStep(statuses, Moving);
      CountStep(statuses, Fees);
      CountStep(statuses, Finalizing);
      CountStep(statuses, CompleteStage);
      CountStep(statuses, SkippedStage);
      CountStep(statuses, Attention);
      CountStep(statuses, RollingBack);
      CountStep(statuses, RolledBackStage);
    }
  }

  lemma {:induction false} CountStep(statuses: seq<Option<Status>>, stage: Stage)
    requires statuses != []
    ensures var last := statuses[|statuses| - 1];
            CountIn(statuses, stage) == CountIn(statuses[..|statuses| - 1], stage) + if stage == StageOf(last) then 1 else 0
  {
    StagesPartition(statuses[|statuses| - 1], stage);
  }

  lemma {:induction false} DoneWithinEligible(statuses: seq<Option<Status>>, state: CutoverState)
    ensures Done(statuses) <= Eligible(statuses, state)
  {
    StagesAddUp(statuses);
  }

  function Percent(done: nat, eligible: nat): nat { if eligible > 0 then done * 100 / eligible else 0 }

  /** The percentage is the floor: it reaches 100 only when all eligible are done. */
  lemma {:induction false} PercentIsFloor(done: nat, eligible: nat)
    requires done <= eligible
    ensures Percent(done, eligible) <= 100
    ensures Percent(done, eligible) == 100 <==> done == eligible > 0
    ensures eligible > 0 ==>
              Percent(done, eligible) * eligible <= done * 100 < (Percent(done, eligible) + 1) * eligible
  {
    if eligible > 0 {
      var p := done * 100 / eligible;
      DivBounds(done * 100, eligible);
      MulLe(101, p, eligible);
      MulAdd(p, 1, eligible);
      if done == eligible { QuotientIs(done * 100, eligible, 100); }
      if p == 100 { assert p * eligible == 100 * eligible; }
    }
  }

  const NO_COUNTS: map<Stage, nat> :=
    map[PendingStage := 0, Provisioning := 0, Moving := 0, Fees := 0, Finalizing := 0, CompleteStage := 0,
        SkippedStage := 0, Attention := 0, RollingBack := 0, RolledBackStage := 0]

  lemma {:induction false} NothingCounted(stage: Stage)
    ensures stage in NO_COUNTS && NO_COUNTS[stage] == 0
  {
    match stage
    case PendingStage =>
    case Provisioning =>
    case Moving =>
    case Fees =>
    case Finalizing =>
    case CompleteStage =>
    case SkippedStage =>
    case Attention =>
    case RollingBack =>
    case RolledBackStage =>
  }

  /** summarizeCashWalletCutoverStages */
  method Summarize(statuses: seq<Option<Status>>, state: CutoverState, missingUsdt: nat) returns (s: Summary)
    ensures forall stage :: stage in s.counts && s.counts[stage] == CountIn(statuses, stage)
    ensures s.total == |statuses| && s.eligible == Eligible(statuses, state)
    ensures s.inFlight == InFlight(statuses) && s.done == Done(statuses) <= s.eligible
    ensures s.percent == Percent(s.done, s.eligible) <= 100
    ensures s.missingUsdt == missingUsdt && s.state == state
  {
    var counts, none := NO_COUNTS, 0;
    forall stage: Stage ensures stage in counts && counts[stage] == 0 { NothingCounted(stage); }
    for i := 0 to |statuses|
      invariant forall stage :: stage in counts && counts[stage] == CountIn(statuses[..i], stage)
      invariant none == CountNone(statuses[..i])
    {
      assert statuses[..i + 1][..i] == statuses[..i];
      var stage := StageOf(statuses[i]);
      if statuses[i] == None { none := none + 1; }
      counts := counts[stage := counts[stage] + 1];
      forall other ensures other in counts && counts[other] == CountIn(statuses[..i + 1], other) {
        StagesPartition(statuses[i], other);
      }
    }
    assert statuses[..|statuses|] == statuses;
    DoneWithinEligible(statuses, state);
    var inFlight := counts[Provisioning] + counts[Moving] + counts[Fees] + counts[Finalizing];
    var done := counts[CompleteStage] + counts[SkippedStage];
    var eligible: nat := if state == Pre then |statuses| else |statuses| - none;
    PercentIsFloor(done, eligible);
    s := Summary(|statuses|, eligible, counts, inFlight, done,
                 if eligible > 0 then done * 100 / eligible else 0, missingUsdt, state);
  }

  // ---------------------------------------------------------------------------
  // Milestones

  datatype Milestone =
    | RunStarted | MarkedComplete | MarkedRolledBack | StateChanged
    | EveryoneProvisioned | BatchRunning | FirstMigrated | Reached(percent: nat) | AllMigrated
    | NeedAttention(more: nat) | AttentionCleared | RollbackRunning | RollbackDrained

  predicate IsThreshold(t: nat) { t == 25 || t == 50 || t == 75 }

  predicate Crosses(before: nat, after: nat, t: nat) { before < t <= after }

  function Count(s: Summary, stage: Stage): nat { if stage in s.counts then s.counts[stage] else 0 }

  predicate FullyDone(s: Summary) { s.eligible > 0 && s.done == s.eligible && Count(s, Attention) == 0 }

  /** The milestones other than the percentages, in their two groups. */
  method StateMilestones(was: Summary, now: Summary) returns (ms: seq<Milestone>)
    ensures AllMigrated !in ms && forall t :: Reached(t) !in ms
    ensures FirstMigrated in ms <==> Count(was, CompleteStage) == 0 < Count(now, CompleteStage)
    ensures MarkedRolledBack in ms <==> was.state != now.state == CutoverRolledBack
    ensures MarkedComplete in ms <==> was.state != now.state == CutoverDone
    ensures BatchRunning in ms <==> was.inFlight == 0 < now.inFlight
    ensures RunStarted in ms <==> was.state != now.state == InProgress
    ensures StateChanged in ms <==> was.state != now.state == Pre
    ensures EveryoneProvisioned in ms <==> was.missingUsdt > 0 == now.missingUsdt
  {
    ms := [];
    if was.state != now.state {
      if now.state == InProgress {
        ms := ms + [RunStarted];
      } else if now.state == CutoverDone {
        ms := ms + [MarkedComplete];
      } else if now.state == CutoverRolledBack {
        ms := ms + [MarkedRolledBack];
      } else {
        ms := ms + [StateChanged];
      }
    }
    if was.missingUsdt > 0 && now.missingUsdt == 0 { ms := ms + [EveryoneProvisioned]; }
    if was.inFlight == 0 && now.inFlight > 0 { ms := ms + [BatchRunning]; }
    if Count(was, CompleteStage) == 0 && Count(now, CompleteStage) > 0 { ms := ms + [FirstMigrated]; }
  }

  method TroubleMilestones(was: Summary, now: Summary) returns (ms: seq<Milestone>)
    ensures AllMigrated !in ms && forall t :: Reached(t) !in ms
    ensures forall n :: NeedAttention(n) in ms <==> n > 0 && Count(now, Attention) == Count(was, Attention) + n
    ensures AttentionCleared in ms <==> Count(was, Attention) > 0 == Count(now, Attention)
    ensures RollbackRunning in ms <==> Count(was, RollingBack) == 0 < Count(now, RollingBack)
    ensures RollbackDrained in ms <==> Count(was, RollingBack) > 0 == Count(now, RollingBack)
                                        && Count(now, RolledBackStage) > Count(was, RolledBackStage)
  {
    ms := [];
    if Count(now, Attention) > Count(was, Attention) {
      ms := ms + [NeedAttention(Count(now, Attention) - Count(was, Attention))];
    }
    if Count(was, Attention) > 0 && Count(now, Attention) == 0 { ms := ms + [AttentionCleared]; }
    if Count(was, RollingBack) == 0 && Count(now, RollingBack) > 0 { ms := ms + [RollbackRunning]; }
    if Count(was, RollingBack) > 0 && Count(now, RollingBack) == 0
       && Count(now, RolledBackStage) > Count(was, RolledBackStage) { ms := ms + [RollbackDrained]; }
  }

  /** deriveCashWalletCutoverMilestones: nothing for the first snapshot; afterwards a
      threshold once for each upward crossing. */
  method DeriveMilestones(previous: Option<Summary>, now: Summary) returns (ms: seq<Milestone>)
    ensures previous == None ==> ms == []
    ensures previous.Some? ==> forall t ::
              multiset(ms)[Reached(t)]
              == if IsThreshold(t) && Crosses(previous.value.percent, now.percent, t) then 1 else 0
    ensures previous.Some? ==> (AllMigrated in ms <==> FullyDone(now) && !FullyDone(previous.value))
  {
    ms := [];
    if previous == None { return; }
    var was := previous.value;
    var first := StateMilestones(was, now);
    var reached: seq<Milestone> := [];
    var thresholds: seq<nat> := [25, 50, 75];
    for i := 0 to 3
      invariant AllMigrated !in reached
      invariant forall t :: multiset(reached)[Reached(t)]
                            == if t in thresholds[..i] && Crosses(was.percent, now.percent, t) then 1 else 0
    {
      if was.percent < thresholds[i] && now.percent >= thresholds[i] { reached := reached + [Reached(thresholds[i])]; }
    }
    var all := if FullyDone(now) && !FullyDone(was) then [AllMigrated] else [];
    var last := TroubleMilestones(was, now);
    ms := first + reached + all + last;
    assert thresholds[..3] == thresholds;
    assert multiset(ms) == multiset(first) + multiset(reached) + multiset(all) + multiset(last);
    forall t ensures multiset(first)[Reached(t)] == multiset(all)[Reached(t)] == multiset(last)[Reached(t)] == 0 {
      assert Reached(t) !in first && Reached(t) !in all && Reached(t) !in last;
    }
  }

  // ---------------------------------------------------------------------------
  // Over a whole run of snapshots

  /** How often a threshold is announced over the percentages p. */
  function TimesAnnounced(p: seq<nat>, t: nat): nat {
    if |p| < 2 then 0
    else TimesAnnounced(p[..|p| - 1], t) + if Crosses(p[|p| - 2], p[|p| - 1], t) then 1 else 0
  }

  predicate NonDecreasing(p: seq<nat>) { forall i, j :: 0 <= i <= j < |p| ==> p[i] <= p[j] }

  /** While progress does not fall, each threshold above the first reading and within
      the last is announced exactly once, any other never. */
  lemma {:induction false} AnnouncedExactlyOnce(p: seq<nat>, t: nat)
    requires p != [] && NonDecreasing(p)
    ensures TimesAnnounced(p, t) == if Crosses(p[0], p[|p| - 1], t) then 1 else 0
    decreases |p|
  {
    if |p| > 1 {
      AnnouncedExactlyOnce(p[..|p| - 1], t);
      assert p[0] <= p[|p| - 2] <= p[|p| - 1];
    }
  }

  function Drops(p: seq<nat>, t: nat): nat {
    if |p| < 2 then 0 else Drops(p[..|p| - 1], t) + if p[|p| - 2] >= t > p[|p| - 1] then 1 else 0
  }

  /** In general, repeats are exactly the times progress fell back below the threshold. */
  lemma {:induction false} RepeatsAreDrops(p: seq<nat>, t: nat)
    requires p != []
    ensures TimesAnnounced(p, t) + (if p[0] >= t then 1 else 0) == Drops(p, t) + if p[|p| - 1] >= t then 1 else 0
    decreases |p|
  {
    if |p| > 1 { RepeatsAreDrops(p[..|p| - 1], t); }
  }

  /** What the dashboard is shown at one time. */
  datatype Snapshot = Snapshot(statuses: seq<Option<Status>>, state: CutoverState, missingUsdt: nat)

  function PercentOf(s: Snapshot): nat {
    DoneWithinEligible(s.statuses, s.state);
    Percent(Done(s.statuses), Eligible(s.statuses, s.state))
  }

  function Percents(ss: seq<Snapshot>): (p: seq<nat>)
    ensures |p| == |ss| && forall i :: 0 <= i < |ss| ==> p[i] == PercentOf(ss[i])
  {
    seq(|ss|, i requires 0 <= i < |ss| => PercentOf(ss[i]))
  }

  // ---------------------------------------------------------------------------
  // The observer

  const MILESTONE_LIMIT: nat := 300

  class Observer {
    var milestones: seq<Milestone>
    var last: Option<Summary>

    constructor (online: Milestone)
      ensures milestones == [online] && last == None
    {
      milestones, last := [online], None;
    }

    /** observeStageProgress: derive against the last summary, keep the newest 300. */
    method Observe(statuses: seq<Option<Status>>, state: CutoverState, missingUsdt: nat) returns (added: seq<Milestone>)
      requires |milestones| <= MILESTONE_LIMIT
      modifies this
      ensures var all := old(milestones) + added;
              |milestones| == (if |all| <= 300 then |all| else 300) && milestones == all[|all| - |milestones|..]
      ensures last.Some? && last.value.percent == PercentOf(Snapshot(statuses, state, missingUsdt))
      ensures old(last).Some? ==> forall t ::
                multiset(added)[Reached(t)]
                == if IsThreshold(t) && Crosses(old(last).value.percent, last.value.percent, t) then 1 else 0
      ensures old(last) == None ==> added == []
    {
      var current := Summarize(statuses, state, missingUsdt);
      added := DeriveMilestones(last, current);
      milestones := milestones + added;
      if |milestones| > MILESTONE_LIMIT { milestones := milestones[|milestones| - MILESTONE_LIMIT..]; }
      last := Some(current);
    }

    /** A new observer over a run of snapshots: each threshold is announced as often as
        progress crosses it upwards. While progress does not fall that is exactly once
        for a threshold above the first reading and within the last, otherwise never. */
    method ObserveAll(snapshots: seq<Snapshot>) returns (announced: seq<Milestone>)
      requires last == None && |milestones| <= MILESTONE_LIMIT
      modifies this
      ensures forall t :: IsThreshold(t) ==> multiset(announced)[Reached(t)] == TimesAnnounced(Percents(snapshots), t)
      ensures snapshots != [] && NonDecreasing(Percents(snapshots)) ==> forall t :: IsThreshold(t) ==>
                multiset(announced)[Reached(t)]
                == if Crosses(PercentOf(snapshots[0]), PercentOf(snapshots[|snapshots| - 1]), t) then 1 else 0
      ensures |milestones| <= MILESTONE_LIMIT
    {
      announced := [];
      ghost var p := Percents(snapshots);
      for i := 0 to |snapshots|
        invariant |milestones| <= MILESTONE_LIMIT && (i == 0 <==> last == None)
        invariant i > 0 ==> last.value.percent == p[i - 1]
        invariant forall t :: IsThreshold(t) ==> multiset(announced)[Reached(t)] == TimesAnnounced(p[..i], t)
      {
        var s := snapshots[i];
        var added := Observe(s.statuses, s.state, s.missingUsdt);
        assert s == Snapshot(s.statuses, s.state, s.missingUsdt);
        assert p[..i + 1][..i] == p[..i];
        announced := announced + added;
      }
      assert p[..|snapshots|] == p;
      if snapshots != [] && NonDecreasing(p) {
        forall t | IsThreshold(t) ensures TimesAnnounced(p, t) == if Crosses(p[0], p[|p| - 1], t) then 1 else 0 {
          AnnouncedExactlyOnce(p, t);
        }
      }
    }
  }
}
