/** Which wallet an account is routed to (guard.ts), and the completion of a
    run-level rollback that changes the answer for everyone (rollback.ts). */
module Routing {
  import opened Common
  import opened Migrations

  datatype CutoverState = Pre | InProgress | CutoverDone | CutoverRolledBack

  datatype Route = LegacyUsd | Usdt

  datatype GuardError = CutoverInProgress | MigrationFailed

  datatype Presentation = ShowLegacyUsd | ShowLegacyUsdCompat | ShowUsdt

  /** ACTIVE_STATUSES, listed as in the source. */
  predicate Active(s: Status) {
    || s.Started? || s.Provisioned? || s.BalanceRead? || s.InvoiceCreated? || s.BalanceMoveSending?
    || s.BalanceMoveSent? || s.BalanceMoveVerified? || s.FeeInvoiceCreated? || s.FeeSending?
    || s.FeeReimbursed? || s.PointerFlipped? || s.RollbackStarted?
  }

  /** evaluateCashWalletCutoverGuard, on the status of the account's own migration. */
  function Guard(cutover: CutoverState, status: Option<Status>): Result<Route, GuardError> {
    match cutover
    case Pre => Ok(LegacyUsd)
    case CutoverDone =>
      if status == Some(RollbackStarted) then Err(CutoverInProgress)
      else if status == Some(RolledBack) then Ok(LegacyUsd)
      else Ok(Usdt)
    case CutoverRolledBack =>
      if status == None || status == Some(NotStarted) || status == Some(RolledBack) then Ok(LegacyUsd)
      else if status == Some(Skipped) then Ok(Usdt)
      else if status == Some(RollbackStarted) then Err(CutoverInProgress)
      else Err(MigrationFailed)
    case InProgress =>
      if status == None || status == Some(NotStarted) then Ok(LegacyUsd)
      else if status == Some(Complete) || status == Some(Skipped) then Ok(Usdt)
      else if status == Some(Failed) || status == Some(RequiresReview) then Err(MigrationFailed)
      else if Active(status.value) then Err(CutoverInProgress)
      else Ok(LegacyUsd)
  }

  /** evaluateCashWalletCutoverPresentation */
  function Present(cutover: CutoverState, status: Option<Status>, supportsUsdt: bool): Result<Presentation, GuardError> {
    match Guard(cutover, status)
    case Err(e) => Err(e)
    case Ok(LegacyUsd) => Ok(ShowLegacyUsd)
    case Ok(Usdt) => Ok(if supportsUsdt then ShowUsdt else ShowLegacyUsdCompat)
  }

  /** The statuses of an account that was never touched, or is back. */
  predicate OnLegacy(status: Option<Status>) {
    status == None || status == Some(NotStarted) || status == Some(RolledBack)
  }

  /** Who is given which wallet, and who has to wait, in every state of the cutover. Before
      it all accounts stay; a rolled-back account is on the legacy wallet in every state;
      after it only a rollback under way holds an account up; once rolled back only
      skipped accounts keep USDT. */
  lemma {:induction false} RouteByState(status: Option<Status>)
    ensures Guard(Pre, status) == Ok(LegacyUsd)
    ensures forall cutover :: Guard(cutover, Some(RolledBack)) == Ok(LegacyUsd)
    ensures forall cutover :: Guard(cutover, status) == Err(CutoverInProgress) && cutover != InProgress ==> status == Some(RollbackStarted)
    ensures Guard(CutoverDone, status) == Ok(Usdt) <==> status != Some(RollbackStarted) && status != Some(RolledBack)
    ensures Guard(CutoverDone, status) == Err(CutoverInProgress) <==> status == Some(RollbackStarted)
    ensures Guard(CutoverRolledBack, status) == Ok(LegacyUsd) <==> OnLegacy(status)
    ensures Guard(CutoverRolledBack, status) == Ok(Usdt) <==> status == Some(Skipped)
    ensures Guard(CutoverRolledBack, status) == Err(CutoverInProgress) <==> status == Some(RollbackStarted)
    ensures Guard(InProgress, status) == Ok(LegacyUsd) <==> OnLegacy(status) || status == Some(LegacyZeroVerified)
    ensures Guard(InProgress, status) == Ok(Usdt) <==> status == Some(Complete) || status == Some(Skipped)
    ensures Guard(InProgress, status) == Err(MigrationFailed) <==> status == Some(Failed) || status == Some(RequiresReview)
  {}

  // ---------------------------------------------------------------------------
  // While the cutover is in progress

  /** The route misses the money: a recorded forward payment that was not rolled back,
      and yet the legacy wallet. */
  predicate Misrouted(m: Migration) {
    Guard(InProgress, Some(m.status)) == Ok(LegacyUsd) && m.moveTx.Some? && m.status != RolledBack
  }

  /** In every reachable state the guard gives USDT exactly to complete and skipped
      records, and gives the legacy wallet to a paid record that is not rolled back
      exactly at LegacyZeroVerified, the status missing from the active ones. */
  lemma {:induction false} RoutingAgreesWithRecord(m: Migration, es: seq<Event>)
    requires Fresh(m) && IssuedRun(m, es)
    ensures var n := Replay(m, es);
            && (Guard(InProgress, Some(n.status)) == Ok(Usdt) <==> n.status == Complete || n.status == Skipped)
            && (Misrouted(n) <==> n.status == LegacyZeroVerified && n.moveTx.Some?)
  {
    FreshIsConsistent(m);
    PaymentsAreWriteOnce(m, es);
  }

  lemma {:induction false} IssuedPrefix(m: Migration, a: seq<Event>, b: seq<Event>)
    requires IssuedRun(m, a + b)
    ensures IssuedRun(m, a) && IssuedRun(Replay(m, a), b)
    decreases |a|
  {
    if a == [] {
      assert a + b == b;
    } else {
      assert (a + b)[1..] == a[1..] + b;
      IssuedPrefix(Apply(m, a[0]), a[1..], b);
    }
  }

  /** The last event of a run, split off. */
  lemma {:induction false} RunLast(m: Migration, es: seq<Event>)
    requires es != [] && IssuedRun(m, es)
    ensures var n := |es| - 1;
            && IssuedRun(m, es[..n]) && Issued(Replay(m, es[..n]), es[n])
            && Replay(m, es) == Apply(Replay(m, es[..n]), es[n])
  {
    var n := |es| - 1;
    assert es == es[..n] + [es[n]];
    IssuedPrefix(m, es[..n], [es[n]]);
    ReplayConcat(m, es[..n], [es[n]]);
  }

  lemma {:induction false} CompletingEvent(m: Migration, e: Event)
    requires Issued(m, e) && Apply(m, e).status == Complete
    ensures Apply(m, e).moveTx == m.moveTx
    ensures m.status != Complete ==> m.status == LegacyZeroVerified
  {
    match e
    case Transition(_, _, _) =>
    case Acquire(_, _) =>
    case Release(_) =>
    case MarkFailed(_, _) =>
  }

  /** The gap is not a corner case: every run that completes passes through it, with
      the forward payment it completes with. */
  lemma {:induction false} EveryCompletionPassesTheGap(m: Migration, es: seq<Event>) returns (i: nat)
    requires m.status != Complete && IssuedRun(m, es) && Replay(m, es).status == Complete
    ensures i < |es|
    ensures var n := Replay(m, es[..i]); n.status == LegacyZeroVerified && n.moveTx == Replay(m, es).moveTx
    ensures Replay(m, es).moveTx.Some? ==> Misrouted(Replay(m, es[..i]))
    decreases |es|
  {
    var last := |es| - 1;
    RunLast(m, es);
    var n := Replay(m, es[..last]);
    CompletingEvent(n, es[last]);
    if n.status == Complete {
      i := EveryCompletionPassesTheGap(m, es[..last]);
      assert es[..last][..i] == es[..i];
    } else {
      i := last;
    }
  }

  // ---------------------------------------------------------------------------
  // Run-level rollback completion

  predicate Resolved(s: Status) { s == RolledBack || s == Skipped }

  type AccountId = string

  datatype Config = Config(state: CutoverState, version: nat, runId: string)

  datatype CompletionError = ReadFailed | OtherRun | StillUnresolved | ConfigWriteFailed

  /** The statuses the completion query asks for. */
  predicate Unresolved(s: Status) {
    || s.NotStarted? || s.Started? || s.Provisioned? || s.BalanceRead? || s.InvoiceCreated?
    || s.BalanceMoveSending? || s.BalanceMoveSent? || s.BalanceMoveVerified? || s.FeeInvoiceCreated?
    || s.FeeSending? || s.FeeReimbursed? || s.PointerFlipped? || s.LegacyZeroVerified? || s.Complete?
    || s.Failed? || s.RequiresReview? || s.RollbackStarted?
  }

  predicate AllResolved(migrations: map<AccountId, Migration>) {
    forall a :: a in migrations ==> Resolved(migrations[a].status)
  }

  function StatusOf(migrations: map<AccountId, Migration>, a: AccountId): Option<Status> {
    if a in migrations then Some(migrations[a].status) else None
  }

  /** What callers rely on once the run is rolled back: nobody gets an error, skipped
      accounts stay on USDT, everyone else is on the legacy wallet. */
  ghost predicate RoutesEveryone(migrations: map<AccountId, Migration>) {
    forall a ::
      Guard(CutoverRolledBack, StatusOf(migrations, a))
      == Ok(if StatusOf(migrations, a) == Some(Skipped) then Usdt else LegacyUsd)
  }

  /** When completion succeeds. */
  predicate Completes(c: Config, migrations: map<AccountId, Migration>, version: nat, runId: string,
                      readConfig: bool, readRecords: bool, written: bool) {
    && readConfig
    && (c.state == CutoverRolledBack
        || (c.version == version && c.runId == runId && readRecords && AllResolved(migrations) && written))
  }

  class CutoverRun {
    var config: Config
    var migrations: map<AccountId, Migration>

    constructor (c: Config, ms: map<AccountId, Migration>)
      ensures config == c && migrations == ms
    {
      config, migrations := c, ms;
    }

    /** completePrimaryCashWalletRollback. A configuration that is rolled back already
        is returned as it is, unchecked. */
    method CompleteRollback(version: nat, runId: string, readConfig: bool, readRecords: bool, written: bool)
      returns (r: Result<Config, CompletionError>)
      modifies this`config
      ensures r.Ok? ==> r.value == config && config.state == CutoverRolledBack
      ensures r.Ok? && old(config).state != CutoverRolledBack ==>
                && AllResolved(migrations) && RoutesEveryone(migrations)
                && old(config).version == version && old(config).runId == runId
                && config == old(config).(state := CutoverRolledBack)
      ensures r.Err? ==> config == old(config)
      ensures r.Ok? <==> Completes(old(config), migrations, version, runId, readConfig, readRecords, written)
    {
      if !readConfig { return Err(ReadFailed); }
      if config.state == CutoverRolledBack { return Ok(config); }
      if config.runId != runId || config.version != version { return Err(OtherRun); }
      if !readRecords { return Err(ReadFailed); }
      if exists a :: a in migrations && Unresolved(migrations[a].status) { return Err(StillUnresolved); }
      if !written { return Err(ConfigWriteFailed); }
      config := Config(CutoverRolledBack, version, runId);
      r := Ok(config);
    }
  }

  // ---------------------------------------------------------------------------
  // Can a later event change that?

  predicate MarkLands(m: Migration, e: Event) { e.MarkFailed? && Matches(m, e) }

  predicate NoMarkLands(m: Migration, es: seq<Event>)
    decreases |es|
  {
    es == [] || (!MarkLands(m, es[0]) && NoMarkLands(Apply(m, es[0]), es[1..]))
  }

  lemma {:induction false} ResolvedStep(m: Migration, e: Event)
    requires Resolved(m.status) && Issued(m, e)
    ensures if MarkLands(m, e) then Guard(CutoverRolledBack, Some(Apply(m, e).status)).Err?
            else Apply(m, e).status == m.status
  {
    match e
    case Transition(_, _, _) =>
    case Acquire(_, _) =>
    case Release(_) =>
    case MarkFailed(_, _) =>
  }

  /** The guard answers the same for this record throughout the run. */
  ghost predicate StaysRouted(m: Migration, es: seq<Event>) {
    forall i :: 0 <= i <= |es| ==>
      Guard(CutoverRolledBack, Some(Replay(m, es[..i]).status)) == Guard(CutoverRolledBack, Some(m.status))
  }

  /** A resolved record keeps its route through a run exactly if no failure mark lands
      on it. Marks are guarded by the lock alone, not by the status. */
  lemma {:induction false} RouteIsFinalIff(m: Migration, es: seq<Event>)
    requires Resolved(m.status) && IssuedRun(m, es)
    ensures StaysRouted(m, es) <==> NoMarkLands(m, es)
    decreases |es|
  {
    if es == [] {
    } else {
      var n := Apply(m, es[0]);
      ResolvedStep(m, es[0]);
      assert Replay(m, es[..1]) == n by { assert es[..1][1..] == []; }
      if !MarkLands(m, es[0]) {
        RouteIsFinalIff(n, es[1..]);
        TailRouted(m, es);
      }
    }
  }

  lemma {:induction false} TailRouted(m: Migration, es: seq<Event>)
    requires es != [] && Apply(m, es[0]).status == m.status
    ensures StaysRouted(m, es) <==> StaysRouted(Apply(m, es[0]), es[1..])
  {
    var n, tail := Apply(m, es[0]), es[1..];
    forall i | 0 <= i <= |tail|
      ensures Replay(n, tail[..i]) == Replay(m, es[..i + 1])
    {
      assert es[..i + 1][1..] == tail[..i];
    }
    if StaysRouted(n, tail) {
      forall i | 0 <= i <= |es|
        ensures Guard(CutoverRolledBack, Some(Replay(m, es[..i]).status)) == Guard(CutoverRolledBack, Some(m.status))
      {
        if i > 0 { assert Replay(n, tail[..i - 1]) == Replay(m, es[..i]); }
      }
    }
  }

  /** Such a mark is possible: a worker that listed the record while its rollback ran
      may lock it after it finished, fail on its status and mark it. */
  lemma {:induction false} MarkedAfterCompletion(m: Migration, worker: WorkerId)
    requires m.status == RolledBack && m.lockedBy == None
    ensures var es := [Acquire(worker, false), MarkFailed(worker, RequiresReview)];
            && IssuedRun(m, es)
            && Guard(CutoverRolledBack, Some(Replay(m, es).status)) == Err(MigrationFailed)
  {
    var es := [Acquire(worker, false), MarkFailed(worker, RequiresReview)];
    RunCons(Apply(m, es[0]), es[1], []);
    RunCons(m, es[0], [es[1]]);
  }
}
