/** The loops over many migrations: the locked batch runner (runner.ts), the retry
    of failed records (retry-failed.ts) and the rollback request (rollback.ts). */
module Batches {
  import opened Common
  import opened Migrations
  import opened Sagas
  import opened Forward
  import opened Rollback
  import opened RollbackRuns

  type MigrationId = string

  type Records = map<MigrationId, Migration>

  // ---------------------------------------------------------------------------
  // Failures

  /** failureStatusForMigration */
  function FailureStatus(s: Status): Status {
    if s.InvoiceCreated? || s.BalanceMoveSending? || s.BalanceMoveSent? || s.BalanceMoveVerified?
       || s.FeeInvoiceCreated? || s.FeeSending? || s.FeeReimbursed? || s.PointerFlipped?
    then RequiresReview else Failed
  }

  /** The retry's premise is that a failed record never paid. Of the records a forward
      runner steps, exactly the paid ones at LegacyZeroVerified break it. */
  lemma {:induction false} FailedMeansUnpaidIff(m: Migration)
    requires Consistent(m) && !Terminal(m.status)
    ensures FailureStatus(m.status) == Failed && !NothingPaid(m) <==> m.status == LegacyZeroVerified && m.moveTx.Some?
  {}

  /** No step from that status pays, or leaves a payment on record. */
  ghost predicate NeverPaid(status: Status) {
    forall s: State, t, o :: s.rec.status == status && Consistent(s.rec) && ForwardStep(s, t, o) ==>
      NothingPaid(t.rec) && t.payments == s.payments
  }

  /** A consistent record at a status from the invoice on, paid if it can be. */
  function Example(status: Status): Migration {
    var paid, feeDue := status != InvoiceCreated, status == FeeInvoiceCreated || status == FeeSending;
    Migration("legacy", "usdt", None, status, Some(100), Some(1), Some(0), Some(if feeDue then 1 else 0), Some(2500),
              Some(Invoice("", None)), if paid then Some("tx") else None,
              if feeDue then Some(Invoice("", None)) else None, if status == FeeSending then Some("fee") else None,
              NO_ROLLBACK, None)
  }

  const ALL_FINE := Replies(true, true, true, false, None, Works, true, Works, "tx", 0, Works, Works)

  lemma {:induction false} EarlyIsNeverPaid(status: Status)
    requires BeforePayment(status) && status != InvoiceCreated && !Terminal(status)
    ensures NeverPaid(status)
  {
    forall s: State, t, o | s.rec.status == status && Consistent(s.rec) && ForwardStep(s, t, o)
      ensures NothingPaid(t.rec) && t.payments == s.payments
    {}
  }

  lemma {:induction false} LateIsPaid(status: Status)
    requires !Terminal(status) && (!BeforePayment(status) || status == InvoiceCreated)
    ensures !NeverPaid(status)
  {
    var s := State(Example(status), Wallets(UnitsToPico(100), 0, 0, "legacy"), [], None);
    assert Consistent(s.rec);
    if status == InvoiceCreated {
      assert ForwardStep(s, Advanced(s, ALL_FINE), ALL_FINE);
    } else {
      assert ForwardStep(s, s, ALL_FINE);
    }
  }

  /** The runner lets a failure be retried exactly where nothing can have been paid, and
      at LegacyZeroVerified. */
  lemma {:induction false} RetryableIff(status: Status)
    requires !Terminal(status)
    ensures FailureStatus(status) == Failed <==> NeverPaid(status) || status == LegacyZeroVerified
  {
    if BeforePayment(status) && status != InvoiceCreated { EarlyIsNeverPaid(status); } else { LateIsPaid(status); }
  }

  /** A step that may have paid without recording it is never marked for a retry. */
  lemma {:induction false} PayingFailsForReview(s: State, t: State, o: Replies)
    requires ForwardStep(s, t, o) && !Terminal(s.rec.status) && t.payments != s.payments
    ensures FailureStatus(s.rec.status) == RequiresReview
  {}

  // ---------------------------------------------------------------------------
  // The batch runner

  /** Which executor a batch runs: the forward steps, or rollback passes. */
  datatype Executor = ForwardExecutor(forward: Replies) | RollbackExecutor(rollback: RollbackReplies)

  /** One listed migration, with what the environment does when its turn comes. */
  datatype Turn = Turn(stale: bool, reached: bool, executor: Executor, mark: Reply, release: Reply)

  datatype Tally = Tally(attempted: nat, advanced: nat, failed: nat, skipped: nat)

  /** The forward runner sorts failures; the rollback runner sends them all to review. */
  function MarkFor(locked: Status, executor: Executor): Status {
    if executor.RollbackExecutor? then RequiresReview else FailureStatus(locked)
  }

  /** What the executor makes of the locked record and its wallets. */
  predicate Executes(s: State, t: State, x: Executor, r: Outcome) {
    match x
    case ForwardExecutor(o) => if Terminal(s.rec.status) then t == s && r == Ok(s.rec) else StepDone(s, t, o, r)
    case RollbackExecutor(o) => Pass(s, t, o, r)
  }

  function Locked(s: State, turn: Turn, worker: WorkerId): State {
    s.(rec := Apply(s.rec, Acquire(worker, turn.stale)))
  }

  /** The record after the executor, marked or released. */
  function Closed(s: State, locked: Status, turn: Turn, worker: WorkerId, r: Outcome): State {
    var e := if r.Err? then MarkFailed(worker, MarkFor(locked, turn.executor)) else Release(worker);
    var reply := if r.Err? then turn.mark else turn.release;
    if reply == Refuses then s else s.(rec := Apply(s.rec, e))
  }

  lemma {:induction false} TurnIsARun(s: State, t: State, turn: Turn, worker: WorkerId, r: Outcome)
    requires Executes(Locked(s, turn, worker), t, turn.executor, r)
    ensures Leads(s, Closed(t, s.rec.status, turn, worker, r))
  {
    var locked := Locked(s, turn, worker);
    LeadsSelf(s);
    LeadsOn(s, s, locked, Control(Acquire(worker, turn.stale)));
    match turn.executor {
      case ForwardExecutor(o) => LeadsOn(s, locked, t, StepForward(o));
      case RollbackExecutor(o) => LeadsOn(s, locked, t, StepRollback(o, r));
    }
    if r.Err? {
      var mark := MarkFailed(worker, MarkFor(s.rec.status, turn.executor));
      LeadsOn(s, t, t.(rec := Apply(t.rec, mark)), Control(mark));
    } else {
      LeadsOn(s, t, t.(rec := Apply(t.rec, Release(worker))), Control(Release(worker)));
    }
  }

  /** A forward turn that leaves the record retryable has paid nothing. */
  lemma {:induction false} FailedTurnPaidNothing(s: State, t: State, turn: Turn, worker: WorkerId, r: Outcome)
    requires Executes(Locked(s, turn, worker), t, turn.executor, r)
    requires turn.executor.ForwardExecutor? && !Terminal(s.rec.status)
    requires Closed(t, s.rec.status, turn, worker, r).rec.status == Failed
    ensures t.payments == s.payments
  {
    var locked, o := Locked(s, turn, worker), turn.executor.forward;
    StepNeverFails(locked, t, o);
    if t.payments != s.payments { PayingFailsForReview(locked, t, o); }
  }

  lemma {:induction false} StepNeverFails(s: State, t: State, o: Replies)
    requires ForwardStep(s, t, o) && !Terminal(s.rec.status)
    ensures t.rec.status != Failed
  {}

  /** No step or pass touches the lock. */
  lemma {:induction false} ExecutorKeepsLock(s: State, t: State, x: Executor, r: Outcome)
    requires Executes(s, t, x, r)
    ensures t.rec.lockedBy == s.rec.lockedBy
  {
    match x
    case ForwardExecutor(o) => if !Terminal(s.rec.status) { StepKeepsLock(s, t, o); }
    case RollbackExecutor(o) => if s.rec.status == RollbackStarted { PassKeepsLock(s, t, o, r); }
  }

  lemma {:induction false} StepKeepsLock(s: State, t: State, o: Replies)
    requires ForwardStep(s, t, o)
    ensures t.rec.lockedBy == s.rec.lockedBy
  {}

  lemma {:induction false} PassKeepsLock(s: State, t: State, o: RollbackReplies, r: Outcome)
    requires Pass(s, t, o, r) && s.rec.status == RollbackStarted
    ensures t.rec.lockedBy == s.rec.lockedBy
  {
    var p := PointerDone(s);
    if r.Err? && PointerInterrupted(s, t) {
    } else if r.Err? && ReverseInterrupted(p, t, o.reverse) {
      ReverseKeepsLock(p, t, o.reverse);
    } else {
      var q := ReverseDone(p, o.reverse);
      FinishKeepsLock(q, t, o, r);
    }
  }

  lemma {:induction false} ReverseKeepsLock(s: State, t: State, p: PayReplies)
    requires ReverseInterrupted(s, t, p)
    ensures t.rec.lockedBy == s.rec.lockedBy
  {}

  lemma {:induction false} FinishKeepsLock(s: State, t: State, o: RollbackReplies, r: Outcome)
    requires FinishPhase(s, t, o, r)
    ensures t.rec.lockedBy == s.rec.lockedBy
  {
    FinishRecord(s, t, o, r);
  }

  predicate Locks(m: Migration, turn: Turn, worker: WorkerId) {
    turn.reached && Matches(m, Acquire(worker, turn.stale))
  }

  method RunExecutor(saga: Saga, x: Executor) returns (r: Outcome)
    modifies saga
    ensures Executes(old(saga.View()), saga.View(), x, r)
  {
    match x {
      case ForwardExecutor(o) => r := Execute(saga, o);
      case RollbackExecutor(o) => r := ExecuteRollback(saga, o);
    }
  }

  /** One turn: lock, execute, then mark the failure or release the lock. */
  method TakeTurn(saga: Saga, turn: Turn, worker: WorkerId, before: Tally) returns (tally: Tally, stop: bool, ghost r: Outcome)
    modifies saga
    ensures turn.executor.ForwardExecutor? && !Terminal(old(saga.rec).status) && saga.rec.status == Failed ==>
              saga.payments == old(saga.payments)
    ensures Locks(old(saga.rec), turn, worker) && r.Err? && turn.mark != Refuses ==>
              && saga.rec.lockedBy == None
              && saga.rec.status == if turn.executor.RollbackExecutor? then RequiresReview else FailureStatus(old(saga.rec).status)
    ensures Locks(old(saga.rec), turn, worker) && r.Ok? && turn.release != Refuses ==> saga.rec.lockedBy == None
    ensures Leads(old(saga.View()), saga.View())
    ensures !Locks(old(saga.rec), turn, worker) ==>
              && saga.View() == old(saga.View()) && !stop
              && tally == before.(attempted := before.attempted + 1, skipped := before.skipped + 1)
    ensures Locks(old(saga.rec), turn, worker) ==> exists t ::
              && Executes(Locked(old(saga.View()), turn, worker), t, turn.executor, r)
              && saga.View() == Closed(t, old(saga.rec).status, turn, worker, r)
              && (stop <==> r.Err? && turn.mark != Works)
              && tally == (if r.Err? then before.(attempted := before.attempted + 1, failed := before.failed + 1)
                           else before.(attempted := before.attempted + 1, advanced := before.advanced + 1))
  {
    tally, stop, r := before.(attempted := before.attempted + 1), false, Ok(saga.rec);
    ghost var s := saga.View();
    if !turn.reached || !Matches(saga.rec, Acquire(worker, turn.stale)) {
      LeadsSelf(s);
      tally := tally.(skipped := tally.skipped + 1);
      return;
    }
    saga.rec := Apply(saga.rec, Acquire(worker, turn.stale));
    var locked := saga.rec.status;
    var step := RunExecutor(saga, turn.executor);
    ghost var t := saga.View();
    TurnIsARun(s, t, turn, worker, step);
    ExecutorKeepsLock(Locked(s, turn, worker), t, turn.executor, step);
    r := step;
    if step.Err? {
      tally := tally.(failed := tally.failed + 1);
      var mark := MarkFailed(worker, MarkFor(locked, turn.executor));
      stop := turn.mark != Works || !Matches(saga.rec, mark);
      if turn.mark != Refuses { saga.rec := Apply(saga.rec, mark); }
    } else {
      tally := tally.(advanced := tally.advanced + 1);
      if turn.release != Refuses { saga.rec := Apply(saga.rec, Release(worker)); }
    }
    assert saga.View() == Closed(t, locked, turn, worker, step);
    if turn.executor.ForwardExecutor? && !Terminal(locked) && saga.rec.status == Failed {
      FailedTurnPaidNothing(s, t, turn, worker, step);
    }
  }

  predicate Different(sagas: seq<Saga>) { forall i, j :: 0 <= i < j < |sagas| ==> sagas[i] != sagas[j] }

  /** A turn as the batch counts it. */
  method CountTurn(saga: Saga, turn: Turn, worker: WorkerId, before: Tally) returns (tally: Tally, stop: bool)
    modifies saga
    ensures Leads(old(saga.View()), saga.View())
    ensures tally.attempted == before.attempted + 1
    ensures tally.advanced + tally.failed + tally.skipped == before.advanced + before.failed + before.skipped + 1
    ensures before.failed <= tally.failed && (stop ==> before.failed < tally.failed)
  {
    ghost var r;
    tally, stop, r := TakeTurn(saga, turn, worker, before);
  }

  /** runCashWalletMigrationBatch, forwards or backwards. Each listed migration takes at
      most one turn, so the batch extends every migration's run; each turn is counted
      once, and the batch stops only behind a failure whose mark did not land. */
  method RunBatch(sagas: seq<Saga>, turns: seq<Turn>, worker: WorkerId) returns (tally: Tally, stopped: bool)
    requires |turns| == |sagas| && Different(sagas)
    modifies sagas
    ensures forall k :: 0 <= k < |sagas| ==> Leads(old(sagas[k].View()), sagas[k].View())
    ensures forall k :: tally.attempted <= k < |sagas| ==> sagas[k].View() == old(sagas[k].View())
    ensures tally.attempted == tally.advanced + tally.failed + tally.skipped <= |turns|
    ensures !stopped ==> tally.attempted == |turns|
    ensures stopped ==> tally.failed > 0
  {
    tally, stopped := Tally(0, 0, 0, 0), false;
    var i := 0;
    while i < |turns| && !stopped
      invariant 0 <= i <= |turns|
      invariant forall k :: 0 <= k < i ==> Leads(old(sagas[k].View()), sagas[k].View())
      invariant forall k :: i <= k < |sagas| ==> sagas[k].View() == old(sagas[k].View())
      invariant tally.attempted == tally.advanced + tally.failed + tally.skipped == i
      invariant stopped ==> tally.failed > 0
    {
      tally, stopped := CountTurn(sagas[i], turns[i], worker, tally);
      i := i + 1;
    }
    forall k | i <= k < |sagas| ensures Leads(old(sagas[k].View()), sagas[k].View()) {
      LeadsSelf(sagas[k].View());
    }
  }

  // ---------------------------------------------------------------------------
  // Operator requests on the stored records

  class Store {
    var records: Records

    constructor (rs: Records)
      ensures records == rs
    {
      records := rs;
    }

    /** requestCashWalletMigrationRollback: it asks the transition table, which lets a
        record in RollbackStarted through; its caller does not. */
    method RequestOne(c: Candidate) returns (ok: bool)
      modifies this
      ensures records == if c.id in old(records) && CanTransition(c.read.status, RollbackStarted) && c.reply != Refuses
                         then old(records)[c.id := Apply(old(records)[c.id], RequestEvent(c.read.status))]
                         else old(records)
      ensures ok <==> CanTransition(c.read.status, RollbackStarted) && c.id in old(records)
                      && old(records)[c.id].status == c.read.status && c.reply == Works
    {
      if !CanTransition(c.read.status, RollbackStarted) { return false; }
      ok := c.id in records && Matches(records[c.id], RequestEvent(c.read.status)) && c.reply == Works;
      if c.id in records && c.reply != Refuses {
        records := records[c.id := Apply(records[c.id], RequestEvent(c.read.status))];
      }
    }

    /** The body of the request loop. */
    method RequestStep(c: Candidate, dryRun: bool, before: RequestReport) returns (report: RequestReport, ok: bool)
      modifies this
      ensures records == if c.id in old(records) then old(records)[c.id := Requested(old(records)[c.id], c, dryRun)]
                         else old(records)
      ensures ok ==> report == RequestCounted(before, c, dryRun)
      ensures !ok ==> !dryRun && Rollbackable(c.read.status)
    {
      RollbackableIsTabled(c.read.status);
      if !Rollbackable(c.read.status) { return before.(skipped := Skipping(before.skipped, c.read.status)), true; }
      report, ok := before.(eligible := before.eligible + 1, ids := before.ids + [c.id]), true;
      if dryRun { return; }
      ok := RequestOne(c);
      if ok { report := report.(requested := report.requested + 1); }
    }

    /** requestPrimaryCashWalletRollback. It stops at the first request that fails; until
        then every eligible candidate gets its own guarded update and is reported. */
    method RequestRollback(candidates: seq<Candidate>, dryRun: bool) returns (report: RequestReport, done: nat, ok: bool)
      requires DistinctIds(candidates)
      modifies this
      ensures done <= |candidates| && AllRequested(old(records), records, candidates[..done], dryRun)
      ensures AllReach(old(records), records)
      ensures ok ==> done == |candidates| && report == RequestCountAll(candidates, dryRun)
      ensures dryRun ==> ok
    {
      report, done, ok := NO_REQUESTS, 0, true;
      while done < |candidates| && ok
        invariant 0 <= done <= |candidates| && AllRequested(old(records), records, candidates[..done], dryRun)
        invariant ok ==> report == RequestCountAll(candidates[..done], dryRun)
        invariant dryRun ==> ok
      {
        assert candidates[..done + 1][..done] == candidates[..done];
        ghost var was := records;
        report, ok := RequestStep(candidates[done], dryRun, report);
        OneMoreRequested(old(records), was, records, candidates, done, dryRun);
        done := done + 1;
      }
      assert done == |candidates| ==> candidates[..done] == candidates;
      RequestsAreIssued(old(records), records, candidates[..done], dryRun);
    }

    /** The body of the retry loop: the report is corrected when the update lost a race. */
    method RetryOne(c: Candidate, dryRun: bool, before: RetryReport) returns (report: RetryReport)
      modifies this
      ensures records == if c.id in old(records) then old(records)[c.id := Retried(old(records)[c.id], c, dryRun)]
                         else old(records)
      ensures report == Counted(before, old(records), c, dryRun)
    {
      report := before;
      if !NothingPaid(c.read) {
        report := report.(moneyMoved := report.moneyMoved + 1);
        return;
      }
      var start, flip := if c.read.previousDefault.Some? then 0 else 1, if c.read.previousDefault.Some? then 1 else 0;
      report := report.(eligible := report.eligible + 1, ids := report.ids + [c.id],
                        atFlip := report.atFlip + flip, atStart := report.atStart + start);
      if dryRun { return; }
      var update := RetryUpdate(c.read);
      var matched := c.id in records && Matches(records[c.id], update);
      if matched && c.reply != Refuses { records := records[c.id := Apply(records[c.id], update)]; }
      if !matched || c.reply != Works {
        report := report.(eligible := report.eligible - 1, ids := report.ids[..|report.ids| - 1],
                          atFlip := report.atFlip - flip, atStart := report.atStart - start,
                          conflicts := report.conflicts + 1);
        return;
      }
      report := report.(retried := report.retried + 1);
    }

    /** retryFailedCashWalletMigrations, on the candidates as the listing returned them:
        each candidate is reset by its own guarded update, nothing else changes, and
        the report counts every candidate in one of three ways. */
    method RetryFailed(candidates: seq<Candidate>, dryRun: bool) returns (report: RetryReport)
      requires DistinctIds(candidates)
      modifies this
      ensures AllRetried(old(records), records, candidates, dryRun)
      ensures report == CountAll(old(records), candidates, dryRun)
    {
      report := NO_RETRIES;
      var i := 0;
      while i < |candidates|
        invariant 0 <= i <= |candidates| && AllRetried(old(records), records, candidates[..i], dryRun)
        invariant report == CountAll(old(records), candidates[..i], dryRun)
      {
        ghost var was := records;
        report := RetryOne(candidates[i], dryRun, report);
        OneMoreRetried(old(records), was, records, candidates, i, dryRun);
        OneMoreCounted(old(records), was, candidates, i, dryRun);
        i := i + 1;
      }
      assert candidates[..i] == candidates;
    }
  }

  // ---------------------------------------------------------------------------
  // Rollback requests

  datatype RequestReport = RequestReport(eligible: nat, requested: nat, skipped: map<Status, nat>, ids: seq<MigrationId>)

  const NO_REQUESTS := RequestReport(0, 0, map[], [])

  function Skipping(skipped: map<Status, nat>, status: Status): map<Status, nat> {
    skipped[status := CountOf(skipped, status) + 1]
  }

  function CountOf(skipped: map<Status, nat>, status: Status): nat { if status in skipped then skipped[status] else 0 }

  function WithStatus(cs: seq<Candidate>, status: Status): nat {
    if cs == [] then 0
    else WithStatus(cs[..|cs| - 1], status) + if cs[|cs| - 1].read.status == status then 1 else 0
  }

  function RequestEvent(from: Status): Event { Transition(from, RollbackStarted, RollbackRequested(from)) }

  function Requested(m: Migration, c: Candidate, dryRun: bool): Migration {
    if dryRun || !Rollbackable(c.read.status) || c.reply == Refuses then m else Apply(m, RequestEvent(c.read.status))
  }

  function RequestCounted(r: RequestReport, c: Candidate, dryRun: bool): RequestReport {
    if !Rollbackable(c.read.status) then r.(skipped := Skipping(r.skipped, c.read.status))
    else r.(eligible := r.eligible + 1, ids := r.ids + [c.id], requested := r.requested + if dryRun then 0 else 1)
  }

  function RequestCountAll(cs: seq<Candidate>, dryRun: bool): RequestReport {
    if cs == [] then NO_REQUESTS
    else RequestCounted(RequestCountAll(cs[..|cs| - 1], dryRun), cs[|cs| - 1], dryRun)
  }

  /** Skipped candidates are counted under their own status. */
  lemma {:induction false} SkipsByStatus(cs: seq<Candidate>, dryRun: bool, status: Status)
    ensures CountOf(RequestCountAll(cs, dryRun).skipped, status) == if Rollbackable(status) then 0 else WithStatus(cs, status)
    decreases |cs|
  {
    if cs != [] { SkipsByStatus(cs[..|cs| - 1], dryRun, status); }
  }

  lemma {:induction false} StatusesAddUp(cs: seq<Candidate>, dryRun: bool)
    ensures RequestCountAll(cs, dryRun).eligible
            + WithStatus(cs, Skipped) + WithStatus(cs, RollbackStarted) + WithStatus(cs, RolledBack) == |cs|
    decreases |cs|
  {
    if cs != [] { StatusesAddUp(cs[..|cs| - 1], dryRun); }
  }

  /** The report adds up: every candidate is eligible, and listed, or skipped under the
      status that makes it not rollbackable. */
  lemma {:induction false} RequestsAddUp(cs: seq<Candidate>, dryRun: bool)
    ensures var r := RequestCountAll(cs, dryRun);
            && r.eligible + CountOf(r.skipped, Skipped) + CountOf(r.skipped, RollbackStarted)
               + CountOf(r.skipped, RolledBack) == |cs|
            && r.eligible == |r.ids| && r.requested == (if dryRun then 0 else r.eligible)
            && forall id :: id in r.ids <==> exists c :: c in cs && c.id == id && Rollbackable(c.read.status)
    decreases |cs|
  {
    SkipsByStatus(cs, dryRun, Skipped);
    SkipsByStatus(cs, dryRun, RollbackStarted);
    SkipsByStatus(cs, dryRun, RolledBack);
    StatusesAddUp(cs, dryRun);
    if cs != [] {
      var n := |cs| - 1;
      RequestsAddUp(cs[..n], dryRun);
      assert cs == cs[..n] + [cs[n]];
    }
  }

  lemma {:induction false} RequestIsIssued(m: Migration, c: Candidate, dryRun: bool)
    ensures Reaches(m, Requested(m, c, dryRun))
  {
    ReachesSelf(m);
    if Rollbackable(c.read.status) { ReachesStep(m, m, RequestEvent(c.read.status)); }
  }

  ghost predicate AllReach(before: Records, after: Records) {
    before.Keys == after.Keys && forall id :: id in before ==> Reaches(before[id], after[id])
  }

  /** Every candidate got its own guarded update, and nothing else changed. */
  predicate AllRequested(before: Records, after: Records, cs: seq<Candidate>, dryRun: bool) {
    && before.Keys == after.Keys
    && (forall id :: id in after && Unlisted(cs, id) ==> after[id] == before[id])
    && forall c :: c in cs && c.id in after ==> after[c.id] == Requested(before[c.id], c, dryRun)
  }

  lemma {:induction false} OneMoreRequested(before: Records, was: Records, after: Records, cs: seq<Candidate>, n: nat, dryRun: bool)
    requires n < |cs| && DistinctIds(cs) && AllRequested(before, was, cs[..n], dryRun)
    requires after == if cs[n].id in was then was[cs[n].id := Requested(was[cs[n].id], cs[n], dryRun)] else was
    ensures AllRequested(before, after, cs[..n + 1], dryRun)
  {
    assert cs[..n + 1] == cs[..n] + [cs[n]];
    assert Unlisted(cs[..n], cs[n].id);
  }

  /** Requests write only by issued events, on stale reads too. */
  lemma {:induction false} RequestsAreIssued(before: Records, after: Records, cs: seq<Candidate>, dryRun: bool)
    requires AllRequested(before, after, cs, dryRun)
    ensures AllReach(before, after)
  {
    forall id | id in before ensures Reaches(before[id], after[id]) {
      ReachesSelf(before[id]);
      if !Unlisted(cs, id) {
        var c :| c in cs && c.id == id;
        RequestIsIssued(before[id], c, dryRun);
      }
    }
  }

  /** Whatever the reply, a request that acted on the record it read is safe to repeat:
      the record either still waits for it, or is skipped. */
  lemma {:induction false} RequestIsIdempotent(c: Candidate, again: Candidate)
    requires again.read == Requested(c.read, c, false)
    ensures again.read == c.read || Requested(again.read, again, false) == again.read
    ensures Rollbackable(c.read.status) && c.reply != Refuses ==>
              again.read.status == RollbackStarted && again.read.rollback.requestedFrom == Some(c.read.status)
  {}

  // ---------------------------------------------------------------------------
  // Retries

  datatype Candidate = Candidate(id: MigrationId, read: Migration, reply: Reply)

  datatype RetryReport = RetryReport(
    eligible: nat, retried: nat, moneyMoved: nat, conflicts: nat, atStart: nat, atFlip: nat, ids: seq<MigrationId>)

  const NO_RETRIES := RetryReport(0, 0, 0, 0, 0, 0, [])

  predicate DistinctIds(cs: seq<Candidate>) {
    forall i, j :: 0 <= i < j < |cs| ==> cs[i].id != cs[j].id
  }

  predicate Unlisted(cs: seq<Candidate>, id: MigrationId) { forall c :: c in cs ==> c.id != id }

  function Retried(m: Migration, c: Candidate, dryRun: bool): Migration {
    if dryRun || !NothingPaid(c.read) || c.reply == Refuses then m else Apply(m, RetryUpdate(c.read))
  }

  predicate AllRetried(before: Records, after: Records, cs: seq<Candidate>, dryRun: bool) {
    && before.Keys == after.Keys
    && (forall id :: id in after && Unlisted(cs, id) ==> after[id] == before[id])
    && forall c :: c in cs && c.id in after ==> after[c.id] == Retried(before[c.id], c, dryRun)
  }

  lemma {:induction false} OneMoreRetried(before: Records, was: Records, after: Records, cs: seq<Candidate>, n: nat, dryRun: bool)
    requires n < |cs| && DistinctIds(cs) && AllRetried(before, was, cs[..n], dryRun)
    requires after == if cs[n].id in was then was[cs[n].id := Retried(was[cs[n].id], cs[n], dryRun)] else was
    ensures AllRetried(before, after, cs[..n + 1], dryRun)
  {
    assert cs[..n + 1] == cs[..n] + [cs[n]];
    assert Unlisted(cs[..n], cs[n].id);
  }

  /** A candidate's own turn finds its record as it was at the start. */
  lemma {:induction false} OneMoreCounted(before: Records, was: Records, cs: seq<Candidate>, n: nat, dryRun: bool)
    requires n < |cs| && DistinctIds(cs) && AllRetried(before, was, cs[..n], dryRun)
    ensures Counted(CountAll(before, cs[..n], dryRun), was, cs[n], dryRun) == CountAll(before, cs[..n + 1], dryRun)
  {
    OwnTurn(before, was, cs, n, dryRun);
    CountedNext(before, cs, n, dryRun);
  }

  lemma {:induction false} OwnTurn(before: Records, was: Records, cs: seq<Candidate>, n: nat, dryRun: bool)
    requires n < |cs| && DistinctIds(cs) && AllRetried(before, was, cs[..n], dryRun)
    ensures Confirmed(was, cs[n], dryRun) <==> Confirmed(before, cs[n], dryRun)
  {
    assert Unlisted(cs[..n], cs[n].id);
  }

  lemma {:induction false} CountedNext(rs: Records, cs: seq<Candidate>, n: nat, dryRun: bool)
    requires n < |cs|
    ensures CountAll(rs, cs[..n + 1], dryRun) == Counted(CountAll(rs, cs[..n], dryRun), rs, cs[n], dryRun)
  {
    assert cs[..n + 1][..n] == cs[..n];
  }

  /** Reported as retried: the unpaid candidates whose update matched and was confirmed. */
  predicate Confirmed(rs: Records, c: Candidate, dryRun: bool) {
    NothingPaid(c.read) && (dryRun || (c.id in rs && rs[c.id].status == Failed && c.reply == Works))
  }

  function Counted(r: RetryReport, rs: Records, c: Candidate, dryRun: bool): RetryReport {
    if !NothingPaid(c.read) then r.(moneyMoved := r.moneyMoved + 1)
    else if !Confirmed(rs, c, dryRun) then r.(conflicts := r.conflicts + 1)
    else
      var flip := if c.read.previousDefault.Some? then 1 else 0;
      r.(eligible := r.eligible + 1, ids := r.ids + [c.id], atFlip := r.atFlip + flip, atStart := r.atStart + 1 - flip,
         retried := r.retried + if dryRun then 0 else 1)
  }

  function CountAll(rs: Records, cs: seq<Candidate>, dryRun: bool): RetryReport
    decreases |cs|
  {
    if cs == [] then NO_RETRIES else Counted(CountAll(rs, cs[..|cs| - 1], dryRun), rs, cs[|cs| - 1], dryRun)
  }

  /** Confirmed candidates, split by where their retry resumes. */
  function Resumed(rs: Records, cs: seq<Candidate>, dryRun: bool, behindSwitch: bool): nat
    decreases |cs|
  {
    if cs == [] then 0
    else
      var c := cs[|cs| - 1];
      Resumed(rs, cs[..|cs| - 1], dryRun, behindSwitch)
      + if Confirmed(rs, c, dryRun) && RetryUpdate(c.read).to == (if behindSwitch then PointerFlipped else NotStarted) then 1 else 0
  }

  /** What is reported as retried is no longer failed, and the other way round where the
      reply was seen. */
  lemma {:induction false} ConfirmedIsReset(rs: Records, c: Candidate)
    requires c.id in rs && rs[c.id].status == Failed && c.reply == Works
    ensures Confirmed(rs, c, false) <==> Retried(rs[c.id], c, false).status != Failed
  {}

  /** The two counters say where the retried records resume. */
  lemma {:induction false} ResumptionsAddUp(rs: Records, cs: seq<Candidate>, dryRun: bool)
    ensures var r := CountAll(rs, cs, dryRun);
            r.atFlip == Resumed(rs, cs, dryRun, true) && r.atStart == Resumed(rs, cs, dryRun, false)
    decreases |cs|
  {
    if cs != [] { ResumptionsAddUp(rs, cs[..|cs| - 1], dryRun); }
  }

  /** The report adds up, and lists exactly the confirmed candidates. */
  lemma {:induction false} ReportAddsUp(rs: Records, cs: seq<Candidate>, dryRun: bool)
    ensures var r := CountAll(rs, cs, dryRun);
            && r.eligible == |r.ids| == r.atStart + r.atFlip
            && r.eligible + r.moneyMoved + r.conflicts == |cs|
            && r.retried == (if dryRun then 0 else r.eligible)
            && forall id :: id in r.ids <==> exists c :: c in cs && c.id == id && Confirmed(rs, c, dryRun)
    decreases |cs|
  {
    if cs != [] {
      var n := |cs| - 1;
      ReportAddsUp(rs, cs[..n], dryRun);
      assert cs == cs[..n] + [cs[n]];
    }
  }

  /** Nothing of an earlier attempt is left. */
  predicate Progressless(m: Migration) {
    && m.source == m.target == m.starting == m.feeCents == m.fee == None
    && m.moveInvoice == m.feeInvoice == None && m.moveTx == m.feeTx == None
  }

  /** A retry that acts on the record it read is an issued event: it resets an unpaid
      failed record, or resumes it behind the flip, and touches nothing else. */
  lemma {:induction false} FaithfulRetryIsIssued(m: Migration, c: Candidate, dryRun: bool)
    requires c.read == m
    ensures Reaches(m, Retried(m, c, dryRun))
    ensures !NothingPaid(m) || m.status != Failed ==> Retried(m, c, dryRun) == m
    ensures Retried(m, c, dryRun).status == NotStarted && m.status == Failed ==> Progressless(Retried(m, c, dryRun))
  {
    ReachesSelf(m);
    if NothingPaid(m) { ReachesStep(m, m, RetryUpdate(m)); }
  }
}
