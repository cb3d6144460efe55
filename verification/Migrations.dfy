/** The migration record and every write the cutover issues against it
    (index.types.d.ts, state-machine.ts, mongoose/cash-wallet-cutover.ts).

    A write is a guarded update: it takes effect only if the stored status equals
    `from` (a transition) or the stored lock names the worker (marking a failure).
    Workers, operators and retries interleave freely, so a run is any sequence of
    issued events. Amounts are integers: `source` in 10^-8 dollars, the others in
    USDT micros. */
module Migrations {
  import opened Common
  import opened Amounts

  type WalletId = string
  type TxId = string
  type WorkerId = string

  datatype Status =
    | NotStarted | Started | Provisioned | BalanceRead | InvoiceCreated
    | BalanceMoveSending | BalanceMoveSent | BalanceMoveVerified
    | FeeInvoiceCreated | FeeSending | FeeReimbursed
    | PointerFlipped | LegacyZeroVerified | Complete
    | Failed | RequiresReview | Skipped | RollbackStarted | RolledBack

  /** A Lightning invoice, with the amount in micros it fixes, if any. */
  datatype Invoice = Invoice(request: string, amount: Option<nat>)

  /** The rollback fields; progress inside RollbackStarted is driven by them. */
  datatype RollbackProgress = RollbackProgress(
    requestedFrom: Option<Status>,
    pointerRestored: bool,
    reverseInvoice: Option<Invoice>,
    reverseTx: Option<TxId>,
    topUpMicros: Option<nat>,
    topUpInvoice: Option<Invoice>,
    topUpTx: Option<TxId>)

  const NO_ROLLBACK := RollbackProgress(None, false, None, None, None, None, None)

  datatype Migration = Migration(
    legacyWallet: WalletId,
    destinationWallet: WalletId,
    previousDefault: Option<WalletId>,
    status: Status,
    source: Option<nat>,
    target: Option<nat>,
    starting: Option<nat>,
    feeCents: Option<nat>,
    fee: Option<nat>,
    moveInvoice: Option<Invoice>,
    moveTx: Option<TxId>,
    feeInvoice: Option<Invoice>,
    feeTx: Option<TxId>,
    rollback: RollbackProgress,
    lockedBy: Option<WorkerId>)

  const MIN_FIXED_INVOICE_MICROS: nat := 10000
  const MIN_PAYABLE_MICROS: nat := 2500

  // ---------------------------------------------------------------------------
  // The transition table

  /** assertCanTransition */
  predicate CanTransition(from: Status, to: Status) {
    match from
    case NotStarted => to.Started? || to.RollbackStarted?
    case Started => to.Provisioned? || to.Failed? || to.RollbackStarted?
    case Provisioned => to.BalanceRead? || to.Failed? || to.Skipped? || to.RollbackStarted?
    case BalanceRead => to.InvoiceCreated? || to.PointerFlipped? || to.Failed? || to.RollbackStarted?
    case InvoiceCreated =>
      to.InvoiceCreated? || to.BalanceMoveSending? || to.Failed? || to.RequiresReview? || to.RollbackStarted?
    case BalanceMoveSending => to.BalanceMoveSent? || to.Failed? || to.RequiresReview? || to.RollbackStarted?
    case BalanceMoveSent => to.BalanceMoveVerified? || to.Failed? || to.RequiresReview? || to.RollbackStarted?
    case BalanceMoveVerified =>
      to.FeeInvoiceCreated? || to.FeeReimbursed? || to.Failed? || to.RequiresReview? || to.RollbackStarted?
    case FeeInvoiceCreated =>
      to.FeeInvoiceCreated? || to.FeeSending? || to.Failed? || to.RequiresReview? || to.RollbackStarted?
    case FeeSending => to.FeeReimbursed? || to.Failed? || to.RequiresReview? || to.RollbackStarted?
    case FeeReimbursed => to.PointerFlipped? || to.Failed? || to.RollbackStarted?
    case PointerFlipped => to.LegacyZeroVerified? || to.Failed? || to.RollbackStarted?
    case LegacyZeroVerified => to.Complete? || to.Failed? || to.RollbackStarted?
    case Complete => to.RollbackStarted?
    case Failed => to.RollbackStarted? || to.NotStarted? || to.PointerFlipped?
    case RequiresReview => to.RollbackStarted?
    case RollbackStarted => to.RollbackStarted? || to.RolledBack? || to.Failed? || to.RequiresReview?
    case Skipped => false
    case RolledBack => false
  }

  /** ROLLBACKABLE_STATUSES, listed as in the source. */
  predicate Rollbackable(s: Status) {
    || s.NotStarted? || s.Started? || s.Provisioned? || s.BalanceRead? || s.InvoiceCreated?
    || s.BalanceMoveSending? || s.BalanceMoveSent? || s.BalanceMoveVerified? || s.FeeInvoiceCreated?
    || s.FeeSending? || s.FeeReimbursed? || s.PointerFlipped? || s.LegacyZeroVerified? || s.Complete?
    || s.Failed? || s.RequiresReview?
  }

  /** The statuses the forward executor leaves alone. */
  predicate Terminal(s: Status) {
    s.Complete? || s.Failed? || s.RequiresReview? || s.Skipped? || s.RollbackStarted? || s.RolledBack?
  }

  // ---------------------------------------------------------------------------
  // Writes

  /** What one update patches or clears besides the status. */
  datatype Change =
    | Nothing
    | BalanceRecorded(source: nat, starting: nat)
    | MoveInvoiced(invoice: Invoice)
    | MovePaid(tx: TxId)
    | FeeInvoiced(fee: nat, invoice: Invoice)
    | FeeAbsorbed(fee: nat)
    | FeePaid(tx: TxId)
    | PointerSwapped(previous: WalletId)
    | RollbackRequested(from: Status)
    | PointerRestored
    | ReverseInvoiced(invoice: Invoice)
    | ReversePaid(tx: TxId)
    | TopUpInvoiced(micros: nat, invoice: Invoice)
    | TopUpPaid(tx: TxId)
    | ProgressCleared

  function Patched(m: Migration, c: Change): Migration {
    match c
    case Nothing => m
    case BalanceRecorded(source, starting) =>
      m.(source := Some(source), target := Some(MicrosOf(source)), starting := Some(starting))
    case MoveInvoiced(invoice) => m.(moveInvoice := Some(invoice))
    case MovePaid(tx) => m.(moveTx := Some(tx))
    case FeeInvoiced(fee, invoice) =>
      m.(feeCents := Some(CentsCeil(fee)), fee := Some(fee), feeInvoice := Some(invoice))
    case FeeAbsorbed(fee) => m.(feeCents := Some(0), fee := Some(fee))
    case FeePaid(tx) => m.(feeTx := Some(tx))
    case PointerSwapped(previous) => m.(previousDefault := Some(previous))
    case RollbackRequested(from) => m.(rollback := m.rollback.(requestedFrom := Some(from)))
    case PointerRestored => m.(rollback := m.rollback.(pointerRestored := true))
    case ReverseInvoiced(invoice) => m.(rollback := m.rollback.(reverseInvoice := Some(invoice)))
    case ReversePaid(tx) => m.(rollback := m.rollback.(reverseTx := Some(tx)))
    case TopUpInvoiced(micros, invoice) =>
      m.(rollback := m.rollback.(topUpMicros := Some(micros), topUpInvoice := Some(invoice)))
    case TopUpPaid(tx) => m.(rollback := m.rollback.(topUpTx := Some(tx)))
    case ProgressCleared =>
      m.(source := None, target := None, starting := None, feeCents := None, fee := None,
         moveInvoice := None, feeInvoice := None)
  }

  datatype Event =
    | Transition(from: Status, to: Status, change: Change)
    | Acquire(worker: WorkerId, stale: bool)
    | Release(worker: WorkerId)
    | MarkFailed(worker: WorkerId, to: Status)

  /** Whether the stored record matches the update's filter. */
  predicate Matches(m: Migration, e: Event) {
    match e
    case Transition(from, _, _) => m.status == from
    case Acquire(_, stale) => m.lockedBy == None || stale
    case Release(worker) => m.lockedBy == Some(worker)
    case MarkFailed(worker, _) => m.lockedBy == Some(worker)
  }

  /** The record after the update was offered to it. */
  function Apply(m: Migration, e: Event): Migration {
    if !Matches(m, e) then m
    else match e
      case Transition(_, to, change) => Patched(m, change).(status := to)
      case Acquire(worker, _) => m.(lockedBy := Some(worker))
      case Release(_) => m.(lockedBy := None)
      case MarkFailed(_, to) => m.(status := to, lockedBy := None)
  }

  /** A fee invoice carries the amount itself, or leaves it to the sender, by size. */
  predicate CarriesFee(invoice: Invoice, fee: nat) {
    invoice.amount == if fee < MIN_FIXED_INVOICE_MICROS then None else Some(fee)
  }

  /** The transitions that change the status alone. */
  function PlainNext(from: Status): Option<Status> {
    match from
    case NotStarted => Some(Started)
    case Started => Some(Provisioned)
    case Provisioned => Some(Skipped)
    case BalanceMoveSending => Some(BalanceMoveSent)
    case BalanceMoveSent => Some(BalanceMoveVerified)
    case FeeSending => Some(FeeReimbursed)
    case PointerFlipped => Some(LegacyZeroVerified)
    case LegacyZeroVerified => Some(Complete)
    case RollbackStarted => Some(RolledBack)
    case _ => None
  }

  /** The transitions the step functions, the operator and the rollback worker issue. */
  predicate Legal(from: Status, to: Status, c: Change) {
    match c
    case Nothing => PlainNext(from) == Some(to)
    case BalanceRecorded(_, _) => from == Provisioned && to == BalanceRead
    case MoveInvoiced(invoice) =>
      (from == BalanceRead || from == InvoiceCreated) && to == InvoiceCreated && invoice.amount == None
    case MovePaid(_) => from == InvoiceCreated && to == BalanceMoveSending
    case FeeInvoiced(fee, invoice) =>
      && (from == BalanceMoveVerified || from == FeeInvoiceCreated) && to == FeeInvoiceCreated
      && MIN_PAYABLE_MICROS <= fee && CarriesFee(invoice, fee)
    case FeeAbsorbed(fee) => from == BalanceMoveVerified && to == FeeReimbursed && fee < MIN_PAYABLE_MICROS
    case FeePaid(_) => from == FeeInvoiceCreated && to == FeeSending
    case PointerSwapped(_) => (from == BalanceRead || from == FeeReimbursed) && to == PointerFlipped
    case RollbackRequested(s) => Rollbackable(from) && to == RollbackStarted && s == from
    case PointerRestored => from == to == RollbackStarted
    case ReverseInvoiced(invoice) => from == to == RollbackStarted && invoice.amount == None
    case ReversePaid(_) => from == to == RollbackStarted
    case TopUpInvoiced(_, invoice) => from == to == RollbackStarted && invoice.amount == None
    case TopUpPaid(_) => from == to == RollbackStarted
    case ProgressCleared => false
  }

  predicate NothingPaid(m: Migration) { m.moveTx == None && m.feeTx == None }

  /** The update a retry issues for a failed record, given the record it read. */
  function RetryUpdate(m: Migration): Event {
    if m.previousDefault.Some? then Transition(Failed, PointerFlipped, Nothing)
    else Transition(Failed, NotStarted, ProgressCleared)
  }

  /** Events some actor may offer to a stored record. A retry decides on what it
      read and updates in one step; its decision is void once a payment is recorded. */
  predicate Issued(m: Migration, e: Event) {
    match e
    case Transition(from, to, change) => Legal(from, to, change) || (NothingPaid(m) && e == RetryUpdate(m))
    case MarkFailed(_, to) => to == Failed || to == RequiresReview
    case _ => true
  }

  function Replay(m: Migration, es: seq<Event>): Migration
    decreases |es|
  {
    if es == [] then m else Replay(Apply(m, es[0]), es[1..])
  }

  predicate IssuedRun(m: Migration, es: seq<Event>)
    decreases |es|
  {
    es == [] || (Issued(m, es[0]) && IssuedRun(Apply(m, es[0]), es[1..]))
  }

  // ---------------------------------------------------------------------------
  // What a record carries at each status

  predicate BeforePayment(s: Status) {
    s.NotStarted? || s.Started? || s.Provisioned? || s.BalanceRead? || s.InvoiceCreated? || s.Skipped?
  }

  predicate BeforeFee(s: Status) {
    BeforePayment(s) || s.BalanceMoveSending? || s.BalanceMoveSent? || s.BalanceMoveVerified?
  }

  /** The inductive invariant of every run. */
  predicate Consistent(m: Migration) {
    && (BeforePayment(m.status) ==> m.moveTx == None)
    && (BeforeFee(m.status) || m.status == FeeInvoiceCreated ==> m.feeTx == None)
    && (BeforeFee(m.status) ==> m.feeInvoice == None)
    && (m.feeTx.Some? ==> m.moveTx.Some? && m.feeInvoice.Some?)
    && (m.source.Some? <==> m.target.Some?) && (m.source.Some? <==> m.starting.Some?)
    && (m.source.Some? ==> m.target == Some(MicrosOf(m.source.value)))
    && (m.status == BalanceRead || m.status == InvoiceCreated ==> m.source.Some?)
    && (m.status == InvoiceCreated ==> m.moveInvoice.Some?)
    && (m.moveInvoice.Some? ==> m.moveInvoice.value.amount == None)
    && (m.moveTx.Some? ==> m.source.Some?)
    && (BeforeFee(m.status) && !BeforePayment(m.status) ==> m.moveTx.Some?)
    && (m.status == FeeInvoiceCreated || m.status == FeeSending ==> m.moveTx.Some?)
    && (m.status == FeeInvoiceCreated ==> m.feeInvoice.Some?)
    && (m.status == FeeSending ==> m.feeTx.Some?)
    && (m.feeInvoice.Some? ==>
          && m.fee.Some? && MIN_PAYABLE_MICROS <= m.fee.value && CarriesFee(m.feeInvoice.value, m.fee.value)
          && m.feeCents == Some(CentsCeil(m.fee.value)))
    && (m.status == FeeReimbursed ==>
          m.moveTx.Some? && m.fee.Some? && (m.feeInvoice == None ==> m.feeCents == Some(0)))
  }

  /** A record as upsertMigration inserts it. */
  predicate Fresh(m: Migration) {
    && m.status == NotStarted && m.lockedBy == None
    && m.source == m.target == m.starting == m.feeCents == m.fee == None
    && m.moveInvoice == m.feeInvoice == None && m.moveTx == m.feeTx == None
    && m.rollback == NO_ROLLBACK
  }

  lemma {:induction false} FreshIsConsistent(m: Migration)
    requires Fresh(m)
    ensures Consistent(m)
  {}

  lemma {:induction false} ConsistentStep(m: Migration, e: Event)
    requires Consistent(m) && Issued(m, e)
    ensures Consistent(Apply(m, e))
  {
    match e
    case Transition(from, to, change) =>
      if m.status == from && Legal(from, to, change) {
        if change.Nothing? {
          ConsistentPlain(m, to);
        } else if to == RollbackStarted {
          ConsistentRollback(m, change);
        } else {
          ConsistentForward(m, to, change);
        }
      }
    case Acquire(_, _) =>
    case Release(_) =>
    case MarkFailed(_, _) =>
  }

  lemma {:induction false} ConsistentPlain(m: Migration, to: Status)
    requires Consistent(m) && PlainNext(m.status) == Some(to)
    ensures Consistent(m.(status := to))
  {}

  lemma {:induction false} ConsistentRollback(m: Migration, c: Change)
    requires Consistent(m) && Legal(m.status, RollbackStarted, c)
    ensures Consistent(Patched(m, c).(status := RollbackStarted))
  {}

  lemma {:induction false} ConsistentForward(m: Migration, to: Status, c: Change)
    requires Consistent(m) && !c.Nothing? && to != RollbackStarted && Legal(m.status, to, c)
    ensures Consistent(Patched(m, c).(status := to))
  {
    match c
    case BalanceRecorded(_, _) =>
    case MoveInvoiced(_) =>
    case MovePaid(_) =>
    case FeeInvoiced(_, _) =>
    case FeeAbsorbed(_) =>
    case FeePaid(_) =>
    case PointerSwapped(_) =>
  }

  /** Recorded payments stay, with the balances they were made against. */
  predicate KeepsPayments(m: Migration, n: Migration) {
    && (m.moveTx.Some? ==>
          && n.moveTx == m.moveTx && n.source == m.source && n.target == m.target && n.starting == m.starting)
    && (m.feeTx.Some? ==> n.feeTx == m.feeTx && n.fee == m.fee && n.feeInvoice == m.feeInvoice)
    && (m.previousDefault.Some? ==> n.previousDefault.Some?)
    && (m.rollback.reverseTx.Some? ==> n.rollback.reverseTx.Some?)
    && (m.rollback.topUpTx.Some? ==> n.rollback.topUpTx.Some?)
  }

  lemma {:induction false} KeepsPaymentsStep(m: Migration, e: Event)
    requires Consistent(m) && Issued(m, e)
    ensures KeepsPayments(m, Apply(m, e))
  {
    match e
    case Transition(from, to, change) =>
      if m.status == from && Legal(from, to, change) { KeepsPaymentsChange(m, to, change); }
    case Acquire(_, _) =>
    case Release(_) =>
    case MarkFailed(_, _) =>
  }

  lemma {:induction false} KeepsPaymentsChange(m: Migration, to: Status, c: Change)
    requires Consistent(m) && Legal(m.status, to, c)
    ensures KeepsPayments(m, Patched(m, c))
  {
    match c
    case BalanceRecorded(_, _) =>
    case MovePaid(_) =>
    case FeeInvoiced(_, _) =>
    case FeeAbsorbed(_) =>
    case FeePaid(_) =>
    case _ =>
  }

  /** In every interleaving of workers, failures, retries and rollbacks the record stays
      consistent, and a recorded balance move or fee reimbursement is never cleared or
      overwritten. */
  lemma {:induction false} PaymentsAreWriteOnce(m: Migration, es: seq<Event>)
    requires Consistent(m) && IssuedRun(m, es)
    ensures Consistent(Replay(m, es)) && KeepsPayments(m, Replay(m, es))
    decreases |es|
  {
    if es != [] {
      ConsistentStep(m, es[0]);
      KeepsPaymentsStep(m, es[0]);
      PaymentsAreWriteOnce(Apply(m, es[0]), es[1..]);
    }
  }

  /** Runs are built one event at a time, from the end. */
  lemma {:induction false} RunCons(m: Migration, e: Event, es: seq<Event>)
    ensures Replay(m, [e] + es) == Replay(Apply(m, e), es)
    ensures IssuedRun(m, [e] + es) <==> Issued(m, e) && IssuedRun(Apply(m, e), es)
  {
    assert ([e] + es)[1..] == es;
  }

  lemma {:induction false} ReplayConcat(m: Migration, a: seq<Event>, b: seq<Event>)
    ensures Replay(m, a + b) == Replay(Replay(m, a), b)
    ensures IssuedRun(m, a) && IssuedRun(Replay(m, a), b) ==> IssuedRun(m, a + b)
    decreases |a|
  {
    if a == [] {
      assert a + b == b;
    } else {
      assert (a + b)[1..] == a[1..] + b;
      ReplayConcat(Apply(m, a[0]), a[1..], b);
    }
  }

  /** n can follow m in some interleaving. */
  ghost predicate Reaches(m: Migration, n: Migration) {
    exists es :: IssuedRun(m, es) && Replay(m, es) == n
  }

  lemma {:induction false} ReachesSelf(m: Migration)
    ensures Reaches(m, m)
  {
    assert IssuedRun(m, []) && Replay(m, []) == m;
  }

  lemma {:induction false} ReachesStep(m: Migration, n: Migration, e: Event)
    requires Reaches(m, n) && Issued(n, e)
    ensures Reaches(m, Apply(n, e))
  {
    var es :| IssuedRun(m, es) && Replay(m, es) == n;
    RunCons(n, e, []);
    ReplayConcat(m, es, [e] + []);
    assert IssuedRun(m, es + ([e] + [])) && Replay(m, es + ([e] + [])) == Apply(n, e);
  }

  lemma {:induction false} ReachesKeeps(m: Migration, n: Migration)
    requires Consistent(m) && Reaches(m, n)
    ensures Consistent(n) && KeepsPayments(m, n)
  {
    var es :| IssuedRun(m, es) && Replay(m, es) == n;
    PaymentsAreWriteOnce(m, es);
  }

  /** The table and the list of rollbackable statuses agree. */
  lemma {:induction false} RollbackableIsTabled(s: Status)
    ensures Rollbackable(s) <==> s != RollbackStarted && CanTransition(s, RollbackStarted)
  {}

  /** Every issued transition follows an edge of the table. */
  lemma {:induction false} LegalIsTabled(m: Migration, e: Event)
    requires e.Transition? && Issued(m, e)
    ensures CanTransition(e.from, e.to)
  {}

  /** What the actor that takes an edge writes with it. */
  function Carried(from: Status, to: Status): Change {
    if to == RollbackStarted then (if from == RollbackStarted then PointerRestored else RollbackRequested(from))
    else if to == BalanceRead then BalanceRecorded(0, 0)
    else if to == InvoiceCreated then MoveInvoiced(Invoice("", None))
    else if to == BalanceMoveSending then MovePaid("")
    else if to == FeeInvoiceCreated then FeeInvoiced(MIN_PAYABLE_MICROS, Invoice("", None))
    else if to == FeeReimbursed && from == BalanceMoveVerified then FeeAbsorbed(0)
    else if to == FeeSending then FeePaid("")
    else if to == PointerFlipped then PointerSwapped("")
    else Nothing
  }

  /** The table has no other edges: each is one that some actor issues, or leads to a
      failure of a record that is under way. */
  lemma {:induction false} TableIsIssued(from: Status, to: Status)
    requires CanTransition(from, to)
    ensures || (exists c :: Legal(from, to, c))
            || (from == Failed && (to == NotStarted || to == PointerFlipped))
            || ((to == Failed || to == RequiresReview) && (!Terminal(from) || from == RollbackStarted))
  {
    EdgeCarries(from, to);
  }

  lemma {:induction false} EdgeCarries(from: Status, to: Status)
    requires CanTransition(from, to)
    ensures || Legal(from, to, Carried(from, to))
            || (from == Failed && (to == NotStarted || to == PointerFlipped))
            || ((to == Failed || to == RequiresReview) && (!Terminal(from) || from == RollbackStarted))
  {}

  // ---------------------------------------------------------------------------
  // The lock

  /** Events by which a worker loses its lock: its own, and stale acquisitions. */
  predicate Unlocks(e: Event, worker: WorkerId) {
    match e
    case Acquire(_, stale) => stale
    case Release(w) => w == worker
    case MarkFailed(w, _) => w == worker
    case Transition(_, _, _) => false
  }

  predicate NeverUnlocks(es: seq<Event>, worker: WorkerId) { forall e :: e in es ==> !Unlocks(e, worker) }

  /** A worker that got the lock keeps it, whatever the others offer, until it releases the
      record, marks it failed, or its lock goes stale. */
  lemma {:induction false} HolderKeepsLock(m: Migration, es: seq<Event>, worker: WorkerId)
    requires m.lockedBy == Some(worker) && IssuedRun(m, es) && NeverUnlocks(es, worker)
    ensures Replay(m, es).lockedBy == Some(worker)
    decreases |es|
  {
    if es != [] {
      assert es[0] in es;
      HolderKeepsLock(Apply(m, es[0]), es[1..], worker);
    }
  }

  /** Whoever dispatches on a reachable record's status finds the fields that step
      requires. */
  predicate FieldsPresent(m: Migration) {
    match m.status
    case BalanceRead => m.target.Some?
    case InvoiceCreated => m.moveInvoice.Some? && m.source.Some? && m.target.Some?
    case BalanceMoveSending => m.moveTx.Some?
    case BalanceMoveSent => m.moveTx.Some?
    case BalanceMoveVerified => m.moveTx.Some? && m.target.Some? && m.starting.Some?
    case FeeInvoiceCreated => m.feeInvoice.Some? && m.fee.Some?
    case FeeSending => m.feeTx.Some?
    case RollbackStarted => m.moveTx.Some? ==> m.target.Some? && m.source.Some?
    case _ => true
  }

  lemma {:induction false} FieldsArePresentInEveryRun(m: Migration, es: seq<Event>)
    requires Fresh(m) && IssuedRun(m, es)
    ensures FieldsPresent(Replay(m, es))
  {
    PaymentsAreWriteOnce(m, es);
  }

  // ---------------------------------------------------------------------------
  // Does completion imply that the default wallet was switched?

  predicate IsFlip(e: Event) { e.Transition? && e.change.PointerSwapped? }

  predicate FlipsIn(es: seq<Event>) { exists i :: 0 <= i < |es| && IsFlip(es[i]) }

  ghost predicate EveryCompletionFlips(m: Migration) {
    forall es :: IssuedRun(m, es) && Replay(m, es).status == Complete ==> FlipsIn(es)
  }

  predicate Unflipped(m: Migration) {
    m.previousDefault == None && !m.status.PointerFlipped? && !m.status.LegacyZeroVerified? && !m.status.Complete?
  }

  lemma {:induction false} WithoutFlipNoCompletion(m: Migration, es: seq<Event>)
    requires Unflipped(m) && IssuedRun(m, es) && !FlipsIn(es)
    ensures Unflipped(Replay(m, es))
    decreases |es|
  {
    if es != [] {
      assert !IsFlip(es[0]);
      assert forall i :: 0 <= i < |es| - 1 ==> es[1..][i] == es[i + 1];
      WithoutFlipNoCompletion(Apply(m, es[0]), es[1..]);
    }
  }

  /** A failure before any payment, retried: with a previous default wallet already on
      the record the retry resumes behind the flip. */
  function ShortcutRun(worker: WorkerId): seq<Event> {
    [Acquire(worker, false), Transition(NotStarted, Started, Nothing), MarkFailed(worker, Failed),
     Transition(Failed, PointerFlipped, Nothing), Transition(PointerFlipped, LegacyZeroVerified, Nothing),
     Transition(LegacyZeroVerified, Complete, Nothing)]
  }

  lemma {:induction false} ShortcutCompletes(m: Migration, worker: WorkerId)
    requires Fresh(m) && m.previousDefault.Some?
    ensures IssuedRun(m, ShortcutRun(worker)) && Replay(m, ShortcutRun(worker)).status == Complete
    ensures !FlipsIn(ShortcutRun(worker))
  {
    var es := ShortcutRun(worker);
    var m1 := Apply(m, es[0]);
    var m2 := Apply(m1, es[1]);
    var m3 := Apply(m2, es[2]);
    var m4 := Apply(m3, es[3]);
    var m5 := Apply(m4, es[4]);
    RunCons(m5, es[5], []);
    RunCons(m4, es[4], [es[5]]);
    RunCons(m3, es[3], [es[4], es[5]]);
    RunCons(m2, es[2], [es[3], es[4], es[5]]);
    RunCons(m1, es[1], [es[2], es[3], es[4], es[5]]);
    RunCons(m, es[0], [es[1], es[2], es[3], es[4], es[5]]);
  }

  /** Completion implies that the default wallet was switched exactly for records
      inserted without a previous default wallet. The planner inserts one. */
  lemma {:induction false} CompletionFlipsIff(m: Migration)
    requires Fresh(m)
    ensures EveryCompletionFlips(m) <==> m.previousDefault == None
  {
    if m.previousDefault == None {
      forall es | IssuedRun(m, es) && Replay(m, es).status == Complete
        ensures FlipsIn(es)
      {
        if !FlipsIn(es) { WithoutFlipNoCompletion(m, es); }
      }
    } else {
      ShortcutCompletes(m, "worker");
    }
  }
}
