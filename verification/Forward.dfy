/** The forward half of the saga: handlers.ts, executor.ts and the step functions
    of worker.ts, run one step at a time. */
module Forward {
  import opened Common
  import opened Amounts
  import opened Migrations
  import opened Sagas

  datatype Replies = Replies(
    provision: bool,
    readLegacy: bool,
    readDestination: bool,
    stale: bool,
    invoice: Option<string>,
    refresh: Reply,
    treasury: bool,
    pay: Reply,
    tx: TxId,
    arrived: nat,
    flip: Reply,
    write: Reply)

  predicate AllWork(o: Replies) {
    && o.provision && o.readLegacy && o.readDestination && o.invoice.Some? && o.treasury
    && o.refresh == Works && o.pay == Works && o.flip == Works && o.write == Works
  }

  // ---------------------------------------------------------------------------
  // What a successful step amounts to

  function NewInvoice(o: Replies): Invoice { Invoice(if o.invoice.Some? then o.invoice.value else "", None) }

  function FeeInvoiceFor(o: Replies, fee: nat): Invoice {
    NewInvoice(o).(amount := if fee < MIN_FIXED_INVOICE_MICROS then None else Some(fee))
  }

  function FeeDue(s: State): nat
    requires s.rec.target.Some? && s.rec.starting.Some?
  {
    DestinationShortfall(s.rec.target.value, s.rec.starting.value, ReadMicros(s.wallets.destination))
  }

  /** The fields a step needs; the target only to refresh a stale invoice. */
  predicate Required(m: Migration, stale: bool) {
    if m.status == InvoiceCreated && !stale then m.moveInvoice.Some? && m.source.Some? else FieldsPresent(m)
  }

  /** The record with the invoice it will be paid by: replaced when stale. */
  function Payable(m: Migration, o: Replies): Migration
    requires Required(m, o.stale)
  {
    if !o.stale then m
    else match m.status
      case InvoiceCreated => Patched(m, MoveInvoiced(NewInvoice(o)))
      case FeeInvoiceCreated => Patched(m, FeeInvoiced(m.fee.value, FeeInvoiceFor(o, m.fee.value)))
      case _ => m
  }

  predicate CanAdvance(s: State, o: Replies) {
    && !Terminal(s.rec.status) && Required(s.rec, o.stale)
    && match s.rec.status
       case InvoiceCreated => UnitsToPico(s.rec.source.value) <= s.wallets.legacy
       case BalanceMoveSent => OnlyDust(s.wallets.legacy)
       case FeeInvoiceCreated => MicrosToPico(s.rec.fee.value) <= s.wallets.treasury
       case PointerFlipped => OnlyDust(s.wallets.legacy)
       case _ => true
  }

  function Moved(m: Migration, to: Status, c: Change): Migration { Patched(m, c).(status := to) }

  function Advanced(s: State, o: Replies): State
    requires CanAdvance(s, o)
  {
    var m, w := s.rec, s.wallets;
    match m.status
    case Provisioned =>
      s.(rec := Moved(m, BalanceRead, BalanceRecorded(PreciseUnits(w.legacy), ReadMicros(w.destination))))
    case BalanceRead =>
      if m.target == Some(0) then Flipped(s) else s.(rec := Moved(m, InvoiceCreated, MoveInvoiced(NewInvoice(o))))
    case InvoiceCreated =>
      s.(rec := Moved(Payable(m, o), BalanceMoveSending, MovePaid(o.tx)),
         wallets := w.(legacy := w.legacy - UnitsToPico(m.source.value), destination := w.destination + o.arrived),
         payments := s.payments + [ForwardMove(m.source.value)])
    case BalanceMoveVerified =>
      var fee := FeeDue(s);
      if fee < MIN_PAYABLE_MICROS then s.(rec := Moved(m, FeeReimbursed, FeeAbsorbed(fee)))
      else s.(rec := Moved(m, FeeInvoiceCreated, FeeInvoiced(fee, FeeInvoiceFor(o, fee))))
    case FeeInvoiceCreated =>
      var p := Payable(m, o);
      var sender := if m.fee.value < MIN_FIXED_INVOICE_MICROS then Some(m.fee.value) else None;
      s.(rec := Moved(p, FeeSending, FeePaid(o.tx)),
         wallets := w.(treasury := w.treasury - MicrosToPico(m.fee.value), destination := w.destination + o.arrived),
         payments := s.payments + [FeeReimbursement(m.fee.value, p.feeInvoice.value.amount, sender)])
    case FeeReimbursed => Flipped(s)
    case NotStarted => s.(rec := Moved(m, Started, Nothing))
    case Started => s.(rec := Moved(m, Provisioned, Nothing))
    case BalanceMoveSending => s.(rec := Moved(m, BalanceMoveSent, Nothing))
    case BalanceMoveSent => s.(rec := Moved(m, BalanceMoveVerified, Nothing))
    case FeeSending => s.(rec := Moved(m, FeeReimbursed, Nothing))
    case PointerFlipped => s.(rec := Moved(m, LegacyZeroVerified, Nothing))
    case LegacyZeroVerified => s.(rec := Moved(m, Complete, Nothing))
  }

  function Flipped(s: State): State {
    s.(rec := Moved(s.rec, PointerFlipped, PointerSwapped(s.wallets.pointer)),
       wallets := s.wallets.(pointer := s.rec.destinationWallet))
  }

  /** What a failed step may leave behind: a refreshed invoice, the money moved with
      the record not yet advanced, or the whole step with only its reply lost. */
  predicate Interrupted(s: State, t: State, o: Replies) {
    && t.lastRead == s.lastRead
    && ((t.wallets == s.wallets && t.payments == s.payments)
        || (CanAdvance(s, o) && t.wallets == Advanced(s, o).wallets && t.payments == Advanced(s, o).payments))
    && (t.rec == s.rec
        || (Required(s.rec, o.stale) && t.rec == Payable(s.rec, o))
        || (CanAdvance(s, o) && t == Advanced(s, o)))
  }

  /** The contract of a step on a runnable record: success is exactly Advanced, it
      happens whenever it can and every service works, and a missing field is
      reported only when one is missing. */
  predicate StepDone(s: State, t: State, o: Replies, r: Outcome) {
    && (r.Ok? ==> CanAdvance(s, o) && t == Advanced(s, o) && r.value == t.rec)
    && (r.Err? ==> Interrupted(s, t, o))
    && (AllWork(o) && CanAdvance(s, o) ==> r.Ok?)
    && (FieldsPresent(s.rec) ==> r != Err(MissingField))
  }

  /** One forward step of one worker, whatever the services reply. */
  predicate ForwardStep(s: State, t: State, o: Replies) {
    || (Terminal(s.rec.status) && t == s)
    || (CanAdvance(s, o) && t == Advanced(s, o))
    || (!Terminal(s.rec.status) && Interrupted(s, t, o))
  }

  // ---------------------------------------------------------------------------
  // The steps

  /** recordCashWalletMigrationBalance behind its two reads. */
  method RecordBalance(saga: Saga, o: Replies) returns (r: Outcome)
    modifies saga`rec
    ensures old(saga.rec).status != Provisioned ==> r.Err? && saga.rec == old(saga.rec)
    ensures old(saga.rec).status == Provisioned ==> StepDone(old(saga.View()), saga.View(), o, r)
  {
    if !o.readLegacy || !o.readDestination { return Err(ServiceFailed); }
    var source := PreciseUnits(saga.wallets.legacy);
    var starting := ReadMicros(saga.wallets.destination);
    if !CanTransition(saga.rec.status, BalanceRead) { return Err(InvalidTransition); }
    r := saga.Write(saga.rec.status, BalanceRead, BalanceRecorded(source, starting), o.write);
  }

  /** createCashWalletMigrationBalanceMoveInvoice, first issue and refresh alike. */
  method CreateMoveInvoice(saga: Saga, invoice: Option<string>, write: Reply) returns (r: Outcome)
    modifies saga`rec
    ensures r.Ok? <==>
              && CanTransition(old(saga.rec).status, InvoiceCreated) && old(saga.rec).target.Some?
              && invoice.Some? && write == Works
    ensures saga.rec == old(saga.rec)
         || (invoice.Some? && old(saga.rec).target.Some? && CanTransition(old(saga.rec).status, InvoiceCreated)
             && saga.rec == Moved(old(saga.rec), InvoiceCreated, MoveInvoiced(Invoice(invoice.value, None))))
    ensures r.Ok? ==>
              r.value == saga.rec == Moved(old(saga.rec), InvoiceCreated, MoveInvoiced(Invoice(invoice.value, None)))
    ensures r == Err(MissingField) ==> old(saga.rec).target == None
  {
    if !CanTransition(saga.rec.status, InvoiceCreated) { return Err(InvalidTransition); }
    if saga.rec.target == None { return Err(MissingField); }
    if invoice == None { return Err(ServiceFailed); }
    r := saga.Write(saga.rec.status, InvoiceCreated, MoveInvoiced(Invoice(invoice.value, None)), write);
  }

  /** The invoice a payment goes to: the recorded one, or its replacement when stale. */
  method RefreshMoveInvoice(saga: Saga, o: Replies) returns (r: Outcome)
    requires saga.rec.status == InvoiceCreated && saga.rec.moveInvoice.Some? && saga.rec.source.Some?
    modifies saga`rec
    ensures r.Ok? ==> Required(old(saga.rec), o.stale) && r.value == saga.rec == Payable(old(saga.rec), o)
    ensures r.Err? ==> saga.rec == old(saga.rec) || (Required(old(saga.rec), o.stale) && saga.rec == Payable(old(saga.rec), o))
    ensures r.Ok? && o.stale ==> o.invoice.Some?
    ensures o.invoice.Some? && o.refresh == Works && Required(old(saga.rec), o.stale) ==> r.Ok?
    ensures r == Err(MissingField) ==> !FieldsPresent(old(saga.rec))
  {
    if !o.stale { return Ok(saga.rec); }
    r := CreateMoveInvoice(saga, o.invoice, o.refresh);
  }

  /** Paying the balance of a record as it stood before its invoice was refreshed. */
  method PayMove(saga: Saga, ghost before: Migration, o: Replies) returns (r: Outcome)
    requires before.status == InvoiceCreated && Required(before, o.stale) && saga.rec == Payable(before, o)
    modifies saga`rec, saga`wallets, saga`payments
    ensures saga.rec.moveInvoice == old(saga.rec).moveInvoice
    ensures StepDone(old(saga.View()).(rec := before), saga.View(), o, r)
  {
    var amount := UnitsToPico(saga.rec.source.value);
    if o.pay == Refuses || saga.wallets.legacy < amount { return Err(ServiceFailed); }
    saga.wallets := saga.wallets.(legacy := saga.wallets.legacy - amount,
                                  destination := saga.wallets.destination + o.arrived);
    saga.payments := saga.payments + [ForwardMove(saga.rec.source.value)];
    if o.pay == Lost { return Err(ServiceFailed); }
    r := saga.Write(saga.rec.status, BalanceMoveSending, MovePaid(o.tx), o.write);
  }

  /** sendCashWalletMigrationBalanceMovePayment: refresh a stale invoice, pay the whole
      recorded source, then record the transaction. */
  method SendBalanceMove(saga: Saga, o: Replies) returns (r: Outcome)
    modifies saga`rec, saga`wallets, saga`payments
    ensures old(saga.rec).status != InvoiceCreated ==> r == Err(InvalidTransition) && saga.View() == old(saga.View())
    ensures old(saga.rec).status == InvoiceCreated ==> StepDone(old(saga.View()), saga.View(), o, r)
    ensures r.Ok? && o.stale ==> o.invoice.Some? && saga.rec.moveInvoice == Some(Invoice(o.invoice.value, None))
  {
    if !CanTransition(saga.rec.status, BalanceMoveSending) { return Err(InvalidTransition); }
    if saga.rec.moveInvoice == None || saga.rec.source == None { return Err(MissingField); }
    ghost var before := saga.rec;
    var refreshed := RefreshMoveInvoice(saga, o);
    if refreshed.Err? { return refreshed; }
    r := PayMove(saga, before, o);
  }

  /** verifyBalanceMove and verifyLegacyWalletZero: only dust may be left. */
  method VerifyLegacyZero(saga: Saga, to: Status, o: Replies) returns (r: Outcome)
    requires to == BalanceMoveVerified || to == LegacyZeroVerified
    modifies saga`rec
    ensures CanTransition(old(saga.rec).status, to) && FieldsPresent(old(saga.rec)) ==>
              StepDone(old(saga.View()), saga.View(), o, r)
    ensures r.Ok? ==> OnlyDust(saga.wallets.legacy)
    ensures !CanTransition(old(saga.rec).status, to) ==> r == Err(InvalidTransition) && saga.rec == old(saga.rec)
    ensures r != Err(MissingField)
  {
    if !CanTransition(saga.rec.status, to) { return Err(InvalidTransition); }
    if !o.readLegacy { return Err(ServiceFailed); }
    if !OnlyDust(saga.wallets.legacy) { return Err(FailClosed); }
    r := saga.Write(saga.rec.status, to, Nothing, o.write);
  }

  /** createCashWalletMigrationFeeReimbursementInvoice. */
  method CreateFeeInvoice(saga: Saga, fee: nat, o: Replies, write: Reply) returns (r: Outcome)
    modifies saga`rec
    ensures r.Ok? <==>
              CanTransition(old(saga.rec).status, FeeInvoiceCreated) && o.invoice.Some? && write == Works
    ensures saga.rec == old(saga.rec)
         || (o.invoice.Some? && CanTransition(old(saga.rec).status, FeeInvoiceCreated)
             && saga.rec == Moved(old(saga.rec), FeeInvoiceCreated, FeeInvoiced(fee, FeeInvoiceFor(o, fee))))
    ensures r.Ok? ==>
              r.value == saga.rec == Moved(old(saga.rec), FeeInvoiceCreated, FeeInvoiced(fee, FeeInvoiceFor(o, fee)))
    ensures r != Err(MissingField)
  {
    if !CanTransition(saga.rec.status, FeeInvoiceCreated) { return Err(InvalidTransition); }
    if o.invoice == None { return Err(ServiceFailed); }
    var invoice :=
      Invoice(o.invoice.value, if fee < MIN_FIXED_INVOICE_MICROS then None else Some(fee));
    r := saga.Write(saga.rec.status, FeeInvoiceCreated, FeeInvoiced(fee, invoice), write);
  }

  /** The balance_move_verified handler: read the shortfall, absorb or invoice it. */
  method SettleFee(saga: Saga, o: Replies) returns (r: Outcome)
    requires saga.rec.status == BalanceMoveVerified
    modifies saga`rec
    ensures StepDone(old(saga.View()), saga.View(), o, r)
  {
    if saga.rec.moveTx == None || saga.rec.target == None || saga.rec.starting == None { return Err(MissingField); }
    if !o.readDestination { return Err(ServiceFailed); }
    var current := ReadMicros(saga.wallets.destination);
    var fee := DestinationShortfall(saga.rec.target.value, saga.rec.starting.value, current);
    if fee < MIN_PAYABLE_MICROS {
      r := saga.Write(saga.rec.status, FeeReimbursed, FeeAbsorbed(fee), o.write);
    } else {
      r := CreateFeeInvoice(saga, fee, o, o.write);
    }
  }

  method RefreshFeeInvoice(saga: Saga, o: Replies) returns (r: Outcome)
    requires saga.rec.status == FeeInvoiceCreated && saga.rec.feeInvoice.Some?
    modifies saga`rec
    ensures r.Ok? ==> Required(old(saga.rec), o.stale) && r.value == saga.rec == Payable(old(saga.rec), o)
    ensures r.Err? ==> saga.rec == old(saga.rec) || (Required(old(saga.rec), o.stale) && saga.rec == Payable(old(saga.rec), o))
    ensures r.Ok? && o.stale ==> o.invoice.Some?
    ensures o.invoice.Some? && o.refresh == Works && Required(old(saga.rec), o.stale) ==> r.Ok?
    ensures r == Err(MissingField) ==> !FieldsPresent(old(saga.rec))
  {
    if saga.rec.fee == None { return Err(MissingField); }
    if !o.stale { return Ok(saga.rec); }
    r := CreateFeeInvoice(saga, saga.rec.fee.value, o, o.refresh);
  }

  /** Paying the fee of a record as it stood before its invoice was refreshed. */
  method PayFee(saga: Saga, ghost before: Migration, o: Replies) returns (r: Outcome)
    requires before.status == FeeInvoiceCreated && Required(before, o.stale) && saga.rec == Payable(before, o)
    modifies saga`rec, saga`wallets, saga`payments
    ensures saga.rec.feeInvoice == old(saga.rec).feeInvoice
    ensures StepDone(old(saga.View()).(rec := before), saga.View(), o, r)
  {
    var fee := saga.rec.fee.value;
    var sender := if fee < MIN_FIXED_INVOICE_MICROS then Some(fee) else None;
    if o.pay == Refuses || saga.wallets.treasury < MicrosToPico(fee) { return Err(ServiceFailed); }
    saga.wallets := saga.wallets.(treasury := saga.wallets.treasury - MicrosToPico(fee),
                                  destination := saga.wallets.destination + o.arrived);
    saga.payments := saga.payments + [FeeReimbursement(fee, saga.rec.feeInvoice.value.amount, sender)];
    if o.pay == Lost { return Err(ServiceFailed); }
    r := saga.Write(saga.rec.status, FeeSending, FeePaid(o.tx), o.write);
  }

  /** sendCashWalletMigrationFeeReimbursementPayment. */
  method SendFee(saga: Saga, o: Replies) returns (r: Outcome)
    modifies saga`rec, saga`wallets, saga`payments
    ensures old(saga.rec).status != FeeInvoiceCreated ==> r.Err? && saga.View() == old(saga.View())
    ensures old(saga.rec).status == FeeInvoiceCreated ==> StepDone(old(saga.View()), saga.View(), o, r)
    ensures r.Ok? && o.stale ==> o.invoice.Some? && saga.rec.feeInvoice.Some? && saga.rec.feeInvoice.value.request == o.invoice.value
  {
    if !o.treasury { return Err(ServiceFailed); }
    if !CanTransition(saga.rec.status, FeeSending) { return Err(InvalidTransition); }
    if saga.rec.feeInvoice == None { return Err(MissingField); }
    ghost var before := saga.rec;
    var refreshed := RefreshFeeInvoice(saga, o);
    if refreshed.Err? { return refreshed; }
    r := PayFee(saga, before, o);
  }

  /** flipCashWalletMigrationDefaultPointer. */
  method FlipPointer(saga: Saga, o: Replies) returns (r: Outcome)
    modifies saga`rec, saga`wallets
    ensures !CanTransition(old(saga.rec).status, PointerFlipped) ==> r == Err(InvalidTransition) && saga.View() == old(saga.View())
    ensures r.Ok? ==> saga.View() == Flipped(old(saga.View())) && r.value == saga.rec
    ensures r.Err? ==>
              || saga.View() == old(saga.View()) || saga.View() == Flipped(old(saga.View()))
              || saga.View() == Flipped(old(saga.View())).(rec := old(saga.rec))
    ensures CanTransition(old(saga.rec).status, PointerFlipped) && AllWork(o) ==> r.Ok?
    ensures r != Err(MissingField)
    ensures old(saga.rec).status == FeeReimbursed ==> StepDone(old(saga.View()), saga.View(), o, r)
  {
    if !CanTransition(saga.rec.status, PointerFlipped) { return Err(InvalidTransition); }
    var previous := saga.FlipDefaultWallet(saga.rec.destinationWallet, o.flip);
    if previous.Err? { return Err(ServiceFailed); }
    r := saga.Write(saga.rec.status, PointerFlipped, PointerSwapped(previous.value), o.write);
  }

  /** The statuses left by a write alone, and where to. */
  predicate Marks(from: Status, to: Status) {
    || (from == NotStarted && to == Started)
    || (from == BalanceMoveSending && to == BalanceMoveSent)
    || (from == FeeSending && to == FeeReimbursed)
    || (from == LegacyZeroVerified && to == Complete)
  }

  lemma {:induction false} MarkAdvances(s: State, to: Status, o: Replies)
    requires Marks(s.rec.status, to)
    ensures CanAdvance(s, o) <==> FieldsPresent(s.rec)
    ensures CanAdvance(s, o) ==> Advanced(s, o) == s.(rec := Moved(s.rec, to, Nothing))
  {}

  /** Writing where nothing but the status changes. */
  method Mark(saga: Saga, to: Status, o: Replies) returns (r: Outcome)
    requires Marks(saga.rec.status, to)
    modifies saga`rec
    ensures FieldsPresent(old(saga.rec)) ==> StepDone(old(saga.View()), saga.View(), o, r)
  {
    MarkAdvances(saga.View(), to, o);
    r := saga.Write(saga.rec.status, to, Nothing, o.write);
  }

  /** The handlers that only write: start, mark sent, mark reimbursed, complete. */
  method MarkNext(saga: Saga, o: Replies) returns (r: Outcome)
    requires saga.rec.status in {NotStarted, BalanceMoveSending, FeeSending, LegacyZeroVerified}
    modifies saga`rec
    ensures StepDone(old(saga.View()), saga.View(), o, r)
  {
    match saga.rec.status {
      case NotStarted => r := Mark(saga, Started, o);
      case BalanceMoveSending =>
        if saga.rec.moveTx == None { return Err(MissingField); }
        r := Mark(saga, BalanceMoveSent, o);
      case FeeSending =>
        if saga.rec.feeTx == None { return Err(MissingField); }
        r := Mark(saga, FeeReimbursed, o);
      case LegacyZeroVerified => r := Mark(saga, Complete, o);
    }
  }

  /** The balance_read handler: an empty balance goes straight to the flip. */
  method AfterBalanceRead(saga: Saga, o: Replies) returns (r: Outcome)
    requires saga.rec.status == BalanceRead
    modifies saga`rec, saga`wallets
    ensures StepDone(old(saga.View()), saga.View(), o, r)
  {
    if saga.rec.target == Some(0) {
      r := FlipPointer(saga, o);
    } else {
      r := CreateMoveInvoice(saga, o.invoice, o.write);
    }
  }

  /** verifyCashWalletMigrationBalanceMove. */
  method VerifyMove(saga: Saga, o: Replies) returns (r: Outcome)
    requires saga.rec.status == BalanceMoveSent
    modifies saga`rec
    ensures StepDone(old(saga.View()), saga.View(), o, r)
  {
    if saga.rec.moveTx == None { return Err(MissingField); }
    r := VerifyLegacyZero(saga, BalanceMoveVerified, o);
  }

  /** provisionCashWalletMigrationDestination. */
  method Provision(saga: Saga, o: Replies) returns (r: Outcome)
    requires saga.rec.status == Started
    modifies saga`rec
    ensures StepDone(old(saga.View()), saga.View(), o, r)
  {
    if !o.provision { return Err(ServiceFailed); }
    r := saga.Write(Started, Provisioned, Nothing, o.write);
  }

  /** executeCashWalletMigrationStep with the handler of each status. */
  method Execute(saga: Saga, o: Replies) returns (r: Outcome)
    modifies saga
    ensures Terminal(old(saga.rec).status) ==> saga.View() == old(saga.View()) && r == Ok(saga.rec)
    ensures !Terminal(old(saga.rec).status) ==> StepDone(old(saga.View()), saga.View(), o, r)
  {
    match saga.rec.status {
      case NotStarted => r := MarkNext(saga, o);
      case Started => r := Provision(saga, o);
      case Provisioned => r := RecordBalance(saga, o);
      case BalanceRead => r := AfterBalanceRead(saga, o);
      case InvoiceCreated => r := SendBalanceMove(saga, o);
      case BalanceMoveSending => r := MarkNext(saga, o);
      case BalanceMoveSent => r := VerifyMove(saga, o);
      case BalanceMoveVerified => r := SettleFee(saga, o);
      case FeeInvoiceCreated => r := SendFee(saga, o);
      case FeeSending => r := MarkNext(saga, o);
      case FeeReimbursed => r := FlipPointer(saga, o);
      case PointerFlipped => r := VerifyLegacyZero(saga, LegacyZeroVerified, o);
      case LegacyZeroVerified => r := MarkNext(saga, o);
      case _ => r := Ok(saga.rec);
    }
  }
}
