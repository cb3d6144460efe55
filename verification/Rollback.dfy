/** The rollback of one migration (rollback-worker.ts): restore the default wallet,
    reverse the balance move, let the treasury top up, finish. Each phase records
    its artifact, so an interrupted pass is resumed by the next one. */
module Rollback {
  import opened Common
  import opened Amounts
  import opened Migrations
  import opened Sagas

  const TOLERANCE_MICROS: nat := 10000

  /** The replies around one payment: invoice, keeping it, paying, recording. */
  datatype PayReplies = PayReplies(
    stale: bool,
    invoice: Option<string>,
    keep: Reply,
    pay: Reply,
    tx: TxId,
    arrived: nat,
    record: Reply)

  datatype RollbackReplies = RollbackReplies(
    readDefault: bool,
    flip: Reply,
    markPointer: Reply,
    readSpendable: bool,
    reverse: PayReplies,
    readLegacy: bool,
    treasury: bool,
    topUp: PayReplies,
    finish: Reply)

  predicate Paid(p: PayReplies) { p.invoice.Some? && p.keep == Works && p.pay == Works && p.record == Works }

  predicate AllReplied(o: RollbackReplies) {
    && o.readDefault && o.flip == Works && o.markPointer == Works && o.readSpendable && Paid(o.reverse)
    && o.readLegacy && o.treasury && Paid(o.topUp) && o.finish == Works
  }

  // ---------------------------------------------------------------------------
  // Phase 1: the default wallet

  /** Restored only if a previous default is recorded and the account still defaults
      to the USDT wallet. */
  function PointerDone(s: State): State {
    var m, w := s.rec, s.wallets;
    if m.rollback.pointerRestored then s
    else
      s.(rec := Patched(m, PointerRestored),
         wallets := if m.previousDefault.Some? && w.pointer == m.destinationWallet
                    then w.(pointer := m.previousDefault.value) else w)
  }

  predicate PointerInterrupted(s: State, t: State) {
    && !s.rec.rollback.pointerRestored && t.payments == s.payments && t.lastRead == s.lastRead
    && (t.wallets == s.wallets || t.wallets == PointerDone(s).wallets)
    && (t.rec == s.rec || t == PointerDone(s))
  }

  // ---------------------------------------------------------------------------
  // Phase 2: the reverse payment

  predicate NeedsReverse(m: Migration) {
    m.moveTx.Some? && m.rollback.reverseTx == None && m.target != Some(0)
  }

  function ReverseAmount(s: State): nat
    requires s.rec.target.Some?
  {
    var spendable, target := SpendableMicros(s.wallets.destination), s.rec.target.value;
    if spendable < target then spendable else target
  }

  /** The amount covers the target up to a cent and is payable at all. */
  predicate ReverseAllowed(s: State) {
    && s.rec.target.Some?
    && s.rec.target.value - ReverseAmount(s) <= TOLERANCE_MICROS
    && MIN_PAYABLE_MICROS <= ReverseAmount(s)
  }

  function FreshInvoice(p: PayReplies): Invoice { Invoice(if p.invoice.Some? then p.invoice.value else "", None) }

  function ReverseInvoicedRecord(m: Migration, p: PayReplies): Migration {
    if m.rollback.reverseInvoice == None || p.stale then Patched(m, ReverseInvoiced(FreshInvoice(p))) else m
  }

  function ReverseDone(s: State, p: PayReplies): State
    requires NeedsReverse(s.rec) ==> ReverseAllowed(s)
  {
    if !NeedsReverse(s.rec) then s
    else
      var w, amount := s.wallets, ReverseAmount(s);
      s.(rec := Patched(ReverseInvoicedRecord(s.rec, p), ReversePaid(p.tx)),
         wallets := w.(destination := w.destination - MicrosToPico(amount), legacy := w.legacy + p.arrived),
         payments := s.payments + [Reverse(amount, s.rec.target.value, SpendableMicros(w.destination))])
  }

  /** Closed when the amount is not allowed; otherwise an invoice, or the payment with
      its record missing, may be left behind. */
  predicate ReverseInterrupted(s: State, t: State, p: PayReplies) {
    && NeedsReverse(s.rec)
    && if !ReverseAllowed(s) then t == s
       else
         var done := ReverseDone(s, p);
         && t.lastRead == s.lastRead
         && ((t.wallets == s.wallets && t.payments == s.payments)
             || (t.wallets == done.wallets && t.payments == done.payments))
         && (t.rec == s.rec || t.rec == ReverseInvoicedRecord(s.rec, p) || t == done)
  }

  // ---------------------------------------------------------------------------
  // Phases 3 and 4: top-up, verification, finish

  function Short(s: State): nat
    requires s.rec.source.Some?
  {
    LegacyShortfall(s.rec.source.value, PreciseUnits(s.wallets.legacy))
  }

  function Reading(s: State): State { s.(lastRead := Some(PreciseUnits(s.wallets.legacy))) }

  function Finished(s: State): State { s.(rec := s.rec.(status := RolledBack)) }

  function TopUpInvoicedRecord(m: Migration, short: nat, p: PayReplies): Migration {
    if m.rollback.topUpInvoice == None || p.stale then Patched(m, TopUpInvoiced(short, FreshInvoice(p))) else m
  }

  predicate CanTopUp(s: State) {
    && s.rec.source.Some? && s.rec.rollback.topUpTx == None && MicrosToPico(Short(s)) <= s.wallets.treasury
  }

  function TopUpDone(s: State, p: PayReplies): State
    requires CanTopUp(s)
  {
    var w := s.wallets;
    s.(rec := Patched(TopUpInvoicedRecord(s.rec, Short(s), p), TopUpPaid(p.tx)),
       wallets := w.(treasury := w.treasury - MicrosToPico(Short(s)), legacy := w.legacy + p.arrived),
       payments := s.payments + [TopUp(Short(s))])
  }

  predicate TopUpInterrupted(s: State, t: State, p: PayReplies) {
    && s.rec.source.Some? && t.lastRead == s.lastRead
    && ((t.wallets == s.wallets && t.payments == s.payments)
        || (CanTopUp(s) && t.wallets == TopUpDone(s, p).wallets && t.payments == TopUpDone(s, p).payments))
    && (t.rec == s.rec || (s.rec.rollback.topUpTx == None && t.rec == TopUpInvoicedRecord(s.rec, Short(s), p))
        || (CanTopUp(s) && t == TopUpDone(s, p)))
  }

  /** Whether the last phase ends the rollback: nothing was sent, or the wallet reads
      whole up to a cent. */
  predicate Whole(s: State) {
    s.rec.moveTx.Some? ==> s.rec.source.Some? && Short(s) <= TOLERANCE_MICROS
  }

  /** Effect of the last phase. */
  predicate FinishPhase(s: State, t: State, o: RollbackReplies, r: Outcome) {
    var read := if s.rec.moveTx.Some? then Reading(s) else s;
    && (r.Ok? ==> r.value == t.rec)
    && if Whole(s) then
         && (r.Ok? ==> t == Finished(read))
         && (r.Err? ==> t == s || t == read || t == Finished(read))
       else
         && (r.Ok? ==> CanTopUp(s) && t == TopUpDone(read, o.topUp))
         && (r.Err? ==> t == s || (s.rec.source.Some? && TopUpInterrupted(read, t, o.topUp)))
  }

  // ---------------------------------------------------------------------------
  // One pass

  /** What one pass may do, whatever the services reply. */
  predicate Pass(s: State, t: State, o: RollbackReplies, r: Outcome) {
    if s.rec.status != RollbackStarted then t == s && r == Err(InvalidTransition)
    else
      var p := PointerDone(s);
      || (r.Err? && PointerInterrupted(s, t))
      || (r.Err? && ReverseInterrupted(p, t, o.reverse))
      || ((NeedsReverse(p.rec) ==> ReverseAllowed(p)) && FinishPhase(ReverseDone(p, o.reverse), t, o, r))
  }

  /** A pass ends well if no phase has to fail closed and the treasury can pay. */
  predicate CanPass(s: State, o: RollbackReplies) {
    && s.rec.status == RollbackStarted && FieldsPresent(s.rec)
    && var p := PointerDone(s);
       && (NeedsReverse(p.rec) ==> ReverseAllowed(p))
       && var q := ReverseDone(p, o.reverse); (Whole(q) || CanTopUp(q))
  }

  /** The reverse payment is made if it is due and allowed, and the last phase follows. */
  predicate Phased(s: State, t: State, o: RollbackReplies, r: Outcome) {
    var p := PointerDone(s);
    (NeedsReverse(p.rec) ==> ReverseAllowed(p)) ==> FinishPhase(ReverseDone(p, o.reverse), t, o, r)
  }

  /** patchRollbackProgress */
  method Keep(saga: Saga, change: Change, reply: Reply) returns (r: Outcome)
    modifies saga`rec
    ensures reply == Refuses || old(saga.rec).status != RollbackStarted ==>
              r == Err(WriteFailed) && saga.rec == old(saga.rec)
    ensures reply != Refuses && old(saga.rec).status == RollbackStarted ==>
              && saga.rec == Patched(old(saga.rec), change).(status := RollbackStarted)
              && r == if reply == Lost then Err(WriteFailed) else Ok(saga.rec)
  {
    r := saga.Write(RollbackStarted, RollbackStarted, change, reply);
  }

  method RestorePointer(saga: Saga, o: RollbackReplies) returns (r: Outcome)
    requires saga.rec.status == RollbackStarted
    modifies saga`rec, saga`wallets
    ensures r.Ok? ==> saga.View() == PointerDone(old(saga.View()))
    ensures r.Err? ==> PointerInterrupted(old(saga.View()), saga.View()) && r != Err(MissingField)
    ensures AllReplied(o) ==> r.Ok?
  {
    if saga.rec.rollback.pointerRestored { return Ok(saga.rec); }
    if saga.rec.previousDefault.Some? {
      if !o.readDefault { return Err(ServiceFailed); }
      if saga.wallets.pointer == saga.rec.destinationWallet {
        var restored := saga.FlipDefaultWallet(saga.rec.previousDefault.value, o.flip);
        if restored.Err? { return Err(ServiceFailed); }
      }
    }
    r := Keep(saga, PointerRestored, o.markPointer);
  }

  method PayReverse(saga: Saga, amount: nat, o: RollbackReplies) returns (r: Outcome)
    requires saga.rec.status == RollbackStarted && NeedsReverse(saga.rec)
    requires ReverseAllowed(saga.View()) && amount == ReverseAmount(saga.View())
    modifies saga`rec, saga`wallets, saga`payments
    ensures r.Ok? ==> saga.View() == ReverseDone(old(saga.View()), o.reverse)
    ensures r.Ok? && (o.reverse.stale || old(saga.rec).rollback.reverseInvoice == None) ==>
              o.reverse.invoice.Some? && saga.rec.rollback.reverseInvoice == Some(Invoice(o.reverse.invoice.value, None))
    ensures r.Err? ==> ReverseInterrupted(old(saga.View()), saga.View(), o.reverse) && r != Err(MissingField)
    ensures AllReplied(o) ==> r.Ok?
  {
    var target, spendable := saga.rec.target.value, SpendableMicros(saga.wallets.destination);
    if saga.rec.rollback.reverseInvoice == None || o.reverse.stale {
      if o.reverse.invoice == None { return Err(ServiceFailed); }
      var kept := Keep(saga, ReverseInvoiced(Invoice(o.reverse.invoice.value, None)), o.reverse.keep);
      if kept.Err? { return kept; }
    }
    if o.reverse.pay == Refuses { return Err(ServiceFailed); }
    saga.wallets := saga.wallets.(destination := saga.wallets.destination - MicrosToPico(amount),
                                  legacy := saga.wallets.legacy + o.reverse.arrived);
    saga.payments := saga.payments + [Reverse(amount, target, spendable)];
    if o.reverse.pay == Lost { return Err(ServiceFailed); }
    r := Keep(saga, ReversePaid(o.reverse.tx), o.reverse.record);
  }

  method ReverseMove(saga: Saga, o: RollbackReplies) returns (r: Outcome)
    requires saga.rec.status == RollbackStarted
    modifies saga`rec, saga`wallets, saga`payments
    ensures var s := old(saga.View());
            && (r.Ok? ==> (NeedsReverse(s.rec) ==> ReverseAllowed(s)) && saga.View() == ReverseDone(s, o.reverse))
            && (r.Err? ==> ReverseInterrupted(s, saga.View(), o.reverse))
            && (AllReplied(o) && (NeedsReverse(s.rec) ==> ReverseAllowed(s)) ==> r.Ok?)
            && (r == Err(MissingField) ==> !FieldsPresent(s.rec))
  {
    if saga.rec.moveTx == None || saga.rec.rollback.reverseTx.Some? { return Ok(saga.rec); }
    if saga.rec.target == None { return Err(MissingField); }
    if saga.rec.target == Some(0) { return Ok(saga.rec); }
    if !o.readSpendable { return Err(ServiceFailed); }
    var target, spendable := saga.rec.target.value, SpendableMicros(saga.wallets.destination);
    var amount := if spendable < target then spendable else target;
    if target - amount > TOLERANCE_MICROS { return Err(FailClosed); }
    if amount < MIN_PAYABLE_MICROS { return Err(FailClosed); }
    r := PayReverse(saga, amount, o);
  }

  /** The invoice of the top-up, new if there is none or it is stale. */
  method KeepTopUpInvoice(saga: Saga, short: nat, p: PayReplies) returns (r: Outcome)
    requires saga.rec.status == RollbackStarted
    modifies saga`rec
    ensures r.Ok? ==> saga.rec == TopUpInvoicedRecord(old(saga.rec), short, p)
    ensures r.Ok? && (p.stale || old(saga.rec).rollback.topUpInvoice == None) ==> p.invoice.Some?
    ensures r.Err? ==>
              (saga.rec == old(saga.rec) || saga.rec == TopUpInvoicedRecord(old(saga.rec), short, p)) && r != Err(MissingField)
    ensures Paid(p) ==> r.Ok?
  {
    if saga.rec.rollback.topUpInvoice.Some? && !p.stale { return Ok(saga.rec); }
    if p.invoice == None { return Err(ServiceFailed); }
    r := Keep(saga, TopUpInvoiced(short, Invoice(p.invoice.value, None)), p.keep);
  }

  method PayTopUp(saga: Saga, short: nat, o: RollbackReplies) returns (r: Outcome)
    requires saga.rec.status == RollbackStarted && saga.rec.source.Some? && short == Short(saga.View())
    modifies saga`rec, saga`wallets, saga`payments
    ensures r.Ok? ==> CanTopUp(old(saga.View())) && saga.View() == TopUpDone(old(saga.View()), o.topUp)
                      && r.value == saga.rec
    ensures r.Ok? && (o.topUp.stale || old(saga.rec).rollback.topUpInvoice == None) ==>
              && o.topUp.invoice.Some? && saga.rec.rollback.topUpMicros == Some(short)
              && saga.rec.rollback.topUpInvoice == Some(Invoice(o.topUp.invoice.value, None))
    ensures r.Err? ==> TopUpInterrupted(old(saga.View()), saga.View(), o.topUp) && r != Err(MissingField)
    ensures AllReplied(o) && CanTopUp(old(saga.View())) ==> r.Ok?
  {
    if saga.rec.rollback.topUpTx.Some? { return Err(FailClosed); }
    if !o.treasury { return Err(ServiceFailed); }
    r := KeepTopUpInvoice(saga, short, o.topUp);
    if r.Err? { return; }
    if o.topUp.pay == Refuses || saga.wallets.treasury < MicrosToPico(short) { return Err(ServiceFailed); }
    saga.wallets := saga.wallets.(treasury := saga.wallets.treasury - MicrosToPico(short),
                                  legacy := saga.wallets.legacy + o.topUp.arrived);
    saga.payments := saga.payments + [TopUp(short)];
    if o.topUp.pay == Lost { return Err(ServiceFailed); }
    r := Keep(saga, TopUpPaid(o.topUp.tx), o.topUp.record);
  }

  method TopUpOrFinish(saga: Saga, o: RollbackReplies) returns (r: Outcome)
    requires saga.rec.status == RollbackStarted
    modifies saga
    ensures FinishPhase(old(saga.View()), saga.View(), o, r)
    ensures AllReplied(o) && (Whole(old(saga.View())) || CanTopUp(old(saga.View()))) ==> r.Ok?
    ensures r == Err(MissingField) ==> !FieldsPresent(old(saga.rec))
  {
    if saga.rec.moveTx.Some? {
      if saga.rec.source == None { return Err(MissingField); }
      if !o.readLegacy { return Err(ServiceFailed); }
      saga.lastRead := Some(PreciseUnits(saga.wallets.legacy));
      var short := LegacyShortfall(saga.rec.source.value, saga.lastRead.value);
      if short > TOLERANCE_MICROS {
        r := PayTopUp(saga, short, o);
        return;
      }
    }
    r := saga.Write(RollbackStarted, RolledBack, Nothing, o.finish);
  }

  /** executeCashWalletMigrationRollbackStep. */
  method ExecuteRollback(saga: Saga, o: RollbackReplies) returns (r: Outcome)
    modifies saga
    ensures Pass(old(saga.View()), saga.View(), o, r)
    ensures AllReplied(o) && CanPass(old(saga.View()), o) ==> r.Ok?
    ensures AllReplied(o) && old(saga.rec).status == RollbackStarted ==> Phased(old(saga.View()), saga.View(), o, r)
    ensures r == Err(MissingField) ==> !FieldsPresent(old(saga.rec))
  {
    if saga.rec.status != RollbackStarted { return Err(InvalidTransition); }
    r := RestorePointer(saga, o);
    if r.Err? { return; }
    r := ReverseMove(saga, o);
    if r.Err? { return; }
    r := TopUpOrFinish(saga, o);
  }
}
