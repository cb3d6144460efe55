/** Where the money is at every status, in every run whose forward steps lose no reply
    between paying and recording: calls may be refused, failures marked, locks taken,
    records retried and rollbacks requested at any point. */
module Conservation {
  import opened Common
  import opened Amounts
  import opened Migrations
  import opened Sagas
  import opened Forward
  import opened ForwardRuns
  import opened Rollback
  import opened RollbackRuns
  import opened RollbackLimits

  /** A forward step that succeeds, or leaves at most a refreshed invoice. */
  predicate Intact(s: State, t: State, o: Replies) {
    || (CanAdvance(s, o) && t == Advanced(s, o))
    || t == s
    || (Required(s.rec, o.stale) && t == s.(rec := Payable(s.rec, o)))
  }

  /** The treasury's reimbursement arrives in full. */
  predicate ArrivesInFull(s: State, o: Replies) {
    s.rec.status == FeeInvoiceCreated && s.rec.fee.Some? ==> o.arrived == MicrosToPico(s.rec.fee.value)
  }

  /** No lost replies in forward steps, and no other movement of the wallets. */
  predicate CrashFree(s: State, t: State, move: Move) {
    match move
    case StepForward(o) => Intact(s, t, o) && ArrivesInFull(s, o)
    case Outside(_) => false
    case _ => true
  }

  predicate CrashFreeRun(states: seq<State>, moves: seq<Move>) {
    && Run(states, moves) && Fresh(states[0].rec)
    && forall i :: 0 <= i < |moves| ==> CrashFree(states[i], states[i + 1], moves[i])
  }

  // ---------------------------------------------------------------------------
  // The invariant

  predicate SameMoney(w0: Wallets, w: Wallets) {
    w.legacy == w0.legacy && w.destination == w0.destination && w.treasury == w0.treasury
  }

  /** What the user's destination wallet gained, as read. */
  function Gain(before: Wallets, after: Wallets): int {
    ReadMicros(after.destination) - ReadMicros(before.destination)
  }

  predicate Recorded(w0: Wallets, m: Migration) {
    && m.source == Some(PreciseUnits(w0.legacy)) && m.target == Some(MicrosOf(PreciseUnits(w0.legacy)))
    && m.starting == Some(ReadMicros(w0.destination))
  }

  predicate LegacyMoved(w0: Wallets, w: Wallets) { w.legacy == w0.legacy - UnitsToPico(PreciseUnits(w0.legacy)) }

  /** The balance moved, the fee question open. */
  predicate Drained(w0: Wallets, s: State) {
    && Recorded(w0, s.rec) && LegacyMoved(w0, s.wallets)
    && s.wallets.destination >= w0.destination && s.wallets.treasury == w0.treasury
  }

  /** What the destination has not received of the target. */
  function Missing(w0: Wallets, s: State): nat
    requires s.rec.target.Some?
  {
    DestinationShortfall(s.rec.target.value, ReadMicros(w0.destination), ReadMicros(s.wallets.destination))
  }

  /** The money side once the fee question is settled. */
  predicate Settled(w0: Wallets, s: State) {
    && Recorded(w0, s.rec) && LegacyMoved(w0, s.wallets)
    && (s.rec.feeTx.Some? ==>
          && Gain(w0, s.wallets) == s.rec.target.value
          && s.rec.fee.Some? && w0.treasury == s.wallets.treasury + MicrosToPico(s.rec.fee.value))
    && (s.rec.feeTx.None? ==>
          && Gain(w0, s.wallets) + 2499 >= s.rec.target.value && s.wallets.treasury == w0.treasury
          && s.rec.fee == Some(Missing(w0, s)))
  }

  predicate SettledAndSwitched(w0: Wallets, s: State) {
    && Settled(w0, s)
    && s.wallets.pointer == s.rec.destinationWallet && s.rec.previousDefault == Some(w0.pointer)
  }

  /** Where the money of a paid record is; a verified one left only dust, paid or not. */
  predicate ByStatus(w0: Wallets, s: State) {
    match s.rec.status
    case BalanceMoveSending => Drained(w0, s)
    case BalanceMoveSent => Drained(w0, s)
    case BalanceMoveVerified => Drained(w0, s)
    case FeeInvoiceCreated =>
      Drained(w0, s) && s.rec.fee.Some? && s.rec.fee.value + Gain(w0, s.wallets) == s.rec.target.value
    case FeeSending => Settled(w0, s)
    case FeeReimbursed => Settled(w0, s)
    case PointerFlipped => s.rec.moveTx.Some? ==> SettledAndSwitched(w0, s)
    case LegacyZeroVerified => OnlyDust(s.wallets.legacy) && (s.rec.moveTx.Some? ==> SettledAndSwitched(w0, s))
    case Complete => OnlyDust(s.wallets.legacy) && (s.rec.moveTx.Some? ==> SettledAndSwitched(w0, s))
    case _ => true
  }

  /** The statuses up to the switch of the default wallet. */
  predicate Early(status: Status) { Rank(status) <= 10 }

  predicate Kept(w0: Wallets, s: State) {
    && Consistent(s.rec)
    && (s.rec.moveTx == None ==> SameMoney(w0, s.wallets))
    && (s.rec.source.Some? ==> Recorded(w0, s.rec))
    && (s.rec.previousDefault == None || Early(s.rec.status) ==> s.wallets.pointer == w0.pointer)
    && ByStatus(w0, s)
  }

  // ---------------------------------------------------------------------------
  // Forward steps keep it

  lemma {:induction false} GrowthIsSeen(before: nat, after: nat)
    requires before <= after
    ensures ReadMicros(before) <= ReadMicros(after)
  {}

  lemma {:induction false} KeptToPayment(w0: Wallets, s: State, o: Replies)
    requires Kept(w0, s) && CanAdvance(s, o) && Rank(s.rec.status) <= 4 && Consistent(Advanced(s, o).rec)
    ensures Kept(w0, Advanced(s, o))
  {
    match s.rec.status
    case NotStarted =>
    case Started =>
    case Provisioned =>
    case BalanceRead =>
    case InvoiceCreated =>
  }

  lemma {:induction false} KeptFeeRead(w0: Wallets, s: State, o: Replies)
    requires Kept(w0, s) && CanAdvance(s, o) && s.rec.status == BalanceMoveVerified && Consistent(Advanced(s, o).rec)
    ensures Kept(w0, Advanced(s, o))
  {
    GrowthIsSeen(w0.destination, s.wallets.destination);
  }

  lemma {:induction false} KeptFeePaid(w0: Wallets, s: State, o: Replies)
    requires Kept(w0, s) && CanAdvance(s, o) && ArrivesInFull(s, o) && s.rec.status == FeeInvoiceCreated
    requires Consistent(Advanced(s, o).rec)
    ensures Kept(w0, Advanced(s, o))
  {
    ReadingsMoveExactly(s.wallets.destination, s.rec.fee.value);
  }

  lemma {:induction false} KeptToEnd(w0: Wallets, s: State, o: Replies)
    requires Kept(w0, s) && CanAdvance(s, o) && Rank(s.rec.status) > 4 && Consistent(Advanced(s, o).rec)
    requires s.rec.status != BalanceMoveVerified && s.rec.status != FeeInvoiceCreated
    ensures Kept(w0, Advanced(s, o))
  {
    match s.rec.status
    case BalanceMoveSending =>
    case BalanceMoveSent =>
    case FeeSending =>
    case FeeReimbursed =>
    case PointerFlipped =>
    case LegacyZeroVerified =>
  }

  lemma {:induction false} KeptRefresh(w0: Wallets, s: State, o: Replies)
    requires Kept(w0, s) && Required(s.rec, o.stale) && Consistent(Payable(s.rec, o))
    ensures Kept(w0, s.(rec := Payable(s.rec, o)))
  {}

  lemma {:induction false} KeptForward(w0: Wallets, s: State, t: State, o: Replies)
    requires Kept(w0, s) && ForwardStep(s, t, o) && Intact(s, t, o) && ArrivesInFull(s, o)
    ensures Kept(w0, t)
  {
    MoveKeepsRecord(s, t, StepForward(o));
    if CanAdvance(s, o) && t == Advanced(s, o) {
      if Rank(s.rec.status) <= 4 {
        KeptToPayment(w0, s, o);
      } else if s.rec.status == BalanceMoveVerified {
        KeptFeeRead(w0, s, o);
      } else if s.rec.status == FeeInvoiceCreated {
        KeptFeePaid(w0, s, o);
      } else {
        KeptToEnd(w0, s, o);
      }
    } else if t != s {
      KeptRefresh(w0, s, o);
    }
  }

  // ---------------------------------------------------------------------------
  // Passes and control events keep it

  lemma {:induction false} KeptPass(w0: Wallets, s: State, t: State, o: RollbackReplies, r: Outcome)
    requires Kept(w0, s) && Pass(s, t, o, r)
    ensures Kept(w0, t)
  {
    if s.rec.status == RollbackStarted {
      MoveKeepsRecord(s, t, StepRollback(o, r));
      PassFramed(s, t, o, r);
      if s.rec.moveTx == None { UnrecordedPaymentIsNotReturned(s, t, o, r); }
    }
  }

  lemma {:induction false} KeptRetry(w0: Wallets, s: State)
    requires Kept(w0, s) && s.rec.status == Failed && NothingPaid(s.rec)
    requires Consistent(Apply(s.rec, RetryUpdate(s.rec)))
    ensures Kept(w0, s.(rec := Apply(s.rec, RetryUpdate(s.rec))))
  {}

  /** Locks, marks and rollback requests leave amounts and payments alone. */
  lemma {:induction false} KeptAside(w0: Wallets, s: State, status: Status, rollback: RollbackProgress, lock: Option<WorkerId>)
    requires Kept(w0, s) && (status == s.rec.status || RollbackFamily(status))
    requires Consistent(s.rec.(status := status, rollback := rollback, lockedBy := lock))
    ensures Kept(w0, s.(rec := s.rec.(status := status, rollback := rollback, lockedBy := lock)))
  {}

  /** What a control event makes of a record: a retry, or a change aside. */
  lemma {:induction false} ControlShape(m: Migration, e: Event)
    requires IsControl(e) && Issued(m, e)
    ensures var n := Apply(m, e);
            || (m.status == Failed && NothingPaid(m) && n == Apply(m, RetryUpdate(m)))
            || (n == m.(status := n.status, rollback := n.rollback, lockedBy := n.lockedBy)
                && (n.status == m.status || RollbackFamily(n.status)))
  {
    match e
    case Transition(_, _, _) =>
    case Acquire(_, _) =>
    case Release(_) =>
    case MarkFailed(_, _) =>
  }

  lemma {:induction false} KeptControl(w0: Wallets, s: State, e: Event)
    requires Kept(w0, s) && IsControl(e) && Issued(s.rec, e)
    ensures Kept(w0, s.(rec := Apply(s.rec, e)))
  {
    var m, n := s.rec, Apply(s.rec, e);
    ControlShape(m, e);
    assert Consistent(n) by { ConsistentStep(m, e); }
    if m.status == Failed && NothingPaid(m) && n == Apply(m, RetryUpdate(m)) {
      KeptRetry(w0, s);
    } else {
      KeptAside(w0, s, n.status, n.rollback, n.lockedBy);
    }
  }

  lemma {:induction false} KeptRun(states: seq<State>, moves: seq<Move>, n: nat)
    requires CrashFreeRun(states, moves) && n <= |moves|
    ensures Kept(states[0].wallets, states[n])
  {
    var w0 := states[0].wallets;
    if n == 0 {
      FreshIsConsistent(states[0].rec);
    } else {
      KeptRun(states, moves, n - 1);
      var s, t := states[n - 1], states[n];
      assert Next(s, t, moves[n - 1]) && CrashFree(s, t, moves[n - 1]);
      match moves[n - 1]
      case StepForward(o) => KeptForward(w0, s, t, o);
      case StepRollback(o, r) => KeptPass(w0, s, t, o, r);
      case Control(e) => KeptControl(w0, s, e);
    }
  }

  /** A completed migration, however often it failed and was retried: the legacy wallet
      keeps only dust. If the balance was moved, the target is the legacy balance rounded
      to micros once, the destination gained exactly the target if the fee was reimbursed
      and at most 2,499 micros less if it was absorbed, the treasury paid the recorded fee
      or nothing, and the default wallet was switched. If it was not, nothing moved. */
  lemma {:induction false} ForwardConserves(states: seq<State>, moves: seq<Move>, n: nat)
    requires CrashFreeRun(states, moves) && n <= |moves| && states[n].rec.status == Complete
    ensures var before, s := states[0].wallets, states[n];
            var after, target := s.wallets, ReadMicros(before.legacy);
            && OnlyDust(after.legacy)
            && (s.rec.moveTx == None ==> SameMoney(before, after))
            && (s.rec.moveTx.Some? ==>
                  && s.rec.target == Some(target)
                  && after.pointer == s.rec.destinationWallet && s.rec.previousDefault == Some(before.pointer)
                  && (s.rec.feeTx.Some? ==>
                        && Gain(before, after) == target && s.rec.fee.Some?
                        && before.treasury == after.treasury + MicrosToPico(s.rec.fee.value))
                  && (s.rec.feeTx.None? ==>
                        && Gain(before, after) + 2499 >= target && after.treasury == before.treasury
                        && s.rec.fee == Some(Missing(before, s))))
  {
    KeptRun(states, moves, n);
    TargetIsRoundedBalance(states[0].wallets.legacy);
  }

  // ---------------------------------------------------------------------------
  // A rollback undoes a completed migration

  /** From completion on: the default wallet is the new one or back to the old. */
  predicate Undoing(w0: Wallets, stale: bool, s: State) {
    && s.rec.moveTx.Some? && s.rec.source == Some(PreciseUnits(w0.legacy))
    && s.rec.previousDefault == Some(w0.pointer)
    && (s.rec.status == Complete || RollbackFamily(s.rec.status))
    && (stale ==> s.rec.rollback.pointerRestored && s.wallets.pointer == s.rec.destinationWallet)
    && (!stale ==>
          && (s.wallets.pointer == s.rec.destinationWallet || s.wallets.pointer == w0.pointer)
          && (s.rec.rollback.pointerRestored ==> s.wallets.pointer == w0.pointer))
    && (s.rec.status == RolledBack ==> s.rec.rollback.pointerRestored && Short(s) <= TOLERANCE_MICROS)
  }

  /** Outside movements that leave the default wallet alone and take nothing out of the
      legacy wallet. */
  predicate Gentle(s: State, move: Move) {
    move.Outside? ==> move.wallets.pointer == s.wallets.pointer && s.wallets.legacy <= move.wallets.legacy
  }

  lemma {:induction false} UndoingPointer(w0: Wallets, stale: bool, s: State, t: State)
    requires Undoing(w0, stale, s) && s.rec.status == RollbackStarted && (t == PointerDone(s) || PointerInterrupted(s, t))
    ensures Undoing(w0, stale, t) && t.rec.status == RollbackStarted
    ensures t == PointerDone(s) ==> t.rec.rollback.pointerRestored
  {}

  lemma {:induction false} UndoingFinish(w0: Wallets, stale: bool, s: State, t: State, o: RollbackReplies, r: Outcome)
    requires Undoing(w0, stale, s) && s.rec.status == RollbackStarted && s.rec.rollback.pointerRestored
    requires FinishPhase(s, t, o, r)
    ensures Undoing(w0, stale, t)
  {
    FinishFramed(s, t, o, r);
    if t.rec.status == RolledBack { FinishWhole(s, t, o, r); }
  }

  lemma {:induction false} FinishWhole(s: State, t: State, o: RollbackReplies, r: Outcome)
    requires s.rec.status == RollbackStarted && FinishPhase(s, t, o, r) && t.rec.status == RolledBack && s.rec.moveTx.Some?
    ensures s.rec.source.Some? && Short(s) <= TOLERANCE_MICROS && t.wallets == s.wallets
  {}

  lemma {:induction false} UndoingReverse(w0: Wallets, stale: bool, s: State, t: State, p: PayReplies)
    requires Undoing(w0, stale, s) && s.rec.status == RollbackStarted
    requires || ((NeedsReverse(s.rec) ==> ReverseAllowed(s)) && t == ReverseDone(s, p))
             || ReverseInterrupted(s, t, p)
    ensures Undoing(w0, stale, t) && t.rec.status == RollbackStarted
    ensures t.rec.rollback.pointerRestored == s.rec.rollback.pointerRestored
  {
    ReverseFramed(s, t, p);
  }

  lemma {:induction false} UndoingPass(w0: Wallets, stale: bool, s: State, t: State, o: RollbackReplies, r: Outcome)
    requires Undoing(w0, stale, s) && Pass(s, t, o, r)
    ensures Undoing(w0, stale, t)
  {
    if s.rec.status == RollbackStarted {
      var p := PointerDone(s);
      UndoingPointer(w0, stale, s, p);
      if r.Err? && PointerInterrupted(s, t) {
        UndoingPointer(w0, stale, s, t);
      } else if r.Err? && ReverseInterrupted(p, t, o.reverse) {
        UndoingReverse(w0, stale, p, t, o.reverse);
      } else {
        var q := ReverseDone(p, o.reverse);
        UndoingReverse(w0, stale, p, q, o.reverse);
        UndoingFinish(w0, stale, q, t, o, r);
      }
    }
  }

  lemma {:induction false} UndoingControl(w0: Wallets, stale: bool, s: State, e: Event)
    requires Undoing(w0, stale, s) && IsControl(e) && Issued(s.rec, e)
    ensures Undoing(w0, stale, s.(rec := Apply(s.rec, e)))
  {
    match e
    case Transition(_, _, _) =>
    case Acquire(_, _) =>
    case Release(_) =>
    case MarkFailed(_, _) =>
  }

  lemma {:induction false} UndoingNext(w0: Wallets, stale: bool, s: State, t: State, move: Move)
    requires Undoing(w0, stale, s) && Next(s, t, move) && Gentle(s, move)
    ensures Undoing(w0, stale, t)
  {
    match move
    case StepForward(_) =>
    case StepRollback(o, r) => UndoingPass(w0, stale, s, t, o, r);
    case Control(e) => UndoingControl(w0, stale, s, e);
    case Outside(w) => ShortShrinks(s.rec.source.value, s.wallets.legacy, w.legacy - s.wallets.legacy);
  }

  lemma {:induction false} UndoingRun(w0: Wallets, stale: bool, states: seq<State>, moves: seq<Move>, n: nat)
    requires Run(states, moves) && n <= |moves| && Undoing(w0, stale, states[0])
    requires forall i :: 0 <= i < |moves| ==> Gentle(states[i], moves[i])
    ensures Undoing(w0, stale, states[n])
  {
    if n > 0 {
      UndoingRun(w0, stale, states, moves, n - 1);
      UndoingNext(w0, stale, states[n - 1], states[n], moves[n - 1]);
    }
  }

  /** A migration that moved the balance and completed, followed by any run, with passes
      interrupted and repeated at will, that ends rolled back: the legacy wallet reads
      within a cent of what it read before the migration. The default wallet is back too,
      unless a rollback attempted before the balance was moved left its mark that the
      default wallet was restored; then it stays with the new one. */
  lemma {:induction false} RollbackUndoesCompletion(states: seq<State>, moves: seq<Move>, later: seq<State>, laterMoves: seq<Move>)
    requires CrashFreeRun(states, moves) && Run(later, laterMoves) && later[0] == states[|moves|]
    requires later[0].rec.status == Complete && later[0].rec.moveTx.Some?
    requires forall i :: 0 <= i < |laterMoves| ==> Gentle(later[i], laterMoves[i])
    requires later[|laterMoves|].rec.status == RolledBack
    ensures var before, t := states[0].wallets, later[|laterMoves|];
            && LegacyShortfall(PreciseUnits(before.legacy), PreciseUnits(t.wallets.legacy)) <= TOLERANCE_MICROS
            && t.wallets.pointer == if later[0].rec.rollback.pointerRestored then t.rec.destinationWallet else before.pointer
  {
    KeptRun(states, moves, |moves|);
    UndoingRun(states[0].wallets, later[0].rec.rollback.pointerRestored, later, laterMoves, |laterMoves|);
  }
}
