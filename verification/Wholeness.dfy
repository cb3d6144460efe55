/** Whether a rolled-back user has the money back: over every run, exactly when. */
module Wholeness {
  import opened Common
  import opened Amounts
  import opened Migrations
  import opened Sagas
  import opened Forward
  import opened Rollback
  import opened RollbackRuns
  import opened RollbackLimits
  import opened ForwardLimits
  import opened Conservation

  /** Nobody else touches the legacy wallet. */
  predicate LegacyAlone(s: State, move: Move) { move.Outside? ==> move.wallets.legacy == s.wallets.legacy }

  /** The legacy wallet reads within a cent of what it read at the start. */
  predicate BackUpToACent(w0: Wallets, s: State) {
    LegacyShortfall(PreciseUnits(w0.legacy), PreciseUnits(s.wallets.legacy)) <= TOLERANCE_MICROS
  }

  predicate Traced(w0: Wallets, s: State) {
    && MovedOnce(s)
    && (s.rec.moveTx == None && HowMany(s.payments, OfMove) == 0 ==> s.wallets.legacy == w0.legacy)
    && (s.rec.source.Some? && (s.rec.moveTx.Some? || HowMany(s.payments, OfMove) == 0) ==>
          s.rec.source.value == PreciseUnits(w0.legacy))
    && (s.rec.status == InvoiceCreated ==> s.rec.source.Some? && s.rec.source.value > 0)
    && (s.rec.status == RolledBack && s.rec.moveTx.Some? ==> BackUpToACent(w0, s))
  }

  // ---------------------------------------------------------------------------
  // Forward steps

  /** What the paying step leaves: nothing moved, or one payment that the wallet covered. */
  predicate Paying(s: State, t: State) {
    && s.rec.source.Some? && t.rec.source == s.rec.source
    && (t.rec.status == InvoiceCreated || t.rec.status == BalanceMoveSending)
    && if t.payments == s.payments then t.wallets.legacy == s.wallets.legacy && t.rec.moveTx == s.rec.moveTx
       else
         && t.payments == s.payments + [ForwardMove(s.rec.source.value)]
         && UnitsToPico(s.rec.source.value) <= s.wallets.legacy
  }

  lemma {:induction false} StepIsPaying(s: State, t: State, o: Replies)
    requires ForwardStep(s, t, o) && s.rec.status == InvoiceCreated && Consistent(s.rec)
    ensures Paying(s, t)
  {}

  /** A payment finds the money only if none left before; then the source is the start. */
  lemma {:induction false} TracedPaying(w0: Wallets, s: State, t: State)
    requires Traced(w0, s) && s.rec.status == InvoiceCreated && Paying(s, t) && MovedOnce(t)
    ensures Traced(w0, t)
  {
    if t.payments != s.payments {
      OneMoreMove(s.payments, s.rec.source.value);
      EnoughIsUnmoved(s);
    }
  }

  lemma {:induction false} EnoughIsUnmoved(s: State)
    requires MovedOnce(s) && s.rec.status == InvoiceCreated && s.rec.source.Some? && s.rec.source.value > 0
    requires UnitsToPico(s.rec.source.value) <= s.wallets.legacy
    ensures HowMany(s.payments, OfMove) == 0
  {
    assert PreciseUnits(s.wallets.legacy) >= 1;
  }

  lemma {:induction false} TracedElsewhere(w0: Wallets, s: State, t: State, o: Replies)
    requires Traced(w0, s) && ForwardStep(s, t, o) && s.rec.status != InvoiceCreated && MovedOnce(t)
    ensures Traced(w0, t)
  {
    NoMoveElsewhere(s, t, o);
    StatusElsewhere(s, t, o);
  }

  lemma {:induction false} StatusElsewhere(s: State, t: State, o: Replies)
    requires ForwardStep(s, t, o) && s.rec.status != InvoiceCreated && Consistent(s.rec)
    ensures t.rec.status == InvoiceCreated ==> t.rec.source.Some? && t.rec.source.value > 0
    ensures t.rec.status == RolledBack ==> t == s
  {
    if s.rec.status == BalanceRead { InvoicedIsPositive(s, t, o); } else { NotInvoiced(s, t, o); }
  }

  lemma {:induction false} InvoicedIsPositive(s: State, t: State, o: Replies)
    requires ForwardStep(s, t, o) && s.rec.status == BalanceRead && Consistent(s.rec)
    ensures t.rec.status == InvoiceCreated ==> t.rec.source.Some? && t.rec.source.value > 0
    ensures t.rec.status != RolledBack
  {}

  lemma {:induction false} NotInvoiced(s: State, t: State, o: Replies)
    requires ForwardStep(s, t, o) && s.rec.status != InvoiceCreated && s.rec.status != BalanceRead
    ensures t.rec.status != InvoiceCreated && (t.rec.status == RolledBack ==> t == s)
  {}

  // ---------------------------------------------------------------------------
  // Passes and the rest

  lemma {:induction false} PassWhole(s: State, t: State, o: RollbackReplies, r: Outcome)
    requires Pass(s, t, o, r) && s.rec.status == RollbackStarted && t.rec.status == RolledBack && s.rec.moveTx.Some?
    ensures t.rec.source == s.rec.source && t.rec.source.Some? && Short(t) <= TOLERANCE_MICROS
  {
    var p := PointerDone(s);
    PassFramed(s, t, o, r);
    if !(r.Err? && PointerInterrupted(s, t)) && !(r.Err? && ReverseInterrupted(p, t, o.reverse)) {
      var q := ReverseDone(p, o.reverse);
      ReverseFramed(p, q, o.reverse);
      FinishWhole(q, t, o, r);
    }
  }

  lemma {:induction false} TracedPass(w0: Wallets, s: State, t: State, o: RollbackReplies, r: Outcome)
    requires Traced(w0, s) && Pass(s, t, o, r) && MovedOnce(t)
    ensures Traced(w0, t)
  {
    if s.rec.status == RollbackStarted {
      PassFramed(s, t, o, r);
      PassPaysReturns(s, t, o, r, OfMove);
      if s.rec.moveTx == None {
        UnrecordedPaymentIsNotReturned(s, t, o, r);
      } else if t.rec.status == RolledBack {
        PassWhole(s, t, o, r);
      }
    }
  }

  lemma {:induction false} TracedControl(w0: Wallets, s: State, e: Event)
    requires Traced(w0, s) && IsControl(e) && Issued(s.rec, e) && MovedOnce(s.(rec := Apply(s.rec, e)))
    ensures Traced(w0, s.(rec := Apply(s.rec, e)))
  {
    ControlKeepsMove(s.rec, e);
    ControlStatus(s.rec, e);
  }

  lemma {:induction false} ControlStatus(m: Migration, e: Event)
    requires IsControl(e) && Issued(m, e)
    ensures var n := Apply(m, e);
            n.status == InvoiceCreated || n.status == RolledBack ==> n.status == m.status && n.source == m.source
  {
    match e
    case Transition(_, _, _) =>
    case Acquire(_, _) =>
    case Release(_) =>
    case MarkFailed(_, _) =>
  }

  lemma {:induction false} TracedNext(w0: Wallets, s: State, t: State, move: Move)
    requires Traced(w0, s) && Next(s, t, move) && LegacyAlone(s, move)
    ensures Traced(w0, t)
  {
    MovedOnceNext(s, t, move);
    match move
    case StepForward(o) =>
      if s.rec.status == InvoiceCreated {
        StepIsPaying(s, t, o);
        TracedPaying(w0, s, t);
      } else {
        TracedElsewhere(w0, s, t, o);
      }
    case StepRollback(o, r) => TracedPass(w0, s, t, o, r);
    case Control(e) => TracedControl(w0, s, e);
    case Outside(_) =>
  }

  lemma {:induction false} TracedRun(states: seq<State>, moves: seq<Move>, n: nat)
    requires Run(states, moves) && n <= |moves|
    requires Fresh(states[0].rec) && states[0].payments == []
    requires forall i :: 0 <= i < |moves| ==> LegacyAlone(states[i], moves[i])
    ensures Traced(states[0].wallets, states[n])
  {
    if n == 0 {
      MovedOnceAtFirst(states[0]);
    } else {
      TracedRun(states, moves, n - 1);
      assert Next(states[n - 1], states[n], moves[n - 1]) && LegacyAlone(states[n - 1], moves[n - 1]);
      TracedNext(states[0].wallets, states[n - 1], states[n], moves[n - 1]);
    }
  }

  /** In every run, with replies and writes lost anywhere, failures marked, retried and
      rolled back by any number of passes: a rolled-back migration has the legacy balance
      back up to a cent exactly if its forward payment is on record, or none was made, or
      the whole balance was within a cent. */
  lemma {:induction false} RolledBackIsWholeIff(states: seq<State>, moves: seq<Move>, n: nat)
    requires Run(states, moves) && n <= |moves|
    requires Fresh(states[0].rec) && states[0].payments == []
    requires forall i :: 0 <= i < |moves| ==> LegacyAlone(states[i], moves[i])
    requires states[n].rec.status == RolledBack
    ensures var before, s := states[0].wallets, states[n];
            BackUpToACent(before, s) <==>
              || s.rec.moveTx.Some? || HowMany(s.payments, OfMove) == 0
              || MicrosOf(PreciseUnits(before.legacy)) <= TOLERANCE_MICROS
  {
    TracedRun(states, moves, n);
  }
}
