/** What bounds the forward half in every run: the number of successful steps, the
    payments that leave the legacy wallet, and the payments of the fee. */
module ForwardLimits {
  import opened Common
  import opened Amounts
  import opened Migrations
  import opened Sagas
  import opened Forward
  import opened ForwardRuns
  import opened Rollback
  import opened RollbackRuns
  import opened RollbackLimits

  // ---------------------------------------------------------------------------
  // Termination

  predicate Advances(s: State, t: State, move: Move) {
    move.StepForward? && CanAdvance(s, move.forward) && t == Advanced(s, move.forward)
  }

  function SuccessfulSteps(states: seq<State>, moves: seq<Move>): nat
    requires |states| == |moves| + 1
    decreases |moves|
  {
    if moves == [] then 0
    else SuccessfulSteps(states[..|moves|], moves[..|moves| - 1])
         + if Advances(states[|moves| - 1], states[|moves|], moves[|moves| - 1]) then 1 else 0
  }

  /** The steps a retry makes repeatable: all of them after a reset, the last two when it
      resumes behind the switch. */
  function Repeatable(s: State, move: Move): nat {
    if move.Control? && move.event.Transition? && !move.event.change.RollbackRequested? && Matches(s.rec, move.event)
    then if move.event.to == NotStarted then 13 else 2
    else 0
  }

  function RetriedSteps(states: seq<State>, moves: seq<Move>): nat
    requires |states| == |moves| + 1
    decreases |moves|
  {
    if moves == [] then 0
    else RetriedSteps(states[..|moves|], moves[..|moves| - 1]) + Repeatable(states[|moves| - 1], moves[|moves| - 1])
  }

  lemma {:induction false} RankMoves(s: State, t: State, move: Move)
    requires Next(s, t, move)
    ensures Rank(s.rec.status) + (if Advances(s, t, move) then 1 else 0) <= Rank(t.rec.status) + Repeatable(s, move)
  {
    match move
    case StepForward(o) => if CanAdvance(s, o) { RankStep(s, o); }
    case StepRollback(o, r) => if s.rec.status == RollbackStarted { PassFramed(s, t, o, r); }
    case Control(e) => RankControl(s.rec, e);
    case Outside(_) =>
  }

  lemma {:induction false} RankControl(m: Migration, e: Event)
    requires IsControl(e) && Issued(m, e)
    ensures var lost := if e.Transition? && !e.change.RollbackRequested? && Matches(m, e)
                        then (if e.to == NotStarted then 13 else 2) else 0;
            Rank(m.status) <= Rank(Apply(m, e).status) + lost
  {
    match e
    case Transition(_, _, _) =>
    case Acquire(_, _) =>
    case Release(_) =>
    case MarkFailed(_, _) =>
  }

  /** In every run at most 13 steps succeed, and at most as many more as retries made
      repeatable: 13 for a reset, 2 for a resumption behind the switch. */
  lemma {:induction false} ForwardTerminates(states: seq<State>, moves: seq<Move>)
    requires Run(states, moves) && Fresh(states[0].rec)
    ensures SuccessfulSteps(states, moves) <= Rank(states[|moves|].rec.status) + RetriedSteps(states, moves)
    ensures SuccessfulSteps(states, moves) <= 13 + RetriedSteps(states, moves)
    decreases |moves|
  {
    if moves != [] {
      var n := |moves| - 1;
      RunPrefix(states, moves);
      ForwardTerminates(states[..n + 1], moves[..n]);
      assert Next(states[n], states[n + 1], moves[n]);
      RankMoves(states[n], states[n + 1], moves[n]);
    }
  }

  lemma {:induction false} RunPrefix(states: seq<State>, moves: seq<Move>)
    requires Run(states, moves) && moves != []
    ensures Run(states[..|moves|], moves[..|moves| - 1])
  {
    var ss, ms := states[..|moves|], moves[..|moves| - 1];
    forall i | 0 <= i < |ms| ensures Next(ss[i], ss[i + 1], ms[i]) { assert Next(states[i], states[i + 1], moves[i]); }
  }

  // ---------------------------------------------------------------------------
  // The balance leaves the legacy wallet at most once

  /** Nobody else puts money into the legacy wallet. */
  predicate NoLegacyCredit(s: State, move: Move) {
    move.Outside? ==> move.wallets.legacy <= s.wallets.legacy
  }

  /** Until its payment is recorded a migration reads at least what the wallet holds, and
      a payment leaves less than one unit. */
  predicate MovedOnce(s: State) {
    && Consistent(s.rec)
    && (s.rec.moveTx == None && s.rec.source.Some? ==> PreciseUnits(s.wallets.legacy) <= s.rec.source.value)
    && (HowMany(s.payments, OfMove) == 0
        || (HowMany(s.payments, OfMove) == 1 && (s.rec.moveTx == None ==> PreciseUnits(s.wallets.legacy) == 0)))
  }

  lemma {:induction false} MovedOnceForward(s: State, t: State, o: Replies)
    requires MovedOnce(s) && ForwardStep(s, t, o)
    ensures MovedOnce(t)
  {
    MoveKeepsRecord(s, t, StepForward(o));
    if s.rec.status == InvoiceCreated {
      MovedOncePaying(s, t, o);
    } else {
      NoMoveElsewhere(s, t, o);
    }
  }

  lemma {:induction false} MovedOncePaying(s: State, t: State, o: Replies)
    requires MovedOnce(s) && ForwardStep(s, t, o) && s.rec.status == InvoiceCreated && Consistent(t.rec)
    ensures MovedOnce(t)
  {
    if t.payments != s.payments { MovedOncePaid(s, t, o); }
  }

  lemma {:induction false} MovedOncePaid(s: State, t: State, o: Replies)
    requires MovedOnce(s) && s.rec.status == InvoiceCreated && CanAdvance(s, o) && Consistent(t.rec)
    requires t.wallets == Advanced(s, o).wallets && t.payments == Advanced(s, o).payments
    ensures MovedOnce(t)
  {
    var units := s.rec.source.value;
    assert t.wallets.legacy == s.wallets.legacy - UnitsToPico(units) && t.payments == s.payments + [ForwardMove(units)];
    AllPaidLeavesDust(s.wallets.legacy, units, t.wallets.legacy);
    OneMoreMove(s.payments, units);
  }

  lemma {:induction false} OneMoreMove(payments: seq<Payment>, units: nat)
    ensures HowMany(payments + [ForwardMove(units)], OfMove) == HowMany(payments, OfMove) + if units > 0 then 1 else 0
  {
    HowManyAppend(payments, ForwardMove(units), OfMove);
  }

  lemma {:induction false} AllPaidLeavesDust(legacy: nat, units: nat, left: nat)
    requires PreciseUnits(legacy) <= units && left == legacy - UnitsToPico(units)
    ensures PreciseUnits(legacy) == units && PreciseUnits(left) == 0
  {}

  /** Apart from the payment, a step moves no balance and records a source only as read. */
  lemma {:induction false} NoMoveElsewhere(s: State, t: State, o: Replies)
    requires ForwardStep(s, t, o) && s.rec.status != InvoiceCreated
    ensures HowMany(t.payments, OfMove) == HowMany(s.payments, OfMove)
    ensures t.wallets.legacy == s.wallets.legacy && t.rec.moveTx == s.rec.moveTx
    ensures t.rec.source == s.rec.source || (s.rec.status == Provisioned && t.rec.source == Some(PreciseUnits(s.wallets.legacy)))
  {
    OthersKeepMove(s, t, o);
    if s.rec.status == FeeInvoiceCreated { FeeMovesNoBalance(s, t, o); } else { OthersPayNothing(s, t, o); }
  }

  lemma {:induction false} FeeMovesNoBalance(s: State, t: State, o: Replies)
    requires ForwardStep(s, t, o) && s.rec.status == FeeInvoiceCreated
    ensures HowMany(t.payments, OfMove) == HowMany(s.payments, OfMove) && t.wallets.legacy == s.wallets.legacy
  {
    if CanAdvance(s, o) { HowManyAppend(s.payments, FeePayment(s, o), OfMove); }
  }

  /** The payment of a fee step. */
  function FeePayment(s: State, o: Replies): Payment
    requires CanAdvance(s, o) && s.rec.status == FeeInvoiceCreated
  {
    var fee := s.rec.fee.value;
    FeeReimbursement(fee, Payable(s.rec, o).feeInvoice.value.amount,
                     if fee < MIN_FIXED_INVOICE_MICROS then Some(fee) else None)
  }

  lemma {:induction false} ControlKeepsMove(m: Migration, e: Event)
    requires IsControl(e) && Issued(m, e)
    ensures var n := Apply(m, e); n.moveTx == m.moveTx && n.feeTx == m.feeTx && (n.source == m.source || n.source == None)
  {
    match e
    case Transition(_, _, _) =>
    case Acquire(_, _) =>
    case Release(_) =>
    case MarkFailed(_, _) =>
  }

  lemma {:induction false} MovedOnceControl(s: State, e: Event)
    requires MovedOnce(s) && IsControl(e) && Issued(s.rec, e)
    ensures MovedOnce(s.(rec := Apply(s.rec, e)))
  {
    ConsistentStep(s.rec, e);
    ControlKeepsMove(s.rec, e);
  }

  lemma {:induction false} MovedOncePass(s: State, t: State, o: RollbackReplies, r: Outcome)
    requires MovedOnce(s) && Pass(s, t, o, r)
    ensures MovedOnce(t)
  {
    MoveKeepsRecord(s, t, StepRollback(o, r));
    PassPaysReturns(s, t, o, r, OfMove);
    if s.rec.status == RollbackStarted {
      PassFramed(s, t, o, r);
      if s.rec.moveTx == None { UnrecordedPaymentIsNotReturned(s, t, o, r); }
    }
  }

  lemma {:induction false} MovedOnceNext(s: State, t: State, move: Move)
    requires MovedOnce(s) && Next(s, t, move) && NoLegacyCredit(s, move)
    ensures MovedOnce(t)
  {
    match move
    case StepForward(o) => MovedOnceForward(s, t, o);
    case StepRollback(o, r) => MovedOncePass(s, t, o, r);
    case Control(e) => MovedOnceControl(s, e);
    case Outside(_) =>
  }

  lemma {:induction false} MovedOnceAtFirst(s: State)
    requires Fresh(s.rec) && s.payments == []
    ensures MovedOnce(s)
  {
    FreshIsConsistent(s.rec);
  }

  /** In every run, replies and writes lost anywhere, failures retried, the balance leaves
      the legacy wallet at most once. */
  lemma {:induction false} BalanceMovesAtMostOnce(states: seq<State>, moves: seq<Move>, n: nat)
    requires Run(states, moves) && n <= |moves|
    requires Fresh(states[0].rec) && states[0].payments == []
    requires forall i :: 0 <= i < |moves| ==> NoLegacyCredit(states[i], moves[i])
    ensures MovedOnce(states[n]) && HowMany(states[n].payments, OfMove) <= 1
  {
    if n == 0 {
      MovedOnceAtFirst(states[0]);
    } else {
      BalanceMovesAtMostOnce(states, moves, n - 1);
      assert Next(states[n - 1], states[n], moves[n - 1]) && NoLegacyCredit(states[n - 1], moves[n - 1]);
      MovedOnceNext(states[n - 1], states[n], moves[n - 1]);
    }
  }

  /** The condition is needed: a payment whose record is lost is made again when the step
      is resumed, exactly if the wallet holds the source a second time. */
  lemma {:induction false} LostMoveRepeatsIff(s: State, t: State, o: Replies, again: Replies)
    requires s.rec.status == InvoiceCreated && CanAdvance(s, o) && Consistent(s.rec)
    requires t.payments == Advanced(s, o).payments && t.lastRead == s.lastRead
    requires t.rec == s.rec || t.rec == Payable(s.rec, o)
    ensures CanAdvance(t, again) <==> UnitsToPico(s.rec.source.value) <= t.wallets.legacy
    ensures t.wallets == Advanced(s, o).wallets ==>
              && Next(s, t, StepForward(o))
              && (CanAdvance(t, again) <==> 2 * UnitsToPico(s.rec.source.value) <= s.wallets.legacy)
    ensures CanAdvance(t, again) ==>
              Advanced(t, again).payments == s.payments + [ForwardMove(s.rec.source.value)] + [ForwardMove(s.rec.source.value)]
  {}

  // ---------------------------------------------------------------------------
  // A verified wallet stays empty

  predicate VerifiedIsDrained(s: State) {
    s.rec.status == LegacyZeroVerified || s.rec.status == Complete ==> OnlyDust(s.wallets.legacy)
  }

  lemma {:induction false} DrainedForward(s: State, t: State, o: Replies)
    requires VerifiedIsDrained(s) && ForwardStep(s, t, o)
    ensures VerifiedIsDrained(t)
  {
    match s.rec.status
    case PointerFlipped =>
    case LegacyZeroVerified =>
    case _ =>
  }

  lemma {:induction false} DrainedNext(s: State, t: State, move: Move)
    requires VerifiedIsDrained(s) && Next(s, t, move) && NoLegacyCredit(s, move)
    ensures VerifiedIsDrained(t)
  {
    match move
    case StepForward(o) => DrainedForward(s, t, o);
    case StepRollback(o, r) => if s.rec.status == RollbackStarted { PassFramed(s, t, o, r); }
    case Control(e) => DrainedControl(s.rec, e);
    case Outside(_) =>
  }

  lemma {:induction false} DrainedControl(m: Migration, e: Event)
    requires IsControl(e) && Issued(m, e)
    ensures var n := Apply(m, e).status; n == LegacyZeroVerified || n == Complete ==> n == m.status
  {
    match e
    case Transition(_, _, _) =>
    case Acquire(_, _) =>
    case Release(_) =>
    case MarkFailed(_, _) =>
  }

  /** In every run a verified or completed migration has left only dust behind. */
  lemma {:induction false} VerifiedStaysDrained(states: seq<State>, moves: seq<Move>, n: nat)
    requires Run(states, moves) && n <= |moves| && Fresh(states[0].rec)
    requires forall i :: 0 <= i < |moves| ==> NoLegacyCredit(states[i], moves[i])
    ensures VerifiedIsDrained(states[n])
  {
    if n > 0 {
      VerifiedStaysDrained(states, moves, n - 1);
      assert Next(states[n - 1], states[n], moves[n - 1]) && NoLegacyCredit(states[n - 1], moves[n - 1]);
      DrainedNext(states[n - 1], states[n], moves[n - 1]);
    }
  }

  // ---------------------------------------------------------------------------
  // The fee, and the payments of it that were not recorded

  /** A fee left the treasury and its transaction was not recorded. */
  predicate LosesFee(s: State, t: State, move: Move) {
    move.StepForward? && HowMany(s.payments, OfFee) < HowMany(t.payments, OfFee) && t.rec.feeTx == None
  }

  function LostFees(states: seq<State>, moves: seq<Move>): nat
    requires |states| == |moves| + 1
    decreases |moves|
  {
    if moves == [] then 0
    else LostFees(states[..|moves|], moves[..|moves| - 1])
         + if LosesFee(states[|moves| - 1], states[|moves|], moves[|moves| - 1]) then 1 else 0
  }

  function RecordedFees(m: Migration): nat { if m.feeTx.Some? then 1 else 0 }

  lemma {:induction false} FeeStep(s: State, t: State, o: Replies)
    requires Consistent(s.rec) && ForwardStep(s, t, o)
    ensures HowMany(t.payments, OfFee) + RecordedFees(s.rec)
            == HowMany(s.payments, OfFee) + RecordedFees(t.rec) + if LosesFee(s, t, StepForward(o)) then 1 else 0
  {
    if s.rec.status == FeeInvoiceCreated {
      if CanAdvance(s, o) { HowManyAppend(s.payments, FeePayment(s, o), OfFee); }
    } else {
      NoFeeElsewhere(s, t, o);
    }
  }

  lemma {:induction false} NoFeeElsewhere(s: State, t: State, o: Replies)
    requires Consistent(s.rec) && ForwardStep(s, t, o) && s.rec.status != FeeInvoiceCreated
    ensures HowMany(t.payments, OfFee) == HowMany(s.payments, OfFee) && t.rec.feeTx == s.rec.feeTx
  {
    FeeTxElsewhere(s, t, o);
    if s.rec.status == InvoiceCreated { MovePaysNoFee(s, t, o); } else { OthersPayNothing(s, t, o); }
  }

  lemma {:induction false} MovePaysNoFee(s: State, t: State, o: Replies)
    requires ForwardStep(s, t, o) && s.rec.status == InvoiceCreated
    ensures HowMany(t.payments, OfFee) == HowMany(s.payments, OfFee)
  {
    if CanAdvance(s, o) { HowManyAppend(s.payments, ForwardMove(s.rec.source.value), OfFee); }
  }

  lemma {:induction false} FeeTxElsewhere(s: State, t: State, o: Replies)
    requires ForwardStep(s, t, o) && s.rec.status != FeeInvoiceCreated
    ensures t.rec.feeTx == s.rec.feeTx
  {}

  lemma {:induction false} FeeMove(s: State, t: State, move: Move)
    requires Consistent(s.rec) && Next(s, t, move)
    ensures HowMany(t.payments, OfFee) + RecordedFees(s.rec)
            == HowMany(s.payments, OfFee) + RecordedFees(t.rec) + if LosesFee(s, t, move) then 1 else 0
  {
    match move
    case StepForward(o) => FeeStep(s, t, o);
    case StepRollback(o, r) =>
      PassPaysReturns(s, t, o, r, OfFee);
      if s.rec.status == RollbackStarted { PassKeepsFeeTx(s, t, o, r); }
    case Control(e) => ControlKeepsMove(s.rec, e);
    case Outside(_) =>
  }

  lemma {:induction false} PassKeepsFeeTx(s: State, t: State, o: RollbackReplies, r: Outcome)
    requires Pass(s, t, o, r) && s.rec.status == RollbackStarted
    ensures t.rec.feeTx == s.rec.feeTx
  {
    PassFramed(s, t, o, r);
  }

  /** In every run the fees that left the treasury are the recorded one and one for each
      record that was lost. So a fee is paid once exactly if no record of it is lost. */
  lemma {:induction false} FeesPaidAreRecordedOrLost(states: seq<State>, moves: seq<Move>)
    requires Run(states, moves) && Fresh(states[0].rec) && states[0].payments == []
    ensures Consistent(states[|moves|].rec)
    ensures HowMany(states[|moves|].payments, OfFee)
            == RecordedFees(states[|moves|].rec) + LostFees(states, moves)
    decreases |moves|
  {
    if moves == [] {
      FreshIsConsistent(states[0].rec);
    } else {
      var n := |moves| - 1;
      RunPrefix(states, moves);
      FeesPaidAreRecordedOrLost(states[..n + 1], moves[..n]);
      MoveKeepsRecord(states[n], states[n + 1], moves[n]);
      FeeMove(states[n], states[n + 1], moves[n]);
    }
  }

  lemma {:induction false} FeeIsCounted(s: State, t: State, o: Replies)
    requires s.rec.status == FeeInvoiceCreated && CanAdvance(s, o) && t.payments == Advanced(s, o).payments
    ensures HowMany(t.payments, OfFee) == HowMany(s.payments, OfFee) + 1
  {
    HowManyAppend(s.payments, FeePayment(s, o), OfFee);
  }

  /** And a lost one is paid again when the step is resumed, exactly if the treasury can
      still pay it: no amount or invoice stands in the way. */
  lemma {:induction false} LostFeeRepeatsIff(s: State, t: State, o: Replies, again: Replies)
    requires s.rec.status == FeeInvoiceCreated && CanAdvance(s, o)
    requires t.wallets == Advanced(s, o).wallets && t.payments == Advanced(s, o).payments && t.lastRead == s.lastRead
    requires t.rec == s.rec || t.rec == Payable(s.rec, o)
    ensures Next(s, t, StepForward(o))
    ensures CanAdvance(t, again) <==> 2 * MicrosToPico(s.rec.fee.value) <= s.wallets.treasury
    ensures CanAdvance(t, again) ==>
              && Next(t, Advanced(t, again), StepForward(again))
              && HowMany(Advanced(t, again).payments, OfFee) == HowMany(s.payments, OfFee) + 2
  {
    FeeIsCounted(s, t, o);
    if CanAdvance(t, again) { FeeIsCounted(t, Advanced(t, again), again); }
  }
}
