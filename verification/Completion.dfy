/** The forward half gets there: no balance is left behind when the default wallet is
    switched, and with every service working a migration completes. */
module Completion {
  import opened Common
  import opened Amounts
  import opened Migrations
  import opened Sagas
  import opened Forward
  import opened ForwardRuns
  import opened Rollback
  import opened RollbackRuns
  import opened Conservation

  // ---------------------------------------------------------------------------
  // Moved before the switch

  predicate BehindSwitch(s: Status) { s.PointerFlipped? || s.LegacyZeroVerified? || s.Complete? }

  predicate Delivered(m: Migration) { BehindSwitch(m.status) ==> m.moveTx.Some? || m.target == Some(0) }

  /** A retry that takes a stored previous default for a finished switch. */
  predicate Resumes(s: State, move: Move) {
    move.Control? && move.event == Transition(Failed, PointerFlipped, Nothing) && s.rec.status == Failed
  }

  lemma {:induction false} DeliveredForward(s: State, t: State, o: Replies)
    requires Delivered(s.rec) && Consistent(s.rec) && ForwardStep(s, t, o)
    ensures Delivered(t.rec)
  {
    if CanAdvance(s, o) && t.rec == Advanced(s, o).rec {
      match s.rec.status
      case BalanceRead =>
      case FeeReimbursed =>
      case PointerFlipped =>
      case LegacyZeroVerified =>
      case _ =>
    }
  }

  lemma {:induction false} DeliveredControl(s: State, e: Event)
    requires Delivered(s.rec) && IsControl(e) && Issued(s.rec, e) && !Resumes(s, Control(e))
    ensures Delivered(Apply(s.rec, e))
  {
    match e
    case Transition(_, _, _) =>
    case Acquire(_, _) =>
    case Release(_) =>
    case MarkFailed(_, _) =>
  }

  /** In every run, as long as no retry resumes the record behind the switch: one that got
      there, or completed, has its balance moved on record or had none to move. */
  lemma {:induction false} SwitchedIsDelivered(states: seq<State>, moves: seq<Move>, n: nat)
    requires Run(states, moves) && n <= |moves| && Fresh(states[0].rec)
    requires forall i :: 0 <= i < |moves| ==> !Resumes(states[i], moves[i])
    ensures Delivered(states[n].rec) && Consistent(states[n].rec)
  {
    if n == 0 {
      FreshIsConsistent(states[0].rec);
    } else {
      SwitchedIsDelivered(states, moves, n - 1);
      var s, t := states[n - 1], states[n];
      assert Next(s, t, moves[n - 1]) && !Resumes(s, moves[n - 1]);
      MoveKeepsRecord(s, t, moves[n - 1]);
      match moves[n - 1]
      case StepForward(o) => DeliveredForward(s, t, o);
      case StepRollback(o, r) => if s.rec.status == RollbackStarted { PassFramed(s, t, o, r); }
      case Control(e) => DeliveredControl(s, e);
      case Outside(_) =>
    }
  }

  // ---------------------------------------------------------------------------
  // Thirteen steps

  /** What Execute promises of one step. */
  ghost predicate Executed(s: State, t: State, o: Replies) {
    if Terminal(s.rec.status) then t == s else exists r :: StepDone(s, t, o, r)
  }

  /** Steps taken one after the other with every service working. */
  ghost predicate Working(states: seq<State>, os: seq<Replies>) {
    && |states| == |os| + 1
    && forall i :: 0 <= i < |os| ==> AllWork(os[i]) && Executed(states[i], states[i + 1], os[i])
  }

  function Due(w: Wallets): nat { MicrosOf(PreciseUnits(w.legacy)) }

  /** The fee if so much of the balance payment arrives. */
  function FeeOf(w: Wallets, arrived: nat): nat {
    DestinationShortfall(Due(w), ReadMicros(w.destination), ReadMicros(w.destination + arrived))
  }

  /** The treasury can pay it, or need not. */
  predicate Covered(w: Wallets, arrived: nat) {
    FeeOf(w, arrived) < MIN_PAYABLE_MICROS || MicrosToPico(FeeOf(w, arrived)) <= w.treasury
  }

  predicate Unmoved(w: Wallets, s: State) {
    SameMoney(w, s.wallets) && s.payments == [] && s.rec.moveTx == None
  }

  predicate BalanceMoved(w: Wallets, s: State) {
    && Recorded(w, s.rec) && LegacyMoved(w, s.wallets) && Due(w) != 0 && s.rec.moveTx.Some?
    && ForwardMove(PreciseUnits(w.legacy)) in s.payments
  }

  predicate FeeOpen(w: Wallets, arrived: nat, s: State) {
    BalanceMoved(w, s) && s.wallets.destination == w.destination + arrived && s.wallets.treasury == w.treasury
  }

  /** Where such a migration stands at each status. */
  predicate OnTrack(w: Wallets, arrived: nat, s: State) {
    && Consistent(s.rec)
    && match s.rec.status
       case NotStarted => Unmoved(w, s)
       case Started => Unmoved(w, s)
       case Provisioned => Unmoved(w, s)
       case BalanceRead => Unmoved(w, s) && Recorded(w, s.rec)
       case InvoiceCreated => Unmoved(w, s) && Recorded(w, s.rec) && Due(w) != 0
       case BalanceMoveSending => FeeOpen(w, arrived, s)
       case BalanceMoveSent => FeeOpen(w, arrived, s)
       case BalanceMoveVerified => FeeOpen(w, arrived, s)
       case FeeInvoiceCreated => FeeOpen(w, arrived, s) && s.rec.fee == Some(FeeOf(w, arrived))
       case FeeSending => BalanceMoved(w, s) && Covered(w, arrived)
       case FeeReimbursed => BalanceMoved(w, s) && Covered(w, arrived)
       case PointerFlipped => Through(w, arrived, s)
       case LegacyZeroVerified => Through(w, arrived, s)
       case Complete => Through(w, arrived, s)
       case _ => false
  }

  predicate Through(w: Wallets, arrived: nat, s: State) {
    || (BalanceMoved(w, s) && Covered(w, arrived))
    || (Unmoved(w, s) && Due(w) == 0)
  }

  /** Only a treasury that cannot pay the fee stops it. */
  predicate Stuck(w: Wallets, arrived: nat, s: State) {
    s.rec.status == FeeInvoiceCreated && !Covered(w, arrived)
  }

  lemma {:induction false} NothingDueIsDust(w: Wallets)
    requires Due(w) == 0
    ensures OnlyDust(w.legacy)
  {}

  lemma {:induction false} MovedLeavesDust(w: Wallets, v: Wallets)
    requires LegacyMoved(w, v)
    ensures OnlyDust(v.legacy)
  {}

  lemma {:induction false} TrackAdvances(w: Wallets, arrived: nat, s: State, o: Replies)
    requires OnTrack(w, arrived, s) && s.rec.status != Complete && !Stuck(w, arrived, s)
    ensures CanAdvance(s, o)
  {
    match s.rec.status
    case BalanceMoveSent => MovedLeavesDust(w, s.wallets);
    case PointerFlipped => if Due(w) == 0 { NothingDueIsDust(w); } else { MovedLeavesDust(w, s.wallets); }
    case _ =>
  }

  lemma {:induction false} TrackToPayment(w: Wallets, arrived: nat, s: State, o: Replies)
    requires OnTrack(w, arrived, s) && CanAdvance(s, o) && Rank(s.rec.status) <= 3 && Consistent(Advanced(s, o).rec)
    ensures OnTrack(w, arrived, Advanced(s, o))
    ensures Rank(Advanced(s, o).rec.status) == Rank(s.rec.status) + 1 || Advanced(s, o).rec.status == PointerFlipped
  {
    match s.rec.status
    case NotStarted =>
    case Started =>
    case Provisioned =>
    case BalanceRead =>
  }

  lemma {:induction false} TrackPaying(w: Wallets, s: State, o: Replies)
    requires OnTrack(w, o.arrived, s) && CanAdvance(s, o) && s.rec.status == InvoiceCreated && Consistent(Advanced(s, o).rec)
    ensures OnTrack(w, o.arrived, Advanced(s, o))
  {}

  lemma {:induction false} TrackFeeRead(w: Wallets, arrived: nat, s: State, o: Replies)
    requires OnTrack(w, arrived, s) && CanAdvance(s, o) && s.rec.status == BalanceMoveVerified && Consistent(Advanced(s, o).rec)
    ensures OnTrack(w, arrived, Advanced(s, o))
  {
    assert FeeDue(s) == FeeOf(w, arrived);
  }

  lemma {:induction false} TrackFeePaid(w: Wallets, arrived: nat, s: State, o: Replies)
    requires OnTrack(w, arrived, s) && CanAdvance(s, o) && s.rec.status == FeeInvoiceCreated && Consistent(Advanced(s, o).rec)
    ensures OnTrack(w, arrived, Advanced(s, o))
  {}

  lemma {:induction false} TrackVerifying(w: Wallets, arrived: nat, s: State, o: Replies)
    requires OnTrack(w, arrived, s) && CanAdvance(s, o) && Consistent(Advanced(s, o).rec)
    requires s.rec.status == BalanceMoveSending || s.rec.status == BalanceMoveSent
    ensures OnTrack(w, arrived, Advanced(s, o))
  {}

  lemma {:induction false} TrackToEnd(w: Wallets, arrived: nat, s: State, o: Replies)
    requires OnTrack(w, arrived, s) && CanAdvance(s, o) && Rank(s.rec.status) > 8 && Consistent(Advanced(s, o).rec)
    ensures OnTrack(w, arrived, Advanced(s, o))
  {
    match s.rec.status
    case FeeSending =>
    case FeeReimbursed =>
    case PointerFlipped =>
    case LegacyZeroVerified =>
  }

  lemma {:induction false} TrackPaid(w: Wallets, arrived: nat, s: State, o: Replies)
    requires OnTrack(w, arrived, s) && CanAdvance(s, o) && Rank(s.rec.status) > 4 && Consistent(Advanced(s, o).rec)
    ensures OnTrack(w, arrived, Advanced(s, o))
  {
    if s.rec.status == BalanceMoveVerified {
      TrackFeeRead(w, arrived, s, o);
    } else if s.rec.status == FeeInvoiceCreated {
      TrackFeePaid(w, arrived, s, o);
    } else if Rank(s.rec.status) > 8 {
      TrackToEnd(w, arrived, s, o);
    } else {
      TrackVerifying(w, arrived, s, o);
    }
  }

  lemma {:induction false} StuckStays(w: Wallets, arrived: nat, s: State, t: State, o: Replies, r: Outcome)
    requires OnTrack(w, arrived, s) && Stuck(w, arrived, s) && StepDone(s, t, o, r) && Consistent(t.rec)
    ensures OnTrack(w, arrived, t) && Stuck(w, arrived, t)
  {}

  /** One step: further, or already at the end, or stuck. */
  predicate Further(w: Wallets, arrived: nat, s: State, t: State) {
    || (s.rec.status == Complete && t == s)
    || (Stuck(w, arrived, s) && Stuck(w, arrived, t))
    || (Rank(s.rec.status) <= 3 && (Rank(t.rec.status) == Rank(s.rec.status) + 1 || t.rec.status == PointerFlipped))
    || (Rank(s.rec.status) > 3 && Rank(t.rec.status) > Rank(s.rec.status))
  }

  lemma {:induction false} TrackStep(w: Wallets, arrived: nat, s: State, t: State, o: Replies)
    requires OnTrack(w, arrived, s) && AllWork(o) && Executed(s, t, o)
    requires s.rec.status == InvoiceCreated ==> o.arrived == arrived
    ensures OnTrack(w, arrived, t) && Further(w, arrived, s, t)
  {
    if s.rec.status != Complete {
      var r :| StepDone(s, t, o, r);
      MoveKeepsRecord(s, t, StepForward(o));
      if Stuck(w, arrived, s) {
        StuckStays(w, arrived, s, t, o, r);
      } else {
        TrackAdvances(w, arrived, s, o);
        RankStep(s, o);
        if Rank(s.rec.status) <= 3 {
          TrackToPayment(w, arrived, s, o);
        } else if s.rec.status == InvoiceCreated {
          TrackPaying(w, s, o);
        } else {
          TrackPaid(w, arrived, s, o);
        }
      }
    }
  }

  /** After i steps; the balance is paid in the fifth. */
  predicate InTime(w: Wallets, arrived: nat, s: State, i: nat) {
    && (Rank(s.rec.status) <= 4 ==> Rank(s.rec.status) == i)
    && (Rank(s.rec.status) >= i || s.rec.status == Complete || Stuck(w, arrived, s))
  }

  lemma {:induction false} TrackRun(states: seq<State>, os: seq<Replies>, n: nat)
    requires Working(states, os) && Fresh(states[0].rec) && states[0].payments == [] && 4 < |os| && n <= |os|
    ensures OnTrack(states[0].wallets, os[4].arrived, states[n])
    ensures InTime(states[0].wallets, os[4].arrived, states[n], n)
  {
    if n == 0 {
      FreshIsConsistent(states[0].rec);
    } else {
      TrackRun(states, os, n - 1);
      assert AllWork(os[n - 1]) && Executed(states[n - 1], states[n], os[n - 1]);
      TrackStep(states[0].wallets, os[4].arrived, states[n - 1], states[n], os[n - 1]);
    }
  }

  /** With every service working and nobody else moving the wallets, thirteen steps
      complete a new migration exactly if there is nothing to move, or the treasury can
      pay the fee that what arrived of the balance payment leaves due. The balance is then
      in the log exactly if its rounded value is not zero. */
  lemma {:induction false} CompletesIff(states: seq<State>, os: seq<Replies>)
    requires Working(states, os) && |os| == 13 && Fresh(states[0].rec) && states[0].payments == []
    ensures var w, t := states[0].wallets, states[13];
            && (t.rec.status == Complete <==> Due(w) == 0 || Covered(w, os[4].arrived))
            && (ForwardMove(PreciseUnits(w.legacy)) in t.payments <==> Due(w) != 0)
            && OnlyDust(t.wallets.legacy)
  {
    TrackRun(states, os, 13);
    var w, t := states[0].wallets, states[13];
    if Due(w) == 0 { NothingDueIsDust(w); } else { MovedLeavesDust(w, t.wallets); }
  }
}
