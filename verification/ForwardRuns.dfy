/** Forward steps against the record: they write it by issued events only, and
    success raises a rank. */
module ForwardRuns {
  import opened Common
  import opened Amounts
  import opened Migrations
  import opened Sagas
  import opened Forward

  /** A step writes the record only through issued events. */
  lemma {:induction false} StepIsIssued(s: State, t: State, o: Replies)
    requires ForwardStep(s, t, o) && Consistent(s.rec)
    ensures Reaches(s.rec, t.rec)
  {
    ReachesSelf(s.rec);
    if t.rec != s.rec {
      if Required(s.rec, o.stale) && t.rec == Payable(s.rec, o) {
        RefreshIsIssued(s.rec, s.rec, o);
      } else {
        AdvanceIsIssued(s, o);
      }
    }
  }

  lemma {:induction false} RefreshIsIssued(m: Migration, n: Migration, o: Replies)
    requires Consistent(m) && Reaches(m, n) && Consistent(n) && Required(n, o.stale)
    ensures Reaches(m, Payable(n, o))
  {
    if o.stale && n.status == InvoiceCreated {
      ReachesStep(m, n, Transition(InvoiceCreated, InvoiceCreated, MoveInvoiced(NewInvoice(o))));
    } else if o.stale && n.status == FeeInvoiceCreated {
      var fee := n.fee.value;
      ReachesStep(m, n, Transition(FeeInvoiceCreated, FeeInvoiceCreated, FeeInvoiced(fee, FeeInvoiceFor(o, fee))));
    }
  }

  /** The event that ends a successful step. */
  function StepEvent(s: State, o: Replies): Event
    requires CanAdvance(s, o)
  {
    match s.rec.status
    case NotStarted => Transition(NotStarted, Started, Nothing)
    case Started => Transition(Started, Provisioned, Nothing)
    case Provisioned =>
      Transition(Provisioned, BalanceRead,
                 BalanceRecorded(PreciseUnits(s.wallets.legacy), ReadMicros(s.wallets.destination)))
    case BalanceRead =>
      if s.rec.target == Some(0) then Transition(BalanceRead, PointerFlipped, PointerSwapped(s.wallets.pointer))
      else Transition(BalanceRead, InvoiceCreated, MoveInvoiced(NewInvoice(o)))
    case InvoiceCreated => Transition(InvoiceCreated, BalanceMoveSending, MovePaid(o.tx))
    case BalanceMoveSending => Transition(BalanceMoveSending, BalanceMoveSent, Nothing)
    case BalanceMoveSent => Transition(BalanceMoveSent, BalanceMoveVerified, Nothing)
    case BalanceMoveVerified =>
      var fee := FeeDue(s);
      if fee < MIN_PAYABLE_MICROS then Transition(BalanceMoveVerified, FeeReimbursed, FeeAbsorbed(fee))
      else Transition(BalanceMoveVerified, FeeInvoiceCreated, FeeInvoiced(fee, FeeInvoiceFor(o, fee)))
    case FeeInvoiceCreated => Transition(FeeInvoiceCreated, FeeSending, FeePaid(o.tx))
    case FeeSending => Transition(FeeSending, FeeReimbursed, Nothing)
    case FeeReimbursed => Transition(FeeReimbursed, PointerFlipped, PointerSwapped(s.wallets.pointer))
    case PointerFlipped => Transition(PointerFlipped, LegacyZeroVerified, Nothing)
    case LegacyZeroVerified => Transition(LegacyZeroVerified, Complete, Nothing)
  }

  lemma {:induction false} AdvanceIsIssued(s: State, o: Replies)
    requires CanAdvance(s, o) && Consistent(s.rec)
    ensures Reaches(s.rec, Advanced(s, o).rec)
  {
    ReachesSelf(s.rec);
    RefreshIsIssued(s.rec, s.rec, o);
    ReachesStep(s.rec, Payable(s.rec, o), StepEvent(s, o));
  }

  // ---------------------------------------------------------------------------
  // What a step leaves alone

  /** Only two steps pay. */
  lemma {:induction false} OthersPayNothing(s: State, t: State, o: Replies)
    requires ForwardStep(s, t, o) && s.rec.status != InvoiceCreated && s.rec.status != FeeInvoiceCreated
    ensures t.payments == s.payments && t.wallets.legacy == s.wallets.legacy
    ensures t.wallets.destination == s.wallets.destination && t.wallets.treasury == s.wallets.treasury
  {}

  /** Only the balance payment records its transaction, and only one step a source. */
  lemma {:induction false} OthersKeepMove(s: State, t: State, o: Replies)
    requires ForwardStep(s, t, o) && s.rec.status != InvoiceCreated
    ensures t.rec.moveTx == s.rec.moveTx
    ensures t.rec.source == s.rec.source || (s.rec.status == Provisioned && t.rec.source == Some(PreciseUnits(s.wallets.legacy)))
  {}

  // ---------------------------------------------------------------------------
  // Termination

  function Rank(s: Status): nat {
    match s
    case NotStarted => 0
    case Started => 1
    case Provisioned => 2
    case BalanceRead => 3
    case InvoiceCreated => 4
    case BalanceMoveSending => 5
    case BalanceMoveSent => 6
    case BalanceMoveVerified => 7
    case FeeInvoiceCreated => 8
    case FeeSending => 9
    case FeeReimbursed => 10
    case PointerFlipped => 11
    case LegacyZeroVerified => 12
    case _ => 13
  }

  /** The failure edges of the table: from every step under way to `failed`, and to review
      from the invoice of the balance move to the payment of the fee. */
  lemma {:induction false} FailureEdges(s: Status)
    ensures CanTransition(s, Failed) <==> s == RollbackStarted || 1 <= Rank(s) <= 12
    ensures CanTransition(s, RequiresReview) <==> s == RollbackStarted || 4 <= Rank(s) <= 9
  {}

  lemma {:induction false} RankStep(s: State, o: Replies)
    requires CanAdvance(s, o)
    ensures Rank(s.rec.status) < Rank(Advanced(s, o).rec.status) <= 13
    ensures Terminal(Advanced(s, o).rec.status) ==> Advanced(s, o).rec.status == Complete
  {}
}
