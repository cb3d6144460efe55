/** Whole runs of one migration: forward steps, rollback passes, operator and
    runner actions, and outside movements of the wallets, in any order. */
module RollbackRuns {
  import opened Common
  import opened Amounts
  import opened Migrations
  import opened Sagas
  import opened Forward
  import opened ForwardRuns
  import opened Rollback

  datatype Move =
    | StepForward(forward: Replies)
    | StepRollback(rollback: RollbackReplies, outcome: Outcome)
    | Control(event: Event)
    | Outside(wallets: Wallets)

  /** What the runner and the operator do besides stepping: locks, failure marks,
      rollback requests, retries. */
  predicate IsControl(e: Event) {
    e.Transition? ==> e.change.RollbackRequested? || e.from == Failed
  }

  predicate Next(s: State, t: State, move: Move) {
    match move
    case StepForward(o) => ForwardStep(s, t, o)
    case StepRollback(o, r) => Pass(s, t, o, r)
    case Control(e) => IsControl(e) && Issued(s.rec, e) && t == s.(rec := Apply(s.rec, e))
    case Outside(w) => t == s.(wallets := w)
  }

  predicate Run(states: seq<State>, moves: seq<Move>) {
    && |states| == |moves| + 1
    && forall i :: 0 <= i < |moves| ==> Next(states[i], states[i + 1], moves[i])
  }

  /** Some run leads from s to t. */
  ghost predicate Leads(s: State, t: State) {
    exists states, moves :: RunBetween(states, moves, s, t)
  }

  predicate RunBetween(states: seq<State>, moves: seq<Move>, s: State, t: State) {
    Run(states, moves) && states[0] == s && states[|moves|] == t
  }

  lemma {:induction false} LeadsSelf(s: State)
    ensures Leads(s, s)
  {
    assert RunBetween([s], [], s, s);
  }

  lemma {:induction false} LeadsOn(s: State, t: State, u: State, move: Move)
    requires Leads(s, t) && Next(t, u, move)
    ensures Leads(s, u)
  {
    var states, moves :| RunBetween(states, moves, s, t);
    RunOn(states, moves, u, move);
    assert RunBetween(states + [u], moves + [move], s, u);
  }

  lemma {:induction false} RunOn(states: seq<State>, moves: seq<Move>, u: State, move: Move)
    requires Run(states, moves) && Next(states[|moves|], u, move)
    ensures Run(states + [u], moves + [move])
  {
    var ss, ms := states + [u], moves + [move];
    forall i | 0 <= i < |ms| ensures Next(ss[i], ss[i + 1], ms[i]) {
      if i < |moves| { assert Next(states[i], states[i + 1], moves[i]); }
    }
  }

  // ---------------------------------------------------------------------------
  // A pass writes only issued events

  lemma {:induction false} PassIsIssued(s: State, t: State, o: RollbackReplies, r: Outcome)
    requires Pass(s, t, o, r) && Consistent(s.rec)
    ensures Reaches(s.rec, t.rec)
  {
    ReachesSelf(s.rec);
    if s.rec.status == RollbackStarted && !(r.Err? && PointerInterrupted(s, t) && t.rec == s.rec) {
      PointerIsIssued(s);
      var p := PointerDone(s);
      if !(r.Err? && PointerInterrupted(s, t)) {
        if r.Err? && ReverseInterrupted(p, t, o.reverse) {
          ReverseIsIssued(s.rec, p, o.reverse);
        } else {
          ReverseIsIssued(s.rec, p, o.reverse);
          FinishIsIssued(s.rec, ReverseDone(p, o.reverse), t, o, r);
        }
      }
    }
  }

  lemma {:induction false} PointerIsIssued(s: State)
    requires s.rec.status == RollbackStarted
    ensures Reaches(s.rec, PointerDone(s).rec) && PointerDone(s).rec.status == RollbackStarted
  {
    ReachesSelf(s.rec);
    ReachesStep(s.rec, s.rec, Transition(RollbackStarted, RollbackStarted, PointerRestored));
  }

  lemma {:induction false} ReverseIsIssued(m: Migration, s: State, p: PayReplies)
    requires Reaches(m, s.rec) && s.rec.status == RollbackStarted
    ensures Reaches(m, ReverseInvoicedRecord(s.rec, p))
    ensures (NeedsReverse(s.rec) ==> ReverseAllowed(s)) ==>
              Reaches(m, ReverseDone(s, p).rec) && ReverseDone(s, p).rec.status == RollbackStarted
  {
    ReachesStep(m, s.rec, Transition(RollbackStarted, RollbackStarted, ReverseInvoiced(FreshInvoice(p))));
    var n := ReverseInvoicedRecord(s.rec, p);
    ReachesStep(m, n, Transition(RollbackStarted, RollbackStarted, ReversePaid(p.tx)));
  }

  lemma {:induction false} FinishIsIssued(m: Migration, s: State, t: State, o: RollbackReplies, r: Outcome)
    requires Reaches(m, s.rec) && s.rec.status == RollbackStarted && FinishPhase(s, t, o, r)
    ensures Reaches(m, t.rec) && (t.rec.status == RollbackStarted || t.rec.status == RolledBack)
  {
    FinishRecord(s, t, o, r);
    if t.rec == s.rec {
    } else if t.rec == s.rec.(status := RolledBack) {
      RolledBackIsIssued(m, s.rec);
    } else {
      TopUpIsIssued(m, s.rec, Short(s), o.topUp);
    }
  }

  lemma {:induction false} RolledBackIsIssued(m: Migration, n: Migration)
    requires Reaches(m, n) && n.status == RollbackStarted
    ensures Reaches(m, n.(status := RolledBack))
  {
    ReachesStep(m, n, Transition(RollbackStarted, RolledBack, Nothing));
  }

  /** The records the last phase may leave. */
  lemma {:induction false} FinishRecord(s: State, t: State, o: RollbackReplies, r: Outcome)
    requires FinishPhase(s, t, o, r)
    ensures || t.rec == s.rec || t.rec == s.rec.(status := RolledBack)
            || (s.rec.source.Some?
                && var invoiced := TopUpInvoicedRecord(s.rec, Short(s), o.topUp);
                   t.rec == invoiced || t.rec == Patched(invoiced, TopUpPaid(o.topUp.tx)))
  {}

  lemma {:induction false} TopUpIsIssued(m: Migration, n: Migration, short: nat, p: PayReplies)
    requires Reaches(m, n) && n.status == RollbackStarted
    ensures Reaches(m, TopUpInvoicedRecord(n, short, p))
    ensures Reaches(m, Patched(TopUpInvoicedRecord(n, short, p), TopUpPaid(p.tx)))
  {
    ReachesStep(m, n, Transition(RollbackStarted, RollbackStarted, TopUpInvoiced(short, FreshInvoice(p))));
    var invoiced := TopUpInvoicedRecord(n, short, p);
    ReachesStep(m, invoiced, Transition(RollbackStarted, RollbackStarted, TopUpPaid(p.tx)));
  }

  /** What a pass leaves of a record, and of the default wallet without a previous one. */
  predicate Framed(s: State, t: State) {
    && t.rec.source == s.rec.source && t.rec.target == s.rec.target && t.rec.starting == s.rec.starting
    && t.rec.moveTx == s.rec.moveTx && t.rec.feeTx == s.rec.feeTx
    && t.rec.previousDefault == s.rec.previousDefault
    && t.rec.destinationWallet == s.rec.destinationWallet
    && (t.rec.status == RollbackStarted || t.rec.status == RolledBack)
    && (s.rec.previousDefault == None ==> t.wallets.pointer == s.wallets.pointer)
  }

  lemma {:induction false} ReverseFramed(s: State, t: State, p: PayReplies)
    requires s.rec.status == RollbackStarted
    requires || ((NeedsReverse(s.rec) ==> ReverseAllowed(s)) && t == ReverseDone(s, p))
             || ReverseInterrupted(s, t, p)
    ensures Framed(s, t) && t.rec.status == RollbackStarted && t.wallets.pointer == s.wallets.pointer
    ensures t.rec.rollback.pointerRestored == s.rec.rollback.pointerRestored
  {}

  lemma {:induction false} FinishFramed(s: State, t: State, o: RollbackReplies, r: Outcome)
    requires s.rec.status == RollbackStarted && FinishPhase(s, t, o, r)
    ensures Framed(s, t) && t.wallets.pointer == s.wallets.pointer
    ensures t.rec.rollback.pointerRestored == s.rec.rollback.pointerRestored
  {
    FinishRecord(s, t, o, r);
  }

  lemma {:induction false} PassFramed(s: State, t: State, o: RollbackReplies, r: Outcome)
    requires Pass(s, t, o, r) && s.rec.status == RollbackStarted
    ensures Framed(s, t)
  {
    var p := PointerDone(s);
    assert Framed(s, p) && p.rec.status == RollbackStarted;
    if r.Err? && PointerInterrupted(s, t) {
    } else if r.Err? && ReverseInterrupted(p, t, o.reverse) {
      ReverseFramed(p, t, o.reverse);
    } else {
      var q := ReverseDone(p, o.reverse);
      ReverseFramed(p, q, o.reverse);
      FinishFramed(q, t, o, r);
    }
  }

  /** A pass touches the default wallet only where it is the USDT wallet, and then puts the
      recorded one back: a choice the user made meanwhile stays. */
  lemma {:induction false} PassLeavesOwnDefault(s: State, t: State, o: RollbackReplies, r: Outcome)
    requires Pass(s, t, o, r)
    ensures t.wallets.pointer != s.wallets.pointer ==>
              s.wallets.pointer == s.rec.destinationWallet && s.rec.previousDefault == Some(t.wallets.pointer)
  {
    if s.rec.status == RollbackStarted {
      var p := PointerDone(s);
      if r.Err? && PointerInterrupted(s, t) {
      } else if r.Err? && ReverseInterrupted(p, t, o.reverse) {
        ReverseFramed(p, t, o.reverse);
      } else {
        var q := ReverseDone(p, o.reverse);
        ReverseFramed(p, q, o.reverse);
        FinishFramed(q, t, o, r);
      }
    }
  }

  /** Every move keeps the record consistent and its recorded payments in place. */
  lemma {:induction false} MoveKeepsRecord(s: State, t: State, move: Move)
    requires Next(s, t, move) && Consistent(s.rec)
    ensures Consistent(t.rec) && KeepsPayments(s.rec, t.rec)
  {
    match move
    case StepForward(o) => StepIsIssued(s, t, o); ReachesKeeps(s.rec, t.rec);
    case StepRollback(o, r) => PassIsIssued(s, t, o, r); ReachesKeeps(s.rec, t.rec);
    case Control(e) => ConsistentStep(s.rec, e); KeepsPaymentsStep(s.rec, e);
    case Outside(_) =>
  }

  // ---------------------------------------------------------------------------
  // Safety of every run

  /** What a payment must satisfy on its own. */
  predicate Sound(p: Payment) {
    match p
    case ForwardMove(_) => true
    case FeeReimbursement(moved, fixed, sender) =>
      && 2500 <= moved
      && (if moved >= 10000 then fixed == Some(moved) && sender == None else fixed == None && sender == Some(moved))
    case Reverse(micros, target, spendable) =>
      && micros <= target && micros <= spendable && (micros == target || micros == spendable)
      && target <= micros + 10000 && 2500 <= micros
    case TopUp(micros) => micros > 10000
  }

  predicate IsReturn(p: Payment) { p.Reverse? || p.TopUp? }

  predicate AllSound(ps: seq<Payment>) { forall p :: p in ps ==> Sound(p) }

  predicate Returned(ps: seq<Payment>) { exists p :: p in ps && IsReturn(p) }

  /** The last legacy reading is at most a cent below the recorded source. */
  predicate ReadWhole(s: State) {
    s.rec.source.Some? && s.lastRead.Some? && LegacyShortfall(s.rec.source.value, s.lastRead.value) <= TOLERANCE_MICROS
  }

  predicate Safe(s: State) {
    && Consistent(s.rec) && AllSound(s.payments)
    && (Returned(s.payments) ==> s.rec.moveTx.Some?)
    && (s.rec.status == RolledBack && s.rec.moveTx.Some? ==> ReadWhole(s))
  }

  /** Safety depends on the record, the log and the last reading only. */
  lemma {:induction false} SafeExtends(s: State, t: State)
    requires Safe(s) && Consistent(t.rec) && KeepsPayments(s.rec, t.rec)
    requires t.payments == s.payments || exists p ::
               t.payments == s.payments + [p] && Sound(p) && (IsReturn(p) ==> t.rec.moveTx.Some?)
    requires t.rec.status == RolledBack && t.rec.moveTx.Some? ==> ReadWhole(t)
    ensures Safe(t)
  {}

  lemma {:induction false} SafeForward(s: State, t: State, o: Replies)
    requires ForwardStep(s, t, o) && Safe(s)
    ensures Safe(t)
  {
    MoveKeepsRecord(s, t, StepForward(o));
    if Terminal(s.rec.status) {
      assert t == s;
    } else {
      if CanAdvance(s, o) { PaymentOfStep(s, o); }
      StatusOfStep(s, t, o);
      SafeExtends(s, t);
    }
  }

  lemma {:induction false} StatusOfStep(s: State, t: State, o: Replies)
    requires ForwardStep(s, t, o) && !Terminal(s.rec.status)
    ensures t.rec.status != RolledBack && t.rec.status != RollbackStarted
  {}

  lemma {:induction false} PaymentOfStep(s: State, o: Replies)
    requires CanAdvance(s, o) && Consistent(s.rec)
    ensures Advanced(s, o).payments == s.payments
            || exists p :: Advanced(s, o).payments == s.payments + [p] && Sound(p) && !IsReturn(p)
  {
    if s.rec.status == InvoiceCreated {
      var p := ForwardMove(s.rec.source.value);
      assert Advanced(s, o).payments == s.payments + [p];
    } else if s.rec.status == FeeInvoiceCreated {
      var fee := s.rec.fee.value;
      var p := FeeReimbursement(fee, Payable(s.rec, o).feeInvoice.value.amount,
                                if fee < MIN_FIXED_INVOICE_MICROS then Some(fee) else None);
      assert Advanced(s, o).payments == s.payments + [p];
    }
  }

  lemma {:induction false} SafeReverse(s: State, p: PayReplies)
    requires Safe(s) && s.rec.status == RollbackStarted && (NeedsReverse(s.rec) ==> ReverseAllowed(s))
    ensures Safe(ReverseDone(s, p))
  {
    if NeedsReverse(s.rec) {
      var paid := Reverse(ReverseAmount(s), s.rec.target.value, SpendableMicros(s.wallets.destination));
      assert Sound(paid);
      assert ReverseDone(s, p).payments == s.payments + [paid];
      SafeExtends(s, ReverseDone(s, p));
    }
  }

  lemma {:induction false} SafeTopUp(s: State, p: PayReplies)
    requires Safe(s) && s.rec.status == RollbackStarted && CanTopUp(s) && !Whole(s)
    ensures Safe(TopUpDone(s, p))
  {
    assert TopUpDone(s, p).payments == s.payments + [TopUp(Short(s))];
    SafeExtends(s, TopUpDone(s, p));
  }

  lemma {:induction false} SafeFinish(s: State, t: State, o: RollbackReplies, r: Outcome)
    requires Safe(s) && s.rec.status == RollbackStarted && FinishPhase(s, t, o, r)
    ensures Safe(t)
  {
    var read := if s.rec.moveTx.Some? then Reading(s) else s;
    if !Whole(s) && CanTopUp(s) { SafeTopUp(read, o.topUp); }
  }

  lemma {:induction false} SafePointer(s: State)
    requires Safe(s) && s.rec.status == RollbackStarted
    ensures Safe(PointerDone(s)) && PointerDone(s).rec.status == RollbackStarted
  {}

  lemma {:induction false} SafeInterrupted(s: State, t: State, p: PayReplies)
    requires Safe(s) && s.rec.status == RollbackStarted && ReverseInterrupted(s, t, p)
    ensures Safe(t)
  {
    if ReverseAllowed(s) { SafeReverse(s, p); }
  }

  lemma {:induction false} SafePhases(p: State, t: State, o: RollbackReplies, r: Outcome)
    requires Safe(p) && p.rec.status == RollbackStarted && (NeedsReverse(p.rec) ==> ReverseAllowed(p))
    requires FinishPhase(ReverseDone(p, o.reverse), t, o, r)
    ensures Safe(t)
  {
    SafeReverse(p, o.reverse);
    SafeFinish(ReverseDone(p, o.reverse), t, o, r);
  }

  lemma {:induction false} SafePass(s: State, t: State, o: RollbackReplies, r: Outcome)
    requires Pass(s, t, o, r) && Safe(s)
    ensures Safe(t)
  {
    if s.rec.status == RollbackStarted {
      SafePointer(s);
      var p := PointerDone(s);
      if r.Err? && PointerInterrupted(s, t) {
      } else if r.Err? && ReverseInterrupted(p, t, o.reverse) {
        SafeInterrupted(p, t, o.reverse);
      } else {
        SafePhases(p, t, o, r);
      }
    }
  }

  lemma {:induction false} SafeControl(s: State, e: Event)
    requires Safe(s) && IsControl(e) && Issued(s.rec, e)
    ensures Safe(s.(rec := Apply(s.rec, e)))
  {
    var t := s.(rec := Apply(s.rec, e));
    ConsistentStep(s.rec, e);
    KeepsPaymentsStep(s.rec, e);
    match e {
      case Transition(_, to, _) => assert to != RolledBack;
      case Acquire(_, _) =>
      case Release(_) =>
      case MarkFailed(_, _) =>
    }
    SafeExtends(s, t);
  }

  lemma {:induction false} SafeNext(s: State, t: State, move: Move)
    requires Next(s, t, move) && Safe(s)
    ensures Safe(t)
  {
    match move
    case StepForward(o) => SafeForward(s, t, o);
    case StepRollback(o, r) => SafePass(s, t, o, r);
    case Control(e) => SafeControl(s, e);
    case Outside(_) =>
  }

  /** In every run, however often interrupted, retried and resumed, and whatever else
      moves the wallets: every payment was within its bounds, nothing is returned
      without a recorded forward payment, and a rolled-back migration with one was
      last read within a cent of the recorded source. */
  lemma {:induction false} EveryRunIsSafe(states: seq<State>, moves: seq<Move>, n: nat)
    requires Run(states, moves) && n <= |moves|
    requires Fresh(states[0].rec) && states[0].payments == []
    ensures Safe(states[n]) && FieldsPresent(states[n].rec)
  {
    if n == 0 {
      FreshIsConsistent(states[0].rec);
    } else {
      EveryRunIsSafe(states, moves, n - 1);
      SafeNext(states[n - 1], states[n], moves[n - 1]);
    }
  }

  // ---------------------------------------------------------------------------
  // Fees

  /** Every fee reimbursement that left the treasury moved the fee on the record. */
  predicate FeesRecorded(s: State) {
    && Consistent(s.rec)
    && forall p :: p in s.payments && p.FeeReimbursement? ==>
         s.rec.fee == Some(p.moved) && s.rec.moveTx.Some? && !BeforeFee(s.rec.status)
  }

  lemma {:induction false} FeesForward(s: State, t: State, o: Replies)
    requires FeesRecorded(s) && ForwardStep(s, t, o)
    ensures FeesRecorded(t)
  {
    MoveKeepsRecord(s, t, StepForward(o));
    if !Terminal(s.rec.status) { FeeOfStep(s, t, o); }
  }

  lemma {:induction false} FeeOfStep(s: State, t: State, o: Replies)
    requires Consistent(s.rec) && ForwardStep(s, t, o) && !Terminal(s.rec.status)
    ensures !BeforeFee(s.rec.status) ==> !BeforeFee(t.rec.status) && t.rec.fee == s.rec.fee && t.rec.moveTx == s.rec.moveTx
    ensures forall p :: p in t.payments && p.FeeReimbursement? ==>
              p in s.payments || (s.rec.status == FeeInvoiceCreated && s.rec.fee == Some(p.moved))
  {
    match s.rec.status
    case InvoiceCreated =>
    case BalanceMoveVerified =>
    case FeeInvoiceCreated =>
    case _ =>
  }

  lemma {:induction false} FeesPass(s: State, t: State, o: RollbackReplies, r: Outcome)
    requires FeesRecorded(s) && Pass(s, t, o, r)
    ensures FeesRecorded(t)
  {
    MoveKeepsRecord(s, t, StepRollback(o, r));
    if s.rec.status == RollbackStarted { PassKeepsFees(s, t, o, r); }
  }

  /** Pays no fee, and leaves the recorded one alone. */
  predicate NoFee(s: State, t: State) {
    && t.rec.fee == s.rec.fee && t.rec.moveTx == s.rec.moveTx && !BeforeFee(t.rec.status)
    && forall p :: p in t.payments && p.FeeReimbursement? ==> p in s.payments
  }

  lemma {:induction false} ReverseNoFee(s: State, t: State, p: PayReplies)
    requires s.rec.status == RollbackStarted
    requires || ((NeedsReverse(s.rec) ==> ReverseAllowed(s)) && t == ReverseDone(s, p))
             || ReverseInterrupted(s, t, p)
    ensures NoFee(s, t) && t.rec.status == RollbackStarted
  {}

  lemma {:induction false} FinishNoFee(s: State, t: State, o: RollbackReplies, r: Outcome)
    requires s.rec.status == RollbackStarted && FinishPhase(s, t, o, r)
    ensures NoFee(s, t)
  {
    FinishRecord(s, t, o, r);
  }

  lemma {:induction false} PassKeepsFees(s: State, t: State, o: RollbackReplies, r: Outcome)
    requires Pass(s, t, o, r) && s.rec.status == RollbackStarted
    ensures NoFee(s, t)
  {
    var p := PointerDone(s);
    assert NoFee(s, p) && p.rec.status == RollbackStarted;
    if r.Err? && PointerInterrupted(s, t) {
    } else if r.Err? && ReverseInterrupted(p, t, o.reverse) {
      ReverseNoFee(p, t, o.reverse);
    } else {
      var q := ReverseDone(p, o.reverse);
      ReverseNoFee(p, q, o.reverse);
      FinishNoFee(q, t, o, r);
    }
  }

  lemma {:induction false} ControlKeepsFee(m: Migration, e: Event)
    requires m.moveTx.Some? && !BeforeFee(m.status) && IsControl(e) && Issued(m, e)
    ensures var n := Apply(m, e); n.fee == m.fee && n.moveTx == m.moveTx && !BeforeFee(n.status)
  {
    match e
    case Transition(_, _, _) =>
    case Acquire(_, _) =>
    case Release(_) =>
    case MarkFailed(_, _) =>
  }

  lemma {:induction false} FeesControl(s: State, e: Event)
    requires FeesRecorded(s) && IsControl(e) && Issued(s.rec, e)
    ensures FeesRecorded(s.(rec := Apply(s.rec, e)))
  {
    ConsistentStep(s.rec, e);
    if s.rec.moveTx.Some? && !BeforeFee(s.rec.status) { ControlKeepsFee(s.rec, e); }
  }

  /** Across any number of stale invoices, failures and resumptions, each fee payment
      moved exactly the recorded fee, which is never changed afterwards. */
  lemma {:induction false} FeesAreExact(states: seq<State>, moves: seq<Move>, n: nat)
    requires Run(states, moves) && n <= |moves|
    requires Fresh(states[0].rec) && states[0].payments == []
    ensures FeesRecorded(states[n])
  {
    if n == 0 {
      FreshIsConsistent(states[0].rec);
    } else {
      FeesAreExact(states, moves, n - 1);
      var s, t := states[n - 1], states[n];
      match moves[n - 1]
      case StepForward(o) => FeesForward(s, t, o);
      case StepRollback(o, r) => FeesPass(s, t, o, r);
      case Control(e) => FeesControl(s, e);
      case Outside(_) =>
    }
  }

  // ---------------------------------------------------------------------------
  // Counting payments

  datatype Kind = OfMove | OfFee | OfReverse | OfTopUp

  predicate IsA(p: Payment, kind: Kind) {
    match kind
    case OfMove => p.ForwardMove? && p.units > 0
    case OfFee => p.FeeReimbursement?
    case OfReverse => p.Reverse?
    case OfTopUp => p.TopUp?
  }

  function HowMany(ps: seq<Payment>, kind: Kind): nat {
    if ps == [] then 0 else HowMany(ps[..|ps| - 1], kind) + if IsA(ps[|ps| - 1], kind) then 1 else 0
  }

  lemma {:induction false} HowManyAppend(ps: seq<Payment>, p: Payment, kind: Kind)
    ensures HowMany(ps + [p], kind) == HowMany(ps, kind) + if IsA(p, kind) then 1 else 0
  {
    assert (ps + [p])[..|ps|] == ps;
  }

  /** A pass pays nothing forward. */
  lemma {:induction false} ReversePaysReturn(s: State, t: State, p: PayReplies, kind: Kind)
    requires kind == OfMove || kind == OfFee
    requires || ((NeedsReverse(s.rec) ==> ReverseAllowed(s)) && t == ReverseDone(s, p))
             || ReverseInterrupted(s, t, p)
    ensures HowMany(t.payments, kind) == HowMany(s.payments, kind)
  {
    if ReverseAllowed(s) {
      HowManyAppend(s.payments,
                    Reverse(ReverseAmount(s), s.rec.target.value, SpendableMicros(s.wallets.destination)), kind);
    }
  }

  lemma {:induction false} FinishPaysReturn(s: State, t: State, o: RollbackReplies, r: Outcome, kind: Kind)
    requires FinishPhase(s, t, o, r) && (kind == OfMove || kind == OfFee)
    ensures HowMany(t.payments, kind) == HowMany(s.payments, kind)
  {
    if s.rec.source.Some? { HowManyAppend(s.payments, TopUp(Short(s)), kind); }
  }

  lemma {:induction false} PassPaysReturns(s: State, t: State, o: RollbackReplies, r: Outcome, kind: Kind)
    requires Pass(s, t, o, r) && (kind == OfMove || kind == OfFee)
    ensures HowMany(t.payments, kind) == HowMany(s.payments, kind)
  {
    if s.rec.status == RollbackStarted {
      var p := PointerDone(s);
      if r.Err? && PointerInterrupted(s, t) {
      } else if r.Err? && ReverseInterrupted(p, t, o.reverse) {
        ReversePaysReturn(p, t, o.reverse, kind);
      } else {
        var q := ReverseDone(p, o.reverse);
        ReversePaysReturn(p, q, o.reverse, kind);
        FinishPaysReturn(q, t, o, r, kind);
      }
    }
  }

  /** A forward step returns nothing. */
  lemma {:induction false} StepPaysForward(s: State, t: State, o: Replies, kind: Kind)
    requires Consistent(s.rec) && ForwardStep(s, t, o) && (kind == OfReverse || kind == OfTopUp)
    ensures HowMany(t.payments, kind) == HowMany(s.payments, kind)
  {
    if t.payments != s.payments {
      PaymentOfStep(s, o);
      var p :| t.payments == s.payments + [p] && Sound(p) && !IsReturn(p);
      HowManyAppend(s.payments, p, kind);
    }
  }
}
