/** A rollback takes the USDT back: no record with a forward payment is rolled back
    before its reverse payment was made and recorded. */
module Returns {
  import opened Common
  import opened Amounts
  import opened Migrations
  import opened Sagas
  import opened Forward
  import opened Rollback
  import opened RollbackRuns
  import opened Ledger

  /** A balance was moved and has to come back. */
  predicate Owed(m: Migration) { m.moveTx.Some? && m.target != Some(0) }

  // ---------------------------------------------------------------------------
  // What the phases of a pass leave of the reverse payment

  /** The payment's record and what it was made against. */
  predicate SameReverse(m: Migration, n: Migration) {
    n.moveTx == m.moveTx && n.target == m.target && n.rollback.reverseTx == m.rollback.reverseTx
  }

  predicate ReverseStep(s: State, t: State) {
    && t.rec.moveTx == s.rec.moveTx && t.rec.target == s.rec.target
    && if t.payments == s.payments then t.rec.rollback.reverseTx == s.rec.rollback.reverseTx
       else
         && NeedsReverse(s.rec) && s.rec.target.Some? && t.payments == s.payments + [ReverseOf(s)]
         && ReverseOf(s).micros <= s.rec.target.value
  }

  predicate FinishStep(s: State, t: State) {
    && SameReverse(s.rec, t.rec)
    && (t.payments == s.payments || (s.rec.source.Some? && t.payments == s.payments + [TopUp(Short(s))]))
  }

  lemma {:induction false} ReverseSteps(s: State, t: State, p: PayReplies)
    requires ReversePhase(s, t, p)
    ensures ReverseStep(s, t)
  {
    ReversePays(s, t, p);
  }

  lemma {:induction false} FinishSteps(s: State, t: State, o: RollbackReplies, r: Outcome)
    requires FinishPhase(s, t, o, r)
    ensures FinishStep(s, t)
  {
    FinishRecord(s, t, o, r);
    FinishPays(s, t, o, r);
  }

  lemma {:induction false} DoneIsRecorded(s: State, p: PayReplies)
    requires NeedsReverse(s.rec) ==> ReverseAllowed(s)
    ensures Owed(ReverseDone(s, p).rec) ==> ReverseDone(s, p).rec.rollback.reverseTx.Some?
    ensures ReverseRecorded(s, ReverseDone(s, p))
  {}

  /** A pass in three parts, the later ones idle if it was interrupted. Only a pass whose
      reverse part went through can end the rollback. */
  predicate Parts(s: State, p: State, q: State, t: State) {
    && SameReverse(s.rec, p.rec) && p.payments == s.payments
    && ReverseStep(p, q) && FinishStep(q, t)
    && (t.rec.status == RolledBack && Owed(q.rec) ==> q.rec.rollback.reverseTx.Some?)
    && (ReverseRecorded(p, q) || t == q)
  }

  lemma {:induction false} PassInParts(s: State, t: State, o: RollbackReplies, r: Outcome) returns (p: State, q: State)
    requires Pass(s, t, o, r) && s.rec.status == RollbackStarted
    ensures Parts(s, p, q, t)
  {
    p := PointerDone(s);
    if r.Err? && PointerInterrupted(s, t) {
      p, q := t, t;
    } else if r.Err? && ReverseInterrupted(p, t, o.reverse) {
      q := t;
      ReverseSteps(p, t, o.reverse);
      InterruptedGoesOn(p, t, o.reverse);
    } else {
      q := ReverseDone(p, o.reverse);
      ReverseSteps(p, q, o.reverse);
      DoneIsRecorded(p, o.reverse);
      FinishSteps(q, t, o, r);
    }
  }

  lemma {:induction false} InterruptedGoesOn(s: State, t: State, p: PayReplies)
    requires s.rec.status == RollbackStarted && ReverseInterrupted(s, t, p)
    ensures t.rec.status == RollbackStarted
  {}

  // ---------------------------------------------------------------------------
  // Recorded before it ends

  /** A reverse payment of that target is in the log. */
  predicate ReverseLogged(ps: seq<Payment>, target: nat) {
    exists p :: p in ps && p.Reverse? && p.target == target
  }

  predicate TakenBack(s: State) {
    && (s.rec.rollback.reverseTx.Some? ==>
          s.rec.moveTx.Some? && s.rec.target.Some? && ReverseLogged(s.payments, s.rec.target.value))
    && (s.rec.status == RolledBack && Owed(s.rec) ==> s.rec.rollback.reverseTx.Some?)
  }

  /** What was recorded stays, and the log only grows. */
  lemma {:induction false} TakenBackKept(s: State, t: State)
    requires TakenBack(s) && t.rec.rollback.reverseTx == s.rec.rollback.reverseTx && s.payments <= t.payments
    requires s.rec.moveTx.Some? ==> t.rec.moveTx == s.rec.moveTx && t.rec.target == s.rec.target
    requires t.rec.status == RolledBack && Owed(t.rec) ==> t.rec.rollback.reverseTx.Some?
    ensures TakenBack(t)
  {
    if t.rec.rollback.reverseTx.Some? {
      var p :| p in s.payments && p.Reverse? && p.target == s.rec.target.value;
      assert p in t.payments;
    }
  }

  lemma {:induction false} PassTakesBack(s: State, p: State, q: State, t: State)
    requires TakenBack(s) && s.rec.status == RollbackStarted && Parts(s, p, q, t)
    ensures TakenBack(t)
  {
    var held := s.(rec := s.rec.(rollback := q.rec.rollback), payments := q.payments);
    if q.payments != p.payments { assert ReverseOf(p) in q.payments; }
    assert TakenBack(held);
    TakenBackKept(held, t);
  }

  lemma {:induction false} StepKeepsReverse(s: State, t: State, o: Replies)
    requires ForwardStep(s, t, o) && Consistent(s.rec)
    ensures t.rec.rollback == s.rec.rollback && (t.rec.status == RolledBack ==> t == s)
  {}

  lemma {:induction false} ControlKeepsRollback(m: Migration, e: Event)
    requires IsControl(e) && Issued(m, e)
    ensures var n := Apply(m, e);
            && n.rollback.reverseTx == m.rollback.reverseTx
            && (n.status == RolledBack ==> m.status == RolledBack && n.moveTx == m.moveTx && n.target == m.target)
  {
    match e
    case Transition(_, _, _) =>
    case Acquire(_, _) =>
    case Release(_) =>
    case MarkFailed(_, _) =>
  }

  lemma {:induction false} NextTakesBack(s: State, t: State, move: Move)
    requires Good(s) && Next(s, t, move)
    ensures Good(t)
  {
    MoveKeepsRecord(s, t, move);
    match move
    case StepForward(o) =>
      StepKeepsReverse(s, t, o);
      ForwardPays(s, t, o);
      TakenBackKept(s, t);
    case StepRollback(o, r) =>
      if s.rec.status == RollbackStarted {
        var p, q := PassInParts(s, t, o, r);
        PassTakesBack(s, p, q, t);
      }
    case Control(e) =>
      ControlKeepsRollback(s.rec, e);
      TakenBackKept(s, t);
    case Outside(_) => TakenBackKept(s, t);
  }

  predicate Good(s: State) { TakenBack(s) && Consistent(s.rec) }

  lemma {:induction false} TakenBackAtFirst(s: State)
    requires Fresh(s.rec)
    ensures Good(s)
  {
    FreshIsConsistent(s.rec);
  }

  lemma {:induction false} TakenBackAlways(states: seq<State>, moves: seq<Move>, n: nat)
    requires Run(states, moves) && n <= |moves|
    requires Fresh(states[0].rec) && states[0].payments == []
    ensures Good(states[n])
  {
    if n == 0 {
      TakenBackAtFirst(states[0]);
    } else {
      TakenBackAlways(states, moves, n - 1);
      assert Next(states[n - 1], states[n], moves[n - 1]);
      NextTakesBack(states[n - 1], states[n], moves[n - 1]);
    }
  }

  // ---------------------------------------------------------------------------
  // What that means for the money

  lemma {:induction false} LoggedReverseDraws(ps: seq<Payment>, target: nat)
    requires AllSound(ps) && ReverseLogged(ps, target)
    ensures Drawn(ps, Destination) + MicrosToPico(TOLERANCE_MICROS) >= MicrosToPico(target)
  {
    var p :| p in ps && p.Reverse? && p.target == target;
    DrawnAtLeast(ps, p, Destination);
  }

  /** In every run, passes interrupted and repeated, replies and writes lost: a rolled-back
      migration with a recorded forward payment of a positive target has its reverse
      payment on record, and the destination wallet is lower than what arrived in it by
      what was taken back, which is at least the target less a cent. */
  lemma {:induction false} RolledBackIsTakenBack(states: seq<State>, moves: seq<Move>, n: nat)
    requires Run(states, moves) && n <= |moves|
    requires Fresh(states[0].rec) && states[0].payments == []
    requires states[n].rec.status == RolledBack && Owed(states[n].rec)
    ensures var s := states[n];
            var back := Drawn(s.payments, Destination);
            && s.rec.rollback.reverseTx.Some? && s.rec.target.Some?
            && s.wallets.destination + back == states[0].wallets.destination + Received(states, moves, n, Destination)
            && back + MicrosToPico(TOLERANCE_MICROS) >= MicrosToPico(s.rec.target.value)
  {
    TakenBackAlways(states, moves, n);
    EveryRunIsSafe(states, moves, n);
    BooksBalance(states, moves, n, Destination);
    LoggedReverseDraws(states[n].payments, states[n].rec.target.value);
  }

  // ---------------------------------------------------------------------------
  // Once, where records are not lost

  /** A reverse payment is recorded by the pass that makes it. */
  predicate ReverseRecorded(s: State, t: State) { Pays(s, t, OfReverse) ==> t.rec.rollback.reverseTx.Some? }

  /** Nothing is drawn without a record, and no more than the target with one. */
  predicate TakenOnce(s: State) {
    && (s.rec.rollback.reverseTx == None ==> Drawn(s.payments, Destination) == 0)
    && (s.rec.rollback.reverseTx.Some? ==>
          && s.rec.moveTx.Some? && s.rec.target.Some?
          && Drawn(s.payments, Destination) <= MicrosToPico(s.rec.target.value))
  }

  lemma {:induction false} ReverseOnce(p: State, q: State)
    requires TakenOnce(p) && ReverseStep(p, q) && ReverseRecorded(p, q)
    ensures TakenOnce(q)
  {
    if q.payments != p.payments {
      DrawnAppend(p.payments, ReverseOf(p), Destination);
      HowManyAppend(p.payments, ReverseOf(p), OfReverse);
    }
  }

  lemma {:induction false} FinishOnce(q: State, t: State)
    requires TakenOnce(q) && FinishStep(q, t)
    ensures TakenOnce(t)
  {
    if t.payments != q.payments { DrawnAppend(q.payments, TopUp(Short(q)), Destination); }
  }

  lemma {:induction false} NextOnce(s: State, t: State, move: Move)
    requires TakenOnce(s) && Consistent(s.rec) && Next(s, t, move) && ReverseRecorded(s, t)
    ensures TakenOnce(t) && Consistent(t.rec)
  {
    MoveKeepsRecord(s, t, move);
    match move
    case StepForward(o) =>
      StepKeepsReverse(s, t, o);
      ForwardPays(s, t, o);
      if t.payments != s.payments { DrawnAppend(s.payments, t.payments[|s.payments|], Destination); }
    case StepRollback(o, r) =>
      if s.rec.status == RollbackStarted {
        var p, q := PassInParts(s, t, o, r);
        ReverseOnce(p, q);
        FinishOnce(q, t);
      }
    case Control(e) => ControlKeepsRollback(s.rec, e);
    case Outside(_) =>
  }

  lemma {:induction false} TakenOnceAlways(states: seq<State>, moves: seq<Move>, n: nat)
    requires Run(states, moves) && n <= |moves|
    requires Fresh(states[0].rec) && states[0].payments == []
    requires forall i :: 0 <= i < |moves| ==> ReverseRecorded(states[i], states[i + 1])
    ensures TakenOnce(states[n]) && Consistent(states[n].rec)
  {
    if n == 0 {
      FreshIsConsistent(states[0].rec);
    } else {
      TakenOnceAlways(states, moves, n - 1);
      assert Next(states[n - 1], states[n], moves[n - 1]) && ReverseRecorded(states[n - 1], states[n]);
      NextOnce(states[n - 1], states[n], moves[n - 1]);
    }
  }

  /** Where every reverse payment is recorded by the pass that makes it, a rollback takes
      back no more than the target, so the user keeps what arrived less the target, up to
      a cent. */
  lemma {:induction false} TakenBackOnce(states: seq<State>, moves: seq<Move>, n: nat)
    requires Run(states, moves) && n <= |moves|
    requires Fresh(states[0].rec) && states[0].payments == []
    requires forall i :: 0 <= i < |moves| ==> ReverseRecorded(states[i], states[i + 1])
    requires states[n].rec.status == RolledBack && Owed(states[n].rec)
    ensures var s := states[n];
            var arrived := states[0].wallets.destination + Received(states, moves, n, Destination);
            && s.rec.target.Some?
            && arrived - MicrosToPico(s.rec.target.value) <= s.wallets.destination
            && s.wallets.destination <= arrived - MicrosToPico(s.rec.target.value) + MicrosToPico(TOLERANCE_MICROS)
  {
    RolledBackIsTakenBack(states, moves, n);
    TakenOnceAlways(states, moves, n);
  }

  // ---------------------------------------------------------------------------
  // With every service working, two passes

  /** What ExecuteRollback promises of one pass. */
  predicate Executed(s: State, t: State, o: RollbackReplies, r: Outcome) {
    && Pass(s, t, o, r) && (AllReplied(o) && CanPass(s, o) ==> r.Ok?)
    && (AllReplied(o) && s.rec.status == RollbackStarted ==> Phased(s, t, o, r))
  }

  predicate WholeAt(m: Migration, legacy: nat) {
    m.moveTx.Some? ==> m.source.Some? && LegacyShortfall(m.source.value, PreciseUnits(legacy)) <= TOLERANCE_MICROS
  }

  /** What a rollback needs of the wallets, from what arrives of its payments: the reverse
      payment, if due, is allowed; what it leaves short is within a cent, or the treasury
      has not topped up yet, can, and enough of that arrives. */
  predicate Refundable(s: State, o: RollbackReplies) {
    var legacy := AfterReverse(s, o);
    && (NeedsReverse(s.rec) ==> ReverseAllowed(s))
    && (WholeAt(s.rec, legacy)
        || (TopUpAt(s.rec, legacy, s.wallets.treasury) && WholeAt(s.rec, legacy + o.topUp.arrived)))
  }

  function AfterReverse(s: State, o: RollbackReplies): nat {
    s.wallets.legacy + if NeedsReverse(s.rec) then o.reverse.arrived else 0
  }

  predicate TopUpAt(m: Migration, legacy: nat, treasury: nat) {
    && m.source.Some? && m.rollback.topUpTx == None
    && MicrosToPico(LegacyShortfall(m.source.value, PreciseUnits(legacy))) <= treasury
  }

  /** The first pass up to its last phase. */
  lemma {:induction false} FirstPass(s: State, o: RollbackReplies) returns (q: State)
    requires s.rec.status == RollbackStarted && (NeedsReverse(s.rec) ==> ReverseAllowed(s))
    ensures var p := PointerDone(s);
            (NeedsReverse(p.rec) ==> ReverseAllowed(p)) && q == ReverseDone(p, o.reverse)
    ensures q.rec.status == RollbackStarted && !NeedsReverse(q.rec)
    ensures q.rec.source == s.rec.source && q.rec.moveTx == s.rec.moveTx && q.rec.rollback.topUpTx == s.rec.rollback.topUpTx
    ensures q.wallets.treasury == s.wallets.treasury
    ensures q.wallets.legacy == AfterReverse(s, o) && q.rec.target == s.rec.target
  {
    q := ReverseDone(PointerDone(s), o.reverse);
  }

  lemma {:induction false} ClosedPassGoesOn(s: State, t: State, o: RollbackReplies, r: Outcome)
    requires s.rec.status == RollbackStarted && NeedsReverse(s.rec) && !ReverseAllowed(s) && Pass(s, t, o, r)
    ensures t.rec.status == RollbackStarted && NeedsReverse(t.rec) && !ReverseAllowed(t)
  {}

  lemma {:induction false} LastPhaseEnds(s: State, t: State, o: RollbackReplies, r: Outcome)
    requires s.rec.status == RollbackStarted && FinishPhase(s, t, o, r) && (Whole(s) || CanTopUp(s) ==> r.Ok?)
    ensures Whole(s) ==> t.rec.status == RolledBack
    ensures !Whole(s) ==> t.rec.status == RollbackStarted && t.rec.source == s.rec.source && SameReverse(s.rec, t.rec)
    ensures !Whole(s) && CanTopUp(s) ==>
              t.rec.rollback.topUpTx.Some? && t.wallets.legacy == s.wallets.legacy + o.topUp.arrived
    ensures !Whole(s) && !CanTopUp(s) ==>
              t.wallets == s.wallets && t.rec.rollback.topUpTx == s.rec.rollback.topUpTx
  {
    FinishRecord(s, t, o, r);
  }

  /** One pass, by what the wallets then hold. */
  lemma {:induction false} OnePass(s: State, t: State, o: RollbackReplies, r: Outcome)
    requires s.rec.status == RollbackStarted && FieldsPresent(s.rec) && AllReplied(o) && Executed(s, t, o, r)
    requires NeedsReverse(s.rec) ==> ReverseAllowed(s)
    ensures var m, legacy := s.rec, AfterReverse(s, o);
            if WholeAt(m, legacy) then t.rec.status == RolledBack
            else
              && t.rec.status == RollbackStarted && FieldsPresent(t.rec) && !NeedsReverse(t.rec)
              && t.rec.source == m.source && t.rec.moveTx == m.moveTx
              && if TopUpAt(m, legacy, s.wallets.treasury)
                 then t.rec.rollback.topUpTx.Some? && t.wallets.legacy == legacy + o.topUp.arrived
                 else
                   && t.rec.rollback.topUpTx == m.rollback.topUpTx
                   && t.wallets.legacy == legacy && t.wallets.treasury == s.wallets.treasury
  {
    var q := FirstPass(s, o);
    LastPhaseEnds(q, t, o, r);
  }

  lemma {:induction false} EndedStays(s: State, t: State, o: RollbackReplies, r: Outcome)
    requires s.rec.status != RollbackStarted && Pass(s, t, o, r)
    ensures t == s
  {}

  /** With every service working, two passes end a rollback exactly if it is refundable;
      otherwise it stays where an operator has to look at it. */
  lemma {:induction false} TwoPassesEndIff(s: State, t: State, u: State, o: RollbackReplies, r: Outcome, o2: RollbackReplies, r2: Outcome)
    requires s.rec.status == RollbackStarted && FieldsPresent(s.rec) && AllReplied(o) && AllReplied(o2)
    requires Executed(s, t, o, r) && Executed(t, u, o2, r2)
    ensures u.rec.status == RolledBack <==> Refundable(s, o)
    ensures !Refundable(s, o) ==> u.rec.status == RollbackStarted
  {
    if NeedsReverse(s.rec) && !ReverseAllowed(s) {
      ClosedPassGoesOn(s, t, o, r);
      ClosedPassGoesOn(t, u, o2, r2);
    } else {
      OnePass(s, t, o, r);
      if t.rec.status == RollbackStarted { OnePass(t, u, o2, r2); } else { EndedStays(t, u, o2, r2); }
    }
  }
}
