/** What bounds a rollback that is interrupted and resumed: treasury top-ups,
    repeated reverse payments, the number of passes, and the one loss it cannot see. */
module RollbackLimits {
  import opened Common
  import opened Amounts
  import opened Migrations
  import opened Sagas
  import opened Forward
  import opened Rollback
  import opened RollbackRuns

  // ---------------------------------------------------------------------------
  // The treasury tops up at most once

  /** The top-up, if any, that the step from s to t ended with. */
  function PaidTopUp(s: State, t: State): Option<nat> {
    if |s.payments| < |t.payments| && t.payments[|t.payments| - 1].TopUp?
    then Some(t.payments[|t.payments| - 1].micros) else None
  }

  /** Top-ups lose less than a cent on the way, and nobody else takes money out of the
      legacy wallet. */
  predicate Undisturbed(s: State, t: State, move: Move) {
    match move
    case StepRollback(o, _) =>
      PaidTopUp(s, t).Some? ==>
        MicrosToPico(PaidTopUp(s, t).value) < o.topUp.arrived + MicrosToPico(TOLERANCE_MICROS)
    case Outside(w) => s.wallets.legacy <= w.legacy
    case _ => true
  }

  predicate RollbackFamily(status: Status) {
    status.RollbackStarted? || status.RolledBack? || status.Failed? || status.RequiresReview?
  }

  /** Once topped up, a migration stays out of the forward path and reads whole. */
  predicate ToppedUp(s: State) {
    s.rec.moveTx.Some? && s.rec.source.Some? && Short(s) <= TOLERANCE_MICROS && RollbackFamily(s.rec.status)
  }

  predicate OnceAtMost(s: State) {
    && Consistent(s.rec)
    && (HowMany(s.payments, OfTopUp) == 0 || (HowMany(s.payments, OfTopUp) == 1 && ToppedUp(s)))
  }

  lemma {:induction false} ShortShrinks(source: nat, legacy: nat, credit: nat)
    ensures LegacyShortfall(source, PreciseUnits(legacy + credit)) <= LegacyShortfall(source, PreciseUnits(legacy))
  {
    LegacyReadingMoves(legacy, credit, 0);
  }

  /** A top-up of the whole shortfall that loses less than a cent leaves less than one. */
  lemma {:induction false} TopUpFills(source: nat, legacy: nat, credit: nat)
    requires MicrosToPico(LegacyShortfall(source, PreciseUnits(legacy))) < credit + MicrosToPico(TOLERANCE_MICROS)
    ensures LegacyShortfall(source, PreciseUnits(legacy + credit)) <= TOLERANCE_MICROS
  {
    var short := LegacyShortfall(source, PreciseUnits(legacy));
    LegacyReadingMoves(legacy, credit, if short > TOLERANCE_MICROS then short - TOLERANCE_MICROS else 0);
  }

  /** The last phase pays nothing, or one top-up of the shortfall it read. */
  lemma {:induction false} FinishPays(s: State, t: State, o: RollbackReplies, r: Outcome)
    requires FinishPhase(s, t, o, r)
    ensures t.rec.source == s.rec.source && t.rec.moveTx == s.rec.moveTx
    ensures s.rec.status == RollbackStarted ==> RollbackFamily(t.rec.status)
    ensures || (t.wallets == s.wallets && t.payments == s.payments)
            || (&& s.rec.moveTx.Some? && s.rec.source.Some? && Short(s) > TOLERANCE_MICROS
                && t.wallets.legacy == s.wallets.legacy + o.topUp.arrived
                && t.payments == s.payments + [TopUp(Short(s))])
  {}

  /** The earlier phases only add to the legacy wallet, and pay no top-up. */
  predicate Grown(s: State, t: State) {
    && s.rec.status == t.rec.status == RollbackStarted
    && t.rec.source == s.rec.source && t.rec.moveTx == s.rec.moveTx
    && s.wallets.legacy <= t.wallets.legacy
    && HowMany(t.payments, OfTopUp) == HowMany(s.payments, OfTopUp) && |s.payments| <= |t.payments|
  }

  lemma {:induction false} PointerGrown(s: State, t: State)
    requires s.rec.status == RollbackStarted && (t == PointerDone(s) || PointerInterrupted(s, t))
    ensures Grown(s, t)
  {}

  lemma {:induction false} ReverseGrown(s: State, t: State, p: PayReplies)
    requires s.rec.status == RollbackStarted
    requires || ((NeedsReverse(s.rec) ==> ReverseAllowed(s)) && t == ReverseDone(s, p))
             || ReverseInterrupted(s, t, p)
    ensures Grown(s, t)
  {
    if ReverseAllowed(s) {
      HowManyAppend(s.payments,
                   Reverse(ReverseAmount(s), s.rec.target.value, SpendableMicros(s.wallets.destination)), OfTopUp);
    }
  }

  lemma {:induction false} OnceGrown(s: State, t: State)
    requires OnceAtMost(s) && Grown(s, t) && Consistent(t.rec)
    ensures OnceAtMost(t)
  {
    if s.rec.source.Some? { ShortShrinks(s.rec.source.value, s.wallets.legacy, t.wallets.legacy - s.wallets.legacy); }
  }

  lemma {:induction false} OnceFinish(s: State, q: State, t: State, o: RollbackReplies, r: Outcome)
    requires OnceAtMost(s) && Grown(s, q) && FinishPhase(q, t, o, r)
    requires Undisturbed(s, t, StepRollback(o, r)) && Consistent(t.rec)
    ensures OnceAtMost(t)
  {
    FinishPays(q, t, o, r);
    if q.rec.source.Some? {
      ShortShrinks(q.rec.source.value, s.wallets.legacy, q.wallets.legacy - s.wallets.legacy);
    }
    if t.payments != q.payments { OnceToppingUp(s, q, t, o, r); }
  }

  /** A top-up is paid only to a short wallet, so it is the first; and it fills it. */
  lemma {:induction false} OnceToppingUp(s: State, q: State, t: State, o: RollbackReplies, r: Outcome)
    requires OnceAtMost(s) && Grown(s, q) && Undisturbed(s, t, StepRollback(o, r)) && Consistent(t.rec)
    requires q.rec.moveTx.Some? && q.rec.source.Some? && Short(q) > TOLERANCE_MICROS
    requires t.wallets.legacy == q.wallets.legacy + o.topUp.arrived && t.payments == q.payments + [TopUp(Short(q))]
    requires t.rec.source == q.rec.source && t.rec.moveTx == q.rec.moveTx && RollbackFamily(t.rec.status)
    ensures OnceAtMost(t)
  {
    ShortShrinks(q.rec.source.value, s.wallets.legacy, q.wallets.legacy - s.wallets.legacy);
    HowManyAppend(q.payments, TopUp(Short(q)), OfTopUp);
    assert PaidTopUp(s, t) == Some(Short(q));
    TopUpFills(q.rec.source.value, q.wallets.legacy, o.topUp.arrived);
  }

  lemma {:induction false} OncePass(s: State, t: State, o: RollbackReplies, r: Outcome)
    requires OnceAtMost(s) && Pass(s, t, o, r) && Undisturbed(s, t, StepRollback(o, r))
    ensures OnceAtMost(t)
  {
    MoveKeepsRecord(s, t, StepRollback(o, r));
    if s.rec.status == RollbackStarted {
      var p := PointerDone(s);
      PointerGrown(s, p);
      if r.Err? && PointerInterrupted(s, t) {
        PointerGrown(s, t);
        OnceGrown(s, t);
      } else if r.Err? && ReverseInterrupted(p, t, o.reverse) {
        ReverseGrown(p, t, o.reverse);
        OnceGrown(s, t);
      } else {
        var q := ReverseDone(p, o.reverse);
        ReverseGrown(p, q, o.reverse);
        OnceFinish(s, q, t, o, r);
      }
    }
  }

  lemma {:induction false} OnceForward(s: State, t: State, o: Replies)
    requires OnceAtMost(s) && ForwardStep(s, t, o)
    ensures OnceAtMost(t)
  {
    MoveKeepsRecord(s, t, StepForward(o));
    StepPaysForward(s, t, o, OfTopUp);
  }

  lemma {:induction false} OnceControl(s: State, e: Event)
    requires OnceAtMost(s) && IsControl(e) && Issued(s.rec, e)
    ensures OnceAtMost(s.(rec := Apply(s.rec, e)))
  {
    ConsistentStep(s.rec, e);
    match e
    case Transition(_, _, _) =>
    case Acquire(_, _) =>
    case Release(_) =>
    case MarkFailed(_, _) =>
  }

  lemma {:induction false} OnceNext(s: State, t: State, move: Move)
    requires OnceAtMost(s) && Next(s, t, move) && Undisturbed(s, t, move)
    ensures OnceAtMost(t)
  {
    match move
    case StepForward(o) => OnceForward(s, t, o);
    case StepRollback(o, r) => OncePass(s, t, o, r);
    case Control(e) => OnceControl(s, e);
    case Outside(w) =>
      if s.rec.source.Some? {
        ShortShrinks(s.rec.source.value, s.wallets.legacy, w.legacy - s.wallets.legacy);
      }
  }

  /** In every run, with replies and record writes lost anywhere, the treasury pays at
      most one top-up. */
  lemma {:induction false} TreasuryTopsUpAtMostOnce(states: seq<State>, moves: seq<Move>, n: nat)
    requires Run(states, moves) && n <= |moves|
    requires Fresh(states[0].rec) && states[0].payments == []
    requires forall i :: 0 <= i < |moves| ==> Undisturbed(states[i], states[i + 1], moves[i])
    ensures OnceAtMost(states[n]) && HowMany(states[n].payments, OfTopUp) <= 1
  {
    if n == 0 {
      FreshIsConsistent(states[0].rec);
    } else {
      TreasuryTopsUpAtMostOnce(states, moves, n - 1);
      OnceNext(states[n - 1], states[n], moves[n - 1]);
    }
  }

  // ---------------------------------------------------------------------------
  // A reverse payment whose record was lost

  /** The reverse payment went out but its transaction was never recorded. */
  predicate ReverseLost(s: State, t: State, p: PayReplies) {
    && NeedsReverse(s.rec) && ReverseAllowed(s) && t.wallets == ReverseDone(s, p).wallets
    && (t.rec == s.rec || t.rec == ReverseInvoicedRecord(s.rec, p))
  }

  /** What the wallet must have held for the next pass to reverse again. */
  predicate CoversTwice(spendable: nat, target: nat) {
    target + (if target - TOLERANCE_MICROS > MIN_PAYABLE_MICROS then target - TOLERANCE_MICROS else MIN_PAYABLE_MICROS)
      <= spendable
  }

  /** Exactly the wallets that hold the target nearly twice are reversed a second time;
      a wallet that held no more than the target makes the next pass fail closed. */
  lemma {:induction false} LostReverseRepeatsIff(s: State, t: State, p: PayReplies)
    requires ReverseLost(s, t, p)
    ensures NeedsReverse(t.rec)
    ensures ReverseAllowed(t) <==> CoversTwice(SpendableMicros(s.wallets.destination), s.rec.target.value)
    ensures SpendableMicros(s.wallets.destination) <= s.rec.target.value ==> !ReverseAllowed(t)
  {
    ReadingsMoveExactly(t.wallets.destination, ReverseAmount(s));
  }

  lemma {:induction false} ClosedPass(s: State, t: State, o: RollbackReplies, r: Outcome)
    requires Pass(s, t, o, r) && s.rec.rollback.pointerRestored && NeedsReverse(s.rec) && !ReverseAllowed(s)
    ensures r.Err? && t == s
  {}

  /** The reverse payment is due and not allowed, and the record cannot go forward. */
  predicate ReverseClosed(s: State) {
    && Consistent(s.rec) && s.rec.rollback.pointerRestored && NeedsReverse(s.rec) && !ReverseAllowed(s)
    && RollbackFamily(s.rec.status) && s.rec.status != RolledBack
  }

  /** Nobody else puts money into the USDT wallet. */
  predicate NoCredit(s: State, move: Move) {
    move.Outside? ==> move.wallets.destination <= s.wallets.destination
  }

  lemma {:induction false} LessIsNotAllowed(s: State, t: State)
    requires !ReverseAllowed(s) && t.rec.target == s.rec.target && t.wallets.destination <= s.wallets.destination
    ensures !ReverseAllowed(t)
  {
    LessIsSpendable(t.wallets.destination, s.wallets.destination);
  }

  lemma {:induction false} ClosedNext(s: State, t: State, move: Move)
    requires ReverseClosed(s) && Next(s, t, move) && NoCredit(s, move)
    ensures ReverseClosed(t) && t.payments == s.payments
    ensures move.StepRollback? ==> move.outcome.Err? && t == s
  {
    MoveKeepsRecord(s, t, move);
    match move
    case StepForward(_) =>
    case StepRollback(o, r) => if s.rec.status == RollbackStarted { ClosedPass(s, t, o, r); }
    case Control(e) => ClosedControl(s, e);
    case Outside(_) => LessIsNotAllowed(s, t);
  }

  lemma {:induction false} ClosedControl(s: State, e: Event)
    requires ReverseClosed(s) && IsControl(e) && Issued(s.rec, e) && Consistent(Apply(s.rec, e))
    ensures ReverseClosed(s.(rec := Apply(s.rec, e)))
  {
    ControlKeepsReverse(s.rec, e);
    LessIsNotAllowed(s, s.(rec := Apply(s.rec, e)));
  }

  lemma {:induction false} ControlKeepsReverse(m: Migration, e: Event)
    requires m.moveTx.Some? && RollbackFamily(m.status) && m.status != RolledBack && IsControl(e) && Issued(m, e)
    ensures var n := Apply(m, e);
            && n.moveTx == m.moveTx && n.target == m.target && RollbackFamily(n.status) && n.status != RolledBack
            && n.rollback.reverseTx == m.rollback.reverseTx && n.rollback.pointerRestored == m.rollback.pointerRestored
  {
    match e
    case Transition(_, _, _) =>
    case Acquire(_, _) =>
    case Release(_) =>
    case MarkFailed(_, _) =>
  }

  /** Once closed, closed for every run, marks for review and renewed requests included:
      no pass succeeds and nothing is paid, until somebody credits the USDT wallet. */
  lemma {:induction false} ClosedForever(states: seq<State>, moves: seq<Move>, n: nat)
    requires Run(states, moves) && n <= |moves| && ReverseClosed(states[0])
    requires forall i :: 0 <= i < |moves| ==> NoCredit(states[i], moves[i])
    ensures ReverseClosed(states[n]) && states[n].payments == states[0].payments
    ensures n > 0 && moves[n - 1].StepRollback? ==> moves[n - 1].outcome.Err?
  {
    if n > 0 {
      ClosedForever(states, moves, n - 1);
      ClosedNext(states[n - 1], states[n], moves[n - 1]);
    }
  }

  // ---------------------------------------------------------------------------
  // The balance is reversed at most once

  /** At every pass the USDT wallet holds no more than the target, and nobody else puts
      money into it. */
  predicate Unfunded(s: State, move: Move) {
    && NoCredit(s, move)
    && (move.StepRollback? && s.rec.target.Some? ==> SpendableMicros(s.wallets.destination) <= s.rec.target.value)
  }

  predicate ReversedOnce(s: State) {
    && Consistent(s.rec)
    && (HowMany(s.payments, OfReverse) == 0
        || (&& HowMany(s.payments, OfReverse) == 1 && s.rec.moveTx.Some?
            && SpendableMicros(s.wallets.destination) == 0 && RollbackFamily(s.rec.status)))
  }

  /** A phase after which the count and the empty wallet still stand. */
  predicate ReverseKept(s: State, t: State) {
    && t.rec.moveTx == s.rec.moveTx && RollbackFamily(t.rec.status)
    && t.wallets.destination <= s.wallets.destination && HowMany(t.payments, OfReverse) == HowMany(s.payments, OfReverse)
  }

  lemma {:induction false} FinishKeepsReverses(s: State, t: State, o: RollbackReplies, r: Outcome)
    requires FinishPhase(s, t, o, r) && s.rec.status == RollbackStarted
    ensures ReverseKept(s, t)
  {
    FinishPays(s, t, o, r);
    if t.payments != s.payments { HowManyAppend(s.payments, TopUp(Short(s)), OfReverse); }
    FinishLeavesDestination(s, t, o, r);
  }

  lemma {:induction false} FinishLeavesDestination(s: State, t: State, o: RollbackReplies, r: Outcome)
    requires FinishPhase(s, t, o, r)
    ensures t.wallets.destination == s.wallets.destination
  {}

  lemma {:induction false} ReverseTakesAll(s: State, p: PayReplies)
    requires NeedsReverse(s.rec) && ReverseAllowed(s)
    requires SpendableMicros(s.wallets.destination) <= s.rec.target.value
    ensures SpendableMicros(ReverseDone(s, p).wallets.destination) == 0
    ensures HowMany(ReverseDone(s, p).payments, OfReverse) == HowMany(s.payments, OfReverse) + 1
    ensures SpendableMicros(s.wallets.destination) > 0
  {
    TakingAllLeavesDust(s.wallets.destination);
    HowManyAppend(s.payments,
                  Reverse(ReverseAmount(s), s.rec.target.value, SpendableMicros(s.wallets.destination)), OfReverse);
  }

  /** The one reverse payment takes all there is; an emptied wallet allows no other. */
  lemma {:induction false} ReversePhase(s: State, t: State, p: PayReplies)
    requires ReversedOnce(s) && s.rec.status == RollbackStarted
    requires s.rec.target.Some? ==> SpendableMicros(s.wallets.destination) <= s.rec.target.value
    requires || ((NeedsReverse(s.rec) ==> ReverseAllowed(s)) && t == ReverseDone(s, p))
             || ReverseInterrupted(s, t, p)
    ensures ReversedOnce(t) && t.rec.status == RollbackStarted
  {
    if NeedsReverse(s.rec) && ReverseAllowed(s) { ReverseTakesAll(s, p); }
  }

  lemma {:induction false} ReversedPointer(s: State, t: State)
    requires ReversedOnce(s) && s.rec.status == RollbackStarted && (t == PointerDone(s) || PointerInterrupted(s, t))
    ensures ReversedOnce(t) && t.rec.status == RollbackStarted
    ensures t.rec.target == s.rec.target && t.wallets.destination == s.wallets.destination
  {}

  lemma {:induction false} ReversedFinish(s: State, t: State, o: RollbackReplies, r: Outcome)
    requires ReversedOnce(s) && s.rec.status == RollbackStarted && FinishPhase(s, t, o, r) && Consistent(t.rec)
    ensures ReversedOnce(t)
  {
    FinishKeepsReverses(s, t, o, r);
  }

  lemma {:induction false} ReversedOncePass(s: State, t: State, o: RollbackReplies, r: Outcome)
    requires ReversedOnce(s) && Pass(s, t, o, r) && Unfunded(s, StepRollback(o, r))
    ensures ReversedOnce(t)
  {
    MoveKeepsRecord(s, t, StepRollback(o, r));
    if s.rec.status == RollbackStarted {
      var p := PointerDone(s);
      ReversedPointer(s, p);
      if r.Err? && PointerInterrupted(s, t) {
        ReversedPointer(s, t);
      } else if r.Err? && ReverseInterrupted(p, t, o.reverse) {
        ReversePhase(p, t, o.reverse);
      } else {
        var q := ReverseDone(p, o.reverse);
        ReversePhase(p, q, o.reverse);
        ReversedFinish(q, t, o, r);
      }
    }
  }

  lemma {:induction false} ReversedOnceForward(s: State, t: State, o: Replies)
    requires ReversedOnce(s) && ForwardStep(s, t, o)
    ensures ReversedOnce(t)
  {
    MoveKeepsRecord(s, t, StepForward(o));
    StepPaysForward(s, t, o, OfReverse);
  }

  lemma {:induction false} ReversedOnceControl(s: State, e: Event)
    requires ReversedOnce(s) && IsControl(e) && Issued(s.rec, e)
    ensures ReversedOnce(s.(rec := Apply(s.rec, e)))
  {
    ConsistentStep(s.rec, e);
    match e
    case Transition(_, _, _) =>
    case Acquire(_, _) =>
    case Release(_) =>
    case MarkFailed(_, _) =>
  }

  lemma {:induction false} ReversedOnceNext(s: State, t: State, move: Move)
    requires ReversedOnce(s) && Next(s, t, move) && Unfunded(s, move)
    ensures ReversedOnce(t)
  {
    match move
    case StepForward(o) => ReversedOnceForward(s, t, o);
    case StepRollback(o, r) => ReversedOncePass(s, t, o, r);
    case Control(e) => ReversedOnceControl(s, e);
    case Outside(_) =>
  }

  /** In every run, whatever replies and writes are lost and however often the rollback is
      failed, requested and resumed, the balance is sent back at most once. */
  lemma {:induction false} ReversesAtMostOnce(states: seq<State>, moves: seq<Move>, n: nat)
    requires Run(states, moves) && n <= |moves|
    requires Fresh(states[0].rec) && states[0].payments == []
    requires forall i :: 0 <= i < |moves| ==> Unfunded(states[i], moves[i])
    ensures ReversedOnce(states[n]) && HowMany(states[n].payments, OfReverse) <= 1
  {
    if n == 0 {
      FreshIsConsistent(states[0].rec);
    } else {
      ReversesAtMostOnce(states, moves, n - 1);
      ReversedOnceNext(states[n - 1], states[n], moves[n - 1]);
    }
  }

  // ---------------------------------------------------------------------------
  // The number of successful passes

  /** A top-up is recorded for good; a finish lasts until the record is reopened. */
  function Phase(m: Migration): nat {
    (if m.status == RolledBack then 1 else 0) + if m.rollback.topUpTx.Some? then 1 else 0
  }

  predicate Succeeds(move: Move) { move.StepRollback? && move.outcome.Ok? }

  /** The failure mark of a runner that worked from an old list lands on a record that
      is rolled back already. */
  predicate Reopens(s: State, move: Move) {
    s.rec.status == RolledBack && move.Control? && move.event.MarkFailed? && Matches(s.rec, move.event)
  }

  function Successes(moves: seq<Move>): nat {
    if moves == [] then 0
    else Successes(moves[..|moves| - 1]) + if Succeeds(moves[|moves| - 1]) then 1 else 0
  }

  function Reopenings(states: seq<State>, moves: seq<Move>): nat
    requires |states| == |moves| + 1
    decreases |moves|
  {
    if moves == [] then 0
    else Reopenings(states[..|moves|], moves[..|moves| - 1])
         + if Reopens(states[|moves| - 1], moves[|moves| - 1]) then 1 else 0
  }

  lemma {:induction false} FinishRaisesPhase(s: State, t: State, o: RollbackReplies, r: Outcome)
    requires FinishPhase(s, t, o, r) && r.Ok? && s.rec.status == RollbackStarted
    ensures Phase(s.rec) < Phase(t.rec)
  {}

  lemma {:induction false} SuccessRaisesPhase(s: State, t: State, o: RollbackReplies, r: Outcome)
    requires Pass(s, t, o, r) && r.Ok?
    ensures Phase(s.rec) < Phase(t.rec)
  {
    FinishRaisesPhase(ReverseDone(PointerDone(s), o.reverse), t, o, r);
  }

  lemma {:induction false} RolledBackStays(s: State, t: State, move: Move)
    requires Next(s, t, move) && s.rec.status == RolledBack && !Reopens(s, move)
    ensures t.rec.status == RolledBack
  {
    match move
    case StepForward(_) =>
    case StepRollback(_, _) =>
    case Control(_) =>
    case Outside(_) =>
  }

  lemma {:induction false} PhaseKept(s: State, t: State, move: Move)
    requires Next(s, t, move) && Consistent(s.rec) && !Reopens(s, move)
    ensures Phase(s.rec) <= Phase(t.rec)
  {
    MoveKeepsRecord(s, t, move);
    if s.rec.status == RolledBack { RolledBackStays(s, t, move); }
  }

  /** A failure mark costs the finish, not the recorded top-up. */
  lemma {:induction false} ReopeningCostsOne(s: State, t: State, move: Move)
    requires Next(s, t, move) && Consistent(s.rec) && Reopens(s, move)
    ensures Phase(s.rec) <= Phase(t.rec) + 1
  {
    MoveKeepsRecord(s, t, move);
  }

  /** Two passes succeed at most, and one more for every failure mark that reopens a
      rolled-back record: one tops up, the others finish. */
  lemma {:induction false} PassesAreBounded(states: seq<State>, moves: seq<Move>)
    requires Run(states, moves) && Fresh(states[0].rec)
    ensures Consistent(states[|moves|].rec)
    ensures Successes(moves) <= Phase(states[|moves|].rec) + Reopenings(states, moves)
    ensures Successes(moves) <= 2 + Reopenings(states, moves)
    decreases |moves|
  {
    if moves == [] {
      FreshIsConsistent(states[0].rec);
    } else {
      var n := |moves| - 1;
      var s, t, move := states[n], states[n + 1], moves[n];
      PassesAreBounded(states[..n + 1], moves[..n]);
      MoveKeepsRecord(s, t, move);
      if Reopens(s, move) { ReopeningCostsOne(s, t, move); } else { PhaseKept(s, t, move); }
      if Succeeds(move) { SuccessRaisesPhase(s, t, move.rollback, move.outcome); }
    }
  }

  lemma {:induction false} WholePassFinishes(s: State, o: RollbackReplies)
    requires s.rec.status == RollbackStarted && s.rec.rollback.pointerRestored && Whole(s) && !NeedsReverse(s.rec)
    ensures var t := Finished(if s.rec.moveTx.Some? then Reading(s) else s); Pass(s, t, o, Ok(t.rec))
  {}

  /** The extra term is exact: a rolled-back record that reads whole can be locked,
      marked for review, requested again and rolled back again by a successful pass,
      with nothing paid, as often as it is reopened. */
  lemma {:induction false} ReopenedRollsBackAgain(s: State, worker: WorkerId, o: RollbackReplies)
    requires s.rec.status == RolledBack && s.rec.rollback.pointerRestored && Whole(s) && !NeedsReverse(s.rec)
    ensures var review := s.(rec := s.rec.(status := RequiresReview, lockedBy := None));
            var started := review.(rec := Patched(review.rec, RollbackRequested(RequiresReview)).(status := RollbackStarted));
            var read := if s.rec.moveTx.Some? then Reading(started) else started;
            var again := Finished(read);
            && Run([s, s.(rec := s.rec.(lockedBy := Some(worker))), review, started, again],
                   [Control(Acquire(worker, true)), Control(MarkFailed(worker, RequiresReview)),
                    Control(Transition(RequiresReview, RollbackStarted, RollbackRequested(RequiresReview))),
                    StepRollback(o, Ok(again.rec))])
            && again.rec.status == RolledBack && again.payments == s.payments && again.wallets == s.wallets
            && again.rec.rollback.pointerRestored && Whole(again) && !NeedsReverse(again.rec)
  {
    var review := s.(rec := s.rec.(status := RequiresReview, lockedBy := None));
    var started := review.(rec := Patched(review.rec, RollbackRequested(RequiresReview)).(status := RollbackStarted));
    var again := Finished(if s.rec.moveTx.Some? then Reading(started) else started);
    WholePassFinishes(started, o);
  }

  // ---------------------------------------------------------------------------
  // A forward payment whose record was lost

  /** Without a recorded forward payment a pass moves no money at all. */
  lemma {:induction false} UnrecordedPaymentIsNotReturned(s: State, t: State, o: RollbackReplies, r: Outcome)
    requires Pass(s, t, o, r) && s.rec.moveTx == None
    ensures t.payments == s.payments && t.wallets.(pointer := s.wallets.pointer) == s.wallets
    ensures r.Ok? ==> t.rec.status == RolledBack
  {}

  /** So wholeness needs the forward payment on record: when that one write is lost and
      the migration is rolled back, the legacy wallet stays short of the whole target. */
  lemma {:induction false} LostForwardWriteStrands(s: State, o: Replies, o2: RollbackReplies, t: State, u: State, v: State, r: Outcome)
    requires s.rec.status == InvoiceCreated && Consistent(s.rec) && CanAdvance(s, o)
    requires s.rec.source == Some(PreciseUnits(s.wallets.legacy))
    requires t == Advanced(s, o).(rec := s.rec)
    requires u == t.(rec := Patched(t.rec, RollbackRequested(InvoiceCreated)).(status := RollbackStarted))
    requires Pass(u, v, o2, r) && r.Ok?
    ensures Run([s, t, u, v],
                [StepForward(o), Control(Transition(InvoiceCreated, RollbackStarted, RollbackRequested(InvoiceCreated))),
                 StepRollback(o2, r)])
    ensures v.rec.status == RolledBack && !Returned(v.payments[|s.payments|..])
    ensures LegacyShortfall(s.rec.source.value, PreciseUnits(v.wallets.legacy)) == s.rec.target.value
  {
    UnrecordedPaymentIsNotReturned(u, v, o2, r);
    assert v.payments[|s.payments|..] == [ForwardMove(s.rec.source.value)];
    assert PreciseUnits(v.wallets.legacy) == 0;
  }
}
