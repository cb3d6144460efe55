/** Double entry: in every run each wallet holds what it held, plus what arrived, minus
    what the logged payments drew from it. */
module Ledger {
  import opened Common
  import opened Amounts
  import opened Migrations
  import opened Sagas
  import opened Forward
  import opened Rollback
  import opened RollbackRuns

  datatype Account = Legacy | Destination | Treasury

  function Held(w: Wallets, a: Account): nat {
    match a
    case Legacy => w.legacy
    case Destination => w.destination
    case Treasury => w.treasury
  }

  /** What a payment takes out of a wallet, in pico. */
  function Draws(p: Payment, a: Account): nat {
    match p
    case ForwardMove(units) => if a == Legacy then UnitsToPico(units) else 0
    case FeeReimbursement(moved, _, _) => if a == Treasury then MicrosToPico(moved) else 0
    case Reverse(micros, _, _) => if a == Destination then MicrosToPico(micros) else 0
    case TopUp(micros) => if a == Treasury then MicrosToPico(micros) else 0
  }

  function Drawn(ps: seq<Payment>, a: Account): nat {
    if ps == [] then 0 else Drawn(ps[..|ps| - 1], a) + Draws(ps[|ps| - 1], a)
  }

  lemma {:induction false} DrawnAppend(ps: seq<Payment>, p: Payment, a: Account)
    ensures Drawn(ps + [p], a) == Drawn(ps, a) + Draws(p, a)
  {
    assert (ps + [p])[..|ps|] == ps;
  }

  lemma {:induction false} DrawnAtLeast(ps: seq<Payment>, p: Payment, a: Account)
    requires p in ps
    ensures Drawn(ps, a) >= Draws(p, a)
  {
    if p != ps[|ps| - 1] { DrawnAtLeast(ps[..|ps| - 1], p, a); }
  }

  /** Whether a move logged a payment of a kind. */
  predicate Pays(s: State, t: State, kind: Kind) { HowMany(t.payments, kind) > HowMany(s.payments, kind) }

  function ArrivesBack(s: State, t: State, o: RollbackReplies, a: Account): nat {
    if a != Legacy then 0
    else (if Pays(s, t, OfReverse) then o.reverse.arrived else 0) + (if Pays(s, t, OfTopUp) then o.topUp.arrived else 0)
  }

  /** What came into a wallet from elsewhere: forward payments arrive at the destination,
      returns at the legacy wallet, and others do as they like. */
  function Arrives(s: State, t: State, move: Move, a: Account): int {
    match move
    case StepForward(o) => if t.payments != s.payments && a == Destination then o.arrived else 0
    case StepRollback(o, _) => ArrivesBack(s, t, o, a)
    case Control(_) => 0
    case Outside(w) => Held(w, a) - Held(s.wallets, a)
  }

  function Received(states: seq<State>, moves: seq<Move>, n: nat, a: Account): int
    requires |states| == |moves| + 1 && n <= |moves|
  {
    if n == 0 then 0 else Received(states, moves, n - 1, a) + Arrives(states[n - 1], states[n], moves[n - 1], a)
  }

  /** Balance and log move together. */
  predicate Booked(s: State, t: State, a: Account, arrived: int) {
    Held(t.wallets, a) + Drawn(t.payments, a) == Held(s.wallets, a) + Drawn(s.payments, a) + arrived
  }

  function Receiver(p: Payment): Account {
    if p.ForwardMove? || p.FeeReimbursement? then Destination else Legacy
  }

  /** One payment: drawn from its payer, so much arrived at its receiver. */
  predicate PaidOut(w: Wallets, v: Wallets, p: Payment, arrived: nat) {
    && v.legacy + Draws(p, Legacy) == w.legacy + (if Receiver(p) == Legacy then arrived else 0)
    && v.destination + Draws(p, Destination) == w.destination + (if Receiver(p) == Destination then arrived else 0)
    && v.treasury + Draws(p, Treasury) == w.treasury
  }

  predicate SameBalances(w: Wallets, v: Wallets) {
    v.legacy == w.legacy && v.destination == w.destination && v.treasury == w.treasury
  }

  lemma {:induction false} BookedPayment(s: State, t: State, p: Payment, arrived: nat, a: Account)
    requires t.payments == s.payments + [p] && PaidOut(s.wallets, t.wallets, p, arrived)
    ensures Booked(s, t, a, if a == Receiver(p) then arrived else 0)
  {
    DrawnAppend(s.payments, p, a);
  }

  /** What a forward step pays, if anything. */
  predicate StepPays(s: State, t: State, o: Replies) {
    || (SameBalances(s.wallets, t.wallets) && t.payments == s.payments)
    || (|t.payments| == |s.payments| + 1
        && var p := t.payments[|s.payments|];
           t.payments == s.payments + [p] && PaidOut(s.wallets, t.wallets, p, o.arrived) && Receiver(p) == Destination)
  }

  lemma {:induction false} MovePays(s: State, t: State, o: Replies)
    requires CanAdvance(s, o) && s.rec.status == InvoiceCreated
    requires t.wallets == Advanced(s, o).wallets && t.payments == Advanced(s, o).payments
    ensures StepPays(s, t, o)
  {
    var p := ForwardMove(s.rec.source.value);
    assert t.payments == s.payments + [p] && PaidOut(s.wallets, t.wallets, p, o.arrived);
  }

  lemma {:induction false} FeePays(s: State, t: State, o: Replies)
    requires CanAdvance(s, o) && s.rec.status == FeeInvoiceCreated
    requires t.wallets == Advanced(s, o).wallets && t.payments == Advanced(s, o).payments
    ensures StepPays(s, t, o)
  {
    var p := t.payments[|s.payments|];
    assert t.payments == s.payments + [p] && PaidOut(s.wallets, t.wallets, p, o.arrived);
  }

  lemma {:induction false} ElsePaysNothing(s: State, o: Replies)
    requires CanAdvance(s, o) && s.rec.status != InvoiceCreated && s.rec.status != FeeInvoiceCreated
    ensures SameBalances(s.wallets, Advanced(s, o).wallets) && Advanced(s, o).payments == s.payments
  {}

  lemma {:induction false} ForwardPays(s: State, t: State, o: Replies)
    requires ForwardStep(s, t, o)
    ensures StepPays(s, t, o)
  {
    if CanAdvance(s, o) && t.wallets == Advanced(s, o).wallets && t.payments == Advanced(s, o).payments {
      match s.rec.status
      case InvoiceCreated => MovePays(s, t, o);
      case FeeInvoiceCreated => FeePays(s, t, o);
      case _ => ElsePaysNothing(s, o);
    }
  }

  lemma {:induction false} BookedForward(s: State, t: State, o: Replies, a: Account)
    requires StepPays(s, t, o)
    ensures Booked(s, t, a, if t.payments != s.payments && a == Destination then o.arrived else 0)
  {
    if t.payments != s.payments {
      BookedPayment(s, t, t.payments[|s.payments|], o.arrived, a);
    }
  }

  predicate ReversePhase(s: State, t: State, p: PayReplies) {
    || ((NeedsReverse(s.rec) ==> ReverseAllowed(s)) && t == ReverseDone(s, p))
    || ReverseInterrupted(s, t, p)
  }

  function ReverseOf(s: State): Payment
    requires s.rec.target.Some?
  {
    Reverse(ReverseAmount(s), s.rec.target.value, SpendableMicros(s.wallets.destination))
  }

  /** What the two phases of a pass that pay do to the wallets and the log. */
  lemma {:induction false} ReversePays(s: State, t: State, p: PayReplies)
    requires ReversePhase(s, t, p)
    ensures || (SameBalances(s.wallets, t.wallets) && t.payments == s.payments)
            || (s.rec.target.Some? && t.payments == s.payments + [ReverseOf(s)]
                && PaidOut(s.wallets, t.wallets, ReverseOf(s), p.arrived))
  {}

  lemma {:induction false} FinishPays(s: State, t: State, o: RollbackReplies, r: Outcome)
    requires FinishPhase(s, t, o, r)
    ensures || (SameBalances(s.wallets, t.wallets) && t.payments == s.payments)
            || (s.rec.source.Some? && t.payments == s.payments + [TopUp(Short(s))]
                && PaidOut(s.wallets, t.wallets, TopUp(Short(s)), o.topUp.arrived))
  {}

  lemma {:induction false} BookedReverse(s: State, t: State, p: PayReplies, a: Account)
    requires ReversePhase(s, t, p)
    ensures Booked(s, t, a, if Pays(s, t, OfReverse) && a == Legacy then p.arrived else 0)
    ensures HowMany(t.payments, OfTopUp) == HowMany(s.payments, OfTopUp)
  {
    ReversePays(s, t, p);
    if t.payments != s.payments {
      BookedPayment(s, t, ReverseOf(s), p.arrived, a);
      HowManyAppend(s.payments, ReverseOf(s), OfReverse);
      HowManyAppend(s.payments, ReverseOf(s), OfTopUp);
    }
  }

  lemma {:induction false} BookedFinish(s: State, t: State, o: RollbackReplies, r: Outcome, a: Account)
    requires FinishPhase(s, t, o, r)
    ensures Booked(s, t, a, if Pays(s, t, OfTopUp) && a == Legacy then o.topUp.arrived else 0)
    ensures HowMany(t.payments, OfReverse) == HowMany(s.payments, OfReverse)
  {
    FinishPays(s, t, o, r);
    if t.payments != s.payments {
      BookedPayment(s, t, TopUp(Short(s)), o.topUp.arrived, a);
      HowManyAppend(s.payments, TopUp(Short(s)), OfReverse);
      HowManyAppend(s.payments, TopUp(Short(s)), OfTopUp);
    }
  }

  lemma {:induction false} BookedPhases(p: State, q: State, t: State, o: RollbackReplies, r: Outcome, a: Account)
    requires ReversePhase(p, q, o.reverse) && FinishPhase(q, t, o, r)
    ensures Booked(p, t, a, ArrivesBack(p, t, o, a))
  {
    BookedReverse(p, q, o.reverse, a);
    BookedFinish(q, t, o, r, a);
  }

  lemma {:induction false} BookedInterrupted(p: State, t: State, o: RollbackReplies, a: Account)
    requires ReverseInterrupted(p, t, o.reverse)
    ensures Booked(p, t, a, ArrivesBack(p, t, o, a))
  {
    BookedReverse(p, t, o.reverse, a);
  }

  lemma {:induction false} BookedFrom(s: State, p: State, t: State, o: RollbackReplies, a: Account)
    requires SameBalances(s.wallets, p.wallets) && p.payments == s.payments && Booked(p, t, a, ArrivesBack(p, t, o, a))
    ensures Booked(s, t, a, ArrivesBack(s, t, o, a))
  {}

  lemma {:induction false} BookedPass(s: State, t: State, o: RollbackReplies, r: Outcome, a: Account)
    requires Pass(s, t, o, r)
    ensures Booked(s, t, a, ArrivesBack(s, t, o, a))
  {
    if s.rec.status == RollbackStarted {
      var p := PointerDone(s);
      if r.Err? && PointerInterrupted(s, t) {
      } else if r.Err? && ReverseInterrupted(p, t, o.reverse) {
        BookedInterrupted(p, t, o, a);
        BookedFrom(s, p, t, o, a);
      } else {
        BookedPhases(p, ReverseDone(p, o.reverse), t, o, r, a);
        BookedFrom(s, p, t, o, a);
      }
    }
  }

  lemma {:induction false} BookedNext(s: State, t: State, move: Move, a: Account)
    requires Next(s, t, move)
    ensures Booked(s, t, a, Arrives(s, t, move, a))
  {
    match move
    case StepForward(o) =>
      ForwardPays(s, t, o);
      BookedForward(s, t, o, a);
    case StepRollback(o, r) => BookedPass(s, t, o, r, a);
    case Control(_) =>
    case Outside(_) =>
  }

  /** In every run, whatever is lost or interrupted: no wallet gains or loses anything
      but what arrived and what the log says was paid. */
  lemma {:induction false} BooksBalance(states: seq<State>, moves: seq<Move>, n: nat, a: Account)
    requires Run(states, moves) && n <= |moves|
    ensures Held(states[n].wallets, a) + Drawn(states[n].payments, a)
         == Held(states[0].wallets, a) + Drawn(states[0].payments, a) + Received(states, moves, n, a)
  {
    if n > 0 {
      BooksBalance(states, moves, n - 1, a);
      assert Next(states[n - 1], states[n], moves[n - 1]);
      BookedNext(states[n - 1], states[n], moves[n - 1], a);
    }
  }
}
