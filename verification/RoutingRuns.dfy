/** Routing against the money: what an account on the legacy wallet can count on. */
module RoutingRuns {
  import opened Common
  import opened Amounts
  import opened Migrations
  import opened Sagas
  import opened Rollback
  import opened RollbackRuns
  import opened ForwardLimits
  import opened Routing

  /** In every run, in every state of the cutover, before it begins no step having been
      taken, and except for the status missing from the active ones, an account is routed
      to the legacy wallet only if no forward payment is on record, or it was rolled back
      and then read within a cent of its source. */
  lemma {:induction false} LegacyRouteFindsMoney(cutover: CutoverState, states: seq<State>, moves: seq<Move>, n: nat)
    requires Run(states, moves) && n <= |moves|
    requires Fresh(states[0].rec) && states[0].payments == []
    requires (cutover == Pre ==> n == 0) && Guard(cutover, Some(states[n].rec.status)) == Ok(LegacyUsd)
    requires cutover != InProgress || states[n].rec.status != LegacyZeroVerified
    ensures states[n].rec.moveTx == None || (states[n].rec.status == RolledBack && ReadWhole(states[n]))
  {
    EveryRunIsSafe(states, moves, n);
  }

  /** In every run an account with a forward payment on record is given a wallet exactly
      when its migration has ended, complete or rolled back, and at the status missing
      from the active ones; in between it is told to wait, or that it failed. */
  lemma {:induction false} PaidAccountsAreHeld(states: seq<State>, moves: seq<Move>, n: nat)
    requires Run(states, moves) && n <= |moves|
    requires Fresh(states[0].rec) && states[0].payments == [] && states[n].rec.moveTx.Some?
    ensures var status := states[n].rec.status;
            && (Guard(InProgress, Some(status)).Ok? <==>
                  status == Complete || status == RolledBack || status == LegacyZeroVerified)
            && (Guard(InProgress, Some(status)) == Err(MigrationFailed) <==> status == Failed || status == RequiresReview)
  {
    EveryRunIsSafe(states, moves, n);
  }

  /** What a client is shown while the cutover is in progress, in every run in which
      nobody else pays into the legacy wallet. A USDT balance, native or as legacy dollars
      for a client without support, is shown only if the legacy wallet holds nothing but
      dust. A legacy balance is shown only to accounts whose money is there, the status
      missing from the active ones excepted. */
  lemma {:induction false} PresentationFindsMoney(states: seq<State>, moves: seq<Move>, n: nat, supportsUsdt: bool)
    requires Run(states, moves) && n <= |moves|
    requires Fresh(states[0].rec) && states[0].payments == []
    requires forall i :: 0 <= i < |moves| ==> NoLegacyCredit(states[i], moves[i])
    ensures var s := states[n];
            match Present(InProgress, Some(s.rec.status), supportsUsdt)
            case Ok(ShowUsdt) => supportsUsdt && OnlyDust(s.wallets.legacy)
            case Ok(ShowLegacyUsdCompat) => !supportsUsdt && OnlyDust(s.wallets.legacy)
            case Ok(ShowLegacyUsd) =>
              s.rec.moveTx == None || s.rec.status == LegacyZeroVerified || (s.rec.status == RolledBack && ReadWhole(s))
            case Err(_) => s.rec.status != NotStarted && s.rec.status != Complete && s.rec.status != RolledBack
  {
    EveryRunIsSafe(states, moves, n);
    VerifiedStaysDrained(states, moves, n);
    NeverSkipped(states, moves, n);
  }

  /** No step or request of the runner skips a record. */
  lemma {:induction false} NeverSkipped(states: seq<State>, moves: seq<Move>, n: nat)
    requires Run(states, moves) && n <= |moves| && Fresh(states[0].rec)
    ensures states[n].rec.status != Skipped
  {
    if n > 0 {
      NeverSkipped(states, moves, n - 1);
      assert Next(states[n - 1], states[n], moves[n - 1]);
      NotSkippedNext(states[n - 1], states[n], moves[n - 1]);
    }
  }

  lemma {:induction false} NotSkippedNext(s: State, t: State, move: Move)
    requires Next(s, t, move) && s.rec.status != Skipped
    ensures t.rec.status != Skipped
  {
    match move
    case StepForward(_) =>
    case StepRollback(o, r) => if s.rec.status == RollbackStarted { PassFramed(s, t, o, r); }
    case Control(_) =>
    case Outside(_) =>
  }
}
