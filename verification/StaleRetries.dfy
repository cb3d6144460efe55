/** Retries that act on an old reading (retry-failed.ts): the listing is read once, the
    updates follow, and other actors write in between. */
module StaleRetries {
  import opened Common
  import opened Migrations
  import opened Batches

  // ---------------------------------------------------------------------------
  // Runs with stale retries

  /** The update of a retry that read the record failed and unpaid at some time in the
      history. */
  ghost predicate StaleRetry(history: seq<Migration>, e: Event) {
    exists r :: r in history && r.status == Failed && NothingPaid(r) && e == RetryUpdate(r)
  }

  /** A record's history: each state follows by an issued event, or by a retry that
      decided on any earlier state. */
  ghost predicate History(ms: seq<Migration>)
    decreases |ms|
  {
    && ms != []
    && (|ms| == 1 || (History(ms[..|ms| - 1]) && Follows(ms[..|ms| - 1], ms[|ms| - 1])))
  }

  ghost predicate Follows(ms: seq<Migration>, n: Migration)
    requires ms != []
  {
    var m := ms[|ms| - 1];
    exists e :: (Issued(m, e) || StaleRetry(ms, e)) && n == Apply(m, e)
  }

  /** Between any two states of the history the recorded payments stay. */
  ghost predicate PaymentsStay(ms: seq<Migration>) {
    forall i, j :: 0 <= i <= j < |ms| ==> KeepsPayments(ms[i], ms[j])
  }

  ghost predicate AlwaysStay(m: Migration) {
    forall ms :: History(ms) && ms[0] == m ==> PaymentsStay(ms)
  }

  // ---------------------------------------------------------------------------
  // With a previous default on the record a stale retry loses nothing

  predicate Planned(m: Migration) { Consistent(m) && m.previousDefault.Some? }

  ghost predicate AllPlanned(ms: seq<Migration>) { forall m :: m in ms ==> Planned(m) }

  /** Such a record is retried to PointerFlipped, with no field cleared. */
  lemma {:induction false} PlannedRetry(m: Migration, r: Migration)
    requires Planned(m) && Planned(r)
    ensures Planned(Apply(m, RetryUpdate(r))) && KeepsPayments(m, Apply(m, RetryUpdate(r)))
  {
    assert RetryUpdate(r) == Transition(Failed, PointerFlipped, Nothing);
  }

  lemma {:induction false} PreviousDefaultStays(m: Migration, e: Event)
    requires m.previousDefault.Some? && Issued(m, e)
    ensures Apply(m, e).previousDefault.Some?
  {}

  lemma {:induction false} PlannedStep(ms: seq<Migration>, n: Migration)
    requires ms != [] && AllPlanned(ms) && Follows(ms, n)
    ensures Planned(n) && KeepsPayments(ms[|ms| - 1], n)
  {
    var m := ms[|ms| - 1];
    assert m in ms;
    var e :| (Issued(m, e) || StaleRetry(ms, e)) && n == Apply(m, e);
    if Issued(m, e) {
      ConsistentStep(m, e);
      KeepsPaymentsStep(m, e);
      PreviousDefaultStays(m, e);
    } else {
      var r :| r in ms && r.status == Failed && NothingPaid(r) && e == RetryUpdate(r);
      PlannedRetry(m, r);
    }
  }

  lemma {:induction false} PaymentsStayLonger(ms: seq<Migration>, n: Migration)
    requires ms != [] && PaymentsStay(ms) && KeepsPayments(ms[|ms| - 1], n)
    ensures PaymentsStay(ms + [n])
  {
    var all := ms + [n];
    forall i, j | 0 <= i <= j < |all| ensures KeepsPayments(all[i], all[j]) {
      if i < |ms| {
        assert KeepsPayments(ms[i], ms[|ms| - 1]);
      }
    }
  }

  ghost predicate Kept(ms: seq<Migration>) { AllPlanned(ms) && PaymentsStay(ms) }

  lemma {:induction false} KeptLonger(ms: seq<Migration>, n: Migration)
    requires ms != [] && Kept(ms) && Follows(ms, n)
    ensures Kept(ms + [n])
  {
    PlannedStep(ms, n);
    PaymentsStayLonger(ms, n);
  }

  lemma {:induction false} KeptAlone(m: Migration)
    requires Planned(m)
    ensures Kept([m])
  {
    var ms := [m];
    forall i, j | 0 <= i <= j < |ms| ensures KeepsPayments(ms[i], ms[j]) {}
  }

  lemma {:induction false} PlannedHistory(ms: seq<Migration>)
    requires History(ms) && Planned(ms[0])
    ensures Kept(ms)
    decreases |ms|
  {
    if |ms| == 1 {
      KeptAlone(ms[0]);
      assert ms == [ms[0]];
    } else {
      var init, last := ms[..|ms| - 1], ms[|ms| - 1];
      PlannedHistory(init);
      KeptLonger(init, last);
      assert ms == init + [last];
    }
  }

  // ---------------------------------------------------------------------------
  // Without one it can lose a payment

  /** The walk from a reset record to its next payment. */
  function ForgetfulRun(tx: TxId): seq<Event> {
    var invoice := Invoice("lnbc", None);
    [Transition(NotStarted, Started, Nothing), Transition(Started, Provisioned, Nothing),
     Transition(Provisioned, BalanceRead, BalanceRecorded(0, 0)),
     Transition(BalanceRead, InvoiceCreated, MoveInvoiced(invoice)),
     Transition(InvoiceCreated, BalanceMoveSending, MovePaid(tx))]
  }

  /** After a reset, issued events alone record any transaction, over the one there. */
  lemma {:induction false} ResetRecordsAnother(m: Migration, tx: TxId)
    requires m.status == NotStarted
    ensures IssuedRun(m, ForgetfulRun(tx))
    ensures var n := Replay(m, ForgetfulRun(tx));
            n.moveTx == Some(tx) && n.status == BalanceMoveSending && n.lockedBy == m.lockedBy
  {
    var es := ForgetfulRun(tx);
    var m1 := Apply(m, es[0]);
    var m2 := Apply(m1, es[1]);
    var m3 := Apply(m2, es[2]);
    var m4 := Apply(m3, es[3]);
    RunCons(m4, es[4], []);
    RunCons(m3, es[3], [es[4]]);
    RunCons(m2, es[2], [es[3], es[4]]);
    RunCons(m1, es[1], [es[2], es[3], es[4]]);
    RunCons(m, es[0], [es[1], es[2], es[3], es[4]]);
  }

  lemma {:induction false} ReachesRun(m: Migration, n: Migration, es: seq<Event>)
    requires Reaches(m, n) && IssuedRun(n, es)
    ensures Reaches(m, Replay(n, es))
    decreases |es|
  {
    if es != [] {
      ReachesStep(m, n, es[0]);
      ReachesRun(m, Apply(n, es[0]), es[1..]);
    }
  }

  lemma {:induction false} ReachesTrans(a: Migration, b: Migration, c: Migration)
    requires Reaches(a, b) && Reaches(b, c)
    ensures Reaches(a, c)
  {
    var es :| IssuedRun(b, es) && Replay(b, es) == c;
    ReachesRun(a, b, es);
  }

  lemma {:induction false} ResetReaches(m: Migration, tx: TxId) returns (n: Migration)
    requires m.status == NotStarted
    ensures Reaches(m, n) && n.moveTx == Some(tx) && n.status == BalanceMoveSending && n.lockedBy == m.lockedBy
  {
    ResetRecordsAnother(m, tx);
    n := Replay(m, ForgetfulRun(tx));
  }

  lemma {:induction false} FailsUnpaid(m: Migration, worker: WorkerId) returns (a: Migration)
    requires Fresh(m)
    ensures Reaches(m, a) && a == m.(status := Failed)
  {
    var m1 := Apply(m, Acquire(worker, false));
    var m2 := Apply(m1, Transition(NotStarted, Started, Nothing));
    a := Apply(m2, MarkFailed(worker, FailureStatus(Started)));
    ReachesSelf(m);
    ReachesStep(m, m, Acquire(worker, false));
    ReachesStep(m, m1, Transition(NotStarted, Started, Nothing));
    ReachesStep(m, m2, MarkFailed(worker, FailureStatus(Started)));
  }

  /** Another retry resets the record, and it pays. */
  lemma {:induction false} RetriedAndPaid(a: Migration, tx: TxId) returns (b: Migration)
    requires a.status == Failed && NothingPaid(a) && a.previousDefault == None
    ensures Reaches(a, b) && b.status == BalanceMoveSending && b.moveTx == Some(tx) && b.lockedBy == a.lockedBy
  {
    var reset := Apply(a, RetryUpdate(a));
    b := ResetReaches(reset, tx);
    ReachesSelf(a);
    ReachesStep(a, a, RetryUpdate(a));
    ReachesTrans(a, reset, b);
  }

  /** It goes on to the one status whose failures are marked failed though it paid. */
  lemma {:induction false} PaidAndVerified(b: Migration) returns (c: Migration)
    requires b.status == BalanceMoveSending
    ensures Reaches(b, c) && c.status == FeeReimbursed && c.moveTx == b.moveTx && c.lockedBy == b.lockedBy
  {
    var b1 := Apply(b, Transition(BalanceMoveSending, BalanceMoveSent, Nothing));
    var b2 := Apply(b1, Transition(BalanceMoveSent, BalanceMoveVerified, Nothing));
    c := Apply(b2, Transition(BalanceMoveVerified, FeeReimbursed, FeeAbsorbed(0)));
    ReachesSelf(b);
    ReachesStep(b, b, Transition(BalanceMoveSending, BalanceMoveSent, Nothing));
    ReachesStep(b, b1, Transition(BalanceMoveSent, BalanceMoveVerified, Nothing));
    ReachesStep(b, b2, Transition(BalanceMoveVerified, FeeReimbursed, FeeAbsorbed(0)));
  }

  lemma {:induction false} PaidAndFails(b: Migration, worker: WorkerId) returns (c: Migration)
    requires b.status == FeeReimbursed && b.lockedBy == None
    ensures Reaches(b, c) && c.status == Failed && c.moveTx == b.moveTx
  {
    var b1 := Apply(b, Transition(FeeReimbursed, PointerFlipped, PointerSwapped("previous")));
    var b2 := Apply(b1, Transition(PointerFlipped, LegacyZeroVerified, Nothing));
    var b3 := Apply(b2, Acquire(worker, false));
    c := Apply(b3, MarkFailed(worker, FailureStatus(LegacyZeroVerified)));
    ReachesSelf(b);
    ReachesStep(b, b, Transition(FeeReimbursed, PointerFlipped, PointerSwapped("previous")));
    ReachesStep(b, b1, Transition(PointerFlipped, LegacyZeroVerified, Nothing));
    ReachesStep(b, b2, Acquire(worker, false));
    ReachesStep(b, b3, MarkFailed(worker, FailureStatus(LegacyZeroVerified)));
  }

  lemma {:induction false} HistoryStep(ms: seq<Migration>, e: Event) returns (all: seq<Migration>)
    requires History(ms) && (Issued(ms[|ms| - 1], e) || StaleRetry(ms, e))
    ensures History(all) && ms <= all && all[|all| - 1] == Apply(ms[|ms| - 1], e)
  {
    all := ms + [Apply(ms[|ms| - 1], e)];
    assert all[..|all| - 1] == ms;
  }

  /** A history goes on along issued events. */
  lemma {:induction false} HistoryOn(ms: seq<Migration>, es: seq<Event>) returns (all: seq<Migration>)
    requires History(ms) && IssuedRun(ms[|ms| - 1], es)
    ensures History(all) && ms <= all && all[|all| - 1] == Replay(ms[|ms| - 1], es)
    decreases |es|
  {
    if es == [] {
      all := ms;
    } else {
      var next := HistoryStep(ms, es[0]);
      all := HistoryOn(next, es[1..]);
    }
  }

  lemma {:induction false} HistoryReaches(ms: seq<Migration>, n: Migration) returns (all: seq<Migration>)
    requires History(ms) && Reaches(ms[|ms| - 1], n)
    ensures History(all) && ms <= all && all[|all| - 1] == n
  {
    var es :| IssuedRun(ms[|ms| - 1], es) && Replay(ms[|ms| - 1], es) == n;
    all := HistoryOn(ms, es);
  }

  /** A new record is read failed and unpaid; another retry lets it pay and fail at
      LegacyZeroVerified. */
  lemma {:induction false} ReadUnpaidThenPaid(m: Migration, tx: TxId) returns (ms: seq<Migration>, read: Migration)
    requires Fresh(m) && m.previousDefault == None
    ensures History(ms) && ms[0] == m && ms[|ms| - 1].status == Failed && ms[|ms| - 1].moveTx == Some(tx)
    ensures read in ms && read.status == Failed && NothingPaid(read) && read.previousDefault == None
  {
    read := FailsUnpaid(m, "worker");
    var sending := RetriedAndPaid(read, tx);
    var verified := PaidAndVerified(sending);
    var paid := PaidAndFails(verified, "worker");
    ReachesTrans(read, sending, verified);
    ReachesTrans(read, verified, paid);
    var first := HistoryReaches([m], read);
    ms := HistoryReaches(first, paid);
    assert ms[|first| - 1] == read;
  }

  /** The update on the first reading then lands. */
  lemma {:induction false} StaleReset(ms: seq<Migration>, read: Migration) returns (all: seq<Migration>)
    requires History(ms) && ms[|ms| - 1].status == Failed
    requires read in ms && read.status == Failed && NothingPaid(read) && read.previousDefault == None
    ensures History(all) && ms <= all && all[|all| - 1].status == NotStarted
  {
    assert StaleRetry(ms, RetryUpdate(read));
    all := HistoryStep(ms, RetryUpdate(read));
  }

  /** The record then goes on to any other transaction. */
  lemma {:induction false} ResetGoesOn(ms: seq<Migration>, other: TxId) returns (all: seq<Migration>)
    requires History(ms) && ms[|ms| - 1].status == NotStarted
    ensures History(all) && ms <= all && all[|all| - 1].moveTx == Some(other)
  {
    var sending := ResetReaches(ms[|ms| - 1], other);
    all := HistoryReaches(ms, sending);
  }

  /** So a recorded transaction is replaced by any other. */
  lemma {:induction false} StaleRetryLosesPayment(m: Migration, tx: TxId, other: TxId) returns (ms: seq<Migration>, i: nat)
    requires Fresh(m) && m.previousDefault == None
    ensures History(ms) && ms[0] == m && i < |ms|
    ensures ms[i].moveTx == Some(tx) && ms[|ms| - 1].moveTx == Some(other)
  {
    var paid, read := ReadUnpaidThenPaid(m, tx);
    i := |paid| - 1;
    var next := StaleReset(paid, read);
    ms := ResetGoesOn(next, other);
    assert ms[i] == next[i] == paid[i] && ms[0] == next[0] == paid[0];
  }

  /** Recorded payments survive retries on any old reading exactly for records inserted
      with a previous default wallet. The planner inserts every record with one. */
  lemma {:induction false} PaymentsSurviveStaleRetriesIff(m: Migration)
    requires Fresh(m)
    ensures AlwaysStay(m) <==> m.previousDefault.Some?
  {
    if m.previousDefault.Some? {
      FreshIsConsistent(m);
      forall ms | History(ms) && ms[0] == m ensures PaymentsStay(ms) { PlannedHistory(ms); }
    } else {
      var ms, i := StaleRetryLosesPayment(m, "one", "other");
      assert "one"[0] == 'o' && |"one"| == 3 && |"other"| == 5;
      assert !KeepsPayments(ms[i], ms[|ms| - 1]);
    }
  }
}
