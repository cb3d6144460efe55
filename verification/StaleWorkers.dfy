/** The balance payment with everything interleaved: any number of workers whose locks
    have gone stale, each acting on whatever it once read, its payment and its write
    apart. Returns of a rollback are credits from outside here. */
module StaleWorkers {
  import opened Common
  import opened Amounts
  import opened Migrations
  import opened Sagas

  /** The record and the legacy wallet, what was credited to it so far, the readings of
      the balance and the amounts of loaded records that some worker still has in hand,
      and the payments made. */
  datatype World = World(
    rec: Migration,
    legacy: nat,
    credited: nat,
    readings: set<nat>,
    held: set<nat>,
    paid: seq<nat>)

  datatype Act = ReadBalance | Load | Write(e: Event) | Pay(units: nat) | Outside(legacy: nat)

  /** A recorded balance is one that some worker read. */
  predicate Grounded(readings: set<nat>, e: Event) {
    e.Transition? && e.change.BalanceRecorded? ==> e.change.source in readings
  }

  /** Updates offered to the record: issued ones, and those of retries on any old
      reading. */
  predicate Offered(m: Migration, e: Event) {
    || Issued(m, e)
    || e == Transition(Failed, PointerFlipped, Nothing) || e == Transition(Failed, NotStarted, ProgressCleared)
  }

  predicate Can(w: World, a: Act) {
    match a
    case ReadBalance => true
    case Load => w.rec.status == InvoiceCreated && w.rec.source.Some?
    case Write(e) => Offered(w.rec, e) && Grounded(w.readings, e)
    case Pay(units) => units in w.held && UnitsToPico(units) <= w.legacy
    case Outside(_) => true
  }

  function After(w: World, a: Act): World
    requires Can(w, a)
  {
    match a
    case ReadBalance => w.(readings := w.readings + {PreciseUnits(w.legacy)})
    case Load => w.(held := w.held + {w.rec.source.value})
    case Write(e) => w.(rec := Apply(w.rec, e))
    case Pay(units) => w.(legacy := w.legacy - UnitsToPico(units), paid := w.paid + [units])
    case Outside(legacy) =>
      w.(legacy := legacy, credited := w.credited + if legacy > w.legacy then legacy - w.legacy else 0)
  }

  predicate CanAll(w: World, acts: seq<Act>)
    decreases |acts|
  {
    acts == [] || (Can(w, acts[0]) && CanAll(After(w, acts[0]), acts[1..]))
  }

  function AfterAll(w: World, acts: seq<Act>): World
    requires CanAll(w, acts)
    decreases |acts|
  {
    if acts == [] then w else AfterAll(After(w, acts[0]), acts[1..])
  }

  /** Payments that moved something. */
  function Positive(paid: seq<nat>): nat {
    if paid == [] then 0 else Positive(paid[..|paid| - 1]) + if paid[|paid| - 1] > 0 then 1 else 0
  }

  function Sum(paid: seq<nat>): nat {
    if paid == [] then 0 else Sum(paid[..|paid| - 1]) + paid[|paid| - 1]
  }

  // ---------------------------------------------------------------------------
  // What every interleaving keeps

  /** Nobody holds an amount below the balance. */
  predicate Above(w: World) {
    && (forall u :: u in w.readings ==> PreciseUnits(w.legacy) <= u)
    && (forall u :: u in w.held ==> PreciseUnits(w.legacy) <= u)
    && (w.rec.source.Some? ==> PreciseUnits(w.legacy) <= w.rec.source.value)
  }

  predicate Once(w: World) {
    Positive(w.paid) == 0 || (Positive(w.paid) == 1 && PreciseUnits(w.legacy) == 0)
  }

  /** Nothing is paid that was not there. Without credits the balance only falls, so what
      was read is enough to empty the wallet. */
  predicate Safe(start: nat, w: World) {
    && UnitsToPico(Sum(w.paid)) + w.legacy <= start + w.credited
    && (w.credited == 0 ==> Above(w) && Once(w))
  }

  lemma {:induction false} PaidAppend(paid: seq<nat>, units: nat)
    ensures Sum(paid + [units]) == Sum(paid) + units
    ensures Positive(paid + [units]) == Positive(paid) + if units > 0 then 1 else 0
  {
    assert (paid + [units])[..|paid|] == paid;
  }

  lemma {:induction false} SourceIsGrounded(m: Migration, e: Event, readings: set<nat>)
    requires Offered(m, e) && Grounded(readings, e)
    ensures var n := Apply(m, e); n.source == m.source || n.source == None || n.source.value in readings
  {
    match e
    case Transition(_, _, _) =>
    case Acquire(_, _) =>
    case Release(_) =>
    case MarkFailed(_, _) =>
  }

  lemma {:induction false} LowerReadsLess(legacy: nat, left: nat)
    requires left <= legacy
    ensures PreciseUnits(left) <= PreciseUnits(legacy)
  {}

  lemma {:induction false} PayingEmpties(legacy: nat, units: nat, left: nat)
    requires PreciseUnits(legacy) <= units && left == legacy - UnitsToPico(units)
    ensures PreciseUnits(legacy) == units && PreciseUnits(left) == 0
  {}

  lemma {:induction false} SafePay(start: nat, w: World, units: nat)
    requires Safe(start, w) && Can(w, Pay(units))
    ensures Safe(start, After(w, Pay(units)))
  {
    var t := After(w, Pay(units));
    PaidAppend(w.paid, units);
    if w.credited == 0 { PayingEmpties(w.legacy, units, t.legacy); }
  }

  lemma {:induction false} SafeAct(start: nat, w: World, a: Act)
    requires Safe(start, w) && Can(w, a)
    ensures Safe(start, After(w, a))
  {
    match a
    case ReadBalance =>
    case Load =>
    case Write(e) => SourceIsGrounded(w.rec, e, w.readings);
    case Pay(units) => SafePay(start, w, units);
    case Outside(legacy) => if legacy <= w.legacy { LowerReadsLess(w.legacy, legacy); }
  }

  lemma {:induction false} SafeAlways(start: nat, w: World, acts: seq<Act>)
    requires Safe(start, w) && CanAll(w, acts)
    ensures Safe(start, AfterAll(w, acts))
    decreases |acts|
  {
    if acts != [] {
      SafeAct(start, w, acts[0]);
      SafeAlways(start, After(w, acts[0]), acts[1..]);
    }
  }

  lemma {:induction false} PositiveBelowSum(paid: seq<nat>)
    ensures Positive(paid) <= Sum(paid)
  {
    if paid != [] { PositiveBelowSum(paid[..|paid| - 1]); }
  }

  predicate AtStart(w: World) {
    Fresh(w.rec) && w.credited == 0 && w.readings == {} && w.held == {} && w.paid == []
  }

  lemma {:induction false} PaidOnce(w: World, acts: seq<Act>, credit: nat)
    requires AtStart(w) && CanAll(w, acts) && AfterAll(w, acts).credited <= credit
    requires credit == 0 || w.legacy + credit < UnitsToPico(2)
    ensures Positive(AfterAll(w, acts).paid) <= 1
  {
    SafeAlways(w.legacy, w, acts);
    PositiveBelowSum(AfterAll(w, acts).paid);
  }

  // ---------------------------------------------------------------------------
  // A credit lets two workers pay

  lemma {:induction false} ActThen(w: World, a: Act, rest: seq<Act>)
    requires Can(w, a) && CanAll(After(w, a), rest)
    ensures CanAll(w, [a] + rest) && AfterAll(w, [a] + rest) == AfterAll(After(w, a), rest)
  {
    assert ([a] + rest)[1..] == rest;
  }

  /** From a record with its balance read to two workers that each loaded it and pay. */
  lemma {:induction false} TwoPay(w: World, units: nat) returns (acts: seq<Act>)
    requires w.rec.status == InvoiceCreated && w.rec.source == Some(units) && w.paid == []
    requires units > 0 && w.legacy <= UnitsToPico(2 * units)
    ensures CanAll(w, acts) && AfterAll(w, acts).paid == [units, units]
    ensures AfterAll(w, acts).credited == w.credited + UnitsToPico(2 * units) - w.legacy
  {
    var w1 := After(w, Load);
    var w2 := After(w1, Outside(UnitsToPico(2 * units)));
    var w3 := After(w2, Pay(units));
    ActThen(w3, Pay(units), []);
    ActThen(w2, Pay(units), [Pay(units)]);
    ActThen(w1, Outside(UnitsToPico(2 * units)), [Pay(units)] + [Pay(units)]);
    acts := [Load] + ([Outside(UnitsToPico(2 * units))] + ([Pay(units)] + [Pay(units)]));
    ActThen(w, Load, [Outside(UnitsToPico(2 * units))] + ([Pay(units)] + [Pay(units)]));
  }

  lemma {:induction false} ActsThen(w: World, acts: seq<Act>, rest: seq<Act>)
    requires CanAll(w, acts) && CanAll(AfterAll(w, acts), rest)
    ensures CanAll(w, acts + rest) && AfterAll(w, acts + rest) == AfterAll(AfterAll(w, acts), rest)
    decreases |acts|
  {
    if acts == [] {
      assert acts + rest == rest;
    } else {
      ActsThen(After(w, acts[0]), acts[1..], rest);
      assert (acts + rest)[1..] == acts[1..] + rest;
    }
  }

  /** A new record is provisioned and the balance read. */
  lemma {:induction false} BalanceIsRead(w: World) returns (acts: seq<Act>)
    requires w.rec.status == NotStarted
    ensures CanAll(w, acts)
    ensures AfterAll(w, acts) == w.(rec := w.rec.(status := Provisioned), readings := w.readings + {PreciseUnits(w.legacy)})
  {
    var start, provision := Write(Transition(NotStarted, Started, Nothing)), Write(Transition(Started, Provisioned, Nothing));
    var w1 := After(w, start);
    var w2 := After(w1, provision);
    ActThen(w2, ReadBalance, []);
    ActThen(w1, provision, [ReadBalance]);
    ActThen(w, start, [provision] + [ReadBalance]);
    acts := [start] + ([provision] + [ReadBalance]);
  }

  /** The balance is recorded and the invoice made. */
  lemma {:induction false} InvoiceIsMade(w: World, units: nat) returns (acts: seq<Act>)
    requires w.rec.status == Provisioned && units in w.readings
    ensures CanAll(w, acts)
    ensures var t := AfterAll(w, acts);
            && t.rec.status == InvoiceCreated && t.rec.source == Some(units)
            && t.legacy == w.legacy && t.credited == w.credited && t.paid == w.paid
  {
    var record := Write(Transition(Provisioned, BalanceRead, BalanceRecorded(units, 0)));
    var invoice := Write(Transition(BalanceRead, InvoiceCreated, MoveInvoiced(Invoice("lnbc", None))));
    var w1 := After(w, record);
    ActThen(w1, invoice, []);
    ActThen(w, record, [invoice]);
    acts := [record] + [invoice];
  }

  /** With a balance of one unit, two workers pay it as soon as it is there twice. */
  lemma {:induction false} OneUnitPaidTwice(w: World) returns (acts: seq<Act>)
    requires w.rec.status == NotStarted && w.paid == [] && PreciseUnits(w.legacy) == 1
    ensures CanAll(w, acts) && AfterAll(w, acts).paid == [1, 1]
    ensures AfterAll(w, acts).credited == w.credited + UnitsToPico(2) - w.legacy
  {
    var first := BalanceIsRead(w);
    var w1 := AfterAll(w, first);
    var second := InvoiceIsMade(w1, 1);
    var w2 := AfterAll(w1, second);
    var third := TwoPay(w2, 1);
    ActsThen(w1, second, third);
    ActsThen(w, first, second + third);
    acts := first + (second + third);
  }

  /** A credit that makes the wallet hold two units can be used: others first leave just
      under two, or bring it up to one. */
  lemma {:induction false} CreditPaysTwice(w: World, credit: nat) returns (acts: seq<Act>)
    requires AtStart(w) && credit > 0 && w.legacy + credit >= UnitsToPico(2)
    ensures CanAll(w, acts) && AfterAll(w, acts).paid == [1, 1] && AfterAll(w, acts).credited <= credit
  {
    var left := if w.legacy >= UnitsToPico(2) then UnitsToPico(2) - 1
                else if w.legacy < UnitsToPico(1) then UnitsToPico(1) else w.legacy;
    var w1 := After(w, Outside(left));
    var rest := OneUnitPaidTwice(w1);
    ActThen(w, Outside(left), rest);
    acts := [Outside(left)] + rest;
  }

  /** In every interleaving with at most so much credit the balance is paid once. */
  ghost predicate PaysOnce(w: World, credit: nat) {
    forall acts :: CanAll(w, acts) && AfterAll(w, acts).credited <= credit ==> Positive(AfterAll(w, acts).paid) <= 1
  }

  /** Stale locks, lost replies, stale retries and repeated steps never pay a balance
      twice by themselves: they can exactly if the wallet is credited meanwhile and could
      then have held two units. */
  lemma {:induction false} PaysOnceIff(w: World, credit: nat)
    requires AtStart(w)
    ensures PaysOnce(w, credit) <==> credit == 0 || w.legacy + credit < UnitsToPico(2)
  {
    if credit == 0 || w.legacy + credit < UnitsToPico(2) {
      forall acts | CanAll(w, acts) && AfterAll(w, acts).credited <= credit ensures Positive(AfterAll(w, acts).paid) <= 1 {
        PaidOnce(w, acts, credit);
      }
    } else {
      var acts := CreditPaysTwice(w, credit);
      PaidAppend([1], 1);
      PaidAppend([], 1);
      assert [1] + [1] == [1, 1] && [] + [1] == [1];
    }
  }
}
