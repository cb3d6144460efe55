/** The authorisation and the allowance query, as methods on one account's shared
    state. Other requests may reserve between a request's two reads. */
module TopupDesk {
  import opened Common
  import opened Topup

  datatype Failure =
    | CheckoutDisabled | SettingsDown | BelowMinimum | NoNet | AboveSingleLimit | NoLimitForLevel
    | HistoryDown | ReservationsDown | ExceedsAllowance | CheckoutAlreadyOpen

  /** FAILURE_BY_GATE_REASON */
  function FailureOf(stop: Stop): Failure {
    match stop
    case CreditDisabled => CheckoutDisabled
    case AutoCreditDisabled => CheckoutDisabled
    case NonUsd => CheckoutDisabled
    case SettingsUnavailable => SettingsDown
    case HistoryUnavailable => HistoryDown
    case OverLimit => AboveSingleLimit
    case NoDailyLimit => NoLimitForLevel
    case DailyLimitExceeded => ExceedsAllowance
    case NonPositiveNet => NoNet
    case UnderMinimum => BelowMinimum
  }

  /** The stored record of an authorisation; `outcome` once a payment was seen. */
  datatype Record = Record(account: string, outcome: bool, url: Option<string>, expires: Option<nat>)

  datatype Answer =
    | Authorized(intent: IntentId, remaining: nat, reused: bool)
    | Refused(reason: Failure, left: Option<nat>, hold: Option<Hold>)

  datatype Env = Env(
    master: bool,
    settings: Option<Settings>,
    prior: Option<nat>,
    read: Reply,
    discount: real,
    reserve: Reply,
    record: bool,
    lookup: bool,
    racing: seq<Hold>,
    reread: Reply,
    release: bool)

  datatype Request = Request(amount: nat, level: nat, now: nat, ttl: nat, intent: IntentId, url: string)

  function Remaining(limit: nat, prior: nat, held: int): nat {
    if prior + held >= limit then 0 else limit - prior - held
  }

  /** The figure is the room left: what fits under the limit beside spend and holds is
      exactly what it allows. */
  lemma {:induction false} RemainingIsRoom(limit: nat, prior: nat, held: nat, amount: nat)
    requires amount > 0
    ensures amount + prior + held <= limit <==> amount <= Remaining(limit, prior, held)
    ensures prior + held + Remaining(limit, prior, held) == limit || (Remaining(limit, prior, held) == 0 && prior + held >= limit)
  {}

  function ArgsOf(q: Request, e: Env): GateArgs { GateArgs(true, true, e.settings, q.amount, q.level) }

  /** An amount that passes every gate that needs no history passes the daily one exactly
      if it is at most the figure the query reports. */
  lemma {:induction false} DailyGateIsRemaining(q: Request, e: Env, prior: nat, held: nat)
    requires q.amount > 0 && Gate(ArgsOf(q, e), None, 0.0) == Err(HistoryUnavailable)
    ensures LimitOf(ArgsOf(q, e)).Some?
    ensures Gate(ArgsOf(q, e), Some(prior + held), e.discount) == Err(DailyLimitExceeded)
         <==> q.amount > Remaining(LimitOf(ArgsOf(q, e)).value, prior, held)
  {
    ProbeDecides(ArgsOf(q, e), prior + held, 0.0, e.discount);
    RemainingIsRoom(LimitOf(ArgsOf(q, e)).value, prior, held, q.amount);
  }

  function HoldOf(q: Request): Hold { Hold(q.intent, q.amount, q.now + q.ttl) }

  function InsertAll(ix: seq<Hold>, hs: seq<Hold>): seq<Hold> {
    if hs == [] then ix else Insert(InsertAll(ix, hs[..|hs| - 1]), hs[|hs| - 1])
  }

  /** The second read, on the index the first one left. */
  function ReadAgain(ix: seq<Hold>, q: Request, e: Env): seq<Hold> {
    Prune(InsertAll(Insert(ix, HoldOf(q)), e.racing), q.now)
  }

  predicate BacksOut(ix: seq<Hold>, q: Request, e: Env, prior: nat, limit: nat) {
    e.reread == Works && prior + Total(ReadAgain(ix, q, e)) > limit
  }

  /** When a new link is minted on what the first read left. An unreadable second read
      does not stop it. */
  predicate MintsOn(first: seq<Hold>, q: Request, e: Env)
    requires e.prior.Some?
  {
    && e.reserve == Works
    && Gate(ArgsOf(q, e), Some(e.prior.value + Total(first)), e.discount).Ok?
    && !BacksOut(first, q, e, e.prior.value, LimitOf(ArgsOf(q, e)).value)
  }

  predicate Mints(ix: seq<Hold>, q: Request, e: Env) {
    e.master && e.prior.Some? && e.read == Works && MintsOn(Prune(ix, q.now), q, e)
  }

  /** The index after reserving and reading again, from what the first read left. */
  function IndexAfter(ix: seq<Hold>, q: Request, e: Env, prior: nat, limit: nat): seq<Hold> {
    if e.reserve == Refuses then ix
    else if e.reserve == Lost then Insert(ix, HoldOf(q))
    else if e.reread == Refuses then InsertAll(Insert(ix, HoldOf(q)), e.racing)
    else if BacksOut(ix, q, e, prior, limit) && e.release then Without(ReadAgain(ix, q, e), q.intent)
    else ReadAgain(ix, q, e)
  }

  /** Backing out withdraws the own hold and nobody else's. */
  lemma {:induction false} BackedOutHoldsNothing(ix: seq<Hold>, q: Request, e: Env, prior: nat, limit: nat)
    requires e.reserve == Works && BacksOut(ix, q, e, prior, limit) && e.release
    ensures Unused(IndexAfter(ix, q, e, prior, limit), q.intent)
    ensures forall k :: k in IndexAfter(ix, q, e, prior, limit) <==> k in ReadAgain(ix, q, e) && k.intent != q.intent
  {
    WithoutHolds(ReadAgain(ix, q, e), q.intent);
  }

  lemma {:induction false} InsertAllHolds(ix: seq<Hold>, hs: seq<Hold>, k: Hold)
    requires k in ix
    ensures k in InsertAll(ix, hs)
    decreases |hs|
  {
    if hs != [] {
      InsertAllHolds(ix, hs[..|hs| - 1], k);
      InsertHolds(InsertAll(ix, hs[..|hs| - 1]), hs[|hs| - 1]);
    }
  }

  lemma {:induction false} RacedHolds(first: seq<Hold>, q: Request, e: Env)
    requires q.ttl > 0
    ensures HoldOf(q) in InsertAll(Insert(first, HoldOf(q)), e.racing) && HoldOf(q) in ReadAgain(first, q, e)
  {
    InsertHolds(first, HoldOf(q));
    InsertAllHolds(Insert(first, HoldOf(q)), e.racing, HoldOf(q));
    PruneHolds(InsertAll(Insert(first, HoldOf(q)), e.racing), q.now);
  }

  lemma {:induction false} IndexUnconfirmed(first: seq<Hold>, q: Request, e: Env, prior: nat, limit: nat)
    requires e.reserve != Works
    ensures IndexAfter(first, q, e, prior, limit)
         == if e.reserve == Refuses then first else Insert(first, Hold(q.intent, q.amount, q.now + q.ttl))
  {}

  /** Without backing out, the index is one of the two. */
  lemma {:induction false} IndexUnlessBackedOut(first: seq<Hold>, q: Request, e: Env, prior: nat, limit: nat)
    requires e.reserve == Works && !BacksOut(first, q, e, prior, limit)
    ensures IndexAfter(first, q, e, prior, limit)
         == if e.reread == Refuses then InsertAll(Insert(first, HoldOf(q)), e.racing) else ReadAgain(first, q, e)
  {}

  /** A reservation that is not backed out is held for its whole life, whoever raced it. */
  lemma {:induction false} ReservedIsHeld(first: seq<Hold>, q: Request, e: Env, prior: nat, limit: nat)
    requires e.reserve == Works && !BacksOut(first, q, e, prior, limit) && q.ttl > 0
    ensures HoldOf(q) in IndexAfter(first, q, e, prior, limit)
  {
    var after := IndexAfter(first, q, e, prior, limit);
    IndexUnlessBackedOut(first, q, e, prior, limit);
    if e.reread == Refuses {
      assert HoldOf(q) in after by { RacedHolds(first, q, e); }
    } else {
      assert HoldOf(q) in after by { RacedHolds(first, q, e); }
    }
  }

  function ReasonOn(first: seq<Hold>, q: Request, e: Env): Failure
    requires e.prior.Some?
  {
    match Gate(ArgsOf(q, e), Some(e.prior.value + Total(first)), e.discount)
    case Err(stop) => if HeldOnly(stop, q, e) then CheckoutAlreadyOpen else FailureOf(stop)
    case Ok(_) => if e.reserve != Works then ReservationsDown else ExceedsAllowance
  }

  /** Why a request that is not authorised is refused. */
  function ReasonFor(ix: seq<Hold>, q: Request, e: Env): Failure {
    var probe := Gate(ArgsOf(q, e), None, 0.0);
    if !e.master then CheckoutDisabled
    else if probe.Err? && probe.error != HistoryUnavailable then FailureOf(probe.error)
    else if e.prior == None then HistoryDown
    else if e.read != Works then ReservationsDown
    else ReasonOn(Prune(ix, q.now), q, e)
  }

  /** The limit is exceeded by the account's own holds, not by what it spent. */
  predicate HeldOnly(stop: Stop, q: Request, e: Env) {
    && stop == DailyLimitExceeded && e.prior.Some? && LimitOf(ArgsOf(q, e)).Some?
    && e.prior.value + q.amount <= LimitOf(ArgsOf(q, e)).value
  }

  /** The amount is within all limits. */
  predicate Fits(ix: seq<Hold>, q: Request, e: Env) {
    && e.settings.Some? && q.amount <= e.settings.value.singleLimit && e.prior.Some? && LimitOf(ArgsOf(q, e)).Some?
    && e.prior.value + Total(Prune(ix, q.now)) + q.amount <= LimitOf(ArgsOf(q, e)).value
  }

  /** What a refusal tells the customer is true. A checkout already open means that spend
      alone leaves room and the holds take it; an exceeded allowance means that spend alone
      leaves none, unless another request reserved between the two reads. */
  lemma {:induction false} ReasonTellsTruth(ix: seq<Hold>, q: Request, e: Env)
    ensures match ReasonFor(ix, q, e)
            case CheckoutDisabled => !e.master || (e.settings.Some? && !e.settings.value.autoCredit)
            case SettingsDown => e.master && e.settings == None
            case AboveSingleLimit => e.settings.Some? && q.amount > e.settings.value.singleLimit
            case NoLimitForLevel => e.settings.Some? && q.level !in e.settings.value.dailyLimits
            case HistoryDown => e.prior == None
            case ReservationsDown => e.read != Works || e.reserve != Works
            case NoNet => Fits(ix, q, e) && ComputeFees(q.amount, e.settings.value, e.discount).net <= 0
            case BelowMinimum =>
              && Fits(ix, q, e) && q.amount < e.settings.value.minimum
              && ComputeFees(q.amount, e.settings.value, e.discount).net > 0
            case CheckoutAlreadyOpen =>
              && e.prior.Some? && LimitOf(ArgsOf(q, e)).Some?
              && e.prior.value + q.amount <= LimitOf(ArgsOf(q, e)).value
                 < e.prior.value + Total(Prune(ix, q.now)) + q.amount
            case ExceedsAllowance =>
              && e.prior.Some? && LimitOf(ArgsOf(q, e)).Some?
              && var prior, held, limit := e.prior.value, Total(Prune(ix, q.now)), LimitOf(ArgsOf(q, e)).value;
                 prior + q.amount > limit || prior + held + q.amount <= limit
  {}

  function FirstWith(ix: seq<Hold>, amount: nat): (r: Option<Hold>)
    ensures r.Some? ==> r.value in ix && r.value.amount == amount
    ensures r.None? ==> forall h :: h in ix ==> h.amount != amount
  {
    if ix == [] then None else if ix[0].amount == amount then Some(ix[0]) else FirstWith(ix[1..], amount)
  }

  function Soonest(ix: seq<Hold>): (r: Option<Hold>)
    ensures r.Some? <==> ix != []
    ensures r.Some? ==> r.value in ix && forall h :: h in ix ==> r.value.expires <= h.expires
  {
    if ix == [] then None
    else
      var rest := Soonest(ix[..|ix| - 1]);
      if rest == None || ix[|ix| - 1].expires < rest.value.expires then Some(ix[|ix| - 1]) else rest
  }

  predicate Reofferable(records: map<IntentId, Record>, account: string, h: Hold, now: nat) {
    && h.intent in records
    && var r := records[h.intent];
       r.account == account && !r.outcome && r.url.Some? && r.expires.Some? && r.expires.value > now
  }

  class Desk {
    const account: string
    var index: seq<Hold>
    var records: map<IntentId, Record>

    constructor (owner: string)
      ensures account == owner && index == [] && records == map[]
    {
      account, index, records := owner, [], map[];
    }

    /** readOutstandingReservations */
    method ReadReservations(now: nat, reply: Reply) returns (r: Option<seq<Hold>>)
      modifies this`index
      ensures reply == Works ==> index == Prune(old(index), now) && r == Some(index)
      ensures reply == Lost ==> index == Prune(old(index), now) && r == None
      ensures reply == Refuses ==> index == old(index) && r == None
    {
      if reply == Refuses { return None; }
      index := Prune(index, now);
      r := if reply == Works then Some(index) else None;
    }

    /** saveIntent: the hold first, then the record. False if the hold is unconfirmed. */
    method SaveIntent(q: Request, reserve: Reply, record: bool) returns (held: bool)
      modifies this
      ensures index == if reserve == Refuses then old(index)
                       else Insert(old(index), Hold(q.intent, q.amount, q.now + q.ttl))
      ensures held <==> reserve == Works
      ensures records == if held && record
                         then old(records)[q.intent := Record(account, false, Some(q.url), Some(q.now + q.ttl))]
                         else old(records)
    {
      if reserve != Refuses { index := Insert(index, HoldOf(q)); }
      if reserve != Works { return false; }
      if record { records := records[q.intent := Record(account, false, Some(q.url), Some(q.now + q.ttl))]; }
      held := true;
    }

    /** refuseOpenCheckout: hand back a live link for the same amount, or say when the
        first hold lifts. */
    method RefuseOpenCheckout(q: Request, reservations: seq<Hold>, remaining: nat, lookup: bool) returns (a: Answer)
      ensures a.Authorized? ==>
                && a.reused && a.remaining == remaining
                && (exists h :: h in reservations && h.intent == a.intent && h.amount == q.amount
                                && Reofferable(records, account, h, q.now))
                && a.intent in records && records[a.intent].account == account && !records[a.intent].outcome
                && records[a.intent].url.Some? && records[a.intent].expires.Some? && records[a.intent].expires.value > q.now
      ensures a.Refused? && lookup ==>
                FirstWith(reservations, q.amount) == None
                || !Reofferable(records, account, FirstWith(reservations, q.amount).value, q.now)
      ensures a.Refused? ==>
                && a.reason == CheckoutAlreadyOpen && a.left == Some(remaining) && a.hold == Soonest(reservations)
    {
      var same := FirstWith(reservations, q.amount);
      if same.Some? && lookup && Reofferable(records, account, same.value, q.now) {
        return Authorized(same.value.intent, remaining, true);
      }
      a := Refused(CheckoutAlreadyOpen, Some(remaining), Soonest(reservations));
    }

    /** The second read: the holds if they no longer fit, and then the own one withdrawn. */
    method ReadAgainOrBackOut(ghost first: seq<Hold>, q: Request, prior: nat, limit: nat, e: Env) returns (over: Option<nat>)
      requires e.reserve == Works && index == InsertAll(Insert(first, HoldOf(q)), e.racing)
      modifies this`index
      ensures index == IndexAfter(first, q, e, prior, limit)
      ensures over == if BacksOut(first, q, e, prior, limit) then Some(Total(ReadAgain(first, q, e))) else None
      ensures over.Some? && e.release ==> Unused(index, q.intent)
    {
      assert Prune(index, q.now) == ReadAgain(first, q, e);
      var after := ReadReservations(q.now, e.reread);
      if after == None { return None; }
      var total := Total(after.value);
      if prior + total <= limit { return None; }
      WithoutHolds(index, q.intent);
      if e.release { index := Without(index, q.intent); }
      over := Some(total);
    }

    /** From the reservation on: reserve, let others reserve, read again, back out. */
    method Reserve(q: Request, prior: nat, limit: nat, allowance: nat, e: Env) returns (a: Answer)
      requires q.amount <= allowance
      modifies this
      ensures index == IndexAfter(old(index), q, e, prior, limit)
      ensures e.reserve != Works ==> a == Refused(ReservationsDown, None, None)
      ensures e.reserve == Works && BacksOut(old(index), q, e, prior, limit) && e.release ==> Unused(index, q.intent)
      ensures e.reserve == Works && !BacksOut(old(index), q, e, prior, limit) ==>
                a == Authorized(q.intent, allowance - q.amount, false)
      ensures e.reserve == Works && BacksOut(old(index), q, e, prior, limit) ==>
                && a.Refused? && a.reason == ExceedsAllowance
                && a.left == Some(Remaining(limit, prior, Total(ReadAgain(old(index), q, e)) - q.amount))
    {
      ghost var first := index;
      var held := SaveIntent(q, e.reserve, e.record);
      if !held {
        IndexUnconfirmed(first, q, e, prior, limit);
        return Refused(ReservationsDown, None, None);
      }
      assert index == Insert(first, HoldOf(q));
      index := InsertAll(index, e.racing);
      var over := ReadAgainOrBackOut(first, q, prior, limit, e);
      if over.Some? { return Refused(ExceedsAllowance, Some(Remaining(limit, prior, over.value - q.amount)), None); }
      a := Authorized(q.intent, allowance - q.amount, false);
    }

    /** The decision on what the first read left: gate, refusal or reservation. */
    method Decide(q: Request, prior: nat, limit: nat, e: Env) returns (a: Answer)
      requires e.prior == Some(prior) && LimitOf(ArgsOf(q, e)) == Some(limit)
      modifies this
      ensures a.Authorized? && !a.reused <==> MintsOn(old(index), q, e)
      ensures a.Authorized? && !a.reused ==>
                && a.intent == q.intent && a.remaining + q.amount == Remaining(limit, prior, Total(old(index)))
                && index == IndexAfter(old(index), q, e, prior, limit)
      ensures a.Authorized? && a.reused ==>
                && index == old(index) && prior + q.amount <= limit
                && (exists h :: h in index && h.intent == a.intent && h.amount == q.amount
                                && Reofferable(records, account, h, q.now))
                && a.remaining == Remaining(limit, prior, Total(index))
      ensures a.Refused? ==> a.reason == ReasonOn(old(index), q, e)
      ensures a.Refused? && a.reason == CheckoutAlreadyOpen ==> index == old(index) && a.hold == Soonest(index)
    {
      var spent := prior + Total(index);
      var gate := Gate(ArgsOf(q, e), Some(spent), e.discount);
      CreditsIff(ArgsOf(q, e), Some(spent), e.discount);
      var remaining := Remaining(limit, prior, Total(index));
      if gate.Err? {
        if gate.error == DailyLimitExceeded && prior + q.amount <= limit {
          a := RefuseOpenCheckout(q, index, remaining, e.lookup);
          return;
        }
        return Refused(FailureOf(gate.error), Some(remaining), None);
      }
      a := Reserve(q, prior, limit, remaining, e);
    }

    /** authorizeFygaroTopup. A new link is minted exactly when the gate passes on
        settled spend plus holds and the second read still fits. */
    method Authorize(q: Request, e: Env) returns (a: Answer)
      modifies this
      ensures a.Authorized? && !a.reused <==> Mints(old(index), q, e)
      ensures a.Authorized? && !a.reused ==>
                && a.intent == q.intent
                && a.remaining + q.amount
                   == Remaining(LimitOf(ArgsOf(q, e)).value, e.prior.value, Total(Prune(old(index), q.now)))
                && index == IndexAfter(Prune(old(index), q.now), q, e, e.prior.value, LimitOf(ArgsOf(q, e)).value)
                && (e.reread == Works ==> e.prior.value + Total(index) <= LimitOf(ArgsOf(q, e)).value)
      ensures a.Authorized? && a.reused ==>
                && e.prior.Some? && LimitOf(ArgsOf(q, e)).Some? && index == Prune(old(index), q.now)
                && (exists h :: h in index && h.intent == a.intent && h.amount == q.amount
                                && Reofferable(records, account, h, q.now))
                && e.prior.value + q.amount <= LimitOf(ArgsOf(q, e)).value
                && a.remaining == Remaining(LimitOf(ArgsOf(q, e)).value, e.prior.value, Total(index))
      ensures a.Refused? ==> a.reason == ReasonFor(old(index), q, e)
      ensures a.Refused? && a.reason == CheckoutAlreadyOpen ==>
                e.prior.Some? && index == Prune(old(index), q.now) && a.hold == Soonest(index)
    {
      if !e.master { return Refused(CheckoutDisabled, None, None); }
      var probe := Gate(ArgsOf(q, e), None, 0.0);
      if probe.Err? && probe.error != HistoryUnavailable {
        if e.prior.Some? { ProbeDecides(ArgsOf(q, e), e.prior.value + Total(Prune(index, q.now)), 0.0, e.discount); }
        return Refused(FailureOf(probe.error), None, None);
      }
      if e.prior == None { return Refused(HistoryDown, None, None); }
      var reservations := ReadReservations(q.now, e.read);
      if reservations == None { return Refused(ReservationsDown, None, None); }
      ProbeDecides(ArgsOf(q, e), e.prior.value + Total(index), 0.0, e.discount);
      a := Decide(q, e.prior.value, LimitOf(ArgsOf(q, e)).value, e);
    }

    /** getFygaroTopupAllowance: what it reports, and when. */
    method Allowance(level: nat, now: nat, e: Env) returns (r: Result<Report, Failure>)
      modifies this`index
      ensures r.Ok? <==> && e.master && e.settings.Some? && e.settings.value.autoCredit
                         && level in e.settings.value.dailyLimits && e.prior.Some? && e.read == Works
      ensures r.Ok? ==> && index == Prune(old(index), now)
                        && r.value == Report(e.settings.value.dailyLimits[level], e.prior.value, Total(index),
                                             Remaining(e.settings.value.dailyLimits[level], e.prior.value, Total(index)),
                                             Soonest(index))
                        && (r.value.spent + r.value.held + r.value.remaining == r.value.limit
                            || (r.value.remaining == 0 && r.value.spent + r.value.held >= r.value.limit))
    {
      if !e.master { return Err(CheckoutDisabled); }
      if e.settings == None { return Err(SettingsDown); }
      if !e.settings.value.autoCredit { return Err(CheckoutDisabled); }
      if level !in e.settings.value.dailyLimits { return Err(NoLimitForLevel); }
      var limit := e.settings.value.dailyLimits[level];
      if e.prior == None { return Err(HistoryDown); }
      var reservations := ReadReservations(now, e.read);
      if reservations == None { return Err(ReservationsDown); }
      var held := Total(reservations.value);
      r := Ok(Report(limit, e.prior.value, held, Remaining(limit, e.prior.value, held), Soonest(reservations.value)));
    }
  }

  datatype Report = Report(limit: nat, spent: nat, held: nat, remaining: nat, soonest: Option<Hold>)

  /** Sequential calls on the same settings and history: both compute the figure from
      the same reading, and after a new link of amount a the query reports exactly a
      less, which authorisation returned. The gate passes only amounts that fit, and
      without a race the second read then never backs out. */
  lemma {:induction false} QueryAgreesWithAuthorization(ix: seq<Hold>, q: Request, e: Env, limit: nat, prior: nat)
    requires e.racing == [] && q.ttl > 0
    requires q.amount + prior + Total(Prune(ix, q.now)) <= limit
    ensures var first := Prune(ix, q.now);
            var after := ReadAgain(first, q, e);
            && !BacksOut(first, q, e, prior, limit)
            && Prune(first, q.now) == first && Prune(after, q.now) == after
            && Remaining(limit, prior, Total(after)) + q.amount == Remaining(limit, prior, Total(first))
  {
    PruneHolds(ix, q.now);
    PruneKeepsLive(Prune(ix, q.now), q.now);
    ReserveThenRead(ix, HoldOf(q), q.now);
  }

  /** At a later instant holds may have lapsed, so the query can only report more. */
  lemma {:induction false} QueryLaterReportsMore(ix: seq<Hold>, now: nat, later: nat, limit: nat, prior: nat)
    requires now <= later
    ensures Remaining(limit, prior, Total(Prune(ix, now))) <= Remaining(limit, prior, Total(Prune(ix, later)))
  {
    PruneShrinks(ix, now, later);
  }

  lemma {:induction false} PruneShrinks(ix: seq<Hold>, now: nat, later: nat)
    requires now <= later
    ensures Total(Prune(ix, later)) <= Total(Prune(ix, now))
    decreases |ix|
  {
    if ix != [] {
      var init, last := ix[..|ix| - 1], ix[|ix| - 1];
      PruneShrinks(init, now, later);
      TotalAppend(Prune(init, now), last);
      TotalAppend(Prune(init, later), last);
    }
  }

  /** Where a link is minted the query answers. */
  lemma {:induction false} MintedIsAllowed(ix: seq<Hold>, q: Request, e: Env)
    requires Mints(ix, q, e)
    ensures e.settings.Some? && e.settings.value.autoCredit && q.level in e.settings.value.dailyLimits
    ensures LimitOf(ArgsOf(q, e)) == Some(e.settings.value.dailyLimits[q.level])
    ensures q.amount + e.prior.value + Total(Prune(ix, q.now)) <= LimitOf(ArgsOf(q, e)).value
  {
    CreditsIff(ArgsOf(q, e), Some(e.prior.value + Total(Prune(ix, q.now))), e.discount);
  }

  /** And the minted link shows in it. */
  lemma {:induction false} MintedIsReported(first: seq<Hold>, q: Request, e: Env, limit: nat, prior: nat)
    requires e.racing == [] && e.reserve == e.reread == Works && q.ttl > 0
    requires Prune(first, q.now) == first && q.amount + prior + Total(first) <= limit
    ensures var after := IndexAfter(first, q, e, prior, limit);
            Remaining(limit, prior, Total(Prune(after, q.now))) + q.amount == Remaining(limit, prior, Total(first))
  {
    QueryAgreesWithAuthorization(first, q, e, limit, prior);
  }

  /** A client that asks, authorises and asks again, with nobody racing: the allowance it
      was shown first is what authorisation started from, and the one it is shown then is
      what authorisation returned. */
  method AskAuthorizeAsk(desk: Desk, q: Request, e: Env)
    returns (before: Result<Report, Failure>, a: Answer, after: Result<Report, Failure>)
    modifies desk
    ensures a.Authorized? && !a.reused ==> before.Ok? && q.amount <= before.value.remaining
    ensures a.Authorized? && !a.reused && e.racing == [] && e.reread == Works && q.ttl > 0 ==>
              && before.Ok? && after.Ok?
              && before.value.remaining == a.remaining + q.amount && after.value.remaining == a.remaining
  {
    PruneTwice(desk.index, q.now);
    before := desk.Allowance(q.level, q.now, e);
    ghost var first := desk.index;
    a := desk.Authorize(q, e);
    after := desk.Allowance(q.level, q.now, e);
    if a.Authorized? && !a.reused { MintedIsAllowed(first, q, e); }
    if a.Authorized? && !a.reused && e.racing == [] && e.reread == Works && q.ttl > 0 {
      MintedIsReported(first, q, e, LimitOf(ArgsOf(q, e)).value, e.prior.value);
    }
  }

  lemma {:induction false} PruneTwice(ix: seq<Hold>, now: nat)
    ensures Prune(Prune(ix, now), now) == Prune(ix, now)
  {
    PruneHolds(ix, now);
    PruneKeepsLive(Prune(ix, now), now);
  }
}
