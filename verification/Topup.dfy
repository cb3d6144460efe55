/** Pre-charge authorisation of card top-ups (authorize-topup.ts), the allowance
    query (topup-allowance.ts), the credit gate (fees.ts) and the reservation index
    (checkout-intent-store.ts) of one account. Amounts are cents; operator settings
    are taken as rounded to cents already. */
module Topup {
  import opened Common

  type IntentId = nat

  // ---------------------------------------------------------------------------
  // The credit gate

  datatype Settings = Settings(
    autoCredit: bool,
    singleLimit: nat,
    minimum: nat,
    dailyLimits: map<nat, nat>,
    processorPercent: real,
    processorFixed: int,
    flashPercent: real,
    flashFixed: int)

  datatype Fees = Fees(gross: int, processor: int, flash: int, net: int)

  function Round(x: real): int { (x + 0.5).Floor }

  function FullFlashFee(gross: int, s: Settings): int { Round(gross as real * s.flashPercent / 100.0) + s.flashFixed }

  /** computeFygaroFees */
  function ComputeFees(gross: int, s: Settings, discount: real): Fees {
    var processor := Round(gross as real * s.processorPercent / 100.0) + s.processorFixed;
    var clamped := if discount < 0.0 then 0.0 else if discount > 100.0 then 100.0 else discount;
    var flash := Round(FullFlashFee(gross, s) as real * (100.0 - clamped) / 100.0);
    Fees(gross, processor, flash, gross - processor - flash)
  }

  /** Half a cent either way, a tie upwards. */
  predicate Nearest(cents: int, exact: real) { exact - 0.5 < cents as real <= exact + 0.5 }

  lemma {:induction false} RoundIsNearest(x: real)
    ensures Nearest(Round(x), x)
  {}

  /** Each fee is its percentage of the gross, to the nearest cent, plus its fixed part;
      the Flash fee is discounted as a whole; the net is what they leave. */
  lemma {:induction false} FeesAreNearest(gross: int, s: Settings, discount: real)
    ensures var f, full := ComputeFees(gross, s, discount), FullFlashFee(gross, s);
            && Nearest(f.processor - s.processorFixed, gross as real * s.processorPercent / 100.0)
            && Nearest(full - s.flashFixed, gross as real * s.flashPercent / 100.0)
            && (0.0 <= discount <= 100.0 ==> Nearest(f.flash, full as real * (100.0 - discount) / 100.0))
            && f.gross == gross && f.processor + f.flash + f.net == gross
  {
    RoundIsNearest(gross as real * s.processorPercent / 100.0);
    RoundIsNearest(gross as real * s.flashPercent / 100.0);
    RoundIsNearest(FullFlashFee(gross, s) as real * (100.0 - discount) / 100.0);
  }

  lemma {:induction false} RoundBetween(x: real, lo: int, hi: int)
    requires lo as real <= x <= hi as real
    ensures lo <= Round(x) <= hi
  {}

  lemma {:induction false} ProductSign(x: real, y: real)
    requires x >= 0.0 && y >= 0.0
    ensures x * y >= 0.0
  {}

  lemma {:induction false} ProductRest(x: real, keep: real)
    ensures x * keep + x * (100.0 - keep) == 100.0 * x && (-x) * keep == -(x * keep)
  {}

  lemma {:induction false} ShareOf(x: real, keep: real, product: real)
    requires 0.0 <= keep <= 100.0 && product == x * keep
    ensures x >= 0.0 ==> 0.0 <= product <= 100.0 * x
    ensures x < 0.0 ==> 100.0 * x <= product <= 0.0
    ensures keep == 100.0 ==> product == 100.0 * x
  {
    ProductRest(x, keep);
    ProductRest(-x, keep);
    if x >= 0.0 {
      ProductSign(x, keep);
      ProductSign(x, 100.0 - keep);
    } else {
      ProductSign(-x, keep);
      ProductSign(-x, 100.0 - keep);
    }
  }

  /** A share of a fee lies between nothing and the fee, and the whole share is the fee. */
  lemma {:induction false} ShareIsBetween(full: int, keep: real)
    requires 0.0 <= keep <= 100.0
    ensures var share := Round(full as real * keep / 100.0);
            && (full >= 0 ==> 0 <= share <= full) && (full < 0 ==> full <= share <= 0)
            && (keep == 100.0 ==> share == full)
  {
    var x, product := full as real, full as real * keep;
    ShareOf(x, keep, product);
    HundredthIsBetween(full, product);
    if keep == 100.0 { RoundBetween(product / 100.0, full, full); }
  }

  lemma {:induction false} HundredthIsBetween(full: int, product: real)
    requires if full >= 0 then 0.0 <= product <= 100.0 * full as real else 100.0 * full as real <= product <= 0.0
    ensures if full >= 0 then 0 <= Round(product / 100.0) <= full else full <= Round(product / 100.0) <= 0
  {
    if full >= 0 { RoundBetween(product / 100.0, 0, full); } else { RoundBetween(product / 100.0, full, 0); }
  }

  /** Whatever the whitelist says, the discount moves the Flash fee towards zero and never
      past it, and never touches the processor's. That the net stays within gross less
      processor fee, for every discount, holds exactly if the full Flash fee is not
      negative. */
  lemma {:induction false} DiscountIsBounded(gross: int, s: Settings, discount: real)
    ensures var f, full := ComputeFees(gross, s, discount), FullFlashFee(gross, s);
            && (if full >= 0 then 0 <= f.flash <= full else full <= f.flash <= 0)
            && f.processor == ComputeFees(gross, s, 0.0).processor
            && (full >= 0 ==> ComputeFees(gross, s, 0.0).net <= f.net <= gross - f.processor)
            && (full < 0 ==> ComputeFees(gross, s, 0.0).net > gross - f.processor)
  {
    var clamped := if discount < 0.0 then 0.0 else if discount > 100.0 then 100.0 else discount;
    ShareIsBetween(FullFlashFee(gross, s), 100.0 - clamped);
    ShareIsBetween(FullFlashFee(gross, s), 100.0);
  }

  datatype Stop =
    | CreditDisabled | SettingsUnavailable | AutoCreditDisabled | NonUsd | OverLimit | NoDailyLimit
    | HistoryUnavailable | DailyLimitExceeded | NonPositiveNet | UnderMinimum

  datatype GateArgs = GateArgs(enabled: bool, usd: bool, settings: Option<Settings>, gross: nat, level: nat)

  /** evaluateCreditGate */
  function Gate(a: GateArgs, prior: Option<nat>, discount: real): Result<Fees, Stop> {
    if !a.enabled then Err(CreditDisabled)
    else if a.settings == None then Err(SettingsUnavailable)
    else
      var s := a.settings.value;
      if !s.autoCredit then Err(AutoCreditDisabled)
      else if !a.usd then Err(NonUsd)
      else if a.gross > s.singleLimit then Err(OverLimit)
      else if a.level !in s.dailyLimits then Err(NoDailyLimit)
      else if prior == None then Err(HistoryUnavailable)
      else if a.gross + prior.value > s.dailyLimits[a.level] then Err(DailyLimitExceeded)
      else
        var fees := ComputeFees(a.gross, s, discount);
        if fees.net <= 0 then Err(NonPositiveNet)
        else if a.gross < s.minimum then Err(UnderMinimum)
        else Ok(fees)
  }

  /** Credit, both bounds on the amount inclusive, exactly if nothing stops it. */
  lemma {:induction false} CreditsIff(a: GateArgs, prior: Option<nat>, discount: real)
    ensures Gate(a, prior, discount).Ok? <==>
              && a.enabled && a.usd && a.settings.Some? && a.settings.value.autoCredit
              && a.settings.value.minimum <= a.gross <= a.settings.value.singleLimit
              && LimitOf(a).Some? && prior.Some? && prior.value + a.gross <= LimitOf(a).value
              && ComputeFees(a.gross, a.settings.value, discount).net > 0
  {}

  /** Probing with an unknown history decides every stop that needs none: a different
      answer stands whatever the history, and otherwise only the history, the net and
      the minimum are left to fail. */
  lemma {:induction false} ProbeDecides(a: GateArgs, prior: nat, probing: real, discount: real)
    ensures Gate(a, None, probing).Err?
    ensures var probe := Gate(a, None, probing).error;
            if probe != HistoryUnavailable then Gate(a, Some(prior), discount) == Err(probe)
            else match Gate(a, Some(prior), discount)
              case Ok(fees) => fees.net > 0 && a.gross + prior <= LimitOf(a).value
              case Err(stop) => stop == DailyLimitExceeded || stop == NonPositiveNet || stop == UnderMinimum
  {}

  function LimitOf(a: GateArgs): Option<nat> {
    if a.settings.Some? && a.level in a.settings.value.dailyLimits then Some(a.settings.value.dailyLimits[a.level])
    else None
  }

  // ---------------------------------------------------------------------------
  // The reservation index

  /** A live hold on the allowance: a member of the account's sorted set. */
  datatype Hold = Hold(intent: IntentId, amount: nat, expires: nat)

  function Total(ix: seq<Hold>): nat {
    if ix == [] then 0 else Total(ix[..|ix| - 1]) + ix[|ix| - 1].amount
  }

  /** zremrangebyscore -inf now */
  function Prune(ix: seq<Hold>, now: nat): seq<Hold> {
    if ix == [] then []
    else if ix[|ix| - 1].expires > now then Prune(ix[..|ix| - 1], now) + [ix[|ix| - 1]]
    else Prune(ix[..|ix| - 1], now)
  }

  /** zrem */
  function Without(ix: seq<Hold>, intent: IntentId): seq<Hold> {
    if ix == [] then []
    else if ix[|ix| - 1].intent != intent then Without(ix[..|ix| - 1], intent) + [ix[|ix| - 1]]
    else Without(ix[..|ix| - 1], intent)
  }

  /** zadd: the set is ordered by expiry. */
  function Insert(ix: seq<Hold>, h: Hold): seq<Hold> {
    if ix == [] || ix[|ix| - 1].expires <= h.expires then ix + [h]
    else Insert(ix[..|ix| - 1], h) + [ix[|ix| - 1]]
  }

  /** Earliest expiry first. */
  predicate Ordered(ix: seq<Hold>) { forall i, j :: 0 <= i < j < |ix| ==> ix[i].expires <= ix[j].expires }

  /** Adding, removing and dropping lapsed holds keep the order. */
  lemma {:induction false} InsertKeepsOrder(ix: seq<Hold>, h: Hold)
    requires Ordered(ix)
    ensures Ordered(Insert(ix, h))
    decreases |ix|
  {
    if ix != [] && ix[|ix| - 1].expires > h.expires {
      var init, last := ix[..|ix| - 1], ix[|ix| - 1];
      InsertKeepsOrder(init, h);
      InsertHolds(init, h);
      AppendKeepsOrder(Insert(init, h), last);
    }
  }

  lemma {:induction false} AppendKeepsOrder(ix: seq<Hold>, h: Hold)
    requires Ordered(ix) && forall k :: k in ix ==> k.expires <= h.expires
    ensures Ordered(ix + [h])
  {
    forall i | 0 <= i < |ix| ensures ix[i].expires <= h.expires { assert ix[i] in ix; }
  }

  lemma {:induction false} PruneKeepsOrder(ix: seq<Hold>, now: nat)
    requires Ordered(ix)
    ensures Ordered(Prune(ix, now))
    decreases |ix|
  {
    if ix != [] {
      var init, last := ix[..|ix| - 1], ix[|ix| - 1];
      PruneKeepsOrder(init, now);
      PruneHolds(init, now);
      if last.expires > now { AppendKeepsOrder(Prune(init, now), last); }
    }
  }

  lemma {:induction false} WithoutKeepsOrder(ix: seq<Hold>, intent: IntentId)
    requires Ordered(ix)
    ensures Ordered(Without(ix, intent))
    decreases |ix|
  {
    if ix != [] {
      var init, last := ix[..|ix| - 1], ix[|ix| - 1];
      WithoutKeepsOrder(init, intent);
      WithoutHolds(init, intent);
      if last.intent != intent { AppendKeepsOrder(Without(init, intent), last); }
    }
  }

  predicate Unused(ix: seq<Hold>, intent: IntentId) { forall h :: h in ix ==> h.intent != intent }

  lemma {:induction false} TotalAppend(ix: seq<Hold>, h: Hold)
    ensures Total(ix + [h]) == Total(ix) + h.amount
  {
    assert (ix + [h])[..|ix|] == ix;
  }

  lemma {:induction false} InsertHolds(ix: seq<Hold>, h: Hold)
    ensures Total(Insert(ix, h)) == Total(ix) + h.amount
    ensures forall k :: k in Insert(ix, h) <==> k == h || k in ix
    decreases |ix|
  {
    if ix == [] || ix[|ix| - 1].expires <= h.expires {
      TotalAppend(ix, h);
    } else {
      InsertHolds(ix[..|ix| - 1], h);
      TotalAppend(Insert(ix[..|ix| - 1], h), ix[|ix| - 1]);
      assert ix == ix[..|ix| - 1] + [ix[|ix| - 1]];
    }
  }

  lemma {:induction false} PruneHolds(ix: seq<Hold>, now: nat)
    ensures forall k :: k in Prune(ix, now) <==> k in ix && k.expires > now
    decreases |ix|
  {
    if ix != [] {
      PruneHolds(ix[..|ix| - 1], now);
      assert ix == ix[..|ix| - 1] + [ix[|ix| - 1]];
    }
  }

  lemma {:induction false} WithoutHolds(ix: seq<Hold>, intent: IntentId)
    ensures forall k :: k in Without(ix, intent) <==> k in ix && k.intent != intent
    decreases |ix|
  {
    if ix != [] {
      WithoutHolds(ix[..|ix| - 1], intent);
      assert ix == ix[..|ix| - 1] + [ix[|ix| - 1]];
    }
  }

  /** Releasing what was just reserved restores the index. */
  lemma {:induction false} InsertThenWithout(ix: seq<Hold>, h: Hold)
    requires Unused(ix, h.intent)
    ensures Without(Insert(ix, h), h.intent) == ix
    decreases |ix|
  {
    if ix == [] || ix[|ix| - 1].expires <= h.expires {
      assert (ix + [h])[..|ix|] == ix;
      UnusedWithout(ix, h.intent);
    } else {
      var init, last := ix[..|ix| - 1], ix[|ix| - 1];
      InsertThenWithout(init, h);
      assert (Insert(init, h) + [last])[..|Insert(init, h)|] == Insert(init, h);
      assert ix == init + [last];
    }
  }

  lemma {:induction false} UnusedWithout(ix: seq<Hold>, intent: IntentId)
    requires Unused(ix, intent)
    ensures Without(ix, intent) == ix
    decreases |ix|
  {
    if ix != [] {
      UnusedWithout(ix[..|ix| - 1], intent);
      assert ix == ix[..|ix| - 1] + [ix[|ix| - 1]];
    }
  }

  /** A second read at the same instant drops nothing more. */
  lemma {:induction false} PruneKeepsLive(ix: seq<Hold>, now: nat)
    requires forall k :: k in ix ==> k.expires > now
    ensures Prune(ix, now) == ix
    decreases |ix|
  {
    if ix != [] {
      PruneKeepsLive(ix[..|ix| - 1], now);
      assert ix == ix[..|ix| - 1] + [ix[|ix| - 1]];
    }
  }

  lemma {:induction false} ReserveThenRead(ix: seq<Hold>, h: Hold, now: nat)
    requires h.expires > now
    ensures Prune(Insert(Prune(ix, now), h), now) == Insert(Prune(ix, now), h)
    ensures Total(Insert(Prune(ix, now), h)) == Total(Prune(ix, now)) + h.amount
  {
    PruneHolds(ix, now);
    InsertHolds(Prune(ix, now), h);
    PruneKeepsLive(Insert(Prune(ix, now), h), now);
  }
}
