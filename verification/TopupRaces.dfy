/** Any number of concurrent authorisations on one account, interleaved at every
    shared read and write. Call i holds intent i. */
module TopupRaces {
  import opened Common
  import opened Topup

  datatype Phase =
    | Idle | Started | PriorRead(prior: nat) | Checked(prior: nat) | Reserved(prior: nat)
    | Granted | Denied | Paid

  datatype Call = Call(amount: nat, now: nat, phase: Phase)

  datatype World = World(
    limit: nat,
    ttl: nat,
    settled: nat,
    clock: nat,
    index: seq<Hold>,
    calls: seq<Call>)

  datatype Step =
    | Tick(time: nat)
    | Start(call: nat)
    | ReadPrior(call: nat)
    | Check(call: nat, otherGates: bool)
    | Reserve(call: nat, reply: Reply)
    | ReRead(call: nat, readable: bool, released: bool)
    | Settle(call: nat, released: bool)
    | AgeOut(cents: nat)

  function Expires(w: World, i: nat): nat
    requires i < |w.calls|
  {
    w.calls[i].now + w.ttl
  }

  function HoldFor(w: World, i: nat): Hold
    requires i < |w.calls|
  {
    Hold(i, w.calls[i].amount, Expires(w, i))
  }

  function Moves(w: World, i: nat, phase: Phase): World
    requires i < |w.calls|
  {
    w.(calls := w.calls[i := w.calls[i].(phase := phase)])
  }

  function Removed(ix: seq<Hold>, i: nat, released: bool): seq<Hold> { if released then Without(ix, i) else ix }

  /** One atomic step of some call, of a payment, or of time. */
  predicate Next(w: World, v: World, step: Step) {
    match step
    case Tick(time) => w.clock <= time && v == w.(clock := time)
    case Start(i) =>
      && i < |w.calls| && w.calls[i].phase == Idle
      && v == w.(calls := w.calls[i := w.calls[i].(phase := Started, now := w.clock)])
    case ReadPrior(i) =>
      i < |w.calls| && w.calls[i].phase == Started && v == Moves(w, i, PriorRead(w.settled))
    case Check(i, otherGates) =>
      && i < |w.calls| && w.calls[i].phase.PriorRead?
      && var c, read := w.calls[i], w.(index := Prune(w.index, w.calls[i].now));
         v == Moves(read, i, if otherGates && c.phase.prior + Total(read.index) + c.amount <= w.limit
                             then Checked(c.phase.prior) else Denied)
    case Reserve(i, reply) =>
      && i < |w.calls| && w.calls[i].phase.Checked?
      && var held := if reply == Refuses then w else w.(index := Insert(w.index, HoldFor(w, i)));
         v == Moves(held, i, if reply == Works then Reserved(w.calls[i].phase.prior) else Denied)
    case ReRead(i, readable, released) =>
      && i < |w.calls| && w.calls[i].phase.Reserved?
      && if !readable then v == Moves(w, i, Granted)
         else
           var c, read := w.calls[i], w.(index := Prune(w.index, w.calls[i].now));
           if c.phase.prior + Total(read.index) > w.limit
           then v == Moves(read.(index := Removed(read.index, i, released)), i, Denied)
           else v == Moves(read, i, Granted)
    case Settle(i, released) =>
      && i < |w.calls| && w.calls[i].phase == Granted && w.clock < Expires(w, i)
      && v == Moves(w.(settled := w.settled + w.calls[i].amount, index := Removed(w.index, i, released)), i, Paid)
    case AgeOut(cents) => cents <= w.settled && v == w.(settled := w.settled - cents)
  }

  predicate Run(worlds: seq<World>, steps: seq<Step>) {
    && |worlds| == |steps| + 1
    && forall i :: 0 <= i < |steps| ==> Next(worlds[i], worlds[i + 1], steps[i])
  }

  predicate Initial(w: World) {
    w.ttl > 0 && w.index == [] && forall i :: 0 <= i < |w.calls| ==> w.calls[i].phase == Idle
  }

  /** A call between its read of the settled spend and its second read of the holds. */
  predicate InWindow(c: Call) { c.phase.PriorRead? || c.phase.Checked? || c.phase.Reserved? }

  /** The hypotheses: second reads succeed, and no payment settles while a call is
      between its reads. */
  predicate Healthy(w: World, step: Step) {
    && (step.ReRead? ==> step.readable)
    && (step.Settle? ==> forall i :: 0 <= i < |w.calls| ==> !InWindow(w.calls[i]))
  }

  // ---------------------------------------------------------------------------
  // Sums over calls

  predicate Live(w: World, i: nat)
    requires i < |w.calls|
  {
    w.calls[i].phase == Granted && w.clock < Expires(w, i)
  }

  /** The newly minted links that can still be paid, among the first n calls. */
  function Issued(w: World, n: nat): nat
    requires n <= |w.calls|
  {
    if n == 0 then 0 else Issued(w, n - 1) + if Live(w, n - 1) then w.calls[n - 1].amount else 0
  }

  function HeldFor(ix: seq<Hold>, i: nat): nat {
    if ix == [] then 0
    else HeldFor(ix[..|ix| - 1], i) + if ix[|ix| - 1].intent == i then ix[|ix| - 1].amount else 0
  }

  function HeldBelow(ix: seq<Hold>, n: nat): nat {
    if n == 0 then 0 else HeldBelow(ix, n - 1) + HeldFor(ix, n - 1)
  }

  lemma {:induction false} HeldBelowAppend(ix: seq<Hold>, h: Hold, n: nat)
    ensures HeldBelow(ix + [h], n) == HeldBelow(ix, n) + if h.intent < n then h.amount else 0
  {
    assert (ix + [h])[..|ix|] == ix;
    if n > 0 { HeldBelowAppend(ix, h, n - 1); }
  }

  lemma {:induction false} HeldBelowEmpty(n: nat)
    ensures HeldBelow([], n) == 0
  {
    if n > 0 { HeldBelowEmpty(n - 1); }
  }

  lemma {:induction false} HeldBelowTotal(ix: seq<Hold>, n: nat)
    ensures HeldBelow(ix, n) <= Total(ix)
    decreases |ix|
  {
    if ix == [] {
      HeldBelowEmpty(n);
    } else {
      var init, last := ix[..|ix| - 1], ix[|ix| - 1];
      HeldBelowTotal(init, n);
      assert ix == init + [last];
      HeldBelowAppend(init, last, n);
    }
  }

  lemma {:induction false} MemberIsHeld(ix: seq<Hold>, h: Hold)
    requires h in ix
    ensures h.amount <= HeldFor(ix, h.intent)
    decreases |ix|
  {
    var init, last := ix[..|ix| - 1], ix[|ix| - 1];
    assert ix == init + [last];
    if h != last { MemberIsHeld(init, h); }
  }

  /** Links that are all held in the index sum to no more than it does. */
  lemma {:induction false} IssuedIsHeld(w: World, ix: seq<Hold>, n: nat)
    requires n <= |w.calls| && forall i :: 0 <= i < n && Live(w, i) ==> HoldFor(w, i) in ix
    ensures Issued(w, n) <= HeldBelow(ix, n)
  {
    if n > 0 {
      IssuedIsHeld(w, ix, n - 1);
      if Live(w, n - 1) { MemberIsHeld(ix, HoldFor(w, n - 1)); }
    }
  }

  /** Fewer live links, or the same ones, sum to no more. */
  lemma {:induction false} IssuedShrinks(w: World, v: World, n: nat)
    requires n <= |w.calls| == |v.calls|
    requires forall i :: 0 <= i < n && Live(v, i) ==> Live(w, i) && v.calls[i].amount == w.calls[i].amount
    ensures Issued(v, n) <= Issued(w, n)
  {
    if n > 0 { IssuedShrinks(w, v, n - 1); }
  }

  /** A link that stops being live takes its amount out of the sum. */
  lemma {:induction false} IssuedLoses(w: World, v: World, k: nat, n: nat)
    requires k < n <= |w.calls| == |v.calls| && Live(w, k) && !Live(v, k)
    requires forall i :: 0 <= i < n && i != k && Live(v, i) ==> Live(w, i) && v.calls[i].amount == w.calls[i].amount
    ensures Issued(v, n) + w.calls[k].amount <= Issued(w, n)
  {
    if n - 1 == k { IssuedShrinks(w, v, n - 1); } else { IssuedLoses(w, v, k, n - 1); }
  }

  // ---------------------------------------------------------------------------
  // The invariant

  predicate CallOk(w: World, i: nat)
    requires i < |w.calls|
  {
    var c := w.calls[i];
    && (c.phase != Idle ==> c.now <= w.clock)
    && (c.phase.Reserved? || c.phase == Granted ==> Expires(w, i) <= w.clock || HoldFor(w, i) in w.index)
    && (InWindow(c) ==> w.settled <= c.phase.prior)
  }

  predicate Ok(w: World) {
    && w.ttl > 0
    && (forall i :: 0 <= i < |w.calls| ==> CallOk(w, i))
    && (Issued(w, |w.calls|) == 0 || w.settled + Issued(w, |w.calls|) <= w.limit)
  }

  /** Steps that take no hold of a live link out of the index, grant nothing and settle
      nothing. */
  lemma {:induction false} QuietStep(w: World, v: World)
    requires Ok(w) && |v.calls| == |w.calls| && v.limit == w.limit && v.ttl == w.ttl
    requires v.settled <= w.settled
    requires forall i :: 0 <= i < |w.calls| ==> CallOk(v, i)
    requires forall i :: 0 <= i < |w.calls| && Live(v, i) ==> Live(w, i) && v.calls[i].amount == w.calls[i].amount
    ensures Ok(v)
  {
    IssuedShrinks(w, v, |w.calls|);
  }

  predicate Grants(w: World, v: World, i: nat) {
    && i < |w.calls| && w.calls[i].phase.Reserved?
    && var read := w.(index := Prune(w.index, w.calls[i].now));
       w.calls[i].phase.prior + Total(read.index) <= w.limit && v == Moves(read, i, Granted)
  }

  lemma {:induction false} GrantKeepsCalls(w: World, v: World, i: nat, k: nat)
    requires Ok(w) && Grants(w, v, i) && k < |v.calls|
    ensures CallOk(v, k) && (Live(v, k) ==> HoldFor(v, k) in v.index)
  {
    PruneHolds(w.index, w.calls[i].now);
    assert CallOk(w, k) && CallOk(w, i);
  }

  lemma {:induction false} GrantStep(w: World, v: World, i: nat)
    requires Ok(w) && Grants(w, v, i)
    ensures Ok(v)
  {
    forall k | 0 <= k < |v.calls| ensures CallOk(v, k) && (Live(v, k) ==> HoldFor(v, k) in v.index) {
      GrantKeepsCalls(w, v, i, k);
    }
    IssuedIsHeld(v, v.index, |v.calls|);
    HeldBelowTotal(v.index, |v.calls|);
    assert CallOk(w, i);
  }

  /** A read, at any call's own instant, drops no hold that is still payable. */
  lemma {:induction false} ReadKeepsOk(w: World, now: nat)
    requires Ok(w) && now <= w.clock
    ensures Ok(w.(index := Prune(w.index, now)))
  {
    var v := w.(index := Prune(w.index, now));
    PruneHolds(w.index, now);
    forall k | 0 <= k < |v.calls| ensures CallOk(v, k) { assert CallOk(w, k); }
    QuietStep(w, v);
  }

  /** A call that does not hold a live link, and will not, may change phase freely. */
  lemma {:induction false} MoveKeepsOk(w: World, i: nat, phase: Phase)
    requires Ok(w) && i < |w.calls| && w.calls[i].phase != Idle && phase != Granted
    requires InWindow(w.calls[i].(phase := phase)) ==> w.settled <= phase.prior
    requires phase.Reserved? ==> HoldFor(w, i) in w.index
    ensures Ok(Moves(w, i, phase))
  {
    var v := Moves(w, i, phase);
    forall k | 0 <= k < |v.calls| ensures CallOk(v, k) { assert CallOk(w, k); }
    QuietStep(w, v);
  }

  lemma {:induction false} RemoveKeepsOk(w: World, i: nat, released: bool)
    requires Ok(w) && i < |w.calls| && w.calls[i].phase == Denied
    ensures Ok(w.(index := Removed(w.index, i, released)))
  {
    var v := w.(index := Removed(w.index, i, released));
    WithoutHolds(w.index, i);
    forall k | 0 <= k < |v.calls| ensures CallOk(v, k) { assert CallOk(w, k); }
    QuietStep(w, v);
  }

  lemma {:induction false} ReserveStep(w: World, v: World, i: nat, reply: Reply)
    requires Ok(w) && Next(w, v, Reserve(i, reply))
    ensures Ok(v)
  {
    assert CallOk(w, i);
    if reply == Refuses {
      MoveKeepsOk(w, i, Denied);
    } else {
      var held := w.(index := Insert(w.index, HoldFor(w, i)));
      InsertHolds(w.index, HoldFor(w, i));
      forall k | 0 <= k < |held.calls| ensures CallOk(held, k) { assert CallOk(w, k); }
      QuietStep(w, held);
      MoveKeepsOk(held, i, if reply == Works then Reserved(w.calls[i].phase.prior) else Denied);
    }
  }

  lemma {:induction false} ReReadStep(w: World, v: World, i: nat, released: bool)
    requires Ok(w) && Next(w, v, ReRead(i, true, released))
    ensures Ok(v)
  {
    assert CallOk(w, i);
    var read := w.(index := Prune(w.index, w.calls[i].now));
    if w.calls[i].phase.prior + Total(read.index) > w.limit {
      ReadKeepsOk(w, w.calls[i].now);
      MoveKeepsOk(read, i, Denied);
      RemoveKeepsOk(Moves(read, i, Denied), i, released);
    } else {
      GrantStep(w, v, i);
    }
  }

  lemma {:induction false} SettleStep(w: World, v: World, i: nat, released: bool)
    requires Ok(w) && Next(w, v, Settle(i, released)) && Healthy(w, Settle(i, released))
    ensures Ok(v)
  {
    WithoutHolds(w.index, i);
    forall k | 0 <= k < |v.calls| ensures CallOk(v, k) { assert CallOk(w, k) && !InWindow(w.calls[k]); }
    IssuedLoses(w, v, i, |w.calls|);
  }

  lemma {:induction false} OkStep(w: World, v: World, step: Step)
    requires Ok(w) && Next(w, v, step) && Healthy(w, step)
    ensures Ok(v)
  {
    match step
    case Tick(_) =>
      forall k | 0 <= k < |v.calls| ensures CallOk(v, k) { assert CallOk(w, k); }
      QuietStep(w, v);
    case Start(_) =>
      forall k | 0 <= k < |v.calls| ensures CallOk(v, k) { assert CallOk(w, k); }
      QuietStep(w, v);
    case ReadPrior(i) => MoveKeepsOk(w, i, PriorRead(w.settled));
    case Check(i, _) =>
      assert CallOk(w, i);
      ReadKeepsOk(w, w.calls[i].now);
      MoveKeepsOk(w.(index := Prune(w.index, w.calls[i].now)), i, v.calls[i].phase);
    case Reserve(i, reply) => ReserveStep(w, v, i, reply);
    case ReRead(i, _, released) => ReReadStep(w, v, i, released);
    case Settle(i, released) => SettleStep(w, v, i, released);
    case AgeOut(_) =>
      forall k | 0 <= k < |v.calls| ensures CallOk(v, k) { assert CallOk(w, k); }
      QuietStep(w, v);
  }

  lemma {:induction false} IdleIssuesNothing(w: World, n: nat)
    requires n <= |w.calls| && Initial(w)
    ensures Issued(w, n) == 0
  {
    if n > 0 { IdleIssuesNothing(w, n - 1); }
  }

  /** In every interleaving in which second reads succeed and no payment settles inside
      a call's window, settled spend plus all newly minted links that can still be paid
      stays within the daily limit. Settled spend may fall at any time, and grow by
      payments between windows. */
  lemma {:induction false} NeverOverIssued(worlds: seq<World>, steps: seq<Step>, n: nat)
    requires Run(worlds, steps) && n <= |steps| && Initial(worlds[0])
    requires forall i :: 0 <= i < |steps| ==> Healthy(worlds[i], steps[i])
    ensures Ok(worlds[n])
    ensures var w := worlds[n]; Issued(w, |w.calls|) == 0 || w.settled + Issued(w, |w.calls|) <= w.limit
  {
    if n == 0 {
      IdleIssuesNothing(worlds[0], |worlds[0].calls|);
    } else {
      NeverOverIssued(worlds, steps, n - 1);
      OkStep(worlds[n - 1], worlds[n], steps[n - 1]);
    }
  }

  // ---------------------------------------------------------------------------
  // Both hypotheses are needed

  /** Which kind of step need not be healthy. */
  datatype Excuse = UnreadableReread | SettlementInWindow

  predicate Allowed(w: World, step: Step, excuse: Excuse) {
    Healthy(w, step) || (if excuse == UnreadableReread then step.ReRead? else step.Settle?)
  }

  /** v can follow w. */
  ghost predicate Leads(w: World, v: World, excuse: Excuse) {
    exists worlds, steps :: RunFrom(worlds, steps, w, v, excuse)
  }

  predicate RunFrom(worlds: seq<World>, steps: seq<Step>, w: World, v: World, excuse: Excuse) {
    && Run(worlds, steps) && worlds[0] == w && worlds[|steps|] == v
    && forall i :: 0 <= i < |steps| ==> Allowed(worlds[i], steps[i], excuse)
  }

  lemma {:induction false} LeadsSelf(w: World, excuse: Excuse)
    ensures Leads(w, w, excuse)
  {
    assert RunFrom([w], [], w, w, excuse);
  }

  lemma {:induction false} LeadsOn(w: World, v: World, u: World, step: Step, excuse: Excuse)
    requires Leads(w, v, excuse) && Next(v, u, step) && Allowed(v, step, excuse)
    ensures Leads(w, u, excuse)
  {
    var worlds, steps :| RunFrom(worlds, steps, w, v, excuse);
    var ws, ss := worlds + [u], steps + [step];
    forall i | 0 <= i < |ss|
      ensures Next(ws[i], ws[i + 1], ss[i]) && Allowed(ws[i], ss[i], excuse)
    {
      if i < |steps| {
        assert Next(worlds[i], worlds[i + 1], steps[i]) && Allowed(worlds[i], steps[i], excuse);
      }
    }
    assert RunFrom(ws, ss, w, u, excuse);
  }

  function Two(limit: nat, settled: nat, index: seq<Hold>, first: Phase, second: Phase): World {
    World(limit, 1, settled, 0, index, [Call(limit, 0, first), Call(limit, 0, second)])
  }

  /** Both calls read an empty index before either reserves. */
  lemma {:induction false} BothChecked(limit: nat, x: Excuse)
    ensures Leads(Two(limit, 0, [], Idle, Idle), Two(limit, 0, [], Checked(0), Checked(0)), x)
  {
    var w := Two(limit, 0, [], Idle, Idle);
    var w1 := Two(limit, 0, [], Started, Idle);
    var w2 := Two(limit, 0, [], PriorRead(0), Idle);
    var w3 := Two(limit, 0, [], Checked(0), Idle);
    var w4 := Two(limit, 0, [], Checked(0), Started);
    var w5 := Two(limit, 0, [], Checked(0), PriorRead(0));
    LeadsSelf(w, x);
    LeadsOn(w, w, w1, Start(0), x);
    LeadsOn(w, w1, w2, ReadPrior(0), x);
    LeadsOn(w, w2, w3, Check(0, true), x);
    LeadsOn(w, w3, w4, Start(1), x);
    LeadsOn(w, w4, w5, ReadPrior(1), x);
    LeadsOn(w, w5, Two(limit, 0, [], Checked(0), Checked(0)), Check(1, true), x);
  }

  /** The first call then reserves the whole allowance and is granted it. */
  lemma {:induction false} FirstGranted(limit: nat, x: Excuse)
    ensures Leads(Two(limit, 0, [], Idle, Idle), Two(limit, 0, [Hold(0, limit, 1)], Granted, Checked(0)), x)
  {
    var a := Hold(0, limit, 1);
    var w, w1 := Two(limit, 0, [], Idle, Idle), Two(limit, 0, [], Checked(0), Checked(0));
    var w2 := Two(limit, 0, [a], Reserved(0), Checked(0));
    BothChecked(limit, x);
    LeadsReserved(w, w1, 0, x);
    assert w2 == Moves(w1.(index := Insert([], a)), 0, Reserved(0));
    OneHold(a, 0);
    LeadsGranted(w, w2, 0, x);
    assert Two(limit, 0, [a], Granted, Checked(0)) == Moves(w2, 0, Granted);
  }

  lemma {:induction false} OneHold(h: Hold, now: nat)
    ensures Total([h]) == h.amount && Without([h], h.intent) == []
    ensures h.expires > now ==> Prune([h], now) == [h]
  {}

  lemma {:induction false} LeadsReserved(w0: World, w: World, i: nat, x: Excuse)
    requires Leads(w0, w, x) && i < |w.calls| && w.calls[i].phase.Checked?
    ensures Leads(w0, Moves(w.(index := Insert(w.index, HoldFor(w, i))), i, Reserved(w.calls[i].phase.prior)), x)
  {
    var v := Moves(w.(index := Insert(w.index, HoldFor(w, i))), i, Reserved(w.calls[i].phase.prior));
    LeadsOn(w0, w, v, Reserve(i, Works), x);
  }

  lemma {:induction false} LeadsGranted(w0: World, w: World, i: nat, x: Excuse)
    requires Leads(w0, w, x) && i < |w.calls| && w.calls[i].phase.Reserved?
    requires Prune(w.index, w.calls[i].now) == w.index && w.calls[i].phase.prior + Total(w.index) <= w.limit
    ensures Leads(w0, Moves(w, i, Granted), x)
  {
    LeadsOn(w0, w, Moves(w, i, Granted), ReRead(i, true, true), x);
  }

  /** One second read fails, everything else is healthy: two links for the whole
      allowance are out at once. */
  lemma {:induction false} FailedRereadOverIssues(limit: nat) returns (v: World)
    requires limit > 0
    ensures Leads(Two(limit, 0, [], Idle, Idle), v, UnreadableReread) && Initial(Two(limit, 0, [], Idle, Idle))
    ensures v.limit == limit && |v.calls| == 2 && v.settled + Issued(v, 2) == 2 * limit
  {
    var a, b := Hold(0, limit, 1), Hold(1, limit, 1);
    var w, w1 := Two(limit, 0, [], Idle, Idle), Two(limit, 0, [a], Granted, Checked(0));
    var w2 := Two(limit, 0, [a, b], Granted, Reserved(0));
    v := Two(limit, 0, [a, b], Granted, Granted);
    FirstGranted(limit, UnreadableReread);
    LeadsReserved(w, w1, 1, UnreadableReread);
    assert w2 == Moves(w1.(index := Insert([a], b)), 1, Reserved(0));
    LeadsOn(w, w2, v, ReRead(1, false, true), UnreadableReread);
    assert Issued(v, 1) == limit;
  }

  /** The first call's link is paid while the second is between its reads. */
  lemma {:induction false} FirstPaid(limit: nat)
    ensures Leads(Two(limit, 0, [], Idle, Idle), Two(limit, limit, [], Paid, Checked(0)), SettlementInWindow)
  {
    var a := Hold(0, limit, 1);
    var w, v := Two(limit, 0, [a], Granted, Checked(0)), Two(limit, limit, [], Paid, Checked(0));
    FirstGranted(limit, SettlementInWindow);
    OneHold(a, 0);
    assert v == Moves(w.(settled := limit, index := Removed(w.index, 0, true)), 0, Paid);
    LeadsOn(Two(limit, 0, [], Idle, Idle), w, v, Settle(0, true), SettlementInWindow);
  }

  /** The second call then finds the index empty, and reserves. */
  lemma {:induction false} SecondReserved(limit: nat)
    ensures Leads(Two(limit, 0, [], Idle, Idle), Two(limit, limit, [Hold(1, limit, 1)], Paid, Reserved(0)),
                  SettlementInWindow)
  {
    var b := Hold(1, limit, 1);
    var w, v := Two(limit, limit, [], Paid, Checked(0)), Two(limit, limit, [b], Paid, Reserved(0));
    FirstPaid(limit);
    LeadsReserved(Two(limit, 0, [], Idle, Idle), w, 1, SettlementInWindow);
    assert v == Moves(w.(index := Insert([], b)), 1, Reserved(0));
  }

  /** Second reads all succeed, but a payment settles, and its hold goes, between one
      call's two reads: the whole allowance is spent and issued again. */
  lemma {:induction false} SettlementInWindowOverIssues(limit: nat) returns (v: World)
    requires limit > 0
    ensures Leads(Two(limit, 0, [], Idle, Idle), v, SettlementInWindow) && Initial(Two(limit, 0, [], Idle, Idle))
    ensures v.limit == limit && |v.calls| == 2 && v.settled + Issued(v, 2) == 2 * limit
  {
    var b := Hold(1, limit, 1);
    var w := Two(limit, limit, [b], Paid, Reserved(0));
    v := Two(limit, limit, [b], Paid, Granted);
    SecondReserved(limit);
    OneHold(b, 0);
    LeadsGranted(Two(limit, 0, [], Idle, Idle), w, 1, SettlementInWindow);
    assert v == Moves(w, 1, Granted);
    assert Issued(v, 1) == 0;
  }
}
