/** Reward calls of any number of callers, interleaved at every shared access. */
module ReferralRaces {
  import opened Common
  import opened Referrals

  datatype Phase =
    | Idle
    | Checked
    | Found(invite: nat)
    | Claimed(invite: nat)
    | Half(invite: nat, inviter: PayResult)
    | Both(invite: nat, inviter: PayResult, invitee: PayResult)
    | Thrown(invite: nat, inviter: PayResult, invitee: PayResult)
    | Ended(invite: nat, inviter: PayResult, invitee: PayResult)
    | Quit

  datatype Caller = Caller(account: AccountId, phase: Phase)

  /** `owners` records whose claim each invite carries. */
  datatype World = World(invites: seq<Invite>, owners: seq<Option<nat>>, callers: seq<Caller>, sends: seq<Send>)

  datatype Step =
    | Check(caller: nat)
    | Find(caller: nat, pick: nat)
    | Claim(caller: nat)
    | Fail(caller: nat)
    | EarlyMark(caller: nat, status: RewardStatus, reply: Reply)
    | SendInviter(caller: nat, wallet: bool, outcome: SendReply)
    | SendInvitee(caller: nat, wallet: bool, outcome: SendReply)
    | Mark(caller: nat, reply: Reply)
    | CatchMark(caller: nat, reply: Reply)

  function Moves(w: World, c: nat, phase: Phase): World
    requires c < |w.callers|
  {
    w.(callers := w.callers[c := w.callers[c].(phase := phase)])
  }

  function Sends(w: World, k: nat, leg: Leg, wallet: bool): World {
    if wallet then w.(sends := w.sends + [Send(k, leg)]) else w
  }

  function Marks(w: World, k: nat, status: RewardStatus, inviter: PayResult, invitee: PayResult, reply: Reply): World {
    if reply == Refuses || k >= |w.invites| then w
    else w.(invites := w.invites[k := Marked(w.invites[k], status, inviter, invitee)])
  }

  predicate Next(w: World, v: World, step: Step) {
    && step.caller < |w.callers|
    && var c := step.caller;
       var phase, account := w.callers[c].phase, w.callers[c].account;
       match step
       case Check(_) =>
         phase == Idle && v == Moves(w, c, if Processed(w.invites, account) then Quit else Checked)
       case Find(_, pick) =>
         && phase == Checked
         && v == Moves(w, c, if pick < |w.invites| && Claimable(w.invites[pick], account) then Found(pick) else Quit)
       case Claim(_) =>
         && phase.Found? && phase.invite < |w.invites| == |w.owners|
         && var k := phase.invite;
            if w.invites[k].status.Some? then v == Moves(w, c, Quit)
            else v == Moves(w.(invites := w.invites[k := w.invites[k].(status := Some(Processing))],
                               owners := w.owners[k := Some(c)]), c, Claimed(k))
       case Fail(_) => phase.Claimed? && v == Moves(w, c, Thrown(phase.invite, LegFailed, LegFailed))
       case EarlyMark(_, status, reply) =>
         && phase.Claimed? && (status == RewardPaid || status == RewardFailed)
         && var marked := Marks(w, phase.invite, status, LegFailed, LegFailed, reply);
            v == Moves(marked, c, if reply == Works then Ended(phase.invite, LegFailed, LegFailed)
                                  else Thrown(phase.invite, LegFailed, LegFailed))
       case SendInviter(_, wallet, outcome) =>
         && phase.Claimed?
         && var sent, r := Sends(w, phase.invite, Inviter, wallet), ResultOf(wallet, outcome);
            v == Moves(sent, c, if wallet && outcome.Throws? then Thrown(phase.invite, LegFailed, LegFailed)
                                else Half(phase.invite, r))
       case SendInvitee(_, wallet, outcome) =>
         && phase.Half?
         && var sent, r := Sends(w, phase.invite, Invitee, wallet), ResultOf(wallet, outcome);
            v == Moves(sent, c, if wallet && outcome.Throws? then Thrown(phase.invite, phase.inviter, LegFailed)
                                else Both(phase.invite, phase.inviter, r))
       case Mark(_, reply) =>
         && phase.Both?
         && var marked := Marks(w, phase.invite, FinalStatus(phase.inviter, phase.invitee),
                                phase.inviter, phase.invitee, reply);
            v == Moves(marked, c, if reply == Works then Ended(phase.invite, phase.inviter, phase.invitee)
                                  else Thrown(phase.invite, phase.inviter, phase.invitee))
       case CatchMark(_, reply) =>
         && phase.Thrown?
         && var marked := Marks(w, phase.invite, CatchStatus(phase.inviter, phase.invitee),
                                phase.inviter, phase.invitee, reply);
            v == Moves(marked, c, Ended(phase.invite, phase.inviter, phase.invitee))
  }

  predicate Run(worlds: seq<World>, steps: seq<Step>) {
    && |worlds| == |steps| + 1
    && forall i :: 0 <= i < |steps| ==> Next(worlds[i], worlds[i + 1], steps[i])
  }

  predicate Initial(w: World) {
    && w.sends == [] && |w.owners| == |w.invites|
    && (forall k :: 0 <= k < |w.invites| ==>
          w.invites[k].status == None && Unmarked(w.invites[k]) && w.owners[k] == None)
    && forall c :: 0 <= c < |w.callers| ==> w.callers[c].phase == Idle
  }

  // ---------------------------------------------------------------------------
  // Each leg once, and evidence for it

  function InviteOf(p: Phase): Option<nat> {
    match p
    case Claimed(k) => Some(k)
    case Half(k, _) => Some(k)
    case Both(k, _, _) => Some(k)
    case Thrown(k, _, _) => Some(k)
    case Ended(k, _, _) => Some(k)
    case _ => None
  }

  predicate Closed(p: Phase) { p.Thrown? || p.Ended? }

  predicate Past(p: Phase, leg: Leg) { p.Both? || Closed(p) || (leg == Inviter && p.Half?) }

  /** The stamps say what the owner's legs returned. */
  predicate Stamped(i: Invite, p: Phase) {
    && Closed(p)
    && (i.inviterRewarded <==> p.inviter != LegFailed) && (i.inviteeRewarded <==> p.invitee != LegFailed)
    && i.status.Some? && Tells(i.status.value, p.inviter, p.invitee)
  }

  predicate CallerOk(w: World, c: nat)
    requires c < |w.callers|
  {
    match InviteOf(w.callers[c].phase)
    case None => true
    case Some(k) => k < |w.invites| == |w.owners| && w.owners[k] == Some(c)
  }

  predicate InviteOk(w: World, k: nat)
    requires k < |w.invites| == |w.owners|
  {
    match w.owners[k]
    case None => w.invites[k].status == None && Unmarked(w.invites[k])
    case Some(c) =>
      && c < |w.callers| && InviteOf(w.callers[c].phase) == Some(k) && w.invites[k].status.Some?
      && if w.invites[k].status == Some(Processing) then Unmarked(w.invites[k])
         else Stamped(w.invites[k], w.callers[c].phase)
  }

  function Allowance(w: World, k: nat, leg: Leg): nat
    requires k < |w.owners|
  {
    if w.owners[k].Some? && w.owners[k].value < |w.callers| && Past(w.callers[w.owners[k].value].phase, leg) then 1 else 0
  }

  predicate SendsOk(w: World) {
    forall s :: s in w.sends ==> s.invite < |w.owners| && multiset(w.sends)[s] <= Allowance(w, s.invite, s.leg)
  }

  predicate Ok(w: World) {
    && |w.owners| == |w.invites|
    && (forall c :: 0 <= c < |w.callers| ==> CallerOk(w, c))
    && (forall k :: 0 <= k < |w.invites| ==> InviteOk(w, k))
    && SendsOk(w)
  }

  /** A caller without a claim moves among the phases without one. */
  lemma {:induction false} FreeStep(w: World, c: nat, phase: Phase)
    requires Ok(w) && c < |w.callers| && InviteOf(w.callers[c].phase) == None && InviteOf(phase) == None
    ensures Ok(Moves(w, c, phase))
  {
    var v := Moves(w, c, phase);
    forall d | 0 <= d < |v.callers| ensures CallerOk(v, d) { assert CallerOk(w, d); }
    forall k | 0 <= k < |v.invites| ensures InviteOk(v, k) { assert InviteOk(w, k); }
    forall s | s in v.sends
      ensures s.invite < |v.owners| && multiset(v.sends)[s] <= Allowance(v, s.invite, s.leg)
    {
      assert InviteOk(w, s.invite);
    }
  }

  lemma {:induction false} ClaimStep(w: World, v: World, c: nat)
    requires Ok(w) && Next(w, v, Claim(c))
    ensures Ok(v)
  {
    var k := w.callers[c].phase.invite;
    if w.invites[k].status.Some? {
      FreeStep(w, c, Quit);
    } else {
      assert InviteOk(w, k);
      forall d | 0 <= d < |v.callers| ensures CallerOk(v, d) { assert CallerOk(w, d); }
      forall j | 0 <= j < |v.invites| ensures InviteOk(v, j) { assert InviteOk(w, j); }
      forall s | s in v.sends
        ensures s.invite < |v.owners| && multiset(v.sends)[s] <= Allowance(v, s.invite, s.leg)
      {
        assert InviteOk(w, s.invite);
      }
    }
  }

  /** An owner moves on, and its invite may be marked. */
  lemma {:induction false} OwnerStep(w: World, v: World, c: nat, k: nat)
    requires Ok(w) && c < |w.callers| == |v.callers| && InviteOf(w.callers[c].phase) == Some(k) && k < |w.invites|
    requires OnlyAt(k, w.invites, v.invites) && v.owners == w.owners && v.sends == w.sends
    requires forall d :: 0 <= d < |w.callers| && d != c ==> v.callers[d] == w.callers[d]
    requires var was, now := w.callers[c].phase, v.callers[c].phase;
             InviteOf(now) == Some(k) && forall leg :: Past(was, leg) ==> Past(now, leg)
    requires InviteOk(v, k)
    ensures Ok(v)
  {
    forall d | 0 <= d < |v.callers| ensures CallerOk(v, d) { assert CallerOk(w, d); }
    forall j | 0 <= j < |v.invites| ensures InviteOk(v, j) { assert InviteOk(w, j) && CallerOk(w, c); }
    forall s | s in v.sends
      ensures s.invite < |v.owners| && multiset(v.sends)[s] <= Allowance(v, s.invite, s.leg)
    {
      assert InviteOk(w, s.invite);
    }
  }

  /** A leg that is now past, and was not, may have been sent just now. */
  lemma {:induction false} SendStep(w: World, v: World, k: nat, leg: Leg)
    requires Ok(v) && k < |w.owners| && v.owners == w.owners && w.sends == v.sends
    requires Allowance(v, k, leg) == 1 && Send(k, leg) !in w.sends
    ensures Ok(v.(sends := v.sends + [Send(k, leg)]))
  {
    var u, sent := v.(sends := v.sends + [Send(k, leg)]), Send(k, leg);
    assert multiset(u.sends) == multiset(v.sends) + multiset{sent};
    forall d | 0 <= d < |u.callers| ensures CallerOk(u, d) { assert CallerOk(v, d); }
    forall j | 0 <= j < |u.invites| ensures InviteOk(u, j) { assert InviteOk(v, j); }
    assert multiset(v.sends)[sent] == 0;
  }

  lemma {:induction false} NotYetSent(w: World, c: nat, k: nat, leg: Leg)
    requires Ok(w) && c < |w.callers| && InviteOf(w.callers[c].phase) == Some(k) && !Past(w.callers[c].phase, leg)
    ensures k < |w.invites| && w.owners[k] == Some(c) && Send(k, leg) !in w.sends
    ensures w.invites[k].status == Some(Processing) || Closed(w.callers[c].phase)
  {
    assert CallerOk(w, c) && InviteOk(w, k);
  }

  lemma {:induction false} PayStep(w: World, c: nat, leg: Leg, wallet: bool, phase: Phase)
    requires Ok(w) && c < |w.callers|
    requires if leg == Inviter then w.callers[c].phase.Claimed? else w.callers[c].phase.Half?
    requires InviteOf(phase) == InviteOf(w.callers[c].phase) && Past(phase, leg)
    ensures Ok(Moves(Sends(w, w.callers[c].phase.invite, leg, wallet), c, phase))
  {
    var k := w.callers[c].phase.invite;
    var v := Moves(w, c, phase);
    NotYetSent(w, c, k, leg);
    assert InviteOk(w, k);
    OwnerStep(w, v, c, k);
    if wallet { SendStep(w, v, k, leg); }
  }

  lemma {:induction false} MarkStep(w: World, c: nat, status: RewardStatus, reply: Reply, phase: Phase)
    requires Ok(w) && c < |w.callers| && InviteOf(w.callers[c].phase).Some? && !w.callers[c].phase.Ended?
    requires !w.callers[c].phase.Half? && Closed(phase) && InviteOf(phase) == InviteOf(w.callers[c].phase)
    requires w.callers[c].phase.Claimed? ==> phase.inviter == phase.invitee == LegFailed
    requires w.callers[c].phase.Both? || w.callers[c].phase.Thrown? ==>
               phase.inviter == w.callers[c].phase.inviter && phase.invitee == w.callers[c].phase.invitee
    requires Tells(status, phase.inviter, phase.invitee)
    ensures Ok(Moves(Marks(w, phase.invite, status, phase.inviter, phase.invitee, reply), c, phase))
  {
    var k := phase.invite;
    assert CallerOk(w, c) && InviteOk(w, k);
    OwnerStep(w, Moves(Marks(w, k, status, phase.inviter, phase.invitee, reply), c, phase), c, k);
  }

  lemma {:induction false} OkStep(w: World, v: World, step: Step)
    requires Ok(w) && Next(w, v, step)
    ensures Ok(v)
  {
    var c := step.caller;
    var p, q := w.callers[c].phase, v.callers[c].phase;
    match step
    case Check(_) => FreeStep(w, c, q);
    case Find(_, _) => FreeStep(w, c, q);
    case Claim(_) => ClaimStep(w, v, c);
    case Fail(_) => MarkStep(w, c, RewardFailed, Refuses, q);
    case EarlyMark(_, status, reply) => MarkStep(w, c, status, reply, q);
    case SendInviter(_, wallet, _) => PayStep(w, c, Inviter, wallet, q);
    case SendInvitee(_, wallet, _) => PayStep(w, c, Invitee, wallet, q);
    case Mark(_, reply) => MarkStep(w, c, FinalStatus(p.inviter, p.invitee), reply, q);
    case CatchMark(_, reply) => MarkStep(w, c, CatchStatus(p.inviter, p.invitee), reply, q);
  }

  /** In every interleaving: no leg of an invite is sent twice, and once any mark has
      landed, the invite is stamped for exactly the legs that returned paid or pending
      to the caller that claimed it, and its status tells of them: failed exactly if both
      are, unless there was nothing to pay. */
  lemma {:induction false} LegsOnceWithEvidence(worlds: seq<World>, steps: seq<Step>, n: nat, k: nat, leg: Leg)
    requires Run(worlds, steps) && n <= |steps| && Initial(worlds[0])
    ensures Ok(worlds[n])
    ensures multiset(worlds[n].sends)[Send(k, leg)] <= 1
    ensures var w := worlds[n];
            k < |w.invites| && w.invites[k].status.Some? && w.invites[k].status != Some(Processing) ==>
              w.owners[k].Some? && w.owners[k].value < |w.callers| && Stamped(w.invites[k], w.callers[w.owners[k].value].phase)
  {
    if n > 0 {
      LegsOnceWithEvidence(worlds, steps, n - 1, k, leg);
      OkStep(worlds[n - 1], worlds[n], steps[n - 1]);
    }
    var w := worlds[n];
    assert Ok(w);
    if k < |w.invites| { assert InviteOk(w, k); }
    if Send(k, leg) !in w.sends { assert multiset(w.sends)[Send(k, leg)] == 0; }
  }

  // ---------------------------------------------------------------------------
  // Once per invitee

  /** Between the exists-check and the claim. */
  predicate InWindow(p: Phase) { p.Checked? || p.Found? }

  /** No call for the same account is in its window when another one checks. */
  predicate Alone(w: World, step: Step) {
    step.Check? && step.caller < |w.callers| ==>
      forall d :: 0 <= d < |w.callers| && InWindow(w.callers[d].phase) ==>
        w.callers[d].account != w.callers[step.caller].account
  }

  predicate OneWindow(w: World) {
    && OncePerInvitee(w.invites)
    && (forall c :: 0 <= c < |w.callers| && InWindow(w.callers[c].phase) ==> !Processed(w.invites, w.callers[c].account))
    && (forall c :: 0 <= c < |w.callers| && w.callers[c].phase.Found? && w.callers[c].phase.invite < |w.invites| ==>
          w.invites[w.callers[c].phase.invite].redeemedBy == w.callers[c].account)
    && (forall c, d :: 0 <= c < d < |w.callers| && InWindow(w.callers[c].phase) && InWindow(w.callers[d].phase) ==>
          w.callers[c].account != w.callers[d].account)
  }

  /** Steps that claim nothing keep redeemers and claims as they are. */
  predicate SameClaims(a: seq<Invite>, b: seq<Invite>) {
    |a| == |b| && forall k :: 0 <= k < |a| ==> a[k].redeemedBy == b[k].redeemedBy && (a[k].status.Some? <==> b[k].status.Some?)
  }

  lemma {:induction false} SameClaimsKeep(w: World, v: World, c: nat)
    requires OneWindow(w) && c < |w.callers| == |v.callers| && SameClaims(w.invites, v.invites)
    requires forall d :: 0 <= d < |w.callers| && d != c ==> v.callers[d] == w.callers[d]
    requires v.callers[c].account == w.callers[c].account
    requires InWindow(v.callers[c].phase) ==>
               && !Processed(v.invites, v.callers[c].account)
               && (v.callers[c].phase.Found? && v.callers[c].phase.invite < |v.invites| ==>
                     v.invites[v.callers[c].phase.invite].redeemedBy == v.callers[c].account)
               && forall d :: 0 <= d < |w.callers| && d != c && InWindow(w.callers[d].phase) ==>
                    w.callers[d].account != w.callers[c].account
    ensures OneWindow(v)
  {}

  lemma {:induction false} ClaimOnce(w: World, v: World, c: nat)
    requires OneWindow(w) && Next(w, v, Claim(c))
    ensures OneWindow(v)
  {
    var k := w.callers[c].phase.invite;
    assert !Processed(w.invites, w.callers[c].account);
  }

  lemma {:induction false} OneWindowStep(w: World, v: World, step: Step)
    requires OneWindow(w) && Ok(w) && Next(w, v, step) && Alone(w, step)
    ensures OneWindow(v)
  {
    var c := step.caller;
    if step.Claim? {
      ClaimOnce(w, v, c);
    } else {
      assert CallerOk(w, c);
      if InviteOf(w.callers[c].phase).Some? { assert InviteOk(w, InviteOf(w.callers[c].phase).value); }
      SameClaimsKeep(w, v, c);
    }
  }

  /** Calls for one account that do not overlap between check and claim reward the
      account once, however many invites it redeemed. */
  lemma {:induction false} OncePerInviteeIfAlone(worlds: seq<World>, steps: seq<Step>, n: nat)
    requires Run(worlds, steps) && n <= |steps| && Initial(worlds[0])
    requires forall i :: 0 <= i < |steps| ==> Alone(worlds[i], steps[i])
    ensures OneWindow(worlds[n]) && OncePerInvitee(worlds[n].invites)
  {
    if n > 0 {
      OncePerInviteeIfAlone(worlds, steps, n - 1);
      LegsOnceWithEvidence(worlds, steps, n - 1, 0, Inviter);
      OneWindowStep(worlds[n - 1], worlds[n], steps[n - 1]);
    }
  }

  function Open(account: AccountId): Invite { Invite(account, true, None, false, false, false) }

  function Taken(account: AccountId): Invite { Open(account).(status := Some(Processing)) }

  /** Both calls look before either claims. */
  lemma {:induction false} BothFind(account: AccountId) returns (worlds: seq<World>, steps: seq<Step>)
    ensures Run(worlds, steps) && Initial(worlds[0])
    ensures var open := Open(account);
            worlds[|steps|] == World([open, open], [None, None], [Caller(account, Found(0)), Caller(account, Checked)], [])
  {
    var open := Open(account);
    var idle, checked := Caller(account, Idle), Caller(account, Checked);
    worlds := [
      World([open, open], [None, None], [idle, idle], []),
      World([open, open], [None, None], [checked, idle], []),
      World([open, open], [None, None], [checked, checked], []),
      World([open, open], [None, None], [Caller(account, Found(0)), checked], [])];
    steps := [Check(0), Check(1), Find(0, 0)];
  }

  lemma {:induction false} RunOn(worlds: seq<World>, steps: seq<Step>, v: World, step: Step)
    requires Run(worlds, steps) && Next(worlds[|steps|], v, step)
    ensures Run(worlds + [v], steps + [step])
  {
    var ws, ss := worlds + [v], steps + [step];
    forall i | 0 <= i < |ss| ensures Next(ws[i], ws[i + 1], ss[i]) {
      if i < |steps| { assert Next(worlds[i], worlds[i + 1], steps[i]); }
    }
  }

  /** Two overlapping calls for an account with two accepted invites claim both. */
  lemma {:induction false} OverlapRewardsTwice(account: AccountId) returns (worlds: seq<World>, steps: seq<Step>)
    ensures Run(worlds, steps) && Initial(worlds[0]) && !OncePerInvitee(worlds[|steps|].invites)
  {
    var open, taken := Open(account), Taken(account);
    var first := Caller(account, Claimed(0));
    var w1 := World([taken, open], [Some(0), None], [first, Caller(account, Checked)], []);
    var w2 := World([taken, open], [Some(0), None], [first, Caller(account, Found(1))], []);
    var w3 := World([taken, taken], [Some(0), Some(1)], [first, Caller(account, Claimed(1))], []);
    worlds, steps := BothFind(account);
    RunOn(worlds, steps, w1, Claim(0));
    worlds, steps := worlds + [w1], steps + [Claim(0)];
    RunOn(worlds, steps, w2, Find(1, 1));
    worlds, steps := worlds + [w2], steps + [Find(1, 1)];
    RunOn(worlds, steps, w3, Claim(1));
    worlds, steps := worlds + [w3], steps + [Claim(1)];
    assert w3.invites[0].status.Some? && w3.invites[1].status.Some?;
  }
}
