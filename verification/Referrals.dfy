/** Referral rewards (award-referral-reward.ts): an atomic claim on the invite, two
    independent payment legs, and a final mark that keeps the evidence. */
module Referrals {
  import opened Common

  type AccountId = string

  datatype Leg = Inviter | Invitee

  datatype PayResult = LegPaid | LegPending | LegFailed

  datatype RewardStatus = Processing | RewardPaid | RewardPending | RewardPartial | RewardFailed

  /** The reward fields of an invite. */
  datatype Invite = Invite(
    redeemedBy: AccountId,
    accepted: bool,
    status: Option<RewardStatus>,
    inviterRewarded: bool,
    inviteeRewarded: bool,
    rewarded: bool)

  datatype Send = Send(invite: nat, leg: Leg)

  // ---------------------------------------------------------------------------
  // Marks

  /** The status of the final mark. */
  function FinalStatus(inviter: PayResult, invitee: PayResult): RewardStatus {
    if inviter == LegPaid && invitee == LegPaid then RewardPaid
    else if inviter == LegFailed && invitee == LegFailed then RewardFailed
    else if inviter == LegFailed || invitee == LegFailed then RewardPartial
    else RewardPending
  }

  /** Only a fully paid reward is paid, only a fully failed one failed; a leg that may
      still be on its way keeps the rest from looking settled. */
  lemma {:induction false} FinalStatusMeans(inviter: PayResult, invitee: PayResult)
    ensures var status := FinalStatus(inviter, invitee);
            && (status == RewardPaid <==> inviter == LegPaid && invitee == LegPaid)
            && (status == RewardFailed <==> inviter == LegFailed && invitee == LegFailed)
            && (status == RewardPartial <==> (inviter == LegFailed) != (invitee == LegFailed))
            && (status == RewardPending ==> inviter == LegPending || invitee == LegPending)
            && status != Processing
  {}

  /** The status of the mark in the catch. */
  function CatchStatus(inviter: PayResult, invitee: PayResult): RewardStatus {
    if inviter != LegFailed || invitee != LegFailed then RewardPartial else RewardFailed
  }

  /** After a throw the reward counts as failed exactly if no leg returned paid or pending,
      and is never settled. */
  lemma {:induction false} CatchStatusMeans(inviter: PayResult, invitee: PayResult)
    ensures CatchStatus(inviter, invitee) == RewardFailed <==> inviter == LegFailed && invitee == LegFailed
    ensures CatchStatus(inviter, invitee) == RewardPartial <==> inviter != LegFailed || invitee != LegFailed
  {}

  function Marked(i: Invite, status: RewardStatus, inviter: PayResult, invitee: PayResult): Invite {
    i.(status := Some(status),
       inviterRewarded := i.inviterRewarded || inviter != LegFailed,
       inviteeRewarded := i.inviteeRewarded || invitee != LegFailed,
       rewarded := i.rewarded || status == RewardPaid)
  }

  /** What a status says of the legs. Paid with two failed legs is the mark of a reward
      with nothing to pay. */
  predicate Tells(status: RewardStatus, inviter: PayResult, invitee: PayResult) {
    var failed := inviter == LegFailed && invitee == LegFailed;
    match status
    case Processing => false
    case RewardPaid => failed || (inviter == LegPaid && invitee == LegPaid)
    case RewardPending => inviter != LegFailed && invitee != LegFailed
    case RewardPartial => !failed
    case RewardFailed => failed
  }

  /** What a marked invite must tell a reconciliation: a leg that returned paid or
      pending is stamped, one that returned failed is not; the status is failed exactly
      if both are, and paid only if both are, or there was nothing to pay. */
  predicate Evident(i: Invite, inviter: PayResult, invitee: PayResult, nothingToPay: bool) {
    && (i.inviterRewarded <==> inviter != LegFailed)
    && (i.inviteeRewarded <==> invitee != LegFailed)
    && i.status.Some? && Tells(i.status.value, inviter, invitee)
    && (i.status == Some(RewardPaid) ==> i.rewarded)
    && (i.rewarded ==> nothingToPay || (inviter == LegPaid && invitee == LegPaid))
  }

  predicate Unmarked(i: Invite) { !i.inviterRewarded && !i.inviteeRewarded && !i.rewarded }

  // ---------------------------------------------------------------------------
  // One call

  /** How a send ends for the caller: a result, or a throw after the money may have left. */
  datatype SendReply = Returns(result: PayResult) | Throws

  /** The amount is missing if anything throws before the legs; the funding wallet if no
      account holds the role or it has no wallet. */
  datatype Replies = Replies(
    amount: Option<nat>,
    fundingWallet: bool,
    inviterWallet: bool,
    inviteeWallet: bool,
    inviter: SendReply,
    invitee: SendReply,
    mark: Reply,
    catchMark: Reply)

  predicate Processed(invites: seq<Invite>, account: AccountId) {
    exists k :: 0 <= k < |invites| && invites[k].redeemedBy == account && invites[k].status.Some?
  }

  predicate Claimable(i: Invite, account: AccountId) { i.redeemedBy == account && i.accepted && i.status == None }

  /** No invitee has two invites claimed for a reward. */
  predicate OncePerInvitee(invites: seq<Invite>) {
    forall j, k :: 0 <= j < k < |invites| && invites[j].status.Some? && invites[k].status.Some? ==>
      invites[j].redeemedBy != invites[k].redeemedBy
  }

  /** The legs one call may send: each at most once. */
  predicate LegsOf(k: nat, legs: seq<Send>) {
    || legs == [] || legs == [Send(k, Inviter)] || legs == [Send(k, Invitee)]
    || legs == [Send(k, Inviter), Send(k, Invitee)]
  }

  /** A call gets as far as paying. */
  predicate Pays(o: Replies) { o.amount.Some? && o.amount.value > 0 && o.fundingWallet }

  /** What the caller knows of a leg afterwards. */
  function ResultOf(sent: bool, reply: SendReply): PayResult {
    if sent && reply.Returns? then reply.result else LegFailed
  }

  /** Something between claim and last mark threw, an unconfirmed mark included. */
  predicate Throwing(o: Replies) {
    || o.amount == None || o.mark != Works
    || (Pays(o) && ((o.inviterWallet && o.inviter.Throws?) || (o.inviteeWallet && o.invitee.Throws?)))
  }

  /** The status of a call that did not throw. */
  function Settles(o: Replies, inviter: PayResult, invitee: PayResult): RewardStatus {
    if o.amount == Some(0) then RewardPaid else if !o.fundingWallet then RewardFailed else FinalStatus(inviter, invitee)
  }

  predicate Claims(invites: seq<Invite>, account: AccountId, enabled: bool, pick: nat, won: bool) {
    enabled && !Processed(invites, account) && pick < |invites| && Claimable(invites[pick], account) && won
  }

  predicate OnlyAt(k: nat, before: seq<Invite>, after: seq<Invite>) {
    |before| == |after| && forall j :: 0 <= j < |before| && j != k ==> after[j] == before[j]
  }

  class InviteBook {
    var invites: seq<Invite>
    var sends: seq<Send>

    constructor (initial: seq<Invite>)
      ensures invites == initial && sends == []
    {
      invites, sends := initial, [];
    }

    /** markReward; false if it throws. */
    method MarkReward(k: nat, status: RewardStatus, inviter: PayResult, invitee: PayResult, reply: Reply) returns (ok: bool)
      requires k < |invites|
      modifies this`invites
      ensures invites == if reply == Refuses then old(invites)
                         else old(invites)[k := Marked(old(invites)[k], status, inviter, invitee)]
      ensures ok <==> reply == Works
    {
      if reply != Refuses { invites := invites[k := Marked(invites[k], status, inviter, invitee)]; }
      ok := reply == Works;
    }

    /** payParty */
    method PayParty(k: nat, leg: Leg, wallet: bool, reply: SendReply) returns (r: SendReply)
      modifies this`sends
      ensures sends == old(sends) + if wallet then [Send(k, leg)] else []
      ensures r == if wallet then reply else Returns(LegFailed)
    {
      if !wallet { return Returns(LegFailed); }
      sends := sends + [Send(k, leg)];
      r := reply;
    }

    /** The part under its own catch: `thrown`, with the results so far. */
    method Attempt(k: nat, o: Replies) returns (inviter: PayResult, invitee: PayResult, thrown: bool, ghost legs: seq<Send>)
      requires k < |invites|
      modifies this
      ensures sends == old(sends) + legs && LegsOf(k, legs)
      ensures Send(k, Inviter) in legs <==> Pays(o) && o.inviterWallet
      ensures Send(k, Invitee) in legs <==> Pays(o) && !(o.inviterWallet && o.inviter.Throws?) && o.inviteeWallet
      ensures inviter == ResultOf(Send(k, Inviter) in legs, o.inviter)
      ensures invitee == ResultOf(Send(k, Invitee) in legs, o.invitee)
      ensures OnlyAt(k, old(invites), invites)
      ensures thrown <==> Throwing(o)
      ensures !thrown ==> invites[k].status == Some(Settles(o, inviter, invitee))
      ensures old(invites)[k].status.Some? ==> invites[k].status.Some?
      ensures invites[k].redeemedBy == old(invites)[k].redeemedBy
      ensures Unmarked(old(invites)[k]) ==>
                || (thrown && invites[k] == old(invites)[k])
                || Evident(invites[k], inviter, invitee, o.amount == Some(0))
    {
      inviter, invitee, thrown, legs := LegFailed, LegFailed, true, [];
      if o.amount == None { return; }
      if o.amount == Some(0) {
        var ok := MarkReward(k, RewardPaid, LegFailed, LegFailed, o.mark);
        thrown := !ok;
        return;
      }
      if !o.fundingWallet {
        var ok := MarkReward(k, RewardFailed, LegFailed, LegFailed, o.mark);
        thrown := !ok;
        return;
      }
      var first := PayParty(k, Inviter, o.inviterWallet, o.inviter);
      legs := if o.inviterWallet then [Send(k, Inviter)] else [];
      if first.Throws? { return; }
      inviter := first.result;
      var second := PayParty(k, Invitee, o.inviteeWallet, o.invitee);
      legs := legs + if o.inviteeWallet then [Send(k, Invitee)] else [];
      if second.Throws? { return; }
      invitee := second.result;
      var ok := MarkReward(k, FinalStatus(inviter, invitee), inviter, invitee, o.mark);
      thrown := !ok;
    }

    /** awardReferralRewardOnKycApproval. `pick` is the claimable invite the query returns,
        `won` whether the claim was not lost to a concurrent caller. A call whose last
        mark lands leaves the evidence, the catch included; a processed invitee is left
        alone, so calls that do not overlap reward an invitee once. */
    method Award(account: AccountId, enabled: bool, pick: nat, won: bool, o: Replies)
      returns (claimed: Option<nat>, inviter: PayResult, invitee: PayResult, ghost legs: seq<Send>)
      modifies this
      ensures claimed.None? ==> invites == old(invites) && legs == []
      ensures sends == old(sends) + legs
      ensures claimed == if Claims(old(invites), account, enabled, pick, won) then Some(pick) else None
      ensures claimed.Some? ==>
                && old(invites)[claimed.value].redeemedBy == account && old(invites)[claimed.value].accepted
                && (forall j :: 0 <= j < |old(invites)| && old(invites)[j].redeemedBy == account ==> old(invites)[j].status == None)
      ensures claimed.Some? ==>
                && OnlyAt(claimed.value, old(invites), invites) && invites[claimed.value].status.Some?
                && LegsOf(claimed.value, legs)
                && inviter == ResultOf(Send(claimed.value, Inviter) in legs, o.inviter)
                && invitee == ResultOf(Send(claimed.value, Invitee) in legs, o.invitee)
                && (Send(claimed.value, Inviter) in legs <==> Pays(o) && o.inviterWallet)
                && (!Throwing(o) ==> invites[claimed.value].status == Some(Settles(o, inviter, invitee)))
                && (Throwing(o) && o.catchMark != Refuses ==>
                      invites[claimed.value].status == Some(CatchStatus(inviter, invitee)))
                && (Unmarked(old(invites)[claimed.value]) && o.catchMark != Refuses ==>
                      Evident(invites[claimed.value], inviter, invitee, o.amount == Some(0)))
      ensures OncePerInvitee(old(invites)) ==> OncePerInvitee(invites)
    {
      claimed, inviter, invitee, legs := None, LegFailed, LegFailed, [];
      if !enabled { return; }
      if Processed(invites, account) { return; }
      if pick >= |invites| || !Claimable(invites[pick], account) { return; }
      if !won { return; }
      invites := invites[pick := invites[pick].(status := Some(Processing))];
      claimed := Some(pick);
      var thrown;
      inviter, invitee, thrown, legs := Attempt(pick, o);
      if thrown {
        var _ := MarkReward(pick, CatchStatus(inviter, invitee), inviter, invitee, o.catchMark);
      }
    }
  }
}
