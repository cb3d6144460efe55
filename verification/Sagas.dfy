/** The state a migration saga works on: the stored record, the wallets, and the
    payments that left them. Every service call has a reply chosen by the
    environment; a lost reply means the call took effect but the caller saw an
    error, or died before it could act on the answer. */
module Sagas {
  import opened Common
  import opened Migrations

  datatype StepError = InvalidTransition | MissingField | ServiceFailed | WriteFailed | FailClosed

  type Outcome = Result<Migration, StepError>

  /** Balances in pico; the account's default wallet. */
  datatype Wallets = Wallets(legacy: nat, destination: nat, treasury: nat, pointer: WalletId)

  /** Every payment that left a wallet, with what decided its amount. */
  datatype Payment =
    | ForwardMove(units: nat)
    | FeeReimbursement(moved: nat, fixed: Option<nat>, sender: Option<nat>)
    | Reverse(micros: nat, target: nat, spendable: nat)
    | TopUp(micros: nat)

  datatype State = State(
    rec: Migration,
    wallets: Wallets,
    payments: seq<Payment>,
    lastRead: Option<nat>)

  function UnitsToPico(units: nat): nat { units * 10000 }

  function MicrosToPico(micros: nat): nat { micros * 1000000 }

  class Saga {
    var rec: Migration
    var wallets: Wallets
    var payments: seq<Payment>
    var lastRead: Option<nat>

    ghost function View(): State
      reads this
    {
      State(rec, wallets, payments, lastRead)
    }

    constructor (inserted: Migration, initial: Wallets)
      ensures View() == State(inserted, initial, [], None)
    {
      rec, wallets, payments, lastRead := inserted, initial, [], None;
    }

    /** transitionMigration: the guarded update on (status). */
    method Write(from: Status, to: Status, change: Change, reply: Reply) returns (r: Outcome)
      modifies this`rec
      ensures reply == Refuses || old(rec).status != from ==> r == Err(WriteFailed) && rec == old(rec)
      ensures reply != Refuses && old(rec).status == from ==>
                && rec == Apply(old(rec), Transition(from, to, change))
                && r == if reply == Lost then Err(WriteFailed) else Ok(rec)
    {
      if reply == Refuses || rec.status != from { return Err(WriteFailed); }
      rec := Patched(rec, change).(status := to);
      r := if reply == Lost then Err(WriteFailed) else Ok(rec);
    }

    /** flipDefaultWallet of the account service. */
    method FlipDefaultWallet(to: WalletId, reply: Reply) returns (r: Result<WalletId, StepError>)
      modifies this`wallets
      ensures wallets == if reply == Refuses then old(wallets) else old(wallets).(pointer := to)
      ensures r == if reply == Works then Ok(old(wallets).pointer) else Err(ServiceFailed)
    {
      if reply == Refuses { return Err(ServiceFailed); }
      var previous := wallets.pointer;
      wallets := wallets.(pointer := to);
      r := if reply == Lost then Err(ServiceFailed) else Ok(previous);
    }
  }
}
