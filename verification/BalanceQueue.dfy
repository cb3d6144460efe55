/** The operator dashboard's balance reader (cash-wallet-cutover-dashboard.ts): a queue
    with one asynchronous worker. Code between two awaits runs without interruption,
    so an interleaving is any sequence of calls of the methods below. */
module BalanceQueue {
  import opened Common

  type WalletId = string

  datatype Request = Request(wallet: WalletId, currency: string)

  datatype Cached = Loading | Read(balance: int) | Failing

  /** A running loop: waiting for the balance of the wallet it took, or done but not yet
      with the clean-up behind it. */
  datatype Loop = Awaiting(wallet: WalletId) | Finishing(thrown: bool)

  function Ids(queue: seq<Request>): set<WalletId> { set r | r in queue :: r.wallet }

  predicate NoDuplicates(queue: seq<Request>) {
    forall i, j :: 0 <= i < j < |queue| ==> queue[i].wallet != queue[j].wallet
  }

  function Left(loops: seq<Loop>): (n: nat)
    ensures |loops| == 1 ==> n == if loops[0].Awaiting? then 2 else 1
  {
    if loops == [] then 0 else Left(loops[1..]) + if loops[0].Awaiting? then 2 else 1
  }

  /** The handle is the promise the code keeps and tests; the loops are what runs. A call
      that finds no handle starts a loop, whatever is running. */
  class Dashboard {
    var queue: seq<Request>
    var queuedIds: set<WalletId>
    var active: Option<WalletId>
    var handle: bool
    var loops: seq<Loop>
    var cache: map<WalletId, Cached>
    var rejections: nat

    /** Never two loops; one exactly while there is a handle and an active wallet, and
        always while requests wait. The active wallet is not queued, and the one a loop
        waits for is the active one. */
    ghost predicate Valid()
      reads this
    {
      && queuedIds == Ids(queue) && NoDuplicates(queue)
      && |loops| <= 1 && (handle <==> loops != []) && (active.Some? <==> loops != [])
      && (active.Some? ==> active.value !in queuedIds)
      && (queue != [] ==> loops != [])
      && (forall l :: l in loops && l.Awaiting? ==>
            active == Some(l.wallet) && l.wallet in cache && cache[l.wallet] == Loading)
    }

    /** What is left to do; every step of a loop takes some away. */
    function Work(): nat
      reads this
    {
      2 * |queue| + Left(loops)
    }

    constructor ()
      ensures Valid() && queue == [] && loops == [] && cache == map[] && rejections == 0
    {
      queue, queuedIds, active, handle, loops, cache, rejections := [], {}, None, false, [], map[], 0;
    }

    /** Loop k up to its next await: take the first request, or leave. */
    method Advance(k: nat)
      requires queuedIds == Ids(queue) && NoDuplicates(queue)
      requires |loops| == 1 && k == 0 && handle && (queue == [] ==> active.Some?)
      modifies this
      ensures Valid()
      ensures old(queue) != [] ==>
                && queue == old(queue)[1..] && active == Some(old(queue)[0].wallet)
                && loops == [Awaiting(old(queue)[0].wallet)] && cache == old(cache)[old(queue)[0].wallet := Loading]
      ensures old(queue) == [] ==>
                queue == [] && active == old(active) && loops == [Finishing(false)] && cache == old(cache)
      ensures rejections == old(rejections)
    {
      if |queue| > 0 {
        var request := queue[0];
        assert queue == [request] + queue[1..];
        queue := queue[1..];
        queuedIds := queuedIds - {request.wallet};
        active := Some(request.wallet);
        cache := cache[request.wallet := Loading];
        loops := loops[k := Awaiting(request.wallet)];
      } else {
        loops := loops[k := Finishing(false)];
      }
    }

    /** runBalanceWorker: a loop is started only without a handle, and then none runs. */
    method RunBalanceWorker()
      requires queuedIds == Ids(queue) && NoDuplicates(queue)
      requires !handle ==> queue != [] && active == None && loops == []
      requires handle ==> Valid()
      modifies this
      ensures Valid() && rejections == old(rejections)
      ensures old(handle) ==>
                queue == old(queue) && active == old(active) && loops == old(loops) && cache == old(cache)
      ensures !old(handle) ==>
                && queue == old(queue)[1..] && active == Some(old(queue)[0].wallet)
                && loops == [Awaiting(old(queue)[0].wallet)] && cache == old(cache)[old(queue)[0].wallet := Loading]
    {
      if handle { return; }
      handle := true;
      loops := loops + [Finishing(false)];
      Advance(|loops| - 1);
    }

    /** The read of loop k came back: store it under the loop's own wallet and go on. */
    method Resume(k: nat, result: Cached)
      requires Valid() && k < |loops| && loops[k].Awaiting? && result != Loading
      modifies this
      ensures Valid() && Work() < old(Work()) && rejections == old(rejections)
      ensures queue == (if old(queue) == [] then [] else old(queue)[1..])
      ensures old(queue) == [] ==> loops == [Finishing(false)] && cache == old(cache)[old(active).value := result]
      ensures old(queue) != [] ==>
                && loops == [Awaiting(old(queue)[0].wallet)] && active == Some(old(queue)[0].wallet)
                && cache == old(cache)[old(active).value := result][old(queue)[0].wallet := Loading]
    {
      cache := cache[loops[k].wallet := result];
      Advance(k);
    }

    /** The read of loop k threw: the loop is left with the cache entry as it was. */
    method Throw(k: nat)
      requires Valid() && k < |loops| && loops[k].Awaiting?
      modifies this`loops
      ensures Valid() && Work() < old(Work()) && loops == [Finishing(true)]
    {
      loops := loops[k := Finishing(true)];
    }

    /** The clean-up behind loop k: a queue that grew meanwhile gets a new loop. The
        promise of a loop that threw is rejected, and nobody waits for it. */
    method Finally(k: nat)
      requires Valid() && k < |loops| && loops[k].Finishing?
      modifies this
      ensures Valid() && Work() < old(Work())
      ensures rejections == old(rejections) + if old(loops)[k].thrown then 1 else 0
      ensures old(queue) == [] ==> queue == [] && loops == [] && active == None && cache == old(cache)
      ensures old(queue) != [] ==>
                && queue == old(queue)[1..] && active == Some(old(queue)[0].wallet)
                && loops == [Awaiting(old(queue)[0].wallet)] && cache == old(cache)[old(queue)[0].wallet := Loading]
    {
      if loops[k].thrown { rejections := rejections + 1; }
      loops := loops[..k] + loops[k + 1..];
      active, handle := None, false;
      if |queue| > 0 { RunBalanceWorker(); }
    }

    /** enqueueBalance */
    method EnqueueBalance(request: Request, force: bool)
      requires Valid()
      modifies this
      ensures Valid() && rejections == old(rejections)
      ensures var id := request.wallet;
              if (!force && id in old(cache) && old(cache)[id] != Loading) || id in old(queuedIds) || old(active) == Some(id)
              then queue == old(queue) && active == old(active) && loops == old(loops) && cache == old(cache)
              else if old(loops) == []
              then queue == [] && active == Some(id) && loops == [Awaiting(id)] && cache == old(cache)[id := Loading]
              else queue == old(queue) + [request] && active == old(active) && loops == old(loops) && cache == old(cache)
    {
      var id := request.wallet;
      if !force && id in cache && cache[id] != Loading { return; }
      if id in queuedIds || active == Some(id) { return; }
      queuedIds := queuedIds + {id};
      queue := queue + [request];
      RunBalanceWorker();
    }
  }
}
