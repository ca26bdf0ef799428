/**
  cmd/tx/graph.go: pairing withdraws with deposits of the same asset, first
  come first served, into a transfer graph with the unmatched events as
  orphans; and the address shortening used by the pretty printer.
 */
module Graph {
  import opened Wrappers
  import opened JsonValue
  import opened Chain
  import opened Transfers

  /** `api.Event` as the graph reads it: the type tag and the data object. */
  datatype Event = Event(eventType: string, data: Object)

  datatype Transfer = Transfer(from: string, to: string, asset: string, amount: string)

  datatype OrphanEvent = OrphanEvent(account: string, asset: string, amount: string)

  /** `Orphans`: `In` and `Out` of the Go struct. */
  datatype Orphans = Orphans(incoming: seq<OrphanEvent>, outgoing: seq<OrphanEvent>)

  datatype TransferGraph = TransferGraph(transfers: seq<Transfer>, orphans: Orphans)

  datatype PendingWithdraw = PendingWithdraw(account: string, amount: string)

  /** `pendingWithdraws`: asset -> withdraws of that asset still waiting for a deposit, oldest first. */
  type Queues = map<string, seq<PendingWithdraw>>

  /** `pendingWithdraws[asset]`: a missing asset reads as the empty queue. */
  function QueueOf(pending: Queues, asset: string): seq<PendingWithdraw>
  {
    if asset in pending then pending[asset] else []
  }

  /** `getString(event.Data, "store")` */
  function StoreOf(event: Event): string
  {
    StringField(event.data, "store")
  }

  /** `getString(event.Data, "amount")` */
  function AmountOf(event: Event): string
  {
    StringField(event.data, "amount")
  }

  /** The owner and asset of the event's store: the store map first, the client on a miss. */
  function MetaOf(event: Event, info: map<string, StoreMeta>, client: Client, version: nat): StoreMeta
  {
    ResolveStore(info, client, version, StoreOf(event))
  }

  /* ---------------------------------------------------------------- pairing */

  /** The state of the first loop of `buildTransferGraph`. */
  datatype Pairing = Pairing(transfers: seq<Transfer>, incoming: seq<OrphanEvent>, pending: Queues)

  /** One event of the first loop, its store already resolved. */
  function PairStep(p: Pairing, eventType: string, meta: StoreMeta, amount: string): Pairing
  {
    if eventType == WithdrawEventType then
      p.(pending := p.pending[meta.asset := QueueOf(p.pending, meta.asset) + [PendingWithdraw(meta.owner, amount)]])
    else if eventType == DepositEventType then
      var queue := QueueOf(p.pending, meta.asset);
      if 0 < |queue| then
        p.(transfers := p.transfers + [Transfer(queue[0].account, meta.owner, meta.asset, amount)],
           pending := p.pending[meta.asset := queue[1..]])
      else
        p.(incoming := p.incoming + [OrphanEvent(meta.owner, meta.asset, amount)])
    else
      p
  }

  /** The state after the first loop has seen `events`. */
  function PairAll(events: seq<Event>, info: map<string, StoreMeta>, client: Client, version: nat): Pairing
  {
    if events == [] then Pairing([], [], map[])
    else
      var last := events[|events| - 1];
      PairStep(PairAll(events[..|events| - 1], info, client, version), last.eventType, MetaOf(last, info, client, version), AmountOf(last))
  }

  /** The stores `buildTransferGraph` sends to `queryTransferStoreInfo`: every event's store missing from the map, whatever the event's type. */
  function GraphLookupsOf(events: seq<Event>, info: map<string, StoreMeta>): seq<string>
  {
    if events == [] then []
    else
      var lookups := GraphLookupsOf(events[..|events| - 1], info);
      var store := StoreOf(events[|events| - 1]);
      if store in info then lookups else lookups + [store]
  }

  /** The orphan-out records of one asset's queue, in queue order. */
  function AsOrphans(asset: string, queue: seq<PendingWithdraw>): seq<OrphanEvent>
  {
    if queue == [] then []
    else
      var w := queue[|queue| - 1];
      AsOrphans(asset, queue[..|queue| - 1]) + [OrphanEvent(w.account, asset, w.amount)]
  }

  /** The orphans of one asset, in their order in `orphans`. */
  function OrphansFor(orphans: seq<OrphanEvent>, asset: string): seq<OrphanEvent>
  {
    if orphans == [] then []
    else
      var o := orphans[|orphans| - 1];
      OrphansFor(orphans[..|orphans| - 1], asset) + (if o.asset == asset then [o] else [])
  }

  /** The transfers of one asset, in their order in `transfers`. */
  function TransfersFor(transfers: seq<Transfer>, asset: string): seq<Transfer>
  {
    if transfers == [] then []
    else
      var t := transfers[|transfers| - 1];
      TransfersFor(transfers[..|transfers| - 1], asset) + (if t.asset == asset then [t] else [])
  }

  /** The number of events of one type. */
  function CountType(events: seq<Event>, eventType: string): nat
  {
    if events == [] then 0
    else CountType(events[..|events| - 1], eventType) + (if events[|events| - 1].eventType == eventType then 1 else 0)
  }

  /** The withdraws of one asset in log order, as they are queued. */
  function WithdrawsFor(events: seq<Event>, info: map<string, StoreMeta>, client: Client, version: nat, asset: string): seq<PendingWithdraw>
  {
    if events == [] then []
    else
      var last := events[|events| - 1];
      var meta := MetaOf(last, info, client, version);
      WithdrawsFor(events[..|events| - 1], info, client, version, asset) +
        (if last.eventType == WithdrawEventType && meta.asset == asset then [PendingWithdraw(meta.owner, AmountOf(last))] else [])
  }

  /* ---------------------------------------------------------------- queue sizes */

  /** The number of withdraws waiting in the queues of the assets in `assets`. */
  ghost function QueuedIn(pending: Queues, assets: set<string>): nat
    requires assets <= pending.Keys
  {
    if assets == {} then 0
    else
      var a :| a in assets;
      |pending[a]| + QueuedIn(pending, assets - {a})
  }

  /** The number of withdraws waiting in all queues. */
  ghost function TotalPending(pending: Queues): nat
  {
    QueuedIn(pending, pending.Keys)
  }

  lemma {:induction false} QueuedInRemove(pending: Queues, assets: set<string>, a: string)
    requires assets <= pending.Keys && a in assets
    ensures QueuedIn(pending, assets) == |pending[a]| + QueuedIn(pending, assets - {a})
    decreases assets
  {
    var b :| b in assets && QueuedIn(pending, assets) == |pending[b]| + QueuedIn(pending, assets - {b});
    if b != a {
      QueuedInRemove(pending, assets - {b}, a);
      QueuedInRemove(pending, assets - {a}, b);
      assert assets - {b} - {a} == assets - {a} - {b};
    }
  }

  lemma {:induction false} QueuedInAgree(p1: Queues, p2: Queues, assets: set<string>)
    requires assets <= p1.Keys && assets <= p2.Keys
    requires forall a :: a in assets ==> p1[a] == p2[a]
    ensures QueuedIn(p1, assets) == QueuedIn(p2, assets)
    decreases assets
  {
    if assets != {} {
      var a :| a in assets && QueuedIn(p1, assets) == |p1[a]| + QueuedIn(p1, assets - {a});
      QueuedInRemove(p2, assets, a);
      QueuedInAgree(p1, p2, assets - {a});
    }
  }

  /** Replacing one asset's queue changes the total by the difference in that queue's length. */
  lemma TotalPendingUpdate(pending: Queues, asset: string, queue: seq<PendingWithdraw>)
    ensures TotalPending(pending[asset := queue]) + |QueueOf(pending, asset)| == TotalPending(pending) + |queue|
  {
    var updated := pending[asset := queue];
    var rest := pending.Keys - {asset};
    QueuedInRemove(updated, updated.Keys, asset);
    assert updated.Keys - {asset} == rest;
    QueuedInAgree(updated, pending, rest);
    if asset in pending {
      QueuedInRemove(pending, pending.Keys, asset);
    } else {
      assert pending.Keys == rest;
    }
  }

  /* ---------------------------------------------------------------- the graph */

  /**
    `buildTransferGraph`: the first loop pairs withdraws with deposits per
    asset, the second turns every withdraw still queued into an orphan-out.
    Besides the graph it returns the stores it looked up through the client.
   */
  method BuildTransferGraph(events: seq<Event>, info: map<string, StoreMeta>, client: Client, version: nat)
    returns (graph: TransferGraph, lookups: seq<string>)
    ensures var p := PairAll(events, info, client, version);
      graph.transfers == p.transfers && graph.orphans.incoming == p.incoming &&
      |graph.orphans.outgoing| == TotalPending(p.pending) &&
      (forall asset :: OrphansFor(graph.orphans.outgoing, asset) == AsOrphans(asset, QueueOf(p.pending, asset))) &&
      exists order :: KeyOrder(p.pending, order) && graph.orphans.outgoing == OrphansInOrder(p.pending, order)
    ensures |graph.transfers| + |graph.orphans.incoming| == CountType(events, DepositEventType)
    ensures |graph.transfers| + |graph.orphans.outgoing| == CountType(events, WithdrawEventType)
    ensures lookups == GraphLookupsOf(events, info)
  {
    var transfers, incoming, pending;
    transfers, incoming, pending, lookups := PairEvents(events, info, client, version);
    ghost var order;
    var outgoing;
    outgoing, order := CollectOrphans(pending);
    graph := TransferGraph(transfers, Orphans(incoming, outgoing));
    PairingConservation(events, info, client, version);
  }

  /**
    The first loop of `buildTransferGraph`: every event's store is resolved
    (the map first, the client on a miss, with nothing cached), then a
    withdraw is queued under its asset and a deposit takes the head of its
    asset's queue or becomes an orphan-in.
   */
  method PairEvents(events: seq<Event>, info: map<string, StoreMeta>, client: Client, version: nat)
    returns (transfers: seq<Transfer>, incoming: seq<OrphanEvent>, pending: Queues, lookups: seq<string>)
    ensures Pairing(transfers, incoming, pending) == PairAll(events, info, client, version)
    ensures lookups == GraphLookupsOf(events, info)
  {
    transfers, incoming, pending, lookups := [], [], map[], [];
    var i := 0;
    while i < |events|
      invariant 0 <= i <= |events|
      invariant Pairing(transfers, incoming, pending) == PairAll(events[..i], info, client, version)
      invariant lookups == GraphLookupsOf(events[..i], info)
    {
      assert events[..i + 1][..i] == events[..i];
      var event := events[i];
      var store := StringField(event.data, "store");
      var amount := StringField(event.data, "amount");

      var meta: StoreMeta;
      if store in info {
        meta := info[store];
      } else {
        meta := QueryTransferStoreInfo(client, store, version);
        lookups := lookups + [store];
      }
      assert meta == MetaOf(event, info, client, version);

      if event.eventType == WithdrawEventType {
        pending := pending[meta.asset := QueueOf(pending, meta.asset) + [PendingWithdraw(meta.owner, amount)]];
      } else if event.eventType == DepositEventType {
        var queue := QueueOf(pending, meta.asset);
        if 0 < |queue| {
          var withdraw := queue[0];
          pending := pending[meta.asset := queue[1..]];
          transfers := transfers + [Transfer(withdraw.account, meta.owner, meta.asset, amount)];
        } else {
          incoming := incoming + [OrphanEvent(meta.owner, meta.asset, amount)];
        }
      }
      i := i + 1;
    }
    assert events[..|events|] == events;
  }

  /**
    The second loop of `buildTransferGraph`: the queued withdraws of every
    asset become orphan-outs, queue by queue in queue order, the assets
    visited in an arbitrary order as Go's map iteration visits them.
   */
  method CollectOrphans(pending: Queues) returns (outgoing: seq<OrphanEvent>, ghost order: seq<string>)
    ensures |outgoing| == TotalPending(pending)
    ensures forall asset :: OrphansFor(outgoing, asset) == AsOrphans(asset, QueueOf(pending, asset))
    ensures KeyOrder(pending, order) && outgoing == OrphansInOrder(pending, order)
  {
    outgoing := [];
    order := [];
    var remaining := pending.Keys;
    while remaining != {}
      invariant remaining <= pending.Keys
      invariant |outgoing| + QueuedIn(pending, remaining) == TotalPending(pending)
      invariant forall asset :: OrphansFor(outgoing, asset) == if asset in remaining then [] else AsOrphans(asset, QueueOf(pending, asset))
      invariant VisitedOrder(pending, order, remaining)
      invariant outgoing == OrphansInOrder(pending, order)
      decreases remaining
    {
      var asset :| asset in remaining;
      ghost var before := outgoing;
      OrderExtended(pending, order, remaining, asset);
      order := order + [asset];
      outgoing := AppendOrphans(outgoing, asset, pending[asset]);
      QueuedInRemove(pending, remaining, asset);
      OrphansDrained(before, pending, remaining, asset);
      remaining := remaining - {asset};
    }
    assert KeyOrder(pending, order);
  }

  /**
    Each asset's key appears exactly once in `order`: an order in which Go's
    map iteration may visit the assets.
   */
  ghost predicate KeyOrder(pending: Queues, order: seq<string>)
  {
    (forall i, j :: 0 <= i < j < |order| ==> order[i] != order[j]) &&
    forall asset :: asset in order <==> asset in pending
  }

  /** `order` lists, once each, the assets the second loop has visited: those not in `remaining`. */
  ghost predicate VisitedOrder(pending: Queues, order: seq<string>, remaining: set<string>)
  {
    (forall i, j :: 0 <= i < j < |order| ==> order[i] != order[j]) &&
    forall asset :: asset in order <==> asset in pending && asset !in remaining
  }

  /** Visiting one more asset extends the order and appends that asset's whole queue. */
  lemma OrderExtended(pending: Queues, order: seq<string>, remaining: set<string>, asset: string)
    requires VisitedOrder(pending, order, remaining) && asset in remaining && remaining <= pending.Keys
    ensures VisitedOrder(pending, order + [asset], remaining - {asset})
    ensures OrphansInOrder(pending, order + [asset]) == OrphansInOrder(pending, order) + AsOrphans(asset, pending[asset])
  {
    assert (order + [asset])[..|order|] == order;
  }

  /** The orphan-outs of the queues taken whole, one after another, in `order`. */
  function OrphansInOrder(pending: Queues, order: seq<string>): seq<OrphanEvent>
  {
    if order == [] then []
    else
      var asset := order[|order| - 1];
      OrphansInOrder(pending, order[..|order| - 1]) + AsOrphans(asset, QueueOf(pending, asset))
  }

  /** The inner loop of the second loop: one asset's queue appended as orphan-outs. */
  method AppendOrphans(outgoing: seq<OrphanEvent>, asset: string, queue: seq<PendingWithdraw>)
    returns (extended: seq<OrphanEvent>)
    ensures extended == outgoing + AsOrphans(asset, queue)
  {
    extended := outgoing;
    var j := 0;
    while j < |queue|
      invariant 0 <= j <= |queue|
      invariant extended == outgoing + AsOrphans(asset, queue[..j])
    {
      assert queue[..j + 1][..j] == queue[..j];
      extended := extended + [OrphanEvent(queue[j].account, asset, queue[j].amount)];
      j := j + 1;
    }
    assert queue[..|queue|] == queue;
  }

  /** Draining one more asset keeps the second loop's per-asset invariant. */
  lemma OrphansDrained(before: seq<OrphanEvent>, pending: Queues, remaining: set<string>, asset: string)
    requires asset in remaining && remaining <= pending.Keys
    requires forall a :: OrphansFor(before, a) == if a in remaining then [] else AsOrphans(a, QueueOf(pending, a))
    ensures |AsOrphans(asset, pending[asset])| == |pending[asset]|
    ensures forall a :: OrphansFor(before + AsOrphans(asset, pending[asset]), a) ==
                        if a in remaining - {asset} then [] else AsOrphans(a, QueueOf(pending, a))
  {
    AsOrphansLength(asset, pending[asset]);
    forall a
      ensures OrphansFor(before + AsOrphans(asset, pending[asset]), a) ==
                if a in remaining - {asset} then [] else AsOrphans(a, QueueOf(pending, a))
    {
      OrphansDrainedAt(before, pending, remaining, asset, a, OrphansFor(before, a));
    }
  }

  lemma OrphansDrainedAt(before: seq<OrphanEvent>, pending: Queues, remaining: set<string>, asset: string, a: string,
                         old_a: seq<OrphanEvent>)
    requires asset in remaining && remaining <= pending.Keys
    requires old_a == OrphansFor(before, a)
    requires old_a == if a in remaining then [] else AsOrphans(a, QueueOf(pending, a))
    ensures OrphansFor(before + AsOrphans(asset, pending[asset]), a) ==
              if a in remaining - {asset} then [] else AsOrphans(a, QueueOf(pending, a))
  {
    var added := AsOrphans(asset, pending[asset]);
    OrphansForAppend(before, added, a);
    OrphansForOneAsset(asset, pending[asset], a);
    if a == asset {
      assert old_a == [];
      assert OrphansFor(added, a) == AsOrphans(a, QueueOf(pending, a));
    } else {
      assert OrphansFor(added, a) == [];
      assert old_a + [] == old_a;
    }
  }

  lemma {:induction false} AsOrphansLength(asset: string, queue: seq<PendingWithdraw>)
    ensures |AsOrphans(asset, queue)| == |queue|
  {
    if queue != [] {
      AsOrphansLength(asset, queue[..|queue| - 1]);
    }
  }

  lemma {:induction false} OrphansForAppend(x: seq<OrphanEvent>, y: seq<OrphanEvent>, asset: string)
    ensures OrphansFor(x + y, asset) == OrphansFor(x, asset) + OrphansFor(y, asset)
  {
    if y == [] {
      assert x + y == x;
    } else {
      var y' := y[..|y| - 1];
      assert (x + y)[..|x + y| - 1] == x + y';
      assert (x + y)[|x + y| - 1] == y[|y| - 1];
      OrphansForAppend(x, y', asset);
    }
  }

  lemma {:induction false} OrphansForOneAsset(asset: string, queue: seq<PendingWithdraw>, a: string)
    ensures OrphansFor(AsOrphans(asset, queue), a) == if a == asset then AsOrphans(asset, queue) else []
  {
    if queue != [] {
      var q' := queue[..|queue| - 1];
      var w := queue[|queue| - 1];
      OrphansForOneAsset(asset, q', a);
      OrphansForAppend(AsOrphans(asset, q'), [OrphanEvent(w.account, asset, w.amount)], a);
    }
  }

  /* ---------------------------------------------------------------- properties of the pairing */

  /**
    Counting conservation: every deposit becomes a transfer or an orphan-in, and
    every withdraw becomes a transfer or stays queued.
   */
  lemma {:induction false} PairingConservation(events: seq<Event>, info: map<string, StoreMeta>, client: Client, version: nat)
    ensures var p := PairAll(events, info, client, version);
      |p.transfers| + |p.incoming| == CountType(events, DepositEventType) &&
      |p.transfers| + TotalPending(p.pending) == CountType(events, WithdrawEventType)
  {
    if events == [] {
      assert TotalPending(map[]) == 0;
    } else {
      var prefix := events[..|events| - 1];
      PairingConservation(prefix, info, client, version);
      var p := PairAll(prefix, info, client, version);
      var last := events[|events| - 1];
      var meta := MetaOf(last, info, client, version);
      var queue := QueueOf(p.pending, meta.asset);
      if last.eventType == WithdrawEventType {
        TotalPendingUpdate(p.pending, meta.asset, queue + [PendingWithdraw(meta.owner, AmountOf(last))]);
      } else if last.eventType == DepositEventType && 0 < |queue| {
        TotalPendingUpdate(p.pending, meta.asset, queue[1..]);
      }
    }
  }

  /** The FIFO relation between the matched transfers, the queue and the withdraws of one asset. */
  predicate FifoState(p: Pairing, withdraws: seq<PendingWithdraw>, asset: string)
  {
    var matched := TransfersFor(p.transfers, asset);
    |matched| + |QueueOf(p.pending, asset)| == |withdraws| &&
    QueueOf(p.pending, asset) == withdraws[|matched|..] &&
    forall k :: 0 <= k < |matched| ==> matched[k].from == withdraws[k].account
  }

  lemma TransfersForAppend(transfers: seq<Transfer>, t: Transfer, asset: string)
    ensures TransfersFor(transfers + [t], asset) == TransfersFor(transfers, asset) + (if t.asset == asset then [t] else [])
  {
    assert (transfers + [t])[..|transfers|] == transfers;
  }

  /** A withdraw of the asset joins the back of its queue. */
  lemma FifoWithdraw(p: Pairing, withdraws: seq<PendingWithdraw>, meta: StoreMeta, amount: string, asset: string)
    requires FifoState(p, withdraws, asset)
    ensures FifoState(PairStep(p, WithdrawEventType, meta, amount),
      withdraws + (if meta.asset == asset then [PendingWithdraw(meta.owner, amount)] else []), asset)
  {
    var matched := TransfersFor(p.transfers, asset);
    if meta.asset == asset {
      var w := PendingWithdraw(meta.owner, amount);
      assert (withdraws + [w])[|matched|..] == withdraws[|matched|..] + [w];
      assert forall k :: 0 <= k < |matched| ==> (withdraws + [w])[k] == withdraws[k];
    } else {
      assert withdraws + [] == withdraws;
    }
  }

  /** A deposit of the asset takes the head of its queue, if any. */
  lemma FifoDeposit(p: Pairing, withdraws: seq<PendingWithdraw>, meta: StoreMeta, amount: string, asset: string)
    requires FifoState(p, withdraws, asset)
    ensures FifoState(PairStep(p, DepositEventType, meta, amount), withdraws, asset)
  {
    EventTypesDistinct();
    var queue := QueueOf(p.pending, meta.asset);
    if 0 < |queue| {
      var t := Transfer(queue[0].account, meta.owner, meta.asset, amount);
      var q := p.(transfers := p.transfers + [t], pending := p.pending[meta.asset := queue[1..]]);
      assert PairStep(p, DepositEventType, meta, amount) == q;
      TransfersForAppend(p.transfers, t, asset);
      if meta.asset == asset {
        FifoPop(p, withdraws, asset, t);
      } else {
        assert TransfersFor(q.transfers, asset) == TransfersFor(p.transfers, asset) + [];
        assert QueueOf(q.pending, asset) == QueueOf(p.pending, asset);
      }
    }
  }

  /** Matching the head of the asset's own queue moves one withdraw from the queue to the matched transfers. */
  lemma FifoPop(p: Pairing, withdraws: seq<PendingWithdraw>, asset: string, t: Transfer)
    requires FifoState(p, withdraws, asset)
    requires 0 < |QueueOf(p.pending, asset)| && t.asset == asset && t.from == QueueOf(p.pending, asset)[0].account
    ensures FifoState(p.(transfers := p.transfers + [t], pending := p.pending[asset := QueueOf(p.pending, asset)[1..]]), withdraws, asset)
  {
    var matched := TransfersFor(p.transfers, asset);
    var queue := QueueOf(p.pending, asset);
    TransfersForAppend(p.transfers, t, asset);
    var matched' := matched + [t];
    assert TransfersFor(p.transfers + [t], asset) == matched';
    assert queue[0] == withdraws[|matched|];
    assert queue[1..] == withdraws[|matched| + 1..];
    forall k | 0 <= k < |matched'|
      ensures matched'[k].from == withdraws[k].account
    {
      if k < |matched| {
        assert matched'[k] == matched[k];
      }
    }
  }

  /** One event keeps the FIFO relation of every asset. */
  lemma FifoStep(p: Pairing, withdraws: seq<PendingWithdraw>, eventType: string, meta: StoreMeta, amount: string, asset: string)
    requires FifoState(p, withdraws, asset)
    ensures FifoState(PairStep(p, eventType, meta, amount),
      withdraws + (if eventType == WithdrawEventType && meta.asset == asset then [PendingWithdraw(meta.owner, amount)] else []),
      asset)
  {
    if eventType == WithdrawEventType {
      FifoWithdraw(p, withdraws, meta, amount, asset);
    } else {
      assert withdraws + [] == withdraws;
      if eventType == DepositEventType {
        FifoDeposit(p, withdraws, meta, amount, asset);
      }
    }
  }

  /**
    FIFO per asset: the withdraws of an asset are matched in log order. The
    k-th transfer of the asset comes from the k-th withdraw of the asset, and
    the asset's queue holds exactly the withdraws not yet matched, in order.
   */
  lemma {:induction false} PairingIsFifo(events: seq<Event>, info: map<string, StoreMeta>, client: Client, version: nat, asset: string)
    ensures var p := PairAll(events, info, client, version);
      var withdraws := WithdrawsFor(events, info, client, version, asset);
      var matched := TransfersFor(p.transfers, asset);
      |matched| + |QueueOf(p.pending, asset)| == |withdraws| &&
      QueueOf(p.pending, asset) == withdraws[|matched|..] &&
      forall k :: 0 <= k < |matched| ==> matched[k].from == withdraws[k].account
  {
    if events != [] {
      var prefix := events[..|events| - 1];
      PairingIsFifo(prefix, info, client, version, asset);
      var last := events[|events| - 1];
      FifoStep(PairAll(prefix, info, client, version), WithdrawsFor(prefix, info, client, version, asset),
        last.eventType, MetaOf(last, info, client, version), AmountOf(last), asset);
      assert FifoState(PairAll(events, info, client, version), WithdrawsFor(events, info, client, version, asset), asset);
    }
  }

  /** A deposit pairs with the head of its asset's queue: From is that withdraw's account, To the depositor's owner, Amount the deposit's own amount. */
  lemma DepositPairsWithHead(p: Pairing, meta: StoreMeta, amount: string)
    requires 0 < |QueueOf(p.pending, meta.asset)|
    ensures var q := PairStep(p, DepositEventType, meta, amount);
      var queue := QueueOf(p.pending, meta.asset);
      q.transfers == p.transfers + [Transfer(queue[0].account, meta.owner, meta.asset, amount)] &&
      q.incoming == p.incoming &&
      QueueOf(q.pending, meta.asset) == queue[1..]
  {
  }

  /** A deposit whose asset has no queued withdraw becomes exactly one orphan-in. */
  lemma UnmatchedDepositIsOrphanIn(p: Pairing, meta: StoreMeta, amount: string)
    requires QueueOf(p.pending, meta.asset) == []
    ensures PairStep(p, DepositEventType, meta, amount) ==
      p.(incoming := p.incoming + [OrphanEvent(meta.owner, meta.asset, amount)])
  {
  }

  /** Events of other types change nothing, and no event touches the queue of another asset. */
  lemma StepIsLocal(p: Pairing, eventType: string, meta: StoreMeta, amount: string, asset: string)
    ensures eventType != WithdrawEventType && eventType != DepositEventType ==> PairStep(p, eventType, meta, amount) == p
    ensures meta.asset != asset ==> QueueOf(PairStep(p, eventType, meta, amount).pending, asset) == QueueOf(p.pending, asset)
  {
  }

  /** Transfers and orphans-in are only ever appended to: the graph of a prefix of the log is a prefix of the graph. */
  lemma {:induction false} PairingAppendOnly(events: seq<Event>, n: nat, info: map<string, StoreMeta>, client: Client, version: nat)
    requires n <= |events|
    ensures var p := PairAll(events, info, client, version);
      var q := PairAll(events[..n], info, client, version);
      q.transfers <= p.transfers && q.incoming <= p.incoming
    decreases |events| - n
  {
    if n < |events| {
      var prefix := events[..|events| - 1];
      assert prefix[..n] == events[..n];
      PairingAppendOnly(prefix, n, info, client, version);
    } else {
      assert events[..n] == events;
    }
  }

  /** The client is asked again for every event on a store missing from the map, even one it was already asked about. */
  lemma LookupsAreNotCached(events: seq<Event>, info: map<string, StoreMeta>, event: Event)
    requires StoreOf(event) !in info
    ensures GraphLookupsOf(events + [event], info) == GraphLookupsOf(events, info) + [StoreOf(event)]
  {
    assert (events + [event])[..|events|] == events;
  }

  /** The example of a first-match-wins pairing: W(A,10,X), W(B,5,X), D(C,10,X) gives A->C 10 X and leaves B 5 X queued. */
  lemma FifoExample(client: Client, version: nat)
    ensures var info := map["sa" := StoreMeta("A", "X"), "sb" := StoreMeta("B", "X"), "sc" := StoreMeta("C", "X")];
      var events := [
        Event(WithdrawEventType, map["store" := JString("sa"), "amount" := JString("10")]),
        Event(WithdrawEventType, map["store" := JString("sb"), "amount" := JString("5")]),
        Event(DepositEventType, map["store" := JString("sc"), "amount" := JString("10")])];
      PairAll(events, info, client, version) ==
        Pairing([Transfer("A", "C", "X", "10")], [], map["X" := [PendingWithdraw("B", "5")]])
  {
    var info := map["sa" := StoreMeta("A", "X"), "sb" := StoreMeta("B", "X"), "sc" := StoreMeta("C", "X")];
    var e1 := Event(WithdrawEventType, map["store" := JString("sa"), "amount" := JString("10")]);
    var e2 := Event(WithdrawEventType, map["store" := JString("sb"), "amount" := JString("5")]);
    var e3 := Event(DepositEventType, map["store" := JString("sc"), "amount" := JString("10")]);
    assert [e1, e2, e3][..2] == [e1, e2];
    assert [e1, e2][..1] == [e1];
    assert [e1][..0] == [];
    EventTypesDistinct();
    assert MetaOf(e1, info, client, version) == StoreMeta("A", "X") && AmountOf(e1) == "10";
    assert MetaOf(e2, info, client, version) == StoreMeta("B", "X") && AmountOf(e2) == "5";
    assert MetaOf(e3, info, client, version) == StoreMeta("C", "X") && AmountOf(e3) == "10";
    var w1 := PendingWithdraw("A", "10");
    assert PairAll([e1], info, client, version) == PairStep(Pairing([], [], map[]), WithdrawEventType, StoreMeta("A", "X"), "10");
    assert QueueOf(map[], "X") + [w1] == [w1];
    var p1 := PairAll([e1], info, client, version);
    assert p1 == Pairing([], [], map["X" := [PendingWithdraw("A", "10")]]);
    var w2 := PendingWithdraw("B", "5");
    assert PairAll([e1, e2], info, client, version) == PairStep(p1, WithdrawEventType, StoreMeta("B", "X"), "5");
    assert QueueOf(p1.pending, "X") + [w2] == [w1, w2];
    var p2 := PairAll([e1, e2], info, client, version);
    assert p2 == Pairing([], [], map["X" := [PendingWithdraw("A", "10"), PendingWithdraw("B", "5")]]);
  }

  /** A lone deposit with no earlier withdraw of its asset is an orphan-in and no transfer. */
  lemma OrphanInExample(client: Client, version: nat)
    ensures var info := map["sd" := StoreMeta("D", "Y")];
      var events := [Event(DepositEventType, map["store" := JString("sd"), "amount" := JString("7")])];
      PairAll(events, info, client, version) == Pairing([], [OrphanEvent("D", "Y", "7")], map[])
  {
    var e := Event(DepositEventType, map["store" := JString("sd"), "amount" := JString("7")]);
    assert [e][..0] == [];
  }

  /* ---------------------------------------------------------------- display */

  /** `truncateAddress`: an address longer than 12 characters shortened to its first 6, "..", and its last 4. */
  function TruncateAddress(addr: string): string
  {
    if |addr| <= 12 then addr else addr[..6] + ".." + addr[|addr| - 4..]
  }

  /** Short addresses are kept; longer ones become exactly 12 characters that keep both ends; shortening twice changes nothing. */
  lemma TruncateAddressShape(addr: string)
    ensures var r := TruncateAddress(addr);
      (|addr| <= 12 ==> r == addr) &&
      (12 < |addr| ==> |r| == 12 && r[..6] == addr[..6] && r[6..8] == ".." && r[8..] == addr[|addr| - 4..]) &&
      TruncateAddress(r) == r
  {
  }
}
