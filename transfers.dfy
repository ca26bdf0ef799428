/**
  cmd/tx/transfers.go: the store map built from a transaction's change set,
  the fallback lookup of a store the transaction did not write, and the
  classification of the event log into withdraw and deposit events.
 */
module Transfers {
  import opened Wrappers
  import opened JsonValue
  import opened Chain
  import opened ChangeSet

  /** `transferStoreMetadata`: the owning account and the asset of a fungible store. */
  datatype StoreMeta = StoreMeta(owner: string, asset: string)

  /* ---------------------------------------------------------------- store map */

  /** Second pass of `extractTransferStoreInfo`: only a resource of type exactly `0x1::fungible_asset::FungibleStore`. */
  function TransferStoreRecord(change: Json): Option<StoreRecord>
  {
    match StoreRecordOf(change)
    case None => None
    case Some(r) => if r.resourceType == FungibleStoreType then Some(r) else None
  }

  predicate WritesStore(change: Json, address: string)
  {
    TransferStoreRecord(change).Some? && TransferStoreRecord(change).value.address == address
  }

  /** The store map after the second pass, given the owners found by the first. */
  function StoreInfoOf(changes: seq<Json>, owners: map<string, string>): map<string, StoreMeta>
  {
    if changes == [] then map[]
    else
      var info := StoreInfoOf(changes[..|changes| - 1], owners);
      match TransferStoreRecord(changes[|changes| - 1])
      case None => info
      case Some(r) => info[r.address := StoreMeta(OwnerOf(owners, r.address), r.asset)]
  }

  /** `extractTransferStoreInfo`: the owners pass over the whole change set, then the store pass. */
  method ExtractTransferStoreInfo(tx: Json) returns (info: map<string, StoreMeta>)
    ensures info == StoreInfoOf(ChangesOf(tx), OwnersOf(ChangesOf(tx)))
  {
    info := map[];
    var changes := ChangesOf(tx);
    var owners := CollectObjectOwners(changes);
    var i := 0;
    while i < |changes|
      invariant 0 <= i <= |changes|
      invariant info == StoreInfoOf(changes[..i], owners)
    {
      assert changes[..i + 1][..i] == changes[..i];
      match TransferStoreRecord(changes[i]) {
        case None =>
        case Some(r) =>
          info := info[r.address := StoreMeta(OwnerOf(owners, r.address), r.asset)];
      }
      i := i + 1;
    }
    assert changes[..|changes|] == changes;
  }

  /** A store gets an entry exactly when some change writes an exact FungibleStore resource with a metadata object at its address. */
  lemma {:induction false} StoreInfoDomain(changes: seq<Json>, owners: map<string, string>, address: string)
    ensures address in StoreInfoOf(changes, owners) <==> exists i :: 0 <= i < |changes| && WritesStore(changes[i], address)
  {
    if address in StoreInfoOf(changes, owners) {
      var i := StoreInfoDomainWitness(changes, owners, address);
    }
    if exists i :: 0 <= i < |changes| && WritesStore(changes[i], address) {
      var i :| 0 <= i < |changes| && WritesStore(changes[i], address);
      StoreInfoDomainWritten(changes, owners, address, i);
    }
  }

  /** The position of a write that put the address in the map. */
  lemma {:induction false} StoreInfoDomainWitness(changes: seq<Json>, owners: map<string, string>, address: string) returns (i: nat)
    requires address in StoreInfoOf(changes, owners)
    ensures i < |changes| && WritesStore(changes[i], address)
  {
    var p := changes[..|changes| - 1];
    if WritesStore(changes[|changes| - 1], address) {
      i := |changes| - 1;
    } else {
      i := StoreInfoDomainWitness(p, owners, address);
      assert changes[i] == p[i];
    }
  }

  /** A write at any position puts the address in the map. */
  lemma {:induction false} StoreInfoDomainWritten(changes: seq<Json>, owners: map<string, string>, address: string, i: nat)
    requires i < |changes| && WritesStore(changes[i], address)
    ensures address in StoreInfoOf(changes, owners)
  {
    var p := changes[..|changes| - 1];
    if i < |p| {
      assert p[i] == changes[i];
      StoreInfoDomainWritten(p, owners, address, i);
    }
  }

  /** Of several store writes to one address, the last in change-set order gives the asset. */
  lemma {:induction false} StoreInfoLastWins(changes: seq<Json>, owners: map<string, string>, i: nat)
    requires i < |changes| && TransferStoreRecord(changes[i]).Some?
    requires forall j :: i < j < |changes| ==> !WritesStore(changes[j], TransferStoreRecord(changes[i]).value.address)
    ensures var r := TransferStoreRecord(changes[i]).value;
      r.address in StoreInfoOf(changes, owners) &&
      StoreInfoOf(changes, owners)[r.address] == StoreMeta(OwnerOf(owners, r.address), r.asset)
  {
    if i < |changes| - 1 {
      var p := changes[..|changes| - 1];
      assert p[i] == changes[i];
      forall j | i < j < |p|
        ensures !WritesStore(p[j], TransferStoreRecord(p[i]).value.address)
      {
        assert p[j] == changes[j];
      }
      StoreInfoLastWins(p, owners, i);
      assert !WritesStore(changes[|changes| - 1], TransferStoreRecord(changes[i]).value.address);
    }
  }

  /** Every entry's owner is the owners-map value at the store's own address. */
  lemma {:induction false} StoreInfoOwner(changes: seq<Json>, owners: map<string, string>, address: string)
    requires address in StoreInfoOf(changes, owners)
    ensures StoreInfoOf(changes, owners)[address].owner == OwnerOf(owners, address)
  {
    var p := changes[..|changes| - 1];
    if address in StoreInfoOf(p, owners) {
      StoreInfoOwner(p, owners, address);
    }
  }

  /**
    A store's owner comes from an ObjectCore write anywhere in the change set,
    before or after the store record, and is "" when there is none.
   */
  lemma ExtractedStoreOwner(changes: seq<Json>, address: string)
    requires address in StoreInfoOf(changes, OwnersOf(changes))
    ensures (exists j :: 0 <= j < |changes| && WritesOwner(changes[j], address)) ==>
      address in OwnersOf(changes) &&
      StoreInfoOf(changes, OwnersOf(changes))[address].owner == OwnersOf(changes)[address]
    ensures (forall j :: 0 <= j < |changes| ==> !WritesOwner(changes[j], address)) ==>
      StoreInfoOf(changes, OwnersOf(changes))[address].owner == ""
  {
    StoreInfoOwner(changes, OwnersOf(changes), address);
    OwnersOfDomain(changes, address);
  }

  /* ---------------------------------------------------------------- fallback lookup */

  /** The owner `queryTransferStoreInfo` finds: `data.owner` of the ObjectCore resource, else "". */
  function ResolvedOwner(client: Client, store: string, version: nat): string
  {
    match client.parseAddress(store)
    case None => ""
    case Some(addr) =>
      match client.accountResource(addr, ObjectCoreType, version)
      case None => ""
      case Some(resource) =>
        match ObjectField(resource, "data")
        case None => ""
        case Some(data) => StringField(data, "owner")
  }

  /** The asset `queryTransferStoreInfo` finds: `data.metadata.inner` of the FungibleStore resource, else "". */
  function ResolvedAsset(client: Client, store: string, version: nat): string
  {
    match client.parseAddress(store)
    case None => ""
    case Some(addr) =>
      match client.accountResource(addr, FungibleStoreType, version)
      case None => ""
      case Some(resource) =>
        match ObjectField(resource, "data")
        case None => ""
        case Some(data) =>
          match ObjectField(data, "metadata")
          case None => ""
          case Some(metadata) => StringField(metadata, "inner")
  }

  /** `queryTransferStoreInfo`: never fails; starts from empty fields and overwrites each one its lookup finds. */
  method QueryTransferStoreInfo(client: Client, store: string, version: nat) returns (meta: StoreMeta)
    ensures meta.owner == ResolvedOwner(client, store, version)
    ensures meta.asset == ResolvedAsset(client, store, version)
  {
    meta := StoreMeta("", "");
    var parsed := client.parseAddress(store);
    if parsed.None? {
      return;
    }
    var addr := parsed.value;

    var objCore := client.accountResource(addr, ObjectCoreType, version);
    if objCore.Some? {
      var data := ObjectField(objCore.value, "data");
      if data.Some? && "owner" in data.value && data.value["owner"].JString? {
        meta := meta.(owner := data.value["owner"].s);
      }
    }

    var fsResource := client.accountResource(addr, FungibleStoreType, version);
    if fsResource.Some? {
      var data := ObjectField(fsResource.value, "data");
      if data.Some? {
        var metadata := ObjectField(data.value, "metadata");
        if metadata.Some? && "inner" in metadata.value && metadata.value["inner"].JString? {
          meta := meta.(asset := metadata.value["inner"].s);
        }
      }
    }
  }

  /** An address the client cannot parse resolves to an empty owner and asset, with no resource lookup. */
  lemma UnparseableStoreIsEmpty(client: Client, store: string, version: nat)
    requires client.parseAddress(store).None?
    ensures ResolvedOwner(client, store, version) == "" && ResolvedAsset(client, store, version) == ""
  {
  }

  /**
    The owner and asset lookups are independent: the owner depends only on the
    ObjectCore lookup and the asset only on the FungibleStore lookup, so either
    may fail while the other succeeds.
   */
  lemma LookupsIndependent(c1: Client, c2: Client, store: string, version: nat)
    requires c1.parseAddress(store) == c2.parseAddress(store)
    ensures c1.parseAddress(store).Some? &&
      c1.accountResource(c1.parseAddress(store).value, ObjectCoreType, version) ==
      c2.accountResource(c2.parseAddress(store).value, ObjectCoreType, version)
      ==> ResolvedOwner(c1, store, version) == ResolvedOwner(c2, store, version)
    ensures c1.parseAddress(store).Some? &&
      c1.accountResource(c1.parseAddress(store).value, FungibleStoreType, version) ==
      c2.accountResource(c2.parseAddress(store).value, FungibleStoreType, version)
      ==> ResolvedAsset(c1, store, version) == ResolvedAsset(c2, store, version)
  {
  }

  /** The store map first, the client only on a miss (lines 208-211 of transfers.go, 99-102 of graph.go). */
  function ResolveStore(info: map<string, StoreMeta>, client: Client, version: nat, store: string): StoreMeta
  {
    if store in info then info[store]
    else StoreMeta(ResolvedOwner(client, store, version), ResolvedAsset(client, store, version))
  }

  /* ---------------------------------------------------------------- event log */

  datatype TransferKind = Withdraw | Deposit

  /** The `Type` label of a `TransferEvent`. */
  function Label(kind: TransferKind): string
  {
    match kind
    case Withdraw => "withdraw"
    case Deposit => "deposit"
  }

  /** The two event types that are transfers; every other type is skipped. */
  function KindOf(eventType: string): Option<TransferKind>
  {
    if eventType == WithdrawEventType then Some(Withdraw)
    else if eventType == DepositEventType then Some(Deposit)
    else None
  }

  /** `TransferEvent`; its `Type` field is `Label(kind)`. */
  datatype TransferEvent = TransferEvent(kind: TransferKind, account: string, fungibleStore: string, asset: string, amount: string)

  /** `txMap["Inner"]["Events"]`; a transaction without either has no events. */
  function EventsOf(tx: Json): seq<Json>
  {
    match AsObject(tx)
    case None => []
    case Some(txMap) =>
      match ObjectField(txMap, "Inner")
      case None => []
      case Some(inner) =>
        match ArrayField(inner, "Events")
        case None => []
        case Some(events) => events
  }

  /** The parts of a withdraw or deposit log entry that are read. */
  datatype LogEntry = LogEntry(kind: TransferKind, store: string, amount: string)

  /** A log entry that is an object with a Withdraw or Deposit "Type" and an object "Data". */
  function LogEntryOf(event: Json): Option<LogEntry>
  {
    match AsObject(event)
    case None => None
    case Some(eventMap) =>
      match KindOf(StringField(eventMap, "Type"))
      case None => None
      case Some(kind) =>
        match ObjectField(eventMap, "Data")
        case None => None
        case Some(data) => Some(LogEntry(kind, StringField(data, "store"), StringField(data, "amount")))
  }

  function TransferEventOf(event: Json, info: map<string, StoreMeta>, client: Client, version: nat): Option<TransferEvent>
  {
    match LogEntryOf(event)
    case None => None
    case Some(e) =>
      var meta := ResolveStore(info, client, version, e.store);
      Some(TransferEvent(e.kind, meta.owner, e.store, meta.asset, e.amount))
  }

  /** The events `extractTransferEvents` emits for a log. */
  function TransferEventsOf(log: seq<Json>, info: map<string, StoreMeta>, client: Client, version: nat): seq<TransferEvent>
  {
    if log == [] then []
    else
      var events := TransferEventsOf(log[..|log| - 1], info, client, version);
      match TransferEventOf(log[|log| - 1], info, client, version)
      case None => events
      case Some(ev) => events + [ev]
  }

  /** The stores `extractTransferEvents` passes to `queryTransferStoreInfo`, in call order. */
  function LookupsOf(log: seq<Json>, info: map<string, StoreMeta>): seq<string>
  {
    if log == [] then []
    else
      var lookups := LookupsOf(log[..|log| - 1], info);
      match LogEntryOf(log[|log| - 1])
      case None => lookups
      case Some(e) => if e.store in info then lookups else lookups + [e.store]
  }

  /**
    `extractTransferEvents`. Besides the events it returns the stores it sent to
    the client's resource lookup, which makes the calls the Go code makes
    visible in the model.
   */
  method ExtractTransferEvents(tx: Json, info: map<string, StoreMeta>, client: Client, version: nat)
    returns (events: seq<TransferEvent>, lookups: seq<string>)
    ensures events == TransferEventsOf(EventsOf(tx), info, client, version)
    ensures lookups == LookupsOf(EventsOf(tx), info)
  {
    events := [];
    lookups := [];
    var log := EventsOf(tx);
    var i := 0;
    while i < |log|
      invariant 0 <= i <= |log|
      invariant events == TransferEventsOf(log[..i], info, client, version)
      invariant lookups == LookupsOf(log[..i], info)
    {
      assert log[..i + 1][..i] == log[..i];
      var entry := LogEntryOf(log[i]);
      if entry.Some? {
        var e := entry.value;
        var meta: StoreMeta;
        if e.store in info {
          meta := info[e.store];
        } else {
          meta := QueryTransferStoreInfo(client, e.store, version);
          lookups := lookups + [e.store];
        }
        events := events + [TransferEvent(e.kind, meta.owner, e.store, meta.asset, e.amount)];
      }
      i := i + 1;
    }
    assert log[..|log|] == log;
  }

  /** The indices of the log entries that are withdraw or deposit events, in log order. */
  function EntryIndices(log: seq<Json>): seq<nat>
  {
    if log == [] then []
    else EntryIndices(log[..|log| - 1]) + (if LogEntryOf(log[|log| - 1]).Some? then [|log| - 1] else [])
  }

  /** Every entry index is in range and names a transfer entry. */
  lemma {:induction false} EntryIndicesInRange(log: seq<Json>)
    ensures forall k :: 0 <= k < |EntryIndices(log)| ==>
              EntryIndices(log)[k] < |log| && LogEntryOf(log[EntryIndices(log)[k]]).Some?
  {
    if log != [] {
      var p := log[..|log| - 1];
      EntryIndicesInRange(p);
      var idx := EntryIndices(log);
      var pidx := EntryIndices(p);
      assert forall k :: 0 <= k < |pidx| ==> pidx[k] < |p| && LogEntryOf(p[pidx[k]]).Some?;
      forall k | 0 <= k < |idx|
        ensures idx[k] < |log| && LogEntryOf(log[idx[k]]).Some?
      {
        if k < |pidx| {
          assert idx[k] == pidx[k];
          assert log[pidx[k]] == p[pidx[k]];
        }
      }
    }
  }

  /** The entry indices are strictly increasing. */
  lemma {:induction false} EntryIndicesIncreasing(log: seq<Json>)
    ensures forall k, l :: 0 <= k < l < |EntryIndices(log)| ==> EntryIndices(log)[k] < EntryIndices(log)[l]
  {
    if log != [] {
      var p := log[..|log| - 1];
      EntryIndicesIncreasing(p);
      EntryIndicesInRange(p);
      var idx := EntryIndices(log);
      var pidx := EntryIndices(p);
      forall k, l | 0 <= k < l < |idx|
        ensures idx[k] < idx[l]
      {
        if l < |pidx| {
          assert idx[k] == pidx[k] && idx[l] == pidx[l];
        } else {
          assert idx[k] == pidx[k] && pidx[k] < |p| && idx[l] == |log| - 1;
        }
      }
    }
  }

  /** Every transfer entry of the log has its index listed. */
  lemma {:induction false} EntryIndicesComplete(log: seq<Json>)
    ensures forall i :: 0 <= i < |log| && LogEntryOf(log[i]).Some? ==> i in EntryIndices(log)
  {
    if log != [] {
      var p := log[..|log| - 1];
      EntryIndicesComplete(p);
      forall i | 0 <= i < |log| && LogEntryOf(log[i]).Some?
        ensures i in EntryIndices(log)
      {
        if i < |p| {
          assert p[i] == log[i];
        }
      }
    }
  }

  /**
    One event per Withdraw/Deposit entry whose Data is an object, none for any
    other entry, in log order: the k-th event comes from the k-th such entry
    (whose positions the `EntryIndices` lemmas describe).
   */
  lemma {:induction false} TransferEventsInLogOrder(log: seq<Json>, info: map<string, StoreMeta>, client: Client, version: nat)
    ensures var events := TransferEventsOf(log, info, client, version);
      var idx := EntryIndices(log);
      |events| == |idx| &&
      forall k :: 0 <= k < |idx| ==> idx[k] < |log| && TransferEventOf(log[idx[k]], info, client, version) == Some(events[k])
  {
    EntryIndicesInRange(log);
    if log != [] {
      var p := log[..|log| - 1];
      TransferEventsInLogOrder(p, info, client, version);
      EntryIndicesInRange(p);
      var idx := EntryIndices(log);
      var pidx := EntryIndices(p);
      var events := TransferEventsOf(log, info, client, version);
      var pevents := TransferEventsOf(p, info, client, version);
      forall k | 0 <= k < |idx|
        ensures TransferEventOf(log[idx[k]], info, client, version) == Some(events[k])
      {
        if k < |pidx| {
          assert idx[k] == pidx[k] && events[k] == pevents[k] && log[pidx[k]] == p[pidx[k]];
        }
      }
    }
  }

  /** A log whose every transfer entry names a store in the map never reaches the client: the result is the same whatever the client answers. */
  lemma {:induction false} KnownStoresSkipClient(log: seq<Json>, info: map<string, StoreMeta>, c1: Client, c2: Client, version: nat)
    requires forall i :: 0 <= i < |log| && LogEntryOf(log[i]).Some? ==> LogEntryOf(log[i]).value.store in info
    ensures LookupsOf(log, info) == []
    ensures TransferEventsOf(log, info, c1, version) == TransferEventsOf(log, info, c2, version)
  {
    if log != [] {
      var p := log[..|log| - 1];
      forall i | 0 <= i < |p| && LogEntryOf(p[i]).Some?
        ensures LogEntryOf(p[i]).value.store in info
      {
        assert p[i] == log[i];
      }
      KnownStoresSkipClient(p, info, c1, c2, version);
    }
  }

  /**
    A transfer entry on a store that neither the map nor the client knows
    (its address does not parse, or both resource lookups fail) is still
    reported, with empty owner and asset.
   */
  lemma UnresolvedStoreStillReported(event: Json, info: map<string, StoreMeta>, client: Client, version: nat)
    requires LogEntryOf(event).Some? && LogEntryOf(event).value.store !in info
    requires var store := LogEntryOf(event).value.store;
      client.parseAddress(store).None? ||
      (client.accountResource(client.parseAddress(store).value, ObjectCoreType, version).None? &&
       client.accountResource(client.parseAddress(store).value, FungibleStoreType, version).None?)
    ensures var e := LogEntryOf(event).value;
      TransferEventOf(event, info, client, version) == Some(TransferEvent(e.kind, "", e.store, "", e.amount))
  {
  }

  /** An event's `Type` label is "withdraw" exactly for a Withdraw entry and "deposit" exactly for a Deposit entry. */
  lemma EntryLabel(event: Json)
    requires LogEntryOf(event).Some?
    ensures event.JObject?
    ensures Label(LogEntryOf(event).value.kind) == "withdraw" <==> StringField(event.fields, "Type") == WithdrawEventType
    ensures Label(LogEntryOf(event).value.kind) == "deposit" <==> StringField(event.fields, "Type") == DepositEventType
  {
    EventTypesDistinct();
  }

  /** A transaction that is not an object with an "Inner" object yields an empty store map and no events. */
  lemma NoInnerNoRecords(tx: Json, info: map<string, StoreMeta>, client: Client, version: nat)
    requires !tx.JObject? || ObjectField(tx.fields, "Inner").None?
    ensures StoreInfoOf(ChangesOf(tx), OwnersOf(ChangesOf(tx))) == map[]
    ensures TransferEventsOf(EventsOf(tx), info, client, version) == []
  {
  }
}
