/**
  cmd/tx/balance_change.go: the fungible stores a transaction wrote, each
  store's balance one version earlier, and the exact integer change between
  the two.
 */
module BalanceChange {
  import opened Wrappers
  import opened JsonValue
  import opened Chain
  import opened ChangeSet
  import opened Decimal
  import Transfers

  /** `fungibleStoreInfo` */
  datatype FungibleStoreInfo = FungibleStoreInfo(address: string, owner: string, assetType: string, balance: string)

  /** `BalanceChange` */
  datatype BalanceChange = BalanceChange(
    account: string,
    fungibleStore: string,
    asset: string,
    balanceBefore: string,
    balanceAfter: string,
    change: string)

  /** The command's failures; the two about the version happen before any fetch. */
  datatype Error = InvalidVersion | VersionZero | FetchFailed(version: nat)

  /* ---------------------------------------------------------------- store list */

  /** `strings.Contains(s, sub)` */
  predicate Contains(s: string, sub: string)
  {
    (|sub| <= |s| && s[..|sub|] == sub) || (0 < |s| && Contains(s[1..], sub))
  }

  const StoreTypeMarker: string := "fungible_asset::FungibleStore"

  /** Second pass of `extractFungibleStores`: any resource type that contains `fungible_asset::FungibleStore`. */
  function BalanceStoreRecord(change: Json): Option<StoreRecord>
  {
    match StoreRecordOf(change)
    case None => None
    case Some(r) => if Contains(r.resourceType, StoreTypeMarker) then Some(r) else None
  }

  function FungibleStoreInfoOf(r: StoreRecord, owners: map<string, string>): FungibleStoreInfo
  {
    FungibleStoreInfo(r.address, OwnerOf(owners, r.address), r.asset, r.balance)
  }

  /** The store list after the second pass, given the owners found by the first. */
  function StoresOf(changes: seq<Json>, owners: map<string, string>): seq<FungibleStoreInfo>
  {
    if changes == [] then []
    else
      var stores := StoresOf(changes[..|changes| - 1], owners);
      match BalanceStoreRecord(changes[|changes| - 1])
      case None => stores
      case Some(r) => stores + [FungibleStoreInfoOf(r, owners)]
  }

  /** `extractFungibleStores`: the owners pass over the whole change set, then the store pass appending in order. */
  method ExtractFungibleStores(tx: Json) returns (stores: seq<FungibleStoreInfo>)
    ensures stores == StoresOf(ChangesOf(tx), OwnersOf(ChangesOf(tx)))
  {
    stores := [];
    var changes := ChangesOf(tx);
    var owners := CollectObjectOwners(changes);
    var i := 0;
    while i < |changes|
      invariant 0 <= i <= |changes|
      invariant stores == StoresOf(changes[..i], owners)
    {
      assert changes[..i + 1][..i] == changes[..i];
      match BalanceStoreRecord(changes[i]) {
        case None =>
        case Some(r) =>
          stores := stores + [FungibleStoreInfo(r.address, OwnerOf(owners, r.address), r.asset, r.balance)];
      }
      i := i + 1;
    }
    assert changes[..|changes|] == changes;
  }

  /** The list follows change-set order and keeps every record: it is built record by record, with no merging. */
  lemma {:induction false} StoresOfAppend(a: seq<Json>, b: seq<Json>, owners: map<string, string>)
    ensures StoresOf(a + b, owners) == StoresOf(a, owners) + StoresOf(b, owners)
  {
    if b == [] {
      assert a + b == a;
    } else {
      var b' := b[..|b| - 1];
      assert (a + b)[..|a + b| - 1] == a + b';
      assert (a + b)[|a + b| - 1] == b[|b| - 1];
      StoresOfAppend(a, b', owners);
    }
  }

  /** A record written twice is listed twice. */
  lemma DuplicatesKept(change: Json, owners: map<string, string>)
    requires BalanceStoreRecord(change).Some?
    ensures StoresOf([change, change], owners) == [FungibleStoreInfoOf(BalanceStoreRecord(change).value, owners)] + [FungibleStoreInfoOf(BalanceStoreRecord(change).value, owners)]
  {
    StoresOfAppend([change], [change], owners);
    assert [change] + [change] == [change, change];
  }

  /** Every listed store's owner is the owners-map value at its own address ("" when absent). */
  lemma {:induction false} StoresOfOwner(changes: seq<Json>, owners: map<string, string>)
    ensures forall s :: s in StoresOf(changes, owners) ==> s.owner == OwnerOf(owners, s.address)
  {
    if changes != [] {
      StoresOfOwner(changes[..|changes| - 1], owners);
    }
  }

  lemma {:induction false} ContainsSuffix(prefix: string, sub: string)
    ensures Contains(prefix + sub, sub)
  {
    if prefix == [] {
      assert (prefix + sub)[..|sub|] == sub;
    } else {
      assert (prefix + sub)[1..] == prefix[1..] + sub;
      ContainsSuffix(prefix[1..], sub);
    }
  }

  /**
    Every store record the transfer analysis accepts (type exactly
    `0x1::fungible_asset::FungibleStore`) is listed here as well.
   */
  lemma TransferStoresAreListed(change: Json)
    ensures Transfers.TransferStoreRecord(change).Some? ==> BalanceStoreRecord(change) == Transfers.TransferStoreRecord(change)
  {
    ExactTypeContainsMarker();
  }

  /** `0x1::fungible_asset::FungibleStore` contains the marker. */
  lemma ExactTypeContainsMarker()
    ensures Contains(FungibleStoreType, StoreTypeMarker)
  {
    var prefix := FungibleStoreType[..5];
    assert FungibleStoreType[5..] == StoreTypeMarker;
    assert prefix + FungibleStoreType[5..] == FungibleStoreType;
    ContainsSuffix(prefix, StoreTypeMarker);
  }

  /** This pass also lists stores whose type merely contains the marker, which the transfer analysis skips. */
  lemma OtherStoreTypesListedOnlyHere(change: Json)
    requires StoreRecordOf(change).Some?
    requires Contains(StoreRecordOf(change).value.resourceType, StoreTypeMarker)
    requires StoreRecordOf(change).value.resourceType != FungibleStoreType
    ensures BalanceStoreRecord(change) == StoreRecordOf(change)
    ensures Transfers.TransferStoreRecord(change).None?
  {
  }

  /* ---------------------------------------------------------------- change arithmetic */

  /** The value `big.Int.SetString` leaves for `calculateChange`; 0 stands in where Go leaves it undefined. */
  function ReadBigInt(s: string): int
  {
    match ParseInt(s)
    case Some(v) => v
    case None => 0
  }

  /** `calculateChange`: after - before in unbounded integers, rendered as `big.Int.String` does. */
  function CalculateChange(before: string, after: string): string
  {
    RenderInt(ReadBigInt(after) - ReadBigInt(before))
  }

  /**
    For well-formed decimals the change is the canonical text of after - before:
    it reads back as that difference, it is "0" exactly when the two values are
    equal, and it starts with '-' exactly when the balance went down.
   */
  lemma CalculateChangeIsDifference(before: string, after: string)
    requires WellFormed(before) && WellFormed(after)
    ensures var c := CalculateChange(before, after);
      Canonical(c) &&
      ParseInt(c) == Some(ParseInt(after).value - ParseInt(before).value) &&
      (c == "0" <==> ParseInt(after).value == ParseInt(before).value) &&
      (c[0] == '-' <==> ParseInt(after).value < ParseInt(before).value)
  {
    var d := ParseInt(after).value - ParseInt(before).value;
    var c := CalculateChange(before, after);
    assert c == RenderInt(d);
    ParseRenderInt(d);
    if d < 0 {
      assert c[0] == '-';
      assert c != "0";
    } else {
      assert c == RenderNat(d);
      assert IsDigit(c[0]);
      if d == 0 {
        assert c == "0";
      } else {
        assert ParseInt("0") == Some(0) by {
          assert Magnitude("0") == "0";
        }
        assert c != "0";
      }
    }
  }

  /** The change between equal texts is "0", whatever they hold. */
  lemma CalculateChangeSame(balance: string)
    ensures CalculateChange(balance, balance) == "0"
  {
  }

  /* ---------------------------------------------------------------- per-store deltas */

  /** The balance one version earlier: `data.balance` of the FungibleStore resource, "0" when the resource or the string is missing. */
  function PriorBalance(client: Client, addr: AccountAddress, priorVersion: nat): string
  {
    match client.accountResource(addr, FungibleStoreType, priorVersion)
    case None => "0"
    case Some(resource) =>
      match ObjectField(resource, "data")
      case None => "0"
      case Some(data) => if "balance" in data && data["balance"].JString? then data["balance"].s else "0"
  }

  /** One store's entry: skipped when its address does not parse or the change is "0". */
  function ChangeOf(store: FungibleStoreInfo, client: Client, priorVersion: nat): Option<BalanceChange>
  {
    match client.parseAddress(store.address)
    case None => None
    case Some(addr) =>
      var before := PriorBalance(client, addr, priorVersion);
      var change := CalculateChange(before, store.balance);
      if change == "0" then None
      else Some(BalanceChange(store.owner, store.address, store.assetType, before, store.balance, change))
  }

  function BalanceChangesOf(stores: seq<FungibleStoreInfo>, client: Client, priorVersion: nat): seq<BalanceChange>
  {
    if stores == [] then []
    else
      var changes := BalanceChangesOf(stores[..|stores| - 1], client, priorVersion);
      match ChangeOf(stores[|stores| - 1], client, priorVersion)
      case None => changes
      case Some(c) => changes + [c]
  }

  /** What `runBalanceChange` reports for a fetched transaction: the changes of its stores, in list order, against `priorVersion`. */
  function BalanceReport(tx: Json, client: Client, priorVersion: nat): seq<BalanceChange>
  {
    var changes := ChangesOf(tx);
    BalanceChangesOf(StoresOf(changes, OwnersOf(changes)), client, priorVersion)
  }

  /** The part of `runBalanceChange` after the fetch: list the stores, then compare each against `priorVersion`. */
  method ReportBalanceChanges(tx: Json, client: Client, priorVersion: nat) returns (changes: seq<BalanceChange>)
    ensures changes == BalanceReport(tx, client, priorVersion)
  {
    var stores := ExtractFungibleStores(tx);
    changes := CollectBalanceChanges(stores, client, priorVersion);
  }

  /**
    The outcome of `runBalanceChange` for the argument `arg`, case by case:
    a non-numeric version and version 0 are rejected before any fetch, a
    failed fetch is an error, and otherwise the fetched transaction's report
    is taken against the previous version.
   */
  function BalanceChangeOutcome(arg: string, client: Client): Result<seq<BalanceChange>, Error>
  {
    match ParseUint64(arg)
    case None => Failure(InvalidVersion)
    case Some(version) =>
      if version == 0 then Failure(VersionZero)
      else match client.transactionByVersion(version)
        case None => Failure(FetchFailed(version))
        case Some(tx) => Success(BalanceReport(tx, client, version - 1))
  }

  /**
    `runBalanceChange` without the output encoding: reads the version, rejects
    a non-numeric one and 0 before fetching, fetches the transaction, lists its
    stores and reports each store's change against the previous version.
   */
  method RunBalanceChange(arg: string, client: Client) returns (r: Result<seq<BalanceChange>, Error>)
    ensures r == BalanceChangeOutcome(arg, client)
  {
    var parsed := ParseUint64(arg);
    if parsed.None? {
      return Failure(InvalidVersion);
    }
    var version := parsed.value;
    if version == 0 {
      return Failure(VersionZero);
    }

    var txCurrent := client.transactionByVersion(version);
    if txCurrent.None? {
      return Failure(FetchFailed(version));
    }

    var tx := txCurrent.value;
    var changes := ReportBalanceChanges(tx, client, version - 1);
    r := Success(changes);
  }

  /**
    The per-store loop of `runBalanceChange`: for each store in list order,
    skip it when its address does not parse, read its balance at the previous
    version ("0" when missing), and report it unless the change is "0".
   */
  method CollectBalanceChanges(stores: seq<FungibleStoreInfo>, client: Client, priorVersion: nat)
    returns (changes: seq<BalanceChange>)
    ensures changes == BalanceChangesOf(stores, client, priorVersion)
    ensures forall c :: c in changes ==> c.change != "0" && c.change == CalculateChange(c.balanceBefore, c.balanceAfter)
  {
    changes := [];
    var i := 0;
    while i < |stores|
      invariant 0 <= i <= |stores|
      invariant changes == BalanceChangesOf(stores[..i], client, priorVersion)
    {
      assert stores[..i + 1][..i] == stores[..i];
      var store := stores[i];
      i := i + 1;
      var addr := client.parseAddress(store.address);
      if addr.None? {
        assert ChangeOf(store, client, priorVersion).None?;
        continue;
      }

      var prevBalance := "0";
      var prevResource := client.accountResource(addr.value, FungibleStoreType, priorVersion);
      if prevResource.Some? {
        var data := ObjectField(prevResource.value, "data");
        if data.Some? && "balance" in data.value && data.value["balance"].JString? {
          prevBalance := data.value["balance"].s;
        }
      }

      var change := CalculateChange(prevBalance, store.balance);
      assert prevBalance == PriorBalance(client, addr.value, priorVersion);
      if change == "0" {
        assert ChangeOf(store, client, priorVersion).None?;
        continue;
      }
      changes := changes + [BalanceChange(store.owner, store.address, store.assetType, prevBalance, store.balance, change)];
    }
    assert stores[..|stores|] == stores;
    ReportedChangesNonZero(stores, client, priorVersion);
  }

  /**
    Every reported change is non-zero and is exactly `calculateChange` of the
    reported balances; for well-formed balances the two values differ.
   */
  lemma {:induction false} ReportedChangesNonZero(stores: seq<FungibleStoreInfo>, client: Client, priorVersion: nat)
    ensures forall c :: c in BalanceChangesOf(stores, client, priorVersion) ==>
      c.change != "0" && c.change == CalculateChange(c.balanceBefore, c.balanceAfter) &&
      (WellFormed(c.balanceBefore) && WellFormed(c.balanceAfter) ==>
        ParseInt(c.balanceAfter).value != ParseInt(c.balanceBefore).value)
  {
    if stores != [] {
      ReportedChangesNonZero(stores[..|stores| - 1], client, priorVersion);
      var last := ChangeOf(stores[|stores| - 1], client, priorVersion);
      if last.Some? && WellFormed(last.value.balanceBefore) && WellFormed(last.value.balanceAfter) {
        CalculateChangeIsDifference(last.value.balanceBefore, last.value.balanceAfter);
      }
    }
  }

  /** Output order is store order: the loop treats each store on its own. */
  lemma {:induction false} BalanceChangesAppend(a: seq<FungibleStoreInfo>, b: seq<FungibleStoreInfo>, client: Client, priorVersion: nat)
    ensures BalanceChangesOf(a + b, client, priorVersion) == BalanceChangesOf(a, client, priorVersion) + BalanceChangesOf(b, client, priorVersion)
  {
    if b == [] {
      assert a + b == a;
    } else {
      var b' := b[..|b| - 1];
      assert (a + b)[..|a + b| - 1] == a + b';
      assert (a + b)[|a + b| - 1] == b[|b| - 1];
      BalanceChangesAppend(a, b', client, priorVersion);
    }
  }

  /** A store whose address does not parse is skipped without disturbing the stores around it. */
  lemma UnparseableStoreSkipped(a: seq<FungibleStoreInfo>, store: FungibleStoreInfo, b: seq<FungibleStoreInfo>, client: Client, priorVersion: nat)
    requires client.parseAddress(store.address).None?
    ensures BalanceChangesOf(a + [store] + b, client, priorVersion) == BalanceChangesOf(a + b, client, priorVersion)
  {
    BalanceChangesAppend(a + [store], b, client, priorVersion);
    BalanceChangesAppend(a, [store], client, priorVersion);
    BalanceChangesAppend(a, b, client, priorVersion);
    assert BalanceChangesOf([store], client, priorVersion) == [];
  }

  /**
    A store with no resource at the previous version counts from "0": a
    canonical non-zero balance is reported with itself as the change.
   */
  lemma NewStoreReportsItsBalance(store: FungibleStoreInfo, client: Client, priorVersion: nat)
    requires client.parseAddress(store.address).Some?
    requires client.accountResource(client.parseAddress(store.address).value, FungibleStoreType, priorVersion).None?
    requires Canonical(store.balance) && store.balance != "0"
    ensures ChangeOf(store, client, priorVersion) ==
      Some(BalanceChange(store.owner, store.address, store.assetType, "0", store.balance, store.balance))
  {
    var addr := client.parseAddress(store.address).value;
    assert PriorBalance(client, addr, priorVersion) == "0";
    CalculateChangeFromZero(store.balance);
  }

  /** Against a zero prior balance the change of a canonical balance is that balance itself. */
  lemma CalculateChangeFromZero(balance: string)
    requires Canonical(balance)
    ensures CalculateChange("0", balance) == balance
  {
    RenderParseInt(balance);
    assert ReadBigInt("0") == 0 by {
      assert Magnitude("0") == "0";
    }
    assert ReadBigInt(balance) - ReadBigInt("0") == ParseInt(balance).value;
  }

  /** Version 1 is accepted (only 0 is rejected); the balance change is then taken against version 0. */
  lemma VersionOneAccepted(client: Client)
    ensures BalanceChangeOutcome("0", client) == Failure(VersionZero)
    ensures BalanceChangeOutcome("1", client) ==
      match client.transactionByVersion(1)
      case None => Failure(FetchFailed(1))
      case Some(tx) => Success(BalanceReport(tx, client, 0))
  {
  }
}
