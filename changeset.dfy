/**
  Decoding of a transaction's change set, shared by the transfer and the
  balance-change analyses: the tolerant reading of one `write_resource`
  record, and the first pass that maps object addresses to their owners.
 */
module ChangeSet {
  import opened Wrappers
  import opened JsonValue
  import opened Chain

  /** `txMap["Inner"]["Changes"]`; a transaction without either has no changes. */
  function ChangesOf(tx: Json): seq<Json>
  {
    match AsObject(tx)
    case None => []
    case Some(txMap) =>
      match ObjectField(txMap, "Inner")
      case None => []
      case Some(inner) =>
        match ArrayField(inner, "Changes")
        case None => []
        case Some(changes) => changes
  }

  /** The parts of a `write_resource` change both passes read. */
  datatype WrittenResource = WrittenResource(address: string, resourceType: string, data: Option<Object>)

  /**
    A change that is an object whose "Type" is the string "write_resource",
    whose "Inner" is an object and whose "Inner.data" is an object. The
    address and the resource type read as "" when they are not strings.
   */
  function WrittenResourceOf(change: Json): Option<WrittenResource>
  {
    match AsObject(change)
    case None => None
    case Some(changeMap) =>
      if StringField(changeMap, "Type") != "write_resource" then None
      else
        match ObjectField(changeMap, "Inner")
        case None => None
        case Some(changeInner) =>
          match ObjectField(changeInner, "data")
          case None => None
          case Some(resourceData) =>
            Some(WrittenResource(
              StringField(changeInner, "address"),
              StringField(resourceData, "type"),
              ObjectField(resourceData, "data")))
  }

  datatype OwnerRecord = OwnerRecord(address: string, owner: string)

  /** An `0x1::object::ObjectCore` write whose data is an object: the object's address and owner. */
  function ObjectCoreRecord(change: Json): Option<OwnerRecord>
  {
    match WrittenResourceOf(change)
    case None => None
    case Some(w) =>
      if w.resourceType != ObjectCoreType || w.data.None? then None
      else Some(OwnerRecord(w.address, StringField(w.data.value, "owner")))
  }

  /** The fields of a fungible-store record; which resource types qualify is up to each pass. */
  datatype StoreRecord = StoreRecord(address: string, resourceType: string, asset: string, balance: string)

  /** A resource write whose data is an object holding a "metadata" object. */
  function StoreRecordOf(change: Json): Option<StoreRecord>
  {
    match WrittenResourceOf(change)
    case None => None
    case Some(w) =>
      match w.data
      case None => None
      case Some(data) =>
        match ObjectField(data, "metadata")
        case None => None
        case Some(metadata) =>
          Some(StoreRecord(w.address, w.resourceType, StringField(metadata, "inner"), StringField(data, "balance")))
  }

  predicate WritesOwner(change: Json, address: string)
  {
    ObjectCoreRecord(change).Some? && ObjectCoreRecord(change).value.address == address
  }

  /** The owners map after the first pass over `changes`: each ObjectCore write overwrites its address. */
  function OwnersOf(changes: seq<Json>): map<string, string>
  {
    if changes == [] then map[]
    else
      var owners := OwnersOf(changes[..|changes| - 1]);
      match ObjectCoreRecord(changes[|changes| - 1])
      case None => owners
      case Some(r) => owners[r.address := r.owner]
  }

  /** Go's `owners[address]`: the owner, or the zero value "" when the address is absent. */
  function OwnerOf(owners: map<string, string>, address: string): string
  {
    if address in owners then owners[address] else ""
  }

  /** First pass of `extractTransferStoreInfo` and of `extractFungibleStores`. */
  method CollectObjectOwners(changes: seq<Json>) returns (owners: map<string, string>)
    ensures owners == OwnersOf(changes)
  {
    owners := map[];
    var i := 0;
    while i < |changes|
      invariant 0 <= i <= |changes|
      invariant owners == OwnersOf(changes[..i])
    {
      assert changes[..i + 1][..i] == changes[..i];
      match ObjectCoreRecord(changes[i]) {
        case None =>
        case Some(r) =>
          owners := owners[r.address := r.owner];
      }
      i := i + 1;
    }
    assert changes[..|changes|] == changes;
  }

  /** An address has an owner exactly when some ObjectCore write in the change set names it. */
  lemma {:induction false} OwnersOfDomain(changes: seq<Json>, address: string)
    ensures address in OwnersOf(changes) <==> exists i :: 0 <= i < |changes| && WritesOwner(changes[i], address)
  {
    if address in OwnersOf(changes) {
      var i := OwnersOfDomainWitness(changes, address);
    }
    if exists i :: 0 <= i < |changes| && WritesOwner(changes[i], address) {
      var i :| 0 <= i < |changes| && WritesOwner(changes[i], address);
      OwnersOfDomainWritten(changes, address, i);
    }
  }

  /** The position of a write that put the address in the map. */
  lemma {:induction false} OwnersOfDomainWitness(changes: seq<Json>, address: string) returns (i: nat)
    requires address in OwnersOf(changes)
    ensures i < |changes| && WritesOwner(changes[i], address)
  {
    var p := changes[..|changes| - 1];
    if WritesOwner(changes[|changes| - 1], address) {
      i := |changes| - 1;
    } else {
      i := OwnersOfDomainWitness(p, address);
      assert changes[i] == p[i];
    }
  }

  /** A write at any position puts the address in the map. */
  lemma {:induction false} OwnersOfDomainWritten(changes: seq<Json>, address: string, i: nat)
    requires i < |changes| && WritesOwner(changes[i], address)
    ensures address in OwnersOf(changes)
  {
    var p := changes[..|changes| - 1];
    if i < |p| {
      assert p[i] == changes[i];
      OwnersOfDomainWritten(p, address, i);
    }
  }

  /** Of several ObjectCore writes to one address, the last in change-set order gives the owner. */
  lemma {:induction false} OwnersOfLastWins(changes: seq<Json>, i: nat)
    requires i < |changes| && ObjectCoreRecord(changes[i]).Some?
    requires forall j :: i < j < |changes| ==> !WritesOwner(changes[j], ObjectCoreRecord(changes[i]).value.address)
    ensures ObjectCoreRecord(changes[i]).value.address in OwnersOf(changes)
    ensures OwnersOf(changes)[ObjectCoreRecord(changes[i]).value.address] == ObjectCoreRecord(changes[i]).value.owner
  {
    if i < |changes| - 1 {
      var p := changes[..|changes| - 1];
      assert p[i] == changes[i];
      forall j | i < j < |p|
        ensures !WritesOwner(p[j], ObjectCoreRecord(p[i]).value.address)
      {
        assert p[j] == changes[j];
      }
      OwnersOfLastWins(p, i);
      assert !WritesOwner(changes[|changes| - 1], ObjectCoreRecord(changes[i]).value.address);
    }
  }
}
