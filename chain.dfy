/**
  The boundary to the Aptos node: the SDK client's address parser, its
  historical resource lookup and its transaction fetch. None of them is
  modelled; each is a parameter of the analysis.
 */
module Chain {
  import opened Wrappers
  import opened JsonValue

  /** `aptos.AccountAddress`: 32 bytes. */
  type AccountAddress = b: seq<bv8> | |b| == 32 witness seq(32, _ => 0 as bv8)

  const ObjectCoreType: string := "0x1::object::ObjectCore"
  const FungibleStoreType: string := "0x1::fungible_asset::FungibleStore"
  const WithdrawEventType: string := "0x1::fungible_asset::Withdraw"
  const DepositEventType: string := "0x1::fungible_asset::Deposit"

  /** The two transfer event types are different strings. */
  lemma EventTypesDistinct()
    ensures WithdrawEventType != DepositEventType
  {
    assert WithdrawEventType[21] != DepositEventType[21];
  }

  /**
    The capabilities of `*aptos.Client` that the analysis uses:
    - parseAddress: `AccountAddress.ParseStringRelaxed`, None on error;
    - accountResource: `client.AccountResource(address, type, version)`, the decoded
      resource object, None on any error (not found or transport);
    - transactionByVersion: `client.TransactionByVersion(version)` as decoded JSON,
      None on any error.
   */
  datatype Client = Client(
    parseAddress: string -> Option<AccountAddress>,
    accountResource: (AccountAddress, string, nat) -> Option<Object>,
    transactionByVersion: nat -> Option<Json>)
}
